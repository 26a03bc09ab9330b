/** The app component around the tracker: the saved-journey list, loading a
    journey onto the map, clearing, and the planned-route geometry. */
module Journeys {
  import opened Types
  import opened Tracking

  /** A map coordinate, latitude first (Leaflet's order). */
  datatype LatLng = LatLng(lat: real, lng: real)

  /** A routing-service coordinate, longitude first (GeoJSON's order). */
  datatype LonLat = LonLat(lon: real, lat: real)

  /** A search hit; the coordinates are already parsed to numbers. */
  datatype Place = Place(lat: real, lon: real, displayName: string)

  /** What the routing service returns: metres, seconds, and the geometry. */
  datatype RouteData = RouteData(distance: real, duration: real, coordinates: seq<LonLat>)

  datatype RouteInfo = RouteInfo(distance: real, duration: real)

  /** The component state the model keeps: the tracker, the saved list, the
      journey shown on the map, the search box, and the planned route. */
  datatype App = App(
    tracking: TrackingState,
    savedRoutes: seq<SavedRoute>,
    loadedSavedRoute: Option<SavedRoute>,
    searchQuery: string,
    searchResults: seq<Place>,
    plannedRoute: seq<LatLng>,
    plannedRouteInfo: Option<RouteInfo>)

  const InitialApp := App(Initial, [], None, "", [], [], None)

  /** `handleSaveRoute`: the journey goes at the end of the list; nothing
      before it moves. */
  function SaveRoute(app: App, route: SavedRoute): (r: App)
    ensures |r.savedRoutes| == |app.savedRoutes| + 1
    ensures r.savedRoutes[..|app.savedRoutes|] == app.savedRoutes
    ensures r.savedRoutes[|app.savedRoutes|] == route
    ensures r == app.(savedRoutes := r.savedRoutes)
  {
    app.(savedRoutes := app.savedRoutes + [route])
  }

  /** Hands the journey a stop emitted, if any, to `handleSaveRoute`. */
  function Finish(app: App, stopped: Stopped): (r: App)
    ensures r.tracking == stopped.state
    ensures stopped.saved.None? ==> r.savedRoutes == app.savedRoutes
    ensures stopped.saved.Some? ==> r.savedRoutes == app.savedRoutes + [stopped.saved.value]
  {
    var app1 := app.(tracking := stopped.state);
    if stopped.saved.Some? then SaveRoute(app1, stopped.saved.value) else app1
  }

  /** The Stop button: the list grows by one journey exactly when the path
      had at least two points. */
  function StopAndSave(app: App, now: int): (r: App)
    ensures |r.savedRoutes| == |app.savedRoutes| + (if |app.tracking.path| > 1 then 1 else 0)
    ensures r.savedRoutes[..|app.savedRoutes|] == app.savedRoutes
    ensures |app.tracking.path| > 1 ==> r.savedRoutes[|app.savedRoutes|].path == app.tracking.path
    ensures r.tracking.status == Idle && r.tracking.path == app.tracking.path
  {
    Finish(app, Stop(app.tracking, now))
  }

  /** A location error, which stops (and so may save) before reporting. */
  function FailAndSave(app: App, code: int, now: int): (r: App)
    ensures |r.savedRoutes| == |app.savedRoutes| + (if |app.tracking.path| > 1 then 1 else 0)
    ensures r.savedRoutes[..|app.savedRoutes|] == app.savedRoutes
    ensures r.tracking.error == Some(ErrorMessage(code))
  {
    Finish(app, Fail(app.tracking, code, now))
  }

  /** `savedRoutes.filter(r => r.timestamp !== timestamp)`. */
  function Without(rs: seq<SavedRoute>, timestamp: int): (out: seq<SavedRoute>)
    ensures |out| <= |rs|
    ensures forall x :: x in out <==> x in rs && x.timestamp != timestamp
  {
    if rs == [] then []
    else (if rs[0].timestamp != timestamp then [rs[0]] else []) + Without(rs[1..], timestamp)
  }

  /** Deleting keeps the order of the journeys that stay: removal works
      piecewise on any split of the list. */
  lemma {:induction false} WithoutAppend(a: seq<SavedRoute>, b: seq<SavedRoute>, timestamp: int)
    ensures Without(a + b, timestamp) == Without(a, timestamp) + Without(b, timestamp)
    decreases |a|
  {
    if a != [] {
      assert (a + b)[0] == a[0] && (a + b)[1..] == a[1..] + b;
      WithoutAppend(a[1..], b, timestamp);
      var head := if a[0].timestamp != timestamp then [a[0]] else [];
      calc {
        Without(a + b, timestamp);
        head + Without(a[1..] + b, timestamp);
        head + (Without(a[1..], timestamp) + Without(b, timestamp));
        (head + Without(a[1..], timestamp)) + Without(b, timestamp);
      }
    } else {
      assert a + b == b;
    }
  }

  /** Deleting a timestamp no journey carries changes nothing. */
  lemma {:induction false} WithoutAbsent(rs: seq<SavedRoute>, timestamp: int)
    requires forall i :: 0 <= i < |rs| ==> rs[i].timestamp != timestamp
    ensures Without(rs, timestamp) == rs
    decreases |rs|
  {
    if rs != [] {
      WithoutAbsent(rs[1..], timestamp);
      assert rs == [rs[0]] + rs[1..];
    }
  }

  /** `handleDeleteRoute`: removes every journey with that timestamp, keeps
      the rest, and takes the loaded journey off the map only when it is the
      one deleted. */
  function DeleteRoute(app: App, timestamp: int): (r: App)
    ensures r.savedRoutes == Without(app.savedRoutes, timestamp)
    ensures forall x :: x in r.savedRoutes <==> x in app.savedRoutes && x.timestamp != timestamp
    ensures app.loadedSavedRoute.Some? && app.loadedSavedRoute.value.timestamp == timestamp ==> r.loadedSavedRoute == None
    ensures !(app.loadedSavedRoute.Some? && app.loadedSavedRoute.value.timestamp == timestamp) ==> r.loadedSavedRoute == app.loadedSavedRoute
    ensures r == app.(savedRoutes := r.savedRoutes, loadedSavedRoute := r.loadedSavedRoute)
  {
    var loaded :=
      if app.loadedSavedRoute.Some? && app.loadedSavedRoute.value.timestamp == timestamp then None
      else app.loadedSavedRoute;
    app.(savedRoutes := Without(app.savedRoutes, timestamp), loadedSavedRoute := loaded)
  }

  /** Saving a journey under a fresh timestamp and then deleting that
      timestamp restores the list. */
  lemma DeleteUndoesSave(app: App, route: SavedRoute)
    requires forall i :: 0 <= i < |app.savedRoutes| ==> app.savedRoutes[i].timestamp != route.timestamp
    ensures DeleteRoute(SaveRoute(app, route), route.timestamp).savedRoutes == app.savedRoutes
  {
    WithoutAppend(app.savedRoutes, [route], route.timestamp);
    WithoutAbsent(app.savedRoutes, route.timestamp);
    assert [route][1..] == [];
  }

  /** `handleClearRoute`: the tracker's hard reset, and the planned route,
      search and loaded journey all cleared. The saved list stays. */
  function ClearRoute(app: App): (r: App)
    ensures r.tracking == Clear(app.tracking)
    ensures r.savedRoutes == app.savedRoutes
    ensures r.plannedRoute == [] && r.plannedRouteInfo == None
    ensures r.searchQuery == "" && r.searchResults == [] && r.loadedSavedRoute == None
  {
    App(Clear(app.tracking), app.savedRoutes, None, "", [], [], None)
  }

  /** `handleLoadRoute`: a full clear, then the journey is shown. */
  function LoadRoute(app: App, route: SavedRoute): (r: App)
    ensures r == ClearRoute(app).(loadedSavedRoute := Some(route))
    ensures r.tracking.status == Idle && r.tracking.path == [] && r.tracking.stats == ZeroStats
    ensures r.savedRoutes == app.savedRoutes && r.plannedRoute == []
  {
    ClearRoute(app).(loadedSavedRoute := Some(route))
  }

  /** The route geometry conversion: each `[lon, lat]` becomes `[lat, lon]`,
      same count, same order. */
  function ToLatLngs(coords: seq<LonLat>): (r: seq<LatLng>)
    ensures |r| == |coords|
    ensures forall i :: 0 <= i < |coords| ==> r[i].lat == coords[i].lat && r[i].lng == coords[i].lon
  {
    seq(|coords|, i requires 0 <= i < |coords| => LatLng(coords[i].lat, coords[i].lon))
  }

  /** The opposite conversion, back to the routing service's order. */
  function ToLonLats(points: seq<LatLng>): (r: seq<LonLat>)
    ensures |r| == |points|
  {
    seq(|points|, i requires 0 <= i < |points| => LonLat(points[i].lng, points[i].lat))
  }

  /** The conversion loses nothing: converting back gives the geometry the
      routing service sent. */
  lemma SwapRoundTrip(coords: seq<LonLat>)
    ensures ToLonLats(ToLatLngs(coords)) == coords
  {
  }

  /** The tracked path as the map draws it, `[lat, lng]` per point. */
  function PathForMap(path: seq<GeoPosition>): (r: seq<LatLng>)
    ensures |r| == |path|
  {
    seq(|path|, i requires 0 <= i < |path| => LatLng(path[i].lat, path[i].lng))
  }

  /** A path sent to the routing service's coordinate order and converted
      back is the path the map draws. */
  lemma ConversionMatchesMapPath(path: seq<GeoPosition>)
    ensures ToLatLngs(seq(|path|, i requires 0 <= i < |path| => LonLat(path[i].lng, path[i].lat))) == PathForMap(path)
  {
  }

  /** The part of `handleSelectPlace` after the routing request: without a
      current position nothing changes; otherwise the search closes, the
      planned route is reset, and a returned route is shown with its
      geometry converted to map order. `result` is the routing service's
      answer, None on failure. */
  function SelectPlace(app: App, place: Place, result: Option<RouteData>): (r: App)
    ensures app.tracking.position.None? ==> r == app
    ensures app.tracking.position.Some? ==>
      && r.searchResults == [] && r.searchQuery == place.displayName
      && (result.None? ==> r.plannedRoute == [] && r.plannedRouteInfo == None)
      && (result.Some? ==>
            && ToLonLats(r.plannedRoute) == result.value.coordinates
            && r.plannedRouteInfo == Some(RouteInfo(result.value.distance, result.value.duration)))
      && r.tracking == app.tracking && r.savedRoutes == app.savedRoutes
  {
    if app.tracking.position.None? then app
    else
      var reset := app.(searchResults := [], searchQuery := place.displayName,
                        plannedRoute := [], plannedRouteInfo := None);
      match result
      case None => reset
      case Some(rd) =>
        SwapRoundTrip(rd.coordinates);
        reset.(plannedRoute := ToLatLngs(rd.coordinates),
               plannedRouteInfo := Some(RouteInfo(rd.distance, rd.duration)))
  }
}
