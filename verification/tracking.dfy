/** The live-tracking state machine of `useTracking`: one immutable state
    record and one pure transition function per event. Every event that reads
    the clock takes the current time `now` in milliseconds. */
module Tracking {
  import opened Types

  datatype Status = Idle | Tracking | Paused

  /** What `navigator.geolocation` offers when a watch is requested: either no
      geolocation support at all, or a fresh watch handle. */
  datatype Locator = Unsupported | Supported(handle: int)

  /** The hook's React state and refs as one record. `totalDurationMs` is the
      active time of the intervals already closed by a pause; the source keeps
      the same quantity in seconds, as `ms / 1000`. */
  datatype TrackingState = TrackingState(
    status: Status,
    position: Option<GeoPosition>,
    path: seq<GeoPosition>,
    stats: TrackingStats,
    error: Option<string>,
    watchId: Option<int>,
    lastPosition: Option<GeoPosition>,
    trackingStartTime: Option<int>,
    totalDurationMs: int)

  const Initial := TrackingState(Idle, None, [], ZeroStats, None, None, None, None, 0)

  /** Result of stopping: the new state, and the journey handed to `onSave`
      when there was one. */
  datatype Stopped = Stopped(state: TrackingState, saved: Option<SavedRoute>)

  // Error codes of the W3C Geolocation API's GeolocationPositionError.
  const PERMISSION_DENIED := 1
  const POSITION_UNAVAILABLE := 2
  const TIMEOUT := 3

  const UnsupportedMessage := "Geolocation is not supported by your browser."
  const PermissionDeniedMessage := "Location permission denied. Please enable it in your browser settings."
  const UnavailableMessage := "Location information is unavailable."
  const TimeoutMessage := "The request to get user location timed out."
  const UnknownMessage := "An unknown error occurred while fetching location."

  /** JavaScript truthiness of a nullable number: null and 0 are both false. */
  predicate Truthy(o: Option<int>)
  {
    o.Some? && o.value != 0
  }

  /** `Math.round(x)`: the nearest integer, halves rounded up. */
  function MathRound(x: real): int
  {
    (x + 0.5).Floor
  }

  /** `Math.round(ms / 1000)` on integers. Dafny's `/` with a positive divisor
      rounds down, so this holds for negative `ms` too. */
  function RoundMs(ms: int): (r: int)
    ensures r == MathRound(ms as real / 1000.0)
  {
    var q := (ms + 500) / 1000;
    var rem := (ms + 500) % 1000;
    assert ms as real / 1000.0 + 0.5 == q as real + rem as real / 1000.0;
    (ms + 500) / 1000
  }

  /** Instantaneous speed in km/h from a reported speed in m/s; an unknown
      speed reads as 0 (`(speed || 0) * 3.6`). */
  function SpeedKmh(speed: Option<real>): (r: real)
    ensures speed.None? ==> r == 0.0
    ensures speed.Some? ==> r * 1000.0 == speed.value * 3600.0
  {
    match speed
    case None => 0.0
    case Some(v) => v * 3.6
  }

  /** Average speed in km/h over `activeMs` milliseconds of tracking, and 0
      when no time has passed: `(distance/1000) / (seconds/3600)`. */
  function AvgSpeedKmh(distance: real, activeMs: int): (r: real)
    ensures activeMs <= 0 ==> r == 0.0
    ensures activeMs > 0 ==> r * (activeMs as real) == distance * 3600.0
  {
    if activeMs > 0 then
      var seconds := activeMs as real / 1000.0;
      (distance / 1000.0) / (seconds / 3600.0)
    else 0.0
  }

  /** Milliseconds since the active-interval start, or 0 when no start is
      recorded (`start ? now - start : 0`). */
  function Elapsed(start: Option<int>, now: int): int
  {
    if Truthy(start) then now - start.value else 0
  }

  /** Active tracking time at `now`: the closed intervals plus the open one,
      which counts only while tracking. This is the duration the tick shows and
      the one a stop saves. */
  function ActiveMs(s: TrackingState, now: int): int
  {
    s.totalDurationMs + (if s.status == Tracking then Elapsed(s.trackingStartTime, now) else 0)
  }

  /** The last entry of a path, if any. */
  function LastOf(path: seq<GeoPosition>): (r: Option<GeoPosition>)
    ensures r.None? <==> |path| == 0
    ensures r.Some? ==> r.value == path[|path| - 1]
  {
    if |path| > 0 then Some(path[|path| - 1]) else None
  }

  /** The message an error code surfaces. */
  function ErrorMessage(code: int): (m: string)
    ensures code == PERMISSION_DENIED <==> m == PermissionDeniedMessage
    ensures code == POSITION_UNAVAILABLE <==> m == UnavailableMessage
    ensures code == TIMEOUT <==> m == TimeoutMessage
    ensures code !in {PERMISSION_DENIED, POSITION_UNAVAILABLE, TIMEOUT} <==> m == UnknownMessage
  {
    if code == PERMISSION_DENIED then PermissionDeniedMessage
    else if code == POSITION_UNAVAILABLE then UnavailableMessage
    else if code == TIMEOUT then TimeoutMessage
    else UnknownMessage
  }

  /** `clearGeolocationWatch`: unsubscribes only when a (truthy) watch handle
      is held; nothing else changes. */
  function ClearWatch(s: TrackingState): (r: TrackingState)
    ensures !Truthy(r.watchId)
    ensures r == s.(watchId := r.watchId)
    ensures Truthy(s.watchId) ==> r.watchId == None
    ensures !Truthy(s.watchId) ==> r == s
  {
    if Truthy(s.watchId) then s.(watchId := None) else s
  }

  /** `startGeolocationWatch`: records the new watch handle, or reports that
      geolocation is unsupported. */
  function StartWatch(s: TrackingState, loc: Locator): (r: TrackingState)
    ensures loc.Supported? ==> r == s.(watchId := Some(loc.handle))
    ensures loc.Unsupported? ==> r == s.(error := Some(UnsupportedMessage))
  {
    match loc
    case Supported(h) => s.(watchId := Some(h))
    case Unsupported => s.(error := Some(UnsupportedMessage))
  }

  /** `clearTracking`: a hard reset from any state. */
  function Clear(s: TrackingState): (r: TrackingState)
    ensures r.status == Idle && r.path == [] && r.stats == ZeroStats
    ensures r.position == None && r.lastPosition == None && r.error == None
    ensures r.trackingStartTime == None && r.totalDurationMs == 0
    ensures !Truthy(r.watchId) && r.watchId == ClearWatch(s).watchId
  {
    ClearWatch(s).(status := Idle, position := None, path := [], stats := ZeroStats,
                   error := None, lastPosition := None, trackingStartTime := None,
                   totalDurationMs := 0)
  }

  /** `startTracking`: from any state, a fresh session that is tracking and
      whose active interval starts at `now`. */
  function Start(s: TrackingState, now: int, loc: Locator): (r: TrackingState)
    ensures r.status == Tracking && r.path == [] && r.stats == ZeroStats
    ensures r.position == None && r.lastPosition == None
    ensures r.trackingStartTime == Some(now) && r.totalDurationMs == 0
    ensures r.error == (if loc.Unsupported? then Some(UnsupportedMessage) else None)
    ensures loc.Supported? ==> r.watchId == Some(loc.handle)
    ensures loc.Unsupported? ==> !Truthy(r.watchId)
    ensures forall later :: ActiveMs(r, later) == Elapsed(Some(now), later)
  {
    var cleared := Clear(s).(error := None, status := Tracking, trackingStartTime := Some(now));
    StartWatch(cleared, loc)
  }

  /** `handlePositionSuccess`: there is no status check, so a sample is taken
      in every state. */
  function Sample(s: TrackingState, pos: GeoPosition, dist: DistanceFn): (r: TrackingState)
    ensures r.path == s.path + [pos]
    ensures r.position == Some(pos) && r.lastPosition == Some(pos)
    ensures s.lastPosition.Some? ==> r.stats.distance == s.stats.distance + dist(s.lastPosition.value, pos)
    ensures s.lastPosition.None? ==> r.stats.distance == s.stats.distance
    ensures r.stats.speed == SpeedKmh(pos.speed)
    ensures r.stats.avgSpeed == s.stats.avgSpeed && r.stats.duration == s.stats.duration
    ensures r == s.(position := r.position, path := r.path, stats := r.stats, lastPosition := r.lastPosition)
  {
    var distance :=
      if s.lastPosition.Some? then s.stats.distance + dist(s.lastPosition.value, pos)
      else s.stats.distance;
    s.(position := Some(pos),
       path := s.path + [pos],
       stats := s.stats.(speed := SpeedKmh(pos.speed), distance := distance),
       lastPosition := Some(pos))
  }

  /** The one-second tick, which runs only while tracking. */
  function Tick(s: TrackingState, now: int): (r: TrackingState)
    ensures s.status != Tracking ==> r == s
    ensures s.status == Tracking ==>
      && r.stats.duration == RoundMs(ActiveMs(s, now))
      && r.stats.avgSpeed == AvgSpeedKmh(s.stats.distance, ActiveMs(s, now))
    ensures r == s.(stats := r.stats)
    ensures r.stats.distance == s.stats.distance && r.stats.speed == s.stats.speed
  {
    if s.status != Tracking then s
    else
      var ms := s.totalDurationMs + Elapsed(s.trackingStartTime, now);
      s.(stats := s.stats.(duration := RoundMs(ms), avgSpeed := AvgSpeedKmh(s.stats.distance, ms)))
  }

  /** `pauseTracking`: closes the open interval into the total and drops the
      watch. The interval start is left in place. */
  function Pause(s: TrackingState, now: int): (r: TrackingState)
    ensures s.status != Tracking ==> r == s
    ensures s.status == Tracking ==>
      && r.status == Paused
      && !Truthy(r.watchId)
      && (forall later :: ActiveMs(r, later) == ActiveMs(s, now))
      && r == s.(status := Paused, watchId := r.watchId, totalDurationMs := r.totalDurationMs)
  {
    if s.status != Tracking then s
    else
      var c := ClearWatch(s);
      c.(status := Paused, totalDurationMs := s.totalDurationMs + Elapsed(s.trackingStartTime, now))
  }

  /** `resumeTracking`: opens a new active interval at `now` and reseeds the
      previous sample with the last path entry, so the next distance
      increment is measured from the last point taken before the pause. */
  function Resume(s: TrackingState, now: int, loc: Locator): (r: TrackingState)
    ensures s.status != Paused ==> r == s
    ensures s.status == Paused ==>
      && r.status == Tracking
      && r.trackingStartTime == Some(now)
      && r.lastPosition == LastOf(s.path)
      && r.path == s.path && r.stats == s.stats && r.position == s.position
      && (loc.Supported? ==> r.watchId == Some(loc.handle) && r.error == s.error)
      && (loc.Unsupported? ==> r.watchId == s.watchId && r.error == Some(UnsupportedMessage))
      && r == s.(status := Tracking, trackingStartTime := r.trackingStartTime,
                 lastPosition := r.lastPosition, watchId := r.watchId, error := r.error)
      && (forall later :: ActiveMs(r, later) == ActiveMs(s, now) + Elapsed(Some(now), later))
  {
    if s.status != Paused then s
    else
      StartWatch(s.(status := Tracking, trackingStartTime := Some(now), lastPosition := LastOf(s.path)), loc)
  }

  /** `stopTracking`: drops the watch, emits a journey exactly when the path
      has at least two points, and closes the session. Path, statistics,
      position and the previous sample are kept. */
  function Stop(s: TrackingState, now: int): (r: Stopped)
    ensures r.saved.Some? <==> |s.path| > 1
    ensures r.saved.Some? ==>
      && r.saved.value.path == s.path
      && r.saved.value.distance == s.stats.distance
      && r.saved.value.duration == RoundMs(ActiveMs(s, now))
      && r.saved.value.timestamp == now
      && r.saved.value.stats.speed == 0.0
      && r.saved.value.stats.avgSpeed == AvgSpeedKmh(s.stats.distance, ActiveMs(s, now))
    ensures r.state.status == Idle && r.state.trackingStartTime == None && r.state.totalDurationMs == 0
    ensures !Truthy(r.state.watchId)
    ensures r.state == s.(status := Idle, watchId := r.state.watchId, trackingStartTime := None, totalDurationMs := 0)
  {
    var saved :=
      if |s.path| > 1 then
        var ms := s.totalDurationMs +
          (if s.status == Tracking && Truthy(s.trackingStartTime) then now - s.trackingStartTime.value else 0);
        Some(SavedRoute(s.path, s.stats.distance, RoundMs(ms), now,
                        FinalStats(0.0, AvgSpeedKmh(s.stats.distance, ms))))
      else None;
    Stopped(ClearWatch(s).(status := Idle, trackingStartTime := None, totalDurationMs := 0), saved)
  }

  /** `handlePositionError`: a stop followed by the message for the code. */
  function Fail(s: TrackingState, code: int, now: int): (r: Stopped)
    ensures r.saved == Stop(s, now).saved
    ensures r.state == Stop(s, now).state.(error := Some(ErrorMessage(code)))
    ensures r.state.status == Idle && r.state.path == s.path
  {
    var stopped := Stop(s, now);
    Stopped(stopped.state.(error := Some(ErrorMessage(code))), stopped.saved)
  }

  /** Dropping the watch twice is the same as dropping it once. */
  lemma ClearWatchIdempotent(s: TrackingState)
    ensures ClearWatch(ClearWatch(s)) == ClearWatch(s)
  {
  }

  /** The four error messages are pairwise distinct, so the message tells
      which condition occurred. */
  lemma ErrorMessagesDistinct(a: int, b: int)
    requires a in {PERMISSION_DENIED, POSITION_UNAVAILABLE, TIMEOUT} && b in {PERMISSION_DENIED, POSITION_UNAVAILABLE, TIMEOUT}
    ensures ErrorMessage(a) == ErrorMessage(b) <==> a == b
  {
  }
}
