/** Shared records of the tracker: a geographic sample, the live statistics,
    and the saved journey emitted when tracking stops. */
module Types {

  datatype Option<+T> = None | Some(value: T)

  /** One location sample. `speed` is metres per second as reported by the
      device, or None when the device does not know it. `timestamp` is the
      sample time in milliseconds since the epoch. */
  datatype GeoPosition = GeoPosition(lat: real, lng: real, timestamp: int, speed: Option<real>)

  /** The live statistics: speeds in km/h, distance in metres, duration in
      whole seconds (the tracker rounds it). */
  datatype TrackingStats = TrackingStats(speed: real, avgSpeed: real, distance: real, duration: int)

  const ZeroStats := TrackingStats(0.0, 0.0, 0.0, 0)

  /** The statistics a saved journey keeps besides distance and duration. */
  datatype FinalStats = FinalStats(speed: real, avgSpeed: real)

  /** A finished journey; `timestamp` is the stop time and doubles as its key
      in the saved list. */
  datatype SavedRoute = SavedRoute(
    path: seq<GeoPosition>,
    distance: real,
    duration: int,
    timestamp: int,
    stats: FinalStats)

  /** The great-circle distance function is not part of this model; every
      operation that needs it takes it as a parameter. */
  type DistanceFn = (GeoPosition, GeoPosition) -> real

  /** Sum of the distances between consecutive points of `path`. */
  function PathLength(path: seq<GeoPosition>, dist: DistanceFn): real
  {
    if |path| < 2 then 0.0
    else PathLength(path[..|path| - 1], dist) + dist(path[|path| - 2], path[|path| - 1])
  }

  /** Extending a path by one point adds exactly the last leg. */
  lemma PathLengthSnoc(path: seq<GeoPosition>, p: GeoPosition, dist: DistanceFn)
    requires |path| > 0
    ensures PathLength(path + [p], dist) == PathLength(path, dist) + dist(path[|path| - 1], p)
  {
    assert (path + [p])[..|path|] == path;
  }
}
