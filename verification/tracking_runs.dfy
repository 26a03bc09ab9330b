/** Sessions of the tracker: sequences of events applied one after another,
    the invariant that ties the running distance to the recorded path, and
    the duration bookkeeping across a pause. */
module TrackingRuns {
  import opened Types
  import opened Tracking

  /** Everything that can happen to the tracker: the five user commands, a
      location sample, a location error, and the one-second tick. */
  datatype Event =
    | StartEv(now: int, loc: Locator)
    | PauseEv(now: int)
    | ResumeEv(now: int, loc: Locator)
    | StopEv(now: int)
    | ClearEv
    | SampleEv(pos: GeoPosition)
    | ErrorEv(code: int, now: int)
    | TickEv(now: int)

  function Step(s: TrackingState, e: Event, dist: DistanceFn): Stopped
  {
    match e
    case StartEv(now, loc) => Stopped(Start(s, now, loc), None)
    case PauseEv(now) => Stopped(Pause(s, now), None)
    case ResumeEv(now, loc) => Stopped(Resume(s, now, loc), None)
    case StopEv(now) => Stop(s, now)
    case ClearEv => Stopped(Clear(s), None)
    case SampleEv(pos) => Stopped(Sample(s, pos, dist), None)
    case ErrorEv(code, now) => Fail(s, code, now)
    case TickEv(now) => Stopped(Tick(s, now), None)
  }

  /** The final state after `events`, and every journey emitted on the way. */
  datatype Trace = Trace(state: TrackingState, saved: seq<SavedRoute>)

  function Run(s: TrackingState, events: seq<Event>, dist: DistanceFn): Trace
    decreases |events|
  {
    if events == [] then Trace(s, [])
    else
      var first := Step(s, events[0], dist);
      var rest := Run(first.state, events[1..], dist);
      Trace(rest.state, (if first.saved.Some? then [first.saved.value] else []) + rest.saved)
  }

  /** The running accumulators agree with the path: the distance is the sum
      of the legs between consecutive points, and both the shown position
      and the previous sample are the last point taken. */
  ghost predicate Coherent(s: TrackingState, dist: DistanceFn)
  {
    && s.stats.distance == PathLength(s.path, dist)
    && s.lastPosition == LastOf(s.path)
    && s.position == LastOf(s.path)
  }

  /** A journey whose distance is the length of its own path. */
  ghost predicate Consistent(r: SavedRoute, dist: DistanceFn)
  {
    |r.path| >= 2 && r.distance == PathLength(r.path, dist)
  }

  lemma SamplePreservesCoherent(s: TrackingState, pos: GeoPosition, dist: DistanceFn)
    requires Coherent(s, dist)
    ensures Coherent(Sample(s, pos, dist), dist)
  {
    if |s.path| > 0 {
      PathLengthSnoc(s.path, pos, dist);
    }
  }

  /** Every event keeps the accumulators coherent, and every journey it
      emits is consistent. */
  lemma StepPreservesCoherent(s: TrackingState, e: Event, dist: DistanceFn)
    requires Coherent(s, dist)
    ensures Coherent(Step(s, e, dist).state, dist)
    ensures Step(s, e, dist).saved.Some? ==> Consistent(Step(s, e, dist).saved.value, dist)
  {
    match e
    case SampleEv(pos) => SamplePreservesCoherent(s, pos, dist);
    case _ =>
  }

  /** Over any sequence of events from a coherent state the distance stays
      the sum of the legs of the path, and every emitted journey's distance is
      the sum of the legs of its own path. */
  lemma {:induction false} RunPreservesCoherent(s: TrackingState, events: seq<Event>, dist: DistanceFn)
    requires Coherent(s, dist)
    ensures Coherent(Run(s, events, dist).state, dist)
    ensures forall i :: 0 <= i < |Run(s, events, dist).saved| ==> Consistent(Run(s, events, dist).saved[i], dist)
    decreases |events|
  {
    if events != [] {
      StepPreservesCoherent(s, events[0], dist);
      RunPreservesCoherent(Step(s, events[0], dist).state, events[1..], dist);
    }
  }

  /** From the initial state, whatever happens, the live distance is the
      length of the path and every saved journey's distance is the length of
      its path. */
  lemma DistanceIsPathLength(events: seq<Event>, dist: DistanceFn)
    ensures Run(Initial, events, dist).state.stats.distance == PathLength(Run(Initial, events, dist).state.path, dist)
    ensures forall i :: 0 <= i < |Run(Initial, events, dist).saved| ==>
      Run(Initial, events, dist).saved[i].distance == PathLength(Run(Initial, events, dist).saved[i].path, dist)
  {
    RunPreservesCoherent(Initial, events, dist);
  }

  /** A run of samples, one after another. */
  function SampleAll(s: TrackingState, ps: seq<GeoPosition>, dist: DistanceFn): TrackingState
    decreases |ps|
  {
    if ps == [] then s else SampleAll(Sample(s, ps[0], dist), ps[1..], dist)
  }

  /** Samples extend the path and leave the status, the clock bookkeeping and
      the watch alone; from a coherent state they keep it coherent. */
  lemma {:induction false} SampleAllEffect(s: TrackingState, ps: seq<GeoPosition>, dist: DistanceFn)
    ensures SampleAll(s, ps, dist).path == s.path + ps
    ensures SampleAll(s, ps, dist).status == s.status
    ensures SampleAll(s, ps, dist).trackingStartTime == s.trackingStartTime
    ensures SampleAll(s, ps, dist).totalDurationMs == s.totalDurationMs
    ensures SampleAll(s, ps, dist).watchId == s.watchId
    ensures Coherent(s, dist) ==> Coherent(SampleAll(s, ps, dist), dist)
    decreases |ps|
  {
    if ps != [] {
      var s1 := Sample(s, ps[0], dist);
      if Coherent(s, dist) {
        SamplePreservesCoherent(s, ps[0], dist);
      }
      SampleAllEffect(s1, ps[1..], dist);
      assert s.path + [ps[0]] + ps[1..] == s.path + ps;
    }
  }

  /** The first sample after a resume adds the leg from the last point taken
      before the pause, not a leg spanning from some older sample. */
  lemma ResumeThenSample(s: TrackingState, now: int, loc: Locator, pos: GeoPosition, dist: DistanceFn)
    requires s.status == Paused && |s.path| > 0
    ensures Sample(Resume(s, now, loc), pos, dist).stats.distance == s.stats.distance + dist(s.path[|s.path| - 1], pos)
  {
  }

  /** While paused, time passes without entering the duration: a tick does
      nothing, and a stop saves the duration frozen at the pause whatever the
      stop time. */
  lemma PausedTimeIsNotCounted(s: TrackingState, t1: int, t2: int)
    requires s.status == Paused && |s.path| > 1
    ensures Tick(s, t1) == s
    ensures Stop(s, t1).saved.value.duration == Stop(s, t2).saved.value.duration == RoundMs(s.totalDurationMs)
  {
  }

  /** A whole session: start at t0, samples, pause at t1, resume at t2, more
      samples, stop at t3. The journey holds every sample, its distance is
      the length of the joined path (the leg across the pause included, as
      the path itself contains it), and its duration counts only the two
      active intervals. */
  lemma {:induction false} PauseResumeSession(
    s0: TrackingState, t0: int, t1: int, t2: int, t3: int, loc: Locator,
    before: seq<GeoPosition>, after: seq<GeoPosition>, dist: DistanceFn)
    requires t0 != 0 && t2 != 0
    requires |before + after| > 1
    ensures
      var s1 := SampleAll(Start(s0, t0, loc), before, dist);
      var s2 := Resume(Pause(s1, t1), t2, loc);
      var out := Stop(SampleAll(s2, after, dist), t3);
      && out.saved.Some?
      && out.saved.value.path == before + after
      && out.saved.value.distance == PathLength(before + after, dist)
      && out.saved.value.duration == RoundMs((t1 - t0) + (t3 - t2))
      && out.state.status == Idle
  {
    var st := Start(s0, t0, loc);
    assert Coherent(st, dist);
    SampleAllEffect(st, before, dist);
    var s1 := SampleAll(st, before, dist);
    var s2 := Resume(Pause(s1, t1), t2, loc);
    assert ActiveMs(s2, t2) == t1 - t0;
    SampleAllEffect(s2, after, dist);
    var s3 := SampleAll(s2, after, dist);
    assert ActiveMs(s3, t3) == ActiveMs(s2, t3) == (t1 - t0) + (t3 - t2);
  }
}
