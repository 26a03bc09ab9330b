# RoamPilot live tracking, in Dafny

A model of the core of RoamPilot, a route-tracking web client. It covers three parts:

- The live-tracking state machine of the `useTracking` hook. Its status is idle, tracking or paused. It keeps the sampled path, the running distance, the active duration, the watch handle and the previous sample. Its events are start, pause, resume, stop, clear, a location sample, a location error and the one-second tick. A stop emits a saved journey.
- The app component's journey list and map helpers: saving, deleting by timestamp, loading a journey, clearing, the newest-first history order, the two duration formatters, and the `[lon, lat]` to `[lat, lon]` conversion of planned-route geometry.
- The two exporters. GeoJSON output is a FeatureCollection holding one LineString Feature (sections 3.1.1 and 3.1.4 of RFC 7946). GPX 1.1 output is one `trk` holding one `trkseg`. The exporters are modelled as builders of a structured document.

Modelling choices:

- Every state is an immutable record, and every event is a pure function of it. Events that read `Date.now()` take `now`, an integer number of milliseconds, instead.
- Great-circle distance is a parameter `dist: (GeoPosition, GeoPosition) -> real`. Every property is proved for every such function. In particular, nothing assumes symmetry or non-negativity.
- The active duration is kept in integer milliseconds. The source keeps it as `ms / 1000` seconds, which is the same number. `Math.round(ms / 1000)` is `(ms + 500) / 1000`. This is proved equal to `floor(x + 0.5)` for every integer, negative ones included.
- JavaScript truthiness is written out. `if (trackingStartTimeRef.current)` and `if (watchIdRef.current)` are false for `null` and for `0` alike.
- `navigator.geolocation` becomes a `Locator` parameter. It is either `Unsupported` or `Supported(handle)`, where the handle is the id that `watchPosition` returns.

What the code does, where a reader might expect otherwise (the model follows the code):

- `stopTracking` keeps the path, the distance, the position and the previous sample. It resets only the status, the interval start and the closed-interval total, and it drops the watch handle (through `clearGeolocationWatch`).
- Pausing does not clear the interval start.
- A sample has no status check. It is taken in every state.
- `startTracking` works from any state, because it begins with a full clear.

Main results:

- Over any sequence of events from the initial state, the live distance is the sum of the legs of the path. The distance of every saved journey is the sum of the legs of its own path (`TrackingRuns.DistanceIsPathLength`).
- Take a start at t0, a pause at t1, a resume at t2 and a stop at t3, with samples in between. The times are in milliseconds. For nonzero start and resume times, the saved journey holds every sample, and its duration is `round(((t1 - t0) + (t3 - t2)) / 1000)` seconds (`TrackingRuns.PauseResumeSession`).

## Model

| member | source | states |
|---|---|---|
| Tracking.Start | src/hooks/use-tracking.ts:137-143 | from any state: tracking, empty path, zero statistics, no position, previous sample or error (except "unsupported"), closed total 0, interval opened at `now`, and the active time after start is the time elapsed since `now` |
| Tracking.Clear | src/hooks/use-tracking.ts:191-201 | hard reset: idle, empty path, zero statistics, no position, previous sample, error or interval start, total 0, watch dropped |
| Tracking.ClearWatch | src/hooks/use-tracking.ts:130-135 | afterwards no truthy watch handle is held; the handle is nulled only when it was truthy; no other field changes |
| Tracking.ClearWatchIdempotent | src/hooks/use-tracking.ts:130-135 | dropping the watch twice equals dropping it once |
| Tracking.StartWatch | src/hooks/use-tracking.ts:118-128 | a supported locator records its watch handle; an unsupported one leaves the handle alone and sets the "not supported" error |
| Tracking.Sample | src/hooks/use-tracking.ts:70-98 | appends exactly the new point at the end of the path; position and previous sample become it; distance grows by `dist(previous, new)` when there was a previous sample and is unchanged otherwise; speed comes from the new sample only; no other field changes |
| Tracking.SpeedKmh | src/hooks/use-tracking.ts:88 | an unknown speed gives 0 km/h; a known one is the m/s figure converted to km/h (`r * 1000 == v * 3600`) |
| Tracking.AvgSpeedKmh | src/hooks/use-tracking.ts:174 | zero when no active time has passed; otherwise average speed times active time gives the distance (`r * ms == distance * 3600`) |
| Tracking.RoundMs | src/hooks/use-tracking.ts:180 | integer rounding of milliseconds to seconds equals `Math.round(ms / 1000)`, halves up, for every integer |
| Tracking.Tick | src/hooks/use-tracking.ts:52-67 | nothing happens unless tracking; while tracking the shown duration is the rounded active time and the average speed is distance over active time (0 at zero time); only these two statistics change |
| Tracking.Pause | src/hooks/use-tracking.ts:145-153 | a no-op unless tracking; otherwise paused, watch dropped, interval start kept, and the active time is frozen at its value at `now` for every later time |
| Tracking.Resume | src/hooks/use-tracking.ts:155-161 | a no-op unless paused; otherwise tracking, interval opened at `now`, previous sample reseeded to the last path entry (none for an empty path), and the watch re-subscribed: a supported locator's handle is recorded with the error kept, an unsupported one keeps the handle and sets the "not supported" error; path, statistics, position and closed total kept; active time continues from the frozen value |
| Tracking.Stop | src/hooks/use-tracking.ts:163-189 | a journey is emitted exactly when the path has more than one point; it carries the path, the live distance, the rounded active time (the open interval only while tracking), `now`, speed 0 and the average speed; afterwards idle, no interval start, total 0, watch dropped, everything else kept |
| Tracking.ErrorMessage | src/hooks/use-tracking.ts:102-115 | each of the three Geolocation API codes maps to its own message, and every other code to the "unknown" message, in both directions |
| Tracking.ErrorMessagesDistinct | src/hooks/use-tracking.ts:102-115 | the three coded messages are pairwise distinct |
| Tracking.Fail | src/hooks/use-tracking.ts:100-116 | a stop (emitting the same journey) followed by setting the code's message; the path is kept |
| TrackingRuns.SamplePreservesCoherent | src/hooks/use-tracking.ts:82-97 | a sample keeps the distance equal to the sum of the path's legs, and the previous sample and position equal to the last point |
| TrackingRuns.StepPreservesCoherent | src/hooks/use-tracking.ts:70-201 | every event keeps that agreement, and any journey it emits has at least two points and a distance equal to its path's length |
| TrackingRuns.RunPreservesCoherent | src/hooks/use-tracking.ts:70-201 | the same over any sequence of events |
| TrackingRuns.DistanceIsPathLength | src/hooks/use-tracking.ts:82-86 | from the initial state, after any events, the distance is the sum of `dist` over consecutive path points, for the live state and for every saved journey |
| TrackingRuns.SampleAllEffect | src/hooks/use-tracking.ts:78-80 | a run of samples extends the path by exactly those samples in order, and leaves the status, interval start, total and watch alone |
| TrackingRuns.ResumeThenSample | src/hooks/use-tracking.ts:159 | the first sample after a resume adds the leg from the last point taken before the pause |
| TrackingRuns.PausedTimeIsNotCounted | src/hooks/use-tracking.ts:166-170 | while paused, a tick changes nothing and a stop saves the same duration at any stop time: the rounded closed total |
| TrackingRuns.PauseResumeSession | src/hooks/use-tracking.ts:137-189 | start, samples, pause, resume, samples, stop, with nonzero start and resume times in milliseconds: the journey holds all samples, its distance is the joined path's length, and its duration is the sum of the two active intervals rounded to whole seconds |
| Export.GeoJsonCoordinates | src/lib/export.ts:25 | one `[lng, lat]` position per point, same count and order |
| Export.ExportGeoJson | src/lib/export.ts:14-29 | nothing for fewer than two points; otherwise one FeatureCollection with exactly one Feature with empty properties, whose LineString has one `[lng, lat]` position per point in path order and is valid per section 3.1.4 of RFC 7946 |
| Export.GeoJsonRoundTrip | src/lib/export.ts:17-29 | reading the positions of an exported document back gives the path's latitude/longitude pairs in order |
| Export.TrackPoints | src/lib/export.ts:41-48 | one track point per sample, in order, with that sample's latitude, longitude and own timestamp |
| Export.ExportGpx | src/lib/export.ts:38-61 | nothing for fewer than two points; otherwise version 1.1 from creator RoamPilot, exactly one `trk` with exactly one `trkseg` holding one `trkpt` per sample in order, each with its sample's lat, lon and time |
| Export.GpxRoundTrip | src/lib/export.ts:41-60 | reading all track points of an exported document back, across all tracks and segments, gives exactly the path's points |
| Export.ExportsAgree | src/lib/export.ts:25-45 | the i-th GPX point is the i-th GeoJSON position with its coordinates swapped back |
| Formatting.FormatDuration | src/components/roam-pilot-app.tsx:200-207 | "Hh Mm" exactly from 3600 s, "Mm Ss" exactly from 60 s to 3599 s, "Ss" below 60 s; for non-negative input the fields are in range and stand for the input exactly, except that "Hh Mm" drops under a minute |
| Formatting.FormatSheetDuration | src/components/roam-pilot-app.tsx:315-319 | the hours part appears exactly from 3600 s; minutes are always shown and are below 60; under a minute is dropped |
| Formatting.FormattersAgree | src/components/roam-pilot-app.tsx:315-319 | from one minute on both formatters show the same minutes, and from one hour on the same hours |
| History.SortNewestFirst | src/components/roam-pilot-app.tsx:338 | the history list is ordered by timestamp, newest first, and holds the same journeys with the same multiplicities |
| History.SortIsStable | src/components/roam-pilot-app.tsx:338 | journeys sharing a timestamp keep their relative order |
| Journeys.SaveRoute | src/components/roam-pilot-app.tsx:54-57 | the journey is appended at the end; earlier entries are unchanged; the list grows by one |
| Journeys.StopAndSave | src/components/roam-pilot-app.tsx:54-75 | the Stop button grows the list by one journey exactly when the path had more than one point; the new entry carries that path |
| Journeys.FailAndSave | src/hooks/use-tracking.ts:100-101 | a location error also saves when the path had more than one point, then reports the code's message |
| Journeys.Without | src/components/roam-pilot-app.tsx:179 | a journey stays exactly when it was in the list and its timestamp differs |
| Journeys.WithoutAppend | src/components/roam-pilot-app.tsx:179 | removal works piecewise on any split of the list, so the journeys that stay keep their order |
| Journeys.WithoutAbsent | src/components/roam-pilot-app.tsx:179 | deleting a timestamp that no journey carries leaves the list unchanged |
| Journeys.DeleteRoute | src/components/roam-pilot-app.tsx:178-186 | the new list is the filter of the old one by timestamp, so it keeps the other journeys in order and with their multiplicities (see `Journeys.WithoutAppend`), and a journey stays exactly when its timestamp differs; the loaded journey is cleared exactly when its timestamp matches; nothing else changes |
| Journeys.DeleteUndoesSave | src/components/roam-pilot-app.tsx:178-184 | saving under a fresh timestamp and then deleting that timestamp restores the list |
| Journeys.ClearRoute | src/components/roam-pilot-app.tsx:164-171 | the tracker is hard-reset; the planned route, route info, search and loaded journey are cleared; the saved list stays |
| Journeys.LoadRoute | src/components/roam-pilot-app.tsx:173-176 | a full clear, including the tracker's reset, and then the journey is shown |
| Journeys.ToLatLngs | src/components/roam-pilot-app.tsx:145-147 | each `[lon, lat]` becomes `[lat, lon]`, with the same count and order |
| Journeys.SwapRoundTrip | src/components/roam-pilot-app.tsx:145-147 | converting back gives the geometry the routing service sent |
| Journeys.ConversionMatchesMapPath | src/components/roam-pilot-app.tsx:188-190 | a path written longitude first and converted is the path as the map draws it |
| Journeys.SelectPlace | src/components/roam-pilot-app.tsx:125-162 | without a current position nothing changes; otherwise the search closes and the planned route resets; a returned route is shown, converted to map order (converting back gives the service's geometry), with its distance and duration; the tracker and saved list are untouched |

## Left out

- The great-circle formula in `src/lib/haversine` is not part of this model. Distance is a parameter, and floating-point behaviour is replaced by exact reals.
- React semantics are not modelled: batched and deferred `setState` updaters, stale `useCallback` closures, and effect cleanup. Every transition applies at once and in program order. This includes the error handler bound once by `startGeolocationWatch`, which in the source sees the state of the render that created it.
- `Journeys.FailAndSave`: in the running app, the error handler that `startGeolocationWatch` binds once calls the first render's `stopTracking`. That render sees an empty path, so the save on a location error that this member models would not happen there. Nothing was executed to confirm this.
- `Tracking.Sample`: in the running app, the `setStats` updater may run after `lastPositionRef.current` has been overwritten by the new sample. Each leg would then be `dist(new, new)`, not `dist(previous, new)`. The model applies the updater at once. Nothing was executed to confirm this.
- `setInterval` scheduling is not modelled. The tick is an event that the caller issues. `Date.now()` is the `now` parameter.
- `lastPauseTimeRef` is not modelled. It is written on pause and never read.
- The browser side of geolocation is not modelled: `watchPosition` options, `clearWatch` itself, and the samples' coordinate accuracy. Only the watch handle and whether geolocation exists are kept.
- localStorage reads and writes and `JSON.parse` of stored journeys are not modelled (browser storage). This covers the write-through in save and delete and the corrupted-data fallback.
- Turning numbers and times into text is not modelled: ISO-8601 dates, `toFixed`, and the template strings of the formatters and the GPX document. The formatters return the numbers they show. GPX points keep their millisecond time. The XML namespace attributes are not represented.
- `triggerDownload` is not modelled: Blob, object URLs and DOM.
- `Journeys.SelectPlace`: the routing request is not modelled. Its answer is a parameter. The origin it sends is built by indexing a position object as an array (`position[1], position[0]`), which does not yield coordinates. The model makes no claim about what is sent.
- Place search and the language-model query rewrite are not modelled (`searchPlaces`, `improvePlaceSearch`; network calls). Search results are carried only as a list that is cleared.
- `History.SortNewestFirst`: the source sorts the saved list in place while rendering, so the stored order itself becomes newest first. The model gives the sorted view and leaves the stored list alone.
- `Formatting.FormatDuration`: non-integer inputs are not modelled. Planned-route durations from the routing service can be fractional, and the model takes whole seconds.
- The map component (Leaflet rendering), toasts, loading flags and all JSX markup are not modelled.
