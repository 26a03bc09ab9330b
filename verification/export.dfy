/** The two exporters of a finished path, as builders of a structured
    document. Serialising the document to text and handing it to the browser
    as a download are not part of this model. */
module Export {
  import opened Types

  /** A GeoJSON position: longitude first, then latitude (section 3.1.1 of
      RFC 7946). */
  type Position = seq<real>

  /** The one geometry this exporter writes: a LineString (section 3.1.4 of
      RFC 7946). */
  datatype Geometry = LineString(coordinates: seq<Position>)

  /** A Feature with empty `properties`. */
  datatype Feature = Feature(properties: map<string, string>, geometry: Geometry)

  datatype GeoJson = FeatureCollection(features: seq<Feature>)

  /** Section 3.1.4 of RFC 7946: a LineString has two or more positions, and
      section 3.1.1: each position has at least two numbers. */
  predicate ValidLineString(g: Geometry)
  {
    && |g.coordinates| >= 2
    && forall i :: 0 <= i < |g.coordinates| ==> |g.coordinates[i]| >= 2
  }

  /** A GPX 1.1 track point; `time` is the sample time in milliseconds, which
      the exporter writes as an ISO-8601 instant. */
  datatype TrkPt = TrkPt(lat: real, lon: real, time: int)
  datatype TrkSeg = TrkSeg(points: seq<TrkPt>)
  datatype Trk = Trk(name: string, segments: seq<TrkSeg>)

  /** The document: version, creator, metadata name and export time, tracks. */
  datatype Gpx = Gpx(version: string, creator: string, metadataName: string, metadataTime: int, tracks: seq<Trk>)

  function ToPosition(p: GeoPosition): Position
  {
    [p.lng, p.lat]
  }

  function GeoJsonCoordinates(path: seq<GeoPosition>): (cs: seq<Position>)
    ensures |cs| == |path|
    ensures forall i :: 0 <= i < |path| ==> cs[i] == [path[i].lng, path[i].lat]
  {
    seq(|path|, i requires 0 <= i < |path| => ToPosition(path[i]))
  }

  /** `exportToGeoJSON`: nothing for fewer than two points; otherwise one
      FeatureCollection with one LineString Feature, longitude first, in path
      order. */
  function ExportGeoJson(path: seq<GeoPosition>): (r: Option<GeoJson>)
    ensures r.Some? <==> |path| >= 2
    ensures r.Some? ==>
      && |r.value.features| == 1
      && r.value.features[0].properties == map[]
      && r.value.features[0].geometry.LineString?
      && ValidLineString(r.value.features[0].geometry)
      && |r.value.features[0].geometry.coordinates| == |path|
      && forall i :: 0 <= i < |path| ==> r.value.features[0].geometry.coordinates[i] == [path[i].lng, path[i].lat]
  {
    if |path| < 2 then None
    else Some(FeatureCollection([Feature(map[], LineString(GeoJsonCoordinates(path)))]))
  }

  function ToTrkPt(p: GeoPosition): TrkPt
  {
    TrkPt(p.lat, p.lng, p.timestamp)
  }

  function TrackPoints(path: seq<GeoPosition>): (pts: seq<TrkPt>)
    ensures |pts| == |path|
    ensures forall i :: 0 <= i < |path| ==> pts[i] == TrkPt(path[i].lat, path[i].lng, path[i].timestamp)
  {
    seq(|path|, i requires 0 <= i < |path| => ToTrkPt(path[i]))
  }

  /** `exportToGPX`: nothing for fewer than two points; otherwise a GPX 1.1
      document with a single track holding a single segment with one point
      per sample, in path order, each carrying its own sample's time.
      `exportedAt` is the export time written into the metadata. */
  function ExportGpx(path: seq<GeoPosition>, exportedAt: int): (r: Option<Gpx>)
    ensures r.Some? <==> |path| >= 2
    ensures r.Some? ==>
      && r.value.version == "1.1" && r.value.creator == "RoamPilot"
      && r.value.metadataTime == exportedAt
      && |r.value.tracks| == 1
      && |r.value.tracks[0].segments| == 1
      && |r.value.tracks[0].segments[0].points| == |path|
      && forall i :: 0 <= i < |path| ==>
           var pt := r.value.tracks[0].segments[0].points[i];
           pt.lat == path[i].lat && pt.lon == path[i].lng && pt.time == path[i].timestamp
  {
    if |path| < 2 then None
    else Some(Gpx("1.1", "RoamPilot", "RoamPilot Route", exportedAt,
                  [Trk("Tracked Route", [TrkSeg(TrackPoints(path))])]))
  }

  /** Reading a GeoJSON document back: the (latitude, longitude) pairs of all
      LineString positions, feature after feature. */
  function GeoJsonLatLngs(doc: GeoJson): seq<(real, real)>
    decreases |doc.features|
  {
    if doc.features == [] then []
    else
      var cs := doc.features[0].geometry.coordinates;
      seq(|cs|, i requires 0 <= i < |cs| => if |cs[i]| >= 2 then (cs[i][1], cs[i][0]) else (0.0, 0.0))
      + GeoJsonLatLngs(FeatureCollection(doc.features[1..]))
  }

  /** Reading a GPX document back: all track points, track after track and
      segment after segment. */
  function GpxPoints(doc: Gpx): seq<TrkPt>
  {
    Flatten(seq(|doc.tracks|, i requires 0 <= i < |doc.tracks| => SegmentPoints(doc.tracks[i].segments)))
  }

  function SegmentPoints(segs: seq<TrkSeg>): seq<TrkPt>
  {
    Flatten(seq(|segs|, i requires 0 <= i < |segs| => segs[i].points))
  }

  function Flatten<T>(xss: seq<seq<T>>): seq<T>
  {
    if xss == [] then [] else xss[0] + Flatten(xss[1..])
  }

  /** The (latitude, longitude) pairs of a path. */
  function LatLngs(path: seq<GeoPosition>): (r: seq<(real, real)>)
    ensures |r| == |path|
    ensures forall i :: 0 <= i < |path| ==> r[i] == (path[i].lat, path[i].lng)
  {
    seq(|path|, i requires 0 <= i < |path| => (path[i].lat, path[i].lng))
  }

  /** Reading an exported GeoJSON document gives back the path's
      coordinates, in order. */
  lemma GeoJsonRoundTrip(path: seq<GeoPosition>)
    requires |path| >= 2
    ensures GeoJsonLatLngs(ExportGeoJson(path).value) == LatLngs(path)
  {
    var doc := ExportGeoJson(path).value;
    var rest := FeatureCollection(doc.features[1..]);
    assert rest.features == [];
    assert GeoJsonLatLngs(rest) == [];
  }

  /** Reading an exported GPX document gives back every sample's
      coordinates and time, in order: no point is lost, added or moved
      between segments. */
  lemma GpxRoundTrip(path: seq<GeoPosition>, exportedAt: int)
    requires |path| >= 2
    ensures GpxPoints(ExportGpx(path, exportedAt).value) == TrackPoints(path)
  {
    var doc := ExportGpx(path, exportedAt).value;
    var pts := TrackPoints(path);
    var segs := doc.tracks[0].segments;
    assert SegmentPoints(segs) == pts by {
      assert seq(|segs|, i requires 0 <= i < |segs| => segs[i].points) == [pts];
      FlattenSingleton(pts);
    }
    assert seq(|doc.tracks|, i requires 0 <= i < |doc.tracks| => SegmentPoints(doc.tracks[i].segments)) == [pts];
    FlattenSingleton(pts);
  }

  lemma FlattenSingleton<T>(xs: seq<T>)
    ensures Flatten([xs]) == xs
  {
    assert [xs][1..] == [];
  }

  /** The two exports agree: the i-th GPX track point is the i-th GeoJSON
      position with its two coordinates swapped back. */
  lemma ExportsAgree(path: seq<GeoPosition>, exportedAt: int)
    requires |path| >= 2
    ensures forall i :: 0 <= i < |path| ==>
      var pos := ExportGeoJson(path).value.features[0].geometry.coordinates[i];
      var pt := ExportGpx(path, exportedAt).value.tracks[0].segments[0].points[i];
      pt.lat == pos[1] && pt.lon == pos[0]
  {
  }
}
