/**
 * scale_gpx_file on a whole document: the scales are chosen, the reference point and the base elevation
 * are found, every track segment and every route is rewritten, timing is added when asked for, the tracks
 * are renamed when a base name is given, and the output file name is built. The parsed document is
 * the Gpx object the source rewrites in place.
 */
module GpxScaling {
  import opened Wrappers
  import opened GpxModel
  import opened RealSeq
  import opened PointWalk
  import opened ScaleWalk
  import opened Timing
  import opened FileNames

  /** A rewrite of one point list, applied alike to every track segment and every route. */
  type ListMap = seq<GpxPoint> -> seq<GpxPoint>

  /** The rewrite scale_gpx_file applies to each list: the scaled walk from the new start. */
  function Rewrite(startLat: real, startLon: real, base: real, scales: Scales, geo: Geo): ListMap
  {
    points => ScaledPoints(points, startLat, startLon, base, scales, geo)
  }

  /** Every list of a track, rewritten in order. */
  function ScaledLists(lists: seq<seq<GpxPoint>>, f: ListMap): (r: seq<seq<GpxPoint>>)
    ensures |r| == |lists|
    ensures forall k {:trigger r[k]} :: 0 <= k < |lists| ==> r[k] == f(lists[k])
  {
    if |lists| == 0 then [] else ScaledLists(lists[..|lists| - 1], f) + [f(lists[|lists| - 1])]
  }

  /** One track with its segments rewritten; its name stays. */
  function ScaledTrack(track: Track, f: ListMap): Track
  {
    track.(segments := ScaledLists(track.segments, f))
  }

  /** The tracks rewritten in order; every track keeps its name and its number of segments. */
  function ScaledTracks(tracks: seq<Track>, f: ListMap): (r: seq<Track>)
    ensures |r| == |tracks|
    ensures forall t {:trigger r[t]} :: 0 <= t < |tracks| ==> r[t] == ScaledTrack(tracks[t], f)
    ensures forall t {:trigger r[t]} :: 0 <= t < |tracks| ==> r[t].name == tracks[t].name && |r[t].segments| == |tracks[t].segments|
  {
    if |tracks| == 0 then [] else ScaledTracks(tracks[..|tracks| - 1], f) + [ScaledTrack(tracks[|tracks| - 1], f)]
  }

  /** One route with its points rewritten the same way as a track segment; its name stays. */
  function ScaledRoute(route: Route, f: ListMap): Route
  {
    route.(points := f(route.points))
  }

  /** The routes rewritten in order; every route keeps its name. */
  function ScaledRoutes(routes: seq<Route>, f: ListMap): (r: seq<Route>)
    ensures |r| == |routes|
    ensures forall k {:trigger r[k]} :: 0 <= k < |routes| ==> r[k] == ScaledRoute(routes[k], f)
    ensures forall k {:trigger r[k]} :: 0 <= k < |routes| ==> r[k].name == routes[k].name
  {
    if |routes| == 0 then [] else ScaledRoutes(routes[..|routes| - 1], f) + [ScaledRoute(routes[|routes| - 1], f)]
  }

  /** The document with every track segment and every route rewritten. */
  function ScaledDocument(data: GpxData, f: ListMap): GpxData
  {
    GpxData(ScaledTracks(data.tracks, f), ScaledRoutes(data.routes, f))
  }

  /**
   * Every rewritten list keeps its length; a list of fewer than two points stays as it is, and a longer
   * one starts at the requested position with the base elevation and its own first timestamp.
   */
  lemma RewriteShape(points: seq<GpxPoint>, startLat: real, startLon: real, base: real, scales: Scales, geo: Geo)
    ensures var r := Rewrite(startLat, startLon, base, scales, geo)(points);
      |r| == |points| &&
      (|points| < 2 ==> r == points) &&
      (|points| >= 2 ==> r[0] == GpxPoint(startLat, startLon, Some(base), points[0].time))
  {
    assert Rewrite(startLat, startLon, base, scales, geo)(points) == ScaledPoints(points, startLat, startLon, base, scales, geo);
  }

  /** A rewrite that multiplies the length of every list by k. */
  ghost predicate ScalesLengths(f: ListMap, dist: DistanceFn, k: real)
  {
    forall points {:trigger f(points)} :: PathLength(dist, f(points)) == PathLength(dist, points) * k
  }

  /** Under the consistency hypothesis the rewrite multiplies every list's length by the distance scale. */
  lemma RewriteScalesLengths(startLat: real, startLon: real, base: real, scales: Scales, geo: Geo)
    requires Consistent(geo) && scales.distance >= 0.0
    ensures ScalesLengths(Rewrite(startLat, startLon, base, scales, geo), geo.distance, scales.distance)
  {
    forall points
      ensures PathLength(geo.distance, Rewrite(startLat, startLon, base, scales, geo)(points))
              == PathLength(geo.distance, points) * scales.distance
    {
      ScaledPointsLength(points, startLat, startLon, base, scales, geo);
    }
  }

  /** The length of `scaled` is the length of `original` times k. */
  ghost predicate LengthScaled(dist: DistanceFn, scaled: seq<GpxPoint>, original: seq<GpxPoint>, k: real)
  {
    PathLength(dist, scaled) == PathLength(dist, original) * k
  }

  /** A rewrite that scales every list's length scales every track segment and every route of a document. */
  lemma ScaledDocumentLengths(data: GpxData, f: ListMap, dist: DistanceFn, k: real)
    requires ScalesLengths(f, dist, k)
    ensures var scaled := ScaledDocument(data, f);
      forall t, j :: 0 <= t < |data.tracks| && 0 <= j < |data.tracks[t].segments| ==>
        LengthScaled(dist, scaled.tracks[t].segments[j], data.tracks[t].segments[j], k)
    ensures var scaled := ScaledDocument(data, f);
      forall j :: 0 <= j < |data.routes| ==>
        LengthScaled(dist, scaled.routes[j].points, data.routes[j].points, k)
  {
    var scaled := ScaledDocument(data, f);
    forall j | 0 <= j < |data.routes|
      ensures LengthScaled(dist, scaled.routes[j].points, data.routes[j].points, k)
    {
      assert scaled.routes[j].points == f(data.routes[j].points);
    }
  }

  /** One list rewritten through an array, as the source rewrites a segment's points in place. */
  method ScaleList(points: seq<GpxPoint>, startLat: real, startLon: real, base: real, scales: Scales, geo: Geo)
    returns (scaled: seq<GpxPoint>)
    ensures scaled == ScaledPoints(points, startLat, startLon, base, scales, geo)
  {
    var a := new GpxPoint[|points|](i requires 0 <= i < |points| => points[i]);
    assert a[..] == points;
    ScalePointsInPlace(a, startLat, startLon, base, scales, geo);
    scaled := a[..];
  }

  /** The segments of one track rewritten in order. */
  method ScaleSegments(segments: seq<seq<GpxPoint>>, startLat: real, startLon: real, base: real, scales: Scales, geo: Geo)
    returns (r: seq<seq<GpxPoint>>)
    ensures r == ScaledLists(segments, Rewrite(startLat, startLon, base, scales, geo))
  {
    r := [];
    for s := 0 to |segments|
      invariant |r| == s
      invariant forall k :: 0 <= k < s ==> r[k] == ScaledPoints(segments[k], startLat, startLon, base, scales, geo)
    {
      var scaled := ScaleList(segments[s], startLat, startLon, base, scales, geo);
      r := r + [scaled];
    }
  }

  /** The track half of the rewrite: every track's segments rewritten, the routes untouched. */
  method ScaleTracks(gpx: Gpx, startLat: real, startLon: real, base: real, scales: Scales, geo: Geo)
    modifies gpx
    ensures gpx.tracks == ScaledTracks(old(gpx.tracks), Rewrite(startLat, startLon, base, scales, geo))
    ensures gpx.routes == old(gpx.routes)
  {
    var tracks := gpx.tracks;
    var scaled: seq<Track> := [];
    for t := 0 to |tracks|
      invariant gpx.tracks == tracks && gpx.routes == old(gpx.routes)
      invariant |scaled| == t
      invariant forall k :: 0 <= k < t ==>
        scaled[k] == ScaledTrack(tracks[k], Rewrite(startLat, startLon, base, scales, geo))
    {
      var segments := ScaleSegments(tracks[t].segments, startLat, startLon, base, scales, geo);
      scaled := scaled + [tracks[t].(segments := segments)];
    }
    gpx.tracks := scaled;
  }

  /** The route half of the rewrite: every route's points rewritten, the tracks untouched. */
  method ScaleRoutes(gpx: Gpx, startLat: real, startLon: real, base: real, scales: Scales, geo: Geo)
    modifies gpx
    ensures gpx.routes == ScaledRoutes(old(gpx.routes), Rewrite(startLat, startLon, base, scales, geo))
    ensures gpx.tracks == old(gpx.tracks)
  {
    var routes := gpx.routes;
    var scaled: seq<Route> := [];
    for k := 0 to |routes|
      invariant gpx.routes == routes && gpx.tracks == old(gpx.tracks)
      invariant |scaled| == k
      invariant forall j :: 0 <= j < k ==>
        scaled[j] == ScaledRoute(routes[j], Rewrite(startLat, startLon, base, scales, geo))
    {
      var points := ScaleList(routes[k].points, startLat, startLon, base, scales, geo);
      scaled := scaled + [routes[k].(points := points)];
    }
    gpx.routes := scaled;
  }

  /** The arguments of one scale_gpx_file call; an empty base name or original file name stands for None. */
  datatype ScaleRequest = ScaleRequest(
    scaleFactor: real, startLat: real, startLon: real,
    minDistanceKm: Option<real>, maxAscentM: Option<real>, startingElevation: Option<real>,
    outputFormat: string, baseName: string,
    addTiming: bool, powerWatts: Option<real>, weightKg: Option<real>,
    originalFilename: string)

  /** What a successful call leaves behind: the rewritten document and the name of the file it is saved as. */
  datatype ScaledOutput = ScaledOutput(data: GpxData, fileName: string)

  /** Timing is added only when asked for and both the power and the weight are given. */
  predicate TimingRequested(req: ScaleRequest)
  {
    req.addTiming && req.powerWatts.Some? && req.weightKg.Some?
  }

  /** A FIT or TCX output goes through a converter, whose failure makes the call fail. */
  predicate ConversionFailed(req: ScaleRequest, converted: bool)
  {
    (req.outputFormat == "fit" || req.outputFormat == "tcx") && !converted
  }

  /** The document after the optional timing step: None when timing raises. */
  function TimedDocument(data: GpxData, req: ScaleRequest, start: real, dist: DistanceFn): Option<GpxData>
  {
    if !TimingRequested(req) then Some(data)
    else
      var outcome := TimedTracks(data.tracks + RouteTracks(data.routes), start,
                                 RiderLegTime(req.powerWatts.value, req.weightKg.value), dist);
      if outcome.Err? then None else Some(GpxData(outcome.value.0, []))
  }

  /** Every track given the same name; nothing else about the tracks changes. */
  function RenamedTracks(tracks: seq<Track>, name: string): (r: seq<Track>)
    ensures |r| == |tracks|
    ensures forall k {:trigger r[k]} :: 0 <= k < |tracks| ==>
              r[k].name == Some(name) && r[k].segments == tracks[k].segments
  {
    if |tracks| == 0 then [] else RenamedTracks(tracks[..|tracks| - 1], name) + [tracks[|tracks| - 1].(name := Some(name))]
  }

  /** The tracks renamed when a display name exists and there are tracks. */
  function NamedDocument(data: GpxData, display: Option<string>): GpxData
  {
    if display.Some? && |data.tracks| > 0 then data.(tracks := RenamedTracks(data.tracks, display.value)) else data
  }

  /** The scales a file was rewritten with, and the rewritten document. */
  datatype Rewritten = Rewritten(scales: Scales, data: GpxData)

  /**
   * The first half of scale_gpx_file: the scales and the reference point are found and every list is
   * rewritten; None where no scale can be computed or the document has no point.
   */
  function RewrittenDocument(data: GpxData, req: ScaleRequest, stats: Option<RouteStats>, geo: Geo): Option<Rewritten>
  {
    var scales := FileScales(req.scaleFactor, req.minDistanceKm, req.maxAscentM, stats);
    var first := FirstPoint(data);
    if scales.Err? || first.None? then None
    else
      var base := BaseElevation(first.value, req.startingElevation);
      Some(Rewritten(scales.value, ScaledDocument(data, Rewrite(req.startLat, req.startLon, base, scales.value, geo))))
  }

  /**
   * The outcome of scale_gpx_file on a parsed document: None where the source returns False (a scale
   * that cannot be computed, a document without points, timing that raises, a failed conversion),
   * otherwise the document as saved and the output file name. The start of the timed ride, the formatted
   * elevation scale and the converter's verdict are given.
   */
  function ScaledFile(data: GpxData, gpxFileName: string, req: ScaleRequest, stats: Option<RouteStats>, geo: Geo,
                      start: real, elevationLabel: string, converted: bool): Option<ScaledOutput>
  {
    var rewritten := RewrittenDocument(data, req, stats, geo);
    if rewritten.None? then None
    else
      var timed := TimedDocument(rewritten.value.data, req, start, geo.distance);
      if timed.None? || ConversionFailed(req, converted) then None
      else
        var scales := rewritten.value.scales;
        var named := NamedDocument(timed.value, DisplayName(req.baseName, req.originalFilename, gpxFileName));
        var fileName := OutputFileName(BaseFilename(req.baseName, req.originalFilename, gpxFileName),
                                       req.outputFormat, scales.distance, scales.elevation, elevationLabel);
        Some(ScaledOutput(named, fileName))
  }

  /** Every track renamed in place. */
  method RenameTracks(gpx: Gpx, name: string)
    modifies gpx
    ensures gpx.tracks == RenamedTracks(old(gpx.tracks), name)
    ensures gpx.routes == old(gpx.routes)
  {
    var tracks := gpx.tracks;
    var renamed: seq<Track> := [];
    for t := 0 to |tracks|
      invariant gpx.tracks == tracks && gpx.routes == old(gpx.routes)
      invariant |renamed| == t
      invariant forall k :: 0 <= k < t ==> renamed[k] == tracks[k].(name := Some(name))
    {
      renamed := renamed + [tracks[t].(name := Some(name))];
    }
    assert renamed == RenamedTracks(tracks, name);
    gpx.tracks := renamed;
  }

  /** The first half of scale_gpx_file in place: gpx is rewritten and the scales used returned. */
  method RewriteGpx(gpx: Gpx, req: ScaleRequest, stats: Option<RouteStats>, geo: Geo) returns (scales: Option<Scales>)
    modifies gpx
    ensures var rewritten := RewrittenDocument(old(gpx.Data()), req, stats, geo);
      (scales.None? <==> rewritten.None?)
      && (rewritten.Some? ==> scales == Some(rewritten.value.scales) && gpx.Data() == rewritten.value.data)
  {
    var found := FileScales(req.scaleFactor, req.minDistanceKm, req.maxAscentM, stats);
    if found.Err? {
      return None;
    }
    var first := FirstPoint(gpx.Data());
    if first.None? {
      return None;
    }
    var base := BaseElevation(first.value, req.startingElevation);
    ScaleTracks(gpx, req.startLat, req.startLon, base, found.value, geo);
    ScaleRoutes(gpx, req.startLat, req.startLon, base, found.value, geo);
    scales := Some(found.value);
  }

  /** scale_gpx_file on the parsed document gpx: the document is rewritten in place and the output file name returned. */
  method ScaleGpxFile(gpx: Gpx, gpxFileName: string, req: ScaleRequest, stats: Option<RouteStats>, geo: Geo,
                      start: real, elevationLabel: string, converted: bool) returns (written: Option<string>)
    modifies gpx
    ensures var outcome := ScaledFile(old(gpx.Data()), gpxFileName, req, stats, geo, start, elevationLabel, converted);
      (written.None? <==> outcome.None?)
      && (outcome.Some? ==> written == Some(outcome.value.fileName) && gpx.Data() == outcome.value.data)
  {
    ghost var rewritten := RewrittenDocument(gpx.Data(), req, stats, geo);
    var scales := RewriteGpx(gpx, req, stats, geo);
    if scales.None? {
      return None;
    }
    ghost var timed := TimedDocument(rewritten.value.data, req, start, geo.distance);
    if TimingRequested(req) {
      var clock := AddTimingData(gpx, req.powerWatts.value, req.weightKg.value, start, geo.distance);
      if clock.Err? {
        return None;
      }
    }
    assert gpx.Data() == timed.value;
    var display := DisplayName(req.baseName, req.originalFilename, gpxFileName);
    if display.Some? && |gpx.tracks| > 0 {
      RenameTracks(gpx, display.value);
    }
    if ConversionFailed(req, converted) {
      return None;
    }
    written := Some(OutputFileName(BaseFilename(req.baseName, req.originalFilename, gpxFileName),
                                   req.outputFormat, scales.value.distance, scales.value.elevation, elevationLabel));
  }

  /** A rewrite that keeps the number of points of every list. */
  ghost predicate KeepsCounts(f: ListMap)
  {
    forall points {:trigger f(points)} :: |f(points)| == |points|
  }

  lemma RewriteKeepsCounts(startLat: real, startLon: real, base: real, scales: Scales, geo: Geo)
    ensures KeepsCounts(Rewrite(startLat, startLon, base, scales, geo))
  {
    forall points
      ensures |Rewrite(startLat, startLon, base, scales, geo)(points)| == |points|
    {
      RewriteShape(points, startLat, startLon, base, scales, geo);
    }
  }

  /** A track segment or a route has a leg: timing it divides by the speed. */
  predicate HasLeg(data: GpxData)
  {
    HasTimedSegment(data.tracks) || exists j :: 0 <= j < |data.routes| && |data.routes[j].points| >= 2
  }

  /** A rewrite that keeps counts keeps whether a document has a leg, and how many routes have points. */
  lemma ScaledDocumentLegs(data: GpxData, f: ListMap)
    requires KeepsCounts(f)
    ensures HasLeg(ScaledDocument(data, f)) <==> HasLeg(data)
    ensures NonEmptyCount(ScaledDocument(data, f).routes) == NonEmptyCount(data.routes)
  {
    var scaled := ScaledDocument(data, f);
    if HasTimedSegment(data.tracks) {
      var t :| 0 <= t < |data.tracks| && HasTimedList(data.tracks[t].segments);
      var j :| 0 <= j < |data.tracks[t].segments| && |data.tracks[t].segments[j]| >= 2;
      assert |scaled.tracks[t].segments[j]| >= 2;
    }
    if HasTimedSegment(scaled.tracks) {
      var t :| 0 <= t < |scaled.tracks| && HasTimedList(scaled.tracks[t].segments);
      var j :| 0 <= j < |scaled.tracks[t].segments| && |scaled.tracks[t].segments[j]| >= 2;
      assert |data.tracks[t].segments[j]| >= 2;
    }
    assert forall j :: 0 <= j < |data.routes| ==> |scaled.routes[j].points| == |data.routes[j].points|;
    ScaledRoutesCount(data.routes, f);
  }

  lemma {:induction false} ScaledRoutesCount(routes: seq<Route>, f: ListMap)
    requires KeepsCounts(f)
    ensures NonEmptyCount(ScaledRoutes(routes, f)) == NonEmptyCount(routes)
    decreases |routes|
  {
    if |routes| > 0 {
      var n := |routes| - 1;
      var r := ScaledRoutes(routes, f);
      ScaledRoutesCount(routes[..n], f);
      assert r[..n] == ScaledRoutes(routes[..n], f);
      assert |r[n].points| == |routes[n].points|;
    }
  }

  /**
   * scale_gpx_file fails exactly when no scale can be computed, the document has no point, timing is
   * requested with zero weight for a document with a leg, or the conversion to FIT or TCX fails.
   */
  lemma ScaledFileFails(data: GpxData, gpxFileName: string, req: ScaleRequest, stats: Option<RouteStats>, geo: Geo,
                        start: real, elevationLabel: string, converted: bool)
    ensures ScaledFile(data, gpxFileName, req, stats, geo, start, elevationLabel, converted).None? <==>
      FileScales(req.scaleFactor, req.minDistanceKm, req.maxAscentM, stats).Err?
      || FirstPoint(data).None?
      || (TimingRequested(req) && req.weightKg.value == 0.0 && HasLeg(data))
      || ConversionFailed(req, converted)
  {
    var rewritten := RewrittenDocument(data, req, stats, geo);
    if rewritten.Some? {
      var scales := rewritten.value.scales;
      var base := BaseElevation(FirstPoint(data).value, req.startingElevation);
      var f := Rewrite(req.startLat, req.startLon, base, scales, geo);
      var scaled := rewritten.value.data;
      RewriteKeepsCounts(req.startLat, req.startLon, base, scales, geo);
      ScaledDocumentLegs(data, f);
      if TimingRequested(req) {
        var rider := RiderLegTime(req.powerWatts.value, req.weightKg.value);
        TimedTracksFails(scaled.tracks + RouteTracks(scaled.routes), start, rider, geo.distance);
        HasTimedSegmentAppend(scaled.tracks, RouteTracks(scaled.routes));
        RouteTracksTimed(scaled.routes);
      }
    }
  }

  /**
   * The output file is named from the base file name: followed only by the format's extension when the
   * scales agree, which they do when neither a minimum distance nor a maximum ascent is given or the
   * file was not analysed.
   */
  lemma ScaledFileName(data: GpxData, gpxFileName: string, req: ScaleRequest, stats: Option<RouteStats>, geo: Geo,
                       start: real, elevationLabel: string, converted: bool)
    ensures var outcome := ScaledFile(data, gpxFileName, req, stats, geo, start, elevationLabel, converted);
      var base := BaseFilename(req.baseName, req.originalFilename, gpxFileName);
      outcome.Some? ==>
        |outcome.value.fileName| >= |base| + 4
        && outcome.value.fileName[..|base|] == base
        && outcome.value.fileName[|outcome.value.fileName| - 4..] == Extension(req.outputFormat)
    ensures var outcome := ScaledFile(data, gpxFileName, req, stats, geo, start, elevationLabel, converted);
      outcome.Some? && ((req.minDistanceKm.None? && req.maxAscentM.None?) || stats.None?) ==>
        outcome.value.fileName == BaseFilename(req.baseName, req.originalFilename, gpxFileName) + Extension(req.outputFormat)
  {
    var outcome := ScaledFile(data, gpxFileName, req, stats, geo, start, elevationLabel, converted);
    if outcome.Some? {
      var base := BaseFilename(req.baseName, req.originalFilename, gpxFileName);
      var scales := RewrittenDocument(data, req, stats, geo).value.scales;
      var name := outcome.value.fileName;
      var ext := Extension(req.outputFormat);
      assert name == OutputFileName(base, req.outputFormat, scales.distance, scales.elevation, elevationLabel);
      if scales.distance == scales.elevation {
        assert name == base + ext;
      } else {
        assert name == base + "_elev_" + elevationLabel + ext;
      }
      assert name[..|base|] == base;
      assert name[|name| - 4..] == ext;
    }
  }

  /**
   * With a base name every saved track carries the display name; without one and without timing the
   * tracks keep their names.
   */
  lemma ScaledFileTrackNames(data: GpxData, gpxFileName: string, req: ScaleRequest, stats: Option<RouteStats>, geo: Geo,
                             start: real, elevationLabel: string, converted: bool)
    ensures var outcome := ScaledFile(data, gpxFileName, req, stats, geo, start, elevationLabel, converted);
      outcome.Some? && req.baseName != "" ==>
        forall t :: 0 <= t < |outcome.value.data.tracks| ==>
          outcome.value.data.tracks[t].name == DisplayName(req.baseName, req.originalFilename, gpxFileName)
    ensures var outcome := ScaledFile(data, gpxFileName, req, stats, geo, start, elevationLabel, converted);
      outcome.Some? && req.baseName == "" && !TimingRequested(req) ==>
        |outcome.value.data.tracks| == |data.tracks|
        && forall t :: 0 <= t < |data.tracks| ==> outcome.value.data.tracks[t].name == data.tracks[t].name
  {
  }

  /** With timing, every route with points becomes one more track and the routes are dropped. */
  lemma ScaledFileRoutesTimed(data: GpxData, gpxFileName: string, req: ScaleRequest, stats: Option<RouteStats>, geo: Geo,
                              start: real, elevationLabel: string, converted: bool)
    requires TimingRequested(req)
    ensures var outcome := ScaledFile(data, gpxFileName, req, stats, geo, start, elevationLabel, converted);
      outcome.Some? ==>
        outcome.value.data.routes == [] && |outcome.value.data.tracks| == |data.tracks| + NonEmptyCount(data.routes)
  {
    var rewritten := RewrittenDocument(data, req, stats, geo);
    if rewritten.Some? {
      var scales := rewritten.value.scales;
      var base := BaseElevation(FirstPoint(data).value, req.startingElevation);
      var f := Rewrite(req.startLat, req.startLon, base, scales, geo);
      var scaled := rewritten.value.data;
      assert scaled == ScaledDocument(data, f);
      RewriteKeepsCounts(req.startLat, req.startLon, base, scales, geo);
      ScaledDocumentLegs(data, f);
      var timed := TimedDocument(scaled, req, start, geo.distance);
      if timed.Some? {
        assert timed.value.routes == [];
        assert |timed.value.tracks| == |scaled.tracks| + NonEmptyCount(scaled.routes);
      }
    }
  }

  /** Without timing, the routes stay, in order and under their names. */
  lemma ScaledFileRoutesKept(data: GpxData, gpxFileName: string, req: ScaleRequest, stats: Option<RouteStats>, geo: Geo,
                             start: real, elevationLabel: string, converted: bool)
    requires !TimingRequested(req)
    ensures var outcome := ScaledFile(data, gpxFileName, req, stats, geo, start, elevationLabel, converted);
      outcome.Some? ==>
        |outcome.value.data.routes| == |data.routes|
        && forall k :: 0 <= k < |data.routes| ==> outcome.value.data.routes[k].name == data.routes[k].name
  {
  }

  /**
   * Without timing, every saved track segment and route of two points or more starts at the requested
   * position, at the starting elevation when one is given.
   */
  lemma ScaledFileStarts(data: GpxData, gpxFileName: string, req: ScaleRequest, stats: Option<RouteStats>, geo: Geo,
                         start: real, elevationLabel: string, converted: bool)
    requires !TimingRequested(req)
    ensures var outcome := ScaledFile(data, gpxFileName, req, stats, geo, start, elevationLabel, converted);
      outcome.Some? ==>
        forall t, j :: 0 <= t < |data.tracks| && 0 <= j < |data.tracks[t].segments| && |data.tracks[t].segments[j]| >= 2 ==>
          var p := outcome.value.data.tracks[t].segments[j][0];
          p.lat == req.startLat && p.lon == req.startLon
          && (req.startingElevation.Some? ==> p.ele == req.startingElevation)
    ensures var outcome := ScaledFile(data, gpxFileName, req, stats, geo, start, elevationLabel, converted);
      outcome.Some? ==>
        forall k :: 0 <= k < |data.routes| && |data.routes[k].points| >= 2 ==>
          var p := outcome.value.data.routes[k].points[0];
          p.lat == req.startLat && p.lon == req.startLon
          && (req.startingElevation.Some? ==> p.ele == req.startingElevation)
  {
    var outcome := ScaledFile(data, gpxFileName, req, stats, geo, start, elevationLabel, converted);
    if outcome.Some? {
      var rewritten := RewrittenDocument(data, req, stats, geo).value;
      var base := BaseElevation(FirstPoint(data).value, req.startingElevation);
      var f := Rewrite(req.startLat, req.startLon, base, rewritten.scales, geo);
      var saved := outcome.value.data;
      assert saved.routes == rewritten.data.routes;
      assert forall t :: 0 <= t < |data.tracks| ==> saved.tracks[t].segments == rewritten.data.tracks[t].segments;
      forall t, j | 0 <= t < |data.tracks| && 0 <= j < |data.tracks[t].segments| && |data.tracks[t].segments[j]| >= 2
        ensures saved.tracks[t].segments[j][0] == GpxPoint(req.startLat, req.startLon, Some(base), data.tracks[t].segments[j][0].time)
      {
        RewriteShape(data.tracks[t].segments[j], req.startLat, req.startLon, base, rewritten.scales, geo);
      }
      forall k | 0 <= k < |data.routes| && |data.routes[k].points| >= 2
        ensures saved.routes[k].points[0] == GpxPoint(req.startLat, req.startLon, Some(base), data.routes[k].points[0].time)
      {
        RewriteShape(data.routes[k].points, req.startLat, req.startLon, base, rewritten.scales, geo);
      }
    }
  }

  /** Two documents with the same point lists: the same routes, and tracks whose segments agree one by one. */
  ghost predicate SameLists(a: GpxData, b: GpxData)
  {
    a.routes == b.routes && |a.tracks| == |b.tracks|
    && forall t {:trigger a.tracks[t]} :: 0 <= t < |a.tracks| ==> a.tracks[t].segments == b.tracks[t].segments
  }

  /** Without timing, the saved document holds the rewritten lists; only track names may differ. */
  lemma SavedLists(data: GpxData, gpxFileName: string, req: ScaleRequest, stats: Option<RouteStats>, geo: Geo,
                   start: real, elevationLabel: string, converted: bool)
    requires !TimingRequested(req)
    ensures var outcome := ScaledFile(data, gpxFileName, req, stats, geo, start, elevationLabel, converted);
      outcome.Some? ==> SameLists(outcome.value.data, RewrittenDocument(data, req, stats, geo).value.data)
  {
  }

  /** Under the consistency hypothesis the rewritten document's lists are the originals' lengths times the distance scale. */
  lemma RewrittenLengths(data: GpxData, req: ScaleRequest, stats: Option<RouteStats>, geo: Geo)
    requires Consistent(geo)
    requires RewrittenDocument(data, req, stats, geo).Some?
    requires RewrittenDocument(data, req, stats, geo).value.scales.distance >= 0.0
    ensures var rewritten := RewrittenDocument(data, req, stats, geo).value;
      forall t, j :: 0 <= t < |data.tracks| && 0 <= j < |data.tracks[t].segments| ==>
        LengthScaled(geo.distance, rewritten.data.tracks[t].segments[j], data.tracks[t].segments[j], rewritten.scales.distance)
    ensures var rewritten := RewrittenDocument(data, req, stats, geo).value;
      forall k :: 0 <= k < |data.routes| ==>
        LengthScaled(geo.distance, rewritten.data.routes[k].points, data.routes[k].points, rewritten.scales.distance)
  {
    var rewritten := RewrittenDocument(data, req, stats, geo).value;
    var base := BaseElevation(FirstPoint(data).value, req.startingElevation);
    var f := Rewrite(req.startLat, req.startLon, base, rewritten.scales, geo);
    assert rewritten.data == ScaledDocument(data, f);
    RewriteScalesLengths(req.startLat, req.startLon, base, rewritten.scales, geo);
    ScaledDocumentLengths(data, f, geo.distance, rewritten.scales.distance);
  }

  /**
   * Without timing, under the consistency hypothesis, every saved track segment and route is the
   * original's length times the distance scale.
   */
  lemma ScaledFileLengths(data: GpxData, gpxFileName: string, req: ScaleRequest, stats: Option<RouteStats>, geo: Geo,
                          start: real, elevationLabel: string, converted: bool, scales: Scales)
    requires Consistent(geo) && !TimingRequested(req)
    requires FileScales(req.scaleFactor, req.minDistanceKm, req.maxAscentM, stats) == Ok(scales) && scales.distance >= 0.0
    ensures var outcome := ScaledFile(data, gpxFileName, req, stats, geo, start, elevationLabel, converted);
      outcome.Some? ==>
        forall t, j :: 0 <= t < |data.tracks| && 0 <= j < |data.tracks[t].segments| ==>
          LengthScaled(geo.distance, outcome.value.data.tracks[t].segments[j], data.tracks[t].segments[j], scales.distance)
    ensures var outcome := ScaledFile(data, gpxFileName, req, stats, geo, start, elevationLabel, converted);
      outcome.Some? ==>
        forall k :: 0 <= k < |data.routes| ==>
          LengthScaled(geo.distance, outcome.value.data.routes[k].points, data.routes[k].points, scales.distance)
  {
    var outcome := ScaledFile(data, gpxFileName, req, stats, geo, start, elevationLabel, converted);
    if outcome.Some? {
      SavedLists(data, gpxFileName, req, stats, geo, start, elevationLabel, converted);
      RewrittenLengths(data, req, stats, geo);
    }
  }
}
