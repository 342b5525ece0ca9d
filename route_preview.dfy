/**
 * The web front end's route preview (webapp/app.py, and the same code again in
 * webapp/utils/gpx_integration.py): the profile read from a parsed file, its total ascent and
 * bounding box, and the cheap "scaled preview" that stretches the profile without running the scaler.
 */
module RoutePreview {
  import opened Wrappers
  import opened GpxModel
  import opened RealSeq

  /** A point as the preview sends it: position, and an elevation that is 0 where the file has none. */
  datatype PreviewPoint = PreviewPoint(lat: real, lon: real, ele: real)

  datatype Bounds = Bounds(minLat: real, maxLat: real, minLon: real, maxLon: real)

  /**
   * The route_data dictionary. Distances are cumulative kilometres, one per point; pointCount is
   * present only in the dictionaries gpx_integration builds.
   */
  datatype RouteData = RouteData(points: seq<PreviewPoint>, elevations: seq<real>, distances: seq<real>,
                                 totalDistance: real, totalAscent: real, bounds: Option<Bounds>,
                                 pointCount: Option<nat>)

  function Preview(p: GpxPoint): (r: PreviewPoint)
    ensures r.lat == p.lat && r.lon == p.lon
    ensures r.ele == (if p.ele.Some? then p.ele.value else 0.0)
  {
    PreviewPoint(p.lat, p.lon, if p.ele.Some? then p.ele.value else 0.0)
  }

  function Elevations(points: seq<PreviewPoint>): (r: seq<real>)
    ensures |r| == |points| && forall i :: 0 <= i < |points| ==> r[i] == points[i].ele
  {
    seq(|points|, i requires 0 <= i < |points| => points[i].ele)
  }

  // ---------------------------------------------------------------- total ascent

  /** The rise into elevation i, or 0 when it is not higher than the one before. */
  function Rise(e: seq<real>, i: nat): real
    requires 0 < i < |e|
  {
    if e[i] > e[i - 1] then e[i] - e[i - 1] else 0.0
  }

  /** The sum of the rises among the first n elevations. */
  function Ascent(e: seq<real>, n: nat): real
    requires n <= |e|
  {
    if n < 2 then 0.0 else Ascent(e, n - 1) + Rise(e, n - 1)
  }

  function TotalAscent(e: seq<real>): real
  {
    Ascent(e, |e|)
  }

  /** The ascent is never negative and never less than the net climb from the first elevation. */
  lemma {:induction false} AscentBounds(e: seq<real>, n: nat)
    requires 0 < n <= |e|
    ensures Ascent(e, n) >= 0.0
    ensures Ascent(e, n) >= e[n - 1] - e[0]
  {
    if n >= 2 {
      AscentBounds(e, n - 1);
    }
  }

  /** A profile that never rises has no ascent; in particular one of fewer than two elevations. */
  lemma {:induction false} AscentOfNonRising(e: seq<real>, n: nat)
    requires n <= |e|
    requires forall i :: 0 < i < n ==> e[i] <= e[i - 1]
    ensures Ascent(e, n) == 0.0
  {
    if n >= 2 {
      AscentOfNonRising(e, n - 1);
    }
  }

  /** A profile that rises somewhere has positive ascent: only rises are counted, and every rise is. */
  lemma {:induction false} AscentCountsEveryRise(e: seq<real>, n: nat, i: nat)
    requires 0 < i < n <= |e|
    ensures Ascent(e, n) >= Rise(e, i)
  {
    if i < n - 1 {
      AscentCountsEveryRise(e, n - 1, i);
    } else if n > 2 {
      AscentBounds(e, n - 1);
    }
  }

  lemma RiseScales(a: real, b: real, k: real)
    requires k >= 0.0
    ensures (if b * k > a * k then b * k - a * k else 0.0) == (if b > a then b - a else 0.0) * k
  {
    if k > 0.0 {
      if b > a {
        assert (b - a) * k > 0.0;
      } else {
        assert (a - b) * k >= 0.0;
      }
    }
  }

  /** Rise commutes with stretching the elevations by a non-negative factor. */
  lemma ScaledRise(e: seq<real>, k: real, i: nat)
    requires 0 < i < |e| && k >= 0.0
    ensures Rise(Scaled(e, k), i) == Rise(e, i) * k
  {
    var s := Scaled(e, k);
    assert s[i] == e[i] * k && s[i - 1] == e[i - 1] * k;
    RiseScales(e[i - 1], e[i], k);
  }

  lemma Distribute(a: real, b: real, k: real)
    ensures (a + b) * k == a * k + b * k
  {
  }

  /** Two profiles whose rises are in a fixed ratio have their ascents in that ratio. */
  lemma {:induction false} AscentInRatio(e: seq<real>, s: seq<real>, k: real, n: nat)
    requires n <= |e| && n <= |s|
    requires forall i :: 0 < i < n ==> Rise(s, i) == Rise(e, i) * k
    ensures Ascent(s, n) == Ascent(e, n) * k
  {
    if n >= 2 {
      AscentInRatio(e, s, k, n - 1);
      Distribute(Ascent(e, n - 1), Rise(e, n - 1), k);
    }
  }

  /** Stretching every elevation by a non-negative factor stretches the ascent by the same factor. */
  lemma AscentScales(e: seq<real>, k: real)
    requires k >= 0.0
    ensures TotalAscent(Scaled(e, k)) == TotalAscent(e) * k
  {
    forall i | 0 < i < |e|
      ensures Rise(Scaled(e, k), i) == Rise(e, i) * k
    {
      ScaledRise(e, k, i);
    }
    AscentInRatio(e, Scaled(e, k), k, |e|);
  }

  /** calculate_total_ascent: one pass over consecutive pairs, adding each rise. */
  method CalculateTotalAscent(elevations: seq<real>) returns (total: real)
    ensures total == TotalAscent(elevations)
  {
    total := 0.0;
    if |elevations| < 2 {
      return;
    }
    for i := 1 to |elevations|
      invariant total == Ascent(elevations, i)
    {
      if elevations[i] > elevations[i - 1] {
        total := total + (elevations[i] - elevations[i - 1]);
      }
    }
  }

  // ---------------------------------------------------------------- bounds

  function Lats(points: seq<PreviewPoint>): (r: seq<real>)
    ensures |r| == |points| && forall i :: 0 <= i < |points| ==> r[i] == points[i].lat
  {
    seq(|points|, i requires 0 <= i < |points| => points[i].lat)
  }

  function Lons(points: seq<PreviewPoint>): (r: seq<real>)
    ensures |r| == |points| && forall i :: 0 <= i < |points| ==> r[i] == points[i].lon
  {
    seq(|points|, i requires 0 <= i < |points| => points[i].lon)
  }

  /** The box around a list of points, None for no points. */
  function CalculateBounds(points: seq<PreviewPoint>): (b: Option<Bounds>)
    ensures b.None? <==> |points| == 0
    ensures b.Some? ==> forall i :: 0 <= i < |points| ==>
              b.value.minLat <= points[i].lat <= b.value.maxLat && b.value.minLon <= points[i].lon <= b.value.maxLon
    ensures b.Some? ==> ((exists i :: 0 <= i < |points| && points[i].lat == b.value.minLat)
                         && (exists i :: 0 <= i < |points| && points[i].lat == b.value.maxLat)
                         && (exists i :: 0 <= i < |points| && points[i].lon == b.value.minLon)
                         && (exists i :: 0 <= i < |points| && points[i].lon == b.value.maxLon))
  {
    if |points| == 0 then None
    else Some(Bounds(Min(Lats(points)), Max(Lats(points)), Min(Lons(points)), Max(Lons(points))))
  }

  // ---------------------------------------------------------------- relocation

  /**
   * The points moved so that the first lies at (startLat, startLon), with every offset from the first
   * point multiplied by scale; elevations are kept.
   */
  function Relocated(points: seq<PreviewPoint>, scale: real, startLat: real, startLon: real): (r: seq<PreviewPoint>)
    ensures |r| == |points|
  {
    seq(|points|, i requires 0 <= i < |points| =>
      PreviewPoint(startLat + (points[i].lat - points[0].lat) * scale,
                   startLon + (points[i].lon - points[0].lon) * scale,
                   points[i].ele))
  }

  lemma OffsetStep(a0: real, a1: real, a2: real, s: real)
    ensures (a1 - a0) * s + (a2 - a1) * s == (a2 - a0) * s
  {
  }

  /**
   * The relocated route starts at the requested point with the original first elevation, and each
   * later point is offset from the previous one by the original offset times the scale.
   */
  lemma RelocatedSteps(points: seq<PreviewPoint>, scale: real, startLat: real, startLon: real)
    requires |points| > 0
    ensures var r := Relocated(points, scale, startLat, startLon);
      r[0] == PreviewPoint(startLat, startLon, points[0].ele)
      && forall i :: 0 < i < |points| ==>
           r[i].lat == r[i - 1].lat + (points[i].lat - points[i - 1].lat) * scale
           && r[i].lon == r[i - 1].lon + (points[i].lon - points[i - 1].lon) * scale
           && r[i].ele == points[i].ele
  {
    var r := Relocated(points, scale, startLat, startLon);
    forall i | 0 < i < |points|
      ensures r[i].lat == r[i - 1].lat + (points[i].lat - points[i - 1].lat) * scale
      ensures r[i].lon == r[i - 1].lon + (points[i].lon - points[i - 1].lon) * scale
    {
      OffsetStep(points[0].lat, points[i - 1].lat, points[i].lat, scale);
      OffsetStep(points[0].lon, points[i - 1].lon, points[i].lon, scale);
    }
  }

  /** Relocating to the route's own start at scale 1 changes nothing. */
  lemma RelocatedIdentity(points: seq<PreviewPoint>)
    requires |points| > 0
    ensures Relocated(points, 1.0, points[0].lat, points[0].lon) == points
  {
  }

  /** scale_route_coordinates: the first point goes to the start, each later one follows the previous by the scaled offset. */
  method ScaleRouteCoordinates(points: seq<PreviewPoint>, distanceScale: real, startLat: real, startLon: real)
    returns (scaled: seq<PreviewPoint>)
    ensures scaled == Relocated(points, distanceScale, startLat, startLon)
  {
    if |points| == 0 {
      return [];
    }
    ghost var target := Relocated(points, distanceScale, startLat, startLon);
    RelocatedSteps(points, distanceScale, startLat, startLon);
    scaled := [PreviewPoint(startLat, startLon, points[0].ele)];
    for i := 1 to |points|
      invariant |scaled| == i
      invariant forall k :: 0 <= k < i ==> scaled[k] == target[k]
    {
      var prevOrig := points[i - 1];
      var currOrig := points[i];
      var prevScaled := scaled[i - 1];
      var latDiff := (currOrig.lat - prevOrig.lat) * distanceScale;
      var lonDiff := (currOrig.lon - prevOrig.lon) * distanceScale;
      scaled := scaled + [PreviewPoint(prevScaled.lat + latDiff, prevScaled.lon + lonDiff, currOrig.ele)];
    }
  }

  // ---------------------------------------------------------------- extraction

  /** The profile built so far: points, cumulative kilometres per point, and the metres walked. */
  datatype Walk = Walk(points: seq<PreviewPoint>, distances: seq<real>, cumulative: real)

  /**
   * The first n points of one list appended to a walk. The first point of a list adds no distance;
   * each later one adds the leg from its predecessor, carrying on from the walk's total.
   */
  function WalkList(start: Walk, list: seq<GpxPoint>, n: nat, dist: DistanceFn): Walk
    requires n <= |list|
  {
    if n == 0 then start
    else
      var w := WalkList(start, list, n - 1, dist);
      var c := if n > 1 then w.cumulative + PointDistance(dist, list[n - 2], list[n - 1]) else w.cumulative;
      Walk(w.points + [Preview(list[n - 1])], w.distances + [c / 1000.0], c)
  }

  function WalkSegments(start: Walk, segments: seq<seq<GpxPoint>>, s: nat, dist: DistanceFn): Walk
    requires s <= |segments|
  {
    if s == 0 then start else WalkList(WalkSegments(start, segments, s - 1, dist), segments[s - 1], |segments[s - 1]|, dist)
  }

  function WalkTracks(tracks: seq<Track>, t: nat, dist: DistanceFn): Walk
    requires t <= |tracks|
  {
    if t == 0 then Walk([], [], 0.0)
    else WalkSegments(WalkTracks(tracks, t - 1, dist), tracks[t - 1].segments, |tracks[t - 1].segments|, dist)
  }

  function WalkRoutes(start: Walk, routes: seq<Route>, r: nat, dist: DistanceFn): Walk
    requires r <= |routes|
  {
    if r == 0 then start else WalkList(WalkRoutes(start, routes, r - 1, dist), routes[r - 1].points, |routes[r - 1].points|, dist)
  }

  /** Every track point in order; the route points only when the tracks hold none. */
  function Extracted(doc: GpxData, dist: DistanceFn): Walk
  {
    var w := WalkTracks(doc.tracks, |doc.tracks|, dist);
    if |w.points| > 0 then w else WalkRoutes(w, doc.routes, |doc.routes|, dist)
  }

  /**
   * One cumulative distance per point; they start at 0, never decrease, never pass the metres walked,
   * and the last one is the metres walked in kilometres.
   */
  predicate Measured(w: Walk)
  {
    |w.points| == |w.distances| && w.cumulative >= 0.0
    && (|w.points| == 0 ==> w.cumulative == 0.0)
    && (|w.distances| > 0 ==> w.distances[0] == 0.0 && w.distances[|w.distances| - 1] == w.cumulative / 1000.0)
    && (forall i, j :: 0 <= i <= j < |w.distances| ==> w.distances[i] <= w.distances[j])
    && (forall i :: 0 <= i < |w.distances| ==> w.distances[i] <= w.cumulative / 1000.0)
  }

  lemma {:induction false} WalkListMeasured(start: Walk, list: seq<GpxPoint>, n: nat, dist: DistanceFn)
    requires n <= |list|
    requires Measured(start)
    ensures Measured(WalkList(start, list, n, dist))
    ensures |WalkList(start, list, n, dist).points| == |start.points| + n
  {
    if n > 0 {
      WalkListMeasured(start, list, n - 1, dist);
    }
  }

  lemma {:induction false} WalkSegmentsMeasured(start: Walk, segments: seq<seq<GpxPoint>>, s: nat, dist: DistanceFn)
    requires s <= |segments|
    requires Measured(start)
    ensures Measured(WalkSegments(start, segments, s, dist))
  {
    if s > 0 {
      WalkSegmentsMeasured(start, segments, s - 1, dist);
      WalkListMeasured(WalkSegments(start, segments, s - 1, dist), segments[s - 1], |segments[s - 1]|, dist);
    }
  }

  lemma {:induction false} WalkTracksMeasured(tracks: seq<Track>, t: nat, dist: DistanceFn)
    requires t <= |tracks|
    ensures Measured(WalkTracks(tracks, t, dist))
  {
    if t > 0 {
      WalkTracksMeasured(tracks, t - 1, dist);
      WalkSegmentsMeasured(WalkTracks(tracks, t - 1, dist), tracks[t - 1].segments, |tracks[t - 1].segments|, dist);
    }
  }

  lemma {:induction false} WalkRoutesMeasured(start: Walk, routes: seq<Route>, r: nat, dist: DistanceFn)
    requires r <= |routes|
    requires Measured(start)
    ensures Measured(WalkRoutes(start, routes, r, dist))
  {
    if r > 0 {
      WalkRoutesMeasured(start, routes, r - 1, dist);
      WalkListMeasured(WalkRoutes(start, routes, r - 1, dist), routes[r - 1].points, |routes[r - 1].points|, dist);
    }
  }

  /** The points a list contributes are its own points, in order, after those already walked. */
  lemma {:induction false} WalkListPoints(start: Walk, list: seq<GpxPoint>, n: nat, dist: DistanceFn)
    requires n <= |list|
    ensures var w := WalkList(start, list, n, dist);
      |w.points| == |start.points| + n
      && (forall i :: 0 <= i < |start.points| ==> w.points[i] == start.points[i])
      && (forall i :: 0 <= i < n ==> w.points[|start.points| + i] == Preview(list[i]))
  {
    if n > 0 {
      WalkListPoints(start, list, n - 1, dist);
    }
  }

  /** Once the tracks yield a point, the routes are never read. */
  lemma RoutesIgnoredWithTrackPoints(tracks: seq<Track>, routes1: seq<Route>, routes2: seq<Route>, dist: DistanceFn)
    requires |WalkTracks(tracks, |tracks|, dist).points| > 0
    ensures Extracted(GpxData(tracks, routes1), dist) == Extracted(GpxData(tracks, routes2), dist)
  {
  }

  /** A document whose tracks hold no point is profiled from its routes alone, from 0 km. */
  lemma {:induction false} NoTrackPointsWalksRoutes(doc: GpxData, dist: DistanceFn)
    requires |WalkTracks(doc.tracks, |doc.tracks|, dist).points| == 0
    ensures Extracted(doc, dist) == WalkRoutes(Walk([], [], 0.0), doc.routes, |doc.routes|, dist)
  {
    WalkTracksMeasured(doc.tracks, |doc.tracks|, dist);
  }

  /** route_data built from a walk: elevations copied from the points, totals in km and m. */
  function RouteDataOf(w: Walk, pointCount: Option<nat>): RouteData
  {
    var elevations := Elevations(w.points);
    RouteData(w.points, elevations, w.distances, w.cumulative / 1000.0, TotalAscent(elevations),
              CalculateBounds(w.points), pointCount)
  }

  /**
   * A self-consistent route_data: one elevation and one distance per point, distances from 0 and
   * non-decreasing up to the total distance, and ascent and bounds those of the profile.
   */
  predicate Consistent(d: RouteData)
  {
    |d.points| == |d.elevations|
    && Profiled(d.elevations, d.distances, d.totalDistance, d.totalAscent)
    && d.bounds == CalculateBounds(d.points)
  }

  /** The profile half of Consistent. */
  predicate Profiled(elevations: seq<real>, distances: seq<real>, totalDistance: real, totalAscent: real)
  {
    |elevations| == |distances|
    && (|distances| > 0 ==> distances[0] == 0.0 && distances[|distances| - 1] == totalDistance)
    && (|distances| == 0 ==> totalDistance == 0.0)
    && Rising(distances)
    && totalAscent == TotalAscent(elevations)
  }

  predicate Rising(d: seq<real>)
  {
    forall i, j :: 0 <= i <= j < |d| ==> d[i] <= d[j]
  }

  /** What extract_route_data returns is consistent, and its elevations are its points' elevations. */
  lemma ExtractedConsistent(doc: GpxData, dist: DistanceFn, pointCount: Option<nat>)
    ensures var d := RouteDataOf(Extracted(doc, dist), pointCount);
      Consistent(d) && d.elevations == Elevations(d.points) && d.totalDistance >= 0.0
  {
    var w := WalkTracks(doc.tracks, |doc.tracks|, dist);
    WalkTracksMeasured(doc.tracks, |doc.tracks|, dist);
    if |w.points| == 0 {
      WalkRoutesMeasured(w, doc.routes, |doc.routes|, dist);
    }
  }

  /** The per-point loop both extraction functions run over a segment or a route. */
  method WalkPoints(points0: seq<PreviewPoint>, elevations0: seq<real>, distances0: seq<real>, cumulative0: real,
                    list: seq<GpxPoint>, dist: DistanceFn)
    returns (points: seq<PreviewPoint>, elevations: seq<real>, distances: seq<real>, cumulative: real)
    requires elevations0 == Elevations(points0)
    ensures Walk(points, distances, cumulative) == WalkList(Walk(points0, distances0, cumulative0), list, |list|, dist)
    ensures elevations == Elevations(points)
  {
    points, elevations, distances, cumulative := points0, elevations0, distances0, cumulative0;
    ghost var start := Walk(points0, distances0, cumulative0);
    for i := 0 to |list|
      invariant Walk(points, distances, cumulative) == WalkList(start, list, i, dist)
      invariant elevations == Elevations(points)
    {
      var point := list[i];
      if i > 0 {
        var distance := PointDistance(dist, list[i - 1], point);
        cumulative := cumulative + distance;
      }
      var ele := if point.ele.Some? then point.ele.value else 0.0;
      points := points + [PreviewPoint(point.lat, point.lon, ele)];
      elevations := elevations + [ele];
      distances := distances + [cumulative / 1000.0];
    }
  }

  /** The extraction loops: every segment of every track, then every route if that gave no point. */
  method CollectRoute(doc: GpxData, dist: DistanceFn)
    returns (points: seq<PreviewPoint>, elevations: seq<real>, distances: seq<real>, cumulative: real)
    ensures Walk(points, distances, cumulative) == Extracted(doc, dist)
    ensures elevations == Elevations(points)
  {
    points, elevations, distances, cumulative := [], [], [], 0.0;
    var tracks := doc.tracks;
    for t := 0 to |tracks|
      invariant Walk(points, distances, cumulative) == WalkTracks(tracks, t, dist)
      invariant elevations == Elevations(points)
    {
      var segments := tracks[t].segments;
      for s := 0 to |segments|
        invariant Walk(points, distances, cumulative) == WalkSegments(WalkTracks(tracks, t, dist), segments, s, dist)
        invariant elevations == Elevations(points)
      {
        points, elevations, distances, cumulative := WalkPoints(points, elevations, distances, cumulative, segments[s], dist);
      }
    }
    if |points| == 0 {
      var routes := doc.routes;
      ghost var start := Walk(points, distances, cumulative);
      for r := 0 to |routes|
        invariant Walk(points, distances, cumulative) == WalkRoutes(start, routes, r, dist)
        invariant elevations == Elevations(points)
      {
        points, elevations, distances, cumulative := WalkPoints(points, elevations, distances, cumulative, routes[r].points, dist);
      }
    }
  }

  /** extract_route_data: the profile, its total distance in km, its ascent and its bounds. */
  method ExtractRouteData(doc: GpxData, dist: DistanceFn) returns (data: RouteData)
    ensures data == RouteDataOf(Extracted(doc, dist), None)
    ensures Consistent(data) && data.pointCount.None?
  {
    var points, elevations, distances, cumulative := CollectRoute(doc, dist);
    var totalAscent := CalculateTotalAscent(elevations);
    data := RouteData(points, elevations, distances, cumulative / 1000.0, totalAscent, CalculateBounds(points), None);
    ExtractedConsistent(doc, dist, None);
  }

  /** extract_route_preview_data: the same dictionary with the number of points added. */
  method ExtractRoutePreviewData(doc: GpxData, dist: DistanceFn) returns (data: RouteData)
    ensures data == RouteDataOf(Extracted(doc, dist), Some(|data.points|))
    ensures Consistent(data) && data.pointCount == Some(|data.points|)
  {
    var points, elevations, distances, cumulative := CollectRoute(doc, dist);
    var totalAscent := CalculateTotalAscent(elevations);
    data := RouteData(points, elevations, distances, cumulative / 1000.0, totalAscent, CalculateBounds(points), Some(|points|));
    ExtractedConsistent(doc, dist, Some(|points|));
  }

  // ---------------------------------------------------------------- scaled previews

  /** A route's profile and totals multiplied by the scales, on the given points, bounds and count. */
  function Rescaled(original: RouteData, points: seq<PreviewPoint>, bounds: Option<Bounds>, pointCount: Option<nat>,
                    distanceScale: real, ascentScale: real): RouteData
  {
    RouteData(points, Scaled(original.elevations, ascentScale), Scaled(original.distances, distanceScale),
              original.totalDistance * distanceScale, original.totalAscent * ascentScale, bounds, pointCount)
  }

  lemma ScaledRising(d: seq<real>, k: real)
    requires Rising(d) && k >= 0.0
    ensures Rising(Scaled(d, k))
  {
    var s := Scaled(d, k);
    forall i, j | 0 <= i <= j < |d|
      ensures s[i] <= s[j]
    {
      assert (d[j] - d[i]) * k >= 0.0;
    }
  }

  /** The rescaled profile has one elevation and one distance per point. */
  lemma RescaledLengths(original: RouteData, points: seq<PreviewPoint>, bounds: Option<Bounds>, pointCount: Option<nat>,
                        distanceScale: real, ascentScale: real)
    requires |points| == |original.elevations| == |original.distances|
    ensures var r := Rescaled(original, points, bounds, pointCount, distanceScale, ascentScale);
      |r.points| == |r.elevations| == |r.distances|
  {
  }

  /** Scaled distances still start at 0 and end at the scaled total distance. */
  lemma RescaledEnds(original: RouteData, points: seq<PreviewPoint>, bounds: Option<Bounds>, pointCount: Option<nat>,
                     distanceScale: real, ascentScale: real)
    requires Profiled(original.elevations, original.distances, original.totalDistance, original.totalAscent)
    ensures var r := Rescaled(original, points, bounds, pointCount, distanceScale, ascentScale);
      (|r.distances| > 0 ==> r.distances[0] == 0.0 && r.distances[|r.distances| - 1] == r.totalDistance)
      && (|r.distances| == 0 ==> r.totalDistance == 0.0)
  {
  }

  /** Scaled distances still rise for a non-negative distance scale. */
  lemma RescaledRising(original: RouteData, points: seq<PreviewPoint>, bounds: Option<Bounds>, pointCount: Option<nat>,
                       distanceScale: real, ascentScale: real)
    requires Rising(original.distances) && distanceScale >= 0.0
    ensures Rising(Rescaled(original, points, bounds, pointCount, distanceScale, ascentScale).distances)
  {
    ScaledRising(original.distances, distanceScale);
  }

  /** The scaled total ascent is the ascent of the scaled elevations. */
  lemma RescaledAscent(original: RouteData, points: seq<PreviewPoint>, bounds: Option<Bounds>, pointCount: Option<nat>,
                       distanceScale: real, ascentScale: real)
    requires original.totalAscent == TotalAscent(original.elevations) && ascentScale >= 0.0
    ensures var r := Rescaled(original, points, bounds, pointCount, distanceScale, ascentScale);
      r.totalAscent == TotalAscent(r.elevations)
  {
    AscentScales(original.elevations, ascentScale);
  }

  /** Rescaling a consistent profile onto as many points, boxed by their own bounds, gives a consistent route. */
  lemma RescaledConsistent(original: RouteData, points: seq<PreviewPoint>, pointCount: Option<nat>,
                           distanceScale: real, ascentScale: real)
    requires Profiled(original.elevations, original.distances, original.totalDistance, original.totalAscent)
    requires |points| == |original.elevations|
    requires distanceScale >= 0.0 && ascentScale >= 0.0
    ensures Consistent(Rescaled(original, points, CalculateBounds(points), pointCount, distanceScale, ascentScale))
  {
    var bounds := CalculateBounds(points);
    RescaledLengths(original, points, bounds, pointCount, distanceScale, ascentScale);
    RescaledEnds(original, points, bounds, pointCount, distanceScale, ascentScale);
    RescaledRising(original, points, bounds, pointCount, distanceScale, ascentScale);
    RescaledAscent(original, points, bounds, pointCount, distanceScale, ascentScale);
  }

  /**
   * The scaled half of get_scaled_preview: points relocated only when a start other than (0, 0) is
   * given, elevations, distances and totals multiplied, bounds recomputed when there are points.
   */
  function ScaledPreview(original: RouteData, distanceScale: real, ascentScale: real, startLat: real, startLon: real): RouteData
  {
    var points := if startLat != 0.0 || startLon != 0.0 then Relocated(original.points, distanceScale, startLat, startLon)
                  else original.points;
    Rescaled(original, points, if |points| > 0 then CalculateBounds(points) else original.bounds, None,
             distanceScale, ascentScale)
  }

  /**
   * The scaled preview keeps a consistent route consistent for non-negative scales: its distances
   * still rise from 0 to its total distance, and its total ascent is the ascent of its scaled
   * elevations. The points keep their unscaled elevations, and stay where they were for a start of (0, 0).
   */
  lemma ScaledPreviewConsistent(original: RouteData, distanceScale: real, ascentScale: real, startLat: real, startLon: real)
    requires Consistent(original)
    requires distanceScale >= 0.0 && ascentScale >= 0.0
    ensures var s := ScaledPreview(original, distanceScale, ascentScale, startLat, startLon);
      Consistent(s)
      && (forall i :: 0 <= i < |s.points| ==> s.points[i].ele == original.points[i].ele)
      && (startLat == 0.0 && startLon == 0.0 ==> s.points == original.points)
  {
    var points := if startLat != 0.0 || startLon != 0.0 then Relocated(original.points, distanceScale, startLat, startLon)
                  else original.points;
    assert |points| == |original.points|;
    assert (if |points| > 0 then CalculateBounds(points) else original.bounds) == CalculateBounds(points);
    RescaledConsistent(original, points, None, distanceScale, ascentScale);
  }

  /** generate_scaled_preview: input without points comes back unchanged; otherwise always relocated. */
  function GenerateScaledPreview(original: Option<RouteData>, distanceScale: real, ascentScale: real,
                                 startLat: real, startLon: real): (r: Option<RouteData>)
    ensures original.None? || |original.value.points| == 0 ==> r == original
  {
    if original.None? || |original.value.points| == 0 then original
    else
      var points := Relocated(original.value.points, distanceScale, startLat, startLon);
      Some(Rescaled(original.value, points, CalculateBounds(points), Some(|points|), distanceScale, ascentScale))
  }

  /**
   * Otherwise the result has as many points as the input, starting at the requested point, and carries
   * its own bounds and its own point count.
   */
  lemma GenerateScaledPreviewShape(original: RouteData, distanceScale: real, ascentScale: real, startLat: real, startLon: real)
    requires |original.points| > 0
    ensures var r := GenerateScaledPreview(Some(original), distanceScale, ascentScale, startLat, startLon).value;
      |r.points| == |original.points| && r.pointCount == Some(|original.points|)
      && r.points[0] == PreviewPoint(startLat, startLon, original.points[0].ele)
      && r.bounds == CalculateBounds(r.points)
  {
    var points := Relocated(original.points, distanceScale, startLat, startLon);
    assert points[0] == PreviewPoint(startLat, startLon, original.points[0].ele);
  }

  /** For non-negative scales the generated preview of a consistent route is consistent. */
  lemma GenerateScaledPreviewConsistent(original: RouteData, distanceScale: real, ascentScale: real, startLat: real, startLon: real)
    requires Consistent(original) && |original.points| > 0
    requires distanceScale >= 0.0 && ascentScale >= 0.0
    ensures Consistent(GenerateScaledPreview(Some(original), distanceScale, ascentScale, startLat, startLon).value)
  {
    var points := Relocated(original.points, distanceScale, startLat, startLon);
    RescaledConsistent(original, points, Some(|points|), distanceScale, ascentScale);
  }

  /**
   * Both previews multiply the profile: each elevation and the total ascent by the ascent scale, each
   * cumulative distance and the total distance by the distance scale.
   */
  lemma PreviewMultipliesProfile(original: RouteData, distanceScale: real, ascentScale: real, startLat: real, startLon: real)
    ensures Multiplies(ScaledPreview(original, distanceScale, ascentScale, startLat, startLon), original, distanceScale, ascentScale)
    ensures |original.points| > 0 ==>
      Multiplies(GenerateScaledPreview(Some(original), distanceScale, ascentScale, startLat, startLon).value,
                 original, distanceScale, ascentScale)
  {
    var points := if startLat != 0.0 || startLon != 0.0 then Relocated(original.points, distanceScale, startLat, startLon)
                  else original.points;
    RescaledMultiplies(original, points, if |points| > 0 then CalculateBounds(points) else original.bounds, None,
                       distanceScale, ascentScale);
    if |original.points| > 0 {
      var moved := Relocated(original.points, distanceScale, startLat, startLon);
      RescaledMultiplies(original, moved, CalculateBounds(moved), Some(|moved|), distanceScale, ascentScale);
    }
  }

  /** s holds the profile of original multiplied elementwise, and its totals multiplied, by the scales. */
  predicate Multiplies(s: RouteData, original: RouteData, distanceScale: real, ascentScale: real)
  {
    |s.elevations| == |original.elevations| && |s.distances| == |original.distances|
    && (forall i :: 0 <= i < |s.elevations| ==> s.elevations[i] == original.elevations[i] * ascentScale)
    && (forall i :: 0 <= i < |s.distances| ==> s.distances[i] == original.distances[i] * distanceScale)
    && s.totalDistance == original.totalDistance * distanceScale && s.totalAscent == original.totalAscent * ascentScale
  }

  lemma RescaledMultiplies(original: RouteData, points: seq<PreviewPoint>, bounds: Option<Bounds>, pointCount: Option<nat>,
                           distanceScale: real, ascentScale: real)
    ensures Multiplies(Rescaled(original, points, bounds, pointCount, distanceScale, ascentScale), original, distanceScale, ascentScale)
  {
  }

  /** The timing part of the scaled-preview response. */
  datatype PreviewTiming = PreviewTiming(originalSeconds: real, scaledSeconds: real,
                                         originalHours: real, scaledHours: real)

  /**
   * The preview's duration estimate. originalDuration is None when power or weight is missing or
   * the duration could not be computed, and the response's timing dictionary is then empty.
   */
  function ScaledTiming(originalDuration: Option<real>, distanceScale: real, ascentScale: real): (r: Option<PreviewTiming>)
    ensures r.Some? <==> originalDuration.Some?
    ensures r.Some? ==> (r.value.originalSeconds == originalDuration.value
                         && r.value.originalHours * 3600.0 == r.value.originalSeconds
                         && r.value.scaledHours * 3600.0 == r.value.scaledSeconds)
  {
    match originalDuration
    case None => None
    case Some(d) =>
      var scaled := d * (distanceScale * 0.8 + ascentScale * 0.2);
      Some(PreviewTiming(d, scaled, d / 3600.0, scaled / 3600.0))
  }

  /**
   * Equal scales multiply the duration by that scale; for a non-negative duration, raising either
   * scale never shortens the estimate.
   */
  lemma {:induction false} ScaledTimingProperties(d: real, distanceScale: real, ascentScale: real,
                                                  distanceScale': real, ascentScale': real)
    ensures ScaledTiming(Some(d), distanceScale, distanceScale).value.scaledSeconds == d * distanceScale
    ensures 0.0 <= d && distanceScale <= distanceScale' && ascentScale <= ascentScale' ==>
      ScaledTiming(Some(d), distanceScale, ascentScale).value.scaledSeconds
        <= ScaledTiming(Some(d), distanceScale', ascentScale').value.scaledSeconds
  {
    var w := distanceScale * 0.8 + ascentScale * 0.2;
    var w' := distanceScale' * 0.8 + ascentScale' * 0.2;
    if 0.0 <= d && distanceScale <= distanceScale' && ascentScale <= ascentScale' {
      assert w <= w';
      assert d * w <= d * w' by { assert d * (w' - w) >= 0.0; }
    }
  }
}
