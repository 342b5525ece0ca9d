/**
 * The geometry rewrite of scale_gpx_file. Every track segment and every route with at least two points
 * is rebuilt in place: point 0 moves to the new start and takes the base elevation, and each later
 * point is placed from the already rewritten previous point along the original leg's bearing, at the
 * original leg's distance times the distance scale, with the original elevation change times the
 * elevation scale. Shorter segments and routes are left as they are.
 */
module ScaleWalk {
  import opened Wrappers
  import opened GpxModel
  import opened ScaleRules
  import opened RealSeq
  import opened PointWalk

  /** The two factors one file is scaled by. */
  datatype Scales = Scales(distance: real, elevation: real)

  /** The entry route_stats holds for an analysed file. */
  datatype RouteStats = RouteStats(distanceKm: real, ascentM: real)

  /**
   * The scales of one file: the requested factor for both, unless a minimum distance or a maximum
   * ascent is given and the file was analysed; then the minimum-distance rule picks the distance
   * scale and the maximum-ascent rule derives the elevation scale from it. An Err is the exception
   * that makes scale_gpx_file give up on the file.
   */
  function FileScales(scaleFactor: real, minDistanceKm: Option<real>, maxAscentM: Option<real>,
                      stats: Option<RouteStats>): (r: Result<Scales>)
    ensures (minDistanceKm.None? && maxAscentM.None?) || stats.None? ==> r == Ok(Scales(scaleFactor, scaleFactor))
    ensures stats.Some? && minDistanceKm.Some? && stats.value.distanceKm > 0.0 && r.Ok? ==>
              stats.value.distanceKm * r.value.distance >= minDistanceKm.value
    ensures stats.Some? && maxAscentM.Some? && r.Ok? ==> stats.value.ascentM * r.value.elevation <= maxAscentM.value
    ensures r.Ok? && minDistanceKm.None? ==> r.value.distance == scaleFactor
    ensures r.Ok? && maxAscentM.None? ==> r.value.elevation == r.value.distance
  {
    if (minDistanceKm.Some? || maxAscentM.Some?) && stats.Some? then
      match AdjustedScale(stats.value.distanceKm, scaleFactor, minDistanceKm)
      case Err(e) => Err(e)
      case Ok(distance) =>
        AdjustedFloorHolds(stats.value.distanceKm, scaleFactor, minDistanceKm);
        match ElevationScale(stats.value.ascentM, distance, maxAscentM)
        case Err(e) => Err(e)
        case Ok(elevation) => Ok(Scales(distance, elevation))
    else
      Ok(Scales(scaleFactor, scaleFactor))
  }

  lemma AdjustedFloorHolds(originalDistanceKm: real, desiredScale: real, minDistanceKm: Option<real>)
    requires AdjustedScale(originalDistanceKm, desiredScale, minDistanceKm).Ok?
    ensures minDistanceKm.Some? && originalDistanceKm > 0.0 ==>
              originalDistanceKm * AdjustedScale(originalDistanceKm, desiredScale, minDistanceKm).value >= minDistanceKm.value
  {
    if minDistanceKm.Some? && originalDistanceKm > 0.0 {
      AdjustedScaleMeetsFloor(originalDistanceKm, desiredScale, minDistanceKm.value);
    }
  }

  /** The first point of the first non-empty point list. */
  function FirstPointOf(lists: seq<seq<GpxPoint>>): (r: Option<GpxPoint>)
    ensures r.None? <==> forall k :: 0 <= k < |lists| ==> |lists[k]| == 0
    ensures r.Some? ==> exists k :: 0 <= k < |lists| && |lists[k]| > 0 && lists[k][0] == r.value
                                  && forall j :: 0 <= j < k ==> |lists[j]| == 0
  {
    if |lists| == 0 then None
    else if |lists[0]| > 0 then Some(lists[0][0])
    else
      var r := FirstPointOf(lists[1..]);
      assert forall k :: 1 <= k < |lists| ==> lists[k] == lists[1..][k - 1];
      r
  }

  function RoutePoints(routes: seq<Route>): (lists: seq<seq<GpxPoint>>)
    ensures |lists| == |routes| && forall k :: 0 <= k < |routes| ==> lists[k] == routes[k].points
  {
    if |routes| == 0 then [] else [routes[0].points] + RoutePoints(routes[1..])
  }

  /** The reference point: the first point of any track segment, or failing that of any route. */
  function FirstPoint(data: GpxData): Option<GpxPoint>
  {
    match FirstPointOf(AllSegments(data.tracks))
    case Some(p) => Some(p)
    case None => FirstPointOf(RoutePoints(data.routes))
  }

  /** The elevation point 0 of every rewritten list takes: the starting elevation if given, else the reference point's (0 if it has none). */
  function BaseElevation(first: GpxPoint, startingElevation: Option<real>): (base: real)
    ensures startingElevation.Some? ==> base == startingElevation.value
    ensures startingElevation.None? && first.ele.Some? ==> base == first.ele.value
    ensures startingElevation.None? && first.ele.None? ==> base == 0.0
  {
    match startingElevation
    case Some(e) => e
    case None => match first.ele case Some(e) => e case None => 0.0
  }

  /**
   * Where the scaler puts a later point, given the rewritten previous point `prev` and the original leg
   * from `o1` to `o2`: from `prev` along the leg's bearing, at the leg's distance times the distance
   * scale; climbing the leg's climb times the elevation scale when both ends of the leg have elevations,
   * else staying at `prev`'s elevation. The point keeps its own timestamp.
   */
  function Step(prev: GpxPoint, o1: GpxPoint, o2: GpxPoint, scales: Scales, geo: Geo): GpxPoint
  {
    var position := StepPosition(prev, o1, o2, scales.distance, geo);
    GpxPoint(position.0, position.1, StepElevation(prev.ele, o1.ele, o2.ele, scales.elevation), o2.time)
  }

  /** The new position: from `prev`, along the original leg's bearing, the original leg's distance times `ds`. */
  function StepPosition(prev: GpxPoint, o1: GpxPoint, o2: GpxPoint, ds: real, geo: Geo): (real, real)
  {
    var distance := PointDistance(geo.distance, o1, o2);
    var bearing := geo.bearing(o1.lat, o1.lon, o2.lat, o2.lon);
    geo.destination(prev.lat, prev.lon, bearing, Times(ds)(distance))
  }

  /** The new elevation: the original climb times `es` on top of `prev`, or `prev` where the leg lacks an elevation. */
  function StepElevation(prev: Option<real>, e1: Option<real>, e2: Option<real>, es: real): Option<real>
  {
    if e1.Some? && e2.Some? then
      match prev
      case Some(e) => Some(e + Times(es)(e2.value - e1.value))
      case None => None
    else prev
  }

  /** The scaler's step as a step of the walk. */
  function ScalerStep(scales: Scales, geo: Geo): StepFn
  {
    (prev, o1, o2) => Step(prev, o1, o2, scales, geo)
  }

  /** Point 0 of a rewritten list: the new start position, the base elevation, its own timestamp. */
  function StartPoint(p: GpxPoint, startLat: real, startLon: real, base: real): GpxPoint
  {
    GpxPoint(startLat, startLon, Some(base), p.time)
  }

  /** The rewrite of one point list; lists with fewer than two points are skipped. */
  function ScaledPoints(original: seq<GpxPoint>, startLat: real, startLon: real, base: real, scales: Scales, geo: Geo): (r: seq<GpxPoint>)
    ensures |r| == |original|
    ensures |original| < 2 ==> r == original
    ensures |original| >= 2 ==> r[0] == GpxPoint(startLat, startLon, Some(base), original[0].time)
  {
    if |original| < 2 then original
    else Walk(original, StartPoint(original[0], startLat, startLon, base), ScalerStep(scales, geo))
  }

  lemma StepKeepsTime(scales: Scales, geo: Geo)
    ensures KeepsTime(ScalerStep(scales, geo))
  {
  }

  lemma StepKeepsElevation(scales: Scales, geo: Geo)
    ensures KeepsElevation(ScalerStep(scales, geo))
  {
  }

  lemma StepHoldsElevation(scales: Scales, geo: Geo)
    ensures HoldsElevation(ScalerStep(scales, geo))
  {
  }

  lemma StepScalesClimbs(scales: Scales, geo: Geo)
    ensures ScalesClimbs(ScalerStep(scales, geo), Times(scales.elevation))
  {
    forall p: GpxPoint, o1: GpxPoint, o2: GpxPoint | p.ele.Some? && o1.ele.Some? && o2.ele.Some?
      ensures ScalerStep(scales, geo)(p, o1, o2).ele == Some(p.ele.value + (Times(scales.elevation))(o2.ele.value - o1.ele.value))
    {
      assert ScalerStep(scales, geo)(p, o1, o2) == Step(p, o1, o2, scales, geo);
    }
  }

  /** Under the consistency hypothesis one step reproduces the original leg's length times the distance scale. */
  lemma StepLength(prev: GpxPoint, o1: GpxPoint, o2: GpxPoint, scales: Scales, geo: Geo)
    requires Consistent(geo) && scales.distance >= 0.0
    ensures PointDistance(geo.distance, prev, Step(prev, o1, o2, scales, geo))
            == PointDistance(geo.distance, o1, o2) * scales.distance
  {
    var leg := PointDistance(geo.distance, o1, o2);
    NonNegativeProduct(leg, scales.distance);
    var bearing := geo.bearing(o1.lat, o1.lon, o2.lat, o2.lon);
    var position := geo.destination(prev.lat, prev.lon, bearing, Times(scales.distance)(leg));
    assert geo.distance(prev.lat, prev.lon, position.0, position.1) == Times(scales.distance)(leg);
  }

  lemma StepScalesLegs(scales: Scales, geo: Geo)
    requires Consistent(geo) && scales.distance >= 0.0
    ensures ScalesLegs(ScalerStep(scales, geo), geo.distance, scales.distance)
  {
    forall p: GpxPoint, o1: GpxPoint, o2: GpxPoint
      ensures PointDistance(geo.distance, p, ScalerStep(scales, geo)(p, o1, o2)) == PointDistance(geo.distance, o1, o2) * scales.distance
    {
      StepLength(p, o1, o2, scales, geo);
    }
  }

  /** Every rewritten point keeps its timestamp. */
  lemma ScaledPointsTimes(original: seq<GpxPoint>, startLat: real, startLon: real, base: real, scales: Scales, geo: Geo)
    ensures var r := ScaledPoints(original, startLat, startLon, base, scales, geo);
      forall i :: 0 <= i < |r| ==> r[i].time == original[i].time
  {
    if |original| >= 2 {
      StepKeepsTime(scales, geo);
      WalkTimes(original, StartPoint(original[0], startLat, startLon, base), ScalerStep(scales, geo));
    }
  }

  /** Every point of a rewritten list has an elevation. */
  lemma ScaledPointsHaveElevations(original: seq<GpxPoint>, startLat: real, startLon: real, base: real, scales: Scales, geo: Geo)
    requires |original| >= 2
    ensures AllElevations(ScaledPoints(original, startLat, startLon, base, scales, geo))
  {
    StepKeepsElevation(scales, geo);
    WalkElevations(original, StartPoint(original[0], startLat, startLon, base), ScalerStep(scales, geo));
  }

  /** Under the consistency hypothesis the rewritten list is as long as the original times the distance scale. */
  lemma ScaledPointsLength(original: seq<GpxPoint>, startLat: real, startLon: real, base: real, scales: Scales, geo: Geo)
    requires Consistent(geo) && scales.distance >= 0.0
    ensures PathLength(geo.distance, ScaledPoints(original, startLat, startLon, base, scales, geo))
            == PathLength(geo.distance, original) * scales.distance
  {
    if |original| >= 2 {
      StepScalesLegs(scales, geo);
      WalkedLength(original, StartPoint(original[0], startLat, startLon, base), scales, geo);
    } else {
      ShortPathLength(geo.distance, original);
    }
  }

  lemma WalkedLength(original: seq<GpxPoint>, first: GpxPoint, scales: Scales, geo: Geo)
    requires |original| > 0 && ScalesLegs(ScalerStep(scales, geo), geo.distance, scales.distance)
    ensures PathLength(geo.distance, Walk(original, first, ScalerStep(scales, geo))) == PathLength(geo.distance, original) * scales.distance
  {
    WalkLength(original, first, ScalerStep(scales, geo), geo.distance, scales.distance);
  }

  lemma ShortPathLength(dist: DistanceFn, points: seq<GpxPoint>)
    requires |points| < 2
    ensures PathLength(dist, points) == 0.0
  {
    assert Legs(dist, points) == [];
  }

  lemma ScaledElevationAt(original: seq<GpxPoint>, i: nat, startLat: real, startLon: real, base: real, scales: Scales, geo: Geo)
    requires 2 <= |original| && i < |original| && AllElevations(original)
    ensures ScaledPoints(original, startLat, startLon, base, scales, geo)[i].ele
            == Some(base + (original[i].ele.value - original[0].ele.value) * scales.elevation)
  {
    ScalerWalkElevation(original, i, StartPoint(original[0], startLat, startLon, base), base, scales, geo);
  }

  lemma ScalerWalkElevation(original: seq<GpxPoint>, i: nat, first: GpxPoint, base: real, scales: Scales, geo: Geo)
    requires i < |original| && AllElevations(original) && first.ele == Some(base)
    ensures Walk(original, first, ScalerStep(scales, geo))[i].ele
            == Some(base + (original[i].ele.value - original[0].ele.value) * scales.elevation)
  {
    StepScalesClimbs(scales, geo);
    WalkElevationLinear(original, i, first, base, ScalerStep(scales, geo), scales.elevation);
  }

  /**
   * With elevations throughout, rewritten point i sits at the base elevation plus the original climb from
   * point 0 to point i times the elevation scale.
   */
  lemma ScaledPointsElevation(original: seq<GpxPoint>, startLat: real, startLon: real, base: real, scales: Scales, geo: Geo)
    requires |original| >= 2 && AllElevations(original)
    ensures var r := ScaledPoints(original, startLat, startLon, base, scales, geo);
      forall i :: 0 <= i < |r| ==> r[i].ele == Some(base + (original[i].ele.value - original[0].ele.value) * scales.elevation)
  {
    forall i | 0 <= i < |original|
      ensures ScaledPoints(original, startLat, startLon, base, scales, geo)[i].ele
              == Some(base + (original[i].ele.value - original[0].ele.value) * scales.elevation)
    {
      ScaledElevationAt(original, i, startLat, startLon, base, scales, geo);
    }
  }

  /** Where an original leg lacks an elevation at either end, the rewritten point repeats the previous rewritten elevation. */
  lemma ScaledPointsElevationGap(original: seq<GpxPoint>, i: nat, startLat: real, startLon: real, base: real, scales: Scales, geo: Geo)
    requires 0 < i < |original| && (original[i - 1].ele.None? || original[i].ele.None?)
    ensures var r := ScaledPoints(original, startLat, startLon, base, scales, geo); r[i].ele == r[i - 1].ele
  {
    StepHoldsElevation(scales, geo);
    WalkElevationGap(original, i, StartPoint(original[0], startLat, startLon, base), ScalerStep(scales, geo));
  }

  /** Scaling elevations by 1 from the original first elevation leaves every elevation as it was. */
  lemma UnitElevationScaleKeepsElevations(original: seq<GpxPoint>, startLat: real, startLon: real, scales: Scales, geo: Geo)
    requires |original| > 0 && AllElevations(original) && scales.elevation == 1.0
    ensures var r := ScaledPoints(original, startLat, startLon, original[0].ele.value, scales, geo);
      forall i :: 0 <= i < |r| ==> r[i].ele == original[i].ele
  {
    if |original| >= 2 {
      ScaledPointsElevation(original, startLat, startLon, original[0].ele.value, scales, geo);
    }
  }

  /** The rewrite of one point list as scale_gpx_file performs it: in place, each point from the already rewritten one before it. */
  method ScalePointsInPlace(points: array<GpxPoint>, startLat: real, startLon: real, base: real, scales: Scales, geo: Geo)
    modifies points
    ensures points[..] == ScaledPoints(old(points[..]), startLat, startLon, base, scales, geo)
  {
    if points.Length < 2 {
      return;
    }
    var original := points[..];
    var first := StartPoint(points[0], startLat, startLon, base);
    points[0] := first;
    assert points[..1] == Walk(original[..1], first, ScalerStep(scales, geo));
    for i := 1 to points.Length
      invariant points[..i] == Walk(original[..i], first, ScalerStep(scales, geo))
      invariant points[i..] == original[i..]
    {
      var prev := points[i - 1];
      assert original[..i + 1][..i] == original[..i];
      assert points[i - 1] == Walk(original[..i], first, ScalerStep(scales, geo))[i - 1];
      assert points[i] == original[i];
      points[i] := Step(prev, original[i - 1], original[i], scales, geo);
      assert points[..i + 1] == points[..i] + [points[i]];
    }
    assert original[..points.Length] == original;
  }
}
