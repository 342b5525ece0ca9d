/**
 * add_timing_data_to_gpx: routes are first turned into tracks, then one clock runs through every
 * track segment with at least two points, in document order. Point 0 of such a segment is stamped with
 * the clock as it stands, and each later point with the clock advanced by the time the rider needs
 * for the leg that ends at it. The clock is a number of seconds; the start time is a parameter.
 */
module Timing {
  import opened Wrappers
  import opened GpxModel
  import opened SpeedModel
  import opened PointWalk

  /**
   * The seconds a rider needs for a leg, given its elevation change (m) and its length (m). The timing
   * walk relies only on a leg of non-negative length never taking negative time.
   */
  type LegTimeFn = t: (real, real) -> real | forall change: real, distance: real :: distance >= 0.0 ==> t(change, distance) >= 0.0
    witness (change: real, distance: real) => 0.0

  /** The leg times of one rider, or none when a zero weight makes the speed model divide by zero. */
  datatype Rider = Rider(legTime: LegTimeFn) | ZeroWeight

  /** The leg time add_timing_data_to_gpx computes for one rider: the length over calculate_cycling_speed. */
  function RiderLegTime(power: real, weight: real): (r: Rider)
    ensures r.ZeroWeight? <==> weight == 0.0
    ensures r.Rider? ==> forall change: real, distance: real {:trigger r.legTime(change, distance)} ::
              r.legTime(change, distance) == distance / CyclingSpeed(power, weight, change, distance)
  {
    if weight == 0.0 then ZeroWeight
    else
      assert forall change: real, distance: real :: distance >= 0.0 ==> distance / CyclingSpeed(power, weight, change, distance) >= 0.0 by {
        forall change: real, distance: real | distance >= 0.0
          ensures distance / CyclingSpeed(power, weight, change, distance) >= 0.0
        {
          QuotientNonNegative(distance, CyclingSpeed(power, weight, change, distance));
        }
      }
      Rider((change: real, distance: real) => distance / CyclingSpeed(power, weight, change, distance))
  }

  lemma QuotientNonNegative(x: real, y: real)
    requires x >= 0.0 && y > 0.0
    ensures x / y >= 0.0
  {
  }

  /** The elevation change the speed model sees for a leg: 0 unless both ends have an elevation. */
  function ElevationChange(a: GpxPoint, b: GpxPoint): (c: real)
    ensures a.ele.Some? && b.ele.Some? ==> c == b.ele.value - a.ele.value
    ensures a.ele.None? || b.ele.None? ==> c == 0.0
  {
    if a.ele.Some? && b.ele.Some? then b.ele.value - a.ele.value else 0.0
  }

  /** Seconds needed for the leg from `a` to `b`. */
  function LegSeconds(a: GpxPoint, b: GpxPoint, legTime: LegTimeFn, dist: DistanceFn): (s: real)
    ensures s >= 0.0
  {
    legTime(ElevationChange(a, b), PointDistance(dist, a, b))
  }

  /** Restamping a point leaves its position and elevation, so the leg it starts or ends takes as long as before. */
  lemma LegSecondsIgnoresTime(a: GpxPoint, b: GpxPoint, ta: Option<real>, tb: Option<real>, legTime: LegTimeFn, dist: DistanceFn)
    ensures LegSeconds(a.(time := ta), b.(time := tb), legTime, dist) == LegSeconds(a, b, legTime, dist)
  {
    assert PointDistance(dist, a.(time := ta), b.(time := tb)) == PointDistance(dist, a, b);
    assert ElevationChange(a.(time := ta), b.(time := tb)) == ElevationChange(a, b);
  }

  /** Seconds from point 0 to point i of a list. */
  function Elapsed(points: seq<GpxPoint>, i: nat, legTime: LegTimeFn, dist: DistanceFn): (e: real)
    requires i < |points|
    ensures e >= 0.0
    ensures i == 0 ==> e == 0.0
  {
    if i == 0 then 0.0 else Elapsed(points, i - 1, legTime, dist) + LegSeconds(points[i - 1], points[i], legTime, dist)
  }

  /** The clock never runs backwards along a list. */
  lemma {:induction false} ElapsedMonotone(points: seq<GpxPoint>, i: nat, j: nat, legTime: LegTimeFn, dist: DistanceFn)
    requires i <= j < |points|
    ensures Elapsed(points, i, legTime, dist) <= Elapsed(points, j, legTime, dist)
    decreases j
  {
    if i < j {
      ElapsedMonotone(points, i, j - 1, legTime, dist);
    }
  }

  /** A point stamped with time t. */
  function Stamped(p: GpxPoint, t: real): GpxPoint
  {
    p.(time := Some(t))
  }

  /** The clock a rewritten point carries (each rewritten point carries one). */
  function ClockOf(p: GpxPoint): real
  {
    match p.time
    case Some(t) => t
    case None => 0.0
  }

  /** The timing step: the current point, stamped with the previous point's clock plus the leg's seconds. */
  function TimingStep(legTime: LegTimeFn, dist: DistanceFn): StepFn
  {
    (prev, o1, o2) => Stamped(o2, ClockOf(prev) + LegSeconds(o1, o2, legTime, dist))
  }

  /** A list restamped from `start` as the clock advances leg by leg. */
  function TimedPoints(points: seq<GpxPoint>, start: real, legTime: LegTimeFn, dist: DistanceFn): (r: seq<GpxPoint>)
    requires |points| > 0
    ensures |r| == |points| && r[0] == Stamped(points[0], start)
  {
    Walk(points, Stamped(points[0], start), TimingStep(legTime, dist))
  }

  /** Each later point of a restamped list carries the clock of the point before it plus the leg's seconds. */
  lemma TimedPointsStep(points: seq<GpxPoint>, i: nat, start: real, legTime: LegTimeFn, dist: DistanceFn)
    requires 0 < i < |points|
    ensures var r := TimedPoints(points, start, legTime, dist);
      r[i] == Stamped(points[i], ClockOf(r[i - 1]) + LegSeconds(points[i - 1], points[i], legTime, dist))
  {
    WalkStep(points, i, Stamped(points[0], start), TimingStep(legTime, dist));
  }

  /** Point i of a restamped list is the original point i carrying start plus the seconds from point 0 to point i. */
  lemma {:induction false} TimedPointsAt(points: seq<GpxPoint>, i: nat, start: real, legTime: LegTimeFn, dist: DistanceFn)
    requires i < |points|
    ensures TimedPoints(points, start, legTime, dist)[i] == Stamped(points[i], start + Elapsed(points, i, legTime, dist))
  {
    if i > 0 {
      TimedPointsAt(points, i - 1, start, legTime, dist);
      WalkStep(points, i, Stamped(points[0], start), TimingStep(legTime, dist));
    }
  }

  /**
   * A restamped list keeps its points' positions and elevations, starts at `start`, and its timestamps
   * never decrease.
   */
  lemma TimedPointsProperties(points: seq<GpxPoint>, start: real, legTime: LegTimeFn, dist: DistanceFn)
    requires |points| > 0
    ensures var r := TimedPoints(points, start, legTime, dist);
      r[0].time == Some(start)
      && (forall i :: 0 <= i < |r| ==> r[i].lat == points[i].lat && r[i].lon == points[i].lon && r[i].ele == points[i].ele)
      && (forall i :: 0 <= i < |r| ==> r[i].time.Some? && r[i].time.value >= start)
      && (forall i, j :: 0 <= i <= j < |r| ==> r[i].time.value <= r[j].time.value)
  {
    var r := TimedPoints(points, start, legTime, dist);
    forall i | 0 <= i < |r|
      ensures r[i] == Stamped(points[i], start + Elapsed(points, i, legTime, dist))
    {
      TimedPointsAt(points, i, start, legTime, dist);
    }
    forall i, j | 0 <= i <= j < |r|
      ensures r[i].time.value <= r[j].time.value
    {
      ElapsedMonotone(points, i, j, legTime, dist);
    }
  }

  /**
   * One segment: lists of fewer than two points are skipped and leave the clock as it is; a longer list
   * is restamped from the clock, which then stands at its last point's time. A zero weight makes the
   * speed model divide by zero once a segment has to be timed.
   */
  function TimedSegment(points: seq<GpxPoint>, clock: real, rider: Rider, dist: DistanceFn): (r: Result<(seq<GpxPoint>, real)>)
    ensures r.Err? <==> rider.ZeroWeight? && |points| >= 2
    ensures r.Err? ==> r.error == ZeroDivisionError
    ensures r.Ok? ==> |r.value.0| == |points| && r.value.1 >= clock
    ensures |points| < 2 ==> r == Ok((points, clock))
    ensures r.Ok? && |points| >= 2 ==> r.value.0[0].time == Some(clock) && r.value.0[|points| - 1].time == Some(r.value.1)
  {
    if |points| < 2 then Ok((points, clock))
    else if rider.ZeroWeight? then Err(ZeroDivisionError)
    else Ok(TimedRun(points, clock, rider.legTime, dist))
  }

  /** A list of at least two points restamped from `clock`, with the clock at its last point's time. */
  function TimedRun(points: seq<GpxPoint>, clock: real, legTime: LegTimeFn, dist: DistanceFn): (r: (seq<GpxPoint>, real))
    requires |points| >= 2
    ensures |r.0| == |points| && r.1 >= clock
    ensures r.0[0].time == Some(clock) && r.0[|points| - 1].time == Some(r.1)
  {
    TimedPointsAt(points, |points| - 1, clock, legTime, dist);
    (TimedPoints(points, clock, legTime, dist), clock + Elapsed(points, |points| - 1, legTime, dist))
  }

  /** The segments of one track in order, the clock carried from each to the next. */
  function TimedLists(lists: seq<seq<GpxPoint>>, clock: real, rider: Rider, dist: DistanceFn): (r: Result<(seq<seq<GpxPoint>>, real)>)
    ensures r.Ok? ==> |r.value.0| == |lists| && r.value.1 >= clock
    ensures r.Err? ==> rider.ZeroWeight? && r.error == ZeroDivisionError
  {
    if |lists| == 0 then Ok(([], clock))
    else
      match TimedLists(lists[..|lists| - 1], clock, rider, dist)
      case Err(e) => Err(e)
      case Ok(before) =>
        match TimedSegment(lists[|lists| - 1], before.1, rider, dist)
        case Err(e) => Err(e)
        case Ok(last) => Ok((before.0 + [last.0], last.1))
  }

  /** The tracks in order, the clock carried from each to the next. */
  function TimedTracks(tracks: seq<Track>, clock: real, rider: Rider, dist: DistanceFn): (r: Result<(seq<Track>, real)>)
    ensures r.Ok? ==> |r.value.0| == |tracks| && r.value.1 >= clock
    ensures r.Err? ==> rider.ZeroWeight? && r.error == ZeroDivisionError
  {
    if |tracks| == 0 then Ok(([], clock))
    else
      var t := tracks[|tracks| - 1];
      match TimedTracks(tracks[..|tracks| - 1], clock, rider, dist)
      case Err(e) => Err(e)
      case Ok(before) =>
        match TimedLists(t.segments, before.1, rider, dist)
        case Err(e) => Err(e)
        case Ok(last) => Ok((before.0 + [t.(segments := last.0)], last.1))
  }

  /** Some list has at least two points, so it is timed. */
  predicate HasTimedList(lists: seq<seq<GpxPoint>>)
  {
    exists k :: 0 <= k < |lists| && |lists[k]| >= 2
  }

  predicate HasTimedSegment(tracks: seq<Track>)
  {
    exists k :: 0 <= k < |tracks| && HasTimedList(tracks[k].segments)
  }

  /** Timing one segment more: the segment is timed from the clock the segments before it left. */
  lemma TimedListsStep(lists: seq<seq<GpxPoint>>, s: nat, clock: real, rider: Rider, dist: DistanceFn)
    requires s < |lists| && TimedLists(lists[..s], clock, rider, dist).Ok?
    ensures var before := TimedLists(lists[..s], clock, rider, dist).value;
      TimedLists(lists[..s + 1], clock, rider, dist)
      == match TimedSegment(lists[s], before.1, rider, dist)
         case Err(e) => Err(e)
         case Ok(last) => Ok((before.0 + [last.0], last.1))
  {
    assert lists[..s + 1][..s] == lists[..s];
  }

  lemma TimedTracksStep(tracks: seq<Track>, t: nat, clock: real, rider: Rider, dist: DistanceFn)
    requires t < |tracks| && TimedTracks(tracks[..t], clock, rider, dist).Ok?
    ensures var before := TimedTracks(tracks[..t], clock, rider, dist).value;
      TimedTracks(tracks[..t + 1], clock, rider, dist)
      == match TimedLists(tracks[t].segments, before.1, rider, dist)
         case Err(e) => Err(e)
         case Ok(last) => Ok((before.0 + [tracks[t].(segments := last.0)], last.1))
  {
    assert tracks[..t + 1][..t] == tracks[..t];
  }

  /** Timing fails exactly when there is no leg time (a zero weight) and some segment of the track has to be timed. */
  lemma {:induction false} TimedListsFails(lists: seq<seq<GpxPoint>>, clock: real, rider: Rider, dist: DistanceFn)
    ensures TimedLists(lists, clock, rider, dist).Err? <==> rider.ZeroWeight? && HasTimedList(lists)
  {
    if |lists| > 0 {
      var n := |lists| - 1;
      TimedListsFails(lists[..n], clock, rider, dist);
      assert forall k :: 0 <= k < n ==> lists[..n][k] == lists[k];
      if rider.ZeroWeight? && HasTimedList(lists) && !HasTimedList(lists[..n]) {
        assert |lists[n]| >= 2;
      }
    }
  }

  lemma {:induction false} TimedTracksFails(tracks: seq<Track>, clock: real, rider: Rider, dist: DistanceFn)
    ensures TimedTracks(tracks, clock, rider, dist).Err? <==> rider.ZeroWeight? && HasTimedSegment(tracks)
  {
    if |tracks| > 0 {
      var n := |tracks| - 1;
      TimedTracksFails(tracks[..n], clock, rider, dist);
      assert forall k :: 0 <= k < n ==> tracks[..n][k] == tracks[k];
      match TimedTracks(tracks[..n], clock, rider, dist)
      case Err(_) =>
      case Ok(before) =>
        TimedListsFails(tracks[n].segments, before.1, rider, dist);
        if rider.ZeroWeight? && HasTimedSegment(tracks) && !HasTimedSegment(tracks[..n]) {
          assert HasTimedList(tracks[n].segments);
        }
    }
  }

  /**
   * Segment k of a timed track is segment k of the original timed from the clock as the segments
   * before it left it: so the clock passes from each timed segment's last point to the next one's first.
   */
  lemma {:induction false} TimedListsAt(lists: seq<seq<GpxPoint>>, k: nat, clock: real, rider: Rider, dist: DistanceFn)
    requires k < |lists| && TimedLists(lists, clock, rider, dist).Ok?
    ensures TimedLists(lists[..k], clock, rider, dist).Ok?
    ensures var c := TimedLists(lists[..k], clock, rider, dist).value.1;
      TimedSegment(lists[k], c, rider, dist).Ok?
      && TimedLists(lists, clock, rider, dist).value.0[k] == TimedSegment(lists[k], c, rider, dist).value.0
    decreases |lists|
  {
    var n := |lists| - 1;
    if k < n {
      assert lists[..n][..k] == lists[..k];
      TimedListsAt(lists[..n], k, clock, rider, dist);
    } else {
      assert lists[..k] == lists[..n];
    }
  }

  /** The label a route takes as a track: its name, or "Converted Route" when it has none or an empty one. */
  function ConvertedName(name: Option<string>): (r: string)
    ensures name.Some? && name.value != "" ==> r == name.value
    ensures name.None? || name.value == "" ==> r == "Converted Route"
  {
    match name
    case Some(n) => if n != "" then n else "Converted Route"
    case None => "Converted Route"
  }

  /** The track a route becomes: one segment holding copies of its points, without their timestamps. */
  function RouteTrack(route: Route): (t: Track)
    ensures t.name == Some(ConvertedName(route.name)) && |t.segments| == 1 && |t.segments[0]| == |route.points|
    ensures forall i :: 0 <= i < |route.points| ==>
              t.segments[0][i] == GpxPoint(route.points[i].lat, route.points[i].lon, route.points[i].ele, None)
  {
    Track(Some(ConvertedName(route.name)),
          [seq(|route.points|, i requires 0 <= i < |route.points| => route.points[i].(time := None))])
  }

  /** How many of the routes have points. */
  function NonEmptyCount(routes: seq<Route>): (c: nat)
    ensures c <= |routes|
  {
    if |routes| == 0 then 0
    else NonEmptyCount(routes[..|routes| - 1]) + (if |routes[|routes| - 1].points| > 0 then 1 else 0)
  }

  /** The tracks the non-empty routes become, in route order. */
  function RouteTracks(routes: seq<Route>): (r: seq<Track>)
    ensures |r| == NonEmptyCount(routes)
  {
    if |routes| == 0 then []
    else
      var before := RouteTracks(routes[..|routes| - 1]);
      if |routes[|routes| - 1].points| > 0 then before + [RouteTrack(routes[|routes| - 1])] else before
  }

  /**
   * A non-empty route becomes the track whose position among the converted tracks is the number of
   * non-empty routes before it; empty routes yield no track.
   */
  lemma {:induction false} RouteTrackPosition(routes: seq<Route>, j: nat)
    requires j < |routes| && |routes[j].points| > 0
    ensures NonEmptyCount(routes[..j]) < |RouteTracks(routes)|
    ensures RouteTracks(routes)[NonEmptyCount(routes[..j])] == RouteTrack(routes[j])
    decreases |routes|
  {
    var n := |routes| - 1;
    if j < n {
      RouteTrackPosition(routes[..n], j);
      assert routes[..n][..j] == routes[..j];
      assert routes[..n][j] == routes[j];
      NonEmptyCountPrefix(routes[..n], j);
    } else {
      assert routes[..j] == routes[..n];
    }
  }

  /** Tracks are timed exactly when one of the two halves holds a segment with a leg. */
  lemma HasTimedSegmentAppend(a: seq<Track>, b: seq<Track>)
    ensures HasTimedSegment(a + b) <==> HasTimedSegment(a) || HasTimedSegment(b)
  {
    if HasTimedSegment(a + b) {
      var k :| 0 <= k < |a + b| && HasTimedList((a + b)[k].segments);
      if k < |a| {
        assert (a + b)[k] == a[k];
      } else {
        assert (a + b)[k] == b[k - |a|];
      }
    }
    if HasTimedSegment(a) {
      var k :| 0 <= k < |a| && HasTimedList(a[k].segments);
      assert (a + b)[k] == a[k];
    }
    if HasTimedSegment(b) {
      var k :| 0 <= k < |b| && HasTimedList(b[k].segments);
      assert (a + b)[|a| + k] == b[k];
    }
  }

  /** The converted routes hold a segment with a leg exactly when some route has two points or more. */
  lemma {:induction false} RouteTracksTimed(routes: seq<Route>)
    ensures HasTimedSegment(RouteTracks(routes)) <==> exists j :: 0 <= j < |routes| && |routes[j].points| >= 2
    decreases |routes|
  {
    if |routes| > 0 {
      var n := |routes| - 1;
      RouteTracksTimed(routes[..n]);
      assert forall j :: 0 <= j < n ==> routes[..n][j] == routes[j];
      var before := RouteTracks(routes[..n]);
      if |routes[n].points| > 0 {
        var t := RouteTrack(routes[n]);
        HasTimedSegmentAppend(before, [t]);
        assert HasTimedSegment([t]) <==> HasTimedList(t.segments) by {
          assert [t][0] == t;
        }
        assert HasTimedList(t.segments) <==> |routes[n].points| >= 2 by {
          if |routes[n].points| >= 2 {
            assert |t.segments[0]| >= 2;
          }
        }
      }
    }
  }

  /** A prefix has no more non-empty routes than the whole. */
  lemma {:induction false} NonEmptyCountPrefix(routes: seq<Route>, j: nat)
    requires j <= |routes|
    ensures NonEmptyCount(routes[..j]) <= NonEmptyCount(routes)
    decreases |routes|
  {
    if j < |routes| {
      var n := |routes| - 1;
      assert routes[..n][..j] == routes[..j];
      NonEmptyCountPrefix(routes[..n], j);
    } else {
      assert routes[..j] == routes;
    }
  }

  /** One step of the timing walk from a point stamped with `clock`, and the leg time the source computes from that point. */
  /** Restamping the first point of a leg does not change the seconds the leg takes. */
  lemma LegSecondsFromStamped(o1: GpxPoint, o2: GpxPoint, clock: real, legTime: LegTimeFn, dist: DistanceFn)
    ensures LegSeconds(Stamped(o1, clock), o2, legTime, dist) == LegSeconds(o1, o2, legTime, dist)
  {
    LegSecondsIgnoresTime(o1, o2, Some(clock), o2.time, legTime, dist);
    assert o2.(time := o2.time) == o2;
  }

  /** The restamping of one segment as add_timing_data_to_gpx performs it: in place, the clock advanced leg by leg. */
  method TimePointsInPlace(points: array<GpxPoint>, start: real, legTime: LegTimeFn, dist: DistanceFn) returns (clock: real)
    requires points.Length >= 2
    modifies points
    ensures points[..] == TimedPoints(old(points[..]), start, legTime, dist)
    ensures clock == start + Elapsed(old(points[..]), points.Length - 1, legTime, dist)
  {
    var original := points[..];
    ghost var timed := TimedPoints(original, start, legTime, dist);
    clock := start;
    points[0] := Stamped(points[0], start);
    for i := 1 to points.Length
      invariant forall k {:trigger points[k]} :: 0 <= k < i ==> points[k] == timed[k]
      invariant forall k {:trigger points[k]} :: i <= k < points.Length ==> points[k] == original[k]
      invariant points[i - 1].time == Some(clock)
    {
      var prev := points[i - 1];
      var curr := points[i];
      TimedPointsStep(original, i, start, legTime, dist);
      assert prev == timed[i - 1] && curr == original[i];
      TimedPointsAt(original, i - 1, start, legTime, dist);
      assert prev == Stamped(original[i - 1], clock);
      LegSecondsFromStamped(original[i - 1], original[i], clock, legTime, dist);
      clock := clock + LegSeconds(prev, curr, legTime, dist);
      assert Stamped(curr, clock) == timed[i];
      points[i] := Stamped(curr, clock);
    }
    assert points[..] == timed;
    TimedPointsAt(original, points.Length - 1, start, legTime, dist);
  }

  /** One segment of at least two points, restamped through an array as the source restamps it in place. */
  method TimeSegment(points: seq<GpxPoint>, clock: real, legTime: LegTimeFn, dist: DistanceFn) returns (timed: seq<GpxPoint>, end: real)
    requires |points| >= 2
    ensures timed == TimedRun(points, clock, legTime, dist).0 && end == TimedRun(points, clock, legTime, dist).1
  {
    var a := new GpxPoint[|points|](i requires 0 <= i < |points| => points[i]);
    assert a[..] == points;
    end := TimePointsInPlace(a, clock, legTime, dist);
    timed := a[..];
    assert timed == TimedPoints(points, clock, legTime, dist);
  }

  /** The segments of one track timed in order, each one rewritten through an array as the source rewrites it in place. */
  method TimeSegments(segments: seq<seq<GpxPoint>>, start: real, rider: Rider, dist: DistanceFn)
    returns (r: Result<(seq<seq<GpxPoint>>, real)>)
    ensures r == TimedLists(segments, start, rider, dist)
  {
    var timed: seq<seq<GpxPoint>> := [];
    var clock := start;
    for s := 0 to |segments|
      invariant TimedLists(segments[..s], start, rider, dist).Ok?
      invariant TimedLists(segments[..s], start, rider, dist).value.0 == timed
      invariant TimedLists(segments[..s], start, rider, dist).value.1 == clock
    {
      TimedListsStep(segments, s, start, rider, dist);
      if |segments[s]| < 2 {
        timed := timed + [segments[s]];
      } else if rider.ZeroWeight? {
        assert HasTimedList(segments);
        TimedListsFails(segments, start, rider, dist);
        return Err(ZeroDivisionError);
      } else {
        var restamped;
        restamped, clock := TimeSegment(segments[s], clock, rider.legTime, dist);
        timed := timed + [restamped];
      }
    }
    assert segments[..|segments|] == segments;
    r := Ok((timed, clock));
  }

  /** The first half of add_timing_data_to_gpx: each non-empty route is appended as a track and the route list is emptied. */
  method ConvertRoutes(gpx: Gpx)
    modifies gpx
    ensures gpx.tracks == old(gpx.tracks) + RouteTracks(old(gpx.routes)) && gpx.routes == []
  {
    var routes := gpx.routes;
    if |routes| > 0 {
      for k := 0 to |routes|
        invariant gpx.tracks == old(gpx.tracks) + RouteTracks(routes[..k])
      {
        assert routes[..k + 1][..k] == routes[..k];
        if |routes[k].points| > 0 {
          gpx.tracks := gpx.tracks + [RouteTrack(routes[k])];
        }
      }
      assert routes[..|routes|] == routes;
      gpx.routes := [];
    }
  }

  /**
   * add_timing_data_to_gpx: routes are converted, then every track's segments are timed from `start` in
   * document order. The result is the final clock, or the division by zero a zero weight causes.
   */
  method AddTimingData(gpx: Gpx, power: real, weight: real, start: real, dist: DistanceFn) returns (r: Result<real>)
    modifies gpx
    ensures gpx.routes == []
    ensures var outcome := TimedTracks(old(gpx.tracks) + RouteTracks(old(gpx.routes)), start, RiderLegTime(power, weight), dist);
      (outcome.Err? ==> r == Err(outcome.error))
      && (outcome.Ok? ==> r == Ok(outcome.value.1) && gpx.tracks == outcome.value.0)
  {
    ConvertRoutes(gpx);
    var converted := gpx.tracks;
    assert converted == old(gpx.tracks) + RouteTracks(old(gpx.routes));
    var rider := RiderLegTime(power, weight);
    var timedTracks: seq<Track> := [];
    var clock := start;
    for t := 0 to |converted|
      invariant gpx.routes == []
      invariant TimedTracks(converted[..t], start, rider, dist).Ok?
      invariant TimedTracks(converted[..t], start, rider, dist).value.0 == timedTracks
      invariant TimedTracks(converted[..t], start, rider, dist).value.1 == clock
    {
      TimedTracksStep(converted, t, start, rider, dist);
      var timed := TimeSegments(converted[t].segments, clock, rider, dist);
      if timed.Err? {
        TimedListsFails(converted[t].segments, clock, rider, dist);
        assert HasTimedSegment(converted) by {
          assert HasTimedList(converted[t].segments);
        }
        TimedTracksFails(converted, start, rider, dist);
        return Err(ZeroDivisionError);
      }
      clock := timed.value.1;
      timedTracks := timedTracks + [converted[t].(segments := timed.value.0)];
    }
    assert converted[..|converted|] == converted;
    gpx.tracks := timedTracks;
    r := Ok(clock);
  }
}
