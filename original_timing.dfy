/**
 * add_timing_data_based_on_original: the scaled document is timed with the legs of the original one.
 * Routes of the scaled document are turned into tracks as add_timing_data_to_gpx does; the original's
 * non-empty track segments and then its non-empty routes form the list of original point lists; each
 * scaled segment of at least two points is paired with one of them and its points are stamped with the
 * clock advanced along the original's legs, as far as both lists reach. The start time is a parameter.
 */
module OriginalTiming {
  import opened Wrappers
  import opened GpxModel
  import opened ScaleWalk
  import opened Timing

  /** The lists that have points, in order. */
  function NonEmptyLists(lists: seq<seq<GpxPoint>>): (r: seq<seq<GpxPoint>>)
    ensures |r| <= |lists|
    ensures forall k :: 0 <= k < |r| ==> |r[k]| > 0
  {
    if |lists| == 0 then []
    else
      var before := NonEmptyLists(lists[..|lists| - 1]);
      if |lists[|lists| - 1]| > 0 then before + [lists[|lists| - 1]] else before
  }

  /** Lists that all have points are kept as they are. */
  lemma {:induction false} NonEmptyListsOfFull(lists: seq<seq<GpxPoint>>)
    requires forall k :: 0 <= k < |lists| ==> |lists[k]| > 0
    ensures NonEmptyLists(lists) == lists
    decreases |lists|
  {
    if |lists| > 0 {
      var n := |lists| - 1;
      NonEmptyListsOfFull(lists[..n]);
      assert lists[..n] + [lists[n]] == lists;
    }
  }

  /** Filtering the concatenation of two runs of lists filters each run. */
  lemma {:induction false} NonEmptyListsAppend(a: seq<seq<GpxPoint>>, b: seq<seq<GpxPoint>>)
    ensures NonEmptyLists(a + b) == NonEmptyLists(a) + NonEmptyLists(b)
    decreases |b|
  {
    if |b| == 0 {
      assert a + b == a;
    } else {
      var n := |b| - 1;
      assert (a + b)[..|a + b| - 1] == a + b[..n];
      NonEmptyListsAppend(a, b[..n]);
    }
  }

  /** The original lists the source pairs the scaled segments with: the non-empty track segments, then the non-empty routes. */
  function OriginalLists(original: GpxData): (r: seq<seq<GpxPoint>>)
    ensures forall k :: 0 <= k < |r| ==> |r[k]| > 0
  {
    NonEmptyLists(AllSegments(original.tracks)) + NonEmptyLists(RoutePoints(original.routes))
  }

  /** The points carrying the timestamps of `run` as far as it reaches; positions and elevations stay. */
  function Retimed(points: seq<GpxPoint>, run: seq<GpxPoint>): (r: seq<GpxPoint>)
    ensures |r| == |points|
    ensures forall i :: 0 <= i < |points| ==> r[i] == if i < |run| then points[i].(time := run[i].time) else points[i]
  {
    seq(|points|, i requires 0 <= i < |points| => if i < |run| then points[i].(time := run[i].time) else points[i])
  }

  /** How far a scaled segment and its original are walked together. */
  function Common(points: seq<GpxPoint>, original: seq<GpxPoint>): (m: nat)
    ensures m <= |points| && m <= |original|
    ensures m == |points| || m == |original|
  {
    if |points| < |original| then |points| else |original|
  }

  /**
   * One scaled segment of at least two points timed from the original list `original` (empty when
   * there is none): point 0 takes the clock; while both lists have a point i, point i takes the
   * clock advanced by the original's leg to its point i; later points keep their timestamps. A
   * zero weight fails on the first leg.
   */
  function PairedSegment(points: seq<GpxPoint>, original: seq<GpxPoint>, clock: real, rider: Rider, dist: DistanceFn)
    : (r: Result<(seq<GpxPoint>, real)>)
    requires |points| >= 2
    ensures r.Err? <==> rider.ZeroWeight? && |original| >= 2
    ensures r.Err? ==> r.error == ZeroDivisionError
    ensures r.Ok? ==> |r.value.0| == |points| && r.value.1 >= clock && r.value.0[0].time == Some(clock)
  {
    var m := Common(points, original);
    if m < 2 then Ok((points[0 := Stamped(points[0], clock)], clock))
    else if rider.ZeroWeight? then Err(ZeroDivisionError)
    else
      var run := TimedRun(original[..m], clock, rider.legTime, dist);
      Ok((Retimed(points, run.0), run.1))
  }

  /** The seconds to point i of a list do not depend on the points after it. */
  lemma {:induction false} ElapsedPrefix(points: seq<GpxPoint>, m: nat, i: nat, legTime: LegTimeFn, dist: DistanceFn)
    requires i < m <= |points|
    ensures Elapsed(points[..m], i, legTime, dist) == Elapsed(points, i, legTime, dist)
  {
    if i > 0 {
      ElapsedPrefix(points, m, i - 1, legTime, dist);
    }
  }

  /**
   * While both lists reach, point i of a paired segment is stamped with the clock plus the
   * original's seconds to its point i.
   */
  lemma PairedStamps(points: seq<GpxPoint>, original: seq<GpxPoint>, clock: real, legTime: LegTimeFn, dist: DistanceFn)
    requires |points| >= 2
    ensures var r := PairedSegment(points, original, clock, Rider(legTime), dist).value;
      var m := Common(points, original);
      forall i :: 0 < i < |points| && i < m ==>
        r.0[i] == Stamped(points[i], clock + Elapsed(original, i, legTime, dist))
  {
    var r := PairedSegment(points, original, clock, Rider(legTime), dist).value;
    forall i | 0 < i < |points| && i < Common(points, original)
      ensures r.0[i] == Stamped(points[i], clock + Elapsed(original, i, legTime, dist))
    {
      PairedPointAt(points, original, clock, legTime, dist, i);
    }
  }

  /** Beyond the common part, the points of a paired segment are as they were. */
  lemma PairedUntouched(points: seq<GpxPoint>, original: seq<GpxPoint>, clock: real, legTime: LegTimeFn, dist: DistanceFn)
    requires |points| >= 2
    ensures var r := PairedSegment(points, original, clock, Rider(legTime), dist).value;
      var m := Common(points, original);
      forall i :: 0 < i < |points| && m <= i ==> r.0[i] == points[i]
  {
  }

  /** The clock moves on by the original's seconds over the common part. */
  lemma PairedClock(points: seq<GpxPoint>, original: seq<GpxPoint>, clock: real, legTime: LegTimeFn, dist: DistanceFn)
    requires |points| >= 2
    ensures var r := PairedSegment(points, original, clock, Rider(legTime), dist).value;
      var m := Common(points, original);
      (m >= 2 ==> r.1 == clock + Elapsed(original, m - 1, legTime, dist)) && (m < 2 ==> r.1 == clock)
  {
    var m := Common(points, original);
    if m >= 2 {
      ElapsedPrefix(original, m, m - 1, legTime, dist);
    }
  }

  lemma PairedPointAt(points: seq<GpxPoint>, original: seq<GpxPoint>, clock: real, legTime: LegTimeFn, dist: DistanceFn, i: nat)
    requires |points| >= 2 && 0 < i < Common(points, original)
    ensures PairedSegment(points, original, clock, Rider(legTime), dist).value.0[i]
            == Stamped(points[i], clock + Elapsed(original, i, legTime, dist))
  {
    var m := Common(points, original);
    var prefix := original[..m];
    var run := TimedRun(prefix, clock, legTime, dist);
    assert PairedSegment(points, original, clock, Rider(legTime), dist).value.0 == Retimed(points, run.0);
    TimedPointsAt(prefix, i, clock, legTime, dist);
    ElapsedPrefix(original, m, i, legTime, dist);
  }

  /** Which scaled segments move the pairing on to the next original list. */
  datatype Pairing =
    | AsWritten   // only the segments that are timed, as the source counts
    | ByPosition  // every segment with points, as the original lists are collected

  predicate Advances(points: seq<GpxPoint>, rule: Pairing)
  {
    if rule.AsWritten? then |points| >= 2 else |points| > 0
  }

  /** Lists timed so far, the position of the next original list, and the clock. */
  datatype PairedRun = PairedRun(lists: seq<seq<GpxPoint>>, index: nat, clock: real)

  /** One list more: a list of fewer than two points is left as it is; a longer one is paired with the original list at the current position, or with none past the end. */
  function PairedNext(before: PairedRun, points: seq<GpxPoint>, originals: seq<seq<GpxPoint>>, rider: Rider, dist: DistanceFn,
                      rule: Pairing): (r: Result<PairedRun>)
    ensures r.Ok? ==> |r.value.lists| == |before.lists| + 1 && r.value.clock >= before.clock
    ensures r.Ok? ==> r.value.index == if Advances(points, rule) then before.index + 1 else before.index
    ensures r.Err? <==> rider.ZeroWeight? && |points| >= 2 && before.index < |originals| && |originals[before.index]| >= 2
    ensures r.Err? ==> r.error == ZeroDivisionError
  {
    var index := if Advances(points, rule) then before.index + 1 else before.index;
    if |points| < 2 then Ok(PairedRun(before.lists + [points], index, before.clock))
    else
      var original := if before.index < |originals| then originals[before.index] else [];
      var s := PairedSegment(points, original, before.clock, rider, dist);
      if s.Err? then Err(s.error) else Ok(PairedRun(before.lists + [s.value.0], index, s.value.1))
  }

  /** The segments of one track in order, from the given pairing position and clock. */
  function PairedLists(lists: seq<seq<GpxPoint>>, originals: seq<seq<GpxPoint>>, index: nat, clock: real, rider: Rider,
                       dist: DistanceFn, rule: Pairing): (r: Result<PairedRun>)
    ensures r.Ok? ==> |r.value.lists| == |lists| && r.value.clock >= clock && r.value.index >= index
    ensures r.Err? ==> rider.ZeroWeight? && r.error == ZeroDivisionError
  {
    if |lists| == 0 then Ok(PairedRun([], index, clock))
    else
      var before := PairedLists(lists[..|lists| - 1], originals, index, clock, rider, dist, rule);
      if before.Err? then before else PairedNext(before.value, lists[|lists| - 1], originals, rider, dist, rule)
  }

  /** Tracks timed so far, the position of the next original list, and the clock. */
  datatype PairedDoc = PairedDoc(tracks: seq<Track>, index: nat, clock: real)

  /** The tracks in order, the pairing position and the clock carried from each to the next. */
  function PairedTracks(tracks: seq<Track>, originals: seq<seq<GpxPoint>>, index: nat, clock: real, rider: Rider,
                        dist: DistanceFn, rule: Pairing): (r: Result<PairedDoc>)
    ensures r.Ok? ==> |r.value.tracks| == |tracks| && r.value.clock >= clock
    ensures r.Err? ==> rider.ZeroWeight? && r.error == ZeroDivisionError
  {
    if |tracks| == 0 then Ok(PairedDoc([], index, clock))
    else
      var t := tracks[|tracks| - 1];
      var before := PairedTracks(tracks[..|tracks| - 1], originals, index, clock, rider, dist, rule);
      if before.Err? then Err(before.error)
      else
        var run := PairedLists(t.segments, originals, before.value.index, before.value.clock, rider, dist, rule);
        if run.Err? then Err(run.error)
        else Ok(PairedDoc(before.value.tracks + [t.(segments := run.value.lists)], run.value.index, run.value.clock))
  }

  /**
   * add_timing_data_based_on_original on whole documents: the scaled document's routes become tracks,
   * then its tracks are timed from the start, pairing segments with the original's lists from the first.
   */
  function TimedFromOriginal(scaled: GpxData, original: GpxData, start: real, rider: Rider, dist: DistanceFn, rule: Pairing)
    : (r: Result<PairedDoc>)
    ensures r.Ok? ==> |r.value.tracks| == |scaled.tracks| + NonEmptyCount(scaled.routes) && r.value.clock >= start
    ensures r.Err? ==> rider.ZeroWeight? && r.error == ZeroDivisionError
  {
    PairedTracks(scaled.tracks + RouteTracks(scaled.routes), OriginalLists(original), 0, start, rider, dist, rule)
  }

  /** A list of two points or more timed from itself is timed exactly as add_timing_data_to_gpx times it. */
  lemma PairedWithItself(points: seq<GpxPoint>, clock: real, rider: Rider, dist: DistanceFn)
    requires |points| >= 2
    ensures PairedSegment(points, points, clock, rider, dist) == TimedSegment(points, clock, rider, dist)
  {
    if rider.Rider? {
      var run := TimedRun(points, clock, rider.legTime, dist);
      assert points[..|points|] == points;
      TimedPointsProperties(points, clock, rider.legTime, dist);
      assert Retimed(points, run.0) == run.0;
    }
  }

  /** The original lists from position `index` on begin with `lists`. */
  predicate Window(originals: seq<seq<GpxPoint>>, index: nat, lists: seq<seq<GpxPoint>>)
  {
    index + |lists| <= |originals| && forall k :: 0 <= k < |lists| ==> originals[index + k] == lists[k]
  }

  lemma WindowSplit(originals: seq<seq<GpxPoint>>, index: nat, a: seq<seq<GpxPoint>>, b: seq<seq<GpxPoint>>)
    requires Window(originals, index, a + b)
    ensures Window(originals, index, a) && Window(originals, index + |a|, b)
  {
    forall k | 0 <= k < |a|
      ensures originals[index + k] == a[k]
    {
      assert (a + b)[k] == a[k];
    }
    forall k | 0 <= k < |b|
      ensures originals[index + |a| + k] == b[k]
    {
      assert (a + b)[|a| + k] == b[k];
    }
  }

  /** One list paired by position with itself is timed as add_timing_data_to_gpx times it. */
  lemma NextWithItself(before: PairedRun, points: seq<GpxPoint>, originals: seq<seq<GpxPoint>>, rider: Rider, dist: DistanceFn)
    requires |points| > 0 ==> before.index < |originals| && originals[before.index] == points
    ensures var r := PairedNext(before, points, originals, rider, dist, ByPosition);
      var s := TimedSegment(points, before.clock, rider, dist);
      (r.Err? <==> s.Err?)
      && (r.Ok? ==> r.value.lists == before.lists + [s.value.0] && r.value.clock == s.value.1
                    && r.value.index == before.index + (if |points| > 0 then 1 else 0))
  {
    if |points| >= 2 {
      PairedWithItself(points, before.clock, rider, dist);
    }
  }

  /**
   * Paired by position with the very lists it times, the pairing times every segment as
   * add_timing_data_to_gpx does, and moves past one original list per non-empty segment.
   */
  lemma {:induction false} PairedListsWithThemselves(lists: seq<seq<GpxPoint>>, originals: seq<seq<GpxPoint>>, index: nat,
                                                     clock: real, rider: Rider, dist: DistanceFn)
    requires Window(originals, index, NonEmptyLists(lists))
    ensures var r := PairedLists(lists, originals, index, clock, rider, dist, ByPosition);
      var timed := TimedLists(lists, clock, rider, dist);
      (r.Err? <==> timed.Err?)
      && (r.Ok? ==> r.value.lists == timed.value.0 && r.value.clock == timed.value.1
                    && r.value.index == index + |NonEmptyLists(lists)|)
    decreases |lists|
  {
    if |lists| > 0 {
      var n := |lists| - 1;
      var last := lists[n];
      var prefix := NonEmptyLists(lists[..n]);
      var own: seq<seq<GpxPoint>> := if |last| > 0 then [last] else [];
      assert NonEmptyLists(lists) == prefix + own;
      WindowSplit(originals, index, prefix, own);
      PairedListsWithThemselves(lists[..n], originals, index, clock, rider, dist);
      var before := PairedLists(lists[..n], originals, index, clock, rider, dist, ByPosition);
      if before.Ok? {
        if |last| > 0 {
          assert own[0] == last;
        }
        NextWithItself(before.value, last, originals, rider, dist);
      }
    }
  }

  /** The non-empty segments of a run of tracks: those of the tracks before the last, then those of the last. */
  lemma OwnListsSplit(tracks: seq<Track>)
    requires |tracks| > 0
    ensures NonEmptyLists(AllSegments(tracks))
         == NonEmptyLists(AllSegments(tracks[..|tracks| - 1])) + NonEmptyLists(tracks[|tracks| - 1].segments)
  {
    var n := |tracks| - 1;
    NonEmptyListsAppend(AllSegments(tracks[..n]), tracks[n].segments);
  }

  /** One track more, paired by position with its own non-empty segments, is timed as add_timing_data_to_gpx times it. */
  lemma TracksStepWithThemselves(tracks: seq<Track>, originals: seq<seq<GpxPoint>>, index: nat, clock: real, rider: Rider,
                                 dist: DistanceFn)
    requires |tracks| > 0
    requires var before := PairedTracks(tracks[..|tracks| - 1], originals, index, clock, rider, dist, ByPosition);
      var timed := TimedTracks(tracks[..|tracks| - 1], clock, rider, dist);
      (before.Err? <==> timed.Err?)
      && (before.Ok? ==> before.value.tracks == timed.value.0 && before.value.clock == timed.value.1
                         && Window(originals, before.value.index, NonEmptyLists(tracks[|tracks| - 1].segments)))
    ensures var before := PairedTracks(tracks[..|tracks| - 1], originals, index, clock, rider, dist, ByPosition);
      var r := PairedTracks(tracks, originals, index, clock, rider, dist, ByPosition);
      var timed := TimedTracks(tracks, clock, rider, dist);
      (r.Err? <==> timed.Err?)
      && (r.Ok? ==> r.value.tracks == timed.value.0 && r.value.clock == timed.value.1
                    && r.value.index == before.value.index + |NonEmptyLists(tracks[|tracks| - 1].segments)|)
  {
    var n := |tracks| - 1;
    var before := PairedTracks(tracks[..n], originals, index, clock, rider, dist, ByPosition);
    if before.Ok? {
      var timedBefore := TimedTracks(tracks[..n], clock, rider, dist).value;
      PairedListsWithThemselves(tracks[n].segments, originals, before.value.index, before.value.clock, rider, dist);
    }
  }

  /** Tracks paired by position with their own non-empty segments are timed as add_timing_data_to_gpx times them. */
  lemma {:induction false} PairedTracksWithThemselves(tracks: seq<Track>, originals: seq<seq<GpxPoint>>, index: nat,
                                                      clock: real, rider: Rider, dist: DistanceFn)
    requires Window(originals, index, NonEmptyLists(AllSegments(tracks)))
    ensures var r := PairedTracks(tracks, originals, index, clock, rider, dist, ByPosition);
      var timed := TimedTracks(tracks, clock, rider, dist);
      (r.Err? <==> timed.Err?)
      && (r.Ok? ==> r.value.tracks == timed.value.0 && r.value.clock == timed.value.1
                    && r.value.index == index + |NonEmptyLists(AllSegments(tracks))|)
    decreases |tracks|
  {
    if |tracks| > 0 {
      var n := |tracks| - 1;
      var head := NonEmptyLists(AllSegments(tracks[..n]));
      var own := NonEmptyLists(tracks[n].segments);
      OwnListsSplit(tracks);
      WindowSplit(originals, index, head, own);
      PairedTracksWithThemselves(tracks[..n], originals, index, clock, rider, dist);
      TracksStepWithThemselves(tracks, originals, index, clock, rider, dist);
    }
  }

  /**
   * With segments paired by position, a document without routes timed from itself gets exactly the
   * timestamps and the final clock that add_timing_data_to_gpx gives it: timing follows the original's legs.
   */
  lemma ByPositionTimesLikeOwnTiming(doc: GpxData, start: real, rider: Rider, dist: DistanceFn)
    requires doc.routes == []
    ensures var r := TimedFromOriginal(doc, doc, start, rider, dist, ByPosition);
      var timed := TimedTracks(doc.tracks, start, rider, dist);
      (r.Err? <==> timed.Err?) && (r.Ok? ==> r.value.tracks == timed.value.0 && r.value.clock == timed.value.1)
  {
    assert doc.tracks + RouteTracks(doc.routes) == doc.tracks;
    var all := NonEmptyLists(AllSegments(doc.tracks));
    assert OriginalLists(doc) == all;
    PairedTracksWithThemselves(doc.tracks, all, 0, start, rider, dist);
  }

  /** A track whose only segment has one point is left as it is; the pairing by position moves past one original list. */
  lemma SinglePointRun(p: GpxPoint, originals: seq<seq<GpxPoint>>, start: real, rider: Rider, dist: DistanceFn, rule: Pairing)
    ensures PairedLists([[p]], originals, 0, start, rider, dist, rule).Ok?
    ensures PairedLists([[p]], originals, 0, start, rider, dist, rule).value.lists == [[p]]
    ensures PairedLists([[p]], originals, 0, start, rider, dist, rule).value.index == if rule.ByPosition? then 1 else 0
    ensures PairedLists([[p]], originals, 0, start, rider, dist, rule).value.clock == start
  {
    assert [[p]][..0] == [];
  }

  /** As written, the two-point segment after a one-point one is paired with the one-point list: only its first point is stamped. */
  lemma AsWrittenListsMisalign(p: GpxPoint, start: real, legTime: LegTimeFn, dist: DistanceFn)
    ensures var lists := [[p], [p, p]];
      var r := PairedLists(lists, lists, 0, start, Rider(legTime), dist, AsWritten);
      r.Ok? && r.value.lists == [[p], [Stamped(p, start), p]]
  {
    var lists := [[p], [p, p]];
    assert lists[..1] == [[p]];
    SinglePointRun(p, lists, start, Rider(legTime), dist, AsWritten);
    var second := PairedSegment([p, p], [p], start, Rider(legTime), dist);
    assert second.value.0 == [Stamped(p, start), p];
  }

  /** add_timing_data_to_gpx stamps the second point of the two-point segment. */
  lemma OwnTimingStampsSecondPoint(p: GpxPoint, start: real, legTime: LegTimeFn, dist: DistanceFn)
    ensures var lists := [[p], [p, p]];
      var r := TimedLists(lists, start, Rider(legTime), dist);
      r.Ok? && |r.value.0| == 2 && |r.value.0[1]| == 2 && r.value.0[1][1].time.Some?
  {
    var lists := [[p], [p, p]];
    assert lists[..1] == [[p]];
    assert [[p]][..0] == [];
    TimedPointsProperties([p, p], start, legTime, dist);
  }

  /** A document of one track is timed as that track's segments are. */
  lemma OneTrackDocument(t: Track, originals: seq<seq<GpxPoint>>, clock: real, rider: Rider, dist: DistanceFn, rule: Pairing)
    ensures var r := PairedTracks([t], originals, 0, clock, rider, dist, rule);
      var run := PairedLists(t.segments, originals, 0, clock, rider, dist, rule);
      (r.Ok? <==> run.Ok?) && (r.Ok? ==> r.value.tracks == [t.(segments := run.value.lists)])
  {
    assert [t][..0] == [];
  }

  lemma OneTrackTimed(t: Track, clock: real, rider: Rider, dist: DistanceFn)
    ensures var r := TimedTracks([t], clock, rider, dist);
      var run := TimedLists(t.segments, clock, rider, dist);
      (r.Ok? <==> run.Ok?) && (r.Ok? ==> r.value.0 == [t.(segments := run.value.0)])
  {
    assert [t][..0] == [];
  }

  /** The original lists of a one-track document without routes whose segments all have points: those segments. */
  lemma OneTrackOriginalLists(t: Track)
    requires forall k :: 0 <= k < |t.segments| ==> |t.segments[k]| > 0
    ensures OriginalLists(GpxData([t], [])) == t.segments
  {
    assert [t][..0] == [];
    assert AllSegments([t]) == [] + t.segments;
    assert [] + t.segments == t.segments;
    NonEmptyListsOfFull(t.segments);
  }

  /**
   * As written, a one-point segment has its original list but does not move the index on: the
   * two-point segment after it is paired with the one-point list, so its second point is never
   * stamped, while add_timing_data_to_gpx (and the pairing by position) stamps it.
   */
  lemma AsWrittenMisalignsAfterSinglePoint(p: GpxPoint, start: real, legTime: LegTimeFn, dist: DistanceFn)
    requires p.time.None?
    ensures var doc := GpxData([Track(None, [[p], [p, p]])], []);
      var r := TimedFromOriginal(doc, doc, start, Rider(legTime), dist, AsWritten);
      var timed := TimedTracks(doc.tracks, start, Rider(legTime), dist);
      r.Ok? && r.value.tracks[0].segments[1][1].time.None?
      && timed.Ok? && timed.value.0[0].segments[1][1].time.Some?
  {
    var t := Track(None, [[p], [p, p]]);
    var doc := GpxData([t], []);
    OneTrackOriginalLists(t);
    assert doc.tracks + RouteTracks(doc.routes) == [t];
    OneTrackDocument(t, t.segments, start, Rider(legTime), dist, AsWritten);
    AsWrittenListsMisalign(p, start, legTime, dist);
    OneTrackTimed(t, start, Rider(legTime), dist);
    OwnTimingStampsSecondPoint(p, start, legTime, dist);
  }

  /** Once a prefix of the segments fails, the whole track fails. */
  lemma {:induction false} PairedListsFailFrom(lists: seq<seq<GpxPoint>>, s: nat, originals: seq<seq<GpxPoint>>, index: nat,
                                               clock: real, rider: Rider, dist: DistanceFn, rule: Pairing)
    requires s <= |lists| && PairedLists(lists[..s], originals, index, clock, rider, dist, rule).Err?
    ensures PairedLists(lists, originals, index, clock, rider, dist, rule).Err?
    decreases |lists| - s
  {
    if s < |lists| {
      assert lists[..s + 1][..s] == lists[..s];
      PairedListsFailFrom(lists, s + 1, originals, index, clock, rider, dist, rule);
    } else {
      assert lists[..s] == lists;
    }
  }

  /** Once a prefix of the tracks fails, the whole document fails. */
  lemma {:induction false} PairedTracksFailFrom(tracks: seq<Track>, t: nat, originals: seq<seq<GpxPoint>>, index: nat,
                                                clock: real, rider: Rider, dist: DistanceFn, rule: Pairing)
    requires t <= |tracks| && PairedTracks(tracks[..t], originals, index, clock, rider, dist, rule).Err?
    ensures PairedTracks(tracks, originals, index, clock, rider, dist, rule).Err?
    decreases |tracks| - t
  {
    if t < |tracks| {
      assert tracks[..t + 1][..t] == tracks[..t];
      PairedTracksFailFrom(tracks, t + 1, originals, index, clock, rider, dist, rule);
    } else {
      assert tracks[..t] == tracks;
    }
  }

  /** `lists` followed by those of `candidates` that have points, appended one by one. */
  method AppendNonEmpty(lists: seq<seq<GpxPoint>>, candidates: seq<seq<GpxPoint>>) returns (r: seq<seq<GpxPoint>>)
    ensures r == lists + NonEmptyLists(candidates)
  {
    r := lists;
    for s := 0 to |candidates|
      invariant r == lists + NonEmptyLists(candidates[..s])
    {
      assert candidates[..s + 1][..s] == candidates[..s];
      if |candidates[s]| > 0 {
        r := r + [candidates[s]];
      }
    }
    assert candidates[..|candidates|] == candidates;
  }

  /** The original lists as the source collects them: the non-empty segments of every track, then the non-empty routes. */
  method CollectOriginalLists(original: GpxData) returns (lists: seq<seq<GpxPoint>>)
    ensures lists == OriginalLists(original)
  {
    var tracks := original.tracks;
    lists := [];
    for t := 0 to |tracks|
      invariant lists == NonEmptyLists(AllSegments(tracks[..t]))
    {
      assert tracks[..t + 1][..t] == tracks[..t];
      NonEmptyListsAppend(AllSegments(tracks[..t]), tracks[t].segments);
      lists := AppendNonEmpty(lists, tracks[t].segments);
    }
    assert tracks[..|tracks|] == tracks;
    lists := AppendNonEmpty(lists, RoutePoints(original.routes));
  }

  /**
   * One scaled segment stamped in place from its original list: point 0 takes the clock and, while
   * both lists reach, point i takes the clock advanced by the original's leg that ends at its point i.
   */
  method RetimeInPlace(points: array<GpxPoint>, original: seq<GpxPoint>, start: real, legTime: LegTimeFn, dist: DistanceFn)
    returns (clock: real)
    requires points.Length >= 2
    modifies points
    ensures PairedSegment(old(points[..]), original, start, Rider(legTime), dist) == Ok((points[..], clock))
  {
    ghost var before := points[..];
    var m := if points.Length < |original| then points.Length else |original|;
    clock := start;
    points[0] := Stamped(points[0], start);
    if m >= 2 {
      for i := 1 to m
        invariant forall k {:trigger points[k]} :: 0 < k < i ==> points[k] == Stamped(before[k], start + Elapsed(original, k, legTime, dist))
        invariant forall k {:trigger points[k]} :: i <= k < points.Length ==> points[k] == before[k]
        invariant points[0] == Stamped(before[0], start)
        invariant clock == start + Elapsed(original, i - 1, legTime, dist)
      {
        clock := clock + LegSeconds(original[i - 1], original[i], legTime, dist);
        points[i] := Stamped(points[i], clock);
      }
    }
    StampedArray(points, before, original, start, clock, m, legTime, dist);
  }

  /** RetimeInPlace's loop invariants at its end, read off the array: the stamps are the paired segment's. */
  lemma StampedArray(points: array<GpxPoint>, before: seq<GpxPoint>, original: seq<GpxPoint>, start: real, clock: real,
                     m: nat, legTime: LegTimeFn, dist: DistanceFn)
    requires points.Length == |before| >= 2 && m == Common(before, original)
    requires points[0] == Stamped(before[0], start)
    requires forall k {:trigger points[k]} :: 0 < k < m ==> points[k] == Stamped(before[k], start + Elapsed(original, k, legTime, dist))
    requires forall k {:trigger points[k]} :: 0 < k < points.Length && m <= k ==> points[k] == before[k]
    requires m >= 2 ==> clock == start + Elapsed(original, m - 1, legTime, dist)
    requires m < 2 ==> clock == start
    ensures PairedSegment(before, original, start, Rider(legTime), dist) == Ok((points[..], clock))
  {
    ghost var after := points[..];
    forall k | 0 < k < |after| && k < m
      ensures after[k] == Stamped(before[k], start + Elapsed(original, k, legTime, dist))
    {
      assert after[k] == points[k];
    }
    forall k | 0 < k < |after| && m <= k
      ensures after[k] == before[k]
    {
      assert after[k] == points[k];
    }
    assert after[0] == points[0];
    PairedSegmentOf(before, after, original, start, clock, legTime, dist);
  }

  /** The stamps RetimeInPlace leaves, point by point, are those of the paired segment. */
  lemma PairedSegmentOf(before: seq<GpxPoint>, after: seq<GpxPoint>, original: seq<GpxPoint>, start: real, clock: real,
                        legTime: LegTimeFn, dist: DistanceFn)
    requires |before| >= 2 && |after| == |before|
    requires after[0] == Stamped(before[0], start)
    requires forall k :: 0 < k < |after| && k < Common(before, original) ==>
               after[k] == Stamped(before[k], start + Elapsed(original, k, legTime, dist))
    requires forall k :: 0 < k < |after| && Common(before, original) <= k ==> after[k] == before[k]
    requires Common(before, original) >= 2 ==> clock == start + Elapsed(original, Common(before, original) - 1, legTime, dist)
    requires Common(before, original) < 2 ==> clock == start
    ensures PairedSegment(before, original, start, Rider(legTime), dist).Ok?
    ensures after == PairedSegment(before, original, start, Rider(legTime), dist).value.0
    ensures clock == PairedSegment(before, original, start, Rider(legTime), dist).value.1
  {
    PairedStamps(before, original, start, legTime, dist);
    PairedUntouched(before, original, start, legTime, dist);
    PairedClock(before, original, start, legTime, dist);
    var r := PairedSegment(before, original, start, Rider(legTime), dist).value;
    assert r.0[0] == Stamped(before[0], start);
    assert forall k :: 0 <= k < |after| ==> after[k] == r.0[k];
  }

  /** One segment more, stamped through an array as the source stamps it in place. */
  method PairNext(before: PairedRun, points: seq<GpxPoint>, originals: seq<seq<GpxPoint>>, rider: Rider, dist: DistanceFn,
                  rule: Pairing) returns (r: Result<PairedRun>)
    ensures r == PairedNext(before, points, originals, rider, dist, rule)
  {
    var next := if Advances(points, rule) then before.index + 1 else before.index;
    if |points| < 2 {
      return Ok(PairedRun(before.lists + [points], next, before.clock));
    }
    var original := if before.index < |originals| then originals[before.index] else [];
    if |original| < 2 {
      return Ok(PairedRun(before.lists + [points[0 := Stamped(points[0], before.clock)]], next, before.clock));
    }
    if rider.ZeroWeight? {
      return Err(ZeroDivisionError);
    }
    var a := new GpxPoint[|points|](i requires 0 <= i < |points| => points[i]);
    assert a[..] == points;
    var clock := RetimeInPlace(a, original, before.clock, rider.legTime, dist);
    r := Ok(PairedRun(before.lists + [a[..]], next, clock));
  }

  /** The segments of one track paired and stamped in order. */
  method PairSegments(segments: seq<seq<GpxPoint>>, originals: seq<seq<GpxPoint>>, index: nat, start: real, rider: Rider,
                      dist: DistanceFn, rule: Pairing) returns (r: Result<PairedRun>)
    ensures r == PairedLists(segments, originals, index, start, rider, dist, rule)
  {
    var run := PairedRun([], index, start);
    for s := 0 to |segments|
      invariant PairedLists(segments[..s], originals, index, start, rider, dist, rule) == Ok(run)
    {
      assert segments[..s + 1][..s] == segments[..s];
      var next := PairNext(run, segments[s], originals, rider, dist, rule);
      if next.Err? {
        PairedListsFailFrom(segments, s + 1, originals, index, start, rider, dist, rule);
        return Err(ZeroDivisionError);
      }
      run := next.value;
    }
    assert segments[..|segments|] == segments;
    r := Ok(run);
  }

  /**
   * add_timing_data_based_on_original: the routes of the scaled document become tracks, the original
   * lists are collected, and every track is stamped in order. The result is the final clock, or the
   * division by zero a zero weight causes once a segment has legs to time.
   */
  method AddTimingFromOriginal(gpx: Gpx, original: GpxData, power: real, weight: real, start: real, dist: DistanceFn,
                               rule: Pairing) returns (r: Result<real>)
    modifies gpx
    ensures gpx.routes == []
    ensures var outcome := TimedFromOriginal(old(gpx.Data()), original, start, RiderLegTime(power, weight), dist, rule);
      (outcome.Err? ==> r == Err(outcome.error))
      && (outcome.Ok? ==> r == Ok(outcome.value.clock) && gpx.tracks == outcome.value.tracks)
  {
    ConvertRoutes(gpx);
    var converted := gpx.tracks;
    var originals := CollectOriginalLists(original);
    var rider := RiderLegTime(power, weight);
    var timedTracks: seq<Track> := [];
    var index := 0;
    var clock := start;
    for t := 0 to |converted|
      invariant gpx.routes == []
      invariant PairedTracks(converted[..t], originals, 0, start, rider, dist, rule).Ok?
      invariant PairedTracks(converted[..t], originals, 0, start, rider, dist, rule).value.tracks == timedTracks
      invariant PairedTracks(converted[..t], originals, 0, start, rider, dist, rule).value.index == index
      invariant PairedTracks(converted[..t], originals, 0, start, rider, dist, rule).value.clock == clock
    {
      assert converted[..t + 1][..t] == converted[..t];
      var run := PairSegments(converted[t].segments, originals, index, clock, rider, dist, rule);
      if run.Err? {
        PairedTracksFailFrom(converted, t + 1, originals, 0, start, rider, dist, rule);
        return Err(ZeroDivisionError);
      }
      timedTracks := timedTracks + [converted[t].(segments := run.value.lists)];
      index := run.value.index;
      clock := run.value.clock;
    }
    assert converted[..|converted|] == converted;
    gpx.tracks := timedTracks;
    r := Ok(clock);
  }
}
