/**
 * The two elevation scripts: elevation_analysis.analyze_elevation_detailed and the analyze_file
 * helper of debug_elevation.debug_elevation_scaling. Both add up the ascent and descent of the legs of
 * each track segment whose two ends have an elevation; the first also books climbs only once 3 m have
 * accumulated, and both report the range of the elevations they kept.
 */
module ElevationStats {
  import opened Wrappers
  import opened GpxModel
  import opened RealSeq

  /** The accumulated change analyze_elevation_detailed waits for before booking it (m). */
  const MinElevationChange: real := 3.0

  /** The elevations present among the first n points, in point order. */
  function Kept(points: seq<GpxPoint>, n: nat): (r: seq<real>)
    requires n <= |points|
    ensures |r| <= n
  {
    if n == 0 then []
    else
      var before := Kept(points, n - 1);
      if points[n - 1].ele.Some? then before + [points[n - 1].ele.value] else before
  }

  /** The elevation change over the leg that ends at point i, when both of its ends have an elevation. */
  function Change(points: seq<GpxPoint>, i: nat): (c: Option<real>)
    requires 0 < i < |points|
    ensures c.Some? <==> points[i - 1].ele.Some? && points[i].ele.Some?
    ensures c.Some? ==> points[i - 1].ele.value + c.value == points[i].ele.value
  {
    if points[i - 1].ele.Some? && points[i].ele.Some? then Some(points[i].ele.value - points[i - 1].ele.value) else None
  }

  datatype Climb = Climb(ascent: real, descent: real)

  /** Point-to-point ascent and descent over the legs among the first n points: a rise adds to the ascent, anything else to the descent. */
  function RawClimb(points: seq<GpxPoint>, n: nat): Climb
    requires n <= |points|
  {
    if n < 2 then Climb(0.0, 0.0)
    else
      var c := RawClimb(points, n - 1);
      var change := Change(points, n - 1);
      if change.None? then c
      else if change.value > 0.0 then c.(ascent := c.ascent + change.value)
      else c.(descent := c.descent - change.value)
  }

  /** The sum of the counted changes over the legs among the first n points. */
  function Net(points: seq<GpxPoint>, n: nat): real
    requires n <= |points|
  {
    if n < 2 then 0.0
    else
      var change := Change(points, n - 1);
      Net(points, n - 1) + (if change.Some? then change.value else 0.0)
  }

  /** Ascent and descent are never negative, and their difference is the net of the counted changes. */
  lemma {:induction false} RawClimbNet(points: seq<GpxPoint>, n: nat)
    requires n <= |points|
    ensures RawClimb(points, n).ascent >= 0.0 && RawClimb(points, n).descent >= 0.0
    ensures RawClimb(points, n).ascent - RawClimb(points, n).descent == Net(points, n)
  {
    if n >= 2 {
      RawClimbNet(points, n - 1);
    }
  }

  /** Along a list whose points all have elevations, the counted changes telescope to last minus first. */
  lemma {:induction false} NetTelescopes(points: seq<GpxPoint>, n: nat)
    requires 0 < n <= |points|
    requires forall i :: 0 <= i < |points| ==> points[i].ele.Some?
    ensures Net(points, n) == points[n - 1].ele.value - points[0].ele.value
  {
    if n >= 2 {
      NetTelescopes(points, n - 1);
    }
  }

  /** The booked ascent and descent, and the gain and loss accumulated but not yet booked. */
  datatype Threshold = Threshold(ascent: real, descent: real, gain: real, loss: real)

  /** The threshold accumulator over the legs among the first n points. */
  function Thresholded(points: seq<GpxPoint>, n: nat): Threshold
    requires n <= |points|
  {
    if n < 2 then Threshold(0.0, 0.0, 0.0, 0.0)
    else
      var t := Thresholded(points, n - 1);
      var change := Change(points, n - 1);
      if change.None? then t
      else if change.value > 0.0 then
        var gain := t.gain + change.value;
        if gain >= MinElevationChange then t.(ascent := t.ascent + gain, gain := 0.0) else t.(gain := gain)
      else
        var loss := t.loss - change.value;
        if loss >= MinElevationChange then t.(descent := t.descent + loss, loss := 0.0) else t.(loss := loss)
  }

  /**
   * Nothing is lost by the threshold: the booked ascent plus the gain still pending is the raw ascent,
   * and the pending gain stays below 3 m; likewise for the descent.
   */
  lemma {:induction false} ThresholdResidual(points: seq<GpxPoint>, n: nat)
    requires n <= |points|
    ensures var t := Thresholded(points, n);
      var raw := RawClimb(points, n);
      t.ascent + t.gain == raw.ascent && t.descent + t.loss == raw.descent
      && 0.0 <= t.gain < MinElevationChange && 0.0 <= t.loss < MinElevationChange
      && t.ascent >= 0.0 && t.descent >= 0.0
  {
    if n >= 2 {
      ThresholdResidual(points, n - 1);
    }
  }

  /** So the booked ascent and descent never exceed the raw ones, and fall short by less than 3 m. */
  lemma ThresholdBelowRaw(points: seq<GpxPoint>)
    ensures var t := Thresholded(points, |points|);
      var raw := RawClimb(points, |points|);
      t.ascent <= raw.ascent < t.ascent + MinElevationChange
      && t.descent <= raw.descent < t.descent + MinElevationChange
  {
    ThresholdResidual(points, |points|);
  }

  /** The totals of analyze_elevation_detailed: raw and booked climbs and the elevations kept. */
  datatype Totals = Totals(raw: Climb, threshold: Climb, elevations: seq<real>)

  const NoTotals: Totals := Totals(Climb(0.0, 0.0), Climb(0.0, 0.0), [])

  /**
   * One segment's contribution: a segment of fewer than two points is skipped, elevations included;
   * any other adds its raw and booked climbs (its pending threshold gain and loss are dropped) and
   * its elevations.
   */
  function AddSegment(before: Totals, points: seq<GpxPoint>): Totals
  {
    if |points| < 2 then before
    else
      var raw := RawClimb(points, |points|);
      var t := Thresholded(points, |points|);
      Totals(Climb(before.raw.ascent + raw.ascent, before.raw.descent + raw.descent),
             Climb(before.threshold.ascent + t.ascent, before.threshold.descent + t.descent),
             before.elevations + Kept(points, |points|))
  }

  /** The totals after the first s segments of a track, starting from those of the tracks before it. */
  function SegmentTotals(start: Totals, segments: seq<seq<GpxPoint>>, s: nat): Totals
    requires s <= |segments|
  {
    if s == 0 then start else AddSegment(SegmentTotals(start, segments, s - 1), segments[s - 1])
  }

  /** The totals over the first t tracks of a document. */
  function DocumentTotals(tracks: seq<Track>, t: nat): Totals
    requires t <= |tracks|
  {
    if t == 0 then NoTotals
    else SegmentTotals(DocumentTotals(tracks, t - 1), tracks[t - 1].segments, |tracks[t - 1].segments|)
  }

  /** The booked climbs are never negative and never exceed the raw ones. */
  predicate Booked(d: Totals)
  {
    0.0 <= d.threshold.ascent <= d.raw.ascent && 0.0 <= d.threshold.descent <= d.raw.descent
  }

  lemma AddSegmentBooked(before: Totals, points: seq<GpxPoint>)
    requires Booked(before)
    ensures Booked(AddSegment(before, points))
  {
    if |points| >= 2 {
      ThresholdResidual(points, |points|);
    }
  }

  lemma {:induction false} SegmentTotalsBooked(start: Totals, segments: seq<seq<GpxPoint>>, s: nat)
    requires s <= |segments|
    requires Booked(start)
    ensures Booked(SegmentTotals(start, segments, s))
  {
    if s > 0 {
      SegmentTotalsBooked(start, segments, s - 1);
      AddSegmentBooked(SegmentTotals(start, segments, s - 1), segments[s - 1]);
    }
  }

  /** Over a whole document the booked climbs are never negative and never exceed the raw ones. */
  lemma {:induction false} DocumentTotalsBooked(tracks: seq<Track>, t: nat)
    requires t <= |tracks|
    ensures Booked(DocumentTotals(tracks, t))
  {
    if t > 0 {
      DocumentTotalsBooked(tracks, t - 1);
      SegmentTotalsBooked(DocumentTotals(tracks, t - 1), tracks[t - 1].segments, |tracks[t - 1].segments|);
    }
  }

  /** The figures analyze_elevation_detailed prints and returns (gpxpy's own uphill/downhill aside). */
  datatype Analysis = Analysis(rawAscent: real, rawDescent: real, thresholdAscent: real, thresholdDescent: real,
                               minElev: real, maxElev: real, elevationRange: real, dataPoints: nat)

  function Analyzed(d: Totals): Analysis
  {
    var lo := MinOrZero(d.elevations);
    var hi := MaxOrZero(d.elevations);
    Analysis(d.raw.ascent, d.raw.descent, d.threshold.ascent, d.threshold.descent, lo, hi, hi - lo, |d.elevations|)
  }

  /**
   * The range is never negative and is 0 when no elevation was kept, and the booked climbs of a
   * document never exceed its raw ones.
   */
  lemma AnalysisRange(doc: GpxData)
    ensures var a := Analyzed(DocumentTotals(doc.tracks, |doc.tracks|));
      a.elevationRange >= 0.0
      && (a.dataPoints == 0 ==> a.minElev == 0.0 && a.maxElev == 0.0 && a.elevationRange == 0.0)
      && 0.0 <= a.thresholdAscent <= a.rawAscent && 0.0 <= a.thresholdDescent <= a.rawDescent
  {
    MinLeMax(DocumentTotals(doc.tracks, |doc.tracks|).elevations);
    DocumentTotalsBooked(doc.tracks, |doc.tracks|);
  }

  /** The three loops analyze_elevation_detailed runs over one segment of at least two points. */
  method AnalyzeSegment(points: seq<GpxPoint>) returns (kept: seq<real>, raw: Climb, threshold: Threshold)
    requires |points| >= 2
    ensures kept == Kept(points, |points|)
    ensures raw == RawClimb(points, |points|)
    ensures threshold == Thresholded(points, |points|)
  {
    kept := [];
    for i := 0 to |points|
      invariant kept == Kept(points, i)
    {
      if points[i].ele.Some? {
        kept := kept + [points[i].ele.value];
      }
    }
    raw := Climb(0.0, 0.0);
    for i := 1 to |points|
      invariant raw == RawClimb(points, i)
    {
      if points[i - 1].ele.Some? && points[i].ele.Some? {
        var change := points[i].ele.value - points[i - 1].ele.value;
        if change > 0.0 {
          raw := raw.(ascent := raw.ascent + change);
        } else {
          raw := raw.(descent := raw.descent + -change);
        }
      }
    }
    var ascent, descent, gain, loss := 0.0, 0.0, 0.0, 0.0;
    for i := 1 to |points|
      invariant Threshold(ascent, descent, gain, loss) == Thresholded(points, i)
    {
      if points[i - 1].ele.Some? && points[i].ele.Some? {
        var change := points[i].ele.value - points[i - 1].ele.value;
        if change > 0.0 {
          gain := gain + change;
          if gain >= MinElevationChange {
            ascent := ascent + gain;
            gain := 0.0;
          }
        } else {
          loss := loss + -change;
          if loss >= MinElevationChange {
            descent := descent + loss;
            loss := 0.0;
          }
        }
      }
    }
    threshold := Threshold(ascent, descent, gain, loss);
  }

  /** analyze_elevation_detailed on a parsed document: every segment of every track, in order, then the range. */
  method AnalyzeElevationDetailed(doc: GpxData) returns (a: Analysis)
    ensures a == Analyzed(DocumentTotals(doc.tracks, |doc.tracks|))
  {
    var tracks := doc.tracks;
    var rawAscent, rawDescent, thresholdAscent, thresholdDescent := 0.0, 0.0, 0.0, 0.0;
    var allElevations: seq<real> := [];
    for t := 0 to |tracks|
      invariant Totals(Climb(rawAscent, rawDescent), Climb(thresholdAscent, thresholdDescent), allElevations)
             == DocumentTotals(tracks, t)
    {
      var segments := tracks[t].segments;
      for s := 0 to |segments|
        invariant Totals(Climb(rawAscent, rawDescent), Climb(thresholdAscent, thresholdDescent), allElevations)
               == SegmentTotals(DocumentTotals(tracks, t), segments, s)
      {
        var points := segments[s];
        if |points| >= 2 {
          var kept, raw, threshold := AnalyzeSegment(points);
          allElevations := allElevations + kept;
          rawAscent, rawDescent := rawAscent + raw.ascent, rawDescent + raw.descent;
          thresholdAscent, thresholdDescent := thresholdAscent + threshold.ascent, thresholdDescent + threshold.descent;
        }
      }
    }
    var lo := if |allElevations| > 0 then Min(allElevations) else 0.0;
    var hi := if |allElevations| > 0 then Max(allElevations) else 0.0;
    a := Analysis(rawAscent, rawDescent, thresholdAscent, thresholdDescent, lo, hi, hi - lo, |allElevations|);
  }

  /** The totals of debug_elevation's analyze_file: every segment counts, whatever its length. */
  datatype Profile = Profile(elevations: seq<real>, ascent: real, descent: real)

  const NoProfile: Profile := Profile([], 0.0, 0.0)

  function AddProfile(before: Profile, points: seq<GpxPoint>): Profile
  {
    var raw := RawClimb(points, |points|);
    Profile(before.elevations + Kept(points, |points|), before.ascent + raw.ascent, before.descent + raw.descent)
  }

  function SegmentProfile(start: Profile, segments: seq<seq<GpxPoint>>, s: nat): Profile
    requires s <= |segments|
  {
    if s == 0 then start else AddProfile(SegmentProfile(start, segments, s - 1), segments[s - 1])
  }

  function DocumentProfile(tracks: seq<Track>, t: nat): Profile
    requires t <= |tracks|
  {
    if t == 0 then NoProfile
    else SegmentProfile(DocumentProfile(tracks, t - 1), tracks[t - 1].segments, |tracks[t - 1].segments|)
  }

  /** What analyze_file returns: the kept elevations, ascent and descent, min and max (0 without data), first and last. */
  datatype Summary = Summary(elevations: seq<real>, ascent: real, descent: real, minElev: real, maxElev: real,
                             firstElev: Option<real>, lastElev: Option<real>)

  function Summarized(p: Profile): (s: Summary)
    ensures s.elevations == p.elevations && s.ascent == p.ascent && s.descent == p.descent
    ensures |p.elevations| == 0 ==> s.minElev == 0.0 && s.maxElev == 0.0 && s.firstElev.None? && s.lastElev.None?
    ensures forall k :: 0 <= k < |p.elevations| ==> s.minElev <= p.elevations[k] <= s.maxElev
    ensures |p.elevations| > 0 ==> s.firstElev == Some(p.elevations[0]) && s.lastElev == Some(p.elevations[|p.elevations| - 1])
  {
    var e := p.elevations;
    Summary(e, p.ascent, p.descent, MinOrZero(e), MaxOrZero(e),
            if |e| > 0 then Some(e[0]) else None, if |e| > 0 then Some(e[|e| - 1]) else None)
  }

  /** The kept elevations of a list whose points all have elevations are all of them, in order. */
  lemma {:induction false} KeptAll(points: seq<GpxPoint>, n: nat)
    requires n <= |points|
    requires forall i :: 0 <= i < |points| ==> points[i].ele.Some?
    ensures |Kept(points, n)| == n && forall i :: 0 <= i < n ==> Kept(points, n)[i] == points[i].ele.value
  {
    if n > 0 {
      KeptAll(points, n - 1);
    }
  }

  /** A value is among the kept elevations exactly when some point has it as its elevation. */
  lemma {:induction false} KeptFromPoints(points: seq<GpxPoint>, n: nat)
    requires n <= |points|
    ensures forall e :: e in Kept(points, n) <==> exists i :: 0 <= i < n && points[i].ele == Some(e)
  {
    if n > 0 {
      KeptFromPoints(points, n - 1);
      var before := Kept(points, n - 1);
      forall e
        ensures e in Kept(points, n) <==> exists i :: 0 <= i < n && points[i].ele == Some(e)
      {
        if e in before {
          var i :| 0 <= i < n - 1 && points[i].ele == Some(e);
          assert 0 <= i < n && points[i].ele == Some(e);
        } else if points[n - 1].ele == Some(e) {
          assert e in Kept(points, n);
        } else {
          assert e !in Kept(points, n);
          assert forall i :: 0 <= i < n - 1 ==> points[i].ele != Some(e);
        }
      }
    }
  }

  /**
   * For a document of one track with one segment whose points all have elevations, analyze_file's
   * ascent minus descent is the last elevation minus the first.
   */
  lemma DebugSingleSegmentTelescopes(name: Option<string>, points: seq<GpxPoint>)
    requires |points| > 0
    requires forall i :: 0 <= i < |points| ==> points[i].ele.Some?
    ensures var s := Summarized(DocumentProfile([Track(name, [points])], 1));
      s.ascent - s.descent == s.lastElev.value - s.firstElev.value
  {
    var n := |points|;
    var tracks := [Track(name, [points])];
    calc {
      DocumentProfile(tracks, 1);
      SegmentProfile(NoProfile, [points], 1);
      AddProfile(NoProfile, points);
    }
    var p := AddProfile(NoProfile, points);
    var kept := Kept(points, n);
    assert p.elevations == kept by {
      assert [] + kept == kept;
    }
    RawClimbNet(points, n);
    assert p.ascent - p.descent == Net(points, n);
    NetTelescopes(points, n);
    KeptAll(points, n);
    assert kept[0] == points[0].ele.value && kept[n - 1] == points[n - 1].ele.value;
  }

  /** The two scripts agree on raw ascent and descent. */
  predicate Agree(p: Profile, d: Totals)
  {
    p.ascent == d.raw.ascent && p.descent == d.raw.descent
  }

  lemma {:induction false} SegmentsAgree(p: Profile, d: Totals, segments: seq<seq<GpxPoint>>, s: nat)
    requires s <= |segments|
    requires Agree(p, d)
    ensures Agree(SegmentProfile(p, segments, s), SegmentTotals(d, segments, s))
  {
    if s > 0 {
      SegmentsAgree(p, d, segments, s - 1);
    }
  }

  /** analyze_file and analyze_elevation_detailed find the same raw ascent and descent: a segment of fewer than two points has no leg. */
  lemma {:induction false} DebugAgreesWithAnalysis(tracks: seq<Track>, t: nat)
    requires t <= |tracks|
    ensures Agree(DocumentProfile(tracks, t), DocumentTotals(tracks, t))
  {
    if t > 0 {
      DebugAgreesWithAnalysis(tracks, t - 1);
      SegmentsAgree(DocumentProfile(tracks, t - 1), DocumentTotals(tracks, t - 1), tracks[t - 1].segments, |tracks[t - 1].segments|);
    }
  }

  /** The body of analyze_file's segment loop: one pass keeps the elevations and adds up the legs. */
  method AddSegmentProfile(elevations0: seq<real>, ascent0: real, descent0: real, points: seq<GpxPoint>)
    returns (elevations: seq<real>, ascent: real, descent: real)
    ensures elevations == elevations0 + Kept(points, |points|)
    ensures ascent == ascent0 + RawClimb(points, |points|).ascent
    ensures descent == descent0 + RawClimb(points, |points|).descent
  {
    elevations, ascent, descent := elevations0, ascent0, descent0;
    for i := 0 to |points|
      invariant elevations == elevations0 + Kept(points, i)
      invariant ascent == ascent0 + RawClimb(points, i).ascent
      invariant descent == descent0 + RawClimb(points, i).descent
    {
      if points[i].ele.Some? {
        elevations := elevations + [points[i].ele.value];
        if i > 0 && points[i - 1].ele.Some? {
          var change := points[i].ele.value - points[i - 1].ele.value;
          if change > 0.0 {
            ascent := ascent + change;
          } else {
            descent := descent + -change;
          }
        }
      }
    }
  }

  /** analyze_file on a parsed document: one loop per segment keeps elevations and adds up the legs. */
  method AnalyzeFile(doc: GpxData) returns (s: Summary)
    ensures s == Summarized(DocumentProfile(doc.tracks, |doc.tracks|))
  {
    var tracks := doc.tracks;
    var elevations: seq<real> := [];
    var ascent, descent := 0.0, 0.0;
    for t := 0 to |tracks|
      invariant Profile(elevations, ascent, descent) == DocumentProfile(tracks, t)
    {
      var segments := tracks[t].segments;
      for s := 0 to |segments|
        invariant Profile(elevations, ascent, descent) == SegmentProfile(DocumentProfile(tracks, t), segments, s)
      {
        elevations, ascent, descent := AddSegmentProfile(elevations, ascent, descent, segments[s]);
      }
    }
    s := Summary(elevations, ascent, descent,
                 if |elevations| > 0 then Min(elevations) else 0.0,
                 if |elevations| > 0 then Max(elevations) else 0.0,
                 if |elevations| > 0 then Some(elevations[0]) else None,
                 if |elevations| > 0 then Some(elevations[|elevations| - 1]) else None);
  }
}
