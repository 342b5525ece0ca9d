/**
 * The walk that rebuilds a point list: point 0 becomes a given first point, and each later point is
 * computed by a step from the already rewritten previous point and the original leg that ends at it.
 * The step is a parameter; what the walk keeps (timestamps, scaled leg lengths, scaled climbs) follows
 * from what the step keeps, one leg at a time.
 */
module PointWalk {
  import opened Wrappers
  import opened GpxModel
  import opened RealSeq

  /** A step: (rewritten previous point, original previous point, original current point) to the rewritten current point. */
  type StepFn = (GpxPoint, GpxPoint, GpxPoint) -> GpxPoint

  function Walk(original: seq<GpxPoint>, first: GpxPoint, step: StepFn): (r: seq<GpxPoint>)
    requires |original| > 0
    ensures |r| == |original| && r[0] == first
  {
    if |original| == 1 then [first]
    else
      var n := |original| - 1;
      var before := Walk(original[..n], first, step);
      before + [step(before[n - 1], original[n - 1], original[n])]
  }

  /** Walking a prefix of the list gives the prefix of the walk. */
  lemma {:induction false} WalkPrefix(original: seq<GpxPoint>, k: nat, first: GpxPoint, step: StepFn)
    requires 0 < k <= |original|
    ensures Walk(original, first, step)[..k] == Walk(original[..k], first, step)
    decreases |original|
  {
    if k < |original| {
      var n := |original| - 1;
      assert original[..n][..k] == original[..k];
      WalkPrefix(original[..n], k, first, step);
      var w := Walk(original, first, step);
      assert w[..n] == Walk(original[..n], first, step);
      assert w[..k] == w[..n][..k];
    } else {
      assert original[..k] == original;
    }
  }

  /** Each later point is one step from the rewritten point before it. */
  lemma WalkStep(original: seq<GpxPoint>, i: nat, first: GpxPoint, step: StepFn)
    requires 0 < i < |original|
    ensures var r := Walk(original, first, step); r[i] == step(r[i - 1], original[i - 1], original[i])
  {
    var r := Walk(original, first, step);
    WalkPrefix(original, i + 1, first, step);
    var prefix := original[..i + 1];
    assert prefix[..i] == original[..i];
    assert r[..i + 1][i] == r[i] && r[..i + 1][i - 1] == r[i - 1];
  }

  /** The step keeps the current original point's timestamp. */
  ghost predicate KeepsTime(step: StepFn)
  {
    forall p: GpxPoint, o1: GpxPoint, o2: GpxPoint {:trigger step(p, o1, o2)} :: step(p, o1, o2).time == o2.time
  }

  /** The step never drops an elevation the previous rewritten point has. */
  ghost predicate KeepsElevation(step: StepFn)
  {
    forall p: GpxPoint, o1: GpxPoint, o2: GpxPoint {:trigger step(p, o1, o2)} :: p.ele.Some? ==> step(p, o1, o2).ele.Some?
  }

  /** The step's leg, from the previous rewritten point, is the original leg times k. */
  ghost predicate ScalesLegs(step: StepFn, dist: DistanceFn, k: real)
  {
    forall p: GpxPoint, o1: GpxPoint, o2: GpxPoint {:trigger step(p, o1, o2)} :: PointDistance(dist, p, step(p, o1, o2)) == PointDistance(dist, o1, o2) * k
  }

  /**
   * Where both ends of the original leg and the previous rewritten point have elevations, the step
   * climbs `scale` of the original climb.
   */
  ghost predicate ScalesClimbs(step: StepFn, scale: real -> real)
  {
    forall p: GpxPoint, o1: GpxPoint, o2: GpxPoint {:trigger step(p, o1, o2)} :: p.ele.Some? && o1.ele.Some? && o2.ele.Some? ==>
      step(p, o1, o2).ele == Some(p.ele.value + scale(o2.ele.value - o1.ele.value))
  }

  /** Where an end of the original leg lacks an elevation, the step repeats the previous rewritten elevation. */
  ghost predicate HoldsElevation(step: StepFn)
  {
    forall p: GpxPoint, o1: GpxPoint, o2: GpxPoint {:trigger step(p, o1, o2)} :: o1.ele.None? || o2.ele.None? ==> step(p, o1, o2).ele == p.ele
  }

  /** True when every point carries an elevation. */
  predicate AllElevations(points: seq<GpxPoint>)
  {
    forall i :: 0 <= i < |points| ==> points[i].ele.Some?
  }

  lemma WalkTimes(original: seq<GpxPoint>, first: GpxPoint, step: StepFn)
    requires |original| > 0 && first.time == original[0].time && KeepsTime(step)
    ensures var r := Walk(original, first, step); forall i :: 0 <= i < |r| ==> r[i].time == original[i].time
  {
    var r := Walk(original, first, step);
    forall i | 0 < i < |r|
      ensures r[i].time == original[i].time
    {
      WalkStep(original, i, first, step);
    }
  }

  lemma {:induction false} WalkElevationsAt(original: seq<GpxPoint>, i: nat, first: GpxPoint, step: StepFn)
    requires i < |original| && first.ele.Some? && KeepsElevation(step)
    ensures Walk(original, first, step)[i].ele.Some?
  {
    if i > 0 {
      WalkElevationsAt(original, i - 1, first, step);
      WalkStep(original, i, first, step);
    }
  }

  /** Starting with an elevation, a step that keeps elevations gives every rewritten point one. */
  lemma WalkElevations(original: seq<GpxPoint>, first: GpxPoint, step: StepFn)
    requires |original| > 0 && first.ele.Some? && KeepsElevation(step)
    ensures AllElevations(Walk(original, first, step))
  {
    forall i | 0 <= i < |original|
      ensures Walk(original, first, step)[i].ele.Some?
    {
      WalkElevationsAt(original, i, first, step);
    }
  }

  /** The climbs of legs 1..i of an original list with elevations throughout, each passed through `scale`, added up. */
  function Climbed(original: seq<GpxPoint>, i: nat, scale: real -> real): real
    requires i < |original| && AllElevations(original)
  {
    if i == 0 then 0.0 else Climbed(original, i - 1, scale) + scale(original[i].ele.value - original[i - 1].ele.value)
  }

  /** Multiplication by k, as a function. */
  function Times(k: real): real -> real
  {
    x => x * k
  }

  lemma NonNegativeProduct(x: real, k: real)
    requires x >= 0.0 && k >= 0.0
    ensures Times(k)(x) >= 0.0 && Times(k)(x) == x * k
  {
  }

  /** Scaled climbs add up: climbing from a to b and then from b to c is climbing from a to c. */
  lemma Telescope(a: real, b: real, c: real, k: real)
    ensures (b - a) * k + (c - b) * k == (c - a) * k
  {
  }

  /** Multiplying every climb by k, the climbs up to point i add up to k times the climb from point 0 to point i. */
  lemma {:induction false} ClimbedScaled(original: seq<GpxPoint>, i: nat, k: real)
    requires i < |original| && AllElevations(original)
    ensures Climbed(original, i, Times(k)) == (original[i].ele.value - original[0].ele.value) * k
  {
    if i > 0 {
      ClimbedScaled(original, i - 1, k);
      Telescope(original[0].ele.value, original[i - 1].ele.value, original[i].ele.value, k);
    }
  }

  /** With elevations throughout, point i of the walk sits at the first point's elevation plus the scaled climbs up to i. */
  lemma {:induction false} WalkElevationAt(original: seq<GpxPoint>, i: nat, first: GpxPoint, step: StepFn, scale: real -> real)
    requires i < |original| && AllElevations(original) && first.ele.Some? && ScalesClimbs(step, scale)
    ensures Walk(original, first, step)[i].ele == Some(first.ele.value + Climbed(original, i, scale))
  {
    if i > 0 {
      WalkElevationAt(original, i - 1, first, step, scale);
      WalkStep(original, i, first, step);
    }
  }

  /** A step that multiplies every climb by k puts point i at the first point's elevation plus k times the climb from point 0 to i. */
  lemma WalkElevationLinear(original: seq<GpxPoint>, i: nat, first: GpxPoint, base: real, step: StepFn, k: real)
    requires i < |original| && AllElevations(original) && first.ele == Some(base) && ScalesClimbs(step, Times(k))
    ensures Walk(original, first, step)[i].ele == Some(base + (original[i].ele.value - original[0].ele.value) * k)
  {
    WalkElevationAt(original, i, first, step, Times(k));
    ClimbedScaled(original, i, k);
  }

  lemma WalkElevation(original: seq<GpxPoint>, first: GpxPoint, step: StepFn, scale: real -> real)
    requires |original| > 0 && AllElevations(original) && first.ele.Some? && ScalesClimbs(step, scale)
    ensures var r := Walk(original, first, step);
      forall i :: 0 <= i < |r| ==> r[i].ele == Some(first.ele.value + Climbed(original, i, scale))
  {
    forall i | 0 <= i < |original|
      ensures Walk(original, first, step)[i].ele == Some(first.ele.value + Climbed(original, i, scale))
    {
      WalkElevationAt(original, i, first, step, scale);
    }
  }

  /** Where the original leg into point i lacks an elevation at either end, point i repeats the elevation before it. */
  lemma WalkElevationGap(original: seq<GpxPoint>, i: nat, first: GpxPoint, step: StepFn)
    requires 0 < i < |original| && (original[i - 1].ele.None? || original[i].ele.None?) && HoldsElevation(step)
    ensures var r := Walk(original, first, step); r[i].ele == r[i - 1].ele
  {
    WalkStep(original, i, first, step);
  }

  /** One leg scaled: if the points' i-th leg is the original's times k, so is the i-th entry of Legs. */
  lemma LegScaleAt(dist: DistanceFn, points: seq<GpxPoint>, original: seq<GpxPoint>, k: real, i: int)
    requires |points| == |original| && 0 <= i < |points| - 1
    requires PointDistance(dist, points[i], points[i + 1]) == PointDistance(dist, original[i], original[i + 1]) * k
    ensures Legs(dist, points)[i] == Scaled(Legs(dist, original), k)[i]
  {
  }

  /** If every leg of a polyline is k times the matching leg of another, its legs are the other's scaled by k. */
  lemma LegsScale(dist: DistanceFn, points: seq<GpxPoint>, original: seq<GpxPoint>, k: real)
    requires |points| == |original|
    requires forall i {:trigger points[i]} :: 0 <= i < |points| - 1 ==>
      PointDistance(dist, points[i], points[i + 1]) == PointDistance(dist, original[i], original[i + 1]) * k
    ensures Legs(dist, points) == Scaled(Legs(dist, original), k)
  {
    forall i | 0 <= i < |Legs(dist, points)|
      ensures Legs(dist, points)[i] == Scaled(Legs(dist, original), k)[i]
    {
      LegScaleAt(dist, points, original, k, i);
    }
  }

  /** ... and then its length is the other's times k. */
  lemma PathLengthScale(dist: DistanceFn, points: seq<GpxPoint>, original: seq<GpxPoint>, k: real)
    requires Legs(dist, points) == Scaled(Legs(dist, original), k)
    ensures PathLength(dist, points) == PathLength(dist, original) * k
  {
    var a := Legs(dist, original);
    SumOfScaled(Legs(dist, points), a, k);
    MulCongruence(PathLength(dist, original), Sum(a), k);
  }

  lemma WalkLegAt(original: seq<GpxPoint>, i: nat, first: GpxPoint, step: StepFn, dist: DistanceFn, k: real)
    requires i + 1 < |original| && ScalesLegs(step, dist, k)
    ensures var r := Walk(original, first, step);
      PointDistance(dist, r[i], r[i + 1]) == PointDistance(dist, original[i], original[i + 1]) * k
  {
    WalkStep(original, i + 1, first, step);
  }

  /** A step that scales every leg by k makes the walk's legs the original legs scaled by k. */
  lemma WalkLegs(original: seq<GpxPoint>, first: GpxPoint, step: StepFn, dist: DistanceFn, k: real)
    requires |original| > 0 && ScalesLegs(step, dist, k)
    ensures Legs(dist, Walk(original, first, step)) == Scaled(Legs(dist, original), k)
  {
    var r := Walk(original, first, step);
    forall i | 0 <= i < |r| - 1
      ensures PointDistance(dist, r[i], r[i + 1]) == PointDistance(dist, original[i], original[i + 1]) * k
    {
      WalkLegAt(original, i, first, step, dist, k);
    }
    LegsScale(dist, r, original, k);
  }

  /** ... so the walk is k times as long as the original list. */
  lemma WalkLength(original: seq<GpxPoint>, first: GpxPoint, step: StepFn, dist: DistanceFn, k: real)
    requires |original| > 0 && ScalesLegs(step, dist, k)
    ensures PathLength(dist, Walk(original, first, step)) == PathLength(dist, original) * k
  {
    var r := Walk(original, first, step);
    WalkLegs(original, first, step, dist, k);
    PathLengthScale(dist, r, original, k);
  }
}
