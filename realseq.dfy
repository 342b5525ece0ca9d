/** Minimum, maximum and sums over sequences of reals, as Python's min(), max() and sum() compute them. */
module RealSeq {

  function Min(s: seq<real>): (m: real)
    requires |s| > 0
    ensures forall i :: 0 <= i < |s| ==> m <= s[i]
    ensures exists i :: 0 <= i < |s| && m == s[i]
  {
    if |s| == 1 then s[0]
    else
      var rest := Min(s[1..]);
      assert forall i :: 1 <= i < |s| ==> s[i] == s[1..][i - 1];
      if s[0] <= rest then s[0] else rest
  }

  function Max(s: seq<real>): (m: real)
    requires |s| > 0
    ensures forall i :: 0 <= i < |s| ==> s[i] <= m
    ensures exists i :: 0 <= i < |s| && m == s[i]
  {
    if |s| == 1 then s[0]
    else
      var rest := Max(s[1..]);
      assert forall i :: 1 <= i < |s| ==> s[i] == s[1..][i - 1];
      if s[0] >= rest then s[0] else rest
  }

  /** Python's min(xs) if xs else 0 */
  function MinOrZero(s: seq<real>): real
  {
    if |s| == 0 then 0.0 else Min(s)
  }

  /** Python's max(xs) if xs else 0 */
  function MaxOrZero(s: seq<real>): real
  {
    if |s| == 0 then 0.0 else Max(s)
  }

  lemma MinLeMax(s: seq<real>)
    ensures MinOrZero(s) <= MaxOrZero(s)
  {
    if |s| > 0 {
      assert Min(s) <= s[0] <= Max(s);
    }
  }

  function Sum(s: seq<real>): real
  {
    if |s| == 0 then 0.0 else s[0] + Sum(s[1..])
  }

  lemma {:induction false} SumNonNegative(s: seq<real>)
    requires forall i :: 0 <= i < |s| ==> s[i] >= 0.0
    ensures Sum(s) >= 0.0
    decreases |s|
  {
    if |s| > 0 {
      assert forall i :: 0 <= i < |s| - 1 ==> s[1..][i] == s[i + 1];
      SumNonNegative(s[1..]);
    }
  }

  /** Multiplying every term by k multiplies the sum by k. */
  lemma {:induction false} SumScale(xs: seq<real>, ys: seq<real>, k: real)
    requires |xs| == |ys| && forall i :: 0 <= i < |xs| ==> xs[i] == ys[i] * k
    ensures Sum(xs) == Sum(ys) * k
    decreases |xs|
  {
    if |xs| > 0 {
      assert forall i :: 0 <= i < |xs| - 1 ==> xs[1..][i] == xs[i + 1] && ys[1..][i] == ys[i + 1];
      SumScale(xs[1..], ys[1..], k);
      assert xs[0] == ys[0] * k;
      assert (ys[0] + Sum(ys[1..])) * k == ys[0] * k + Sum(ys[1..]) * k;
    }
  }

  /** Every term multiplied by k. */
  function Scaled(s: seq<real>, k: real): (r: seq<real>)
    ensures |r| == |s|
    ensures forall i :: 0 <= i < |s| ==> r[i] == s[i] * k
  {
    seq(|s|, i requires 0 <= i < |s| => s[i] * k)
  }

  lemma SumScaled(s: seq<real>, k: real)
    ensures Sum(Scaled(s, k)) == Sum(s) * k
  {
    SumScale(Scaled(s, k), s, k);
  }

  lemma SumOfScaled(b: seq<real>, a: seq<real>, k: real)
    requires b == Scaled(a, k)
    ensures Sum(b) == Sum(a) * k
  {
    SumScaled(a, k);
  }

  /** Equal values scale to equal values (spelled out for the solver's nonlinear arithmetic). */
  lemma MulCongruence(x: real, y: real, k: real)
    requires x == y
    ensures x * k == y * k
  {
  }
}
