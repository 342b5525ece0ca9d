/**
 * The selective clean-up prompt of scale_all_files: the answer "all" removes every old scaled file,
 * an answer like "1,3,5-7" names one-based file numbers and ranges, and the named files are removed
 * from the highest index down, skipping numbers outside the list. int() is modelled on ASCII digits.
 */
module FileSelection {
  import opened Wrappers
  import opened Text

  /** Only digits and underscores. */
  predicate DigitsOrUnderscores(b: string)
  {
    forall i :: 0 <= i < |b| ==> IsDigit(b[i]) || b[i] == '_'
  }

  /** No underscore is followed by another one. */
  predicate NoDoubleUnderscore(b: string)
  {
    forall i :: 0 <= i < |b| - 1 ==> b[i] != '_' || b[i + 1] != '_'
  }

  /** The digits of an int() literal: digits, with single underscores allowed between two digits. */
  predicate ValidDigits(b: string)
  {
    |b| > 0 && IsDigit(b[0]) && IsDigit(b[|b| - 1]) && DigitsOrUnderscores(b) && NoDoubleUnderscore(b)
  }

  function RemoveUnderscores(b: string): (r: string)
    ensures (forall i :: 0 <= i < |b| ==> b[i] != '_') ==> r == b
  {
    if |b| == 0 then [] else (if b[0] == '_' then [] else [b[0]]) + RemoveUnderscores(b[1..])
  }

  lemma {:induction false} RemoveUnderscoresLeavesDigits(b: string)
    requires DigitsOrUnderscores(b)
    ensures AllDigits(RemoveUnderscores(b))
  {
    if |b| > 0 {
      RemoveUnderscoresLeavesDigits(b[1..]);
    }
  }

  /** The text int() reads the number from: the stripped text without a leading sign. */
  function UnsignedPart(s: string): string
  {
    var t := Strip(s);
    if |t| > 0 && (t[0] == '-' || t[0] == '+') then t[1..] else t
  }

  /** int(s) for a str: surrounding whitespace, an optional sign, then the digits; anything else is a ValueError. */
  function ParseInt(s: string): (r: Result<int>)
    ensures r.Err? <==> !ValidDigits(UnsignedPart(s))
    ensures r.Err? ==> r.error == ValueError
  {
    var t := Strip(s);
    var negative := |t| > 0 && t[0] == '-';
    var body := UnsignedPart(s);
    if ValidDigits(body) then
      RemoveUnderscoresLeavesDigits(body);
      var v: int := DigitsValue(RemoveUnderscores(body));
      Ok(if negative then -v else v)
    else
      Err(ValueError)
  }

  /** A text with no digit at all is never a number. */
  lemma ParseIntNeedsADigit(s: string)
    requires forall i :: 0 <= i < |s| ==> !IsDigit(s[i])
    ensures ParseInt(s).Err?
  {
    var left := StripLeft(s);
    var t := Strip(s);
    var body := UnsignedPart(s);
    if |body| > 0 {
      var j := if |t| > 0 && (t[0] == '-' || t[0] == '+') then 1 else 0;
      assert body[0] == t[j];
      assert t[j] == left[j];
      assert left[j] == s[|s| - |left| + j];
    }
  }

  /** int() reads back what str() writes for a natural number. */
  lemma ParseIntOfNat(n: nat)
    ensures ParseInt(NatToString(n)) == Ok(n)
  {
    var s := NatToString(n);
    StripNoSpace(s);
    assert IsDigit(s[0]);
    assert UnsignedPart(s) == s;
    assert forall i :: 0 <= i < |s| ==> IsDigit(s[i]);
    assert ValidDigits(s);
    assert RemoveUnderscores(s) == s;
    DigitsValueOfNatToString(n);
  }

  /** A leading minus sign is read as a range with an empty start, so "-3" is a ValueError and never index -4. */
  lemma NegativeNumberRejected(n: nat)
    ensures ParsePart("-" + NatToString(n)) == Err(ValueError)
  {
    var digits := NatToString(n);
    var part := "-" + digits;
    assert part == [] + ['-'] + digits;
    assert part[0] == '-';
    assert Excludes(digits, '-') by {
      assert AllDigits(digits);
    }
    SplitJoinedPair([], digits, '-');
    assert Split(part, '-') == [[], digits];
    assert Strip([]) == [];
    assert ParseInt([]).Err?;
  }

  /** The integers lo, lo + 1, ..., hi - 1, as range(lo, hi) yields them. */
  function RangeSet(lo: int, hi: int): (r: set<int>)
    ensures forall i :: i in r <==> lo <= i < hi
    decreases hi - lo
  {
    if lo >= hi then {} else {lo} + RangeSet(lo + 1, hi)
  }

  /** One stripped part of the answer: "a-b" selects indices a-1 .. b-1, a single number n selects n-1. */
  function ParsePart(part: string): (r: Result<set<int>>)
    ensures r.Err? ==> r.error == ValueError
  {
    if '-' in part then
      var bounds := Split(part, '-');
      if |bounds| != 2 then Err(ValueError)
      else
        match (ParseInt(bounds[0]), ParseInt(bounds[1]))
        case (Ok(start), Ok(end)) => Ok(RangeSet(start - 1, end))
        case _ => Err(ValueError)
    else
      match ParseInt(part)
      case Ok(n) => Ok({n - 1})
      case Err(e) => Err(e)
  }

  /** The indices named by a list of parts; the first part that does not parse makes the whole answer fail. */
  function IndicesOf(parts: seq<string>): (r: Result<set<int>>)
    ensures r.Err? ==> r.error == ValueError
  {
    if |parts| == 0 then Ok({})
    else
      match IndicesOf(parts[..|parts| - 1])
      case Err(e) => Err(e)
      case Ok(before) =>
        match ParsePart(Strip(parts[|parts| - 1]))
        case Err(e) => Err(e)
        case Ok(more) => Ok(before + more)
  }

  lemma IndicesOfStep(parts: seq<string>, k: nat, before: set<int>)
    requires k < |parts| && IndicesOf(parts[..k]) == Ok(before)
    ensures IndicesOf(parts[..k + 1]) == match ParsePart(Strip(parts[k]))
                                         case Err(e) => Err(e)
                                         case Ok(more) => Ok(before + more)
  {
    PrefixOfPrefix(parts, k);
  }

  lemma PrefixOfPrefix(parts: seq<string>, k: nat)
    requires k < |parts|
    ensures parts[..k + 1][..k] == parts[..k] && parts[..k + 1][k] == parts[k]
  {
    assert forall i :: 0 <= i < k ==> parts[..k + 1][..k][i] == parts[..k][i];
  }

  lemma {:induction false} IndicesOfFailureIsFinal(parts: seq<string>, k: nat)
    requires k <= |parts| && IndicesOf(parts[..k]).Err?
    ensures IndicesOf(parts) == Err(ValueError)
    decreases |parts| - k
  {
    if k < |parts| {
      IndicesOfStepErr(parts, k);
      IndicesOfFailureIsFinal(parts, k + 1);
    } else {
      WholePrefix(parts);
    }
  }

  lemma WholePrefix(parts: seq<string>)
    ensures parts[..|parts|] == parts
  {
    assert forall i :: 0 <= i < |parts| ==> parts[..|parts|][i] == parts[i];
  }

  lemma IndicesOfStepErr(parts: seq<string>, k: nat)
    requires k < |parts| && IndicesOf(parts[..k]).Err?
    ensures IndicesOf(parts[..k + 1]).Err?
  {
    PrefixOfPrefix(parts, k);
  }

  /** The parse loop over the comma-separated answer: each stripped part adds its indices to the set. */
  method ParseIndices(toRemove: string) returns (r: Result<set<int>>)
    ensures r == IndicesOf(Split(toRemove, ','))
  {
    var parts := Split(toRemove, ',');
    var indicesToRemove: set<int> := {};
    for k := 0 to |parts|
      invariant IndicesOf(parts[..k]) == Ok(indicesToRemove)
    {
      IndicesOfStep(parts, k, indicesToRemove);
      var part := Strip(parts[k]);
      var selected := ParsePart(part);
      if selected.Err? {
        IndicesOfFailureIsFinal(parts, k + 1);
        return Err(selected.error);
      }
      indicesToRemove := indicesToRemove + selected.value;
    }
    WholePrefix(parts);
    r := Ok(indicesToRemove);
  }

  /** A range part selects exactly the zero-based indices of the one-based numbers it spans. */
  lemma RangePartSelects(a: nat, b: nat)
    ensures ParsePart(NatToString(a) + "-" + NatToString(b)) == Ok(RangeSet(a - 1, b))
  {
    var sa := NatToString(a);
    var sb := NatToString(b);
    var part := sa + "-" + sb;
    assert part == sa + ['-'] + sb;
    assert part[|sa|] == '-';
    assert Excludes(sa, '-') by {
      assert AllDigits(sa);
    }
    assert Excludes(sb, '-') by {
      assert AllDigits(sb);
    }
    SplitJoinedPair(sa, sb, '-');
    var bounds := Split(part, '-');
    assert bounds == [sa, sb];
    ParseIntOfNat(a);
    ParseIntOfNat(b);
  }

  /** A single number selects its zero-based index. */
  lemma NumberPartSelects(m: nat)
    ensures ParsePart(Strip(NatToString(m + 1))) == Ok({m})
  {
    var number := NatToString(m + 1);
    StripNoSpace(number);
    assert AllDigits(number);
    assert '-' !in number;
    ParseIntOfNat(m + 1);
  }

  /** The answer written for a list of zero-based indices: their one-based numbers separated by commas. */
  function FormatSelection(indices: seq<nat>): (answer: string)
    ensures |indices| > 0 ==> |answer| > 0 && IsDigit(answer[0])
    ensures forall i :: 0 <= i < |answer| ==> IsDigit(answer[i]) || answer[i] == ','
  {
    if |indices| == 0 then [] else if |indices| == 1 then NatToString(indices[0] + 1)
    else NatToString(indices[0] + 1) + "," + FormatSelection(indices[1..])
  }

  function Numbers(indices: seq<nat>): (parts: seq<string>)
    ensures |parts| == |indices|
    ensures forall k :: 0 <= k < |indices| ==> parts[k] == NatToString(indices[k] + 1)
  {
    if |indices| == 0 then [] else [NatToString(indices[0] + 1)] + Numbers(indices[1..])
  }

  lemma {:induction false} FormatIsJoin(indices: seq<nat>)
    ensures FormatSelection(indices) == Join(Numbers(indices), ',')
  {
    if |indices| > 1 {
      FormatIsJoin(indices[1..]);
      assert Numbers(indices)[1..] == Numbers(indices[1..]);
    }
  }

  /** The listed indices as a set. */
  function Elements(indices: seq<nat>): (r: set<int>)
    ensures forall k :: 0 <= k < |indices| ==> indices[k] as int in r
    ensures forall x :: x in r ==> 0 <= x && x as nat in indices
  {
    if |indices| == 0 then {}
    else Elements(indices[..|indices| - 1]) + {indices[|indices| - 1] as int}
  }

  lemma {:induction false} IndicesOfNumbers(indices: seq<nat>)
    ensures IndicesOf(Numbers(indices)) == Ok(Elements(indices))
    decreases |indices|
  {
    if |indices| > 0 {
      var parts := Numbers(indices);
      var n := |indices| - 1;
      assert forall i :: 0 <= i < n ==> parts[..n][i] == Numbers(indices[..n])[i];
      assert parts[..n] == Numbers(indices[..n]);
      IndicesOfNumbers(indices[..n]);
      NumberPartSelects(indices[n]);
      IndicesOfStep(parts, n, Elements(indices[..n]));
      assert parts[n] == NatToString(indices[n] + 1);
      assert IndicesOf(parts[..n + 1]) == Ok(Elements(indices[..n]) + {indices[n] as int});
      WholePrefix(parts);
      assert parts[..n + 1] == parts;
    }
  }

  /** Formatting a selection and parsing it back names exactly the selected files. */
  lemma FormatThenParse(indices: seq<nat>)
    requires |indices| > 0
    ensures IndicesOf(Split(FormatSelection(indices), ',')) == Ok(Elements(indices))
  {
    FormatIsJoin(indices);
    var parts := Numbers(indices);
    forall k | 0 <= k < |parts|
      ensures Excludes(parts[k], ',')
    {
      assert AllDigits(parts[k]);
    }
    SplitJoin(parts, ',');
    IndicesOfNumbers(indices);
  }

  lemma SplitExample()
    ensures Split("1,3,5-7", ',') == ["1", "3", "5-7"]
  {
    var parts := ["1", "3", "5-7"];
    assert Join(parts, ',') == "1,3,5-7" by {
      assert parts[1..][0] == "3" && parts[1..][1] == "5-7";
      assert parts[1..] == ["3", "5-7"];
      assert parts[1..][1..][0] == "5-7";
      assert parts[1..][1..] == ["5-7"];
    }
    assert Excludes("1", ',') && Excludes("3", ',') && Excludes("5-7", ',');
    SplitJoin(parts, ',');
  }

  /** What the prompt's answer asks for. */
  datatype Selection = RemoveAll | RemoveNothing | RemoveIndices(indices: set<int>)

  /** The answer, stripped: "all" in any letter case, nothing, or a list of numbers and ranges. */
  function ParseSelection(answer: string): (r: Result<Selection>)
    ensures r.Err? ==> r.error == ValueError
    ensures Lower(Strip(answer)) == "all" ==> r == Ok(RemoveAll)
    ensures Strip(answer) == "" ==> r == Ok(RemoveNothing)
    ensures Lower(Strip(answer)) != "all" && Strip(answer) != "" ==>
      (r.Err? <==> IndicesOf(Split(Strip(answer), ',')).Err?)
      && (r.Ok? ==> r == Ok(RemoveIndices(IndicesOf(Split(Strip(answer), ',')).value)))
  {
    var toRemove := Strip(answer);
    if Lower(toRemove) == "all" then Ok(RemoveAll)
    else if toRemove == "" then Ok(RemoveNothing)
    else
      match IndicesOf(Split(toRemove, ','))
      case Ok(indices) => Ok(RemoveIndices(indices))
      case Err(e) => Err(e)
  }

  /** An answer written for some files is read back as exactly those files. */
  lemma SelectionRoundTrip(indices: seq<nat>)
    requires |indices| > 0
    ensures ParseSelection(FormatSelection(indices)) == Ok(RemoveIndices(Elements(indices)))
  {
    var answer := FormatSelection(indices);
    assert Strip(answer) == answer by {
      assert forall i :: 0 <= i < |answer| ==> !IsSpace(answer[i]);
      StripNoSpace(answer);
    }
    assert Lower(answer) != "all" by {
      LowerPreservesDigits(answer[0]);
      assert Lower(answer)[0] == LowerChar(answer[0]);
    }
    FormatThenParse(indices);
  }
}
