/**
 * The string operations of Python that the modelled code relies on: decimal digits (re's \d and
 * int(), ASCII digits only), str(n) for a natural number, str.lower() and str.upper() (ASCII letters
 * only), str.strip() (all of Python's whitespace) and str.split(sep).
 */
module Text {

  predicate IsDigit(c: char)
  {
    '0' <= c <= '9'
  }

  function DigitValue(c: char): nat
    requires IsDigit(c)
  {
    (c as int - '0' as int) as nat
  }

  function DigitChar(d: nat): (c: char)
    requires d < 10
    ensures IsDigit(c) && DigitValue(c) == d
  {
    ('0' as int + d) as char
  }

  predicate AllDigits(s: string)
  {
    forall i :: 0 <= i < |s| ==> IsDigit(s[i])
  }

  /** The value of a decimal numeral (leading zeros allowed, as int() allows them). */
  function DigitsValue(s: string): nat
    requires AllDigits(s)
  {
    if |s| == 0 then 0 else DigitsValue(s[..|s| - 1]) * 10 + DigitValue(s[|s| - 1])
  }

  /** str(n) for a natural number. */
  function NatToString(n: nat): (s: string)
    ensures |s| > 0 && AllDigits(s)
    decreases n
  {
    if n < 10 then [DigitChar(n)] else NatToString(n / 10) + [DigitChar(n % 10)]
  }

  lemma {:induction false} DigitsValueOfNatToString(n: nat)
    ensures DigitsValue(NatToString(n)) == n
    decreases n
  {
    var s := NatToString(n);
    if n >= 10 {
      DigitsValueOfNatToString(n / 10);
      assert s[..|s| - 1] == NatToString(n / 10);
    }
  }

  /** str.lower() on ASCII letters; every other character is kept. */
  function LowerChar(c: char): char
  {
    if 'A' <= c <= 'Z' then (c as int + 32) as char else c
  }

  function Lower(s: string): (r: string)
    ensures |r| == |s|
    ensures forall i :: 0 <= i < |s| ==> r[i] == LowerChar(s[i])
  {
    if |s| == 0 then [] else [LowerChar(s[0])] + Lower(s[1..])
  }

  /** str.upper() on ASCII letters; every other character is kept. */
  function UpperChar(c: char): char
  {
    if 'a' <= c <= 'z' then (c as int - 32) as char else c
  }

  function Upper(s: string): (r: string)
    ensures |r| == |s|
    ensures forall i :: 0 <= i < |s| ==> r[i] == UpperChar(s[i])
  {
    if |s| == 0 then [] else [UpperChar(s[0])] + Upper(s[1..])
  }

  lemma LowerPreservesDigits(c: char)
    ensures IsDigit(LowerChar(c)) == IsDigit(c)
  {
  }

  /**
   * The characters str.strip() removes: those for which str.isspace() holds, that is the ASCII
   * whitespace 0x09-0x0d and 0x20, the separators 0x1c-0x1f, and the Unicode spaces and line breaks.
   */
  predicate IsSpace(c: char)
  {
    var n := c as int;
    (0x09 <= n <= 0x0d) || (0x1c <= n <= 0x20) || n == 0x85 || n == 0xa0 || n == 0x1680
    || (0x2000 <= n <= 0x200a) || n == 0x2028 || n == 0x2029 || n == 0x202f || n == 0x205f || n == 0x3000
  }

  lemma SpacesOfStrip()
    ensures IsSpace(' ') && IsSpace('\t') && IsSpace('\n') && IsSpace('\U{a0}') && IsSpace('\U{3000}')
    ensures !IsSpace('a') && !IsSpace('0') && !IsSpace('_') && !IsSpace('\U{200b}')
  {
  }

  function StripLeft(s: string): (r: string)
    ensures |r| <= |s| && r == s[|s| - |r|..]
    ensures |r| > 0 ==> !IsSpace(r[0])
    ensures forall i :: 0 <= i < |s| - |r| ==> IsSpace(s[i])
  {
    if |s| > 0 && IsSpace(s[0]) then StripLeft(s[1..]) else s
  }

  function StripRight(s: string): (r: string)
    ensures |r| <= |s| && r == s[..|r|]
    ensures |r| > 0 ==> !IsSpace(r[|r| - 1])
    ensures forall i :: |r| <= i < |s| ==> IsSpace(s[i])
  {
    if |s| > 0 && IsSpace(s[|s| - 1]) then StripRight(s[..|s| - 1]) else s
  }

  /** The number of whitespace characters str.strip() drops at the front. */
  function LeadingSpaces(s: string): (k: nat)
    ensures k <= |s|
    ensures forall i :: 0 <= i < k ==> IsSpace(s[i])
    ensures k < |s| ==> !IsSpace(s[k])
  {
    |s| - |StripLeft(s)|
  }

  /** str.strip(): the longest slice of s that neither starts nor ends with whitespace. */
  function Strip(s: string): (r: string)
    ensures |r| == 0 || (!IsSpace(r[0]) && !IsSpace(r[|r| - 1]))
    ensures LeadingSpaces(s) + |r| <= |s| && r == s[LeadingSpaces(s)..LeadingSpaces(s) + |r|]
    ensures forall i :: LeadingSpaces(s) + |r| <= i < |s| ==> IsSpace(s[i])
  {
    var left := StripLeft(s);
    var k := |s| - |left|;
    var r := StripRight(left);
    assert forall i :: k + |r| <= i < |s| ==> s[i] == left[i - k];
    r
  }

  lemma StripNoSpace(s: string)
    requires forall i :: 0 <= i < |s| ==> !IsSpace(s[i])
    ensures Strip(s) == s
  {
  }

  /** The index of the first occurrence of c in s, or |s| when there is none. */
  function IndexOf(s: string, c: char): (k: nat)
    ensures k <= |s|
    ensures k < |s| ==> s[k] == c
    ensures forall i :: 0 <= i < k ==> s[i] != c
  {
    if |s| == 0 then 0 else if s[0] == c then 0 else 1 + IndexOf(s[1..], c)
  }

  /** c does not occur in s. */
  predicate Excludes(s: string, c: char)
  {
    forall i :: 0 <= i < |s| ==> s[i] != c
  }

  /** str.split(sep) with an explicit one-character separator. */
  function Split(s: string, sep: char): (parts: seq<string>)
    ensures |parts| >= 1
    ensures forall k :: 0 <= k < |parts| ==> Excludes(parts[k], sep)
    decreases |s|
  {
    var k := IndexOf(s, sep);
    if k == |s| then [s] else [s[..k]] + Split(s[k + 1..], sep)
  }

  /** The inverse of Split: the parts glued back together with the separator. */
  function Join(parts: seq<string>, sep: char): string
  {
    if |parts| == 0 then [] else if |parts| == 1 then parts[0] else parts[0] + [sep] + Join(parts[1..], sep)
  }

  /** Split cuts at the first separator. */
  lemma SplitAtFirst(s: string, sep: char)
    requires IndexOf(s, sep) < |s|
    ensures Split(s, sep) == [s[..IndexOf(s, sep)]] + Split(s[IndexOf(s, sep) + 1..], sep)
  {
  }

  lemma JoinCons(first: string, rest: seq<string>, sep: char)
    requires |rest| > 0
    ensures Join([first] + rest, sep) == first + [sep] + Join(rest, sep)
  {
    assert ([first] + rest)[1..] == rest;
  }

  lemma {:induction false} JoinSplit(s: string, sep: char)
    ensures Join(Split(s, sep), sep) == s
    decreases |s|
  {
    var k := IndexOf(s, sep);
    if k < |s| {
      var rest := Split(s[k + 1..], sep);
      JoinSplit(s[k + 1..], sep);
      SplitAtFirst(s, sep);
      JoinCons(s[..k], rest, sep);
      assert s == s[..k] + [sep] + s[k + 1..];
    }
  }

  lemma SplitWithoutSeparator(s: string, sep: char)
    requires Excludes(s, sep)
    ensures Split(s, sep) == [s]
  {
  }

  /** The first separator of a + [sep] + b is the one after a, when a has none. */
  lemma {:induction false} IndexOfAfter(a: string, b: string, sep: char)
    requires Excludes(a, sep)
    ensures IndexOf(a + [sep] + b, sep) == |a|
    decreases |a|
  {
    var s := a + [sep] + b;
    if |a| > 0 {
      assert s[0] == a[0];
      assert s[1..] == a[1..] + [sep] + b;
      IndexOfAfter(a[1..], b, sep);
    }
  }

  /** Split peels off a first part that holds no separator. */
  lemma SplitCons(first: string, rest: string, sep: char)
    requires Excludes(first, sep)
    ensures Split(first + [sep] + rest, sep) == [first] + Split(rest, sep)
  {
    var s := first + [sep] + rest;
    IndexOfAfter(first, rest, sep);
    SplitAtFirst(s, sep);
    assert s[..|first|] == first;
    assert s[|first| + 1..] == rest;
  }

  /** Split undoes Join when no part contains the separator. */
  lemma {:induction false} SplitJoin(parts: seq<string>, sep: char)
    requires |parts| > 0
    requires forall k :: 0 <= k < |parts| ==> Excludes(parts[k], sep)
    ensures Split(Join(parts, sep), sep) == parts
    decreases |parts|
  {
    if |parts| > 1 {
      var first, tail := parts[0], parts[1..];
      assert parts == [first] + tail;
      forall k | 0 <= k < |tail|
        ensures Excludes(tail[k], sep)
      {
        assert tail[k] == parts[k + 1];
      }
      SplitJoin(tail, sep);
      JoinCons(first, tail, sep);
      assert Excludes(first, sep);
      SplitCons(first, Join(tail, sep), sep);
      calc {
        Split(Join(parts, sep), sep);
        Split(first + [sep] + Join(tail, sep), sep);
        [first] + Split(Join(tail, sep), sep);
        [first] + tail;
      }
    } else {
      assert Excludes(parts[0], sep);
      SplitWithoutSeparator(parts[0], sep);
    }
  }

  lemma SplitJoinedPair(a: string, b: string, sep: char)
    requires Excludes(a, sep) && Excludes(b, sep)
    ensures Split(a + [sep] + b, sep) == [a, b]
  {
    var parts := [a, b];
    assert parts[1..] == [b];
    assert Join(parts, sep) == a + [sep] + b;
    SplitJoin(parts, sep);
  }
}
