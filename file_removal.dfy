/**
 * The removal step of the clean-up prompt in scale_all_files: which of the existing scaled files are
 * unlinked, and in which order, for the first answer (y/n/s) and the selective answer.
 */
module FileRemoval {
  import opened Wrappers
  import opened Text
  import opened FileSelection

  lemma EmptyWithoutElements(s: set<int>)
    ensures (forall y :: y !in s) ==> s == {}
  {
    if forall y :: y !in s {
      assert s == {};
    }
  }

  lemma HasElement(s: set<int>)
    requires s != {}
    ensures exists y :: y in s
  {
    EmptyWithoutElements(s);
  }

  /** The largest element of a non-empty finite set. */
  ghost function SetMax(s: set<int>): (m: int)
    requires s != {}
    ensures m in s && forall x :: x in s ==> x <= m
    decreases |s|
  {
    HasElement(s);
    var y :| y in s;
    var rest := s - {y};
    assert forall x :: x in s ==> x == y || x in rest;
    if rest == {} then
      y
    else
      var m := SetMax(rest);
      if y > m then y else m
  }

  /** Strictly decreasing, as sorted(..., reverse=True) orders the elements of a set. */
  predicate Descending(r: seq<int>)
  {
    forall a, b :: 0 <= a < b < |r| ==> r[a] > r[b]
  }

  /** sorted(s, reverse=True): the largest element first, then the rest sorted the same way. */
  ghost function SortedDescending(s: set<int>): seq<int>
    decreases |s|
  {
    if s == {} then [] else [SetMax(s)] + SortedDescending(s - {SetMax(s)})
  }

  /** sorted(s, reverse=True) lists every element of the set once, strictly decreasing. */
  lemma {:induction false} SortedDescendingIsSorted(s: set<int>)
    ensures |SortedDescending(s)| == |s|
    ensures forall x :: x in s <==> x in SortedDescending(s)
    ensures Descending(SortedDescending(s))
    decreases |s|
  {
    if s != {} {
      var m := SetMax(s);
      var rest := SortedDescending(s - {m});
      SortedDescendingIsSorted(s - {m});
      forall y | y in rest
        ensures y < m
      {
        assert y in s - {m};
        assert y in s && y != m;
      }
      DescendingCons(m, rest);
      assert SortedDescending(s) == [m] + rest;
      assert |s - {m}| == |s| - 1;
      assert forall x :: x in [m] + rest <==> x == m || x in rest;
      assert forall x :: x in s <==> x == m || x in s - {m};
    }
  }

  lemma DescendingCons(m: int, rest: seq<int>)
    requires Descending(rest) && forall y :: y in rest ==> y < m
    ensures Descending([m] + rest)
  {
    forall a, b | 0 <= a < b < |rest| + 1
      ensures ([m] + rest)[a] > ([m] + rest)[b]
    {
      assert ([m] + rest)[b] == rest[b - 1];
      assert rest[b - 1] in rest;
      if a > 0 {
        assert ([m] + rest)[a] == rest[a - 1];
      }
    }
  }

  /** The indices of `sorted` that name an existing file, in the same order. */
  function InRange(sorted: seq<int>, count: nat): (r: seq<nat>)
    ensures forall x :: x in r <==> x in sorted && 0 <= x < count
    ensures |r| <= |sorted|
  {
    if |sorted| == 0 then []
    else
      var init := sorted[..|sorted| - 1];
      var x := sorted[|sorted| - 1];
      assert sorted == init + [x];
      if 0 <= x < count then InRange(init, count) + [x] else InRange(init, count)
  }

  lemma DescendingSnoc(r: seq<int>, x: int)
    requires Descending(r) && forall y :: y in r ==> y > x
    ensures Descending(r + [x])
  {
    forall a, b | 0 <= a < b < |r| + 1
      ensures (r + [x])[a] > (r + [x])[b]
    {
      assert (r + [x])[a] == r[a];
      if b == |r| {
        assert r[a] in r;
      }
    }
  }

  lemma {:induction false} InRangeDescending(sorted: seq<int>, count: nat)
    requires Descending(sorted)
    ensures Descending(InRange(sorted, count))
    decreases |sorted|
  {
    if |sorted| > 0 {
      var init := sorted[..|sorted| - 1];
      var x := sorted[|sorted| - 1];
      assert Descending(init) by {
        forall a, b | 0 <= a < b < |init|
          ensures init[a] > init[b]
        {
          assert init[a] == sorted[a] && init[b] == sorted[b];
        }
      }
      InRangeDescending(init, count);
      var before := InRange(init, count);
      if 0 <= x < count {
        forall y | y in before
          ensures y > x
        {
          var a :| 0 <= a < |init| && init[a] == y;
          assert sorted[a] == y;
        }
        DescendingSnoc(before, x);
      }
    }
  }

  /** The order in which the named files are unlinked: existing indices from the highest down. */
  ghost function RemovalOrder(indices: set<int>, count: nat): seq<nat>
  {
    InRange(SortedDescending(indices), count)
  }

  lemma InRangeSnoc(visited: seq<int>, i: int, count: nat)
    ensures InRange(visited + [i], count) == if 0 <= i < count then InRange(visited, count) + [i] else InRange(visited, count)
  {
    assert (visited + [i])[..|visited|] == visited;
  }

  lemma ConsThenAppend(visited: seq<int>, i: int, rest: seq<int>)
    ensures visited + ([i] + rest) == (visited + [i]) + rest
  {
  }

  /**
   * The removal loop: the indices are visited in sorted(reverse=True) order, each time the largest one
   * not yet visited, and the ones naming an existing file are removed; `removedCount` counts them.
   */
  method RemoveSelected(indices: set<int>, count: nat) returns (removed: seq<nat>, removedCount: nat)
    ensures removed == RemovalOrder(indices, count)
    ensures removedCount == |removed|
  {
    var remaining := indices;
    ghost var visited: seq<int> := [];
    removed := [];
    removedCount := 0;
    while remaining != {}
      invariant SortedDescending(indices) == visited + SortedDescending(remaining)
      invariant removed == InRange(visited, count)
      invariant removedCount == |removed|
      decreases |remaining|
    {
      ghost var top := SetMax(remaining);
      var i :| i in remaining && forall x :: x in remaining ==> x <= i;
      assert i == top by {
        assert top <= i && i <= top;
      }
      ConsThenAppend(visited, i, SortedDescending(remaining - {i}));
      InRangeSnoc(visited, i, count);
      visited := visited + [i];
      remaining := remaining - {i};
      if 0 <= i < count {
        removed := removed + [i];
        removedCount := removedCount + 1;
      }
    }
    assert visited + [] == visited;
  }

  /** Exactly the selected indices that name an existing file are removed, each once, highest first. */
  lemma RemovalOrderIsExact(indices: set<int>, count: nat)
    ensures forall x :: x in RemovalOrder(indices, count) <==> x in indices && 0 <= x < count
    ensures Descending(RemovalOrder(indices, count))
    ensures |RemovalOrder(indices, count)| <= |indices|
  {
    SortedDescendingIsSorted(indices);
    InRangeDescending(SortedDescending(indices), count);
  }

  /** The first answer, stripped and lower-cased: yes removes everything, selective asks for numbers. */
  datatype Choice = Everything | Selective | Keep

  function ParseChoice(choice: string): (c: Choice)
    ensures c.Everything? <==> Lower(Strip(choice)) in ["y", "yes"]
    ensures c.Selective? <==> Lower(Strip(choice)) in ["s", "selective"]
  {
    var answer := Lower(Strip(choice));
    if answer in ["y", "yes"] then Everything
    else if answer in ["s", "selective"] then Selective
    else Keep
  }

  /** All existing files, in listing order. */
  function AllFiles(count: nat): (r: seq<nat>)
    ensures |r| == count && forall k :: 0 <= k < count ==> r[k] == k
  {
    seq(count, k => k)
  }

  /**
   * The files the two answers remove among `count` existing files, by zero-based index and in removal
   * order; an Err is the ValueError that the selective answer raises.
   */
  ghost function FilesRemoved(choice: string, answer: string, count: nat): (r: Result<seq<nat>>)
  {
    match ParseChoice(choice)
    case Everything => Ok(AllFiles(count))
    case Keep => Ok([])
    case Selective =>
      match ParseSelection(answer)
      case Err(e) => Err(e)
      case Ok(RemoveAll) => Ok(AllFiles(count))
      case Ok(RemoveNothing) => Ok([])
      case Ok(RemoveIndices(indices)) => Ok(RemovalOrder(indices, count))
  }

  /** Whatever the answers, only existing files are removed, and none of them twice. */
  lemma FilesRemovedExist(choice: string, answer: string, count: nat)
    ensures var r := FilesRemoved(choice, answer, count);
      r.Ok? ==> ((forall k :: 0 <= k < |r.value| ==> r.value[k] < count)
                 && (forall a, b :: 0 <= a < b < |r.value| ==> r.value[a] != r.value[b]))
  {
    var r := FilesRemoved(choice, answer, count);
    var selection := ParseSelection(answer);
    if r.Ok? && ParseChoice(choice).Selective? && selection.Ok? && selection.value.RemoveIndices? {
      var order := RemovalOrder(selection.value.indices, count);
      RemovalOrderIsExact(selection.value.indices, count);
      assert r.value == order;
      forall k | 0 <= k < |order|
        ensures order[k] < count
      {
        assert order[k] in order;
      }
    }
  }
}
