/** List operations that stand for the WHERE, ORDER BY and LIMIT of the store's queries. */
module Sequences {

  function Filter<T(!new)>(xs: seq<T>, keep: T -> bool): (r: seq<T>)
    ensures |r| <= |xs|
    ensures forall x :: x in r <==> x in xs && keep(x)
  {
    if xs == [] then []
    else
      var last := xs[|xs| - 1];
      Filter(xs[..|xs| - 1], keep) + if keep(last) then [last] else []
  }

  function Reverse<T>(xs: seq<T>): (r: seq<T>)
    ensures |r| == |xs|
    ensures forall k :: 0 <= k < |xs| ==> r[k] == xs[|xs| - 1 - k]
  {
    if xs == [] then [] else [xs[|xs| - 1]] + Reverse(xs[..|xs| - 1])
  }

  /** SQLite reads a negative LIMIT as no limit. */
  function Limit<T>(xs: seq<T>, limit: int): seq<T> {
    if 0 <= limit < |xs| then xs[..limit] else xs
  }

  lemma {:induction false} FilterAppend<T(!new)>(xs: seq<T>, ys: seq<T>, keep: T -> bool)
    ensures Filter(xs + ys, keep) == Filter(xs, keep) + Filter(ys, keep)
  {
    if ys == [] {
      assert xs + ys == xs;
    } else {
      var front := ys[..|ys| - 1];
      assert (xs + ys)[..|xs + ys| - 1] == xs + front;
      FilterAppend(xs, front, keep);
    }
  }

  lemma FilterSkips<T(!new)>(before: seq<T>, x: T, after: seq<T>, keep: T -> bool)
    requires !keep(x)
    ensures Filter(before + [x] + after, keep) == Filter(before + after, keep)
  {
    FilterAppend(before + [x], after, keep);
    FilterAppend(before, after, keep);
    assert (before + [x])[..|before|] == before;
  }

  lemma {:induction false} FilterAgree<T(!new)>(xs: seq<T>, keep: T -> bool, also: T -> bool)
    requires forall x :: x in xs ==> keep(x) == also(x)
    ensures Filter(xs, keep) == Filter(xs, also)
  {
    if xs != [] {
      FilterAgree(xs[..|xs| - 1], keep, also);
    }
  }
}
