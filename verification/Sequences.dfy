// Sums, filters and maps over sequences, and what permuting the sequence leaves alone.
module Sequences {

  function SumBy<T>(f: T -> int, xs: seq<T>): int {
    if xs == [] then 0 else SumBy(f, xs[..|xs| - 1]) + f(xs[|xs| - 1])
  }

  function Filter<T>(p: T -> bool, xs: seq<T>): seq<T> {
    if xs == [] then []
    else
      var rest := Filter(p, xs[..|xs| - 1]);
      if p(xs[|xs| - 1]) then rest + [xs[|xs| - 1]] else rest
  }

  function Map<T, U>(f: T -> U, xs: seq<T>): (ys: seq<U>)
    ensures |ys| == |xs|
    ensures forall i :: 0 <= i < |xs| ==> ys[i] == f(xs[i])
  {
    seq(|xs|, i requires 0 <= i < |xs| => f(xs[i]))
  }

  lemma {:induction false} SumConcat<T>(f: T -> int, xs: seq<T>, ys: seq<T>)
    ensures SumBy(f, xs + ys) == SumBy(f, xs) + SumBy(f, ys)
  {
    if ys == [] {
      assert xs + ys == xs;
    } else {
      var n := |ys| - 1;
      SumConcat(f, xs, ys[..n]);
      assert (xs + ys)[..|xs + ys| - 1] == xs + ys[..n];
    }
  }

  lemma {:induction false} FilterConcat<T>(p: T -> bool, xs: seq<T>, ys: seq<T>)
    ensures Filter(p, xs + ys) == Filter(p, xs) + Filter(p, ys)
  {
    if ys == [] {
      assert xs + ys == xs;
    } else {
      var n := |ys| - 1;
      FilterConcat(p, xs, ys[..n]);
      assert (xs + ys)[..|xs + ys| - 1] == xs + ys[..n];
    }
  }

  // A filter keeps the occurrences of what it accepts and nothing else.
  lemma {:induction false} FilterOccurrences<T>(p: T -> bool, xs: seq<T>, x: T)
    ensures multiset(Filter(p, xs))[x] == if p(x) then multiset(xs)[x] else 0
  {
    if xs != [] {
      var n := |xs| - 1;
      FilterOccurrences(p, xs[..n], x);
      assert xs == xs[..n] + [xs[n]];
    }
  }

  lemma FilterPermutation<T>(p: T -> bool, xs: seq<T>, ys: seq<T>)
    requires multiset(xs) == multiset(ys)
    ensures multiset(Filter(p, xs)) == multiset(Filter(p, ys))
  {
    var left, right := multiset(Filter(p, xs)), multiset(Filter(p, ys));
    forall x | x in left + right ensures left[x] == right[x] {
      FilterOccurrences(p, xs, x);
      FilterOccurrences(p, ys, x);
    }
    assert left == right;
  }

  lemma {:induction false} FilterAll<T>(p: T -> bool, xs: seq<T>)
    requires forall x :: x in xs ==> p(x)
    ensures Filter(p, xs) == xs
  {
    if xs != [] {
      FilterAll(p, xs[..|xs| - 1]);
    }
  }

  lemma {:induction false} FilterNone<T>(p: T -> bool, xs: seq<T>)
    requires forall x :: x in xs ==> !p(x)
    ensures Filter(p, xs) == []
  {
    if xs != [] {
      FilterNone(p, xs[..|xs| - 1]);
    }
  }

  // Dropping elements of no negative weight does not raise a sum.
  lemma {:induction false} SumFiltered<T>(f: T -> int, p: T -> bool, xs: seq<T>)
    requires forall x :: x in xs ==> f(x) >= 0
    ensures 0 <= SumBy(f, Filter(p, xs)) <= SumBy(f, xs)
  {
    if xs != [] {
      SumFiltered(f, p, xs[..|xs| - 1]);
    }
  }

  lemma MapConcat<T, U>(f: T -> U, xs: seq<T>, ys: seq<T>)
    ensures Map(f, xs + ys) == Map(f, xs) + Map(f, ys)
  {}

  // All but the i-th element.
  function Without<T>(xs: seq<T>, i: nat): seq<T>
    requires i < |xs|
  {
    xs[..i] + xs[i + 1..]
  }

  lemma Rejoin<T>(xs: seq<T>, i: nat)
    requires i < |xs|
    ensures xs[..i] + [xs[i]] + xs[i + 1..] == xs
  {}

  lemma Extract<T>(xs: seq<T>, i: nat)
    requires i < |xs|
    ensures multiset(xs) == multiset(Without(xs, i)) + multiset{xs[i]}
  {
    Rejoin(xs, i);
  }

  lemma SumMiddle<T>(f: T -> int, before: seq<T>, x: T, after: seq<T>)
    ensures SumBy(f, before + [x] + after) == SumBy(f, before + after) + f(x)
  {
    SumConcat(f, before + [x], after);
    SumConcat(f, before, [x]);
    SumConcat(f, before, after);
  }

  lemma SumExtract<T>(f: T -> int, xs: seq<T>, i: nat)
    requires i < |xs|
    ensures SumBy(f, xs) == SumBy(f, Without(xs, i)) + f(xs[i])
  {
    Rejoin(xs, i);
    SumMiddle(f, xs[..i], xs[i], xs[i + 1..]);
  }

  // Two orders of the same elements: drop the last of one and find it in the other.
  lemma Match<T>(xs: seq<T>, ys: seq<T>) returns (i: nat)
    requires multiset(xs) == multiset(ys) && xs != []
    ensures i < |ys| && ys[i] == xs[|xs| - 1]
    ensures multiset(xs[..|xs| - 1]) == multiset(Without(ys, i))
  {
    var x := xs[|xs| - 1];
    assert xs == xs[..|xs| - 1] + [x];
    assert x in multiset(ys);
    i :| 0 <= i < |ys| && ys[i] == x;
    Extract(ys, i);
    assert multiset(xs[..|xs| - 1]) == multiset(xs) - multiset{x};
  }

  lemma {:induction false} SumPermutation<T>(f: T -> int, xs: seq<T>, ys: seq<T>)
    requires multiset(xs) == multiset(ys)
    ensures SumBy(f, xs) == SumBy(f, ys)
    decreases |xs|
  {
    if xs == [] {
      assert |multiset(ys)| == 0;
    } else {
      var i := Match(xs, ys);
      SumPermutation(f, xs[..|xs| - 1], Without(ys, i));
      SumExtract(f, ys, i);
    }
  }

  lemma {:induction false} MapPermutation<T, U>(f: T -> U, xs: seq<T>, ys: seq<T>)
    requires multiset(xs) == multiset(ys)
    ensures multiset(Map(f, xs)) == multiset(Map(f, ys))
    decreases |xs|
  {
    if xs == [] {
      assert |multiset(ys)| == 0;
    } else {
      var i := Match(xs, ys);
      var n := |xs| - 1;
      MapPermutation(f, xs[..n], Without(ys, i));
      assert Map(f, xs) == Map(f, xs[..n]) + [f(xs[n])];
      Extract(Map(f, ys), i);
      assert Map(f, Without(ys, i)) == Without(Map(f, ys), i);
    }
  }
}
