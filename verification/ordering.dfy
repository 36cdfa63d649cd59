/**
 Newest-first ordering, as requested from the database with
 `sort({ createdAt: -1 })` and done in the client with `Array.prototype.sort`.
 The sort is an insertion sort that keeps documents with equal keys in their
 original order; the database does not promise any particular order among
 equal timestamps, so only sortedness and permutation are part of the
 contract.
 */
module Ordering {

  /** Keys never increase from left to right. */
  ghost predicate SortedDesc<T>(xs: seq<T>, key: T -> int)
  {
    forall i, j :: 0 <= i < j < |xs| ==> key(xs[i]) >= key(xs[j])
  }

  /** Inserts `x` in front of the first element whose key is not larger. */
  function InsertDesc<T(!new)>(x: T, xs: seq<T>, key: T -> int): (r: seq<T>)
    requires SortedDesc(xs, key)
    ensures SortedDesc(r, key)
    ensures multiset(r) == multiset(xs) + multiset{x}
  {
    if |xs| == 0 || key(xs[0]) <= key(x) then
      ConsSorted(x, xs, key);
      [x] + xs
    else
      var rest := InsertDesc(x, xs[1..], key);
      InsertBound(x, xs[1..], rest, key, key(xs[0]));
      ConsSorted(xs[0], rest, key);
      assert xs == [xs[0]] + xs[1..];
      [xs[0]] + rest
  }

  /** A head whose key bounds the first key of a sorted list keeps it sorted. */
  lemma ConsSorted<T>(h: T, xs: seq<T>, key: T -> int)
    requires SortedDesc(xs, key)
    requires forall j :: 0 <= j < |xs| ==> key(xs[j]) <= key(h)
    ensures SortedDesc([h] + xs, key)
  {
    var r := [h] + xs;
    forall i, j | 0 <= i < j < |r|
      ensures key(r[i]) >= key(r[j])
    {
      assert r[j] == xs[j - 1];
      if i > 0 {
        assert r[i] == xs[i - 1];
      }
    }
  }

  /** Nothing in a permutation of `xs` plus `x` exceeds a bound that `x` and all of `xs` respect. */
  lemma InsertBound<T(!new)>(x: T, xs: seq<T>, r: seq<T>, key: T -> int, bound: int)
    requires multiset(r) == multiset(xs) + multiset{x}
    requires key(x) <= bound
    requires forall j :: 0 <= j < |xs| ==> key(xs[j]) <= bound
    ensures forall j :: 0 <= j < |r| ==> key(r[j]) <= bound
  {
    forall j | 0 <= j < |r|
      ensures key(r[j]) <= bound
    {
      var y := r[j];
      assert multiset(r)[y] > 0;
      if y != x {
        assert y in xs;
      }
    }
  }

  /** The elements of `xs`, newest (largest key) first. */
  function SortDesc<T(!new)>(xs: seq<T>, key: T -> int): (r: seq<T>)
    ensures SortedDesc(r, key)
    ensures multiset(r) == multiset(xs)
    ensures |r| == |xs|
  {
    if |xs| == 0 then []
    else
      assert xs == [xs[0]] + xs[1..];
      InsertDesc(xs[0], SortDesc(xs[1..], key), key)
  }
}
