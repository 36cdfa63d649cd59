/**
 List operations that both halves of the system perform on collections of
 documents: `findIndex` by key, replacing the first match, `filter`, and the
 uniqueness of document ids that the database guarantees.
 Every operation is generic in the document type and takes the key
 (usually the `_id` field) as a function.
 */
module Docs {
  import opened Common

  /** No two documents share a key: the database's unique `_id` index. */
  ghost predicate UniqueKeys<T, K>(xs: seq<T>, key: T -> K)
  {
    forall i, j :: 0 <= i < j < |xs| ==> key(xs[i]) != key(xs[j])
  }

  /** `xs.findIndex(x => key(x) === k)`, with `-1` written as `None`. */
  function FirstIndex<T, K(==)>(xs: seq<T>, key: T -> K, k: K): (r: Option<nat>)
    ensures r.Some? ==> r.value < |xs| && key(xs[r.value]) == k
    ensures r.Some? ==> forall j :: 0 <= j < r.value ==> key(xs[j]) != k
    ensures r.None? <==> forall j :: 0 <= j < |xs| ==> key(xs[j]) != k
  {
    if |xs| == 0 then None
    else if key(xs[0]) == k then Some(0)
    else match FirstIndex(xs[1..], key, k)
      case None => None
      case Some(i) => Some(i + 1)
  }

  /** The document with key `k`, if any (`findById`). */
  function Find<T, K(==)>(xs: seq<T>, key: T -> K, k: K): (r: Option<T>)
    ensures r.Some? <==> exists j :: 0 <= j < |xs| && key(xs[j]) == k
    ensures r.Some? ==> r.value in xs && key(r.value) == k
  {
    match FirstIndex(xs, key, k)
    case None => None
    case Some(i) => Some(xs[i])
  }

  /** With unique keys, the document found is the one at any index holding the key. */
  lemma FindUnique<T, K>(xs: seq<T>, key: T -> K, i: nat)
    requires UniqueKeys(xs, key)
    requires i < |xs|
    ensures Find(xs, key, key(xs[i])) == Some(xs[i])
  {
    assert key(xs[i]) == key(xs[i]);
  }

  /**
   Replaces the first document whose key is `k` by `v`; the list is unchanged
   when there is none. Defined by walking the list; the contract ties it to
   `findIndex` followed by an index assignment, as the client stores do it.
   */
  function ReplaceFirst<T, K(==)>(xs: seq<T>, key: T -> K, k: K, v: T): (r: seq<T>)
    ensures |r| == |xs|
    ensures FirstIndex(xs, key, k).None? ==> r == xs
    ensures FirstIndex(xs, key, k).Some? ==> r == xs[FirstIndex(xs, key, k).value := v]
  {
    if |xs| == 0 then []
    else if key(xs[0]) == k then [v] + xs[1..]
    else [xs[0]] + ReplaceFirst(xs[1..], key, k, v)
  }

  /**
   After replacing the first document with key `k` by one with the same key,
   looking the key up finds the replacement.
   */
  lemma FindAfterReplace<T, K>(xs: seq<T>, key: T -> K, k: K, v: T)
    requires FirstIndex(xs, key, k).Some? && key(v) == k
    ensures Find(ReplaceFirst(xs, key, k, v), key, k) == Some(v)
  {
    var i := FirstIndex(xs, key, k).value;
    var r := ReplaceFirst(xs, key, k, v);
    forall j | 0 <= j < i
      ensures key(r[j]) != k
    {
      assert r[j] == xs[j];
    }
    assert r[i] == v;
    assert FirstIndex(r, key, k) == Some(i);
  }

  /** `xs.filter(p)`: the elements satisfying `p`, each as often as in `xs`. */
  function Filter<T(==,!new)>(xs: seq<T>, p: T -> bool): (r: seq<T>)
    ensures |r| <= |xs|
    ensures forall i :: 0 <= i < |r| ==> p(r[i])
    ensures forall x :: multiset(r)[x] == if p(x) then multiset(xs)[x] else 0
  {
    if |xs| == 0 then []
    else
      assert xs == [xs[0]] + xs[1..];
      if p(xs[0]) then [xs[0]] + Filter(xs[1..], p) else Filter(xs[1..], p)
  }

  /** Filtering keeps the relative order: it distributes over concatenation. */
  lemma {:induction false} FilterAppend<T(!new)>(a: seq<T>, b: seq<T>, p: T -> bool)
    ensures Filter(a + b, p) == Filter(a, p) + Filter(b, p)
  {
    if |a| == 0 {
      assert a + b == b;
    } else {
      assert (a + b)[0] == a[0];
      assert (a + b)[1..] == a[1..] + b;
      FilterAppend(a[1..], b, p);
    }
  }

  /**
   A one-element list keeps its element exactly when it passes. With
   `FilterAppend` this determines `Filter` on every list: the kept elements
   stay in their original order.
   */
  lemma FilterSingleton<T(!new)>(x: T, p: T -> bool)
    ensures Filter([x], p) == if p(x) then [x] else []
  {
    assert [x][1..] == [];
  }

  /** Filtering a list whose elements all pass is the identity. */
  lemma {:induction false} FilterAll<T(!new)>(xs: seq<T>, p: T -> bool)
    requires forall i :: 0 <= i < |xs| ==> p(xs[i])
    ensures Filter(xs, p) == xs
  {
    if |xs| > 0 {
      FilterAll(xs[1..], p);
    }
  }

  /** Every element of a filtered list comes from the original list. */
  lemma FilterSubset<T(!new)>(xs: seq<T>, p: T -> bool, y: T)
    requires y in Filter(xs, p)
    ensures y in xs
  {
    assert multiset(Filter(xs, p))[y] > 0;
  }

  /** Filtering never introduces a duplicate key. */
  lemma {:induction false} FilterUnique<T(!new), K>(xs: seq<T>, p: T -> bool, key: T -> K)
    requires UniqueKeys(xs, key)
    ensures UniqueKeys(Filter(xs, p), key)
  {
    if |xs| > 0 {
      var tail := xs[1..];
      FilterUnique(tail, p, key);
      if p(xs[0]) {
        FilterKeepsFresh(xs, p, key);
        PrependUnique(xs[0], Filter(tail, p), key);
        assert Filter(xs, p) == [xs[0]] + Filter(tail, p);
      }
    }
  }

  /** The first key of a list with unique keys is not found in the filtered rest. */
  lemma FilterKeepsFresh<T(!new), K>(xs: seq<T>, p: T -> bool, key: T -> K)
    requires UniqueKeys(xs, key) && |xs| > 0
    ensures forall j :: 0 <= j < |Filter(xs[1..], p)| ==> key(Filter(xs[1..], p)[j]) != key(xs[0])
  {
    var tail := xs[1..];
    var rest := Filter(tail, p);
    forall j | 0 <= j < |rest|
      ensures key(rest[j]) != key(xs[0])
    {
      FilterSubset(tail, p, rest[j]);
      var m :| 0 <= m < |tail| && tail[m] == rest[j];
      assert xs[m + 1] == rest[j];
    }
  }

  /** Putting a document with a fresh key in front keeps the keys unique. */
  lemma PrependUnique<T, K>(v: T, xs: seq<T>, key: T -> K)
    requires UniqueKeys(xs, key)
    requires forall j :: 0 <= j < |xs| ==> key(xs[j]) != key(v)
    ensures UniqueKeys([v] + xs, key)
  {
    var r := [v] + xs;
    forall i, j | 0 <= i < j < |r|
      ensures key(r[i]) != key(r[j])
    {
      assert r[j] == xs[j - 1];
      if i > 0 {
        assert r[i] == xs[i - 1];
      }
    }
  }

  /** In a list with distinct keys, the key of the i-th element is first found at i. */
  lemma FirstIndexOfUnique<T, K>(xs: seq<T>, key: T -> K, i: nat)
    requires UniqueKeys(xs, key) && i < |xs|
    ensures FirstIndex(xs, key, key(xs[i])) == Some(i)
  {
    var r := FirstIndex(xs, key, key(xs[i]));
    assert r.Some?;
    assert key(xs[r.value]) == key(xs[i]);
  }

  /** Appending a document with a fresh key keeps the keys unique. */
  lemma AppendUnique<T, K>(xs: seq<T>, v: T, key: T -> K)
    requires UniqueKeys(xs, key)
    requires forall j :: 0 <= j < |xs| ==> key(xs[j]) != key(v)
    ensures UniqueKeys(xs + [v], key)
  {
    var r := xs + [v];
    forall i, j | 0 <= i < j < |r|
      ensures key(r[i]) != key(r[j])
    {
      assert r[i] == xs[i];
      if j < |xs| {
        assert r[j] == xs[j];
      }
    }
  }

  /** Replacing a document by one with the same key keeps the keys unique. */
  lemma ReplaceUnique<T, K>(xs: seq<T>, key: T -> K, i: nat, v: T)
    requires UniqueKeys(xs, key)
    requires i < |xs| && key(v) == key(xs[i])
    ensures UniqueKeys(xs[i := v], key)
  {
    var r := xs[i := v];
    forall a, b | 0 <= a < b < |r|
      ensures key(r[a]) != key(r[b])
    {
      assert key(r[a]) == key(xs[a]) && key(r[b]) == key(xs[b]);
    }
  }
}
