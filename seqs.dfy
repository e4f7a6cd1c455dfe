/** Sequence helpers shared by the services: an order-preserving filter, a
    sum, and the stable sort that both `Array.prototype.sort` (stable since
    ECMAScript 2019) and the document store's `$sort` stage are modelled by.

    The sort works on INDICES: `DescendingOrder(keys)` lists 0..|keys|-1 so
    that larger keys come first and equal keys keep their input order.  That
    order is a strict total order on indices, so the result is unique. */
module Seqs {

  /** Keeps the elements satisfying `p`, in order (JavaScript's `filter`). */
  function Filter<T>(s: seq<T>, p: T -> bool): (r: seq<T>)
    ensures |r| <= |s|
  {
    if s == [] then []
    else Filter(s[..|s| - 1], p) + (if p(s[|s| - 1]) then [s[|s| - 1]] else [])
  }

  /** The filter keeps exactly the elements satisfying `p`. */
  lemma {:induction false} FilterMembers<T(!new)>(s: seq<T>, p: T -> bool)
    ensures forall x :: x in Filter(s, p) <==> x in s && p(x)
    ensures forall i :: 0 <= i < |Filter(s, p)| ==> p(Filter(s, p)[i])
  {
    if s != [] {
      var s' := s[..|s| - 1];
      assert s == s' + [s[|s| - 1]];
      FilterMembers(s', p);
    }
  }

  /** The filter keeps every copy of an element satisfying `p` and no copy
      of any other. */
  lemma {:induction false} FilterMultiset<T>(s: seq<T>, p: T -> bool)
    ensures forall x :: multiset(Filter(s, p))[x] == if p(x) then multiset(s)[x] else 0
  {
    if s != [] {
      var s' := s[..|s| - 1];
      assert s == s' + [s[|s| - 1]];
      FilterMultiset(s', p);
    }
  }

  /** Nothing is dropped when every element satisfies `p`. */
  lemma {:induction false} FilterKeepsAll<T>(s: seq<T>, p: T -> bool)
    requires forall i :: 0 <= i < |s| ==> p(s[i])
    ensures Filter(s, p) == s
  {
    if s != [] {
      var s' := s[..|s| - 1];
      assert s == s' + [s[|s| - 1]];
      FilterKeepsAll(s', p);
    }
  }

  /** Filtering a sequence extended by one element. */
  lemma FilterSnoc<T(!new)>(s: seq<T>, x: T, p: T -> bool)
    ensures Filter(s + [x], p) == Filter(s, p) + (if p(x) then [x] else [])
  {
    assert (s + [x])[..|s + [x]| - 1] == s;
  }

  /** The filter keeps order: the kept elements of a prefix come first. */
  lemma {:induction false} FilterAppend<T(!new)>(s: seq<T>, t: seq<T>, p: T -> bool)
    ensures Filter(s + t, p) == Filter(s, p) + Filter(t, p)
    decreases |t|
  {
    if t == [] {
      assert s + t == s;
    } else {
      var t' := t[..|t| - 1];
      var x := t[|t| - 1];
      assert t == t' + [x];
      assert s + t == (s + t') + [x];
      FilterAppend(s, t', p);
      FilterSnoc(s + t', x, p);
      FilterSnoc(t', x, p);
    }
  }

  /** A filter and its complement split the sequence between them. */
  lemma {:induction false} FilterPartition<T>(s: seq<T>, p: T -> bool, q: T -> bool)
    requires forall x :: q(x) == !p(x)
    ensures |Filter(s, p)| + |Filter(s, q)| == |s|
  {
    if s != [] {
      FilterPartition(s[..|s| - 1], p, q);
    }
  }

  /** The first kept element is the first element satisfying `p`. */
  lemma {:induction false} FilterFirst<T>(s: seq<T>, p: T -> bool, k: nat)
    requires k < |s| && p(s[k]) && forall j :: 0 <= j < k ==> !p(s[j])
    ensures |Filter(s, p)| > 0 && Filter(s, p)[0] == s[k]
  {
    var s' := s[..|s| - 1];
    if k < |s| - 1 {
      FilterFirst(s', p, k);
    } else {
      FilterNone(s', p);
    }
  }

  /** Nothing is kept when no element satisfies `p`. */
  lemma {:induction false} FilterNone<T>(s: seq<T>, p: T -> bool)
    requires forall j :: 0 <= j < |s| ==> !p(s[j])
    ensures Filter(s, p) == []
  {
    if s != [] {
      FilterNone(s[..|s| - 1], p);
    }
  }

  lemma AppendAssociative<T>(a: seq<T>, b: seq<T>, c: seq<T>, d: seq<T>)
    ensures a + b + c + d == a + (b + c + d)
  {
  }

  function Sum(s: seq<int>): int {
    if s == [] then 0 else Sum(s[..|s| - 1]) + s[|s| - 1]
  }

  /** 0, 1, ..., n-1 */
  function Range(n: nat): (r: seq<nat>)
    ensures |r| == n
    ensures forall i :: 0 <= i < n ==> r[i] == i
  {
    seq(n, i requires 0 <= i < n => i)
  }

  lemma InRange(n: nat, x: nat)
    ensures x in multiset(Range(n)) <==> x < n
  {
    if x < n {
      assert Range(n)[x] == x;
    }
  }

  /** Index a comes before index b: larger key first, ties by position. */
  predicate Precedes(keys: seq<int>, a: nat, b: nat)
    requires a < |keys| && b < |keys|
  {
    keys[a] > keys[b] || (keys[a] == keys[b] && a < b)
  }

  /** Every element is an index of `keys`, and the sequence is strictly
      increasing in the `Precedes` order (so, in particular, duplicate-free). */
  predicate OrderedBy(keys: seq<int>, r: seq<nat>) {
    && Indices(keys, r)
    && (forall i, j :: 0 <= i < j < |r| ==> Precedes(keys, r[i], r[j]))
  }

  /** Every element indexes `keys`. */
  predicate Indices(keys: seq<int>, r: seq<nat>) {
    forall i :: 0 <= i < |r| ==> r[i] < |keys|
  }

  function InsertByKey(keys: seq<int>, x: nat, r: seq<nat>): (r': seq<nat>)
    requires x < |keys| && Indices(keys, r)
    ensures Indices(keys, r')
    ensures multiset(r') == multiset(r) + multiset{x}
  {
    if r == [] then [x]
    else if Precedes(keys, x, r[0]) then [x] + r
    else
      assert r == [r[0]] + r[1..];
      [r[0]] + InsertByKey(keys, x, r[1..])
  }

  lemma {:induction false} InsertOrdered(keys: seq<int>, x: nat, r: seq<nat>)
    requires x < |keys| && OrderedBy(keys, r) && x !in r
    ensures OrderedBy(keys, InsertByKey(keys, x, r))
  {
    if r == [] {
    } else if Precedes(keys, x, r[0]) {
      forall k | 0 <= k < |r| ensures Precedes(keys, x, r[k]) {
        if k > 0 {
          assert Precedes(keys, r[0], r[k]);
        }
      }
      ConsOrdered(keys, x, r);
    } else {
      var tail := InsertByKey(keys, x, r[1..]);
      InsertOrdered(keys, x, r[1..]);
      assert Precedes(keys, r[0], x);
      forall k | 0 <= k < |tail| ensures Precedes(keys, r[0], tail[k]) {
        assert tail[k] in multiset(tail);
        if tail[k] != x {
          assert tail[k] in r[1..];
        }
      }
      ConsOrdered(keys, r[0], tail);
    }
  }

  /** An index that precedes every element of an ordered sequence can go in
      front of it. */
  lemma ConsOrdered(keys: seq<int>, a: nat, r: seq<nat>)
    requires a < |keys| && OrderedBy(keys, r)
    requires forall k :: 0 <= k < |r| ==> Precedes(keys, a, r[k])
    ensures OrderedBy(keys, [a] + r)
  {
    var res := [a] + r;
    forall i, j | 0 <= i < j < |res| ensures Precedes(keys, res[i], res[j]) {
      assert res[j] == r[j - 1];
      if i > 0 {
        assert res[i] == r[i - 1];
      }
    }
  }

  /** Inserting index k - 1 into the order of the first k - 1 indices gives
      the order of the first k. */
  lemma InsertNext(keys: seq<int>, k: nat, prev: seq<nat>)
    requires 0 < k <= |keys| && OrderedBy(keys, prev) && multiset(prev) == multiset(Range(k - 1))
    ensures OrderedBy(keys, InsertByKey(keys, k - 1, prev))
    ensures multiset(InsertByKey(keys, k - 1, prev)) == multiset(Range(k))
  {
    InRange(k - 1, k - 1);
    assert k - 1 !in prev by {
      assert k - 1 !in multiset(prev);
    }
    assert Range(k) == Range(k - 1) + [k - 1];
    var last: nat := k - 1;
    assert multiset(Range(k)) == multiset(Range(k - 1)) + multiset{last};
    InsertOrdered(keys, k - 1, prev);
  }

  function SortUpTo(keys: seq<int>, k: nat): (r: seq<nat>)
    requires k <= |keys|
    ensures OrderedBy(keys, r)
    ensures multiset(r) == multiset(Range(k))
  {
    if k == 0 then []
    else
      var prev := SortUpTo(keys, k - 1);
      InsertNext(keys, k, prev);
      InsertByKey(keys, k - 1, prev)
  }

  /** The stable descending order of `keys`: a permutation of the indices,
      larger keys first, equal keys in input order. */
  function DescendingOrder(keys: seq<int>): (r: seq<nat>)
    ensures |r| == |keys|
    ensures Indices(keys, r)
    ensures forall j :: 0 <= j < |keys| ==> j in r
  {
    var r := SortUpTo(keys, |keys|);
    assert |r| == |multiset(r)| == |multiset(Range(|keys|))| == |keys|;
    forall j | 0 <= j < |keys| ensures j in r {
      InRange(|keys|, j);
      assert j in multiset(r);
    }
    r
  }

  /** The order is a genuine sort: keys never increase along it, and equal
      keys appear in their input order. */
  lemma DescendingOrderSorted(keys: seq<int>, i: nat, j: nat)
    requires i < j < |keys|
    ensures var r := DescendingOrder(keys);
      keys[r[i]] >= keys[r[j]] && (keys[r[i]] == keys[r[j]] ==> r[i] < r[j])
  {
    assert OrderedBy(keys, SortUpTo(keys, |keys|));
  }

  /** Positions of the order are distinct indices. */
  lemma DescendingOrderInjective(keys: seq<int>, i: nat, j: nat)
    requires i < |keys| && j < |keys| && i != j
    ensures DescendingOrder(keys)[i] != DescendingOrder(keys)[j]
  {
    var r := DescendingOrder(keys);
    assert OrderedBy(keys, r) by {
      assert r == SortUpTo(keys, |keys|);
    }
    if i < j { assert Precedes(keys, r[i], r[j]); } else { assert Precedes(keys, r[j], r[i]); }
  }

  /** The first n elements of `s` in the stable descending order of `keys`
      (one key per element). */
  function TopByKey<T>(s: seq<T>, keys: seq<int>, n: nat): (r: seq<T>)
    requires |keys| == |s| && n <= |s|
    ensures |r| == n
    ensures forall i :: 0 <= i < n ==> r[i] == s[DescendingOrder(keys)[i]]
  {
    var ord := DescendingOrder(keys);
    seq(n, i requires 0 <= i < n => s[ord[i]])
  }

  /** Only elements of `s` are kept, and all of them when n == |s|. */
  lemma TopByKeyMembers<T>(s: seq<T>, keys: seq<int>, n: nat, x: T)
    requires |keys| == |s| && n <= |s|
    ensures x in TopByKey(s, keys, n) ==> x in s
    ensures n == |s| && x in s ==> x in TopByKey(s, keys, n)
  {
    var r := TopByKey(s, keys, n);
    var ord := DescendingOrder(keys);
    if x in r {
      var i :| 0 <= i < n && r[i] == x;
      assert s[ord[i]] == x;
    }
    if n == |s| && x in s {
      var j :| 0 <= j < |s| && s[j] == x;
      assert j in ord;
      var i :| 0 <= i < |ord| && ord[i] == j;
      assert r[i] == x;
    }
  }

  /** The elements of `s` at the positions `ord` lists, in that order. */
  function Pick<T>(s: seq<T>, ord: seq<nat>): (r: seq<T>)
    requires forall i :: 0 <= i < |ord| ==> ord[i] < |s|
    ensures |r| == |ord|
  {
    seq(|ord|, i requires 0 <= i < |ord| => s[ord[i]])
  }

  lemma PickAt<T>(s: seq<T>, ord: seq<nat>, i: nat)
    requires (forall k :: 0 <= k < |ord| ==> ord[k] < |s|) && i < |ord|
    ensures Pick(s, ord)[i] == s[ord[i]]
  {
  }

  lemma PickCons<T>(s: seq<T>, a: nat, r: seq<nat>)
    requires a < |s| && forall k :: 0 <= k < |r| ==> r[k] < |s|
    ensures Pick(s, [a] + r) == [s[a]] + Pick(s, r)
  {
  }

  /** Inserting an index adds its element to what the order picks. */
  lemma {:induction false} PickInsert<T>(s: seq<T>, keys: seq<int>, x: nat, r: seq<nat>)
    requires |keys| == |s| && x < |keys| && Indices(keys, r)
    ensures multiset(Pick(s, InsertByKey(keys, x, r))) == multiset(Pick(s, r)) + multiset{s[x]}
  {
    if r == [] {
      assert InsertByKey(keys, x, r) == [x] + [];
      PickCons(s, x, []);
    } else {
      assert r == [r[0]] + r[1..];
      PickCons(s, r[0], r[1..]);
      if Precedes(keys, x, r[0]) {
        PickCons(s, x, r);
      } else {
        var tail := InsertByKey(keys, x, r[1..]);
        PickInsert(s, keys, x, r[1..]);
        PickCons(s, r[0], tail);
      }
    }
  }

  /** The order of the first k indices picks exactly the first k elements. */
  lemma {:induction false} PickSortUpTo<T>(s: seq<T>, keys: seq<int>, k: nat)
    requires |keys| == |s| && k <= |s|
    ensures multiset(Pick(s, SortUpTo(keys, k))) == multiset(s[..k])
  {
    if k > 0 {
      PickSortUpTo(s, keys, k - 1);
      PickStep(s, keys, k, SortUpTo(keys, k - 1));
    }
  }

  lemma PickStep<T>(s: seq<T>, keys: seq<int>, k: nat, prev: seq<nat>)
    requires |keys| == |s| && 0 < k <= |s| && Indices(keys, prev)
    requires multiset(Pick(s, prev)) == multiset(s[..k - 1])
    ensures multiset(Pick(s, InsertByKey(keys, k - 1, prev))) == multiset(s[..k])
  {
    var ins := InsertByKey(keys, k - 1, prev);
    PickInsert(s, keys, k - 1, prev);
    SnocMultiset(s, k);
    AddSame(multiset(Pick(s, ins)), multiset(Pick(s, prev)), multiset(s[..k - 1]), multiset(s[..k]), s[k - 1]);
  }

  lemma AddSame<T>(a: multiset<T>, b: multiset<T>, c: multiset<T>, d: multiset<T>, x: T)
    requires a == b + multiset{x} && b == c && d == c + multiset{x}
    ensures a == d
  {
  }

  lemma SnocMultiset<T>(s: seq<T>, k: nat)
    requires 0 < k <= |s|
    ensures multiset(s[..k]) == multiset(s[..k - 1]) + multiset{s[k - 1]}
  {
    assert s[..k] == s[..k - 1] + [s[k - 1]];
  }

  lemma PrefixMultiset<T>(s: seq<T>, n: nat)
    requires n <= |s|
    ensures multiset(s[..n]) <= multiset(s)
  {
    assert s == s[..n] + s[n..];
  }

  /** TopByKey picks a prefix of the full order. */
  lemma TopByKeyPrefix<T>(s: seq<T>, keys: seq<int>, n: nat)
    requires |keys| == |s| && n <= |s|
    ensures TopByKey(s, keys, n) == Pick(s, DescendingOrder(keys))[..n]
  {
    var ord := DescendingOrder(keys);
    forall i | 0 <= i < n ensures Pick(s, ord)[i] == TopByKey(s, keys, n)[i] {
      PickAt(s, ord, i);
    }
  }

  /** TopByKey keeps elements of `s` only, never more copies than `s` has,
      and all of them when n == |s|. */
  lemma TopByKeyMultiset<T>(s: seq<T>, keys: seq<int>, n: nat)
    requires |keys| == |s| && n <= |s|
    ensures multiset(TopByKey(s, keys, n)) <= multiset(s)
    ensures n == |s| ==> multiset(TopByKey(s, keys, n)) == multiset(s)
  {
    var all := Pick(s, DescendingOrder(keys));
    assert DescendingOrder(keys) == SortUpTo(keys, |keys|);
    PickSortUpTo(s, keys, |s|);
    assert s[..|s|] == s;
    TopByKeyPrefix(s, keys, n);
    PrefixMultiset(all, n);
    assert all[..|all|] == all;
  }

  /** An element left out by TopByKey has a key no larger than the last
      element kept. */
  lemma TopByKeyRest<T>(s: seq<T>, keys: seq<int>, n: nat, k: nat)
    requires |keys| == |s| && 0 < n <= |s| && k < |s| && s[k] !in TopByKey(s, keys, n)
    ensures keys[k] <= keys[DescendingOrder(keys)[n - 1]]
  {
    var ord := DescendingOrder(keys);
    assert k in ord;
    var pos :| 0 <= pos < |ord| && ord[pos] == k;
    if pos >= n {
      DescendingOrderSorted(keys, n - 1, pos);
    }
  }

  /** Keys never increase along the kept elements. */
  lemma TopByKeySorted<T>(s: seq<T>, keys: seq<int>, n: nat, i: nat, j: nat)
    requires |keys| == |s| && i < j < n <= |s|
    ensures var ord := DescendingOrder(keys);
      TopByKey(s, keys, n)[i] == s[ord[i]] && TopByKey(s, keys, n)[j] == s[ord[j]]
      && keys[ord[i]] >= keys[ord[j]]
  {
    DescendingOrderSorted(keys, i, j);
  }

  /** `s.map(f)` */
  function Map<T, U>(s: seq<T>, f: T -> U): (r: seq<U>)
    ensures |r| == |s|
    ensures forall i :: 0 <= i < |s| ==> r[i] == f(s[i])
  {
    seq(|s|, i requires 0 <= i < |s| => f(s[i]))
  }

  /** The concatenation of `f(x)` over the elements `x` of `s`, in order. */
  function FlatMap<T, U>(s: seq<T>, f: T -> seq<U>): seq<U> {
    if s == [] then [] else FlatMap(s[..|s| - 1], f) + f(s[|s| - 1])
  }

  /** If every `f(x)` has between lo and hi elements, the concatenation has
      between lo and hi elements per element of `s`. */
  lemma {:induction false} FlatMapBounds<T, U>(s: seq<T>, f: T -> seq<U>, lo: nat, hi: nat)
    requires forall i :: 0 <= i < |s| ==> lo <= |f(s[i])| <= hi
    ensures lo * |s| <= |FlatMap(s, f)| <= hi * |s|
  {
    if s != [] {
      var s' := s[..|s| - 1];
      FlatMapBounds(s', f, lo, hi);
      assert lo * |s| == lo * |s'| + lo && hi * |s| == hi * |s'| + hi;
    }
  }

  /** FlatMap distributes over concatenation. */
  lemma {:induction false} FlatMapAppend<T, U>(a: seq<T>, b: seq<T>, f: T -> seq<U>)
    ensures FlatMap(a + b, f) == FlatMap(a, f) + FlatMap(b, f)
    decreases |b|
  {
    if b == [] {
      assert a + b == a;
    } else {
      var b' := b[..|b| - 1];
      FlatMapAppend(a, b', f);
      assert (a + b)[..|a + b| - 1] == a + b';
    }
  }

  /** Pushes `f(x)` for each `x` of `s`, in order, onto `acc`. */
  method AppendMapped<T, U>(acc: seq<U>, s: seq<T>, f: T -> U) returns (r: seq<U>)
    ensures r == acc + Map(s, f)
  {
    r := acc;
    var i := 0;
    while i < |s|
      invariant 0 <= i <= |s|
      invariant r == acc + Map(s[..i], f)
    {
      assert Map(s[..i + 1], f) == Map(s[..i], f) + [f(s[i])];
      r := r + [f(s[i])];
      i := i + 1;
    }
    assert s[..i] == s;
  }

  /** Pushes every element of `f(x)` for each `x` of `s`, in order, onto `acc`. */
  method AppendFlatMapped<T, U>(acc: seq<U>, s: seq<T>, f: T -> seq<U>) returns (r: seq<U>)
    ensures r == acc + FlatMap(s, f)
  {
    r := acc;
    var i := 0;
    while i < |s|
      invariant 0 <= i <= |s|
      invariant r == acc + FlatMap(s[..i], f)
    {
      assert s[..i + 1][..i] == s[..i];
      r := r + f(s[i]);
      i := i + 1;
    }
    assert s[..i] == s;
  }

  /** Negated keys give the stable ASCENDING order (for `$sort: {f: 1}`). */
  function Negate(keys: seq<int>): (r: seq<int>)
    ensures |r| == |keys|
    ensures forall i :: 0 <= i < |keys| ==> r[i] == -keys[i]
  {
    seq(|keys|, i requires 0 <= i < |keys| => -keys[i])
  }
}
