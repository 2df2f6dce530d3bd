/** The array operations the source leans on (`filter`, `find`, `slice`, the
    stable `sort`, de-duplication in first-appearance order), stated on Dafny
    sequences. The fold-like functions recurse on the LAST element, so that a
    loop which walks a prefix `s[..i]` matches them one step at a time. */
module Seqs {
  import opened Wrappers

  /** `Array.prototype.filter`: the elements of `s` that satisfy `p`, in order. */
  function Filter<T>(s: seq<T>, p: T -> bool): (r: seq<T>)
    ensures |r| <= |s|
    ensures forall i :: 0 <= i < |r| ==> r[i] in s && p(r[i])
    ensures forall i :: 0 <= i < |s| ==> (s[i] in r <==> p(s[i]))
  {
    if s == [] then []
    else
      var init := Filter(s[..|s| - 1], p);
      assert s == s[..|s| - 1] + [s[|s| - 1]];
      if p(s[|s| - 1]) then init + [s[|s| - 1]] else init
  }

  /** A prefix one longer is the prefix and the next element. */
  lemma PrefixSnoc<T>(s: seq<T>, i: nat)
    requires i < |s|
    ensures s[..i + 1] == s[..i] + [s[i]]
  {
  }

  /** The whole prefix is the sequence. */
  lemma PrefixAll<T>(s: seq<T>)
    ensures s[..|s|] == s
  {
  }

  /** One step of `Filter` over a prefix: the next element joins when it satisfies `p`. */
  lemma FilterStep<T>(s: seq<T>, k: nat, p: T -> bool)
    requires 0 < k <= |s|
    ensures Filter(s[..k], p) == Filter(s[..k - 1], p) + (if p(s[k - 1]) then [s[k - 1]] else [])
  {
    assert s[..k][..k - 1] == s[..k - 1];
  }

  /** A filter whose predicate holds of every element changes nothing. */
  lemma {:induction false} FilterKeepsAll<T>(s: seq<T>, p: T -> bool)
    requires forall i :: 0 <= i < |s| ==> p(s[i])
    ensures Filter(s, p) == s
  {
    if s != [] {
      FilterKeepsAll(s[..|s| - 1], p);
    }
  }

  /** A filter whose predicate never holds keeps nothing. */
  lemma {:induction false} FilterNone<T>(s: seq<T>, p: T -> bool)
    requires forall i :: 0 <= i < |s| ==> !p(s[i])
    ensures Filter(s, p) == []
  {
    if s != [] {
      FilterNone(s[..|s| - 1], p);
    }
  }

  /** Filtering distributes over concatenation. */
  lemma {:induction false} FilterAppend<T>(a: seq<T>, b: seq<T>, p: T -> bool)
    ensures Filter(a + b, p) == Filter(a, p) + Filter(b, p)
  {
    if b != [] {
      assert (a + b)[..|a + b| - 1] == a + b[..|b| - 1];
      FilterAppend(a, b[..|b| - 1], p);
    } else {
      assert a + b == a;
    }
  }

  /** Two predicates that agree on the elements of `s` filter it alike. */
  lemma {:induction false} FilterAgree<T>(s: seq<T>, p: T -> bool, q: T -> bool)
    requires forall i :: 0 <= i < |s| ==> p(s[i]) == q(s[i])
    ensures Filter(s, p) == Filter(s, q)
  {
    if s != [] {
      FilterAgree(s[..|s| - 1], p, q);
    }
  }

  /** Two filters in a row are one filter by the conjunction. */
  lemma {:induction false} FilterFilter<T>(s: seq<T>, p: T -> bool, q: T -> bool, pq: T -> bool)
    requires forall x :: pq(x) == (p(x) && q(x))
    ensures Filter(Filter(s, p), q) == Filter(s, pq)
  {
    if s != [] {
      var init := s[..|s| - 1];
      FilterFilter(init, p, q, pq);
      if p(s[|s| - 1]) {
        var f := Filter(init, p) + [s[|s| - 1]];
        assert f[..|f| - 1] == Filter(init, p);
      }
    }
  }

  /** Filtering is idempotent. */
  lemma {:induction false} FilterIdempotent<T>(s: seq<T>, p: T -> bool)
    ensures Filter(Filter(s, p), p) == Filter(s, p)
  {
    FilterKeepsAll(Filter(s, p), p);
  }

  /** A predicate and its negation split `s`: the two counts add up to `|s|`. */
  lemma {:induction false} FilterSplit<T>(s: seq<T>, p: T -> bool, notP: T -> bool)
    requires forall x :: notP(x) == !p(x)
    ensures |Filter(s, p)| + |Filter(s, notP)| == |s|
  {
    if s != [] {
      FilterSplit(s[..|s| - 1], p, notP);
    }
  }

  /** A predicate and its negation split `s` into two parts that together
      hold each element as often as `s` does. */
  lemma {:induction false} FilterPartition<T>(s: seq<T>, p: T -> bool, notP: T -> bool)
    requires forall x :: notP(x) == !p(x)
    ensures multiset(Filter(s, p)) + multiset(Filter(s, notP)) == multiset(s)
  {
    if s != [] {
      var init := s[..|s| - 1];
      FilterPartition(init, p, notP);
      assert s == init + [s[|s| - 1]];
    }
  }

  /** Two predicates that never hold together count no more than `|s|`. */
  lemma {:induction false} FilterDisjointCounts<T>(s: seq<T>, p: T -> bool, q: T -> bool)
    requires forall x :: !(p(x) && q(x))
    ensures |Filter(s, p)| + |Filter(s, q)| <= |s|
  {
    if s != [] {
      FilterDisjointCounts(s[..|s| - 1], p, q);
    }
  }

  /** `WithKey` is the filter on "the key is `k`". */
  lemma {:induction false} WithKeyIsFilter<T, K>(s: seq<T>, key: T -> K, k: K, p: T -> bool)
    requires forall x :: p(x) == (key(x) == k)
    ensures WithKey(s, key, k) == Filter(s, p)
  {
    if s != [] {
      WithKeyIsFilter(s[..|s| - 1], key, k, p);
    }
  }

  ghost predicate Increasing(idx: seq<nat>) {
    forall i, j :: 0 <= i < j < |idx| ==> idx[i] < idx[j]
  }

  /** The elements of `s` at the positions `idx`, in the order of `idx`. */
  function Pick<T>(s: seq<T>, idx: seq<nat>): (r: seq<T>)
    requires forall j :: 0 <= j < |idx| ==> idx[j] < |s|
    ensures |r| == |idx|
    ensures forall j :: 0 <= j < |idx| ==> r[j] == s[idx[j]]
  {
    seq(|idx|, j requires 0 <= j < |idx| => s[idx[j]])
  }

  /** A filter keeps exactly the positions where its predicate holds: when
      those are the increasing positions `idx`, the result is `Pick(s, idx)`. */
  lemma {:induction false} FilterIsPick<T>(s: seq<T>, p: T -> bool, idx: seq<nat>)
    requires Increasing(idx)
    requires forall j :: 0 <= j < |idx| ==> idx[j] < |s|
    requires forall i :: 0 <= i < |s| ==> (p(s[i]) <==> i in idx)
    ensures Filter(s, p) == Pick(s, idx)
  {
    if s != [] {
      var n := |s| - 1;
      if p(s[n]) {
        PickKeepsLast(s, p, idx);
        FilterIsPick(s[..n], p, idx[..|idx| - 1]);
        PickLast(s, idx);
      } else {
        PickSkipsLast(s, p, idx);
        FilterIsPick(s[..n], p, idx);
        assert Pick(s, idx) == Pick(s[..n], idx);
      }
    }
  }

  /** Picking the last position last is picking from the shorter
      sequence, then taking the last element. */
  lemma PickLast<T>(s: seq<T>, idx: seq<nat>)
    requires s != [] && idx != [] && idx[|idx| - 1] == |s| - 1
    requires forall j :: 0 <= j < |idx| - 1 ==> idx[j] < |s| - 1
    ensures Pick(s, idx) == Pick(s[..|s| - 1], idx[..|idx| - 1]) + [s[|s| - 1]]
  {
  }

  /** When the predicate holds at the last element, its position is the
      last of `idx`, and the others describe the shorter sequence. */
  lemma PickKeepsLast<T>(s: seq<T>, p: T -> bool, idx: seq<nat>)
    requires Increasing(idx)
    requires forall j :: 0 <= j < |idx| ==> idx[j] < |s|
    requires forall i :: 0 <= i < |s| ==> (p(s[i]) <==> i in idx)
    requires s != [] && p(s[|s| - 1])
    ensures idx != [] && idx[|idx| - 1] == |s| - 1
    ensures var init, rest := s[..|s| - 1], idx[..|idx| - 1];
            Increasing(rest) &&
            (forall j :: 0 <= j < |rest| ==> rest[j] < |init|) &&
            (forall i :: 0 <= i < |init| ==> (p(init[i]) <==> i in rest))
  {
    var n, last := |s| - 1, |idx| - 1;
    var j :| 0 <= j < |idx| && idx[j] == n;
    assert idx[j] <= idx[last];
    var init, rest := s[..n], idx[..last];
    forall i | 0 <= i < n
      ensures p(init[i]) <==> i in rest
    {
      if i in idx {
        var k :| 0 <= k < |idx| && idx[k] == i;
        assert rest[k] == i;
      }
    }
    forall k | 0 <= k < last
      ensures rest[k] < n
    {
      assert idx[k] < idx[last];
    }
  }

  /** When the predicate fails at the last element, `idx` describes the
      shorter sequence. */
  lemma PickSkipsLast<T>(s: seq<T>, p: T -> bool, idx: seq<nat>)
    requires forall j :: 0 <= j < |idx| ==> idx[j] < |s|
    requires forall i :: 0 <= i < |s| ==> (p(s[i]) <==> i in idx)
    requires s != [] && !p(s[|s| - 1])
    ensures forall j :: 0 <= j < |idx| ==> idx[j] < |s| - 1
    ensures forall i :: 0 <= i < |s| - 1 ==> (p(s[..|s| - 1][i]) <==> i in idx)
  {
    forall j | 0 <= j < |idx|
      ensures idx[j] < |s| - 1
    {
      assert idx[j] != |s| - 1;
    }
  }

  /** `p` holds exactly at the positions `idx` of `s`. */
  ghost predicate HoldsExactlyAt<T>(s: seq<T>, p: T -> bool, idx: seq<nat>) {
    Increasing(idx) &&
    (forall j :: 0 <= j < |idx| ==> idx[j] < |s|) &&
    (forall i :: 0 <= i < |s| ==> (p(s[i]) <==> i in idx))
  }

  /** `picked` lists the elements of `s` at the positions `idx`. */
  ghost predicate ElementsAt<T>(s: seq<T>, idx: seq<nat>, picked: seq<T>) {
    |picked| == |idx| && forall j :: 0 <= j < |idx| ==> idx[j] < |s| && s[idx[j]] == picked[j]
  }

  /** `FilterIsPick` with the picked elements spelled out. */
  lemma FilterIsPicked<T>(s: seq<T>, p: T -> bool, idx: seq<nat>, picked: seq<T>)
    requires HoldsExactlyAt(s, p, idx) && ElementsAt(s, idx, picked)
    ensures Filter(s, p) == picked
  {
    FilterIsPick(s, p, idx);
  }

  /** `WithKey` with the kept positions and elements spelled out. */
  lemma WithKeyIsPicked<T, K>(s: seq<T>, key: T -> K, k: K, p: T -> bool, idx: seq<nat>, picked: seq<T>)
    requires forall x :: p(x) == (key(x) == k)
    requires HoldsExactlyAt(s, p, idx) && ElementsAt(s, idx, picked)
    ensures WithKey(s, key, k) == picked
  {
    WithKeyIsFilter(s, key, k, p);
    FilterIsPick(s, p, idx);
  }

  /** `Array.prototype.map`. */
  function Map<T, U>(s: seq<T>, f: T -> U): (r: seq<U>)
    ensures |r| == |s|
    ensures forall i :: 0 <= i < |s| ==> r[i] == f(s[i])
  {
    seq(|s|, i requires 0 <= i < |s| => f(s[i]))
  }

  /** Mapping distributes over concatenation. */
  lemma MapAppend<T, U>(a: seq<T>, b: seq<T>, f: T -> U)
    ensures Map(a + b, f) == Map(a, f) + Map(b, f)
  {
    var l, r := Map(a + b, f), Map(a, f) + Map(b, f);
    forall i | 0 <= i < |l| ensures l[i] == r[i] {
      if i >= |a| {
        assert (a + b)[i] == b[i - |a|];
      }
    }
  }

  /** The position `Array.prototype.findIndex` returns, as an option. */
  function FindIndex<T>(s: seq<T>, p: T -> bool): (r: Option<nat>)
    ensures r.None? <==> forall i :: 0 <= i < |s| ==> !p(s[i])
    ensures r.Some? ==> r.value < |s| && p(s[r.value])
    ensures r.Some? ==> forall j :: 0 <= j < r.value ==> !p(s[j])
  {
    if s == [] then None
    else if p(s[0]) then Some(0)
    else match FindIndex(s[1..], p)
      case None => None
      case Some(k) => Some(k + 1)
  }

  /** The first match sits at `k` when `k` matches and nothing before it does. */
  lemma FindAt<T>(s: seq<T>, p: T -> bool, k: nat)
    requires k < |s| && p(s[k])
    requires forall j :: 0 <= j < k ==> !p(s[j])
    ensures Find(s, p) == Some(s[k])
  {
  }

  /** `Array.prototype.find`: the first element satisfying `p`, if any. */
  function Find<T>(s: seq<T>, p: T -> bool): (r: Option<T>)
    ensures r.None? <==> forall i :: 0 <= i < |s| ==> !p(s[i])
    ensures r.Some? ==> exists i :: 0 <= i < |s| && s[i] == r.value && p(s[i]) &&
                                   forall j :: 0 <= j < i ==> !p(s[j])
  {
    match FindIndex(s, p)
    case None => None
    case Some(k) => Some(s[k])
  }

  ghost predicate NoDuplicates<T>(s: seq<T>) {
    forall i, j :: 0 <= i < j < |s| ==> s[i] != s[j]
  }

  /** Without duplicates every element occurs at most once. */
  lemma {:induction false} NoDuplicatesCount<T>(s: seq<T>, x: T)
    requires NoDuplicates(s)
    ensures multiset(s)[x] <= 1
  {
    if s != [] {
      var init, last := s[..|s| - 1], s[|s| - 1];
      assert s == init + [last];
      assert NoDuplicates(init);
      NoDuplicatesCount(init, x);
      assert last !in init;
    }
  }

  /** An element that occurs once is not repeated later. */
  lemma OccursOnceDistinct<T>(s: seq<T>, i: nat, j: nat)
    requires i < j < |s| && multiset(s)[s[i]] <= 1
    ensures s[i] != s[j]
  {
    assert s == s[..j] + s[j..];
    assert s[i] in s[..j];
    assert s[j] in s[j..];
  }

  /** Filtering a sequence without duplicates leaves none. */
  lemma {:induction false} FilterKeepsNoDuplicates<T>(s: seq<T>, p: T -> bool)
    requires NoDuplicates(s)
    ensures NoDuplicates(Filter(s, p))
  {
    if s != [] {
      var init, x := s[..|s| - 1], s[|s| - 1];
      FilterKeepsNoDuplicates(init, p);
      var r := Filter(init, p);
      forall i | 0 <= i < |r| ensures r[i] != x {
        var j :| 0 <= j < |init| && init[j] == r[i];
        assert s[j] == init[j];
      }
    }
  }

  /** A rearrangement of a sequence without duplicates has none. */
  lemma PermutationKeepsNoDuplicates<T>(a: seq<T>, b: seq<T>)
    requires multiset(a) == multiset(b) && NoDuplicates(a)
    ensures NoDuplicates(b)
  {
    forall i, j | 0 <= i < j < |b| ensures b[i] != b[j] {
      NoDuplicatesCount(a, b[i]);
      OccursOnceDistinct(b, i, j);
    }
  }

  /** Every image of an element of `a` is an image of an element of any
      rearrangement `b` of it. */
  lemma MapRearranged<T, U>(a: seq<T>, b: seq<T>, f: T -> U, y: U)
    requires multiset(a) == multiset(b) && y in Map(a, f)
    ensures y in Map(b, f)
  {
    var i :| 0 <= i < |a| && Map(a, f)[i] == y;
    assert a[i] in multiset(b);
    var j :| 0 <= j < |b| && b[j] == a[i];
    assert Map(b, f)[j] == y;
  }

  /** The distinct elements of `s`, each at its first appearance. */
  function Distinct<T(==, !new)>(s: seq<T>): (r: seq<T>)
    ensures forall x :: x in r <==> x in s
    ensures NoDuplicates(r)
  {
    if s == [] then []
    else
      var init := Distinct(s[..|s| - 1]);
      assert s == s[..|s| - 1] + [s[|s| - 1]];
      if s[|s| - 1] in init then init else init + [s[|s| - 1]]
  }

  /** Appending an element adds it to `Distinct` when it is new. */
  lemma DistinctSnoc<T(!new)>(s: seq<T>, x: T)
    ensures Distinct(s + [x]) == if x in Distinct(s) then Distinct(s) else Distinct(s) + [x]
  {
    assert (s + [x])[..|s|] == s;
  }

  /** Earlier first appearances come first in `Distinct(s)`: for any `i < j`,
      the element `Distinct(s)[i]` is met in `s` before any `Distinct(s)[j]`. */
  lemma {:induction false} DistinctOrder<T(!new)>(s: seq<T>, i: nat, j: nat, n: nat)
    requires i < j < |Distinct(s)| && n < |s| && s[n] == Distinct(s)[j]
    ensures Distinct(s)[i] in s[..n]
  {
    var init := s[..|s| - 1];
    var d := Distinct(init);
    assert s == init + [s[|s| - 1]];
    if j < |d| {
      if n < |s| - 1 {
        assert init[n] == s[n];
        DistinctOrder(init, i, j, n);
        assert init[..n] == s[..n];
      } else {
        assert d[i] in init;
        assert s[..n] == init;
      }
    } else {
      // Distinct(s)[j] is the last element of s, new at this step
      assert Distinct(s)[j] == s[|s| - 1] && s[|s| - 1] !in init;
      assert s[n] !in init;
      assert forall m :: 0 <= m < |init| ==> s[m] == init[m];
      assert n == |s| - 1;
      assert Distinct(s)[i] == d[i] && d[i] in init;
      assert s[..n] == init;
    }
  }

  ghost predicate SortedBy<T>(s: seq<T>, key: T -> int) {
    forall i, j :: 0 <= i < j < |s| ==> key(s[i]) <= key(s[j])
  }

  /** The elements of `s` whose key is `k`, in order. */
  function WithKey<T, K(==)>(s: seq<T>, key: T -> K, k: K): (r: seq<T>)
    ensures |r| <= |s|
    ensures forall i :: 0 <= i < |r| ==> r[i] in s && key(r[i]) == k
    ensures forall i :: 0 <= i < |s| ==> (s[i] in r <==> key(s[i]) == k)
  {
    if s == [] then []
    else
      var init := WithKey(s[..|s| - 1], key, k);
      assert s == s[..|s| - 1] + [s[|s| - 1]];
      if key(s[|s| - 1]) == k then init + [s[|s| - 1]] else init
  }

  /** Appending an element adds it to the group of its own key. */
  lemma WithKeySnoc<T, K>(s: seq<T>, x: T, key: T -> K, k: K)
    ensures WithKey(s + [x], key, k) == WithKey(s, key, k) + (if key(x) == k then [x] else [])
  {
    assert (s + [x])[..|s|] == s;
  }

  /** An element whose key bounds those of a sorted sequence may follow
      it. */
  lemma SortedSnoc<T>(s: seq<T>, x: T, key: T -> int)
    requires SortedBy(s, key)
    requires forall i :: 0 <= i < |s| ==> key(s[i]) <= key(x)
    ensures SortedBy(s + [x], key)
  {
  }

  /** Places `x` after every element whose key is at most its own. */
  function Insert<T>(s: seq<T>, x: T, key: T -> int): (r: seq<T>)
    requires SortedBy(s, key)
    ensures |r| == |s| + 1
    ensures SortedBy(r, key)
    ensures multiset(r) == multiset(s) + multiset{x}
  {
    if s == [] || key(s[|s| - 1]) <= key(x) then
      SortedSnoc(s, x, key);
      s + [x]
    else
      var init, last := s[..|s| - 1], s[|s| - 1];
      var rest := Insert(init, x, key);
      assert s == init + [last];
      forall i | 0 <= i < |rest| ensures key(rest[i]) <= key(last) {
        assert rest[i] in multiset(init) + multiset{x};
        if rest[i] != x {
          assert rest[i] in init;
        }
      }
      SortedSnoc(rest, last, key);
      rest + [last]
  }

  /** A stable sort ascending by `key`: the `Array.prototype.sort` of a copy
      with the comparator `key(a) - key(b)`. */
  function SortByKey<T>(s: seq<T>, key: T -> int): (r: seq<T>)
    ensures |r| == |s|
    ensures SortedBy(r, key)
    ensures multiset(r) == multiset(s)
  {
    if s == [] then []
    else
      assert s == s[..|s| - 1] + [s[|s| - 1]];
      Insert(SortByKey(s[..|s| - 1], key), s[|s| - 1], key)
  }

  lemma {:induction false} InsertStable<T>(s: seq<T>, x: T, key: T -> int, k: int)
    requires SortedBy(s, key)
    ensures WithKey(Insert(s, x, key), key, k) == WithKey(s, key, k) + (if key(x) == k then [x] else [])
  {
    if s == [] || key(s[|s| - 1]) <= key(x) {
      assert (s + [x])[..|s|] == s;
    } else {
      var init := s[..|s| - 1];
      var rest := Insert(init, x, key);
      InsertStable(init, x, key, k);
      assert (rest + [s[|s| - 1]])[..|rest|] == rest;
    }
  }

  /** Stability: for every key, the elements carrying it keep their input order. */
  lemma {:induction false} SortByKeyStable<T>(s: seq<T>, key: T -> int, k: int)
    ensures WithKey(SortByKey(s, key), key, k) == WithKey(s, key, k)
  {
    if s != [] {
      var init := s[..|s| - 1];
      SortByKeyStable(init, key, k);
      InsertStable(SortByKey(init, key), s[|s| - 1], key, k);
    }
  }

  /** A sequence already in key order comes back unchanged; in particular one
      whose elements all share a key. */
  lemma {:induction false} SortByKeySorted<T>(s: seq<T>, key: T -> int)
    requires SortedBy(s, key)
    ensures SortByKey(s, key) == s
  {
    if s != [] {
      var init := s[..|s| - 1];
      SortByKeySorted(init, key);
      assert s == init + [s[|s| - 1]];
    }
  }

  /** A JavaScript `slice` bound: a negative index counts from the end, and
      either kind is clamped to `[0, len]`. */
  function SliceBound(i: int, len: nat): (r: nat)
    ensures r <= len
    ensures 0 <= i <= len ==> r == i
    ensures i > len ==> r == len
    ensures i < 0 ==> r == if len + i < 0 then 0 else len + i
  {
    if i < 0 then (if len + i < 0 then 0 else len + i)
    else if i > len then len
    else i
  }

  /** `Array.prototype.slice(start, end)`. */
  function JsSlice<T>(s: seq<T>, start: int, end: int): (r: seq<T>)
    ensures |r| <= |s|
    ensures start <= end ==> |r| <= end - start
    ensures 0 <= start <= end ==>
              r == (if start < |s| then s[start..if end <= |s| then end else |s|] else [])
  {
    var from, to := SliceBound(start, |s|), SliceBound(end, |s|);
    assert start <= end && from < to ==> to - from <= end - start;
    if from < to then s[from..to] else []
  }
}
