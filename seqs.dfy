/** Sequence helpers mirroring the JavaScript array methods the services chain:
    `findIndex`, `find`, `filter`, `reduce` (sum), `slice` and a stable `sort`. */
module Seqs {
  import opened Wrappers

  /** `findIndex`: the first index whose element satisfies `p`, or -1. */
  function IndexWhere<T>(s: seq<T>, p: T -> bool): (i: int)
    ensures -1 <= i < |s|
    ensures i == -1 <==> forall k :: 0 <= k < |s| ==> !p(s[k])
    ensures 0 <= i ==> p(s[i]) && forall k :: 0 <= k < i ==> !p(s[k])
  {
    if |s| == 0 then -1
    else if p(s[0]) then 0
    else
      var j := IndexWhere(s[1..], p);
      if j == -1 then -1 else j + 1
  }

  /** `find`: the first element satisfying `p`; `None` stands for `undefined`. */
  function FindFirst<T>(s: seq<T>, p: T -> bool): (r: Option<T>)
    ensures r.None? <==> forall k :: 0 <= k < |s| ==> !p(s[k])
    ensures r.Some? ==> p(r.value) && r.value == s[IndexWhere(s, p)]
  {
    var i := IndexWhere(s, p);
    if i < 0 then None else Some(s[i])
  }

  /** `filter`: the elements satisfying `p`, in their original order. */
  function Filter<T(==)>(s: seq<T>, p: T -> bool): (r: seq<T>)
    ensures |r| <= |s|
    ensures forall k :: 0 <= k < |r| ==> r[k] in s && p(r[k])
    ensures forall k :: 0 <= k < |s| && p(s[k]) ==> s[k] in r
  {
    if |s| == 0 then []
    else (if p(s[0]) then [s[0]] else []) + Filter(s[1..], p)
  }

  /** Whatever a filter keeps comes from the input and passes the predicate. */
  lemma FilterMember<T>(s: seq<T>, p: T -> bool, x: T)
    requires x in Filter(s, p)
    ensures x in s && p(x)
  {
    var r := Filter(s, p);
    var k :| 0 <= k < |r| && r[k] == x;
  }

  /** A reordering of a filter's output holds exactly the elements of the input that
      pass the predicate. */
  lemma ReorderedFilterMembers<T>(s: seq<T>, p: T -> bool, r: seq<T>)
    requires multiset(r) == multiset(Filter(s, p))
    ensures |r| == |Filter(s, p)|
    ensures forall x :: x in r <==> x in s && p(x)
  {
    SameMultisetSameMembers(r, Filter(s, p));
    forall x | x in r ensures x in s && p(x) {
      FilterMember(s, p, x);
    }
  }

  /** Filtering by a predicate every element meets keeps the sequence as it is. */
  lemma {:induction false} FilterKeepsAll<T>(s: seq<T>, p: T -> bool)
    requires forall k :: 0 <= k < |s| ==> p(s[k])
    ensures Filter(s, p) == s
  {
    if |s| > 0 {
      FilterKeepsAll(s[1..], p);
    }
  }

  /** Two filters in a row are one filter by the conjunction: a chain of optional
      filters selects exactly the elements that pass every one of them. */
  lemma {:induction false} FilterThenFilter<T>(s: seq<T>, p: T -> bool, q: T -> bool, pq: T -> bool)
    requires forall x :: pq(x) == (p(x) && q(x))
    ensures Filter(Filter(s, p), q) == Filter(s, pq)
  {
    if |s| > 0 {
      var rest := Filter(s[1..], p);
      FilterThenFilter(s[1..], p, q, pq);
      if p(s[0]) {
        var t := [s[0]] + rest;
        assert Filter(s, p) == t;
        assert t[0] == s[0] && t[1..] == rest;
      } else {
        assert Filter(s, p) == rest;
      }
    }
  }

  /** Filters by pointwise-equal predicates agree. */
  lemma {:induction false} FilterExt<T>(s: seq<T>, p: T -> bool, q: T -> bool)
    requires forall x :: p(x) == q(x)
    ensures Filter(s, p) == Filter(s, q)
  {
    if |s| > 0 {
      FilterExt(s[1..], p, q);
    }
  }

  /** A chain of optional filters applied in order, as the services write
      `if (params?.x) items = items.filter(...)`; `None` is a filter the caller did
      not ask for. */
  function FilterChain<T(==)>(s: seq<T>, cs: seq<Option<T -> bool>>): seq<T>
    decreases |cs|
  {
    if |cs| == 0 then s
    else
      var before := FilterChain(s, cs[..|cs| - 1]);
      var c := cs[|cs| - 1];
      if c.Some? then Filter(before, c.value) else before
  }

  /** `x` passes every filter that was asked for. */
  predicate PassesAll<T>(x: T, cs: seq<Option<T -> bool>>)
  {
    forall i :: 0 <= i < |cs| ==> cs[i].None? || cs[i].value(x)
  }

  function PassesAllOf<T>(cs: seq<Option<T -> bool>>): T -> bool
  {
    x => PassesAll(x, cs)
  }

  /** The chain selects, in order, exactly the elements passing every requested filter. */
  lemma {:induction false} FilterChainIsConjunction<T>(s: seq<T>, cs: seq<Option<T -> bool>>)
    ensures FilterChain(s, cs) == Filter(s, PassesAllOf(cs))
    decreases |cs|
  {
    if |cs| == 0 {
      FilterKeepsAll(s, PassesAllOf(cs));
    } else {
      var init := cs[..|cs| - 1];
      var c := cs[|cs| - 1];
      FilterChainIsConjunction(s, init);
      assert forall x :: PassesAll(x, cs) == (PassesAll(x, init) && (c.None? || c.value(x))) by {
        forall x ensures PassesAll(x, cs) == (PassesAll(x, init) && (c.None? || c.value(x))) {
          assert forall i :: 0 <= i < |init| ==> init[i] == cs[i];
        }
      }
      if c.Some? {
        FilterThenFilter(s, PassesAllOf(init), c.value, PassesAllOf(cs));
      } else {
        FilterExt(s, PassesAllOf(init), PassesAllOf(cs));
      }
    }
  }

  /** `filter` distributes over concatenation. */
  lemma {:induction false} FilterAppend<T>(a: seq<T>, b: seq<T>, p: T -> bool)
    ensures Filter(a + b, p) == Filter(a, p) + Filter(b, p)
  {
    if |a| == 0 {
      assert a + b == b;
    } else {
      assert (a + b)[0] == a[0] && (a + b)[1..] == a[1..] + b;
      FilterAppend(a[1..], b, p);
    }
  }

  /** Filtering after appending one element. */
  lemma FilterSnoc<T>(s: seq<T>, x: T, p: T -> bool)
    ensures Filter(s + [x], p) == Filter(s, p) + if p(x) then [x] else []
  {
    FilterAppend(s, [x], p);
    assert [x][1..] == [];
  }

  /** A predicate and its negation split a sequence: the two filters' lengths add up
      to the whole. */
  lemma {:induction false} FilterPartition<T>(s: seq<T>, p: T -> bool, notP: T -> bool)
    requires forall x :: notP(x) == !p(x)
    ensures |Filter(s, p)| + |Filter(s, notP)| == |s|
  {
    if |s| > 0 {
      FilterPartition(s[1..], p, notP);
    }
  }

  /** What a filter keeps, as membership. */
  lemma FilterMembers<T>(s: seq<T>, p: T -> bool)
    ensures forall x :: x in Filter(s, p) <==> x in s && p(x)
  {
    forall x | x in Filter(s, p) ensures x in s && p(x) {
      FilterMember(s, p, x);
    }
  }

  /** No element appears twice. */
  predicate Distinct<T(==)>(s: seq<T>)
  {
    forall i, j :: 0 <= i < j < |s| ==> s[i] != s[j]
  }

  /** A filter of a sequence without repeats has no repeats. */
  lemma {:induction false} FilterDistinct<T>(s: seq<T>, p: T -> bool)
    requires Distinct(s)
    ensures Distinct(Filter(s, p))
  {
    if |s| > 0 {
      FilterDistinct(s[1..], p);
      var rest := Filter(s[1..], p);
      assert s[0] !in s[1..];
      if p(s[0]) {
        var r := [s[0]] + rest;
        assert Filter(s, p) == r;
        forall i, j | 0 <= i < j < |r| ensures r[i] != r[j] {
          assert r[j] == rest[j - 1] && rest[j - 1] in s[1..];
          if i > 0 {
            assert r[i] == rest[i - 1];
          }
        }
      } else {
        assert Filter(s, p) == rest;
      }
    }
  }

  /** A filter that no element passes keeps nothing. */
  lemma FilterNone<T>(s: seq<T>, p: T -> bool)
    requires forall k :: 0 <= k < |s| ==> !p(s[k])
    ensures Filter(s, p) == []
  {
  }

  /** The first hit after appending one element. */
  lemma IndexWhereSnoc<T>(s: seq<T>, x: T, p: T -> bool)
    ensures IndexWhere(s + [x], p) ==
      if IndexWhere(s, p) >= 0 then IndexWhere(s, p) else if p(x) then |s| else -1
  {
    if IndexWhere(s, p) >= 0 {
      IndexWhereAppend(s, [x], p);
    } else if p(x) {
      FindFirstAppendFresh(s, x, p);
    } else {
      var t := s + [x];
      forall k | 0 <= k < |t| ensures !p(t[k]) {
        if k < |s| {
          assert t[k] == s[k];
        }
      }
    }
  }

  /** `reduce((sum, x) => sum + f(x), 0)`. */
  function SumBy<T>(s: seq<T>, f: T -> int): int
  {
    if |s| == 0 then 0 else f(s[0]) + SumBy(s[1..], f)
  }

  /** Appending one element adds its term to the sum and one to the count of a
      filter when it passes, and changes neither otherwise. */
  lemma FilterSumSnoc<T>(s: seq<T>, x: T, p: T -> bool, f: T -> int)
    ensures SumBy(Filter(s + [x], p), f) == SumBy(Filter(s, p), f) + if p(x) then f(x) else 0
    ensures |Filter(s + [x], p)| == |Filter(s, p)| + if p(x) then 1 else 0
    ensures !p(x) ==> Filter(s + [x], p) == Filter(s, p)
  {
    FilterSnoc(s, x, p);
    var own := Filter(s, p);
    if p(x) {
      SumByAppend(own, [x], f);
      assert SumBy([x], f) == f(x);
    } else {
      assert own + [] == own;
    }
  }

  /** Sum over a concatenation is the sum of the sums. */
  lemma {:induction false} SumByAppend<T>(a: seq<T>, b: seq<T>, f: T -> int)
    ensures SumBy(a + b, f) == SumBy(a, f) + SumBy(b, f)
  {
    if |a| == 0 {
      assert a + b == b;
    } else {
      assert (a + b)[0] == a[0] && (a + b)[1..] == a[1..] + b;
      SumByAppend(a[1..], b, f);
    }
  }

  /** Sums over two sequences agree when their terms agree position by position. */
  lemma {:induction false} SumByPointwise<A, B>(a: seq<A>, f: A -> int, b: seq<B>, g: B -> int)
    requires |a| == |b| && forall k :: 0 <= k < |a| ==> f(a[k]) == g(b[k])
    ensures SumBy(a, f) == SumBy(b, g)
  {
    if |a| > 0 {
      SumByPointwise(a[1..], f, b[1..], g);
    }
  }

  /** Splitting by a predicate and its negation splits the sum. */
  lemma {:induction false} SumBySplit<T>(s: seq<T>, f: T -> int, p: T -> bool, notP: T -> bool)
    requires forall x :: notP(x) == !p(x)
    ensures SumBy(s, f) == SumBy(Filter(s, p), f) + SumBy(Filter(s, notP), f)
  {
    if |s| > 0 {
      SumBySplit(s[1..], f, p, notP);
      var head := if p(s[0]) then [s[0]] else [];
      var other := if notP(s[0]) then [s[0]] else [];
      SumByAppend(head, Filter(s[1..], p), f);
      SumByAppend(other, Filter(s[1..], notP), f);
    }
  }

  /** Appending an element the predicate picks, after none that it picks, makes it the first hit. */
  lemma FindFirstAppendFresh<T>(s: seq<T>, x: T, p: T -> bool)
    requires forall k :: 0 <= k < |s| ==> !p(s[k])
    requires p(x)
    ensures IndexWhere(s + [x], p) == |s| && FindFirst(s + [x], p) == Some(x)
  {
    assert forall k :: 0 <= k < |s| ==> (s + [x])[k] == s[k];
    assert (s + [x])[|s|] == x;
  }

  /** Appending after an existing hit leaves the first hit where it was. */
  lemma IndexWhereAppend<T>(s: seq<T>, xs: seq<T>, p: T -> bool)
    requires IndexWhere(s, p) >= 0
    ensures IndexWhere(s + xs, p) == IndexWhere(s, p)
  {
    var i := IndexWhere(s, p);
    assert forall k :: 0 <= k <= i ==> (s + xs)[k] == s[k];
  }

  /** Replacing the first hit by another hit keeps it the first hit. */
  lemma IndexWhereReplace<T>(s: seq<T>, p: T -> bool, x: T)
    requires IndexWhere(s, p) >= 0 && p(x)
    ensures IndexWhere(s[IndexWhere(s, p) := x], p) == IndexWhere(s, p)
  {
    var i := IndexWhere(s, p);
    var t := s[i := x];
    assert t[i] == x;
    assert forall k :: 0 <= k < i ==> t[k] == s[k];
  }

  /** Two sequences on which a predicate holds at the same positions have the same first hit. */
  lemma IndexWhereAgree<T>(a: seq<T>, b: seq<T>, p: T -> bool)
    requires |a| == |b| && forall k :: 0 <= k < |a| ==> p(a[k]) == p(b[k])
    ensures IndexWhere(a, p) == IndexWhere(b, p)
  {
  }

  /** `splice(i, 1)`: the sequence without its element at `i`. */
  function RemoveAt<T>(s: seq<T>, i: nat): (r: seq<T>)
    requires i < |s|
    ensures |r| == |s| - 1
    ensures forall k :: 0 <= k < i ==> r[k] == s[k]
    ensures forall k :: i <= k < |r| ==> r[k] == s[k + 1]
    ensures multiset(r) + multiset{s[i]} == multiset(s)
  {
    assert s == s[..i] + [s[i]] + s[i + 1..];
    s[..i] + s[i + 1..]
  }

  /** `map`. */
  function MapSeq<A, B>(s: seq<A>, f: A -> B): (r: seq<B>)
    ensures |r| == |s| && forall k :: 0 <= k < |s| ==> r[k] == f(s[k])
  {
    seq(|s|, k requires 0 <= k < |s| => f(s[k]))
  }

  /** Mapping after appending one element. */
  lemma MapSnoc<A, B>(s: seq<A>, x: A, f: A -> B)
    ensures MapSeq(s + [x], f) == MapSeq(s, f) + [f(x)]
  {
    assert |MapSeq(s + [x], f)| == |MapSeq(s, f) + [f(x)]|;
  }

  /** How `slice` reads one of its bounds against a length `n`: a negative bound
      counts from the end, and both are clamped to `0..n`. */
  function SliceBound(i: int, n: nat): (r: nat)
    ensures r <= n
    ensures 0 <= i ==> r == if i <= n then i else n
    ensures i < 0 ==> r == if n + i >= 0 then n + i else 0
  {
    if i < 0 then (if n + i >= 0 then n + i else 0)
    else if i <= n then i
    else n
  }

  /** `s.slice(start, end)` with JavaScript's bound rules. */
  function JsSlice<T>(s: seq<T>, start: int, end: int): (r: seq<T>)
    ensures |r| <= |s|
    ensures SliceBound(start, |s|) < SliceBound(end, |s|) ==> r == s[SliceBound(start, |s|)..SliceBound(end, |s|)]
    ensures SliceBound(end, |s|) <= SliceBound(start, |s|) ==> r == []
  {
    var a := SliceBound(start, |s|);
    var b := SliceBound(end, |s|);
    if a < b then s[a..b] else []
  }

  /** A prefix one longer ends with the next element. */
  lemma TakeSnoc<T>(s: seq<T>, i: nat)
    requires i < |s|
    ensures s[..i + 1] == s[..i] + [s[i]]
  {
  }

  /** A prefix followed by the next window is the longer prefix. */
  lemma PrefixJoin<T>(s: seq<T>, a: int, b: int)
    requires 0 <= a <= b <= |s|
    ensures s[..a] + s[a..b] == s[..b]
  {
  }

  /** Whatever `slice` returns comes from the sliced sequence. */
  lemma JsSliceMembers<T>(s: seq<T>, start: int, end: int)
    ensures var r := JsSlice(s, start, end); forall k :: 0 <= k < |r| ==> r[k] in s
  {
    var a, b := SliceBound(start, |s|), SliceBound(end, |s|);
    var r := JsSlice(s, start, end);
    forall k | 0 <= k < |r| ensures r[k] in s {
      assert r[k] == s[a + k];
    }
  }

  /** Keys of an association list are pairwise distinct. */
  ghost predicate DistinctKeys<V>(acc: seq<(string, V)>)
  {
    forall i, j :: 0 <= i < j < |acc| ==> acc[i].0 != acc[j].0
  }

  /** Index of key `k` in an association list (the role of an object's own key), or -1. */
  function KeyIndex<V>(acc: seq<(string, V)>, k: string): (i: int)
    ensures -1 <= i < |acc|
    ensures i == -1 <==> forall j :: 0 <= j < |acc| ==> acc[j].0 != k
    ensures 0 <= i ==> acc[i].0 == k && forall j :: 0 <= j < i ==> acc[j].0 != k
  {
    if |acc| == 0 then -1
    else if acc[0].0 == k then 0
    else
      var j := KeyIndex(acc[1..], k);
      if j == -1 then -1 else j + 1
  }

  /** `Object.values` of an association list, in key order. */
  function Values<V>(acc: seq<(string, V)>): (r: seq<V>)
    ensures |r| == |acc| && forall k :: 0 <= k < |acc| ==> r[k] == acc[k].1
  {
    seq(|acc|, k requires 0 <= k < |acc| => acc[k].1)
  }

  /** Two sequences with the same multiset have the same elements and the same length. */
  lemma SameMultisetSameMembers<T>(a: seq<T>, b: seq<T>)
    requires multiset(a) == multiset(b)
    ensures |a| == |b|
    ensures forall x :: x in a <==> x in b
  {
    assert |a| == |multiset(a)| && |b| == |multiset(b)|;
    forall x ensures x in a <==> x in b {
      assert x in a <==> x in multiset(a);
      assert x in b <==> x in multiset(b);
    }
  }

  /** Sorted so that `key` never increases along the sequence. */
  ghost predicate SortedDesc<T>(s: seq<T>, key: T -> int)
  {
    forall i, j :: 0 <= i < j < |s| ==> key(s[i]) >= key(s[j])
  }

  /** A head whose key is not below the first key of a sorted tail keeps it sorted. */
  lemma SortedDescCons<T>(h: T, t: seq<T>, key: T -> int)
    requires SortedDesc(t, key) && (|t| > 0 ==> key(h) >= key(t[0]))
    ensures SortedDesc([h] + t, key)
  {
    var r := [h] + t;
    forall i, j | 0 <= i < j < |r| ensures key(r[i]) >= key(r[j]) {
      assert r[j] == t[j - 1];
      if i == 0 {
        assert key(t[0]) >= key(t[j - 1]);
      } else {
        assert r[i] == t[i - 1];
      }
    }
  }

  /** Insert `x` in front of the first element whose key is not above its own. */
  function InsertDesc<T(==)>(x: T, s: seq<T>, key: T -> int): (r: seq<T>)
    requires SortedDesc(s, key)
    ensures SortedDesc(r, key)
    ensures multiset(r) == multiset(s) + multiset{x}
    ensures |r| == |s| + 1 && (r[0] == x || (|s| > 0 && r[0] == s[0]))
  {
    if |s| == 0 || key(s[0]) <= key(x) then
      SortedDescCons(x, s, key);
      [x] + s
    else
      SortedDescSlice(s, key, 1, |s|);
      var rest := InsertDesc(x, s[1..], key);
      assert key(s[0]) >= key(rest[0]) by {
        if rest[0] != x {
          assert key(s[0]) >= key(s[1]);
        }
      }
      SortedDescCons(s[0], rest, key);
      MultisetCons(s);
      var r := [s[0]] + rest;
      assert r[1..] == rest;
      MultisetCons(r);
      r
  }

  lemma MultisetCons<T>(s: seq<T>)
    requires |s| > 0
    ensures multiset(s) == multiset(s[1..]) + multiset{s[0]}
  {
    assert s == [s[0]] + s[1..];
  }

  /** A stable sort by `key`, largest first: what `sort((a, b) => key(b) - key(a))`
      returns on a copy, since JavaScript's sort is stable. */
  function SortDesc<T(==)>(s: seq<T>, key: T -> int): (r: seq<T>)
    ensures SortedDesc(r, key)
    ensures multiset(r) == multiset(s)
    ensures |r| == |s|
  {
    if |s| == 0 then []
    else
      var t := SortDesc(s[1..], key);
      var r := InsertDesc(s[0], t, key);
      MultisetCons(s);
      r
  }

  /** A window of a sequence sorted by `key` is sorted by `key`. */
  lemma SortedDescSlice<T>(s: seq<T>, key: T -> int, a: nat, b: nat)
    requires SortedDesc(s, key) && a <= b <= |s|
    ensures SortedDesc(s[a..b], key)
  {
    var w := s[a..b];
    forall i, j | 0 <= i < j < |w| ensures key(w[i]) >= key(w[j]) {
      assert w[i] == s[a + i] && w[j] == s[a + j];
    }
  }

  /** The first `n` elements of a sequence sorted by `key`, largest first, rank at least
      as high as every element left out. */
  lemma PrefixOutranksRest<T>(s: seq<T>, key: T -> int, n: nat)
    requires SortedDesc(s, key) && n <= |s|
    ensures forall x, y :: x in s[..n] && y in multiset(s) - multiset(s[..n]) ==> key(x) >= key(y)
  {
    assert s == s[..n] + s[n..];
    assert multiset(s) - multiset(s[..n]) == multiset(s[n..]);
    forall x, y | x in s[..n] && y in multiset(s) - multiset(s[..n]) ensures key(x) >= key(y) {
      assert y in s[n..];
      var i :| 0 <= i < n && s[i] == x;
      var j :| n <= j < |s| && s[j] == y;
    }
  }
}
