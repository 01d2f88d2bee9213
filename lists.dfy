/** The array operations the pages use (`filter`, `reduce`, `sort`, `slice`, `includes`),
    stated over sequences. */
module Lists {

  /** `s.filter(p)`: the elements of `s` that satisfy `p`, in their original order. */
  function Filter<T>(s: seq<T>, p: T -> bool): (r: seq<T>)
    ensures |r| <= |s|
    ensures forall i :: 0 <= i < |r| ==> r[i] in s && p(r[i])
    ensures forall i :: 0 <= i < |s| && p(s[i]) ==> s[i] in r
  {
    if s == [] then []
    else if p(s[0]) then [s[0]] + Filter(s[1..], p)
    else Filter(s[1..], p)
  }

  /** `a` is `b` with some elements deleted: an order-preserving subsequence. */
  predicate IsSubsequence<T(==)>(a: seq<T>, b: seq<T>)
    decreases |b|
  {
    if a == [] then true
    else if b == [] then false
    else (a[0] == b[0] && IsSubsequence(a[1..], b[1..])) || IsSubsequence(a, b[1..])
  }

  lemma {:induction false} SubsequenceTransitive<T>(a: seq<T>, b: seq<T>, c: seq<T>)
    requires IsSubsequence(a, b) && IsSubsequence(b, c)
    ensures IsSubsequence(a, c)
    decreases |c|
  {
    if a != [] && c != [] {
      if b[0] == c[0] && IsSubsequence(b[1..], c[1..]) {
        if a[0] == b[0] && IsSubsequence(a[1..], b[1..]) {
          SubsequenceTransitive(a[1..], b[1..], c[1..]);
        } else {
          SubsequenceTransitive(a, b[1..], c[1..]);
        }
      } else {
        SubsequenceTransitive(a, b, c[1..]);
      }
    }
  }

  lemma {:induction false} SubsequenceReflexive<T>(a: seq<T>)
    ensures IsSubsequence(a, a)
  {
    if a != [] {
      SubsequenceReflexive(a[1..]);
    }
  }

  /** A subsequence holds no element more often than the sequence it comes from. */
  lemma {:induction false} SubsequenceMultiset<T>(a: seq<T>, b: seq<T>)
    requires IsSubsequence(a, b)
    ensures multiset(a) <= multiset(b)
    decreases |b|
  {
    if a != [] {
      assert b == [b[0]] + b[1..];
      if a[0] == b[0] && IsSubsequence(a[1..], b[1..]) {
        SubsequenceMultiset(a[1..], b[1..]);
        assert a == [a[0]] + a[1..];
      } else {
        SubsequenceMultiset(a, b[1..]);
      }
    }
  }

  lemma {:induction false} FilterIsSubsequence<T>(s: seq<T>, p: T -> bool)
    ensures IsSubsequence(Filter(s, p), s)
  {
    if s != [] {
      FilterIsSubsequence(s[1..], p);
      var r := Filter(s, p);
      if p(s[0]) {
        assert r[0] == s[0] && r[1..] == Filter(s[1..], p);
      }
    }
  }

  /** `if (b) filtered = filtered.filter(p)`: a filter applied only when its criterion is set. */
  function FilterWhen<T>(b: bool, s: seq<T>, p: T -> bool): (r: seq<T>)
    ensures IsSubsequence(r, s)
    ensures !b ==> r == s
    ensures b ==> r == Filter(s, p)
  {
    if b then
      FilterIsSubsequence(s, p);
      Filter(s, p)
    else
      SubsequenceReflexive(s);
      s
  }

  /** A filter step applied only when `b` keeps an element as many times as it occurs when the
      step is off or the element passes it, and drops it otherwise. */
  lemma FilterWhenMultiplicity<T>(b: bool, s: seq<T>, p: T -> bool, x: T)
    ensures multiset(FilterWhen(b, s, p))[x] == if !b || p(x) then multiset(s)[x] else 0
  {
    if b {
      FilterMultiplicity(s, p, x);
    }
  }

  /** A filter keeps each element as many times as it occurs, or not at all:
      it neither drops a match nor introduces a duplicate. */
  lemma {:induction false} FilterMultiplicity<T>(s: seq<T>, p: T -> bool, x: T)
    ensures multiset(Filter(s, p))[x] == if p(x) then multiset(s)[x] else 0
  {
    if s != [] {
      FilterMultiplicity(s[1..], p, x);
      assert s == [s[0]] + s[1..];
    }
  }

  lemma {:induction false} FilterAppend<T>(a: seq<T>, b: seq<T>, p: T -> bool)
    ensures Filter(a + b, p) == Filter(a, p) + Filter(b, p)
  {
    if a != [] {
      FilterAppend(a[1..], b, p);
      assert (a + b)[1..] == a[1..] + b;
    } else {
      assert a + b == b;
    }
  }

  /** Applying the same filter twice gives the result of applying it once. */
  lemma {:induction false} FilterIdempotent<T>(s: seq<T>, p: T -> bool)
    ensures Filter(Filter(s, p), p) == Filter(s, p)
  {
    if s != [] {
      FilterIdempotent(s[1..], p);
    }
  }

  /** A filter every element passes gives back its input. */
  lemma {:induction false} FilterKeepsAll<T>(s: seq<T>, p: T -> bool)
    requires forall i :: 0 <= i < |s| ==> p(s[i])
    ensures Filter(s, p) == s
  {
    if s != [] {
      FilterKeepsAll(s[1..], p);
    }
  }

  predicate NoDup<T(==)>(s: seq<T>) {
    forall i, j :: 0 <= i < j < |s| ==> s[i] != s[j]
  }

  /** A sequence without duplicates holds each element at most once. */
  lemma {:induction false} NoDupMultiplicity<T>(s: seq<T>, x: T)
    requires NoDup(s)
    ensures multiset(s)[x] == if x in s then 1 else 0
  {
    if s != [] {
      assert NoDup(s[1..]) by {
        forall i, j | 0 <= i < j < |s[1..]| ensures s[1..][i] != s[1..][j] {
          assert s[1..][i] == s[i + 1] && s[1..][j] == s[j + 1];
        }
      }
      NoDupMultiplicity(s[1..], x);
      assert s == [s[0]] + s[1..];
      assert s[0] !in s[1..] by {
        forall j | 0 <= j < |s[1..]| ensures s[1..][j] != s[0] {
          assert s[1..][j] == s[j + 1];
        }
      }
    }
  }

  /** An element that occurs at two positions occurs at least twice. */
  lemma TwoPositions<T>(s: seq<T>, i: int, j: int)
    requires 0 <= i < j < |s| && s[i] == s[j]
    ensures multiset(s)[s[i]] >= 2
  {
    assert s == s[..j] + s[j..];
    assert s[i] in s[..j];
    assert s[j] in s[j..];
    assert multiset(s) == multiset(s[..j]) + multiset(s[j..]);
  }

  /** Having no duplicates is a property of the multiset: permutations keep it. */
  lemma PermutationNoDup<T>(a: seq<T>, b: seq<T>)
    requires multiset(a) == multiset(b) && NoDup(a)
    ensures NoDup(b)
  {
    forall i, j | 0 <= i < j < |b| ensures b[i] != b[j] {
      if b[i] == b[j] {
        TwoPositions(b, i, j);
        NoDupMultiplicity(a, b[i]);
        assert false;
      }
    }
  }

  /** Filtering keeps a sequence free of duplicates. */
  lemma FilterNoDup<T>(s: seq<T>, p: T -> bool)
    requires NoDup(s)
    ensures NoDup(Filter(s, p))
  {
    var r := Filter(s, p);
    forall i, j | 0 <= i < j < |r| ensures r[i] != r[j] {
      if r[i] == r[j] {
        TwoPositions(r, i, j);
        FilterMultiplicity(s, p, r[i]);
        NoDupMultiplicity(s, r[i]);
        assert false;
      }
    }
  }

  /** `s.reduce((sum, x) => sum + f(x), 0)`. */
  function Sum<T>(s: seq<T>, f: T -> int): int {
    if s == [] then 0 else f(s[0]) + Sum(s[1..], f)
  }

  lemma {:induction false} SumAppend<T>(a: seq<T>, b: seq<T>, f: T -> int)
    ensures Sum(a + b, f) == Sum(a, f) + Sum(b, f)
  {
    if a == [] {
      assert a + b == b;
    } else {
      assert (a + b)[1..] == a[1..] + b;
      SumAppend(a[1..], b, f);
    }
  }

  /** Taking one element out of a sequence takes its value out of the sum. */
  lemma SumRemove<T>(b: seq<T>, i: nat, f: T -> int)
    requires i < |b|
    ensures Sum(b, f) == f(b[i]) + Sum(b[..i] + b[i + 1..], f)
  {
    assert b == b[..i] + ([b[i]] + b[i + 1..]);
    SumAppend(b[..i], [b[i]] + b[i + 1..], f);
    SumAppend(b[..i], b[i + 1..], f);
    assert ([b[i]] + b[i + 1..])[1..] == b[i + 1..];
  }

  /** Taking one element out of a sequence takes it out of the multiset. */
  lemma MultisetRemove<T>(b: seq<T>, i: nat)
    requires i < |b|
    ensures multiset(b[..i] + b[i + 1..]) == multiset(b) - multiset{b[i]}
  {
    assert b == b[..i] + ([b[i]] + b[i + 1..]);
    assert multiset(b) == multiset(b[..i]) + multiset{b[i]} + multiset(b[i + 1..]);
  }

  /** The sum does not depend on the order of the elements. */
  lemma {:induction false} SumPermutation<T>(a: seq<T>, b: seq<T>, f: T -> int)
    requires multiset(a) == multiset(b)
    ensures Sum(a, f) == Sum(b, f)
    decreases |a|
  {
    if a != [] {
      var x := a[0];
      assert a == [x] + a[1..];
      assert x in multiset(b);
      var i :| 0 <= i < |b| && b[i] == x;
      var rest := b[..i] + b[i + 1..];
      MultisetRemove(b, i);
      assert multiset(a[1..]) == multiset(a) - multiset{x};
      SumPermutation(a[1..], rest, f);
      SumRemove(b, i, f);
    }
  }

  /** Two functions that agree on the elements give the same sum. */
  lemma {:induction false} SumCongruent<T>(s: seq<T>, f: T -> int, g: T -> int)
    requires forall i :: 0 <= i < |s| ==> f(s[i]) == g(s[i])
    ensures Sum(s, f) == Sum(s, g)
  {
    if s != [] {
      SumCongruent(s[1..], f, g);
    }
  }

  /** The sum of a sequence of numbers. */
  function Total(xs: seq<int>): int {
    if xs == [] then 0 else xs[0] + Total(xs[1..])
  }

  /** Summing over a filter is summing, over everything, the values that pass it. */
  lemma {:induction false} SumFilter<T>(s: seq<T>, p: T -> bool, f: T -> int, g: T -> int)
    requires forall x :: g(x) == if p(x) then f(x) else 0
    ensures Sum(Filter(s, p), f) == Sum(s, g)
  {
    if s != [] {
      SumFilter(s[1..], p, f, g);
    }
  }

  /** The sum of a pointwise sum is the sum of the sums. */
  lemma {:induction false} SumAdd<T>(s: seq<T>, f: T -> int, g: T -> int, h: T -> int)
    requires forall x :: h(x) == f(x) + g(x)
    ensures Sum(s, h) == Sum(s, f) + Sum(s, g)
  {
    if s != [] {
      SumAdd(s[1..], f, g, h);
    }
  }

  /** Filtering by `p` and by its negation `q` splits the sum in two. */
  lemma SumSplit<T>(s: seq<T>, f: T -> int, p: T -> bool, q: T -> bool)
    requires forall x :: q(x) == !p(x)
    ensures Sum(Filter(s, p), f) + Sum(Filter(s, q), f) == Sum(s, f)
  {
    var fp := (x: T) => if p(x) then f(x) else 0;
    var fq := (x: T) => if q(x) then f(x) else 0;
    SumFilter(s, p, f, fp);
    SumFilter(s, q, f, fq);
    SumAdd(s, fp, fq, f);
  }

  /** The sum over a filter whose predicate is the union of two exclusive ones. */
  lemma SumDisjointUnion<T>(s: seq<T>, f: T -> int, p: T -> bool, q: T -> bool, pq: T -> bool)
    requires forall x :: pq(x) == (p(x) || q(x))
    requires forall x :: !(p(x) && q(x))
    ensures Sum(Filter(s, pq), f) == Sum(Filter(s, p), f) + Sum(Filter(s, q), f)
  {
    var fp := (x: T) => if p(x) then f(x) else 0;
    var fq := (x: T) => if q(x) then f(x) else 0;
    var fpq := (x: T) => if pq(x) then f(x) else 0;
    SumFilter(s, p, f, fp);
    SumFilter(s, q, f, fq);
    SumFilter(s, pq, f, fpq);
    SumAdd(s, fp, fq, fpq);
  }

  /** Two filters by exclusive predicates keep, together, no more elements than there are. */
  lemma {:induction false} FilterDisjointLength<T>(s: seq<T>, p: T -> bool, q: T -> bool)
    requires forall i :: 0 <= i < |s| ==> !(p(s[i]) && q(s[i]))
    ensures |Filter(s, p)| + |Filter(s, q)| <= |s|
  {
    if s != [] {
      assert forall i :: 0 <= i < |s[1..]| ==> s[1..][i] == s[i + 1];
      FilterDisjointLength(s[1..], p, q);
    }
  }

  /** A filter that keeps nothing rejects every element. */
  lemma {:induction false} FilterNone<T>(s: seq<T>, p: T -> bool)
    requires |Filter(s, p)| == 0
    ensures forall i :: 0 <= i < |s| ==> !p(s[i])
  {
    if s != [] {
      FilterNone(s[1..], p);
      assert forall i :: 1 <= i < |s| ==> s[i] == s[1..][i - 1];
    }
  }

  /** A filter that rejects some element is shorter than its input. */
  lemma {:induction false} FilterShorter<T>(s: seq<T>, p: T -> bool, i: int)
    requires 0 <= i < |s| && !p(s[i])
    ensures |Filter(s, p)| < |s|
  {
    if i > 0 {
      FilterShorter(s[1..], p, i - 1);
    }
  }

  /** The test that keeps everything but `v`. */
  function Other<T(==)>(v: T): T -> bool {
    (x: T) => x != v
  }

  /** Filtering out `v` drops every copy of `v` and keeps every other value as often as before. */
  lemma FilterOtherMultiplicity<T>(s: seq<T>, v: T)
    ensures forall x :: multiset(Filter(s, Other(v)))[x] == if x == v then 0 else multiset(s)[x]
  {
    forall x ensures multiset(Filter(s, Other(v)))[x] == if x == v then 0 else multiset(s)[x] {
      FilterMultiplicity(s, Other(v), x);
    }
  }

  /** The facet toggle: remove every copy of `v` if present, otherwise append `v`. */
  function Toggle<T(==,!new)>(s: seq<T>, v: T): (r: seq<T>)
    ensures v in r <==> v !in s
    ensures forall i :: 0 <= i < |r| ==> r[i] == v || r[i] in s
    ensures forall i :: 0 <= i < |s| && s[i] != v ==> s[i] in r
    ensures v !in s ==> r == s + [v]
    ensures v in s ==> IsSubsequence(r, s) && |r| < |s|
    ensures v in s ==> forall x :: multiset(r)[x] == if x == v then 0 else multiset(s)[x]
  {
    if v in s then
      var r := Filter(s, Other(v));
      FilterIsSubsequence(s, Other(v));
      FilterOtherMultiplicity(s, v);
      var i :| 0 <= i < |s| && s[i] == v;
      FilterShorter(s, Other(v), i);
      r
    else s + [v]
  }

  /** Toggling keeps a selection free of duplicates. */
  lemma ToggleNoDup<T(!new)>(s: seq<T>, v: T)
    requires NoDup(s)
    ensures NoDup(Toggle(s, v))
  {
    if v in s {
      FilterNoDup(s, Other(v));
    }
  }

  /** Toggling an absent value twice restores the list exactly. */
  lemma ToggleTwiceAbsent<T(!new)>(s: seq<T>, v: T)
    requires v !in s
    ensures Toggle(Toggle(s, v), v) == s
  {
    var p := Other(v);
    FilterAppend(s, [v], p);
    FilterKeepsAll(s, p);
    assert Filter([v], p) == [];
  }

  /** Toggling a present value twice moves it to the end: on a duplicate-free list the result
      is a permutation of the input, and still duplicate-free. */
  lemma ToggleTwicePresent<T(!new)>(s: seq<T>, v: T)
    requires v in s && NoDup(s)
    ensures multiset(Toggle(Toggle(s, v), v)) == multiset(s)
    ensures NoDup(Toggle(Toggle(s, v), v))
  {
    var p := Other(v);
    var t := Filter(s, p);
    assert Toggle(s, v) == t;
    assert v !in t;
    assert Toggle(t, v) == t + [v];
    forall x ensures multiset(t + [v])[x] == multiset(s)[x] {
      FilterMultiplicity(s, p, x);
      NoDupMultiplicity(s, x);
    }
    assert multiset(t + [v]) == multiset(s);
    PermutationNoDup(s, t + [v]);
  }

  /** `s.slice(0, end)`: how many elements a prefix slice keeps, with JavaScript's rules for a
      negative end (counted from the back) and for an end past the length. */
  function SliceEnd(n: nat, end: int): (k: nat)
    ensures k <= n
    ensures end >= 0 ==> k == if end < n then end else n
    ensures end < 0 ==> k == if n + end > 0 then n + end else 0
  {
    if end < 0 then (if n + end > 0 then n + end else 0)
    else if end < n then end else n
  }

  /** `s.slice(0, end)`. */
  function SlicePrefix<T>(s: seq<T>, end: int): (r: seq<T>)
    ensures r <= s
    ensures |r| == SliceEnd(|s|, end)
  {
    s[..SliceEnd(|s|, end)]
  }

  // ---------------------------------------------------------------------------------------------
  // Stable sorting by a key

  /** `le` orders every pair of keys and is transitive (a total preorder). */
  ghost predicate TotalPreorder<K(!new)>(le: (K, K) -> bool) {
    (forall a, b :: le(a, b) || le(b, a)) &&
    (forall a, b, c :: le(a, b) && le(b, c) ==> le(a, c))
  }

  predicate SortedBy<T, K>(s: seq<T>, key: T -> K, le: (K, K) -> bool) {
    forall i, j :: 0 <= i < j < |s| ==> le(key(s[i]), key(s[j]))
  }

  /** Puts `x` in front of the first element whose key it may precede. */
  function Insert<T, K>(x: T, s: seq<T>, key: T -> K, le: (K, K) -> bool): (r: seq<T>)
    ensures multiset(r) == multiset(s) + multiset{x}
  {
    if s == [] then [x]
    else if le(key(x), key(s[0])) then [x] + s
    else
      assert s == [s[0]] + s[1..];
      [s[0]] + Insert(x, s[1..], key, le)
  }

  /** `s.sort(cmp)`, insertion-sorting from the back: a stable sort, as JavaScript's sort is. */
  function SortBy<T, K>(s: seq<T>, key: T -> K, le: (K, K) -> bool): (r: seq<T>)
    ensures multiset(r) == multiset(s)
    ensures |r| == |s|
  {
    if s == [] then []
    else
      assert s == [s[0]] + s[1..];
      Insert(s[0], SortBy(s[1..], key, le), key, le)
  }

  lemma {:induction false} InsertSorted<T, K(!new)>(x: T, s: seq<T>, key: T -> K, le: (K, K) -> bool)
    requires TotalPreorder(le)
    requires SortedBy(s, key, le)
    ensures SortedBy(Insert(x, s, key, le), key, le)
  {
    if s != [] && !le(key(x), key(s[0])) {
      var tail := Insert(x, s[1..], key, le);
      InsertSorted(x, s[1..], key, le);
      var r := [s[0]] + tail;
      forall j | 0 < j < |r| ensures le(key(s[0]), key(r[j])) {
        assert r[j] in multiset(tail);
        assert r[j] == x || r[j] in s[1..];
      }
    }
  }

  /** The sort orders its result by `le`. */
  lemma {:induction false} SortBySorted<T, K(!new)>(s: seq<T>, key: T -> K, le: (K, K) -> bool)
    requires TotalPreorder(le)
    ensures SortedBy(SortBy(s, key, le), key, le)
  {
    if s != [] {
      SortBySorted(s[1..], key, le);
      InsertSorted(s[0], SortBy(s[1..], key, le), key, le);
    }
  }

  /** The elements of `s` whose key is `k`, in order. */
  function WithKey<T, K(==)>(s: seq<T>, key: T -> K, k: K): seq<T> {
    if s == [] then []
    else if key(s[0]) == k then [s[0]] + WithKey(s[1..], key, k)
    else WithKey(s[1..], key, k)
  }

  lemma WithKeyCons<T, K>(a: T, t: seq<T>, key: T -> K, k: K)
    ensures WithKey([a] + t, key, k) == (if key(a) == k then [a] else []) + WithKey(t, key, k)
  {
    assert ([a] + t)[1..] == t;
  }

  lemma {:induction false} InsertWithKey<T, K(!new)>(x: T, s: seq<T>, key: T -> K, le: (K, K) -> bool, k: K)
    requires forall a :: le(a, a)
    ensures WithKey(Insert(x, s, key, le), key, k) == (if key(x) == k then [x] else []) + WithKey(s, key, k)
  {
    if s == [] {
      WithKeyCons(x, [], key, k);
    } else if le(key(x), key(s[0])) {
      WithKeyCons(x, s, key, k);
    } else {
      var t := Insert(x, s[1..], key, le);
      assert Insert(x, s, key, le) == [s[0]] + t;
      InsertWithKey(x, s[1..], key, le, k);
      assert le(key(x), key(x));
      assert s == [s[0]] + s[1..];
      WithKeyPast(x, s[0], s[1..], t, key, k);
    }
  }

  /** Passing over an element of another key does not reorder the elements of key `k`. */
  lemma WithKeyPast<T, K>(x: T, y: T, s: seq<T>, t: seq<T>, key: T -> K, k: K)
    requires key(x) != key(y)
    requires WithKey(t, key, k) == (if key(x) == k then [x] else []) + WithKey(s, key, k)
    ensures WithKey([y] + t, key, k) == (if key(x) == k then [x] else []) + WithKey([y] + s, key, k)
  {
    WithKeyCons(y, t, key, k);
    WithKeyCons(y, s, key, k);
  }

  /** Stability: the elements that share a key keep their original relative order. */
  lemma {:induction false} SortByStable<T, K(!new)>(s: seq<T>, key: T -> K, le: (K, K) -> bool, k: K)
    requires forall a :: le(a, a)
    ensures WithKey(SortBy(s, key, le), key, k) == WithKey(s, key, k)
  {
    if s != [] {
      SortByStable(s[1..], key, le, k);
      InsertWithKey(s[0], SortBy(s[1..], key, le), key, le, k);
    }
  }

  /** A filter of a sorted sequence is sorted. */
  lemma {:induction false} FilterSorted<T, K>(s: seq<T>, p: T -> bool, key: T -> K, le: (K, K) -> bool)
    requires SortedBy(s, key, le)
    ensures SortedBy(Filter(s, p), key, le)
  {
    if s != [] {
      FilterSorted(s[1..], p, key, le);
      var r := Filter(s, p);
      if p(s[0]) {
        forall j | 0 < j < |r| ensures le(key(r[0]), key(r[j])) {
          assert r[j] in Filter(s[1..], p);
        }
      }
    }
  }

  /** A total preorder is reflexive. */
  lemma TotalPreorderReflexive<K(!new)>(le: (K, K) -> bool)
    requires TotalPreorder(le)
    ensures forall a :: le(a, a)
  {
    forall a ensures le(a, a) {
      assert le(a, a) || le(a, a);
    }
  }
}
