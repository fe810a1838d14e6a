/** Sequence operations the adapter performs through JavaScript's `Array` and `Set`:
    `filter`, `slice(0, n)`, and the insertion-ordered distinct values of
    `Array.from(new Set(...))`. */
module Seqs {

  // ---------------------------------------------------------------------------------
  // Array.prototype.filter
  // ---------------------------------------------------------------------------------

  /** `s.filter(p)`. */
  function Filter<T>(s: seq<T>, p: T -> bool): (r: seq<T>)
    ensures |r| <= |s|
    ensures forall k :: 0 <= k < |r| ==> p(r[k]) && r[k] in s
  {
    if s == [] then [] else (if p(s[0]) then [s[0]] else []) + Filter(s[1..], p)
  }

  /** `a` is `b` with some elements deleted, the rest kept in their order. */
  predicate IsSubsequence<T(==)>(a: seq<T>, b: seq<T>)
    decreases |b|
  {
    if a == [] then true
    else if b == [] then false
    else (a[0] == b[0] && IsSubsequence(a[1..], b[1..])) || IsSubsequence(a, b[1..])
  }

  lemma {:induction false} FilterIsSubsequence<T>(s: seq<T>, p: T -> bool)
    ensures IsSubsequence(Filter(s, p), s)
    decreases |s|
  {
    if s != [] {
      FilterIsSubsequence(s[1..], p);
      var r := Filter(s, p);
      if p(s[0]) {
        assert r[1..] == Filter(s[1..], p);
      } else {
        assert r == Filter(s[1..], p);
      }
    }
  }

  /** Filtering keeps every copy of an element that passes and no copy of one that fails. */
  lemma {:induction false} FilterMultiplicity<T>(s: seq<T>, p: T -> bool, x: T)
    ensures multiset(Filter(s, p))[x] == if p(x) then multiset(s)[x] else 0
    decreases |s|
  {
    if s != [] {
      FilterMultiplicity(s[1..], p, x);
      assert s == [s[0]] + s[1..];
    }
  }

  lemma {:induction false} FilterAppend<T>(a: seq<T>, b: seq<T>, p: T -> bool)
    ensures Filter(a + b, p) == Filter(a, p) + Filter(b, p)
    decreases |a|
  {
    if a != [] {
      FilterAppend(a[1..], b, p);
      assert (a + b)[0] == a[0];
      assert (a + b)[1..] == a[1..] + b;
    } else {
      assert a + b == b;
    }
  }

  // ---------------------------------------------------------------------------------
  // Array.prototype.slice(0, end)
  // ---------------------------------------------------------------------------------

  /** The end index `slice(0, end)` uses on a sequence of length `n`: a negative `end`
      counts from the back, and the result is clamped to `0..n`. */
  function SliceEnd(n: nat, end: int): (e: nat)
    ensures e <= n
    ensures end >= 0 ==> e == if end < n then end else n
    ensures end < 0 ==> e == if n + end > 0 then n + end else 0
  {
    if end < 0 then (if n + end > 0 then n + end else 0)
    else if end < n then end else n
  }

  /** `s.slice(0, end)`. */
  function SliceTo<T>(s: seq<T>, end: int): (r: seq<T>)
    ensures r == s[..SliceEnd(|s|, end)]
  {
    s[..SliceEnd(|s|, end)]
  }

  /** What `slice(0, end)` keeps: a prefix; `end` elements when `0 <= end <= |s|`, all of
      them beyond that, everything but the last `-end` when `end` is negative, and nothing
      once `end <= -|s|`. */
  lemma SliceToPrefix<T>(s: seq<T>, end: int)
    ensures var r := SliceTo(s, end);
      && r == s[..|r|]
      && (0 <= end <= |s| ==> |r| == end)
      && (end >= |s| ==> r == s)
      && (-|s| <= end < 0 ==> r + s[|s| + end..] == s && |s| - |r| == -end)
      && (end <= -|s| ==> r == [])
  {
    var r := SliceTo(s, end);
    if -|s| <= end < 0 {
      assert s == s[..|s| + end] + s[|s| + end..];
    }
  }

  // ---------------------------------------------------------------------------------
  // Array.from(new Set(xs))
  // ---------------------------------------------------------------------------------

  predicate NoDuplicates<T(==)>(s: seq<T>) {
    forall i, j :: 0 <= i < j < |s| ==> s[i] != s[j]
  }

  /** The values of `xs`, each once, in the order of their first occurrence (a `Set` iterates
      in insertion order). */
  function Distinct<T(==,!new)>(xs: seq<T>): (r: seq<T>)
    ensures NoDuplicates(r)
    ensures forall x :: x in r <==> x in xs
  {
    if xs == [] then []
    else
      var r := Distinct(xs[..|xs| - 1]);
      var x := xs[|xs| - 1];
      assert xs == xs[..|xs| - 1] + [x];
      if x in r then r else r + [x]
  }

  /** The distinct values of a prefix are a prefix of the distinct values. */
  lemma {:induction false} DistinctPrefix<T(!new)>(xs: seq<T>, k: nat)
    requires k <= |xs|
    ensures Distinct(xs[..k]) <= Distinct(xs)
    decreases |xs| - k
  {
    if k == |xs| {
      assert xs[..k] == xs;
    } else {
      DistinctPrefix(xs, k + 1);
      assert xs[..k + 1][..k] == xs[..k];
    }
  }

  /** Order of first occurrence: when `xs[j]` occurs for the first time at `j`, it is placed
      right after the distinct values of `xs[..j]`, so every earlier value `xs[i]` comes
      before it. */
  lemma DistinctFirstOccurrence<T(!new)>(xs: seq<T>, i: nat, j: nat)
    requires i < j < |xs| && xs[j] !in xs[..j]
    ensures var d, k := Distinct(xs), |Distinct(xs[..j])|;
      k < |d| && d[k] == xs[j] && xs[i] in d[..k]
  {
    DistinctPrefix(xs, j + 1);
    assert xs[..j + 1][..j] == xs[..j];
    assert xs[i] in xs[..j];
  }

  /** `Set.prototype.add` on an insertion-ordered set held as a sequence. */
  function Add<T(==)>(set_: seq<T>, x: T): (r: seq<T>)
    ensures x in r && (x in set_ ==> r == set_)
  {
    if x in set_ then set_ else set_ + [x]
  }

  /** Adding values one at a time to an insertion-ordered set builds `Distinct`. */
  lemma DistinctSnoc<T(!new)>(xs: seq<T>, x: T)
    ensures Distinct(xs + [x]) == Add(Distinct(xs), x)
  {
    assert (xs + [x])[..|xs + [x]| - 1] == xs;
  }

  /** `Array.prototype.map`: one image per element, each at its element's position. */
  function MapSeq<A, B>(s: seq<A>, f: A -> B): (r: seq<B>)
    ensures |r| == |s|
    ensures forall i :: 0 <= i < |s| ==> r[i] == f(s[i])
  {
    if s == [] then [] else [f(s[0])] + MapSeq(s[1..], f)
  }

  // ---------------------------------------------------------------------------------
  // Fold
  // ---------------------------------------------------------------------------------

  /** Folding from the back: the fold of all elements but the last, then the last. */
  function FoldBack<A, B>(f: (A, B) -> A, a: A, s: seq<B>): A
    decreases |s|
  {
    if s == [] then a else f(FoldBack(f, a, s[..|s| - 1]), s[|s| - 1])
  }
}
