/** Sequence operations the source takes from `Array.prototype`: `slice(-n)` and `filter`. */
module Sequences {

  /** The last `n` elements of `s`, or all of it when it is shorter (`s.slice(-n)` for n > 0). */
  function LastN<T>(s: seq<T>, n: nat): (r: seq<T>)
    ensures |r| == if |s| < n then |s| else n
    ensures r == s[|s| - |r|..]
  {
    if |s| <= n then s else s[|s| - n..]
  }

  /** The elements of `s` that satisfy `f`, in their order in `s` (`s.filter(f)`). */
  function Filter<T>(s: seq<T>, f: T -> bool): seq<T> {
    if s == [] then [] else (if f(s[0]) then [s[0]] else []) + Filter(s[1..], f)
  }

  /**
   * What `filter` keeps: no more elements than `s` has, only elements of `s` that satisfy
   * `f`, every element of `s` that does, and no element more often than `s` holds it.
   */
  lemma {:induction false} FilterSpec<T>(s: seq<T>, f: T -> bool)
    ensures var r := Filter(s, f);
      && |r| <= |s|
      && (forall i :: 0 <= i < |r| ==> f(r[i]) && r[i] in s)
      && (forall i :: 0 <= i < |s| && f(s[i]) ==> s[i] in r)
      && multiset(r) <= multiset(s)
  {
    if s != [] {
      FilterSpec(s[1..], f);
      var rest := Filter(s[1..], f);
      var r := Filter(s, f);
      assert s == [s[0]] + s[1..];
      if f(s[0]) {
        assert r == [s[0]] + rest;
        assert forall i :: 1 <= i < |r| ==> r[i] == rest[i - 1];
      } else {
        assert r == rest;
      }
      assert forall i :: 1 <= i < |s| ==> s[i] == s[1..][i - 1];
    }
  }

  /** `a` can be obtained from `b` by deleting elements: it is an order-preserving subsequence. */
  predicate IsSubsequence<T(==)>(a: seq<T>, b: seq<T>)
    decreases |b|
  {
    a == [] || (b != [] && ((a[0] == b[0] && IsSubsequence(a[1..], b[1..])) || IsSubsequence(a, b[1..])))
  }

  lemma {:induction false} FilterIsSubsequence<T>(s: seq<T>, f: T -> bool)
    ensures IsSubsequence(Filter(s, f), s)
  {
    if s != [] {
      FilterIsSubsequence(s[1..], f);
      var r := Filter(s, f);
      if f(s[0]) {
        assert r == [s[0]] + Filter(s[1..], f);
        assert r[1..] == Filter(s[1..], f);
      } else {
        assert r == Filter(s[1..], f);
      }
    }
  }

  /** Filtering twice is filtering once by the conjunction. */
  lemma {:induction false} FilterFilter<T>(s: seq<T>, f: T -> bool, g: T -> bool, h: T -> bool)
    requires forall x :: h(x) == (f(x) && g(x))
    ensures Filter(Filter(s, f), g) == Filter(s, h)
  {
    if s != [] {
      FilterFilter(s[1..], f, g, h);
      var a := Filter(s, f);
      if f(s[0]) {
        assert a == [s[0]] + Filter(s[1..], f);
        assert a[0] == s[0] && a[1..] == Filter(s[1..], f);
        assert Filter(a, g) == (if g(s[0]) then [s[0]] else []) + Filter(Filter(s[1..], f), g);
      } else {
        assert a == Filter(s[1..], f);
      }
    }
  }

  /** Filtering by a predicate every element satisfies changes nothing. */
  lemma {:induction false} FilterKeepsAll<T>(s: seq<T>, f: T -> bool)
    requires forall x :: x in s ==> f(x)
    ensures Filter(s, f) == s
  {
    if s != [] {
      FilterKeepsAll(s[1..], f);
      assert s == [s[0]] + s[1..];
    }
  }

  /** Filters by two predicates that only depend on the elements' agreement give the same result. */
  lemma {:induction false} FilterCongruent<T>(s: seq<T>, f: T -> bool, g: T -> bool)
    requires forall x :: x in s ==> f(x) == g(x)
    ensures Filter(s, f) == Filter(s, g)
  {
    if s != [] {
      FilterCongruent(s[1..], f, g);
    }
  }

  /** A predicate and its negation split `s` into two filters that together hold each element once. */
  lemma {:induction false} FilterSplit<T>(s: seq<T>, f: T -> bool, g: T -> bool)
    requires forall x :: g(x) == !f(x)
    ensures multiset(Filter(s, f)) + multiset(Filter(s, g)) == multiset(s)
  {
    if s != [] {
      FilterSplit(s[1..], f, g);
      assert s == [s[0]] + s[1..];
    }
  }
}
