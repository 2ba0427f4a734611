/**
  JavaScript's `Array.prototype.filter` on immutable sequences, with the notion
  of an order-preserving subsequence used to state what it keeps.
 */
module Sequences {

  /** `a` can be obtained from `b` by deleting elements, keeping the order. */
  ghost predicate IsSubsequence<T>(a: seq<T>, b: seq<T>)
    decreases |b|
  {
    if |a| == 0 then true
    else if |b| == 0 then false
    else (a[0] == b[0] && IsSubsequence(a[1..], b[1..])) || IsSubsequence(a, b[1..])
  }

  /** The elements of `s` that satisfy `p`, in their original order. */
  function Filter<T(==,!new)>(p: T -> bool, s: seq<T>): (r: seq<T>)
    ensures |r| <= |s|
    ensures IsSubsequence(r, s)
    ensures forall i :: 0 <= i < |r| ==> p(r[i])
    ensures forall x :: x in r <==> x in s && p(x)
    ensures forall x :: multiset(r)[x] == if p(x) then multiset(s)[x] else 0
  {
    if |s| == 0 then []
    else
      assert s == [s[0]] + s[1..];
      var rest := Filter(p, s[1..]);
      if p(s[0]) then [s[0]] + rest else rest
  }

  /** Filtering keeps everything when every element passes. */
  lemma {:induction false} FilterKeepsAll<T(!new)>(p: T -> bool, s: seq<T>)
    requires forall i :: 0 <= i < |s| ==> p(s[i])
    ensures Filter(p, s) == s
    decreases |s|
  {
    if |s| > 0 {
      FilterKeepsAll(p, s[1..]);
      calc {
        Filter(p, s);
        [s[0]] + Filter(p, s[1..]);
        [s[0]] + s[1..];
        s;
      }
    }
  }

  /** Filtering leaves nothing exactly when no element passes. */
  lemma FilterEmptyIff<T(!new)>(p: T -> bool, s: seq<T>)
    ensures |Filter(p, s)| == 0 <==> forall i :: 0 <= i < |s| ==> !p(s[i])
  {
    var r := Filter(p, s);
    if |r| > 0 {
      assert r[0] in s;
    }
    if i :| 0 <= i < |s| && p(s[i]) {
      assert s[i] in r;
    }
  }

  /** Filtering twice is filtering once by the conjunction of the two tests. */
  lemma {:induction false} FilterCompose<T(!new)>(inner: T -> bool, outer: T -> bool, both: T -> bool, s: seq<T>)
    requires forall x :: both(x) == (inner(x) && outer(x))
    ensures Filter(outer, Filter(inner, s)) == Filter(both, s)
    decreases |s|
  {
    if |s| > 0 {
      FilterCompose(inner, outer, both, s[1..]);
      var rest := Filter(inner, s[1..]);
      if inner(s[0]) {
        assert Filter(inner, s) == [s[0]] + rest;
        assert ([s[0]] + rest)[1..] == rest;
      }
    }
  }

  /** Filtering keeps every element exactly when every element passes. */
  lemma FilterKeepsAllIff<T(!new)>(p: T -> bool, s: seq<T>)
    ensures |Filter(p, s)| == |s| <==> forall i :: 0 <= i < |s| ==> p(s[i])
  {
    if forall i :: 0 <= i < |s| ==> p(s[i]) {
      FilterKeepsAll(p, s);
    } else {
      FilterDropsOne(p, s);
    }
  }

  /** Filtering drops something when some element fails the test. */
  lemma {:induction false} FilterDropsOne<T(!new)>(p: T -> bool, s: seq<T>)
    requires exists i :: 0 <= i < |s| && !p(s[i])
    ensures |Filter(p, s)| < |s|
    decreases |s|
  {
    if p(s[0]) {
      var i :| 0 <= i < |s| && !p(s[i]);
      assert s[1..][i - 1] == s[i];
      FilterDropsOne(p, s[1..]);
    }
  }

  /** Filtering by two tests that agree everywhere gives the same result. */
  lemma {:induction false} FilterSameTest<T(!new)>(p: T -> bool, q: T -> bool, s: seq<T>)
    requires forall x :: p(x) == q(x)
    ensures Filter(p, s) == Filter(q, s)
    decreases |s|
  {
    if |s| > 0 {
      FilterSameTest(p, q, s[1..]);
    }
  }
}
