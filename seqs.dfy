/**
 * `Array.prototype.filter` on sequences, and what it keeps: a subsequence of its
 * input, in the input's order, holding exactly the elements that pass the test.
 */
module Seqs {

  /** `s.filter(p)`. */
  function KeepIf<T(==)>(s: seq<T>, p: T -> bool): (r: seq<T>)
    ensures |r| <= |s|
    ensures forall i :: 0 <= i < |r| ==> r[i] in s && p(r[i])
    ensures forall i :: 0 <= i < |s| && p(s[i]) ==> s[i] in r
    ensures multiset(r) <= multiset(s)
  {
    if s == [] then []
    else
      assert s == [s[0]] + s[1..];
      if p(s[0]) then [s[0]] + KeepIf(s[1..], p) else KeepIf(s[1..], p)
  }

  /** Filtering keeps every occurrence of a passing item and none of a failing one. */
  lemma {:induction false} KeepIfCounts<T>(s: seq<T>, p: T -> bool, x: T)
    ensures multiset(KeepIf(s, p))[x] == if p(x) then multiset(s)[x] else 0
  {
    if s != [] {
      var rest := KeepIf(s[1..], p);
      KeepIfCounts(s[1..], p, x);
      assert s == [s[0]] + s[1..];
      assert multiset(s) == multiset([s[0]]) + multiset(s[1..]);
      if p(s[0]) {
        assert KeepIf(s, p) == [s[0]] + rest;
        assert multiset([s[0]] + rest) == multiset([s[0]]) + multiset(rest);
      } else {
        assert KeepIf(s, p) == rest;
      }
    }
  }

  /** `a` is obtained from `b` by deleting elements, without reordering the rest. */
  ghost predicate IsSubsequence<T>(a: seq<T>, b: seq<T>)
    decreases |b|
  {
    if a == [] then true
    else if b == [] then false
    else (a[0] == b[0] && IsSubsequence(a[1..], b[1..])) || IsSubsequence(a, b[1..])
  }

  lemma {:induction false} KeepIfIsSubsequence<T>(s: seq<T>, p: T -> bool)
    ensures IsSubsequence(KeepIf(s, p), s)
  {
    if s != [] {
      KeepIfIsSubsequence(s[1..], p);
      if !p(s[0]) && KeepIf(s[1..], p) != [] {
        assert IsSubsequence(KeepIf(s, p), s[1..]);
      }
    }
  }

  /** The conjunction of two tests. */
  function Both<T>(p: T -> bool, q: T -> bool): T -> bool {
    x => p(x) && q(x)
  }

  /** Filtering twice is filtering once by the conjunction of the two tests. */
  lemma {:induction false} KeepIfTwice<T>(s: seq<T>, p: T -> bool, q: T -> bool)
    ensures KeepIf(KeepIf(s, p), q) == KeepIf(s, Both(p, q))
  {
    if s != [] {
      KeepIfTwice(s[1..], p, q);
      if p(s[0]) {
        assert KeepIf(s, p) == [s[0]] + KeepIf(s[1..], p);
        assert KeepIf(s, p)[1..] == KeepIf(s[1..], p);
      }
    }
  }

  /** Two tests that agree on every element keep the same elements. */
  lemma {:induction false} KeepIfSameTest<T>(s: seq<T>, p: T -> bool, q: T -> bool)
    requires forall i :: 0 <= i < |s| ==> p(s[i]) == q(s[i])
    ensures KeepIf(s, p) == KeepIf(s, q)
  {
    if s != [] {
      KeepIfSameTest(s[1..], p, q);
    }
  }

  /** Filtering by a test that fails everywhere keeps nothing. */
  lemma KeepIfNone<T>(s: seq<T>, p: T -> bool)
    requires forall i :: 0 <= i < |s| ==> !p(s[i])
    ensures KeepIf(s, p) == []
  {
  }
}
