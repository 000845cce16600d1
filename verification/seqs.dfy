/** Sequence operations the view model relies on: Swift's
    `removeAll(where:)` as a value, and the facts about it that the
    delete operation needs. */
module Seqs {

  /** `s` with every element satisfying `shouldBeRemoved` taken out. The
      elements that stay keep their relative order, as Swift's
      `removeAll(where:)` guarantees for the elements it keeps. */
  function RemoveAll<T>(s: seq<T>, shouldBeRemoved: T -> bool): (r: seq<T>)
    ensures |r| <= |s|
    ensures forall i :: 0 <= i < |r| ==> !shouldBeRemoved(r[i])
  {
    if s == [] then []
    else if shouldBeRemoved(s[0]) then RemoveAll(s[1..], shouldBeRemoved)
    else [s[0]] + RemoveAll(s[1..], shouldBeRemoved)
  }

  /** Number of elements of `s` satisfying `p`. */
  function Count<T>(s: seq<T>, p: T -> bool): nat
  {
    if s == [] then 0
    else (if p(s[0]) then 1 else 0) + Count(s[1..], p)
  }

  /** `a` can be obtained from `b` by deleting elements: every element of `a`
      occurs in `b`, in the same relative order. */
  ghost predicate IsSubsequence<T>(a: seq<T>, b: seq<T>)
    decreases |b|
  {
    if a == [] then true
    else if b == [] then false
    else (a[0] == b[0] && IsSubsequence(a[1..], b[1..])) || IsSubsequence(a, b[1..])
  }

  /** Removal keeps the relative order of what stays. */
  lemma {:induction false} RemoveAllIsSubsequence<T>(s: seq<T>, p: T -> bool)
    ensures IsSubsequence(RemoveAll(s, p), s)
  {
    if s != [] {
      RemoveAllIsSubsequence(s[1..], p);
      if !p(s[0]) {
        var r := RemoveAll(s, p);
        assert r[0] == s[0] && r[1..] == RemoveAll(s[1..], p);
      }
    }
  }

  /** Removal drops every copy of a matching element and keeps every copy of
      any other element. */
  lemma {:induction false} RemoveAllMultiset<T>(s: seq<T>, p: T -> bool)
    ensures forall x :: multiset(RemoveAll(s, p))[x] == if p(x) then 0 else multiset(s)[x]
  {
    if s != [] {
      RemoveAllMultiset(s[1..], p);
      assert s == [s[0]] + s[1..];
      assert multiset(s) == multiset{s[0]} + multiset(s[1..]);
      if !p(s[0]) {
        assert multiset(RemoveAll(s, p)) == multiset{s[0]} + multiset(RemoveAll(s[1..], p));
      }
    }
  }

  /** Removal takes out exactly the matching elements, one per match. */
  lemma {:induction false} RemoveAllLength<T>(s: seq<T>, p: T -> bool)
    ensures |RemoveAll(s, p)| == |s| - Count(s, p)
  {
    if s != [] {
      RemoveAllLength(s[1..], p);
    }
  }

  /** Removal when nothing matches changes nothing. */
  lemma {:induction false} RemoveAllNoMatch<T>(s: seq<T>, p: T -> bool)
    requires forall i :: 0 <= i < |s| ==> !p(s[i])
    ensures RemoveAll(s, p) == s
  {
    if s != [] {
      RemoveAllNoMatch(s[1..], p);
      assert s == [s[0]] + s[1..];
    }
  }

  /** Removing twice with the same test is removing once. */
  lemma RemoveAllIdempotent<T>(s: seq<T>, p: T -> bool)
    ensures RemoveAll(RemoveAll(s, p), p) == RemoveAll(s, p)
  {
    RemoveAllNoMatch(RemoveAll(s, p), p);
  }

  /** No element matches exactly when the count is zero. */
  lemma {:induction false} CountZero<T>(s: seq<T>, p: T -> bool)
    ensures Count(s, p) == 0 <==> forall i :: 0 <= i < |s| ==> !p(s[i])
  {
    if s != [] {
      CountZero(s[1..], p);
      assert forall i :: 1 <= i < |s| ==> s[i] == s[1..][i - 1];
    }
  }
}
