/** Order-preserving selection, the relation every `Array.prototype.filter` in the source establishes. */
module Sequences {

  /** `sub` is obtained from `s` by deleting elements, without reordering the rest. */
  ghost predicate IsSubsequence<T>(sub: seq<T>, s: seq<T>)
    decreases |s|
  {
    if sub == [] then true
    else if s == [] then false
    else if sub[0] == s[0] then IsSubsequence(sub[1..], s[1..])
    else IsSubsequence(sub, s[1..])
  }

  /** Dropping the first element of a subsequence keeps it a subsequence. */
  lemma {:induction false} SubsequenceDropFront<T>(sub: seq<T>, s: seq<T>)
    requires sub != [] && IsSubsequence(sub, s)
    ensures IsSubsequence(sub[1..], s)
    decreases |s|, 1
  {
    if sub[0] == s[0] {
      SubsequenceWeaken(sub[1..], s);
    } else {
      SubsequenceDropFront(sub, s[1..]);
      SubsequenceWeaken(sub[1..], s);
    }
  }

  /** A subsequence of the tail of `s` is a subsequence of `s`. */
  lemma {:induction false} SubsequenceWeaken<T>(t: seq<T>, s: seq<T>)
    requires s != [] && IsSubsequence(t, s[1..])
    ensures IsSubsequence(t, s)
    decreases |s|, 0
  {
    if t != [] && t[0] == s[0] {
      SubsequenceDropFront(t, s[1..]);
    }
  }

  /** Every sequence is a subsequence of itself. */
  lemma {:induction false} SubsequenceReflexive<T>(s: seq<T>)
    ensures IsSubsequence(s, s)
  {
    if s != [] {
      SubsequenceReflexive(s[1..]);
    }
  }

  /**
   * One step of `filter(p)`: if `rest` is the filter of the tail, then the head
   * followed by `rest` (when the head is kept) or `rest` alone is the filter of the
   * whole sequence: the kept elements, each as often as before, in order.
   */
  lemma FilterStep<T>(s: seq<T>, rest: seq<T>, p: T -> bool)
    requires s != []
    requires forall x :: multiset(rest)[x] == if p(x) then multiset(s[1..])[x] else 0
    requires IsSubsequence(rest, s[1..]) && |rest| <= |s| - 1
    ensures var r := if p(s[0]) then [s[0]] + rest else rest;
            && (forall x :: multiset(r)[x] == if p(x) then multiset(s)[x] else 0)
            && (forall x :: x in r <==> x in s && p(x))
            && IsSubsequence(r, s) && |r| <= |s|
  {
    assert s == [s[0]] + s[1..];
    assert multiset(s) == multiset{s[0]} + multiset(s[1..]);
    var r := if p(s[0]) then [s[0]] + rest else rest;
    if p(s[0]) {
      assert r[1..] == rest;
      assert multiset(r) == multiset{s[0]} + multiset(rest);
    } else {
      SubsequenceWeaken(rest, s);
    }
    forall x
      ensures x in r <==> x in s && p(x)
    {
      assert x in r <==> multiset(r)[x] > 0;
      assert x in s <==> multiset(s)[x] > 0;
    }
  }

  /** Taking element `k` out of a sequence takes one copy of it out of the multiset. */
  lemma MultisetRemoveAt<T>(s: seq<T>, k: nat)
    requires k < |s|
    ensures multiset(s) == multiset(s[..k] + s[k + 1..]) + multiset{s[k]}
  {
    assert s == s[..k] + [s[k]] + s[k + 1..];
  }

  /** One copy of the same element can be cancelled from both sides. */
  lemma MultisetCancel<T>(a: multiset<T>, b: multiset<T>, x: T)
    requires a + multiset{x} == b + multiset{x}
    ensures a == b
  {
    forall y
      ensures a[y] == b[y]
    {
      assert (a + multiset{x})[y] == (b + multiset{x})[y];
    }
  }

  /**
   * In a reordering of a non-empty sequence the first element occurs at some index
   * `k`, and without it the rest of either sequence is a reordering of the other's.
   */
  lemma MatchHead<T>(l1: seq<T>, l2: seq<T>) returns (k: nat)
    requires l1 != [] && multiset(l1) == multiset(l2)
    ensures k < |l2| && l2[k] == l1[0]
    ensures multiset(l1[1..]) == multiset(l2[..k] + l2[k + 1..])
  {
    assert l1[0] in multiset(l2);
    assert l1[0] in l2;
    k :| 0 <= k < |l2| && l2[k] == l1[0];
    var rest1, rest2 := l1[1..], l2[..k] + l2[k + 1..];
    assert l1 == [l1[0]] + rest1;
    assert multiset(l1) == multiset(rest1) + multiset{l1[0]};
    MultisetRemoveAt(l2, k);
    assert multiset(rest1) + multiset{l1[0]} == multiset(rest2) + multiset{l1[0]};
    MultisetCancel(multiset(rest1), multiset(rest2), l1[0]);
  }
}
