/**
 Sequence vocabulary shared by the report passes: keeping the elements that
 pass a test in their original order, being an order-preserving subsequence,
 and the first-seen order of the distinct keys of an insertion-ordered
 dictionary.
 */
module Sequences {

  /** The elements of `s` that satisfy `p`, in the order they appear in `s`. */
  function Filter<T>(s: seq<T>, p: T -> bool): seq<T>
  {
    if s == [] then []
    else Filter(s[..|s| - 1], p) + (if p(s[|s| - 1]) then [s[|s| - 1]] else [])
  }

  /** `sub` can be obtained from `s` by deleting elements, without reordering. */
  ghost predicate IsSubsequence<T>(sub: seq<T>, s: seq<T>)
  {
    if sub == [] then true
    else if s == [] then false
    else (sub[|sub| - 1] == s[|s| - 1] && IsSubsequence(sub[..|sub| - 1], s[..|s| - 1]))
         || IsSubsequence(sub, s[..|s| - 1])
  }

  /** No element occurs twice. */
  ghost predicate Distinct<T>(s: seq<T>)
  {
    forall i, j :: 0 <= i < j < |s| ==> s[i] != s[j]
  }

  /** The distinct elements of `s`, each at the place of its first occurrence. */
  function FirstSeen<T(==)>(s: seq<T>): seq<T>
  {
    if s == [] then []
    else
      var seen := FirstSeen(s[..|s| - 1]);
      if s[|s| - 1] in seen then seen else seen + [s[|s| - 1]]
  }

  /** Filtering one more element extends the earlier result by at most that element. */
  lemma FilterSnoc<T>(s: seq<T>, x: T, p: T -> bool)
    ensures Filter(s + [x], p) == Filter(s, p) + (if p(x) then [x] else [])
  {
  }

  /** An element is kept exactly when it occurs in the input and passes the test. */
  lemma {:induction false} FilterMembers<T>(s: seq<T>, p: T -> bool)
    ensures forall x :: x in Filter(s, p) <==> x in s && p(x)
  {
    if s != [] {
      var init, last := s[..|s| - 1], s[|s| - 1];
      assert s == init + [last];
      FilterMembers(init, p);
    }
  }

  /** Filtering never reorders: the result is a subsequence of the input. */
  lemma {:induction false} FilterIsSubsequence<T>(s: seq<T>, p: T -> bool)
    ensures IsSubsequence(Filter(s, p), s)
  {
    if s != [] {
      var init, last := s[..|s| - 1], s[|s| - 1];
      FilterIsSubsequence(init, p);
      var f := Filter(s, p);
      if p(last) {
        assert f == Filter(init, p) + [last];
        assert f[..|f| - 1] == Filter(init, p) && f[|f| - 1] == last;
        assert IsSubsequence(f[..|f| - 1], s[..|s| - 1]);
      } else {
        assert f == Filter(init, p);
        assert f != [] ==> IsSubsequence(f, s[..|s| - 1]);
      }
    }
  }

  /** Filtering by a test that agrees with `p` on every element of `s` gives the same result. */
  lemma {:induction false} FilterAgrees<T>(s: seq<T>, p: T -> bool, q: T -> bool)
    requires forall i :: 0 <= i < |s| ==> p(s[i]) == q(s[i])
    ensures Filter(s, p) == Filter(s, q)
  {
    if s != [] {
      FilterAgrees(s[..|s| - 1], p, q);
    }
  }

  /** The first-seen keys are exactly the keys of `s`, each listed once. */
  lemma {:induction false} FirstSeenKeys<T>(s: seq<T>)
    ensures forall x :: x in FirstSeen(s) <==> x in s
    ensures Distinct(FirstSeen(s))
  {
    if s != [] {
      var init := s[..|s| - 1];
      assert s == init + [s[|s| - 1]];
      FirstSeenKeys(init);
    }
  }
}
