/** Sequence helpers: the `Array.prototype.filter` the client code leans on, and subsequences. */
module Sequences {

  /** `u` can be obtained from `s` by deleting elements, without reordering the rest. */
  predicate IsSubsequence<T(==)>(u: seq<T>, s: seq<T>)
    decreases |s|
  {
    if s == [] then u == []
    else
      (u != [] && u[|u| - 1] == s[|s| - 1] && IsSubsequence(u[..|u| - 1], s[..|s| - 1]))
      || IsSubsequence(u, s[..|s| - 1])
  }

  lemma SubsequenceSkip<T>(u: seq<T>, s: seq<T>, x: T)
    requires IsSubsequence(u, s)
    ensures IsSubsequence(u, s + [x])
  {
    assert (s + [x])[..|s|] == s;
  }

  lemma SubsequenceKeep<T>(u: seq<T>, s: seq<T>, x: T)
    requires IsSubsequence(u, s)
    ensures IsSubsequence(u + [x], s + [x])
  {
    assert (s + [x])[..|s|] == s;
    assert (u + [x])[..|u|] == u;
  }

  /** `s.filter(p)`: the elements of `s` satisfying `p`, in their original order. */
  function Filter<T>(p: T -> bool, s: seq<T>): (r: seq<T>)
    ensures |r| <= |s|
    ensures forall i :: 0 <= i < |r| ==> p(r[i])
    decreases |s|
  {
    if s == [] then []
    else Filter(p, s[..|s| - 1]) + (if p(s[|s| - 1]) then [s[|s| - 1]] else [])
  }

  lemma FilterAppend<T>(p: T -> bool, s: seq<T>, x: T)
    ensures Filter(p, s + [x]) == Filter(p, s) + (if p(x) then [x] else [])
  {
    assert (s + [x])[..|s|] == s;
  }

  /** The filter keeps every occurrence of a satisfying element and none of the others. */
  lemma {:induction false} FilterCount<T>(p: T -> bool, s: seq<T>, x: T)
    ensures multiset(Filter(p, s))[x] == if p(x) then multiset(s)[x] else 0
    decreases |s|
  {
    if s != [] {
      var init, last := s[..|s| - 1], s[|s| - 1];
      assert s == init + [last];
      FilterCount(p, init, x);
      FilterAppend(p, init, last);
    }
  }

  /** The filter keeps the relative order of what it keeps. */
  lemma {:induction false} FilterIsSubsequence<T>(p: T -> bool, s: seq<T>)
    ensures IsSubsequence(Filter(p, s), s)
    decreases |s|
  {
    if s != [] {
      var init, last := s[..|s| - 1], s[|s| - 1];
      assert s == init + [last];
      FilterIsSubsequence(p, init);
      FilterAppend(p, init, last);
      if p(last) {
        SubsequenceKeep(Filter(p, init), init, last);
      } else {
        assert Filter(p, s) == Filter(p, init);
        SubsequenceSkip(Filter(p, init), init, last);
      }
    }
  }

  /** Membership form of FilterCount. */
  lemma FilterMembership<T>(p: T -> bool, s: seq<T>, x: T)
    ensures x in Filter(p, s) <==> x in s && p(x)
  {
    FilterCount(p, s, x);
  }

  lemma {:induction false} SubsequenceOfItself<T>(s: seq<T>)
    ensures IsSubsequence(s, s)
    decreases |s|
  {
    if s != [] {
      SubsequenceOfItself(s[..|s| - 1]);
    }
  }

  /** Replacing one element changes the filter's length by what the two elements contribute. */
  lemma {:induction false} FilterLengthReplace<T>(p: T -> bool, s: seq<T>, i: nat, x: T)
    requires i < |s|
    ensures |Filter(p, s[i := x])| ==
      |Filter(p, s)| - (if p(s[i]) then 1 else 0) + (if p(x) then 1 else 0)
    decreases |s|
  {
    var init, last := s[..|s| - 1], s[|s| - 1];
    assert s == init + [last];
    if i == |s| - 1 {
      assert s[i := x] == init + [x];
      FilterAppend(p, init, x);
      FilterAppend(p, init, last);
    } else {
      FilterLengthReplace(p, init, i, x);
      assert s[i := x] == init[i := x] + [last];
      FilterAppend(p, init[i := x], last);
      FilterAppend(p, init, last);
    }
  }
}
