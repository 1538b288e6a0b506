/**
 * The array operations the scheduler is built from: `filter`, and the
 * order-preservation relation every filter result stands in to its input.
 */
module Seqs {

  import opened Types

  /**
   * `s` contains `r` in order, possibly with gaps. The greedy match is a
   * complete test: if `r[0]` can be matched at all it can be matched to the
   * first occurrence.
   */
  ghost predicate IsSubsequence<T>(r: seq<T>, s: seq<T>)
    decreases |s|
  {
    if r == [] then true
    else if s == [] then false
    else if r[0] == s[0] then IsSubsequence(r[1..], s[1..])
    else IsSubsequence(r, s[1..])
  }

  /** `s.filter(p)`: exactly the elements satisfying `p`. */
  function Filter<T(==)>(s: seq<T>, p: T -> bool): (r: seq<T>)
    ensures |r| <= |s|
    ensures forall x :: x in r ==> x in s && p(x)
    ensures forall x :: x in s && p(x) ==> x in r
  {
    if s == [] then []
    else
      assert forall x :: x in s ==> x == s[0] || x in s[1..];
      (if p(s[0]) then [s[0]] else []) + Filter(s[1..], p)
  }

  /** The filter keeps its input's order. */
  lemma {:induction false} FilterIsSubsequence<T>(s: seq<T>, p: T -> bool)
    ensures IsSubsequence(Filter(s, p), s)
  {
    if s != [] {
      var rest := Filter(s[1..], p);
      FilterIsSubsequence(s[1..], p);
      if p(s[0]) {
        assert Filter(s, p)[1..] == rest;
      } else {
        assert Filter(s, p) == rest;
        assert rest != [] ==> rest[0] in rest && rest[0] != s[0];
      }
    }
  }

  /** The filter keeps each element it keeps as often as the input holds it. */
  lemma {:induction false} FilterCounts<T>(s: seq<T>, p: T -> bool)
    ensures forall x :: x in s ==> multiset(Filter(s, p))[x] == if p(x) then multiset(s)[x] else 0
  {
    if s != [] {
      FilterCounts(s[1..], p);
      assert s == [s[0]] + s[1..];
      assert forall x :: x in s ==> x == s[0] || x in s[1..];
    }
  }

  /** Nothing is dropped exactly when every element satisfies the predicate. */
  lemma {:induction false} FilterKeepsAll<T>(s: seq<T>, p: T -> bool)
    ensures |Filter(s, p)| == |s| <==> forall x :: x in s ==> p(x)
  {
    if s != [] {
      FilterKeepsAll(s[1..], p);
      assert forall x :: x in s ==> x == s[0] || x in s[1..];
    }
  }

  /**
   * `r` is the selection of `s` by `p`: exactly the elements satisfying
   * `p`, each as often as `s` holds it, in the order of `s`.
   */
  ghost predicate Selects<T>(r: seq<T>, s: seq<T>, p: T -> bool) {
    && (forall x :: x in r ==> x in s && p(x))
    && (forall x :: x in s && p(x) ==> x in r && multiset(r)[x] == multiset(s)[x])
    && IsSubsequence(r, s)
  }

  lemma FilterSelects<T>(s: seq<T>, p: T -> bool)
    ensures Selects(Filter(s, p), s, p)
  {
    FilterIsSubsequence(s, p);
    FilterCounts(s, p);
  }

  /** A subsequence holds each value at most as often as its host. */
  lemma {:induction false} SubsequenceCounts<T>(r: seq<T>, s: seq<T>)
    requires IsSubsequence(r, s)
    ensures multiset(r) <= multiset(s)
    decreases |s|
  {
    if r != [] && s != [] {
      assert s == [s[0]] + s[1..];
      if r[0] == s[0] {
        SubsequenceCounts(r[1..], s[1..]);
        assert r == [r[0]] + r[1..];
      } else {
        SubsequenceCounts(r, s[1..]);
      }
    }
  }

  /** A selection starts with the host's first element when that element is selected. */
  lemma SelectsHead<T>(r: seq<T>, s: seq<T>, p: T -> bool)
    requires Selects(r, s, p) && s != [] && p(s[0])
    ensures r != [] && r[0] == s[0]
  {
    var x := s[0];
    assert x in r;
    assert s == [x] + s[1..];
    assert multiset(s)[x] == multiset(s[1..])[x] + 1;
    if r[0] != x {
      SubsequenceCounts(r, s[1..]);
      assert false;
    }
  }

  /** Dropping the shared first element of a selection and its host leaves a selection. */
  lemma SelectsDropKept<T>(r: seq<T>, s: seq<T>, p: T -> bool)
    requires Selects(r, s, p) && s != [] && r != [] && r[0] == s[0]
    ensures Selects(r[1..], s[1..], p)
  {
    var x, r', s' := s[0], r[1..], s[1..];
    assert s == [x] + s' && r == [x] + r';
    assert multiset(s) == multiset{x} + multiset(s');
    assert multiset(r) == multiset{x} + multiset(r');
    SubsequenceMembers(r', s');
    assert forall y :: y in r' ==> y in r;
    forall y | y in s' && p(y) ensures y in r' && multiset(r')[y] == multiset(s')[y] {
      assert y in s;
      assert multiset(r)[y] == multiset(s)[y];
    }
  }

  /** Dropping an unselected first element of the host leaves a selection. */
  lemma SelectsDropSkipped<T>(r: seq<T>, s: seq<T>, p: T -> bool)
    requires Selects(r, s, p) && s != [] && !p(s[0])
    ensures Selects(r, s[1..], p)
  {
    var x, s' := s[0], s[1..];
    assert s == [x] + s';
    assert multiset(s) == multiset{x} + multiset(s');
    if r != [] {
      assert r[0] in r;
    }
    SubsequenceMembers(r, s');
    forall y | y in s' && p(y) ensures y in r && multiset(r)[y] == multiset(s')[y] {
      assert y in s && y != x;
    }
  }

  /** `Selects` pins the result down: the only selection of `s` by `p` is `Filter(s, p)`. */
  lemma {:induction false} SelectsIsFilter<T>(r: seq<T>, s: seq<T>, p: T -> bool)
    requires Selects(r, s, p)
    ensures r == Filter(s, p)
  {
    if s != [] {
      var x, s' := s[0], s[1..];
      assert s == [x] + s';
      FilterCons(x, s', p);
      if p(x) {
        SelectsHead(r, s, p);
        SelectsDropKept(r, s, p);
        SelectsIsFilter(r[1..], s', p);
        assert r == [x] + r[1..];
      } else {
        SelectsDropSkipped(r, s, p);
        SelectsIsFilter(r, s', p);
      }
    }
  }

  /** Filtering with two predicates that agree everywhere gives the same result. */
  lemma {:induction false} FilterAgrees<T>(s: seq<T>, p: T -> bool, q: T -> bool)
    requires forall x :: p(x) == q(x)
    ensures Filter(s, p) == Filter(s, q)
  {
    if s != [] {
      FilterAgrees(s[1..], p, q);
    }
  }

  /** Filtering twice is filtering once with both predicates. */
  lemma {:induction false} FilterTwice<T>(s: seq<T>, p: T -> bool, q: T -> bool, both: T -> bool)
    requires forall x :: both(x) == (p(x) && q(x))
    ensures Filter(Filter(s, p), q) == Filter(s, both)
  {
    if s != [] {
      var x, rest := s[0], Filter(s[1..], p);
      FilterTwice(s[1..], p, q, both);
      assert Filter(s, both) == (if both(x) then [x] else []) + Filter(s[1..], both);
      if p(x) {
        assert Filter(s, p) == [x] + rest;
        FilterCons(x, rest, q);
      } else {
        assert Filter(s, p) == rest;
      }
    }
  }

  /** A selection relation proved for one predicate holds for any predicate that agrees with it. */
  lemma SelectsAgrees<T>(r: seq<T>, s: seq<T>, p: T -> bool, q: T -> bool)
    requires forall x :: p(x) == q(x)
    requires Selects(r, s, p)
    ensures Selects(r, s, q)
  {
  }

  /** A subsequence holds nothing its host does not. */
  lemma {:induction false} SubsequenceMembers<T>(r: seq<T>, s: seq<T>)
    requires IsSubsequence(r, s)
    ensures forall x :: x in r ==> x in s
    decreases |s|
  {
    if r != [] && s != [] {
      if r[0] == s[0] {
        SubsequenceMembers(r[1..], s[1..]);
        assert forall x :: x in r ==> x == r[0] || x in r[1..];
      } else {
        SubsequenceMembers(r, s[1..]);
      }
    }
  }

  /** Filtering a sequence with a known first element. */
  lemma FilterCons<T>(x: T, s: seq<T>, p: T -> bool)
    ensures Filter([x] + s, p) == (if p(x) then [x] else []) + Filter(s, p)
  {
    assert ([x] + s)[0] == x;
    assert ([x] + s)[1..] == s;
  }

  /** Position of the first element satisfying `p`, or -1 when there is none (`findIndex`). */
  function FindIndex<T>(s: seq<T>, p: T -> bool): (i: int)
    ensures -1 <= i < |s|
    ensures i == -1 <==> forall j :: 0 <= j < |s| ==> !p(s[j])
    ensures i >= 0 ==> p(s[i]) && forall j :: 0 <= j < i ==> !p(s[j])
  {
    if s == [] then -1
    else if p(s[0]) then 0
    else
      var k := FindIndex(s[1..], p);
      if k == -1 then -1 else k + 1
  }

  /**
   * `s.find(p)`: the first element satisfying `p`, or nothing when no
   * element does.
   */
  function Find<T>(s: seq<T>, p: T -> bool): (r: Option<T>)
    ensures r.None? <==> forall j :: 0 <= j < |s| ==> !p(s[j])
    ensures r.Some? ==> r.value in s && p(r.value)
    ensures r.Some? ==> exists i :: 0 <= i < |s| && s[i] == r.value && forall j :: 0 <= j < i ==> !p(s[j])
  {
    var i := FindIndex(s, p);
    if i == -1 then None else Some(s[i])
  }
}
