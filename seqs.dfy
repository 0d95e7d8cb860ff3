/** The list operations the storefront uses everywhere: `Array.prototype.filter`
    and `Array.prototype.find`, over Dafny sequences. */
module Seqs {

  datatype Option<+T> = None | Some(value: T)

  /** `a` is `b` with some elements dropped: every element of `a` occurs in `b`,
      in the same relative order. */
  predicate IsSubsequence<T(==)>(a: seq<T>, b: seq<T>)
    decreases |b|
  {
    if a == [] then true
    else if b == [] then false
    else if a[0] == b[0] then IsSubsequence(a[1..], b[1..])
    else IsSubsequence(a, b[1..])
  }

  /** `filter`: the elements of `s` that satisfy `p`, in their original order,
      each as often as it occurs in `s`. */
  function Filter<T(==)>(s: seq<T>, p: T -> bool): (r: seq<T>)
    ensures |r| <= |s|
    ensures forall x :: x in r ==> x in s && p(x)
    ensures forall x :: x in s && p(x) ==> x in r
    decreases |s|
  {
    if s == [] then []
    else if p(s[0]) then [s[0]] + Filter(s[1..], p)
    else Filter(s[1..], p)
  }

  /** `filter` keeps the order of what it keeps, and drops no copy of it. */
  lemma {:induction false} FilterIsOrderedSelection<T>(s: seq<T>, p: T -> bool)
    ensures IsSubsequence(Filter(s, p), s)
    ensures forall x :: x in s && p(x) ==> multiset(Filter(s, p))[x] == multiset(s)[x]
    decreases |s|
  {
    if s != [] {
      FilterIsOrderedSelection(s[1..], p);
      assert s == [s[0]] + s[1..];
    }
  }

  /** `findIndex`: the position of the first element satisfying `p`, if any. */
  function FirstIndex<T>(s: seq<T>, p: T -> bool): (r: Option<nat>)
    ensures r.None? <==> forall i :: 0 <= i < |s| ==> !p(s[i])
    ensures r.Some? ==> r.value < |s| && p(s[r.value]) && forall j :: 0 <= j < r.value ==> !p(s[j])
    decreases |s|
  {
    if s == [] then None
    else if p(s[0]) then Some(0)
    else match FirstIndex(s[1..], p)
      case None => None
      case Some(k) => Some(k + 1)
  }

  /** `find`: the first element satisfying `p`, or nothing. */
  function FindFirst<T>(s: seq<T>, p: T -> bool): (r: Option<T>)
    ensures r.None? <==> forall x :: x in s ==> !p(x)
    ensures r.Some? ==> exists k :: 0 <= k < |s| && s[k] == r.value && p(s[k]) &&
                                  forall j :: 0 <= j < k ==> !p(s[j])
  {
    match FirstIndex(s, p)
    case None => None
    case Some(k) => Some(s[k])
  }

  /** Filtering with a predicate that holds of every element changes nothing. */
  lemma {:induction false} FilterKeepsAll<T>(s: seq<T>, p: T -> bool)
    requires forall x :: x in s ==> p(x)
    ensures Filter(s, p) == s
    decreases |s|
  {
    if s != [] {
      FilterKeepsAll(s[1..], p);
    }
  }

  /** Two predicates that agree on the elements of `s` filter it alike. */
  lemma {:induction false} FilterCongruent<T>(s: seq<T>, p: T -> bool, q: T -> bool)
    requires forall x :: x in s ==> p(x) == q(x)
    ensures Filter(s, p) == Filter(s, q)
    decreases |s|
  {
    if s != [] {
      FilterCongruent(s[1..], p, q);
    }
  }

  /** Filtering twice is filtering once by the conjunction. */
  lemma {:induction false} FilterTwice<T>(s: seq<T>, p: T -> bool, q: T -> bool, both: T -> bool)
    requires forall x :: both(x) == (p(x) && q(x))
    ensures Filter(Filter(s, p), q) == Filter(s, both)
    decreases |s|
  {
    if s != [] {
      FilterTwice(s[1..], p, q, both);
    }
  }

  /** The head of a non-empty filter result is the element `findIndex` locates. */
  lemma {:induction false} FilterHeadIsFirst<T>(s: seq<T>, p: T -> bool)
    requires Filter(s, p) != []
    ensures FirstIndex(s, p).Some?
    ensures Filter(s, p)[0] == s[FirstIndex(s, p).value]
    decreases |s|
  {
    assert s != [];
    if !p(s[0]) {
      assert Filter(s, p) == Filter(s[1..], p);
      FilterHeadIsFirst(s[1..], p);
      var k := FirstIndex(s[1..], p).value;
      assert FirstIndex(s, p) == Some(k + 1);
      assert s[1..][k] == s[k + 1];
    }
  }
}
