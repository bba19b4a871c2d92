/**
 * The Swift collection operations the view model applies to station lists:
 * `filter` (order-preserving selection), `compactMap` (keep the values a
 * partial function yields) and `sorted(by:)`, here an insertion sort that
 * stands in for the standard library's algorithm.
 */
module Sequences {
  import opened Wrappers

  /** `r` is obtained from `s` by deleting elements, keeping the rest in order. */
  predicate IsSubsequence<T(==)>(r: seq<T>, s: seq<T>)
    decreases |s|
  {
    r == [] || (s != [] && ((r[0] == s[0] && IsSubsequence(r[1..], s[1..])) || IsSubsequence(r, s[1..])))
  }

  /** Every sequence is a subsequence of itself. */
  lemma {:induction false} SubsequenceOfItself<T>(s: seq<T>)
    ensures IsSubsequence(s, s)
  {
    if s != [] {
      SubsequenceOfItself(s[1..]);
    }
  }

  /** An element of a non-empty sequence is in its front part or is its last element. */
  lemma InFrontOrLast<T>(s: seq<T>, x: T)
    requires s != []
    ensures x in s <==> x in s[..|s| - 1] || x == s[|s| - 1]
  {
    assert s == s[..|s| - 1] + [s[|s| - 1]];
  }

  /** `s.filter(p)`. */
  function Filter<T(==,!new)>(s: seq<T>, p: T -> bool): (r: seq<T>)
    ensures forall x :: x in r <==> x in s && p(x)
    ensures IsSubsequence(r, s)
    ensures |r| <= |s|
    ensures forall x :: multiset(r)[x] == if p(x) then multiset(s)[x] else 0
  {
    if s == [] then []
    else
      assert s == [s[0]] + s[1..];
      if p(s[0]) then [s[0]] + Filter(s[1..], p)
      else Filter(s[1..], p)
  }

  /** A filter whose predicate holds everywhere keeps the whole sequence. */
  lemma {:induction false} FilterKeepsAll<T(!new)>(s: seq<T>, p: T -> bool)
    requires forall k :: 0 <= k < |s| ==> p(s[k])
    ensures Filter(s, p) == s
  {
    if s != [] {
      assert p(s[0]);
      FilterKeepsAll(s[1..], p);
    }
  }

  /** Filtering by one test and then by another is filtering by both at once. */
  lemma {:induction false} FilterConjunction<T(!new)>(s: seq<T>, p: T -> bool, q: T -> bool, both: T -> bool)
    requires forall x :: both(x) == (p(x) && q(x))
    ensures Filter(Filter(s, p), q) == Filter(s, both)
  {
    if s != [] {
      FilterConjunction(s[1..], p, q, both);
    }
  }

  /** `compactMap`: the values `g` yields on the elements of `s`, in order, skipping those it yields none for. */
  function CompactMap<T, U>(s: seq<T>, g: T -> Option<U>): (r: seq<U>)
    ensures |r| <= |s|
    ensures |r| == 0 <==> forall k :: 0 <= k < |s| ==> g(s[k]).None?
  {
    if s == [] then []
    else
      var rest := CompactMap(s[1..], g);
      assert forall k :: 1 <= k < |s| ==> s[k] == s[1..][k - 1];
      match g(s[0])
      case Some(v) => [v] + rest
      case None => rest
  }

  /** When `g` yields a value on every element, `compactMap` is the plain map. */
  lemma {:induction false} CompactMapTotal<T, U>(s: seq<T>, g: T -> Option<U>, values: seq<U>)
    requires |values| == |s|
    requires forall k :: 0 <= k < |s| ==> g(s[k]) == Some(values[k])
    ensures CompactMap(s, g) == values
  {
    if s != [] {
      assert g(s[0]) == Some(values[0]);
      CompactMapTotal(s[1..], g, values[1..]);
      assert values == [values[0]] + values[1..];
    }
  }

  /** A value is in the `compactMap` exactly when `g` yields it on some element. */
  lemma {:induction false} CompactMapMembers<T, U>(s: seq<T>, g: T -> Option<U>, x: U)
    ensures x in CompactMap(s, g) <==> exists k :: 0 <= k < |s| && g(s[k]) == Some(x)
  {
    if s != [] {
      CompactMapMembers(s[1..], g, x);
      var r, rest := CompactMap(s, g), CompactMap(s[1..], g);
      assert r == rest || r == [g(s[0]).value] + rest;
      if k :| 0 <= k < |s| && g(s[k]) == Some(x) {
        if k > 0 {
          assert g(s[1..][k - 1]) == Some(x);
        }
      }
      if x in r && x != r[0] {
        var k :| 0 <= k < |s[1..]| && g(s[1..][k]) == Some(x);
        assert g(s[k + 1]) == Some(x);
      }
    }
  }

  /**
   * `compactMap` is `filter` followed by a map: its values are, one for one
   * and in order, those of the elements `g` yields a value for.
   */
  lemma {:induction false} CompactMapOfFilter<T(!new), U>(s: seq<T>, g: T -> Option<U>, p: T -> bool)
    requires forall x :: p(x) == g(x).Some?
    ensures |CompactMap(s, g)| == |Filter(s, p)|
    ensures forall k :: 0 <= k < |CompactMap(s, g)| ==> g(Filter(s, p)[k]) == Some(CompactMap(s, g)[k])
  {
    if s != [] {
      CompactMapOfFilter(s[1..], g, p);
      var r, kept := CompactMap(s, g), Filter(s, p);
      var rest, kept' := CompactMap(s[1..], g), Filter(s[1..], p);
      if p(s[0]) {
        assert r == [g(s[0]).value] + rest && kept == [s[0]] + kept';
        forall k | 0 <= k < |r| ensures g(kept[k]) == Some(r[k]) {
          if k > 0 {
            assert r[k] == rest[k - 1] && kept[k] == kept'[k - 1];
          }
        }
      } else {
        assert r == rest && kept == kept';
      }
    }
  }

  /** Filtering again by the same test changes nothing. */
  lemma {:induction false} FilterTwice<T(!new)>(s: seq<T>, p: T -> bool, q: T -> bool)
    requires forall x :: p(x) == q(x)
    ensures Filter(Filter(s, p), q) == Filter(s, p)
  {
    if s != [] {
      FilterTwice(s[1..], p, q);
      if p(s[0]) {
        var r := Filter(s, p);
        assert r[0] == s[0] && r[1..] == Filter(s[1..], p);
      }
    }
  }

  /** Inserts `x` in front of the first element it is not placed after. */
  function Insert<T(==)>(x: T, s: seq<T>, less: (T, T) -> bool): (r: seq<T>)
    ensures |r| == |s| + 1
    ensures multiset(r) == multiset(s) + multiset{x}
  {
    if s == [] || !less(s[0], x) then [x] + s
    else
      assert s == [s[0]] + s[1..];
      [s[0]] + Insert(x, s[1..], less)
  }

  /** `s.sorted(by: less)`; only its being a rearrangement of `s` is relied on. */
  function SortBy<T(==)>(s: seq<T>, less: (T, T) -> bool): (r: seq<T>)
    ensures |r| == |s|
    ensures multiset(r) == multiset(s)
  {
    if s == [] then []
    else
      assert s == [s[0]] + s[1..];
      Insert(s[0], SortBy(s[1..], less), less)
  }
}
