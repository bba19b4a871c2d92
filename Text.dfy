/**
 * Character-level models of the string operations the app relies on: from
 * Foundation, `contains` and `replacingOccurrences(of:with:)` for a single
 * character; from the Swift standard library, `split(separator: " ")` and
 * `lowercased()` (ASCII letters only).
 */
module Text {

  /** `t` occurs at the very front of `s`. */
  predicate IsPrefix(t: string, s: string) {
    |t| <= |s| && s[..|t|] == t
  }

  /** `s.contains(t)`: `t` occurs in `s` as a contiguous block. */
  predicate Contains(s: string, t: string)
    ensures Contains(s, t) ==> |t| <= |s|
    decreases |s|
  {
    IsPrefix(t, s) || (|s| > 0 && Contains(s[1..], t))
  }

  /** Reference definition of an occurrence: `t` starts at position `i` of `s`. */
  ghost predicate OccursAt(s: string, t: string, i: int) {
    0 <= i && i + |t| <= |s| && s[i..i + |t|] == t
  }

  /** A slice of `s` away from its front is the shifted slice of `s[1..]`. */
  lemma DropFirstSlice(s: string, i: int, n: nat)
    requires 1 <= i && i + n <= |s|
    ensures s[i..i + n] == s[1..][i - 1..i - 1 + n]
  {
  }

  /** The scanning test agrees with the positional definition, both ways. */
  lemma {:induction false} ContainsIffOccurs(s: string, t: string)
    ensures Contains(s, t) <==> exists i :: OccursAt(s, t, i)
    decreases |s|
  {
    if IsPrefix(t, s) {
      assert OccursAt(s, t, 0);
    } else if |s| > 0 {
      ContainsIffOccurs(s[1..], t);
      if Contains(s[1..], t) {
        var i :| OccursAt(s[1..], t, i);
        DropFirstSlice(s, i + 1, |t|);
        assert OccursAt(s, t, i + 1);
      } else {
        forall i | OccursAt(s, t, i) ensures i > 0 && OccursAt(s[1..], t, i - 1) {
          DropFirstSlice(s, i, |t|);
        }
      }
    }
  }

  /** `s.replacingOccurrences(of: from, with: to)` for one-character strings. */
  function ReplaceChar(s: string, from: char, to: char): (r: string)
    ensures |r| == |s|
    ensures forall i :: 0 <= i < |s| ==> r[i] == (if s[i] == from then to else s[i])
    ensures from != to ==> from !in r
  {
    if s == [] then [] else [if s[0] == from then to else s[0]] + ReplaceChar(s[1..], from, to)
  }

  /** `s.replacingOccurrences(of: c, with: "")`: every `c` deleted, the rest kept in order. */
  function RemoveChar(s: string, c: char): (r: string)
    ensures c !in r
    ensures c !in s ==> r == s
    ensures forall d :: d != c ==> (d in r <==> d in s)
  {
    if s == [] then []
    else if s[0] == c then RemoveChar(s[1..], c)
    else [s[0]] + RemoveChar(s[1..], c)
  }

  /** Deleting a character commutes with concatenation. */
  lemma {:induction false} RemoveCharAppend(a: string, b: string, c: char)
    ensures RemoveChar(a + b, c) == RemoveChar(a, c) + RemoveChar(b, c)
  {
    if a == [] {
      assert a + b == b;
    } else {
      assert (a + b)[0] == a[0];
      assert (a + b)[1..] == a[1..] + b;
      RemoveCharAppend(a[1..], b, c);
    }
  }

  predicate IsUpperAscii(ch: char) {
    'A' <= ch <= 'Z'
  }

  /** `Character.lowercased()` on ASCII; every other character is left alone. */
  function LowerChar(ch: char): (r: char)
    ensures !IsUpperAscii(r)
    ensures IsUpperAscii(ch) ==> r as int == ch as int + 32
    ensures !IsUpperAscii(ch) ==> r == ch
  {
    if IsUpperAscii(ch) then (ch as int + 32) as char else ch
  }

  /** `String.lowercased()`, restricted to ASCII letters. */
  function Lower(s: string): (r: string)
    ensures |r| == |s|
    ensures forall i :: 0 <= i < |s| ==> r[i] == LowerChar(s[i])
  {
    if s == [] then [] else [LowerChar(s[0])] + Lower(s[1..])
  }

  /** Lower-casing twice is lower-casing once. */
  lemma LowerIdempotent(s: string)
    ensures Lower(Lower(s)) == Lower(s)
  {
    assert forall i :: 0 <= i < |s| ==> Lower(Lower(s))[i] == Lower(s)[i];
  }

  /** Lower-casing leaves spaces where they were and creates no new ones. */
  lemma LowerKeepsSpaces(s: string)
    ensures forall i :: 0 <= i < |s| ==> (Lower(s)[i] == ' ' <==> s[i] == ' ')
    ensures Lower(s) == [] <==> s == []
  {
  }

  /** Length of the leading run of non-space characters. */
  function TokenLength(s: string): (n: nat)
    ensures n <= |s|
    ensures forall i :: 0 <= i < n ==> s[i] != ' '
    ensures n < |s| ==> s[n] == ' '
  {
    if s == [] || s[0] == ' ' then 0 else 1 + TokenLength(s[1..])
  }

  /**
   * `s.split(separator: " ")` with Swift's default of omitting empty pieces:
   * the maximal runs of non-space characters, left to right.
   */
  function Split(s: string): (r: seq<string>)
    ensures forall k :: 0 <= k < |r| ==> r[k] != [] && ' ' !in r[k]
    decreases |s|
  {
    if s == [] then []
    else if s[0] == ' ' then Split(s[1..])
    else
      var n := TokenLength(s);
      [s[..n]] + Split(s[n..])
  }

  ghost predicate AllSpaces(s: string) {
    forall i :: 0 <= i < |s| ==> s[i] == ' '
  }

  /** A text yields no terms exactly when it is made of spaces only (or is empty). */
  lemma {:induction false} SplitEmptyIffBlank(s: string)
    ensures Split(s) == [] <==> AllSpaces(s)
    decreases |s|
  {
    if s != [] && s[0] == ' ' {
      SplitEmptyIffBlank(s[1..]);
      if AllSpaces(s[1..]) {
        assert AllSpaces(s) by {
          forall i | 0 <= i < |s| ensures s[i] == ' ' {
            if i > 0 { assert s[i] == s[1..][i - 1]; }
          }
        }
      } else {
        var j :| 0 <= j < |s[1..]| && s[1..][j] != ' ';
        assert s[j + 1] != ' ';
      }
    }
  }

  /** All pieces joined end to end. */
  function Concat(pieces: seq<string>): string {
    if pieces == [] then [] else pieces[0] + Concat(pieces[1..])
  }

  /** Splitting loses exactly the spaces: joining the terms gives `s` without its spaces. */
  lemma {:induction false} SplitLosesOnlySpaces(s: string)
    ensures Concat(Split(s)) == RemoveChar(s, ' ')
    decreases |s|
  {
    if s == [] {
    } else if s[0] == ' ' {
      SplitLosesOnlySpaces(s[1..]);
    } else {
      var n := TokenLength(s);
      assert s == s[..n] + s[n..];
      var r := Split(s);
      assert r[0] == s[..n] && r[1..] == Split(s[n..]);
      SplitLosesOnlySpaces(s[n..]);
      RemoveCharAppend(s[..n], s[n..], ' ');
      assert ' ' !in s[..n];
    }
  }
  /** The token length is pinned down by its two defining facts. */
  lemma TokenLengthUnique(s: string, n: nat)
    requires n <= |s|
    requires forall i :: 0 <= i < n ==> s[i] != ' '
    requires n < |s| ==> s[n] == ' '
    ensures TokenLength(s) == n
  {
  }

  /** A non-empty text without spaces is a single term: itself. */
  lemma SplitSingleWord(s: string)
    requires s != [] && ' ' !in s
    ensures Split(s) == [s]
  {
    TokenLengthUnique(s, |s|);
    assert s[..|s|] == s;
    assert s[|s|..] == [];
  }

  /** Splitting at a space splits each side on its own: the terms of `a` followed by those of `b`. */
  lemma {:induction false} SplitAroundSpace(a: string, b: string)
    ensures Split(a + " " + b) == Split(a) + Split(b)
    decreases |a|
  {
    var s := a + " " + b;
    if a == [] {
      assert s == " " + b;
      assert s[1..] == b;
    } else if a[0] == ' ' {
      assert s[1..] == a[1..] + " " + b;
      SplitAroundSpace(a[1..], b);
    } else {
      var m := TokenLength(a);
      assert forall i :: 0 <= i < m ==> s[i] == a[i];
      assert s[m] == ' ';
      TokenLengthUnique(s, m);
      assert s[..m] == a[..m];
      assert s[m..] == a[m..] + " " + b;
      SplitAroundSpace(a[m..], b);
    }
  }

  /** Lower-casing works character by character, so it distributes over concatenation. */
  lemma LowerAppend(a: string, b: string)
    ensures Lower(a + b) == Lower(a) + Lower(b)
  {
    assert forall i :: 0 <= i < |a + b| ==> Lower(a + b)[i] == (Lower(a) + Lower(b))[i];
  }

  /** Lower-casing two texts joined by a space lower-cases each of them. */
  lemma LowerJoin(a: string, b: string)
    ensures Lower(a + " " + b) == Lower(a) + " " + Lower(b)
  {
    LowerAppend(a + " ", b);
    LowerAppend(a, " ");
    assert Lower(" ") == " ";
  }
}
