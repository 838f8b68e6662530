/**
 * The JavaScript string operations the screens rely on:
 * `String.prototype.trim`, `toLowerCase`, `includes`, and the comparison
 * `Array.prototype.sort` uses when it is given no comparator.
 */
module Text {

  /** The characters `trim` removes: ECMAScript WhiteSpace and LineTerminator. */
  const Whitespace: set<char> := {
    '\t', '\n', '\U{000B}', '\U{000C}', '\r', ' ', '\U{00A0}', '\U{1680}',
    '\U{2000}', '\U{2001}', '\U{2002}', '\U{2003}', '\U{2004}', '\U{2005}',
    '\U{2006}', '\U{2007}', '\U{2008}', '\U{2009}', '\U{200A}',
    '\U{2028}', '\U{2029}', '\U{202F}', '\U{205F}', '\U{3000}', '\U{FEFF}'
  }

  predicate IsWhitespace(c: char) {
    c in Whitespace
  }

  predicate AllWhitespace(s: string) {
    forall i :: 0 <= i < |s| ==> IsWhitespace(s[i])
  }

  /** The first index at or after `i` whose character is not whitespace, or `|s|`. */
  function SkipWhitespace(s: string, i: nat): (k: nat)
    requires i <= |s|
    ensures i <= k <= |s|
    ensures forall j :: i <= j < k ==> IsWhitespace(s[j])
    ensures k < |s| ==> !IsWhitespace(s[k])
    decreases |s| - i
  {
    if i < |s| && IsWhitespace(s[i]) then SkipWhitespace(s, i + 1) else i
  }

  /** The end of `s[lo..j]` once its trailing whitespace is dropped. */
  function SkipWhitespaceBack(s: string, lo: nat, j: nat): (e: nat)
    requires lo <= j <= |s|
    ensures lo <= e <= j
    ensures forall m :: e <= m < j ==> IsWhitespace(s[m])
    ensures e > lo ==> !IsWhitespace(s[e - 1])
  {
    if j > lo && IsWhitespace(s[j - 1]) then SkipWhitespaceBack(s, lo, j - 1) else j
  }

  /**
   * `s.trim()`: `s` with its leading and trailing whitespace cut off. The
   * result is a slice of `s` with only whitespace around it, and it is empty
   * exactly when `s` is all whitespace.
   */
  function Trim(s: string): (r: string)
    ensures exists k :: 0 <= k && k + |r| <= |s| && r == s[k..k + |r|] &&
                        AllWhitespace(s[..k]) && AllWhitespace(s[k + |r|..])
    ensures r == [] <==> AllWhitespace(s)
    ensures r != [] ==> !IsWhitespace(r[0]) && !IsWhitespace(r[|r| - 1])
  {
    var k := SkipWhitespace(s, 0);
    var e := SkipWhitespaceBack(s, k, |s|);
    WhitespaceAround(s, k, e);
    var r := s[k..e];
    assert r == s[k..k + |r|];
    assert r != [] ==> r[0] == s[k] && r[|r| - 1] == s[e - 1];
    r
  }

  /** The facts the two scans establish, restated about the slice between them. */
  lemma WhitespaceAround(s: string, k: nat, e: nat)
    requires k <= e <= |s|
    requires forall j :: 0 <= j < k ==> IsWhitespace(s[j])
    requires k < |s| ==> !IsWhitespace(s[k])
    requires forall m :: e <= m < |s| ==> IsWhitespace(s[m])
    requires e > k ==> !IsWhitespace(s[e - 1])
    ensures AllWhitespace(s[..k]) && AllWhitespace(s[e..])
    ensures k == e <==> AllWhitespace(s)
  {
    forall j | 0 <= j < k
      ensures IsWhitespace(s[..k][j])
    {
      assert s[..k][j] == s[j];
    }
    forall m | 0 <= m < |s| - e
      ensures IsWhitespace(s[e..][m])
    {
      assert s[e..][m] == s[e + m];
    }
  }

  /** The case mapping of one character (ASCII letters; everything else is left as it is). */
  function LowerChar(c: char): (d: char)
    ensures IsWhitespace(d) == IsWhitespace(c)
    ensures ('A' <= c <= 'Z') == (d != c)
  {
    if 'A' <= c <= 'Z' then (c as int + 32) as char else c
  }

  /** `s.toLowerCase()`: same length, each character case-mapped. */
  function Lower(s: string): (r: string)
    ensures |r| == |s|
    ensures forall i :: 0 <= i < |s| ==> r[i] == LowerChar(s[i])
  {
    if s == [] then [] else [LowerChar(s[0])] + Lower(s[1..])
  }

  lemma LowerSlice(s: string, i: nat, j: nat)
    requires i <= j <= |s|
    ensures Lower(s[i..j]) == Lower(s)[i..j]
  {
  }

  /** `s.includes(needle)`: `needle` occurs at some position of `haystack` (the empty needle everywhere). */
  predicate Contains(haystack: string, needle: string): (c: bool)
    ensures c ==> |needle| <= |haystack|
  {
    needle <= haystack || (|haystack| > 0 && Contains(haystack[1..], needle))
  }

  /** `needle` sits in `haystack` starting at index `k`. */
  predicate OccursAt(haystack: string, needle: string, k: int) {
    0 <= k && k + |needle| <= |haystack| && haystack[k..k + |needle|] == needle
  }

  /** `includes` holds exactly when the needle occurs at some index of the haystack. */
  lemma {:induction false} ContainsIsOccurrence(haystack: string, needle: string)
    ensures Contains(haystack, needle) <==> exists k :: OccursAt(haystack, needle, k)
    decreases |haystack|
  {
    if needle <= haystack {
      assert OccursAt(haystack, needle, 0);
    } else if |haystack| > 0 {
      ContainsIsOccurrence(haystack[1..], needle);
      if k :| OccursAt(haystack, needle, k) {
        assert k != 0;
        assert haystack[1..][k - 1..k - 1 + |needle|] == haystack[k..k + |needle|];
        assert OccursAt(haystack[1..], needle, k - 1);
      }
      if k :| OccursAt(haystack[1..], needle, k) {
        assert haystack[1..][k..k + |needle|] == haystack[k + 1..k + 1 + |needle|];
        assert OccursAt(haystack, needle, k + 1);
      }
    }
  }

  /** Any slice of a string occurs in it. */
  lemma {:induction false} ContainsSlice(s: string, k: nat, n: nat)
    requires k + n <= |s|
    ensures Contains(s, s[k..k + n])
    decreases k
  {
    if k == 0 {
      assert s[k..k + n] <= s;
    } else {
      ContainsSlice(s[1..], k - 1, n);
      assert s[1..][k - 1..k - 1 + n] == s[k..k + n];
    }
  }

  /** An occurrence survives lower-casing both sides. */
  lemma {:induction false} ContainsLower(haystack: string, needle: string)
    requires Contains(haystack, needle)
    ensures Contains(Lower(haystack), Lower(needle))
  {
    if needle <= haystack {
      LowerSlice(haystack, 0, |needle|);
      assert needle == haystack[..|needle|];
      assert Lower(needle) <= Lower(haystack);
    } else {
      ContainsLower(haystack[1..], needle);
      LowerSlice(haystack, 1, |haystack|);
    }
  }

  /** A string contains its own trimmed form, also after lower-casing both. */
  lemma ContainsOwnTrim(s: string)
    ensures Contains(Lower(s), Lower(Trim(s)))
  {
    var k := SkipWhitespace(s, 0);
    ContainsSlice(s, k, |Trim(s)|);
    ContainsLower(s, Trim(s));
  }

  /** Case mapping never creates or removes whitespace, so the scans stop at the same places. */
  lemma {:induction false} SkipWhitespaceLower(s: string, i: nat)
    requires i <= |s|
    ensures SkipWhitespace(Lower(s), i) == SkipWhitespace(s, i)
    decreases |s| - i
  {
    if i < |s| && IsWhitespace(s[i]) {
      SkipWhitespaceLower(s, i + 1);
    }
  }

  lemma {:induction false} SkipWhitespaceBackLower(s: string, lo: nat, j: nat)
    requires lo <= j <= |s|
    ensures SkipWhitespaceBack(Lower(s), lo, j) == SkipWhitespaceBack(s, lo, j)
  {
    if j > lo && IsWhitespace(s[j - 1]) {
      SkipWhitespaceBackLower(s, lo, j - 1);
    }
  }

  /** `trim` and `toLowerCase` commute. */
  lemma TrimLower(s: string)
    ensures Trim(Lower(s)) == Lower(Trim(s))
  {
    var k := SkipWhitespace(s, 0);
    SkipWhitespaceLower(s, 0);
    SkipWhitespaceBackLower(s, k, |s|);
    LowerSlice(s, k, SkipWhitespaceBack(s, k, |s|));
  }

  /**
   * `a` sorts strictly before `b` in the order `Array.prototype.sort` uses by
   * default: character by character, a proper prefix first.
   */
  predicate Less(a: string, b: string): (l: bool)
    ensures l ==> a != b
  {
    |b| > 0 && (|a| == 0 || a[0] < b[0] || (a[0] == b[0] && Less(a[1..], b[1..])))
  }

  lemma {:induction false} LessAsymmetric(a: string, b: string)
    requires Less(a, b)
    ensures !Less(b, a)
  {
    if |a| > 0 && a[0] == b[0] {
      LessAsymmetric(a[1..], b[1..]);
    }
  }

  /** Two different strings are always ordered one way or the other. */
  lemma {:induction false} LessTotal(a: string, b: string)
    ensures a == b || Less(a, b) || Less(b, a)
  {
    if |a| > 0 && |b| > 0 && a[0] == b[0] {
      LessTotal(a[1..], b[1..]);
      if a[1..] == b[1..] {
        assert a == [a[0]] + a[1..] && b == [b[0]] + b[1..];
      }
    }
  }
}
