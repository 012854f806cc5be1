/**
 * The JavaScript string operations the handler relies on, over strings as
 * sequences of characters: `String.prototype.indexOf`, the containment it
 * decides, and `String.prototype.trim`.
 */
module Text {
  import opened Wrappers

  /**
   * The characters `trim` removes: ECMAScript WhiteSpace (TAB, VT, FF, ZWNBSP
   * and every space separator of category Zs) and LineTerminator (LF, CR, LS, PS).
   */
  predicate IsWhitespace(c: char)
    ensures IsWhitespace(c) <==> c in LineTerminators || c in FormatSpaces || c in SpaceSeparators
  {
    c == '\t' || c == '\n' || c == '\U{000B}' || c == '\U{000C}' || c == '\r' ||
    c == ' ' || c == '\U{00A0}' || c == '\U{1680}' ||
    ('\U{2000}' <= c <= '\U{200A}') ||
    c == '\U{2028}' || c == '\U{2029}' || c == '\U{202F}' || c == '\U{205F}' ||
    c == '\U{3000}' || c == '\U{FEFF}'
  }

  /** ECMAScript LineTerminator: LF, CR, LINE SEPARATOR and PARAGRAPH SEPARATOR. */
  const LineTerminators: set<char> := {'\n', '\r', '\U{2028}', '\U{2029}'}

  /** The WhiteSpace code points outside category Zs: TAB, VT, FF and ZWNBSP. */
  const FormatSpaces: set<char> := {'\t', '\U{000B}', '\U{000C}', '\U{FEFF}'}

  /** The seventeen code points of Unicode category Zs (space separators). */
  const SpaceSeparators: set<char> := {
    ' ', '\U{00A0}', '\U{1680}',
    '\U{2000}', '\U{2001}', '\U{2002}', '\U{2003}', '\U{2004}', '\U{2005}',
    '\U{2006}', '\U{2007}', '\U{2008}', '\U{2009}', '\U{200A}',
    '\U{202F}', '\U{205F}', '\U{3000}'}

  /** `pat` occurs in `s` starting at index `i`. */
  predicate OccursAt(s: string, pat: string, i: nat)
  {
    i + |pat| <= |s| && s[i..i + |pat|] == pat
  }

  predicate Contains(s: string, pat: string)
  {
    exists i: nat :: i <= |s| && OccursAt(s, pat, i)
  }

  /** `i` is where `pat` occurs first in `s`. */
  predicate IsFirstOccurrence(s: string, pat: string, i: nat)
  {
    OccursAt(s, pat, i) && forall j: nat :: j < i ==> !OccursAt(s, pat, j)
  }

  /** `s.indexOf(pat)`, with `None` for JavaScript's -1. */
  function IndexOf(s: string, pat: string): (r: Option<nat>)
    ensures r.Some? ==> IsFirstOccurrence(s, pat, r.value)
    ensures r.None? <==> !Contains(s, pat)
  {
    IndexFrom(s, pat, 0)
  }

  /** The search of `indexOf`, resumed at index `from`. */
  function IndexFrom(s: string, pat: string, from: nat): (r: Option<nat>)
    ensures r.Some? ==> from <= r.value && OccursAt(s, pat, r.value)
    ensures r.Some? ==> forall j: nat :: from <= j < r.value ==> !OccursAt(s, pat, j)
    ensures r.None? ==> forall j: nat :: from <= j ==> !OccursAt(s, pat, j)
    decreases |s| - from
  {
    if from + |pat| > |s| then None
    else if s[from..from + |pat|] == pat then Some(from)
    else IndexFrom(s, pat, from + 1)
  }

  /** The index of the first non-whitespace character at or after `i`, or `|s|`. */
  function SkipWhitespace(s: string, i: nat): (k: nat)
    requires i <= |s|
    ensures i <= k <= |s|
    ensures forall j :: i <= j < k ==> IsWhitespace(s[j])
    ensures k < |s| ==> !IsWhitespace(s[k])
    decreases |s| - i
  {
    if i < |s| && IsWhitespace(s[i]) then SkipWhitespace(s, i + 1) else i
  }

  /** The end, at most `hi` and at least `lo`, after which `s[lo..hi]` holds only whitespace. */
  function SkipWhitespaceBack(s: string, lo: nat, hi: nat): (k: nat)
    requires lo <= hi <= |s|
    ensures lo <= k <= hi
    ensures forall j :: k <= j < hi ==> IsWhitespace(s[j])
    ensures lo < k ==> !IsWhitespace(s[k - 1])
    decreases hi
  {
    if lo < hi && IsWhitespace(s[hi - 1]) then SkipWhitespaceBack(s, lo, hi - 1) else hi
  }

  /** `s.trim()`: `s` without its leading and trailing whitespace. */
  function Trim(s: string): (r: string)
    ensures |r| <= |s|
    ensures r == [] || (!IsWhitespace(r[0]) && !IsWhitespace(r[|r| - 1]))
    ensures exists lo: nat, hi: nat ::
              lo <= hi <= |s| && r == s[lo..hi]
              && (forall j :: 0 <= j < lo ==> IsWhitespace(s[j]))
              && (forall j :: hi <= j < |s| ==> IsWhitespace(s[j]))
  {
    var lo := SkipWhitespace(s, 0);
    var hi := SkipWhitespaceBack(s, lo, |s|);
    s[lo..hi]
  }

  /**
   * `s.trim()` is the part of `s` between its leading and its trailing
   * whitespace: everything it leaves out is whitespace.
   */
  lemma TrimIsInfix(s: string)
    ensures var lo := SkipWhitespace(s, 0);
      var hi := SkipWhitespaceBack(s, lo, |s|);
      Trim(s) == s[lo..hi]
      && (forall j :: 0 <= j < lo ==> IsWhitespace(s[j]))
      && (forall j :: hi <= j < |s| ==> IsWhitespace(s[j]))
  {
  }

  /** A string without whitespace at either end is its own trim. */
  lemma TrimOfTrimmed(s: string)
    requires s == [] || (!IsWhitespace(s[0]) && !IsWhitespace(s[|s| - 1]))
    ensures Trim(s) == s
  {
    assert SkipWhitespace(s, 0) == 0;
    assert SkipWhitespaceBack(s, 0, |s|) == |s|;
  }

  /** A string shorter than a pattern cannot contain it. */
  lemma ShorterNotContains(s: string, pat: string)
    requires |s| < |pat|
    ensures !Contains(s, pat)
  {
  }

  /** A part of a string cut out of a string free of `pat` is free of it too. */
  lemma {:induction false} NotContainsSlice(s: string, pat: string, lo: nat, hi: nat)
    requires lo <= hi <= |s|
    requires !Contains(s, pat)
    ensures !Contains(s[lo..hi], pat)
  {
    if Contains(s[lo..hi], pat) {
      var i: nat :| i <= hi - lo && OccursAt(s[lo..hi], pat, i);
      assert i + |pat| <= hi - lo;
      forall k | 0 <= k < |pat| ensures s[lo + i + k] == pat[k] {
        assert s[lo..hi][i..i + |pat|][k] == pat[k];
      }
      assert s[lo + i..lo + i + |pat|] == pat;
      assert OccursAt(s, pat, lo + i);
    }
  }

  /** Trimming never creates an occurrence of `pat`. */
  lemma TrimKeepsAbsence(s: string, pat: string)
    requires !Contains(s, pat)
    ensures !Contains(Trim(s), pat)
  {
    var lo := SkipWhitespace(s, 0);
    NotContainsSlice(s, pat, lo, SkipWhitespaceBack(s, lo, |s|));
  }

  /** The text before the first occurrence of `pat` does not contain `pat`. */
  lemma PrefixBeforeFirst(s: string, pat: string, i: nat)
    requires |pat| > 0 && IsFirstOccurrence(s, pat, i)
    ensures !Contains(s[..i], pat)
  {
    if Contains(s[..i], pat) {
      var j: nat :| j <= i && OccursAt(s[..i], pat, j);
      assert j + |pat| <= i;
      assert s[..i][j..j + |pat|] == s[j..j + |pat|];
      assert OccursAt(s, pat, j);
    }
  }
}
