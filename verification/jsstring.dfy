/**
  The part of JavaScript's `String.prototype.trim` that the quiz form relies on:
  removing leading and trailing white space from a string. Strings are sequences
  of code points; the white-space set is the union of the WhiteSpace and
  LineTerminator productions of the ECMAScript language specification
  (sections 12.2 and 12.3 of ECMA-262).
 */
module JsString {

  /** A code point that `trim` strips: TAB, LF, VT, FF, CR, SPACE, NBSP, the
      Unicode space separators (category Zs), LINE SEPARATOR, PARAGRAPH
      SEPARATOR and the byte-order mark ZWNBSP. */
  predicate IsWhitespace(c: char)
    // among ASCII code points exactly TAB, LF, VT, FF, CR and SPACE are stripped
    ensures c < '\U{0080}' ==>
              (IsWhitespace(c) <==> c in {'\t', '\n', '\U{000B}', '\U{000C}', '\r', ' '})
    // ZERO WIDTH SPACE, NEXT LINE and MONGOLIAN VOWEL SEPARATOR are kept
    ensures IsWhitespace(c) ==> c != '\U{200B}' && c != '\U{0085}' && c != '\U{180E}'
    // every stripped code point lies in the Basic Multilingual Plane
    ensures IsWhitespace(c) ==> c <= '\U{FEFF}'
  {
    || c == '\t' || c == '\n' || c == '\U{000B}' || c == '\U{000C}' || c == '\r'
    || c == ' ' || c == '\U{00A0}' || c == '\U{1680}'
    || ('\U{2000}' <= c <= '\U{200A}')
    || c == '\U{2028}' || c == '\U{2029}' || c == '\U{202F}' || c == '\U{205F}'
    || c == '\U{3000}' || c == '\U{FEFF}'
  }

  /** Every code point of `s` is white space (the empty string included). */
  predicate IsBlank(s: string) {
    forall k :: 0 <= k < |s| ==> IsWhitespace(s[k])
  }

  /** `s` neither starts nor ends with white space. */
  predicate NoSurroundingSpace(s: string) {
    |s| == 0 || (!IsWhitespace(s[0]) && !IsWhitespace(s[|s| - 1]))
  }

  /** Number of white-space code points at the start of `s`: everything before
      it is white space and the code point at it (if any) is not. */
  function LeadingSpace(s: string): (n: nat)
    ensures n <= |s|
    ensures forall k :: 0 <= k < n ==> IsWhitespace(s[k])
    ensures n < |s| ==> !IsWhitespace(s[n])
  {
    if |s| == 0 || !IsWhitespace(s[0]) then 0 else 1 + LeadingSpace(s[1..])
  }

  /** Number of white-space code points at the end of `s`: everything after
      `|s| - n` is white space and the code point just before it (if any) is not. */
  function TrailingSpace(s: string): (n: nat)
    ensures n <= |s|
    ensures forall k :: |s| - n <= k < |s| ==> IsWhitespace(s[k])
    ensures n < |s| ==> !IsWhitespace(s[|s| - 1 - n])
  {
    if |s| == 0 || !IsWhitespace(s[|s| - 1]) then 0 else 1 + TrailingSpace(s[..|s| - 1])
  }

  /** `s[i..j]` is what is left once the white-space margins of `s` are cut
      away: only white space lies outside it, and it starts and ends with a
      non-white-space code point unless it is empty. */
  predicate TrimBounds(s: string, i: int, j: int) {
    && 0 <= i <= j <= |s|
    && (forall k :: 0 <= k < i ==> IsWhitespace(s[k]))
    && (forall k :: j <= k < |s| ==> IsWhitespace(s[k]))
    && (i < j ==> !IsWhitespace(s[i]) && !IsWhitespace(s[j - 1]))
  }

  /** Reference definition of trimming, independent of how it is computed. */
  ghost predicate IsTrimOf(s: string, r: string) {
    exists i, j :: TrimBounds(s, i, j) && r == s[i..j]
  }

  /** `s.trim()`: `s` without its leading and trailing white space. */
  function Trim(s: string): (r: string)
    ensures IsTrimOf(s, r)
    ensures NoSurroundingSpace(r)
    ensures |r| <= |s|
  {
    var a := LeadingSpace(s);
    var rest := s[a..];
    var b := TrailingSpace(rest);
    assert TrimBounds(s, a, |s| - b);
    rest[..|rest| - b]
  }

  /** The bounds `Trim` cuts at. */
  lemma TrimWitness(s: string) returns (i: int, j: int)
    ensures TrimBounds(s, i, j) && Trim(s) == s[i..j]
  {
    i := LeadingSpace(s);
    j := |s| - TrailingSpace(s[i..]);
    assert TrimBounds(s, i, j);
  }

  /** The bounds of a trim are unique: they are the leading and trailing
      white-space counts. */
  lemma TrimBoundsUnique(s: string, i: int, j: int)
    requires TrimBounds(s, i, j)
    ensures s[i..j] == Trim(s)
  {
    var a := LeadingSpace(s);
    if i < j {
      assert a == i;
      var rest := s[a..];
      var b := TrailingSpace(rest);
      assert rest[j - i - 1] == s[j - 1];
      assert b == |s| - j;
    } else {
      assert a == |s|;
    }
  }

  /** `Trim` computes exactly the reference definition, in both directions. */
  lemma TrimCharacterized(s: string, r: string)
    ensures IsTrimOf(s, r) <==> r == Trim(s)
  {
    if IsTrimOf(s, r) {
      var i, j :| TrimBounds(s, i, j) && r == s[i..j];
      TrimBoundsUnique(s, i, j);
    }
  }

  /** Trimming yields the empty string exactly for blank input. */
  lemma TrimEmptyIffBlank(s: string)
    ensures Trim(s) == "" <==> IsBlank(s)
  {
    var a := LeadingSpace(s);
    if IsBlank(s) {
      assert a == |s|;
    } else {
      var k :| 0 <= k < |s| && !IsWhitespace(s[k]);
      assert a <= k;
      assert s[a..][..|s[a..]| - TrailingSpace(s[a..])] != "" by {
        var rest := s[a..];
        assert rest[0] == s[a];
        assert !IsWhitespace(rest[0]);
        assert TrailingSpace(rest) < |rest|;
      }
    }
  }

  /** A string with no surrounding white space is its own trim. */
  lemma TrimOfTrimmed(s: string)
    requires NoSurroundingSpace(s)
    ensures Trim(s) == s
  {
    assert TrimBounds(s, 0, |s|);
    TrimBoundsUnique(s, 0, |s|);
    assert s[0..|s|] == s;
  }

  /** Trimming twice is trimming once. */
  lemma TrimIdempotent(s: string)
    ensures Trim(Trim(s)) == Trim(s)
  {
    TrimOfTrimmed(Trim(s));
  }

  /** A white-space code point in front of `s` does not change its trim. */
  lemma TrimSkipsLeadingSpace(c: char, s: string)
    requires IsWhitespace(c)
    ensures Trim([c] + s) == Trim(s)
  {
    var i, j := TrimWitness(s);
    var t := [c] + s;
    ShiftedBounds(c, s, i, j);
    TrimBoundsUnique(t, i + 1, j + 1);
    SliceOfCons(c, s, i, j);
  }

  /** Slicing behind a prepended code point is slicing the tail. */
  lemma SliceOfCons(c: char, s: string, i: int, j: int)
    requires 0 <= i <= j <= |s|
    ensures ([c] + s)[i + 1..j + 1] == s[i..j]
  {
    assert ([c] + s)[1..] == s;
  }

  /** Prepending white space shifts the trim bounds by one. */
  lemma ShiftedBounds(c: char, s: string, i: int, j: int)
    requires IsWhitespace(c) && TrimBounds(s, i, j)
    ensures TrimBounds([c] + s, i + 1, j + 1)
  {
    var t := [c] + s;
    assert forall k :: 0 <= k < |s| ==> t[k + 1] == s[k];
    assert IsWhitespace(t[0]);
  }

  /** A white-space code point after `s` does not change its trim. */
  lemma TrimSkipsTrailingSpace(s: string, c: char)
    requires IsWhitespace(c)
    ensures Trim(s + [c]) == Trim(s)
  {
    var i, j := TrimWitness(s);
    var t := s + [c];
    ExtendedBounds(s, c, i, j);
    TrimBoundsUnique(t, i, j);
    assert t[i..j] == s[i..j];
  }

  /** Appending white space keeps the trim bounds. */
  lemma ExtendedBounds(s: string, c: char, i: int, j: int)
    requires IsWhitespace(c) && TrimBounds(s, i, j)
    ensures TrimBounds(s + [c], i, j)
  {
    var t := s + [c];
    assert forall k :: 0 <= k < |s| ==> t[k] == s[k];
    assert IsWhitespace(t[|s|]);
  }
}
