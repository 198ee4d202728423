/**
 * Strings and the trimming that every validation and payload rule of the
 * task manager is built on: ECMAScript's `String.prototype.trim`, which
 * removes leading and trailing white space and line terminators, and the
 * `s || null` rule by which an empty string becomes an absent value.
 */
module Text {
  import opened Opt

  /** The code points `trim` removes: ECMAScript WhiteSpace (TAB, VT, FF,
      ZWNBSP and every Space_Separator) and LineTerminator (LF, CR, LS, PS). */
  const WhitespaceChars: set<char> := {
    '\t', '\n', '\U{000B}', '\U{000C}', '\r', ' ', '\U{00A0}', '\U{1680}',
    '\U{2000}', '\U{2001}', '\U{2002}', '\U{2003}', '\U{2004}', '\U{2005}',
    '\U{2006}', '\U{2007}', '\U{2008}', '\U{2009}', '\U{200A}',
    '\U{2028}', '\U{2029}', '\U{202F}', '\U{205F}', '\U{3000}', '\U{FEFF}'
  }

  predicate IsWhitespace(c: char) {
    c in WhitespaceChars
  }

  /** The characters of `s` at positions `lo` up to (not including) `hi` are all white space. */
  predicate WhitespaceSpan(s: string, lo: int, hi: int) {
    forall k :: lo <= k < hi && 0 <= k < |s| ==> IsWhitespace(s[k])
  }

  /** Every character of `s` is white space (so `s` trims to ""). */
  predicate AllWhitespace(s: string) {
    WhitespaceSpan(s, 0, |s|)
  }

  /** `s` neither starts nor ends with white space: trimming has nothing to remove. */
  predicate IsTrimmed(s: string) {
    |s| == 0 || (!IsWhitespace(s[0]) && !IsWhitespace(s[|s| - 1]))
  }

  /** The length of the white-space run `s` starts with. */
  function LeadingWhitespace(s: string): (n: nat)
    ensures n <= |s| && WhitespaceSpan(s, 0, n)
    ensures n < |s| ==> !IsWhitespace(s[n])
    decreases |s|
  {
    if |s| > 0 && IsWhitespace(s[0]) then
      var n := 1 + LeadingWhitespace(s[1..]);
      assert forall k :: 1 <= k < n ==> s[k] == s[1..][k - 1];
      n
    else 0
  }

  /** The length of the white-space run `s` ends with. */
  function TrailingWhitespace(s: string): (n: nat)
    ensures n <= |s| && WhitespaceSpan(s, |s| - n, |s|)
    ensures n < |s| ==> !IsWhitespace(s[|s| - n - 1])
    decreases |s|
  {
    if |s| > 0 && IsWhitespace(s[|s| - 1]) then
      1 + TrailingWhitespace(s[..|s| - 1])
    else 0
  }

  /** JavaScript `s.trim()`: `s` is the result framed by a white-space prefix
      (of length `LeadingWhitespace(s)`) and a white-space suffix, and the
      result has no white space left at either end. */
  function Trim(s: string): (r: string)
    ensures IsTrimmed(r)
    ensures var i := LeadingWhitespace(s);
      && i + |r| <= |s| && s[i..i + |r|] == r && WhitespaceSpan(s, i + |r|, |s|)
    ensures r == [] <==> AllWhitespace(s)
  {
    var i := LeadingWhitespace(s);
    var t := s[i..];
    var r := t[..|t| - TrailingWhitespace(t)];
    assert forall k :: i + |r| <= k < |s| ==> s[k] == t[k - i];
    assert r != [] ==> s[i] == r[0];
    r
  }

  /** A string that is already trimmed is left alone by `trim`. */
  lemma TrimOfTrimmed(s: string)
    requires IsTrimmed(s)
    ensures Trim(s) == s
  {
    if s != [] {
      assert LeadingWhitespace(s) == 0;
      assert TrailingWhitespace(s) == 0;
    }
  }

  /** Trimming twice is trimming once. */
  lemma TrimIdempotent(s: string)
    ensures Trim(Trim(s)) == Trim(s)
  {
    TrimOfTrimmed(Trim(s));
  }

  /** JavaScript `s || null` (and `s || undefined`) for a string: the empty
      string is falsy, so it becomes absent; any other string is kept. */
  function NullIfEmpty(s: string): (r: Option<string>)
    ensures r.None? <==> s == []
    ensures r.Some? ==> r.value == s
  {
    if s == [] then None else Some(s)
  }

  /** The same rule on a value that may already be undefined: `d || undefined`. */
  function UndefinedIfEmpty(d: Option<string>): (r: Option<string>)
    ensures r.Some? <==> d.Some? && d.value != []
    ensures r.Some? ==> r.value == d.value
  {
    match d
    case Some(s) => NullIfEmpty(s)
    case None => None
  }
}
