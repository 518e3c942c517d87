/**
 * The piece of JavaScript string semantics the form relies on:
 * `String.prototype.trim` and the "blank after trimming" test.
 */
module JsText {

  /**
   * The characters `trim` removes: the ECMAScript WhiteSpace set
   * (TAB, VT, FF, SP, NBSP, ZWNBSP and the Unicode space separators)
   * and the LineTerminator set (LF, CR, LS, PS).
   */
  predicate IsWhitespace(c: char)
  {
    || c == '\t' || c == '\n' || c == '\U{000B}' || c == '\U{000C}' || c == '\r'
    || c == ' ' || c == '\U{00A0}' || c == '\U{1680}'
    || ('\U{2000}' <= c <= '\U{200A}')
    || c == '\U{2028}' || c == '\U{2029}' || c == '\U{202F}' || c == '\U{205F}'
    || c == '\U{3000}' || c == '\U{FEFF}'
  }

  /** How many whitespace characters `s` starts with. */
  function LeadingWhitespace(s: string): (n: nat)
    ensures n <= |s|
    ensures forall i :: 0 <= i < n ==> IsWhitespace(s[i])
    ensures n < |s| ==> !IsWhitespace(s[n])
  {
    if s != [] && IsWhitespace(s[0]) then 1 + LeadingWhitespace(s[1..]) else 0
  }

  /** How many whitespace characters `s` ends with. */
  function TrailingWhitespace(s: string): (n: nat)
    ensures n <= |s|
    ensures forall i :: |s| - n <= i < |s| ==> IsWhitespace(s[i])
    ensures n < |s| ==> !IsWhitespace(s[|s| - n - 1])
  {
    if s != [] && IsWhitespace(s[|s| - 1]) then 1 + TrailingWhitespace(s[..|s| - 1]) else 0
  }

  /** `s[lo..hi]` is what is left of `s` once whitespace-only margins are cut off both ends. */
  ghost predicate WhitespaceMargins(s: string, lo: int, hi: int)
  {
    && 0 <= lo <= hi <= |s|
    && (forall i :: 0 <= i < lo ==> IsWhitespace(s[i]))
    && (forall i :: hi <= i < |s| ==> IsWhitespace(s[i]))
  }

  /** JavaScript `s.trim()`: a contiguous slice of `s`, with only whitespace cut on either side. */
  function Trim(s: string): (r: string)
    ensures exists lo, hi :: WhitespaceMargins(s, lo, hi) && r == s[lo..hi]
    ensures r == [] || (!IsWhitespace(r[0]) && !IsWhitespace(r[|r| - 1]))
  {
    var lo := LeadingWhitespace(s);
    var hi := |s| - TrailingWhitespace(s[lo..]);
    assert forall i :: hi <= i < |s| ==> s[i] == s[lo..][i - lo];
    assert WhitespaceMargins(s, lo, hi);
    s[lo..hi]
  }

  /** "Blank": nothing is left after `trim()`. */
  predicate IsBlank(s: string)
  {
    Trim(s) == []
  }

  /** A string is blank exactly when every character of it is whitespace. */
  lemma BlankIffAllWhitespace(s: string)
    ensures IsBlank(s) <==> forall i :: 0 <= i < |s| ==> IsWhitespace(s[i])
  {
    var r := Trim(s);
    var lo, hi :| WhitespaceMargins(s, lo, hi) && r == s[lo..hi];
    if r == [] {
      assert lo == hi;
      forall i | 0 <= i < |s| ensures IsWhitespace(s[i]) {
        if i >= lo { assert i >= hi; }
      }
    } else {
      assert s[lo] == r[0];
      assert !IsWhitespace(s[lo]);
    }
  }
}
