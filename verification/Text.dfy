/**
 * JavaScript's `String.prototype.trim`, which the chat screens use to refuse
 * blank input. A Dafny string is a sequence of Unicode scalar values where a
 * JavaScript string holds UTF-16 code units; `trim` behaves the same on both,
 * because every character it strips lies in the Basic Multilingual Plane.
 */
module Text {

  /**
   * The characters `trim` strips: ECMAScript's WhiteSpace (TAB, VT, FF, ZWNBSP
   * and every character of the Unicode category Zs) and LineTerminator
   * (LF, CR, LS, PS).
   */
  predicate IsJsWhitespace(c: char) {
    || c == '\t' || c == '\n' || c == '\U{000B}' || c == '\U{000C}' || c == '\r'
    || c == ' ' || c == '\U{00A0}' || c == '\U{1680}'
    || ('\U{2000}' <= c <= '\U{200A}')
    || c == '\U{2028}' || c == '\U{2029}' || c == '\U{202F}' || c == '\U{205F}'
    || c == '\U{3000}' || c == '\U{FEFF}'
  }

  predicate AllWhitespace(s: string) {
    forall i :: 0 <= i < |s| ==> IsJsWhitespace(s[i])
  }

  /** Drops the leading whitespace: the result is the longest suffix that starts with a non-whitespace character. */
  function TrimStart(s: string): (r: string)
    ensures |r| <= |s| && r == s[|s| - |r|..]
    ensures AllWhitespace(s[..|s| - |r|])
    ensures r != [] ==> !IsJsWhitespace(r[0])
  {
    if s != [] && IsJsWhitespace(s[0]) then TrimStart(s[1..]) else s
  }

  /** Drops the trailing whitespace: the result is the longest prefix that ends with a non-whitespace character. */
  function TrimEnd(s: string): (r: string)
    ensures |r| <= |s| && r == s[..|r|]
    ensures AllWhitespace(s[|r|..])
    ensures r != [] ==> !IsJsWhitespace(r[|r| - 1])
  {
    if s != [] && IsJsWhitespace(s[|s| - 1]) then TrimEnd(s[..|s| - 1]) else s
  }

  /** `s.trim()`: the result is empty exactly when every character of `s` is whitespace. */
  function Trim(s: string): (r: string)
    ensures |r| <= |s|
    ensures r == [] <==> AllWhitespace(s)
    ensures r != [] ==> !IsJsWhitespace(r[0]) && !IsJsWhitespace(r[|r| - 1])
  {
    var e := TrimEnd(s);
    assert AllWhitespace(e) ==> e == [] by {
      if e != [] { assert !IsJsWhitespace(e[|e| - 1]); }
    }
    assert s[0..] == s;
    TrimStart(e)
  }

  /** The guard `s.trim() === ''` of both send handlers. */
  predicate IsBlank(s: string) {
    Trim(s) == []
  }
}
