/**
 * The two JavaScript string primitives the prompt endpoint relies on:
 * `String.prototype.trim` and the `isEmpty` helper built on it
 * (`!str.trim().length`).
 *
 * Dafny strings are sequences of Unicode scalar values, JavaScript strings are
 * sequences of UTF-16 code units; every code point that `trim` strips lies in
 * the Basic Multilingual Plane, so the two views agree on what is removed.
 */
module JsString {

  /** ECMAScript WhiteSpace and LineTerminator code points: exactly the
      characters `trim` strips from both ends of a string. */
  predicate IsWhitespace(c: char) {
    // WhiteSpace: TAB, VT, FF, ZWNBSP and every Zs space separator
    || c == '\t' || c == '\U{000B}' || c == '\U{000C}' || c == '\U{FEFF}'
    || c == ' ' || c == '\U{00A0}' || c == '\U{1680}'
    || ('\U{2000}' <= c <= '\U{200A}')
    || c == '\U{202F}' || c == '\U{205F}' || c == '\U{3000}'
    // LineTerminator: LF, CR, LINE SEPARATOR, PARAGRAPH SEPARATOR
    || c == '\n' || c == '\r' || c == '\U{2028}' || c == '\U{2029}'
  }

  /** `s` with its leading whitespace removed: a suffix of `s` that does not
      start with whitespace, everything cut off being whitespace. */
  function TrimStart(s: string): (r: string)
    ensures |r| <= |s| && r == s[|s| - |r|..]
    ensures forall i :: 0 <= i < |s| - |r| ==> IsWhitespace(s[i])
    ensures r == [] || !IsWhitespace(r[0])
  {
    if |s| > 0 && IsWhitespace(s[0]) then TrimStart(s[1..]) else s
  }

  /** `s` with its trailing whitespace removed: a prefix of `s` that does not
      end with whitespace, everything cut off being whitespace. */
  function TrimEnd(s: string): (r: string)
    ensures |r| <= |s| && r == s[..|r|]
    ensures forall i :: |r| <= i < |s| ==> IsWhitespace(s[i])
    ensures r == [] || !IsWhitespace(r[|r| - 1])
  {
    if |s| > 0 && IsWhitespace(s[|s| - 1]) then TrimEnd(s[..|s| - 1]) else s
  }

  /** `r` is what is left of `s` once `lo` characters are cut from the front
      and the rest after `r` from the back, everything cut being whitespace. */
  predicate WhitespaceCut(s: string, lo: nat, r: string) {
    && lo + |r| <= |s|
    && r == s[lo..lo + |r|]
    && (forall i :: 0 <= i < lo ==> IsWhitespace(s[i]))
    && (forall i :: lo + |r| <= i < |s| ==> IsWhitespace(s[i]))
  }

  /** `String.prototype.trim`: only whitespace is cut from either end, and the
      result neither starts nor ends with whitespace. */
  function Trim(s: string): (r: string)
    ensures WhitespaceCut(s, |s| - |TrimStart(s)|, r)
    ensures r == [] || (!IsWhitespace(r[0]) && !IsWhitespace(r[|r| - 1]))
  {
    var t := TrimStart(s);
    var r := TrimEnd(t);
    SliceOfSlice(s, t, r);
    r
  }

  /** Cutting a prefix of a suffix of `s` leaves a slice of `s`, and what the
      second cut removed is part of `s` after that slice. */
  lemma SliceOfSlice(s: string, t: string, r: string)
    requires |t| <= |s| && t == s[|s| - |t|..]
    requires forall i :: 0 <= i < |s| - |t| ==> IsWhitespace(s[i])
    requires |r| <= |t| && r == t[..|r|]
    requires forall i :: |r| <= i < |t| ==> IsWhitespace(t[i])
    requires t == [] || !IsWhitespace(t[0])
    ensures WhitespaceCut(s, |s| - |t|, r)
    ensures r == [] || !IsWhitespace(r[0])
  {
    var lo := |s| - |t|;
    forall i | lo + |r| <= i < |s| ensures IsWhitespace(s[i]) {
      assert s[i] == t[i - lo];
    }
  }

  /** `isEmpty(str)`, that is `!str.trim().length`: blank exactly when every
      character is whitespace, the empty string included. */
  predicate IsEmpty(s: string)
    ensures IsEmpty(s) <==> forall i :: 0 <= i < |s| ==> IsWhitespace(s[i])
  {
    |Trim(s)| == 0
  }
}
