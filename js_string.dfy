/** The part of JavaScript's `String.prototype.trim` the page relies on. */
module JsString {

  /**
   * ECMAScript WhiteSpace and LineTerminator code points: the characters
   * `trim` strips from both ends of a string.
   */
  predicate IsJsWhitespace(c: char)
  {
    || c == '\t' || c == '\n' || c == '\U{B}' || c == '\U{C}' || c == '\r'
    || c == ' ' || c == '\U{A0}' || c == '\U{1680}'
    || ('\U{2000}' <= c <= '\U{200A}')
    || c == '\U{2028}' || c == '\U{2029}' || c == '\U{202F}' || c == '\U{205F}'
    || c == '\U{3000}' || c == '\U{FEFF}'
  }

  /** Every character of `s` at an index in `[lo, hi)` is whitespace. */
  predicate WhitespaceBetween(s: string, lo: int, hi: int)
    requires 0 <= lo <= hi <= |s|
  {
    forall i | lo <= i < hi :: IsJsWhitespace(s[i])
  }

  predicate AllWhitespace(s: string)
  {
    WhitespaceBetween(s, 0, |s|)
  }

  /** `s` is `r` with only whitespace before index `i` and from index `j` on. */
  predicate BlankPadded(s: string, r: string, i: int, j: int)
  {
    0 <= i <= j <= |s| && r == s[i..j] && WhitespaceBetween(s, 0, i) && WhitespaceBetween(s, j, |s|)
  }

  /** `s` with its leading whitespace removed. */
  function TrimStart(s: string): (r: string)
    ensures |r| <= |s| && r == s[|s| - |r|..]
    ensures WhitespaceBetween(s, 0, |s| - |r|)
    ensures r == [] || !IsJsWhitespace(r[0])
    decreases |s|
  {
    if |s| > 0 && IsJsWhitespace(s[0]) then
      var r := TrimStart(s[1..]);
      assert forall i | 1 <= i < |s| - |r| :: s[i] == s[1..][i - 1];
      r
    else s
  }

  /** `s` with its trailing whitespace removed. */
  function TrimEnd(s: string): (r: string)
    ensures |r| <= |s| && r == s[..|r|]
    ensures WhitespaceBetween(s, |r|, |s|)
    ensures r == [] || !IsJsWhitespace(r[|r| - 1])
    decreases |s|
  {
    if |s| > 0 && IsJsWhitespace(s[|s| - 1]) then
      var r := TrimEnd(s[..|s| - 1]);
      assert forall i | |r| <= i < |s| - 1 :: s[i] == s[..|s| - 1][i];
      r
    else s
  }

  /**
   * `s.trim()`: the longest infix of `s` that neither starts nor ends with
   * whitespace; it is empty exactly when `s` is all whitespace.
   */
  function Trim(s: string): (r: string)
    ensures r == [] <==> AllWhitespace(s)
    ensures r == [] || (!IsJsWhitespace(r[0]) && !IsJsWhitespace(r[|r| - 1]))
    ensures exists i, j :: BlankPadded(s, r, i, j)
  {
    var t := TrimStart(s);
    TrimStartEnd(s, t, TrimEnd(t), |s| - |t|);
    TrimEnd(t)
  }

  /** The contracts of `TrimStart` then `TrimEnd` give that of `Trim` (kept apart from `Trim` to keep its proof small). */
  lemma TrimStartEnd(s: string, t: string, r: string, i: int)
    requires 0 <= i <= |s| && t == s[i..] && WhitespaceBetween(s, 0, i)
    requires |r| <= |t| && r == t[..|r|] && WhitespaceBetween(t, |r|, |t|)
    requires t == [] || !IsJsWhitespace(t[0])
    requires r == [] || !IsJsWhitespace(r[|r| - 1])
    ensures r == [] <==> AllWhitespace(s)
    ensures r == [] || (!IsJsWhitespace(r[0]) && !IsJsWhitespace(r[|r| - 1]))
    ensures BlankPadded(s, r, i, i + |r|)
  {
  }
}
