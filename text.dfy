/** Character classes and trimming as JavaScript defines them. */
module Text {

  /** The regular-expression class `\s`, which is also the set of code points
      `String.prototype.trim` removes: the ECMAScript WhiteSpace code points
      (tab, vertical tab, form feed, space, no-break space, the byte-order
      mark and every space separator) and the LineTerminator code points.
      Of the printable ASCII characters only the space belongs to it; every
      other member is a control character from tab to carriage return or
      lies beyond ASCII. */
  function IsWhitespace(c: char): (b: bool)
    ensures '!' <= c <= '~' ==> !b
    ensures b ==> c == ' ' || '\t' <= c <= '\r' || c >= '\U{00A0}'
  {
    if c <= '~' then
      c == ' ' || '\t' <= c <= '\r'  // tab, line feed, vertical tab, form feed, carriage return
    else
      || c == '\U{00A0}' || c == '\U{1680}' || '\U{2000}' <= c <= '\U{200A}'
      || c == '\U{2028}' || c == '\U{2029}' || c == '\U{202F}' || c == '\U{205F}'
      || c == '\U{3000}' || c == '\U{FEFF}'
  }

  predicate AllWhitespace(s: string) {
    forall k :: 0 <= k < |s| ==> IsWhitespace(s[k])
  }

  predicate NoWhitespace(s: string) {
    forall k :: 0 <= k < |s| ==> !IsWhitespace(s[k])
  }

  /** The index of the first character of `s` at or after `from` that is
      not whitespace, or `|s|` when there is none. */
  function SkipForward(s: string, from: nat): (i: nat)
    requires from <= |s|
    ensures from <= i <= |s|
    ensures forall k :: from <= k < i ==> IsWhitespace(s[k])
    ensures i < |s| ==> !IsWhitespace(s[i])
    decreases |s| - from
  {
    if from < |s| && IsWhitespace(s[from]) then SkipForward(s, from + 1) else from
  }

  /** The index just past the last character of `s` before `high` that is not
      whitespace, or `low` when every character from `low` up to `high` is
      whitespace. */
  function SkipBackward(s: string, low: nat, high: nat): (j: nat)
    requires low <= high <= |s|
    ensures low <= j <= high
    ensures forall k :: j <= k < high ==> IsWhitespace(s[k])
    ensures j > low ==> !IsWhitespace(s[j - 1])
    decreases high
  {
    if low < high && IsWhitespace(s[high - 1]) then SkipBackward(s, low, high - 1) else high
  }

  /** `String.prototype.trim`: `s` is some whitespace, then the result, then
      some more whitespace; the result neither starts nor ends with
      whitespace, and it is empty exactly when `s` is all whitespace. */
  function Trim(s: string): (r: string)
    ensures exists i, j :: 0 <= i <= j <= |s| && r == s[i..j]
                           && (forall k :: 0 <= k < i ==> IsWhitespace(s[k]))
                           && (forall k :: j <= k < |s| ==> IsWhitespace(s[k]))
    ensures r != [] ==> !IsWhitespace(r[0]) && !IsWhitespace(r[|r| - 1])
    ensures r == [] <==> AllWhitespace(s)
  {
    var i := SkipForward(s, 0);
    var j := SkipBackward(s, i, |s|);
    assert i < j ==> s[i..j][0] == s[i] && s[i..j][j - i - 1] == s[j - 1];
    s[i..j]
  }

  /** `String.prototype.length`: the number of UTF-16 code units, so a code
      point above U+FFFF counts twice. */
  function Utf16Length(s: string): (n: nat)
    ensures |s| <= n <= 2 * |s|
    ensures (forall k :: 0 <= k < |s| ==> s[k] <= '\U{FFFF}') ==> n == |s|
  {
    if s == [] then 0 else (if s[0] <= '\U{FFFF}' then 1 else 2) + Utf16Length(s[1..])
  }
}
