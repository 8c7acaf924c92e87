/**
  The part of Python's `str` that the submit handler relies on: `strip()` with no
  argument, which removes leading and trailing whitespace as `str.isspace` defines it.
 */
module PyText {

  /** `c.isspace()` for one code point: bidirectional class WS, B or S, or general
      category Zs. Under Unicode 15 these are exactly the 29 code points below
      (U+3000, the ideographic space of Japanese input methods, among them). */
  predicate IsSpace(c: char) {
    || ('\t' <= c <= '\r')
    || ('\U{1C}' <= c <= '\U{1F}')
    || c == ' '
    || c == '\U{85}'
    || c == '\U{A0}'
    || c == '\U{1680}'
    || ('\U{2000}' <= c <= '\U{200A}')
    || c == '\U{2028}'
    || c == '\U{2029}'
    || c == '\U{202F}'
    || c == '\U{205F}'
    || c == '\U{3000}'
  }

  /** Every character of `s` is whitespace (vacuously true of ""). */
  predicate AllSpace(s: string) {
    forall i :: 0 <= i < |s| ==> IsSpace(s[i])
  }

  /** How many whitespace characters `s` starts with: `s.strip()` removes exactly
      these at the front. */
  function LeadingSpaces(s: string): (n: nat)
    ensures n <= |s|
    ensures forall i :: 0 <= i < n ==> IsSpace(s[i])
    ensures n < |s| ==> !IsSpace(s[n])
    decreases |s|
  {
    if |s| > 0 && IsSpace(s[0]) then 1 + LeadingSpaces(s[1..]) else 0
  }

  /** How many whitespace characters `s` ends with: `s.strip()` removes exactly these
      at the back (unless the whole text is whitespace). */
  function TrailingSpaces(s: string): (n: nat)
    ensures n <= |s|
    ensures forall i :: |s| - n <= i < |s| ==> IsSpace(s[i])
    ensures n < |s| ==> !IsSpace(s[|s| - 1 - n])
    decreases |s|
  {
    if |s| > 0 && IsSpace(s[|s| - 1]) then 1 + TrailingSpaces(s[..|s| - 1]) else 0
  }

  /** `s.strip()`. It is empty exactly when `s` is whitespace only; otherwise it is the
      infix of `s` that starts after the leading whitespace, neither starts nor ends
      with whitespace, and has only whitespace after it. */
  function Strip(s: string): (r: string)
    ensures r == [] <==> AllSpace(s)
    ensures r != [] ==>
      var i := LeadingSpaces(s);
      && i + |r| <= |s|
      && r == s[i..i + |r|]
      && !IsSpace(r[0])
      && !IsSpace(r[|r| - 1])
      && (forall k :: i + |r| <= k < |s| ==> IsSpace(s[k]))
  {
    var i := LeadingSpaces(s);
    var j := |s| - TrailingSpaces(s);
    if i < j then s[i..j] else []
  }

  /** `not s.strip()` in Python: the text is empty once stripped. */
  predicate IsBlank(s: string) {
    Strip(s) == []
  }
}
