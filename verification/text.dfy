/**
 * The blank-input test of the chat component: `!input.trim()` is true exactly
 * when trimming leaves the empty string.
 */
module Text {

  /** A character that ECMAScript's String.prototype.trim removes:
      the WhiteSpace and LineTerminator code points of ECMA-262. */
  predicate IsWhitespace(c: char) {
    c == '\t' || c == '\n' || c == '\U{000B}' || c == '\U{000C}' || c == '\r' || c == ' '
    || c == '\U{00A0}' || c == '\U{1680}' || ('\U{2000}' <= c <= '\U{200A}')
    || c == '\U{2028}' || c == '\U{2029}' || c == '\U{202F}' || c == '\U{205F}'
    || c == '\U{3000}' || c == '\U{FEFF}'
  }

  /** Every character of `s` at positions `lo` up to `hi` (exclusive) is whitespace. */
  predicate WhitespaceBetween(s: string, lo: nat, hi: nat)
    requires lo <= hi <= |s|
  {
    forall i :: lo <= i < hi ==> IsWhitespace(s[i])
  }

  predicate AllWhitespace(s: string) {
    WhitespaceBetween(s, 0, |s|)
  }

  /** The position of the first non-whitespace character of `s` at or after `i`,
      or `|s|` when there is none. */
  function SkipWhitespace(s: string, i: nat): (k: nat)
    requires i <= |s|
    decreases |s| - i
    ensures i <= k <= |s| && WhitespaceBetween(s, i, k)
    ensures k == |s| || !IsWhitespace(s[k])
  {
    if i == |s| || !IsWhitespace(s[i]) then i else SkipWhitespace(s, i + 1)
  }

  /** The position just after the last non-whitespace character of `s` before `j`
      and not before `lo`, or `lo` when there is none. */
  function SkipWhitespaceBack(s: string, lo: nat, j: nat): (k: nat)
    requires lo <= j <= |s|
    decreases j
    ensures lo <= k <= j && WhitespaceBetween(s, k, j)
    ensures k == lo || !IsWhitespace(s[k - 1])
  {
    if j == lo || !IsWhitespace(s[j - 1]) then j else SkipWhitespaceBack(s, lo, j - 1)
  }

  /** String.prototype.trim: the slice of `s` between its leading and its
      trailing whitespace. */
  function Trim(s: string): (r: string)
    ensures var a := SkipWhitespace(s, 0);
      a + |r| <= |s| && r == s[a..a + |r|]
      && WhitespaceBetween(s, 0, a) && WhitespaceBetween(s, a + |r|, |s|)
    ensures r == [] || (!IsWhitespace(r[0]) && !IsWhitespace(r[|r| - 1]))
  {
    var a := SkipWhitespace(s, 0);
    s[a..SkipWhitespaceBack(s, a, |s|)]
  }

  /** `!s.trim()`: the empty string is the only falsy string, so an input is
      blank exactly when every one of its characters is whitespace. */
  predicate IsBlank(s: string)
    ensures IsBlank(s) <==> AllWhitespace(s)
  {
    Trim(s) == []
  }

  /** Trimming removes nothing from a string with no whitespace at either end. */
  lemma TrimKeepsInnerText(s: string)
    requires s != [] && !IsWhitespace(s[0]) && !IsWhitespace(s[|s| - 1])
    ensures Trim(s) == s
  {
  }
}
