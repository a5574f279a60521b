/**
 * The two text predicates of the Java platform the translator depends on:
 * `Character.isWhitespace` and Spring's `StringUtils.hasText`.
 */
module JavaText {

  /**
   * Java's `Character.isWhitespace`: the Unicode space, line and paragraph
   * separators except the three no-break spaces (U+00A0, U+2007, U+202F),
   * plus the ASCII controls TAB, LF, VT, FF, CR and FS, GS, RS, US.
   */
  predicate IsWhitespace(c: char) {
    || c == '\t' || c == '\n' || c == '\U{000B}' || c == '\U{000C}' || c == '\r'
    || ('\U{001C}' <= c <= '\U{001F}')
    || c == ' '
    || c == '\U{1680}'
    || ('\U{2000}' <= c <= '\U{2006}')
    || ('\U{2008}' <= c <= '\U{200A}')
    || c == '\U{2028}' || c == '\U{2029}'
    || c == '\U{205F}'
    || c == '\U{3000}'
  }

  /** Spring's `containsText`: a scan for the first non-whitespace character. */
  function ContainsText(s: string): (r: bool)
    ensures r <==> exists i :: 0 <= i < |s| && !IsWhitespace(s[i])
  {
    if |s| == 0 then false
    else if !IsWhitespace(s[0]) then true
    else
      var rest := ContainsText(s[1..]);
      assert forall i :: 1 <= i < |s| ==> s[i] == s[1..][i - 1];
      rest
  }

  /** Spring's `hasText`: not null (always so here), not empty, and some non-whitespace character. */
  predicate HasText(s: string) {
    |s| > 0 && ContainsText(s)
  }
}
