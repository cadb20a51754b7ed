/**
 * The few Ruby string operations the model needs: ActiveSupport's `blank?` over Unicode
 * whitespace, the ASCII whitespace `String#to_i` skips, and `downcase` on ASCII letters.
 */
module RubyText {

  /** The ASCII whitespace C's `isspace` accepts, which `String#to_i` skips. */
  predicate IsAsciiSpace(c: char) {
    c == ' ' || c == '\t' || c == '\n' || c == '\r' || c == '\U{0B}' || c == '\U{0C}'
  }

  /**
   * The characters `[[:space:]]` matches in a Unicode string: those with the Unicode
   * White_Space property.
   */
  predicate IsSpace(c: char) {
    || IsAsciiSpace(c)
    || c == '\U{85}' || c == '\U{A0}' || c == '\U{1680}'
    || '\U{2000}' <= c <= '\U{200A}'
    || c == '\U{2028}' || c == '\U{2029}' || c == '\U{202F}' || c == '\U{205F}' || c == '\U{3000}'
  }

  /** ActiveSupport's `blank?` for a string: it matches `\A[[:space:]]*\z`. */
  predicate Blank(s: string) {
    forall i :: 0 <= i < |s| ==> IsSpace(s[i])
  }

  /** Non-breaking and ideographic spaces are blank too, not only ASCII whitespace. */
  lemma UnicodeSpacesBlank()
    ensures Blank("") && Blank(" \t\n")
    ensures Blank("\U{A0}") && Blank("\U{3000}") && Blank("\U{2003}\U{A0}")
    ensures !Blank("a") && !Blank("\U{A0}x")
  {
    assert "a"[0] == 'a';
    assert "\U{A0}x"[1] == 'x';
  }

  /** `present?`: a value that is there and not blank. */
  predicate Present(s: string) {
    !Blank(s)
  }

  /** One character of `downcase`: ASCII capitals become small letters. */
  function Lower(c: char): (l: char)
    ensures 'A' <= c <= 'Z' ==> 'a' <= l <= 'z' && l as int == c as int + 32
    ensures !('A' <= c <= 'Z') ==> l == c
  {
    if 'A' <= c <= 'Z' then (c as int + 32) as char else c
  }

  /** `downcase`, character by character. */
  function Downcase(s: string): (d: string)
    ensures |d| == |s|
    ensures forall i :: 0 <= i < |s| ==> d[i] == Lower(s[i])
  {
    seq(|s|, i requires 0 <= i < |s| => Lower(s[i]))
  }

  /** A downcased string has no capitals left, so downcasing it again changes nothing. */
  lemma DowncaseIdempotent(s: string)
    ensures forall i :: 0 <= i < |Downcase(s)| ==> !('A' <= Downcase(s)[i] <= 'Z')
    ensures Downcase(Downcase(s)) == Downcase(s)
  {
  }
}
