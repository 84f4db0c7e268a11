/**
 * Character classes used by the email normaliser and by the blank-input test.
 *
 * Characters are treated as ASCII: lower-casing touches only 'A'..'Z', and
 * whitespace is the ASCII part of Python's `str.isspace`.
 */
module Chars {

  /** Python's `string.punctuation`: the 32 printable ASCII characters that
      are neither letters, digits nor the space. */
  const Punctuation: string := "!\"#$%&'()*+,-./:;<=>?@[\\]^_`{|}~"

  /** Membership in `Punctuation`, stated as the four runs of ASCII symbols
      that lie between the space, the digits and the two alphabets. */
  predicate IsPunct(c: char) {
    ('!' <= c <= '/') || (':' <= c <= '@') || ('[' <= c <= '`') || ('{' <= c <= '~')
  }

  /** The four runs are exactly the 32 characters of `Punctuation`. */
  lemma PunctuationIsAsciiSymbols(c: char)
    ensures |Punctuation| == 32
    ensures IsPunct(c) <==> c in Punctuation
  {}

  predicate IsUpper(c: char) {
    'A' <= c <= 'Z'
  }

  predicate IsLower(c: char) {
    'a' <= c <= 'z'
  }

  /** The ASCII characters for which Python's `str.isspace()` holds: tab,
      line feed, vertical tab, form feed, carriage return, the four
      information separators 0x1C..0x1F, and the space. */
  const AsciiWhitespace: string := "\t\n\U{b}\U{c}\r\U{1c}\U{1d}\U{1e}\U{1f} "

  /** ASCII whitespace as `str.strip()` sees it, stated as two code-point
      ranges; the ranges hold exactly the ten characters listed above. */
  predicate IsSpace(c: char)
    ensures IsSpace(c) <==> c in AsciiWhitespace
  {
    (9 <= c as int <= 13) || (28 <= c as int <= 32)
  }

  /** `str.lower()` on one ASCII character. */
  function ToLower(c: char): (r: char)
    ensures !IsUpper(r)
    ensures IsUpper(c) ==> IsLower(r) && r as int - 'a' as int == c as int - 'A' as int
    ensures !IsUpper(c) ==> r == c
  {
    if IsUpper(c) then (c as int - 'A' as int + 'a' as int) as char else c
  }

  /** Lower-casing neither creates nor removes punctuation or whitespace. */
  lemma ToLowerKeepsClass(c: char)
    ensures IsPunct(ToLower(c)) <==> IsPunct(c)
    ensures IsSpace(ToLower(c)) <==> IsSpace(c)
  {}
}
