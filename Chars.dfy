// Character classes used by the location tracker, the line buffer and the
// tokenizer (ParserHelpers and HandlebarsHelpers).
module Chars {
  /** ParserHelpers.IsNewLine: the five Unicode line terminators. */
  predicate IsNewLine(c: char) {
    c == '\r' || c == '\n' || c == '\U{0085}' || c == '\U{2028}' || c == '\U{2029}'
  }

  /** Members of the Unicode SpaceSeparator category (Zs). */
  predicate IsSpaceSeparator(c: char) {
    c == ' ' || c == '\U{00A0}' || c == '\U{1680}' || ('\U{2000}' <= c <= '\U{200A}')
    || c == '\U{202F}' || c == '\U{205F}' || c == '\U{3000}'
  }

  /** ParserHelpers.IsWhiteSpace. */
  predicate IsWhiteSpace(c: char) {
    c == ' ' || c == '\U{000C}' || c == '\t' || c == '\U{000B}' || IsSpaceSeparator(c)
  }

  /** ParserHelpers.IsHexDigit. */
  predicate IsHexDigit(c: char) {
    ('0' <= c <= '9') || ('A' <= c <= 'F') || ('a' <= c <= 'f')
  }

  /** Char.IsDigit, restricted to the ASCII digits. */
  predicate IsDigit(c: char) {
    '0' <= c <= '9'
  }

  /** Char.IsLetter, restricted to the ASCII letters. */
  predicate IsLetter(c: char) {
    ('a' <= c <= 'z') || ('A' <= c <= 'Z')
  }

  /** HandlebarsHelpers.IsIdentifierStart (no ASCII character is a LetterNumber). */
  predicate IsIdentifierStart(c: char) {
    IsLetter(c) || c == '_' || c == '$' || c == '@'
  }

  /** HandlebarsHelpers.IsIdentifierPart (no ASCII character is a mark or a format
      character; '_' is the only ASCII connector and is already an identifier start). */
  predicate IsIdentifierPart(c: char) {
    IsDigit(c) || IsIdentifierStart(c)
  }

  /** Upper-case ASCII folding used for case-insensitive name comparison. */
  function ToUpper(c: char): char {
    if 'a' <= c <= 'z' then (c as int - 32) as char else c
  }

  /** Char.ToLowerInvariant, over the ASCII letters. */
  function ToLower(c: char): char {
    if 'A' <= c <= 'Z' then (c as int + 32) as char else c
  }

  function UpperString(s: string): (r: string)
    ensures |r| == |s|
    ensures forall i :: 0 <= i < |s| ==> r[i] == ToUpper(s[i])
  {
    if s == [] then [] else [ToUpper(s[0])] + UpperString(s[1..])
  }

  /** String.Equals(a, b, StringComparison.OrdinalIgnoreCase), over ASCII folding. */
  predicate EqualsIgnoreCase(a: string, b: string) {
    UpperString(a) == UpperString(b)
  }
}
