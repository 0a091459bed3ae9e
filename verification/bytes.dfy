/** Single-byte characters as the lexer sees them (Go `byte`), and the
    character classes it tests. */
module Bytes {

  /** A Go `byte`; the input is treated as a byte string, never as Unicode. */
  type byte = c: char | c as int < 256 witness '\0'

  /** Sentinel for "past the end of the last line". */
  const NUL: byte := '\0'

  /** Sentinel for "past the end of a line that is not the last one". */
  const SOH: byte := 1 as char

  const NEWLINE: byte := '\n'

  /** Letters and underscore start and continue identifiers (lexer/lexer.go:46-48).
      No letter is a digit or a sentinel, so words and numbers never
      overlap and a run of letters always stops at a line's end. */
  predicate IsLetter(c: byte)
    ensures IsLetter(c) ==> !IsDigit(c) && c != NUL && c != SOH
  {
    ('a' <= c <= 'z') || ('A' <= c <= 'Z') || c == '_'
  }

  /** Decimal digits form integer literals (lexer/lexer.go:50-52). No digit
      is whitespace or a sentinel. */
  predicate IsDigit(c: byte)
    ensures IsDigit(c) ==> !IsWhitespace(c) && c != NUL && c != SOH
  {
    '0' <= c <= '9'
  }

  /** The bytes skipped before every token (lexer/lexer.go:54-58). */
  predicate IsWhitespace(c: byte) {
    c == ' ' || c == '\t' || c == '\n' || c == '\r'
  }
}
