/** Tokens handed from the lexer to the parser. */
module Tokens {
  import opened Bytes

  /** The token kinds the lexer emits. `Ident` and `Keyword` are the
      possible answers of the keyword lookup, which lies outside this model. */
  datatype TokenKind =
    | Illegal | Eof
    | Ident | Keyword(word: seq<byte>) | Int
    | Assign | Plus | Minus | Bang | Asterisk | Slash | Lt | Gt | Eq | NotEq
    | Comma | Semicolon | LParen | RParen | LBrace | RBrace

  /** A token with its exact lexeme and the 0-based line and column of its
      first byte. */
  datatype Token = Token(kind: TokenKind, literal: seq<byte>, line: int, column: int)
}
