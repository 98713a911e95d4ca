/**
 * The token vocabulary the scanner produces. Only the kinds the scanner
 * actually emits are modelled: identifiers, numbers and keywords are not
 * recognised by the scanner at all.
 */
module Tokens {

  datatype TokenType =
    // single-character punctuation
    | LeftParen | RightParen | LeftBrace | RightBrace
    | Comma | Dot | Minus | Plus | Semicolon | Star
    // one- or two-character operators
    | Bang | BangEqual
    | Equal | EqualEqual
    | Less | LessEqual
    | Greater | GreaterEqual
    | Slash
    // literals: the payload is the text strictly between the quotes
    | String(payload: string)
    // end of input
    | Eof

  /** A token: its kind, the source text it was made from, and its line. */
  datatype Token = Token(kind: TokenType, lexeme: string, line: nat)
}
