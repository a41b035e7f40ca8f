/**
 * Tokens of the Lox front end: the closed set of token kinds, the literal payload
 * a token may carry, the token record itself, the lexical error reported to the
 * driver, and the fixed keyword table.
 */
module Tokens {

  datatype TokenType =
    // Single-character tokens.
    | LeftParen | RightParen | LeftBrace | RightBrace
    | Comma | Dot | Minus | Plus | Semicolon | Slash | Star
    // One- or two-character tokens.
    | Bang | BangEqual | Equal | EqualEqual
    | Greater | GreaterEqual | Less | LessEqual
    // Literals.
    | Identifier | String | Number
    // Keywords.
    | And | Class | Else | False | Fun | For | If | Nil | Or
    | Print | Return | Super | This | True | Var | While
    | Eof

  /**
   * The `literal` field of a token. The source stores an untyped object: null,
   * a parsed double for numbers, or the string's value. A number is kept here as
   * the digits it was scanned from; floating-point parsing is not modelled.
   */
  datatype Literal = NoLiteral | NumberText(text: string) | StringValue(value: string)

  datatype Token = Token(kind: TokenType, lexeme: string, literal: Literal, line: int)

  /** One call of the driver's error sink: the line and the message. */
  datatype LexError = LexError(line: int, message: string)

  /** The reserved words and the kinds they scan to. */
  const Keywords: map<string, TokenType> :=
    map[
      "and" := And, "class" := Class, "else" := Else, "false" := False,
      "for" := For, "fun" := Fun, "if" := If, "nil" := Nil,
      "or" := Or, "print" := Print, "return" := Return, "super" := Super,
      "this" := This, "true" := True, "var" := Var, "while" := While
    ]

  /** The kind an identifier-shaped lexeme scans to: its keyword, or Identifier. */
  function KeywordKind(text: string): (r: TokenType)
    ensures r != Eof
  {
    if text in Keywords then Keywords[text] else Identifier
  }
}
