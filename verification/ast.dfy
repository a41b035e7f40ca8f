/**
 * The expression tree the parser builds.
 */
module Ast {
  import opened Tokens

  /**
   * What an `Expr.Literal` node holds. For `true`, `false` and `nil` the parser
   * stores the token object itself; for numbers and strings it stores the token's
   * literal payload.
   */
  datatype Value = TokenValue(token: Token) | LiteralValue(literal: Literal)

  /**
   * Expression nodes. `Missing` stands for the null that `primary` returns when no
   * alternative matches; parent nodes embed it like any other operand.
   */
  datatype Expr =
    | Binary(left: Expr, op: Token, right: Expr)
    | Unary(op: Token, operand: Expr)
    | Grouping(inner: Expr)
    | Literal(value: Value)
    | Missing
}
