/**
 * The recursive-descent parser as functions that thread the cursor position
 * through the token list. Each function is what the method of the same name in
 * class Parsing.Parser computes when it is entered with `current == pos`.
 */
module ParseSpec {
  import opened Wrappers
  import opened Tokens
  import opened Ast

  /** The binary precedence levels, loosest first. */
  datatype Level = EqualityLevel | ComparisonLevel | TermLevel | FactorLevel

  /** The operator kinds the loop of a level matches. */
  function Operators(lv: Level): seq<TokenType> {
    match lv
    case EqualityLevel => [BangEqual, EqualEqual]
    case ComparisonLevel => [Greater, GreaterEqual, Less, LessEqual]
    case TermLevel => [Minus, Plus]
    case FactorLevel => [Slash, Star]
  }

  /** The level whose expressions are the operands of `lv`; below FactorLevel operands are unary. */
  function Tighter(lv: Level): (r: Level)
    requires lv != FactorLevel
    ensures Rank(r) + 1 == Rank(lv)
  {
    match lv
    case EqualityLevel => ComparisonLevel
    case ComparisonLevel => TermLevel
    case TermLevel => FactorLevel
  }

  /** 0 for the tightest level, used in termination measures. */
  function Rank(lv: Level): nat {
    match lv
    case EqualityLevel => 3
    case ComparisonLevel => 2
    case TermLevel => 1
    case FactorLevel => 0
  }

  /** `check(kind)` at position `pos`: false at the end of the list. */
  predicate CheckAt(toks: seq<Token>, pos: nat, kind: TokenType) {
    pos < |toks| && toks[pos].kind == kind
  }

  /** `match(kinds...)` at position `pos`: true when the token there has one of `kinds`. */
  predicate MatchAt(toks: seq<Token>, pos: nat, kinds: seq<TokenType>) {
    pos < |toks| && toks[pos].kind in kinds
  }

  /** The error `consume` raises: the token it found (none at the end of the list) and the message. */
  datatype ParseError = ParseError(found: Option<Token>, message: string)

  const MissingParen := "Expect ')' after expression."

  /** An expression and the position after it, or the error that stopped the parse. */
  datatype Parse = Parsed(expr: Expr, next: nat) | Failed(error: ParseError)

  /** `consume(kind, message)`, read as check, then advance, else raise. */
  function ConsumeAt(toks: seq<Token>, pos: nat, kind: TokenType, message: string): (r: Result<nat, ParseError>)
    ensures r.Ok? <==> CheckAt(toks, pos, kind)
    ensures r.Ok? ==> r.value == pos + 1
    ensures r.Err? ==> r.error.message == message && r.error.found == (if pos < |toks| then Some(toks[pos]) else None)
  {
    if CheckAt(toks, pos, kind) then Ok(pos + 1)
    else Err(ParseError(if pos < |toks| then Some(toks[pos]) else None, message))
  }

  /** `expression`. */
  function ExpressionAt(toks: seq<Token>, pos: nat): (r: Parse)
    requires pos <= |toks|
    ensures r.Parsed? ==> pos <= r.next <= |toks|
    decreases |toks| - pos, 20
  {
    LevelAt(EqualityLevel, toks, pos)
  }

  /** `equality`, `comparison`, `term` or `factor`: one operand, then the loop. */
  function LevelAt(lv: Level, toks: seq<Token>, pos: nat): (r: Parse)
    requires pos <= |toks|
    ensures r.Parsed? ==> pos <= r.next <= |toks|
    decreases |toks| - pos, 3 * Rank(lv) + 4
  {
    match OperandAt(lv, toks, pos)
    case Failed(err) => Failed(err)
    case Parsed(left, p) => FoldAt(lv, toks, left, p)
  }

  /** The operand of a level: the next tighter level, or `unary` below `factor`. */
  function OperandAt(lv: Level, toks: seq<Token>, pos: nat): (r: Parse)
    requires pos <= |toks|
    ensures r.Parsed? ==> pos <= r.next <= |toks|
    decreases |toks| - pos, 3 * Rank(lv) + 2
  {
    if lv == FactorLevel then UnaryAt(toks, pos) else LevelAt(Tighter(lv), toks, pos)
  }

  /**
   * The `while (match(...))` loop of a level, entered with the expression built so
   * far: each operator and the operand after it extend the tree on the left.
   */
  function FoldAt(lv: Level, toks: seq<Token>, left: Expr, pos: nat): (r: Parse)
    requires pos <= |toks|
    ensures r.Parsed? ==> pos <= r.next <= |toks|
    decreases |toks| - pos, 3 * Rank(lv) + 3
  {
    if MatchAt(toks, pos, Operators(lv)) then
      match OperandAt(lv, toks, pos + 1)
      case Failed(err) => Failed(err)
      case Parsed(right, p) => FoldAt(lv, toks, Binary(left, toks[pos], right), p)
    else Parsed(left, pos)
  }

  /** `unary`: a prefix `!` or `-` applied to another unary, else a primary. */
  function UnaryAt(toks: seq<Token>, pos: nat): (r: Parse)
    requires pos <= |toks|
    ensures r.Parsed? ==> pos <= r.next <= |toks|
    decreases |toks| - pos, 1
  {
    if MatchAt(toks, pos, [Bang, Minus]) then
      match UnaryAt(toks, pos + 1)
      case Failed(err) => Failed(err)
      case Parsed(operand, p) => Parsed(Unary(toks[pos], operand), p)
    else PrimaryAt(toks, pos)
  }

  /** `primary`: a parenthesized expression, a literal, or Missing (the source's null). */
  function PrimaryAt(toks: seq<Token>, pos: nat): (r: Parse)
    requires pos <= |toks|
    ensures r.Parsed? ==> pos <= r.next <= |toks|
    decreases |toks| - pos, 0
  {
    if MatchAt(toks, pos, [LeftParen]) then
      match ExpressionAt(toks, pos + 1)
      case Failed(err) => Failed(err)
      case Parsed(inner, p) =>
        match ConsumeAt(toks, p, RightParen, MissingParen)
        case Err(err) => Failed(err)
        case Ok(q) => Parsed(Grouping(inner), q)
    else if MatchAt(toks, pos, [True, False, Nil]) then Parsed(Literal(TokenValue(toks[pos])), pos + 1)
    else if MatchAt(toks, pos, [Number, String]) then Parsed(Literal(LiteralValue(toks[pos].literal)), pos + 1)
    else Parsed(Missing, pos)
  }

  /** The entry point: `expression()` from the first token. */
  function ParseTokens(toks: seq<Token>): (r: Parse)
    ensures r.Parsed? ==> r.next <= |toks|
  {
    ExpressionAt(toks, 0)
  }
}
