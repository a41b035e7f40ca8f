/**
 * What the parser promises, proved about the functions of ParseSpec (and so,
 * through the postconditions of class Parsing.Parser, about the imperative code):
 * the tree is an exact, in-order image of the tokens consumed, it follows the
 * precedence grammar with left-associative binary levels, each level stops at the
 * first token it has no rule for, and the only error is a missing `)`.
 */
module ParseProps {
  import opened Wrappers
  import opened Tokens
  import opened Ast
  import opened ParseSpec

  // ---------------------------------------------------------------------------
  // The tokens a tree stands for

  /** The number of tokens an expression was parsed from; a Missing operand consumed none. */
  function Size(e: Expr): nat {
    match e
    case Binary(left, _, right) => Size(left) + 1 + Size(right)
    case Unary(_, operand) => 1 + Size(operand)
    case Grouping(inner) => 2 + Size(inner)
    case Literal(_) => 1
    case Missing => 0
  }

  /**
   * `e` is built from the tokens starting at `i`, in order: every operator is the
   * very token at its place, a grouping is enclosed in parentheses, a keyword
   * literal is its token and a number or string literal is the payload of one.
   */
  predicate Fits(e: Expr, toks: seq<Token>, i: nat) {
    match e
    case Binary(left, op, right) =>
      Fits(left, toks, i) && i + Size(left) < |toks| && toks[i + Size(left)] == op &&
      Fits(right, toks, i + Size(left) + 1)
    case Unary(op, operand) => i < |toks| && toks[i] == op && Fits(operand, toks, i + 1)
    case Grouping(inner) =>
      i < |toks| && toks[i].kind == LeftParen && Fits(inner, toks, i + 1) &&
      i + 1 + Size(inner) < |toks| && toks[i + 1 + Size(inner)].kind == RightParen
    case Literal(TokenValue(t)) => i < |toks| && toks[i] == t
    case Literal(LiteralValue(l)) => i < |toks| && toks[i].kind in [Number, String] && toks[i].literal == l
    case Missing => true
  }

  /** A parse that starts at `pos` consumed exactly the tokens its tree is built from. */
  predicate Spans(r: Parse, toks: seq<Token>, pos: nat) {
    r.Parsed? ==> r.next == pos + Size(r.expr) && Fits(r.expr, toks, pos)
  }

  /** The only way a parse fails: `consume` finds no `)` after a parenthesized expression. */
  predicate OnlyParenErrors(r: Parse) {
    r.Failed? ==> r.error.message == MissingParen
  }

  // ---------------------------------------------------------------------------
  // The grammar

  // Level   ::= Operand | Level op Operand      (op one of Operators(lv))
  // Operand ::= the next tighter Level, or Unary below FactorLevel
  // Unary   ::= ("!" | "-") Unary | Primary
  // Primary ::= "(" Equality level ")" | true | false | nil | number | string | Missing
  //
  // The right operand of a binary node is an Operand, never a Level: a chain of
  // operators of one level nests to the left.

  predicate InLevel(lv: Level, e: Expr)
    decreases e, 3 * Rank(lv) + 3
  {
    InOperand(lv, e) ||
    (e.Binary? && e.op.kind in Operators(lv) && InLevel(lv, e.left) && InOperand(lv, e.right))
  }

  predicate InOperand(lv: Level, e: Expr)
    decreases e, 3 * Rank(lv) + 2
  {
    if lv == FactorLevel then InUnary(e) else InLevel(Tighter(lv), e)
  }

  predicate InUnary(e: Expr)
    decreases e, 1
  {
    if e.Unary? then e.op.kind in [Bang, Minus] && InUnary(e.operand) else InPrimary(e)
  }

  predicate InPrimary(e: Expr)
    decreases e, 0
  {
    match e
    case Grouping(inner) => InLevel(EqualityLevel, inner)
    case Literal(TokenValue(t)) => t.kind in [True, False, Nil]
    case Literal(LiteralValue(_)) => true
    case Missing => true
    case _ => false
  }

  /** The binary operators of `lv` and of every tighter level. */
  function OperatorsUpTo(lv: Level): seq<TokenType>
    decreases Rank(lv)
  {
    Operators(lv) + if lv == FactorLevel then [] else OperatorsUpTo(Tighter(lv))
  }

  /** A level's parse is maximal: it stops at a token none of its loops would take. */
  predicate StopsAt(lv: Level, toks: seq<Token>, pos: nat) {
    !MatchAt(toks, pos, OperatorsUpTo(lv))
  }

  // ---------------------------------------------------------------------------
  /**
   * `match(kinds...)` is `check` tried on each kind in turn: it holds exactly when
   * one of the checks does, and, like every check, it is false at the end of the list.
   */
  lemma MatchIsSomeCheck(toks: seq<Token>, pos: nat, kinds: seq<TokenType>)
    ensures MatchAt(toks, pos, kinds) <==> exists k :: 0 <= k < |kinds| && CheckAt(toks, pos, kinds[k])
    ensures pos >= |toks| ==> !MatchAt(toks, pos, kinds) && forall kind :: !CheckAt(toks, pos, kind)
  {
    if MatchAt(toks, pos, kinds) {
      var k :| 0 <= k < |kinds| && kinds[k] == toks[pos].kind;
      assert CheckAt(toks, pos, kinds[k]);
    }
  }

  // Soundness of every parsing function, by mutual induction

  lemma {:induction false} ExpressionSound(toks: seq<Token>, pos: nat)
    requires pos <= |toks|
    ensures var r := ExpressionAt(toks, pos);
      Spans(r, toks, pos) && OnlyParenErrors(r) &&
      (r.Parsed? ==> InLevel(EqualityLevel, r.expr) && StopsAt(EqualityLevel, toks, r.next))
    decreases |toks| - pos, 20
  {
    LevelSound(EqualityLevel, toks, pos);
  }

  lemma {:induction false} LevelSound(lv: Level, toks: seq<Token>, pos: nat)
    requires pos <= |toks|
    ensures var r := LevelAt(lv, toks, pos);
      Spans(r, toks, pos) && OnlyParenErrors(r) &&
      (r.Parsed? ==> InLevel(lv, r.expr) && StopsAt(lv, toks, r.next))
    decreases |toks| - pos, 3 * Rank(lv) + 4
  {
    OperandSound(lv, toks, pos);
    var o := OperandAt(lv, toks, pos);
    if o.Parsed? {
      FoldSound(lv, toks, o.expr, pos, o.next);
    }
  }

  lemma {:induction false} OperandSound(lv: Level, toks: seq<Token>, pos: nat)
    requires pos <= |toks|
    ensures var r := OperandAt(lv, toks, pos);
      Spans(r, toks, pos) && OnlyParenErrors(r) &&
      (r.Parsed? ==> InOperand(lv, r.expr) && (lv != FactorLevel ==> StopsAt(Tighter(lv), toks, r.next)))
    decreases |toks| - pos, 3 * Rank(lv) + 2
  {
    if lv == FactorLevel {
      UnarySound(toks, pos);
    } else {
      LevelSound(Tighter(lv), toks, pos);
    }
  }

  lemma {:induction false} FoldSound(lv: Level, toks: seq<Token>, left: Expr, start: nat, pos: nat)
    requires start + Size(left) == pos <= |toks| && Fits(left, toks, start) && InLevel(lv, left)
    requires lv != FactorLevel ==> StopsAt(Tighter(lv), toks, pos)
    ensures var r := FoldAt(lv, toks, left, pos);
      OnlyParenErrors(r) &&
      (r.Parsed? ==> r.next == start + Size(r.expr) && Fits(r.expr, toks, start) &&
                     InLevel(lv, r.expr) && StopsAt(lv, toks, r.next))
    decreases |toks| - pos, 3 * Rank(lv) + 3
  {
    if MatchAt(toks, pos, Operators(lv)) {
      OperandSound(lv, toks, pos + 1);
      var o := OperandAt(lv, toks, pos + 1);
      if o.Parsed? {
        var e := Binary(left, toks[pos], o.expr);
        assert Size(e) == Size(left) + 1 + Size(o.expr);
        assert Fits(e, toks, start);
        assert InLevel(lv, e);
        assert FoldAt(lv, toks, left, pos) == FoldAt(lv, toks, e, o.next);
        FoldSound(lv, toks, e, start, o.next);
      } else {
        assert FoldAt(lv, toks, left, pos) == o;
      }
    } else {
      assert FoldAt(lv, toks, left, pos) == Parsed(left, pos);
      if lv != FactorLevel {
        assert OperatorsUpTo(lv) == Operators(lv) + OperatorsUpTo(Tighter(lv));
      }
    }
  }

  lemma {:induction false} UnarySound(toks: seq<Token>, pos: nat)
    requires pos <= |toks|
    ensures var r := UnaryAt(toks, pos);
      Spans(r, toks, pos) && OnlyParenErrors(r) && (r.Parsed? ==> InUnary(r.expr))
    decreases |toks| - pos, 1
  {
    if MatchAt(toks, pos, [Bang, Minus]) {
      UnarySound(toks, pos + 1);
    } else {
      PrimarySound(toks, pos);
    }
  }

  lemma {:induction false} PrimarySound(toks: seq<Token>, pos: nat)
    requires pos <= |toks|
    ensures var r := PrimaryAt(toks, pos);
      Spans(r, toks, pos) && OnlyParenErrors(r) && (r.Parsed? ==> InPrimary(r.expr))
    decreases |toks| - pos, 0
  {
    if MatchAt(toks, pos, [LeftParen]) {
      ExpressionSound(toks, pos + 1);
      var inner := ExpressionAt(toks, pos + 1);
      if inner.Parsed? {
        if CheckAt(toks, inner.next, RightParen) {
          var e := Grouping(inner.expr);
          assert PrimaryAt(toks, pos) == Parsed(e, inner.next + 1);
          assert Fits(e, toks, pos);
        } else {
          assert PrimaryAt(toks, pos).error.message == MissingParen;
        }
      }
    }
  }

  // ---------------------------------------------------------------------------
  // primary and unary, case by case

  /**
   * `primary`: `(` starts a grouping closed by `)`; TRUE, FALSE and NIL give a
   * literal holding the token; NUMBER and STRING give a literal holding the
   * token's payload; anything else, the end of the list included, gives Missing
   * and consumes nothing.
   */
  lemma PrimaryCases(toks: seq<Token>, pos: nat)
    requires pos <= |toks|
    ensures CheckAt(toks, pos, LeftParen) ==>
      var inner := ExpressionAt(toks, pos + 1);
      PrimaryAt(toks, pos) ==
        if inner.Failed? then inner
        else if CheckAt(toks, inner.next, RightParen) then Parsed(Grouping(inner.expr), inner.next + 1)
        else Failed(ParseError(if inner.next < |toks| then Some(toks[inner.next]) else None, MissingParen))
    ensures MatchAt(toks, pos, [True, False, Nil]) ==>
      PrimaryAt(toks, pos) == Parsed(Literal(TokenValue(toks[pos])), pos + 1)
    ensures MatchAt(toks, pos, [Number, String]) ==>
      PrimaryAt(toks, pos) == Parsed(Literal(LiteralValue(toks[pos].literal)), pos + 1)
    ensures PrimaryAt(toks, pos) == Parsed(Missing, pos) <==>
      !MatchAt(toks, pos, [LeftParen, True, False, Nil, Number, String])
  {
  }

  /** `unary`: a leading `!` or `-` becomes the operator of a Unary node around the rest. */
  lemma UnaryCases(toks: seq<Token>, pos: nat)
    requires pos <= |toks|
    ensures MatchAt(toks, pos, [Bang, Minus]) ==>
      var operand := UnaryAt(toks, pos + 1);
      UnaryAt(toks, pos) == if operand.Failed? then operand else Parsed(Unary(toks[pos], operand.expr), operand.next)
    ensures !MatchAt(toks, pos, [Bang, Minus]) ==> UnaryAt(toks, pos) == PrimaryAt(toks, pos)
  {
  }
}
