/**
 * Parses of short token lists, worked out step by step from the definitions in
 * ParseSpec. Each example holds for every token list with the kinds shown, whatever
 * the lexemes, literals and lines.
 */
module ParseExamples {
  import opened Wrappers
  import opened Tokens
  import opened Ast
  import opened ParseSpec

  /** The literal node `primary` builds for a NUMBER or STRING token. */
  function Atom(t: Token): Expr {
    Literal(LiteralValue(t.literal))
  }

  /** `1 + 2 * 3`: factor binds tighter than term, and EOF is left unconsumed. */
  lemma FactorBindsTighter(t: seq<Token>)
    requires |t| == 6 && t[0].kind == Number && t[1].kind == Plus && t[2].kind == Number
    requires t[3].kind == Star && t[4].kind == Number && t[5].kind == Eof
    ensures ParseTokens(t) == Parsed(Binary(Atom(t[0]), t[1], Binary(Atom(t[2]), t[3], Atom(t[4]))), 5)
  {
    var b := Binary(Atom(t[2]), t[3], Atom(t[4]));
    var x := Binary(Atom(t[0]), t[1], b);
    assert UnaryAt(t, 0) == Parsed(Atom(t[0]), 1);
    assert LevelAt(FactorLevel, t, 0) == Parsed(Atom(t[0]), 1);
    assert UnaryAt(t, 2) == Parsed(Atom(t[2]), 3);
    assert UnaryAt(t, 4) == Parsed(Atom(t[4]), 5);
    assert FoldAt(FactorLevel, t, b, 5) == Parsed(b, 5);
    assert FoldAt(FactorLevel, t, Atom(t[2]), 3) == Parsed(b, 5);
    assert LevelAt(FactorLevel, t, 2) == Parsed(b, 5);
    assert FoldAt(TermLevel, t, x, 5) == Parsed(x, 5);
    assert FoldAt(TermLevel, t, Atom(t[0]), 1) == Parsed(x, 5);
    assert LevelAt(TermLevel, t, 0) == Parsed(x, 5);
    assert LevelAt(ComparisonLevel, t, 0) == Parsed(x, 5);
    assert LevelAt(EqualityLevel, t, 0) == Parsed(x, 5);
  }

  /** `1 - 2 - 3`: a chain of one level nests to the left. */
  lemma TermIsLeftAssociative(t: seq<Token>)
    requires |t| == 6 && t[0].kind == Number && t[1].kind == Minus && t[2].kind == Number
    requires t[3].kind == Minus && t[4].kind == Number && t[5].kind == Eof
    ensures ParseTokens(t) == Parsed(Binary(Binary(Atom(t[0]), t[1], Atom(t[2])), t[3], Atom(t[4])), 5)
  {
    var l := Binary(Atom(t[0]), t[1], Atom(t[2]));
    var x := Binary(l, t[3], Atom(t[4]));
    assert UnaryAt(t, 0) == Parsed(Atom(t[0]), 1);
    assert LevelAt(FactorLevel, t, 0) == Parsed(Atom(t[0]), 1);
    assert UnaryAt(t, 2) == Parsed(Atom(t[2]), 3);
    assert LevelAt(FactorLevel, t, 2) == Parsed(Atom(t[2]), 3);
    assert UnaryAt(t, 4) == Parsed(Atom(t[4]), 5);
    assert LevelAt(FactorLevel, t, 4) == Parsed(Atom(t[4]), 5);
    assert FoldAt(TermLevel, t, x, 5) == Parsed(x, 5);
    assert FoldAt(TermLevel, t, l, 3) == Parsed(x, 5);
    assert FoldAt(TermLevel, t, Atom(t[0]), 1) == Parsed(x, 5);
    assert LevelAt(TermLevel, t, 0) == Parsed(x, 5);
    assert LevelAt(ComparisonLevel, t, 0) == Parsed(x, 5);
    assert LevelAt(EqualityLevel, t, 0) == Parsed(x, 5);
  }

  /** `1 == 2 < 3`: comparison binds tighter than equality. */
  lemma ComparisonBindsTighter(t: seq<Token>)
    requires |t| == 6 && t[0].kind == Number && t[1].kind == EqualEqual && t[2].kind == Number
    requires t[3].kind == Less && t[4].kind == Number && t[5].kind == Eof
    ensures ParseTokens(t) == Parsed(Binary(Atom(t[0]), t[1], Binary(Atom(t[2]), t[3], Atom(t[4]))), 5)
  {
    var b := Binary(Atom(t[2]), t[3], Atom(t[4]));
    var x := Binary(Atom(t[0]), t[1], b);
    assert UnaryAt(t, 0) == Parsed(Atom(t[0]), 1);
    assert LevelAt(FactorLevel, t, 0) == Parsed(Atom(t[0]), 1);
    assert LevelAt(TermLevel, t, 0) == Parsed(Atom(t[0]), 1);
    assert LevelAt(ComparisonLevel, t, 0) == Parsed(Atom(t[0]), 1);
    assert UnaryAt(t, 2) == Parsed(Atom(t[2]), 3);
    assert LevelAt(FactorLevel, t, 2) == Parsed(Atom(t[2]), 3);
    assert LevelAt(TermLevel, t, 2) == Parsed(Atom(t[2]), 3);
    assert UnaryAt(t, 4) == Parsed(Atom(t[4]), 5);
    assert LevelAt(FactorLevel, t, 4) == Parsed(Atom(t[4]), 5);
    assert LevelAt(TermLevel, t, 4) == Parsed(Atom(t[4]), 5);
    assert FoldAt(ComparisonLevel, t, b, 5) == Parsed(b, 5);
    assert FoldAt(ComparisonLevel, t, Atom(t[2]), 3) == Parsed(b, 5);
    assert LevelAt(ComparisonLevel, t, 2) == Parsed(b, 5);
    assert FoldAt(EqualityLevel, t, x, 5) == Parsed(x, 5);
    assert FoldAt(EqualityLevel, t, Atom(t[0]), 1) == Parsed(x, 5);
    assert LevelAt(EqualityLevel, t, 0) == Parsed(x, 5);
  }

  /** `!!true`: unary nests to the right, and `true` is a literal holding its token. */
  lemma UnaryIsRightRecursive(t: seq<Token>)
    requires |t| == 4 && t[0].kind == Bang && t[1].kind == Bang && t[2].kind == True && t[3].kind == Eof
    ensures ParseTokens(t) == Parsed(Unary(t[0], Unary(t[1], Literal(TokenValue(t[2])))), 3)
  {
    var x := Unary(t[0], Unary(t[1], Literal(TokenValue(t[2]))));
    assert UnaryAt(t, 2) == Parsed(Literal(TokenValue(t[2])), 3);
    assert UnaryAt(t, 1) == Parsed(Unary(t[1], Literal(TokenValue(t[2]))), 3);
    assert UnaryAt(t, 0) == Parsed(x, 3);
    assert LevelAt(FactorLevel, t, 0) == Parsed(x, 3);
    assert LevelAt(TermLevel, t, 0) == Parsed(x, 3);
    assert LevelAt(ComparisonLevel, t, 0) == Parsed(x, 3);
    assert LevelAt(EqualityLevel, t, 0) == Parsed(x, 3);
  }

  /** `(1 + 2) * 3`: parentheses override precedence. */
  lemma GroupingOverridesPrecedence(t: seq<Token>)
    requires |t| == 8 && t[0].kind == LeftParen && t[1].kind == Number && t[2].kind == Plus
    requires t[3].kind == Number && t[4].kind == RightParen && t[5].kind == Star
    requires t[6].kind == Number && t[7].kind == Eof
    ensures ParseTokens(t) == Parsed(Binary(Grouping(Binary(Atom(t[1]), t[2], Atom(t[3]))), t[5], Atom(t[6])), 7)
  {
    var s := Binary(Atom(t[1]), t[2], Atom(t[3]));
    var g := Grouping(s);
    var x := Binary(g, t[5], Atom(t[6]));
    assert UnaryAt(t, 1) == Parsed(Atom(t[1]), 2);
    assert LevelAt(FactorLevel, t, 1) == Parsed(Atom(t[1]), 2);
    assert UnaryAt(t, 3) == Parsed(Atom(t[3]), 4);
    assert LevelAt(FactorLevel, t, 3) == Parsed(Atom(t[3]), 4);
    assert FoldAt(TermLevel, t, s, 4) == Parsed(s, 4);
    assert FoldAt(TermLevel, t, Atom(t[1]), 2) == Parsed(s, 4);
    assert LevelAt(TermLevel, t, 1) == Parsed(s, 4);
    assert LevelAt(ComparisonLevel, t, 1) == Parsed(s, 4);
    assert LevelAt(EqualityLevel, t, 1) == Parsed(s, 4);
    assert PrimaryAt(t, 0) == Parsed(g, 5);
    assert UnaryAt(t, 0) == Parsed(g, 5);
    assert UnaryAt(t, 6) == Parsed(Atom(t[6]), 7);
    assert FoldAt(FactorLevel, t, x, 7) == Parsed(x, 7);
    assert FoldAt(FactorLevel, t, g, 5) == Parsed(x, 7);
    assert LevelAt(FactorLevel, t, 0) == Parsed(x, 7);
    assert LevelAt(TermLevel, t, 0) == Parsed(x, 7);
    assert LevelAt(ComparisonLevel, t, 0) == Parsed(x, 7);
    assert LevelAt(EqualityLevel, t, 0) == Parsed(x, 7);
  }

  /** `(1 + 2` then EOF: `consume` reports the missing parenthesis at the EOF token. */
  lemma UnclosedGroupFails(t: seq<Token>)
    requires |t| == 5 && t[0].kind == LeftParen && t[1].kind == Number && t[2].kind == Plus
    requires t[3].kind == Number && t[4].kind == Eof
    ensures ParseTokens(t) == Failed(ParseError(Some(t[4]), "Expect ')' after expression."))
  {
    var s := Binary(Atom(t[1]), t[2], Atom(t[3]));
    var err := Failed(ParseError(Some(t[4]), MissingParen));
    assert UnaryAt(t, 1) == Parsed(Atom(t[1]), 2);
    assert LevelAt(FactorLevel, t, 1) == Parsed(Atom(t[1]), 2);
    assert UnaryAt(t, 3) == Parsed(Atom(t[3]), 4);
    assert LevelAt(FactorLevel, t, 3) == Parsed(Atom(t[3]), 4);
    assert FoldAt(TermLevel, t, s, 4) == Parsed(s, 4);
    assert FoldAt(TermLevel, t, Atom(t[1]), 2) == Parsed(s, 4);
    assert LevelAt(TermLevel, t, 1) == Parsed(s, 4);
    assert LevelAt(ComparisonLevel, t, 1) == Parsed(s, 4);
    assert LevelAt(EqualityLevel, t, 1) == Parsed(s, 4);
    assert PrimaryAt(t, 0) == err;
    assert UnaryAt(t, 0) == err;
    assert LevelAt(FactorLevel, t, 0) == err;
    assert LevelAt(TermLevel, t, 0) == err;
    assert LevelAt(ComparisonLevel, t, 0) == err;
    assert LevelAt(EqualityLevel, t, 0) == err;
  }

  /** `1 +` then EOF: the right operand is Missing, embedded in the Binary node. */
  lemma DanglingOperatorEmbedsMissing(t: seq<Token>)
    requires |t| == 3 && t[0].kind == Number && t[1].kind == Plus && t[2].kind == Eof
    ensures ParseTokens(t) == Parsed(Binary(Atom(t[0]), t[1], Missing), 2)
  {
    var x := Binary(Atom(t[0]), t[1], Missing);
    assert UnaryAt(t, 0) == Parsed(Atom(t[0]), 1);
    assert LevelAt(FactorLevel, t, 0) == Parsed(Atom(t[0]), 1);
    assert UnaryAt(t, 2) == Parsed(Missing, 2);
    assert LevelAt(FactorLevel, t, 2) == Parsed(Missing, 2);
    assert FoldAt(TermLevel, t, x, 2) == Parsed(x, 2);
    assert FoldAt(TermLevel, t, Atom(t[0]), 1) == Parsed(x, 2);
    assert LevelAt(TermLevel, t, 0) == Parsed(x, 2);
    assert LevelAt(ComparisonLevel, t, 0) == Parsed(x, 2);
    assert LevelAt(EqualityLevel, t, 0) == Parsed(x, 2);
  }

  /** An empty source scans to EOF alone; `primary` does not match EOF, so the result is Missing. */
  lemma OnlyEofIsMissing(t: seq<Token>)
    requires |t| == 1 && t[0].kind == Eof
    ensures ParseTokens(t) == Parsed(Missing, 0)
  {
    assert UnaryAt(t, 0) == Parsed(Missing, 0);
    assert LevelAt(FactorLevel, t, 0) == Parsed(Missing, 0);
    assert LevelAt(TermLevel, t, 0) == Parsed(Missing, 0);
    assert LevelAt(ComparisonLevel, t, 0) == Parsed(Missing, 0);
    assert LevelAt(EqualityLevel, t, 0) == Parsed(Missing, 0);
  }
}
