/**
 * The parser as the source writes it: an object over a fixed token list whose only
 * state is the cursor `current`. The four binary levels are `while (match(...))`
 * loops that grow the tree on the left; `unary` and `primary` recurse. Every
 * method is proved to compute what the function of the same name in ParseSpec
 * describes, starting from the cursor it was entered with.
 */
module Parsing {
  import opened Wrappers
  import opened Tokens
  import opened Ast
  import opened ParseSpec

  class Parser {
    const tokens: seq<Token>
    var current: nat

    ghost predicate Valid()
      reads this
    {
      current <= |tokens|
    }

    /** The method's result and final cursor are those of the parse `p`. */
    ghost predicate Yields(r: Result<Expr, ParseError>, p: Parse)
      reads this
    {
      match p
      case Parsed(e, next) => r == Ok(e) && current == next
      case Failed(err) => r == Err(err)
    }

    constructor (tokens: seq<Token>)
      ensures this.tokens == tokens && current == 0 && Valid()
    {
      this.tokens := tokens;
      current := 0;
    }

    /** The entry point: `expression()` from the first token. */
    method Parse() returns (r: Result<Expr, ParseError>)
      modifies this`current
      ensures Valid() && Yields(r, ParseTokens(tokens))
    {
      current := 0;
      r := Expression();
    }

    method Expression() returns (r: Result<Expr, ParseError>)
      requires Valid()
      modifies this`current
      ensures Valid() && Yields(r, ExpressionAt(tokens, old(current)))
      decreases |tokens| - current, 20
    {
      r := Equality();
    }

    method Equality() returns (r: Result<Expr, ParseError>)
      requires Valid()
      modifies this`current
      ensures Valid() && Yields(r, LevelAt(EqualityLevel, tokens, old(current)))
      decreases |tokens| - current, 13
    {
      var left := Comparison();
      if left.Err? {
        return left;
      }
      var expr := left.value;
      var more := Match([BangEqual, EqualEqual]);
      while more
        invariant Valid() && (more ==> 0 < current && MatchAt(tokens, current - 1, Operators(EqualityLevel)))
        invariant !more ==> !MatchAt(tokens, current, Operators(EqualityLevel))
        invariant FoldAt(EqualityLevel, tokens, expr, if more then current - 1 else current)
               == LevelAt(EqualityLevel, tokens, old(current))
        decreases |tokens| - current + (if more then 1 else 0)
      {
        var op := Previous();
        var right := Comparison();
        if right.Err? {
          return right;
        }
        expr := Binary(expr, op, right.value);
        more := Match([BangEqual, EqualEqual]);
      }
      return Ok(expr);
    }

    method Comparison() returns (r: Result<Expr, ParseError>)
      requires Valid()
      modifies this`current
      ensures Valid() && Yields(r, LevelAt(ComparisonLevel, tokens, old(current)))
      decreases |tokens| - current, 10
    {
      var left := Term();
      if left.Err? {
        return left;
      }
      var expr := left.value;
      var more := Match([Greater, GreaterEqual, Less, LessEqual]);
      while more
        invariant Valid() && (more ==> 0 < current && MatchAt(tokens, current - 1, Operators(ComparisonLevel)))
        invariant !more ==> !MatchAt(tokens, current, Operators(ComparisonLevel))
        invariant FoldAt(ComparisonLevel, tokens, expr, if more then current - 1 else current)
               == LevelAt(ComparisonLevel, tokens, old(current))
        decreases |tokens| - current + (if more then 1 else 0)
      {
        var op := Previous();
        var right := Term();
        if right.Err? {
          return right;
        }
        expr := Binary(expr, op, right.value);
        more := Match([Greater, GreaterEqual, Less, LessEqual]);
      }
      return Ok(expr);
    }

    method Term() returns (r: Result<Expr, ParseError>)
      requires Valid()
      modifies this`current
      ensures Valid() && Yields(r, LevelAt(TermLevel, tokens, old(current)))
      decreases |tokens| - current, 7
    {
      var left := Factor();
      if left.Err? {
        return left;
      }
      var expr := left.value;
      var more := Match([Minus, Plus]);
      while more
        invariant Valid() && (more ==> 0 < current && MatchAt(tokens, current - 1, Operators(TermLevel)))
        invariant !more ==> !MatchAt(tokens, current, Operators(TermLevel))
        invariant FoldAt(TermLevel, tokens, expr, if more then current - 1 else current)
               == LevelAt(TermLevel, tokens, old(current))
        decreases |tokens| - current + (if more then 1 else 0)
      {
        var op := Previous();
        var right := Factor();
        if right.Err? {
          return right;
        }
        expr := Binary(expr, op, right.value);
        more := Match([Minus, Plus]);
      }
      return Ok(expr);
    }

    method Factor() returns (r: Result<Expr, ParseError>)
      requires Valid()
      modifies this`current
      ensures Valid() && Yields(r, LevelAt(FactorLevel, tokens, old(current)))
      decreases |tokens| - current, 4
    {
      var left := Unary();
      if left.Err? {
        return left;
      }
      var expr := left.value;
      var more := Match([Slash, Star]);
      while more
        invariant Valid() && (more ==> 0 < current && MatchAt(tokens, current - 1, Operators(FactorLevel)))
        invariant !more ==> !MatchAt(tokens, current, Operators(FactorLevel))
        invariant FoldAt(FactorLevel, tokens, expr, if more then current - 1 else current)
               == LevelAt(FactorLevel, tokens, old(current))
        decreases |tokens| - current + (if more then 1 else 0)
      {
        var op := Previous();
        var right := Unary();
        if right.Err? {
          return right;
        }
        expr := Binary(expr, op, right.value);
        more := Match([Slash, Star]);
      }
      return Ok(expr);
    }

    method Unary() returns (r: Result<Expr, ParseError>)
      requires Valid()
      modifies this`current
      ensures Valid() && Yields(r, UnaryAt(tokens, old(current)))
      decreases |tokens| - current, 1
    {
      var prefixed := Match([Bang, Minus]);
      if prefixed {
        var op := Previous();
        var operand := Unary();
        if operand.Err? {
          return operand;
        }
        return Ok(Expr.Unary(op, operand.value));
      }
      r := Primary();
    }

    method Primary() returns (r: Result<Expr, ParseError>)
      requires Valid()
      modifies this`current
      ensures Valid() && Yields(r, PrimaryAt(tokens, old(current)))
      decreases |tokens| - current, 0
    {
      var paren := Match([LeftParen]);
      if paren {
        var inner := Expression();
        if inner.Err? {
          return inner;
        }
        var closed := Consume(RightParen, MissingParen);
        if closed.Err? {
          return Err(closed.error);
        }
        return Ok(Grouping(inner.value));
      }
      var keyword := Match([True, False, Nil]);
      if keyword {
        return Ok(Literal(TokenValue(Previous())));
      }
      var literal := Match([Number, String]);
      if literal {
        return Ok(Literal(LiteralValue(Previous().literal)));
      }
      return Ok(Missing);
    }

    /** `match`: tries the kinds in order and consumes the token on the first that checks. */
    method Match(kinds: seq<TokenType>) returns (matched: bool)
      requires Valid()
      modifies this`current
      ensures Valid()
      ensures matched == MatchAt(tokens, old(current), kinds)
      ensures current == if matched then old(current) + 1 else old(current)
    {
      for i := 0 to |kinds|
        invariant current == old(current)
        invariant forall j :: 0 <= j < i ==> !Check(kinds[j])
      {
        if Check(kinds[i]) {
          var _ := Advance();
          return true;
        }
      }
      return false;
    }

    /** `consume`, read as check, then advance, else raise the error. */
    method Consume(kind: TokenType, message: string) returns (r: Result<Token, ParseError>)
      requires Valid()
      modifies this`current
      ensures Valid()
      ensures match ConsumeAt(tokens, old(current), kind, message)
        case Ok(next) => r == Ok(tokens[old(current)]) && current == next
        case Err(err) => r == Err(err) && current == old(current)
    {
      if Check(kind) {
        var t := Advance();
        return Ok(t);
      }
      return Err(ParseError(if IsAtEnd() then None else Some(Peek()), message));
    }

    /** `check`: false at the end of the list, else whether the current token has `kind`. */
    predicate Check(kind: TokenType)
      reads this
      ensures Check(kind) <==> CheckAt(tokens, current, kind)
    {
      if IsAtEnd() then false else Peek().kind == kind
    }

    /** `isAtEnd`: within a valid parser, exactly when the cursor is past the last token. */
    predicate IsAtEnd()
      reads this
      ensures Valid() ==> (IsAtEnd() <==> current == |tokens|)
    {
      current >= |tokens|
    }

    /** `peek`: the token `check` tests. */
    function Peek(): (t: Token)
      reads this
      requires current < |tokens|
      ensures CheckAt(tokens, current, t.kind)
    {
      tokens[current]
    }

    /** `previous`: the token just consumed. */
    function Previous(): (t: Token)
      reads this
      requires 0 < current <= |tokens|
      ensures CheckAt(tokens, current - 1, t.kind)
    {
      tokens[current - 1]
    }

    /** `advance`: moves past the current token unless at the end, and returns the one before the cursor. */
    method Advance() returns (t: Token)
      requires Valid() && 0 < |tokens|
      modifies this`current
      ensures Valid()
      ensures current == if old(current) < |tokens| then old(current) + 1 else old(current)
      ensures t == tokens[current - 1]
    {
      if !IsAtEnd() {
        current := current + 1;
      }
      t := Previous();
    }
  }
}
