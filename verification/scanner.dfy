/**
 * The scanner as the source writes it: an object over the source text whose
 * cursors `start`, `current` and `line` and whose token list are updated in place
 * by a loop of `scanToken` calls. Every method is proved to compute what the
 * matching function of module LexSpec describes.
 */
module Lexer {
  import opened Wrappers
  import opened Tokens
  import opened LexSpec
  import LexProps

  class Scanner {
    const source: string
    var tokens: seq<Token>
    var start: nat
    var current: nat
    var line: int
    /** The calls made to the driver's error sink, oldest first. */
    var errors: seq<LexError>

    ghost predicate Valid()
      reads this
    {
      start <= current <= |source|
    }

    /** The state a step leaves: cursor, line, and the token and error it appended. */
    ghost predicate After(st: Step, tokens0: seq<Token>, errors0: seq<LexError>)
      reads this
    {
      st.Step? && current == st.next && line == st.line &&
      tokens == tokens0 + OptionToSeq(st.token) && errors == errors0 + OptionToSeq(st.error)
    }

    constructor (source: string)
      ensures this.source == source && Valid()
      ensures tokens == [] && errors == [] && start == 0 && current == 0 && line == 1
    {
      this.source := source;
      tokens := [];
      errors := [];
      start := 0;
      current := 0;
      line := 1;
    }

    /**
     * Scans the rest of the source. On a source whose block comment never closes
     * the source's `advance` throws; that outcome is None here.
     */
    method ScanTokens() returns (r: Option<seq<Token>>)
      requires Valid()
      modifies this
      ensures match ScanFrom(source, old(current), old(line))
        case Crashed => r.None?
        case Scanned(ts, es) =>
          r == Some(old(tokens) + ts) && tokens == r.value && errors == old(errors) + es &&
          Valid() && current == |source| && line == old(line) + Newlines(source, old(current), |source|)
    {
      while !IsAtEnd()
        invariant Valid()
        invariant Prepend(old(tokens), old(errors), ScanFrom(source, old(current), old(line)))
               == Prepend(tokens, errors, ScanFrom(source, current, line))
        decreases |source| - current
      {
        start := current;
        ghost var tokens0, errors0, line0 := tokens, errors, line;
        ghost var st := ScanStep(source, start, line);
        var ok := ScanToken();
        if !ok {
          return None;
        }
        ScanFromStep(source, start, line0);
        PrependTwice(tokens0, errors0, OptionToSeq(st.token), OptionToSeq(st.error), ScanFrom(source, current, line));
      }
      LexProps.ScanEndsWithEof(source, old(current), old(line));
      ghost var all := ScanFrom(source, old(current), old(line));
      assert ScanFrom(source, current, line) == Scanned([EofToken(line)], []);
      assert errors + [] == errors;
      assert Prepend(old(tokens), old(errors), all) == Scanned(tokens + [EofToken(line)], errors);
      tokens := tokens + [EofToken(line)];
      assert tokens[|tokens| - 1] == EofToken(line);
      r := Some(tokens);
    }

    /** One token (or none) from the characters starting at `start == current`. */
    method ScanToken() returns (ok: bool)
      requires Valid() && start == current < |source|
      modifies this`current, this`line, this`tokens, this`errors
      ensures Valid()
      ensures ScanStep(source, start, old(line)).PastEnd? ==> !ok
      ensures ScanStep(source, start, old(line)).Step? ==>
        ok && After(ScanStep(source, start, old(line)), old(tokens), old(errors))
    {
      ok := true;
      var c := Advance();
      match c
      case '(' => AddToken(LeftParen, NoLiteral);
      case ')' => AddToken(RightParen, NoLiteral);
      case '{' => AddToken(LeftBrace, NoLiteral);
      case '}' => AddToken(RightBrace, NoLiteral);
      case ',' => AddToken(Comma, NoLiteral);
      case '.' => AddToken(Dot, NoLiteral);
      case '-' => AddToken(Minus, NoLiteral);
      case '+' => AddToken(Plus, NoLiteral);
      case ';' => AddToken(Semicolon, NoLiteral);
      case '*' => AddToken(Star, NoLiteral);
      case '!' =>
        var two := Match('=');
        AddToken(if two then BangEqual else Bang, NoLiteral);
      case '=' =>
        var two := Match('=');
        AddToken(if two then EqualEqual else Equal, NoLiteral);
      case '<' =>
        var two := Match('=');
        AddToken(if two then LessEqual else Less, NoLiteral);
      case '>' =>
        var two := Match('=');
        AddToken(if two then GreaterEqual else Greater, NoLiteral);
      case '/' => ok := SlashOrComment();
      case '"' => ScanString();
      case ' ' =>
      case '\r' =>
      case '\t' =>
      case '\n' => line := line + 1;
      case _ =>
        if IsDigit(c) {
          ScanNumber();
        } else if IsAlpha(c) {
          ScanIdentifier();
        } else {
          ReportError("Unexpected character.");
        }
    }

    /** The `/` case of `scanToken`: a line comment, a block comment or SLASH. */
    method SlashOrComment() returns (ok: bool)
      requires start + 1 == current <= |source| && source[start] == '/'
      modifies this`current, this`line, this`tokens, this`errors
      ensures Valid()
      ensures SlashStep(source, start, old(line)).PastEnd? ==> !ok
      ensures SlashStep(source, start, old(line)).Step? ==>
        ok && After(SlashStep(source, start, old(line)), old(tokens), old(errors))
    {
      ok := true;
      var lineComment := Match('/');
      if lineComment {
        // A line comment runs up to, not including, the line break.
        while Peek() != '\n' && !IsAtEnd()
          invariant start < current <= |source|
          invariant SkipWhile(source, current, NonNewlines) == SkipWhile(source, start + 2, NonNewlines)
          invariant line == old(line) && tokens == old(tokens) && errors == old(errors)
          decreases |source| - current
        {
          var _ := Advance();
        }
      } else {
        var blockComment := Match('*');
        if blockComment {
          ok := MultilineComment();
        } else {
          AddToken(Slash, NoLiteral);
        }
      }
    }

    /**
     * The rest of a block comment after its opening slash-star. Returns false
     * where the source's final `advance()` of an iteration reads past the end.
     */
    method MultilineComment() returns (ok: bool)
      requires Valid()
      modifies this`current, this`line
      ensures Valid()
      ensures match BlockComment(source, old(current), 1, old(line))
        case RanPastEnd(_) => !ok
        case Closed(j, l) => ok && current == j && line == l
    {
      var nests := 1;
      while nests > 0
        invariant Valid() && old(current) <= current
        invariant BlockComment(source, current, nests, line) == BlockComment(source, old(current), 1, old(line))
        decreases |source| - current
      {
        if Peek() == '*' && PeekNext() == '/' {
          var _ := Advance();
          nests := nests - 1;
        }
        if Peek() == '/' && PeekNext() == '*' {
          var _ := Advance();
          nests := nests + 1;
        }
        if Peek() == '\n' {
          line := line + 1;
        }
        if IsAtEnd() {
          return false;
        }
        var _ := Advance();
      }
      ok := true;
    }

    /** `number`, entered just after the first digit. */
    method ScanNumber()
      requires start + 1 == current <= |source| && IsDigit(source[start])
      modifies this`current, this`tokens
      ensures After(NumberStep(source, start, line), old(tokens), errors)
    {
      while IsDigit(Peek())
        invariant start < current <= |source|
        invariant SkipWhile(source, current, Digits) == SkipWhile(source, start + 1, Digits)
        invariant tokens == old(tokens)
        decreases |source| - current
      {
        var _ := Advance();
      }
      if Peek() == '.' && IsDigit(PeekNext()) {
        var _ := Advance();
        while IsDigit(Peek())
          invariant start < current <= |source|
          invariant SkipWhile(source, current, Digits) == NumberEnd(source, start)
          invariant tokens == old(tokens)
          decreases |source| - current
        {
          var _ := Advance();
        }
      }
      assert current == NumberEnd(source, start);
      AddToken(Number, NumberText(source[start..current]));
    }

    /** `identifier`, entered just after the first letter or underscore. */
    method ScanIdentifier()
      requires start + 1 == current <= |source| && IsAlpha(source[start])
      modifies this`current, this`tokens
      ensures After(IdentifierStep(source, start, line), old(tokens), errors)
    {
      while IsAlphanumeric(Peek())
        invariant start < current <= |source|
        invariant SkipWhile(source, current, WordChars) == SkipWhile(source, start + 1, WordChars)
        invariant tokens == old(tokens)
        decreases |source| - current
      {
        var _ := Advance();
      }
      var kind := KeywordKind(source[start..current]);
      AddToken(kind, NoLiteral);
    }

    /** `string`, entered just after the opening quote. */
    method ScanString()
      requires start + 1 == current <= |source| && source[start] == '"'
      modifies this`current, this`line, this`tokens, this`errors
      ensures After(StringStep(source, start, old(line)), old(tokens), old(errors))
    {
      while Peek() != '"' && !IsAtEnd()
        invariant start < current <= |source|
        invariant SkipWhile(source, current, NonQuotes) == SkipWhile(source, start + 1, NonQuotes)
        invariant line == old(line) + Newlines(source, start + 1, current)
        invariant tokens == old(tokens) && errors == old(errors)
        decreases |source| - current
      {
        if Peek() == '\n' {
          line := line + 1;
        }
        var _ := Advance();
      }
      ghost var st := StringStep(source, start, old(line));
      assert current == SkipWhile(source, start + 1, NonQuotes);
      if IsAtEnd() {
        ReportError("Unterminated String literal.");
        assert st == Step(current, line, None, Some(LexError(line, "Unterminated String literal.")));
        return;
      }
      var _ := Advance();
      assert st == Emit(source, start, current, String, StringValue(source[start + 1..current - 1]), line);
      AddToken(String, StringValue(source[start + 1..current - 1]));
    }

    /** `advance`: the character under the cursor, which moves past it. */
    method Advance() returns (c: char)
      requires current < |source|
      modifies this`current
      ensures c == source[old(current)] && current == old(current) + 1
    {
      c := source[current];
      current := current + 1;
    }

    /** `peek`: the character under the cursor, NUL at the end. */
    function Peek(): (c: char)
      reads this
      ensures current < |source| ==> c == source[current]
    {
      CharAt(source, current)
    }

    /** `peekNext`: the character after the cursor, NUL when there is none. */
    function PeekNext(): (c: char)
      reads this
      ensures current + 1 < |source| ==> c == source[current + 1]
      ensures current + 1 >= |source| ==> c == '\0'
    {
      CharAt(source, current + 1)
    }

    /** `match`: consumes the next character exactly when it is `expected`. */
    method Match(expected: char) returns (matched: bool)
      requires current <= |source|
      modifies this`current
      ensures matched == Matches(source, old(current), expected)
      ensures current == if matched then old(current) + 1 else old(current)
    {
      if IsAtEnd() || source[current] != expected {
        return false;
      }
      current := current + 1;
      return true;
    }

    /** `addToken`: appends the token spanning `source[start..current]`. */
    method AddToken(kind: TokenType, literal: Literal)
      requires start <= current <= |source|
      modifies this`tokens
      ensures tokens == old(tokens) + [Token(kind, source[start..current], literal, line)]
    {
      tokens := tokens + [Token(kind, source[start..current], literal, line)];
    }

    /** `Lox.error(line, message)`: one more entry in the error log. */
    method ReportError(message: string)
      modifies this`errors
      ensures errors == old(errors) + [LexError(line, message)]
    {
      errors := errors + [LexError(line, message)];
    }

    /** `isAtEnd`: within a valid scanner, exactly when the cursor is on the end. */
    predicate IsAtEnd()
      reads this
      ensures Valid() ==> (IsAtEnd() <==> current == |source|)
    {
      current >= |source|
    }
  }
}
