/**
 * What the scanner promises, proved about the specification in LexSpec (and so,
 * through the postconditions of class Lexer.Scanner, about the imperative code).
 */
module LexProps {
  import opened Wrappers
  import opened Tokens
  import opened LexSpec

  // ---------------------------------------------------------------------------
  // Character classes

  const DigitChars := "0123456789"
  const LowerChars := "abcdefghijklmnopqrstuvwxyz"
  const UpperChars := "ABCDEFGHIJKLMNOPQRSTUVWXYZ"

  /** `run` lists the characters from `lo` on, in code order, without a gap. */
  predicate Consecutive(run: string, lo: char) {
    forall k :: 0 <= k < |run| ==> run[k] as int == lo as int + k
  }

  lemma {:induction false} InConsecutive(c: char, run: string, lo: char)
    requires Consecutive(run, lo)
    ensures c in run <==> lo as int <= c as int < lo as int + |run|
  {
    if lo as int <= c as int < lo as int + |run| {
      assert run[c as int - lo as int] == c;
    }
  }

  /**
   * `isDigit`, `isAlpha` and `isAlphanumeric` against the characters they stand
   * for: the ten ASCII digits; the ASCII letters of either case and the
   * underscore; the union of the two. No character is both a digit and a letter.
   */
  lemma CharClasses(c: char)
    ensures IsDigit(c) <==> c in DigitChars
    ensures IsAlpha(c) <==> c in LowerChars || c in UpperChars || c == '_'
    ensures IsAlphanumeric(c) <==> c in DigitChars || c in LowerChars || c in UpperChars || c == '_'
    ensures !(IsDigit(c) && IsAlpha(c))
  {
    InConsecutive(c, DigitChars, '0');
    InConsecutive(c, LowerChars, 'a');
    InConsecutive(c, UpperChars, 'A');
  }

  // ---------------------------------------------------------------------------
  // Runs of characters and line counting

  /** A `while (p(peek()) ...) advance();` loop stops at the first character failing `p`. */
  lemma {:induction false} SkipWhileStops(s: string, i: nat, r: Run)
    requires i <= |s|
    ensures var j := SkipWhile(s, i, r);
      (forall k :: i <= k < j ==> InRun(s[k], r)) && (j == |s| || !InRun(s[j], r))
    decreases |s| - i
  {
    if i < |s| && InRun(s[i], r) {
      SkipWhileStops(s, i + 1, r);
    }
  }

  lemma {:induction false} NewlinesSplit(s: string, i: nat, j: nat, k: nat)
    requires i <= j <= k <= |s|
    ensures Newlines(s, i, k) == Newlines(s, i, j) + Newlines(s, j, k)
    decreases k - j
  {
    if j < k {
      NewlinesSplit(s, i, j, k - 1);
    }
  }

  lemma {:induction false} NoNewlines(s: string, i: nat, j: nat)
    requires i <= j <= |s|
    requires forall k :: i <= k < j ==> s[k] != '\n'
    ensures Newlines(s, i, j) == 0
    decreases j - i
  {
    if i < j {
      NoNewlines(s, i, j - 1);
    }
  }

  // ---------------------------------------------------------------------------
  // Block comments

  /** Every line break inside a block comment is counted. */
  lemma {:induction false} BlockCommentLines(s: string, i: nat, nests: int, line: int)
    requires i <= |s| && BlockComment(s, i, nests, line).Closed?
    ensures BlockComment(s, i, nests, line).line == line + Newlines(s, i, BlockComment(s, i, nests, line).next)
    decreases |s| - i
  {
    if nests > 0 {
      var closes := CharAt(s, i) == '*' && CharAt(s, i + 1) == '/';
      var i1 := if closes then i + 1 else i;
      var n1 := if closes then nests - 1 else nests;
      var opens := CharAt(s, i1) == '/' && CharAt(s, i1 + 1) == '*';
      var i2 := if opens then i1 + 1 else i1;
      var n2 := if opens then n1 + 1 else n1;
      var line' := if CharAt(s, i2) == '\n' then line + 1 else line;
      var j := BlockComment(s, i, nests, line).next;
      assert BlockComment(s, i, nests, line) == BlockComment(s, i2 + 1, n2, line');
      NoNewlines(s, i, i2);
      NewlinesSplit(s, i, i2, i2 + 1);
      BlockCommentLines(s, i2 + 1, n2, line');
      NewlinesSplit(s, i, i2 + 1, j);
    }
  }

  /**
   * A block comment entered at a positive depth ends right after a star-slash:
   * only a closing pair brings the depth to 0.
   */
  lemma {:induction false} BlockCommentEndsWithClose(s: string, i: nat, nests: int, line: int)
    requires i <= |s| && nests > 0 && BlockComment(s, i, nests, line).Closed?
    ensures var j := BlockComment(s, i, nests, line).next;
      i + 2 <= j && s[j - 2] == '*' && s[j - 1] == '/'
    decreases |s| - i
  {
    var closes := CharAt(s, i) == '*' && CharAt(s, i + 1) == '/';
    var i1 := if closes then i + 1 else i;
    var n1 := if closes then nests - 1 else nests;
    var opens := CharAt(s, i1) == '/' && CharAt(s, i1 + 1) == '*';
    var i2 := if opens then i1 + 1 else i1;
    var n2 := if opens then n1 + 1 else n1;
    var line' := if CharAt(s, i2) == '\n' then line + 1 else line;
    assert BlockComment(s, i, nests, line) == BlockComment(s, i2 + 1, n2, line');
    if n2 > 0 {
      BlockCommentEndsWithClose(s, i2 + 1, n2, line');
    }
  }

  /**
   * The nesting rule of block comments, one construct at a time: the comment is
   * over at depth 0; inside it a slash-star goes one level deeper, a star-slash
   * one level up, and a star-slash-star closes and reopens in one go (net depth
   * unchanged, three characters); any other character is skipped, counting a line
   * break; at the end of the source the comment runs past the end.
   */
  lemma BlockCommentNesting(s: string, i: nat, nests: int, line: int)
    requires i <= |s|
    ensures nests <= 0 ==> BlockComment(s, i, nests, line) == Closed(i, line)
    ensures nests > 0 && i == |s| ==> BlockComment(s, i, nests, line) == RanPastEnd(line)
    ensures nests > 0 && Matches(s, i, '/') && Matches(s, i + 1, '*') ==>
      BlockComment(s, i, nests, line) == BlockComment(s, i + 2, nests + 1, line)
    ensures nests > 0 && Matches(s, i, '*') && Matches(s, i + 1, '/') && !Matches(s, i + 2, '*') ==>
      BlockComment(s, i, nests, line) == BlockComment(s, i + 2, nests - 1, line)
    ensures nests > 0 && Matches(s, i, '*') && Matches(s, i + 1, '/') && Matches(s, i + 2, '*') ==>
      BlockComment(s, i, nests, line) == BlockComment(s, i + 3, nests, line)
    ensures var opens, closes := Matches(s, i, '/') && Matches(s, i + 1, '*'), Matches(s, i, '*') && Matches(s, i + 1, '/');
      nests > 0 && i < |s| && !opens && !closes ==>
      BlockComment(s, i, nests, line) == BlockComment(s, i + 1, nests, if s[i] == '\n' then line + 1 else line)
  {
  }

  // ---------------------------------------------------------------------------
  // One scanToken call, construct by construct

  /** The characters that are a token on their own, with their kinds. */
  const Punctuation: map<char, TokenType> :=
    map[
      '(' := LeftParen, ')' := RightParen, '{' := LeftBrace, '}' := RightBrace,
      ',' := Comma, '.' := Dot, '-' := Minus, '+' := Plus, ';' := Semicolon, '*' := Star
    ]

  /** The characters that are an operator alone or, followed by `=`, a longer one. */
  const OneOrTwoChar: map<char, (TokenType, TokenType)> :=
    map['!' := (Bang, BangEqual), '=' := (Equal, EqualEqual), '<' := (Less, LessEqual), '>' := (Greater, GreaterEqual)]

  /** Every character some case of `scanToken` accepts. */
  predicate Recognized(c: char) {
    c in Punctuation || c in OneOrTwoChar || c in "/\" \r\t\n" || IsDigit(c) || IsAlpha(c)
  }

  lemma ScanPunctuation(s: string, i: nat, line: int)
    requires i < |s| && s[i] in Punctuation
    ensures ScanStep(s, i, line) == Emit(s, i, i + 1, Punctuation[s[i]], NoLiteral, line)
  {
  }

  /** Longest match: `!=`, `==`, `<=`, `>=` take both characters, otherwise only the first. */
  lemma ScanOneOrTwo(s: string, i: nat, line: int)
    requires i < |s| && s[i] in OneOrTwoChar
    ensures var (one, two) := OneOrTwoChar[s[i]];
      ScanStep(s, i, line) ==
        if i + 1 < |s| && s[i + 1] == '=' then Emit(s, i, i + 2, two, NoLiteral, line)
        else Emit(s, i, i + 1, one, NoLiteral, line)
  {
  }

  /** Blanks are skipped; a line break only moves the line counter. */
  lemma ScanWhitespace(s: string, i: nat, line: int)
    requires i < |s| && s[i] in " \r\t\n"
    ensures ScanStep(s, i, line) == Skip(i + 1, if s[i] == '\n' then line + 1 else line)
  {
  }

  /**
   * A slash: `//` skips up to, not including, the next line break (or the end);
   * a slash-star starts a block comment that adds nothing and, when it closes,
   * ends right after a star-slash; a lone `/` is SLASH.
   */
  lemma ScanSlash(s: string, i: nat, line: int)
    requires i < |s| && s[i] == '/'
    ensures var st := ScanStep(s, i, line);
      if i + 1 < |s| && s[i + 1] == '/' then
        st.Step? && st.token.None? && st.error.None? && st.line == line && i + 2 <= st.next &&
        (forall k :: i <= k < st.next ==> s[k] != '\n') && (st.next == |s| || s[st.next] == '\n')
      else if i + 1 < |s| && s[i + 1] == '*' then
        st.Step? ==> st.token.None? && st.error.None? && i + 4 <= st.next && s[st.next - 2] == '*' && s[st.next - 1] == '/'
      else
        st == Emit(s, i, i + 1, Slash, NoLiteral, line)
  {
    if Matches(s, i + 1, '/') {
      SkipWhileStops(s, i + 2, NonNewlines);
    } else if Matches(s, i + 1, '*') {
      if BlockComment(s, i + 2, 1, line).Closed? {
        BlockCommentEndsWithClose(s, i + 2, 1, line);
      }
    }
  }

  /** The shape of a NUMBER lexeme: digits, optionally a dot and more digits. */
  predicate IsNumberLexeme(t: string) {
    |t| > 0 && IsDigit(t[0]) && IsDigit(t[|t| - 1]) &&
    (forall k :: 0 <= k < |t| ==> IsDigit(t[k]) || t[k] == '.') &&
    (forall k, m :: 0 <= k < m < |t| && !IsDigit(t[k]) ==> IsDigit(t[m]))
  }

  /**
   * A digit starts a NUMBER whose lexeme is digits with at most one inner dot, and
   * whose literal is that text; the run is maximal: no digit follows, and a dot
   * followed by a digit is taken whenever the lexeme has no dot yet.
   */
  lemma ScanNumberShape(s: string, i: nat, line: int)
    requires i < |s| && IsDigit(s[i])
    ensures var st := ScanStep(s, i, line);
      st.Step? && st.error.None? && st.line == line && st.token.Some? &&
      st.token.value == Token(Number, s[i..st.next], NumberText(s[i..st.next]), line) &&
      IsNumberLexeme(s[i..st.next]) && !IsDigit(CharAt(s, st.next)) &&
      ((forall k :: i <= k < st.next ==> IsDigit(s[k])) ==> !(CharAt(s, st.next) == '.' && IsDigit(CharAt(s, st.next + 1))))
  {
    assert ScanStep(s, i, line) == NumberStep(s, i, line);
    NumberEndShape(s, i);
  }

  lemma NumberEndShape(s: string, i: nat)
    requires i < |s| && IsDigit(s[i])
    ensures var j := NumberEnd(s, i);
      IsNumberLexeme(s[i..j]) && !IsDigit(CharAt(s, j)) &&
      ((forall k :: i <= k < j ==> IsDigit(s[k])) ==> !(CharAt(s, j) == '.' && IsDigit(CharAt(s, j + 1))))
  {
    var d := SkipWhile(s, i + 1, Digits);
    SkipWhileStops(s, i + 1, Digits);
    var j := NumberEnd(s, i);
    var t := s[i..j];
    if CharAt(s, d) == '.' && IsDigit(CharAt(s, d + 1)) {
      SkipWhileStops(s, d + 1, Digits);
      assert !IsDigit(t[d - i]);
    } else {
      assert j == d;
    }
  }

  /**
   * A letter or underscore starts the longest run of letters, digits and
   * underscores; its kind is the keyword table's entry for it, else IDENTIFIER.
   */
  lemma ScanIdentifierShape(s: string, i: nat, line: int)
    requires i < |s| && IsAlpha(s[i])
    ensures var st := ScanStep(s, i, line);
      st.Step? && st.error.None? && st.line == line && st.token.Some? &&
      st.token.value == Token(KeywordKind(s[i..st.next]), s[i..st.next], NoLiteral, line) &&
      (forall k :: i <= k < st.next ==> IsAlphanumeric(s[k])) && !IsAlphanumeric(CharAt(s, st.next))
  {
    SkipWhileStops(s, i + 1, WordChars);
    assert ScanStep(s, i, line) == IdentifierStep(s, i, line);
  }

  /**
   * A quote: if another quote follows, a STRING whose value is the text strictly
   * between the two; otherwise an error at the end of the source and no token.
   * Line breaks inside are counted either way.
   */
  lemma ScanStringShape(s: string, i: nat, line: int)
    requires i < |s| && s[i] == '"'
    ensures var st := ScanStep(s, i, line);
      st.Step? && st.line == line + Newlines(s, i, st.next)
    ensures var st := ScanStep(s, i, line);
      (exists k :: i < k < |s| && s[k] == '"') ==>
        i + 2 <= st.next && s[st.next - 1] == '"' && (forall k :: i < k < st.next - 1 ==> s[k] != '"') &&
        st.error.None? && st.token == Some(Token(String, s[i..st.next], StringValue(s[i + 1..st.next - 1]), st.line))
    ensures var st := ScanStep(s, i, line);
      (forall k :: i < k < |s| ==> s[k] != '"') ==>
        st.next == |s| && st.token.None? && st.error == Some(LexError(st.line, "Unterminated String literal."))
  {
    assert ScanStep(s, i, line) == StringStep(s, i, line);
    StringStepShape(s, i, line);
  }

  lemma StringStepShape(s: string, i: nat, line: int)
    requires i < |s| && s[i] == '"'
    ensures var st := StringStep(s, i, line);
      st.Step? && i < st.next <= |s| && st.line == line + Newlines(s, i, st.next)
    ensures var st := StringStep(s, i, line);
      (exists k :: i < k < |s| && s[k] == '"') ==>
        i + 2 <= st.next && s[st.next - 1] == '"' && (forall k :: i < k < st.next - 1 ==> s[k] != '"') &&
        st.error.None? && st.token == Some(Token(String, s[i..st.next], StringValue(s[i + 1..st.next - 1]), st.line))
    ensures var st := StringStep(s, i, line);
      (forall k :: i < k < |s| ==> s[k] != '"') ==>
        st.next == |s| && st.token.None? && st.error == Some(LexError(st.line, "Unterminated String literal."))
  {
    var j := SkipWhile(s, i + 1, NonQuotes);
    SkipWhileStops(s, i + 1, NonQuotes);
    NewlinesSplit(s, i, i + 1, j);
    if j < |s| {
      NewlinesSplit(s, i, j, j + 1);
    }
  }

  /** Any other character is reported, skipped, and adds no token. */
  lemma ScanUnexpected(s: string, i: nat, line: int)
    requires i < |s| && !Recognized(s[i])
    ensures ScanStep(s, i, line) == Step(i + 1, line, None, Some(LexError(line, "Unexpected character.")))
  {
  }

  /** The reserved word of each keyword kind, written out independently of the table. */
  function ReservedWord(kind: TokenType): string {
    match kind
    case And => "and" case Class => "class" case Else => "else" case False => "false"
    case For => "for" case Fun => "fun" case If => "if" case Nil => "nil"
    case Or => "or" case Print => "print" case Return => "return" case Super => "super"
    case This => "this" case True => "true" case Var => "var" case While => "while"
    case _ => ""
  }

  predicate IsWord(w: string) {
    |w| > 0 && forall k :: 0 <= k < |w| ==> IsAlpha(w[k])
  }

  /** Every entry of the keyword table is a word that `identifier` scans whole. */
  lemma KeywordsAreWords()
    ensures forall w :: w in Keywords ==> IsWord(w)
  {
  }

  /**
   * Every entry of the keyword table maps to the kind whose reserved word it is,
   * so no two words share a kind.
   */
  lemma KeywordsNameTheirKind()
    ensures forall w :: w in Keywords ==> ReservedWord(Keywords[w]) == w
  {
  }

  /**
   * A lexeme scans to IDENTIFIER exactly when it is not in the table, and
   * otherwise to the kind whose reserved word it is.
   */
  lemma KeywordKindLookup(text: string)
    ensures KeywordKind(text) == Identifier <==> text !in Keywords
    ensures text in Keywords ==> ReservedWord(KeywordKind(text)) == text
  {
    KeywordsNameTheirKind();
  }

  /** The table leaves no keyword kind out. */
  lemma EveryReservedWordIsAKeyword(kind: TokenType)
    requires ReservedWord(kind) != ""
    ensures ReservedWord(kind) in Keywords && Keywords[ReservedWord(kind)] == kind
  {
  }

  /** A step of the scan and the facts StepFacts states about it. */
  predicate StepLinesAndSpan(s: string, i: nat, line: int)
    requires i < |s|
  {
    var st := ScanStep(s, i, line);
    st.Step? ==>
      i < st.next <= |s| && st.line == line + Newlines(s, i, st.next) &&
      (st.token.Some? ==>
        st.token.value.lexeme == s[i..st.next] && st.token.value.kind != Eof && st.token.value.line == st.line)
  }

  lemma StepFactsSlash(s: string, i: nat, line: int)
    requires i < |s| && s[i] == '/'
    ensures StepLinesAndSpan(s, i, line)
  {
    var st := ScanStep(s, i, line);
    ScanSlash(s, i, line);
    if st.Step? {
      if Matches(s, i + 1, '*') {
        BlockCommentLines(s, i + 2, 1, line);
        NoNewlines(s, i, i + 2);
        NewlinesSplit(s, i, i + 2, st.next);
      } else {
        NoNewlines(s, i, st.next);
      }
    }
  }

  lemma StepFactsWord(s: string, i: nat, line: int)
    requires i < |s| && (IsDigit(s[i]) || IsAlpha(s[i]))
    ensures StepLinesAndSpan(s, i, line)
  {
    var st := ScanStep(s, i, line);
    if IsDigit(s[i]) {
      ScanNumberShape(s, i, line);
    } else {
      ScanIdentifierShape(s, i, line);
    }
    NoNewlines(s, i, st.next);
  }

  lemma StepFactsOperator(s: string, i: nat, line: int)
    requires i < |s| && (s[i] in Punctuation || s[i] in OneOrTwoChar)
    ensures StepLinesAndSpan(s, i, line)
  {
    var st := ScanStep(s, i, line);
    if s[i] in Punctuation {
      ScanPunctuation(s, i, line);
    } else {
      ScanOneOrTwo(s, i, line);
    }
    NoNewlines(s, i, st.next);
  }

  /**
   * Every step of the scan: a token it adds spans exactly the characters the step
   * consumed, is never EOF and carries the line reached at its end; and the line
   * counter grows by the number of line breaks consumed.
   */
  lemma StepFacts(s: string, i: nat, line: int)
    requires i < |s|
    ensures StepLinesAndSpan(s, i, line)
  {
    var c := s[i];
    if c in Punctuation || c in OneOrTwoChar {
      StepFactsOperator(s, i, line);
    } else if c == '/' {
      StepFactsSlash(s, i, line);
    } else if c == '"' {
      ScanStringShape(s, i, line);
    } else if c in " \r\t\n" {
      ScanWhitespace(s, i, line);
    } else if IsDigit(c) || IsAlpha(c) {
      StepFactsWord(s, i, line);
    } else {
      ScanUnexpected(s, i, line);
    }
  }

  // ---------------------------------------------------------------------------
  // The whole scan

  /** `ts` ends with the EOF token for `line`, and no earlier token is EOF. */
  predicate EndsWithEof(ts: seq<Token>, line: int) {
    |ts| > 0 && ts[|ts| - 1] == EofToken(line) && forall k :: 0 <= k < |ts| - 1 ==> ts[k].kind != Eof
  }

  lemma EndsWithEofPrepend(token: Option<Token>, ts: seq<Token>, line: int)
    requires EndsWithEof(ts, line) && (token.Some? ==> token.value.kind != Eof)
    ensures EndsWithEof(OptionToSeq(token) + ts, line)
  {
    var all := OptionToSeq(token) + ts;
    forall k | 0 <= k < |all| - 1
      ensures all[k].kind != Eof
    {
      if k >= |OptionToSeq(token)| {
        assert all[k] == ts[k - |OptionToSeq(token)|];
      }
    }
  }

  /**
   * `scanTokens` ends with exactly one EOF token: it is last, has an empty lexeme
   * and no literal, and carries the line count reached at the end of the source.
   */
  lemma {:induction false} ScanEndsWithEof(s: string, i: nat, line: int)
    requires i <= |s|
    ensures ScanFrom(s, i, line).Scanned? ==>
      EndsWithEof(ScanFrom(s, i, line).tokens, line + Newlines(s, i, |s|))
    decreases |s| - i
  {
    if i < |s| {
      var st := ScanStep(s, i, line);
      if st.Step? {
        StepFacts(s, i, line);
        ScanFromStep(s, i, line);
        ScanEndsWithEof(s, st.next, st.line);
        NewlinesSplit(s, i, st.next, |s|);
        var r := ScanFrom(s, st.next, st.line);
        if r.Scanned? {
          EndsWithEofPrepend(st.token, r.tokens, line + Newlines(s, i, |s|));
        }
      }
    }
  }

  /** The scan of a whole source either crashes or ends with EOF at line 1 + line breaks. */
  lemma ScanSourceEndsWithEof(s: string)
    ensures ScanSource(s).Scanned? ==> EndsWithEof(ScanSource(s).tokens, 1 + Newlines(s, 0, |s|))
  {
    ScanEndsWithEof(s, 0, 1);
  }

  /**
   * The lexemes of `ts` occur in `s[i..]` in this order, each non-empty and
   * starting after the previous one ends.
   */
  predicate InSourceOrder(s: string, i: nat, ts: seq<Token>)
    requires i <= |s|
    decreases |ts|, |s| - i
  {
    ts == [] ||
    (i < |s| &&
      ((0 < |ts[0].lexeme| <= |s| - i && s[i..i + |ts[0].lexeme|] == ts[0].lexeme &&
        InSourceOrder(s, i + |ts[0].lexeme|, ts[1..]))
       || InSourceOrder(s, i + 1, ts)))
  }

  lemma {:induction false} InSourceOrderFromEarlier(s: string, i: nat, j: nat, ts: seq<Token>)
    requires i <= j <= |s| && InSourceOrder(s, j, ts)
    ensures InSourceOrder(s, i, ts)
    decreases j - i
  {
    if i < j {
      InSourceOrderFromEarlier(s, i + 1, j, ts);
    }
  }

  lemma InSourceOrderCons(s: string, i: nat, t: Token, rest: seq<Token>)
    requires 0 < |t.lexeme| && i + |t.lexeme| <= |s| && s[i..i + |t.lexeme|] == t.lexeme
    requires InSourceOrder(s, i + |t.lexeme|, rest)
    ensures InSourceOrder(s, i, [t] + rest)
  {
    assert ([t] + rest)[1..] == rest;
  }

  /** The source-order fact for one step of the scan followed by the rest of it. */
  lemma InSourceOrderStep(s: string, i: nat, next: nat, token: Option<Token>, ts: seq<Token>)
    requires i < next <= |s| && |ts| > 0
    requires token.Some? ==> token.value.lexeme == s[i..next]
    requires InSourceOrder(s, next, ts[..|ts| - 1])
    ensures var all := OptionToSeq(token) + ts; InSourceOrder(s, i, all[..|all| - 1])
  {
    var rest := ts[..|ts| - 1];
    if token.Some? {
      var t := token.value;
      assert ([t] + ts)[..|ts|] == [t] + rest;
      InSourceOrderCons(s, i, t, rest);
    } else {
      assert OptionToSeq(token) + ts == ts;
      InSourceOrderFromEarlier(s, i, next, rest);
    }
  }

  /**
   * Tokens appear in source order: every token before EOF is the exact text of a
   * span of the source, and the spans do not overlap.
   */
  lemma {:induction false} ScanInSourceOrder(s: string, i: nat, line: int)
    requires i <= |s|
    ensures match ScanFrom(s, i, line)
      case Crashed => true
      case Scanned(ts, _) => |ts| > 0 && InSourceOrder(s, i, ts[..|ts| - 1])
    decreases |s| - i
  {
    if i < |s| {
      var st := ScanStep(s, i, line);
      if st.Step? {
        StepFacts(s, i, line);
        ScanFromStep(s, i, line);
        ScanInSourceOrder(s, st.next, st.line);
        var r := ScanFrom(s, st.next, st.line);
        if r.Scanned? {
          InSourceOrderStep(s, i, st.next, st.token, r.tokens);
        }
      }
    }
  }

  /** The characters of `s[i..]` that are not blanks or line breaks. */
  function Visible(s: string, i: nat): string
    requires i <= |s|
    decreases |s| - i
  {
    if i == |s| then [] else (if s[i] in " \r\t\n" then [] else [s[i]]) + Visible(s, i + 1)
  }

  /** The lexemes of `ts`, one after the other. */
  function Lexemes(ts: seq<Token>): string {
    if ts == [] then [] else ts[0].lexeme + Lexemes(ts[1..])
  }

  /** A `/` that starts neither a line comment nor a block comment. */
  predicate LoneSlash(s: string, k: nat) {
    k < |s| && s[k] == '/' && !Matches(s, k + 1, '/') && !Matches(s, k + 1, '*')
  }

  /**
   * Every character of `s[i..]` is punctuation, an operator character, a blank, or
   * a slash that does not start a comment.
   */
  predicate OperatorsAndBlanks(s: string, i: nat) {
    forall k :: i <= k < |s| ==> s[k] in Punctuation || s[k] in OneOrTwoChar || s[k] in " \r\t\n" || LoneSlash(s, k)
  }

  /** A step with no error whose lexeme is the visible text it consumed. */
  predicate StepKeepsVisible(s: string, i: nat, line: int)
    requires i < |s|
  {
    var st := ScanStep(s, i, line);
    st.Step? && st.error.None? && i < st.next <= |s| &&
    Lexemes(OptionToSeq(st.token)) + Visible(s, st.next) == Visible(s, i)
  }

  lemma PunctuationVisible(s: string, i: nat, line: int)
    requires i < |s| && s[i] in Punctuation
    ensures StepKeepsVisible(s, i, line)
  {
    ScanPunctuation(s, i, line);
    var t := ScanStep(s, i, line).token.value;
    assert Lexemes([t]) == t.lexeme == [s[i]];
  }

  /** A token over one or two visible characters keeps the visible text. */
  lemma ShortLexemeVisible(s: string, i: nat, t: Token)
    requires i < |s| && 0 < |t.lexeme| <= 2 && i + |t.lexeme| <= |s| && t.lexeme == s[i..i + |t.lexeme|]
    requires forall k :: i <= k < i + |t.lexeme| ==> s[k] !in " \r\t\n"
    ensures Lexemes([t]) + Visible(s, i + |t.lexeme|) == Visible(s, i)
  {
    assert Lexemes([t]) == t.lexeme;
    assert Visible(s, i) == [s[i]] + Visible(s, i + 1);
    if |t.lexeme| == 2 {
      assert Visible(s, i + 1) == [s[i + 1]] + Visible(s, i + 2);
      assert t.lexeme == [s[i]] + [s[i + 1]];
    }
  }

  lemma OneOrTwoVisible(s: string, i: nat, line: int)
    requires i < |s| && s[i] in OneOrTwoChar
    ensures StepKeepsVisible(s, i, line)
  {
    ScanOneOrTwo(s, i, line);
    var st := ScanStep(s, i, line);
    ShortLexemeVisible(s, i, st.token.value);
  }

  lemma SlashVisible(s: string, i: nat, line: int)
    requires LoneSlash(s, i)
    ensures StepKeepsVisible(s, i, line)
  {
    ScanSlash(s, i, line);
    var t := ScanStep(s, i, line).token.value;
    assert Lexemes([t]) == t.lexeme == [s[i]];
  }

  lemma BlankVisible(s: string, i: nat, line: int)
    requires i < |s| && s[i] in " \r\t\n"
    ensures StepKeepsVisible(s, i, line)
  {
    ScanWhitespace(s, i, line);
  }

  lemma {:induction false} LexemesAppend(a: seq<Token>, b: seq<Token>)
    ensures Lexemes(a + b) == Lexemes(a) + Lexemes(b)
    decreases |a|
  {
    if a != [] {
      assert (a + b)[1..] == a[1..] + b;
      LexemesAppend(a[1..], b);
    } else {
      assert a + b == b;
    }
  }

  /**
   * On a source made of punctuation, operators (a slash that starts no comment
   * included) and blanks only, scanning reports nothing, and the lexemes put
   * together give back the source without its blanks.
   */
  lemma {:induction false} PunctuationRoundTrip(s: string, i: nat, line: int)
    requires i <= |s| && OperatorsAndBlanks(s, i)
    ensures ScanFrom(s, i, line).Scanned?
    ensures ScanFrom(s, i, line).errors == []
    ensures Lexemes(ScanFrom(s, i, line).tokens) == Visible(s, i)
    decreases |s| - i
  {
    if i < |s| {
      var st := ScanStep(s, i, line);
      if s[i] in Punctuation {
        PunctuationVisible(s, i, line);
      } else if s[i] in OneOrTwoChar {
        OneOrTwoVisible(s, i, line);
      } else if s[i] == '/' {
        SlashVisible(s, i, line);
      } else {
        BlankVisible(s, i, line);
      }
      ScanFromStep(s, i, line);
      PunctuationRoundTrip(s, st.next, st.line);
      LexemesAppend(OptionToSeq(st.token), ScanFrom(s, st.next, st.line).tokens);
    } else {
      assert Lexemes([EofToken(line)]) == [];
    }
  }
}
