/**
 * The scanner as pure functions of the source text: what one call of
 * `scanToken` does when it starts at a given position and line, and what the
 * whole `scanTokens` loop produces. The class in module Lexer is proved to
 * compute exactly these.
 */
module LexSpec {
  import opened Wrappers
  import opened Tokens

  predicate IsDigit(c: char) {
    '0' <= c <= '9'
  }

  predicate IsAlpha(c: char) {
    ('a' <= c <= 'z') || ('A' <= c <= 'Z') || c == '_'
  }

  predicate IsAlphanumeric(c: char) {
    IsAlpha(c) || IsDigit(c)
  }

  /** The character classes the inner `while (p(peek()) ...)` loops of the scanner run over. */
  datatype Run = Digits | WordChars | NonQuotes | NonNewlines

  predicate InRun(c: char, r: Run) {
    match r
    case Digits => IsDigit(c)
    case WordChars => IsAlphanumeric(c)
    case NonQuotes => c != '"'
    case NonNewlines => c != '\n'
  }

  /** The character at `i`, or NUL past the end: what `peek` and `peekNext` read. */
  function CharAt(s: string, i: nat): char {
    if i < |s| then s[i] else '\0'
  }

  /** What `match(c)` tests at position `i`. */
  predicate Matches(s: string, i: nat, c: char) {
    i < |s| && s[i] == c
  }

  /** The number of line breaks in `s[i..j]`. */
  function Newlines(s: string, i: nat, j: nat): nat
    requires i <= j <= |s|
    decreases j - i
  {
    if i == j then 0 else Newlines(s, i, j - 1) + (if s[j - 1] == '\n' then 1 else 0)
  }

  /**
   * Where a loop `while (p(peek()) && !isAtEnd()) advance();` started at `i`
   * stops, `p` being membership in `r`: the first position at or after `i` whose
   * character is not in `r`, or the end.
   */
  function SkipWhile(s: string, i: nat, r: Run): (j: nat)
    requires i <= |s|
    ensures i <= j <= |s|
    decreases |s| - i
  {
    if i < |s| && InRun(s[i], r) then SkipWhile(s, i + 1, r) else i
  }

  // How `multilineComment` ends: after the closing star-slash, or by reading past the end.
  datatype CommentEnd = Closed(next: nat, line: int) | RanPastEnd(line: int)

  // The loop of `multilineComment` entered at position `i` with depth `nests`:
  // one iteration first consumes the star of a closing star-slash (depth - 1),
  // then, still in the same iteration, the slash of an opening slash-star
  // (depth + 1), counts a line break, and finally advances by one character,
  // which fails when nothing is left.
  function BlockComment(s: string, i: nat, nests: int, line: int): (r: CommentEnd)
    requires i <= |s|
    ensures r.Closed? ==> i <= r.next <= |s| && r.line >= line
    decreases |s| - i
  {
    if nests <= 0 then Closed(i, line)
    else
      var closes := CharAt(s, i) == '*' && CharAt(s, i + 1) == '/';
      var i1 := if closes then i + 1 else i;
      var n1 := if closes then nests - 1 else nests;
      var opens := CharAt(s, i1) == '/' && CharAt(s, i1 + 1) == '*';
      var i2 := if opens then i1 + 1 else i1;
      var n2 := if opens then n1 + 1 else n1;
      var line' := if CharAt(s, i2) == '\n' then line + 1 else line;
      if i2 >= |s| then RanPastEnd(line') else BlockComment(s, i2 + 1, n2, line')
  }

  /**
   * The outcome of one `scanToken` call: the position and line it stops at, the
   * token it adds (if any) and the error it reports (if any); or PastEnd when an
   * unterminated block comment makes it read past the end of the source.
   */
  datatype Step = Step(next: nat, line: int, token: Option<Token>, error: Option<LexError>) | PastEnd

  /** A step that adds the token spanning `s[start..next]`. */
  function Emit(s: string, start: nat, next: nat, kind: TokenType, literal: Literal, line: int): Step
    requires start <= next <= |s|
  {
    Step(next, line, Some(Token(kind, s[start..next], literal, line)), None)
  }

  /** A step that adds nothing. */
  function Skip(next: nat, line: int): Step {
    Step(next, line, None, None)
  }

  /** Where `number` stops when the first digit is at `start`. */
  function NumberEnd(s: string, start: nat): (j: nat)
    requires start < |s|
    ensures start < j <= |s|
  {
    var d := SkipWhile(s, start + 1, Digits);
    if CharAt(s, d) == '.' && IsDigit(CharAt(s, d + 1)) then SkipWhile(s, d + 1, Digits) else d
  }

  /** `number`: a NUMBER token whose literal is the text scanned. */
  function NumberStep(s: string, start: nat, line: int): (r: Step)
    requires start < |s|
    ensures r.Step? && r.error.None? && r.token.Some? && r.token.value.kind == Number
  {
    var j := NumberEnd(s, start);
    Emit(s, start, j, Number, NumberText(s[start..j]), line)
  }

  /** `identifier`: the longest alphanumeric run, looked up in the keyword table. */
  function IdentifierStep(s: string, start: nat, line: int): (r: Step)
    requires start < |s|
    ensures r.Step? && start < r.next <= |s| && r.line == line && r.error.None?
    ensures r.token.Some? && r.token.value.kind != Eof && r.token.value.lexeme == s[start..r.next]
  {
    var j := SkipWhile(s, start + 1, WordChars);
    Emit(s, start, j, KeywordKind(s[start..j]), NoLiteral, line)
  }

  /**
   * `string`: everything up to the next `"`, counting line breaks on the way; at the
   * end of the source an error is reported and no token is added.
   */
  function StringStep(s: string, start: nat, line: int): Step
    requires start < |s|
  {
    var j := SkipWhile(s, start + 1, NonQuotes);
    var l := line + Newlines(s, start + 1, j);
    if j == |s| then Step(j, l, None, Some(LexError(l, "Unterminated String literal.")))
    else Emit(s, start, j + 1, String, StringValue(s[start + 1..j]), l)
  }

  // The opening slash-star was consumed: the rest of the block comment, or
  // PastEnd if it never closes.
  function CommentStep(s: string, start: nat, line: int): (r: Step)
    requires start + 2 <= |s|
    ensures r.Step? ==> start + 2 <= r.next <= |s| && r.line >= line && r.token.None? && r.error.None?
  {
    match BlockComment(s, start + 2, 1, line)
    case Closed(j, l) => Skip(j, l)
    case RanPastEnd(_) => PastEnd
  }

  /** A `/`: a line comment up to the line break, a block comment, or SLASH. */
  function SlashStep(s: string, start: nat, line: int): (r: Step)
    requires start < |s|
    ensures r.Step? ==> start < r.next <= |s| && r.error.None?
    ensures r.Step? && r.token.Some? ==> r.token.value.kind == Slash && r.next == start + 1
    ensures r.PastEnd? ==> Matches(s, start + 1, '*')
  {
    if Matches(s, start + 1, '/') then Skip(SkipWhile(s, start + 2, NonNewlines), line)
    else if Matches(s, start + 1, '*') then CommentStep(s, start, line)
    else Emit(s, start, start + 1, Slash, NoLiteral, line)
  }

  /** A one-character operator, or the two-character one when `=` follows. */
  function OneOrTwo(s: string, start: nat, line: int, one: TokenType, two: TokenType): (r: Step)
    requires start < |s|
    ensures r.Step? && r.line == line && r.error.None? && r.token.Some?
    ensures start < r.next <= start + 2 && r.next <= |s| && r.token.value.lexeme == s[start..r.next]
    ensures r.token.value.kind == (if r.next == start + 2 then two else one)
  {
    if Matches(s, start + 1, '=') then Emit(s, start, start + 2, two, NoLiteral, line)
    else Emit(s, start, start + 1, one, NoLiteral, line)
  }

  /** One call of `scanToken` with `start == current`. */
  function ScanStep(s: string, start: nat, line: int): (r: Step)
    requires start < |s|
    ensures r.Step? ==> start < r.next <= |s|
  {
    var i := start + 1;
    match s[start]
    case '(' => Emit(s, start, i, LeftParen, NoLiteral, line)
    case ')' => Emit(s, start, i, RightParen, NoLiteral, line)
    case '{' => Emit(s, start, i, LeftBrace, NoLiteral, line)
    case '}' => Emit(s, start, i, RightBrace, NoLiteral, line)
    case ',' => Emit(s, start, i, Comma, NoLiteral, line)
    case '.' => Emit(s, start, i, Dot, NoLiteral, line)
    case '-' => Emit(s, start, i, Minus, NoLiteral, line)
    case '+' => Emit(s, start, i, Plus, NoLiteral, line)
    case ';' => Emit(s, start, i, Semicolon, NoLiteral, line)
    case '*' => Emit(s, start, i, Star, NoLiteral, line)
    case '!' => OneOrTwo(s, start, line, Bang, BangEqual)
    case '=' => OneOrTwo(s, start, line, Equal, EqualEqual)
    case '<' => OneOrTwo(s, start, line, Less, LessEqual)
    case '>' => OneOrTwo(s, start, line, Greater, GreaterEqual)
    case '/' => SlashStep(s, start, line)
    case '"' => StringStep(s, start, line)
    case ' ' => Skip(i, line)
    case '\r' => Skip(i, line)
    case '\t' => Skip(i, line)
    case '\n' => Skip(i, line + 1)
    case c =>
      if IsDigit(c) then NumberStep(s, start, line)
      else if IsAlpha(c) then IdentifierStep(s, start, line)
      else Step(i, line, None, Some(LexError(line, "Unexpected character.")))
  }

  /** The whole scan: its tokens and reported errors, or Crashed when a step ran past the end. */
  datatype Scan = Scanned(tokens: seq<Token>, errors: seq<LexError>) | Crashed

  /** The end-of-input token that `scanTokens` appends. */
  function EofToken(line: int): Token {
    Token(Eof, "", NoLiteral, line)
  }

  /** Puts tokens and errors in front of a scan's own (a crash stays a crash). */
  function Prepend(ts: seq<Token>, es: seq<LexError>, r: Scan): Scan {
    match r
    case Crashed => Crashed
    case Scanned(ts', es') => Scanned(ts + ts', es + es')
  }

  /** The `scanTokens` loop entered with `current == i` at line `line`. */
  function ScanFrom(s: string, i: nat, line: int): (r: Scan)
    requires i <= |s|
    ensures r.Scanned? ==> |r.tokens| > 0 && r.tokens[|r.tokens| - 1] == EofToken(r.tokens[|r.tokens| - 1].line)
    decreases |s| - i
  {
    if i == |s| then Scanned([EofToken(line)], [])
    else
      match ScanStep(s, i, line)
      case PastEnd => Crashed
      case Step(next, l, tok, err) => Prepend(OptionToSeq(tok), OptionToSeq(err), ScanFrom(s, next, l))
  }

  /** A fresh scanner's `scanTokens`. */
  function ScanSource(s: string): (r: Scan)
    ensures s == [] ==> r == Scanned([EofToken(1)], [])
  {
    ScanFrom(s, 0, 1)
  }

  /** One unfolding of the scan loop after a step that does not crash. */
  lemma ScanFromStep(s: string, i: nat, line: int)
    requires i < |s| && ScanStep(s, i, line).Step?
    ensures var st := ScanStep(s, i, line);
      ScanFrom(s, i, line) == Prepend(OptionToSeq(st.token), OptionToSeq(st.error), ScanFrom(s, st.next, st.line))
  {
  }

  lemma PrependTwice(ts: seq<Token>, es: seq<LexError>, ts': seq<Token>, es': seq<LexError>, r: Scan)
    ensures Prepend(ts, es, Prepend(ts', es', r)) == Prepend(ts + ts', es + es', r)
  {
    match r
    case Crashed =>
    case Scanned(a, b) =>
      assert ts + (ts' + a) == (ts + ts') + a;
      assert es + (es' + b) == (es + es') + b;
  }
}
