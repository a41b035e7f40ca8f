# Lox front end: scanner and expression parser

A Dafny model of the front end of a tree-walking interpreter for the Lox
language (the jlox interpreter): the scanner that turns source text into a
list of tokens and the recursive-descent parser that turns a token list into
an expression tree.

**Scanner.** Class `Lexer.Scanner` mirrors the source object. It holds the
source text, the cursors `start`, `current` and `line`, and the growing token
list. It also holds an error log that stands in for the driver's error sink.
Its methods are the source's `scanTokens`, `scanToken`, `multilineComment`,
`number`, `identifier` and `string`, each with its `while` loop. Each method is
proved to compute what a pure function of module `LexSpec` describes:

- `ScanStep` is one `scanToken` call from a given position and line.
- `ScanFrom` / `ScanSource` is the whole scan.

Module `LexProps` proves these properties of that specification:

- The scan ends with exactly one EOF token, on the final line.
- Every other token's lexeme is the exact span it consumed, and the spans appear in source order.
- Each step consumes at least one character.
- Line breaks are counted.
- Operators use longest match.
- Comments emit no tokens.
- Number, identifier and keyword tokens have fixed shapes.
- String literals and unexpected characters are handled as described in the table below.

Module `LexExamples` works out concrete scans.

Two behaviours of the source are modelled as written:

- **An unterminated block comment crashes.** `multilineComment` has no end-of-input test. It ends by calling `advance()` past the end, which throws in the source. The model makes this an explicit outcome:
  - `BlockComment` gives `RanPastEnd`;
  - `ScanStep` gives `PastEnd`;
  - `ScanFrom` gives `Crashed`;
  - `Scanner.ScanTokens` returns `None`.
- **Star-slash-star closes and reopens.** After a star-slash brings the depth to 0, the same loop iteration still tests for slash-star. So `/**/*x*/` is a single comment, and `/**/*/` crashes.

The token of a string that spans several lines carries the line on which the
string ends. `string()` counts the line breaks before `addToken` reads `line`.

**Parser.** Class `Parsing.Parser` mirrors the source object. Its only state
is the cursor `current` over a fixed token list.

- `Equality`, `Comparison`, `Term` and `Factor` are the source's `while (match(...))` loops.
- `Unary` and `Primary` recurse.

Each method is proved to compute what a function of module `ParseSpec`
computes from the cursor it was entered with. The `ParseSpec` functions
thread the position through the token list.

Three points where the source is incomplete are made explicit:

- **Missing operand.** `primary` returns null when no alternative matches. This is the `Expr.Missing` node, which parents embed like any other operand.
- **No entry point.** The source has none. `Parser.Parse` and `ParseTokens` run `expression()` from cursor 0.
- **`consume` stub.** `consume` is an empty method without parameters, yet it is called with `(RIGHT_PAREN, "Expect ')' after expression.")`. It is modelled by that evident intent: check the kind, then advance, else fail with a `ParseError` carrying the token found and the message. A failure travels up as the `Failed` / `Err` result, as the exception would.

Module `ParseProps` proves the following by mutual induction over the parsing
functions:

- **Exact image.** Every tree is an exact, in-order image of the tokens it consumed, and every operator is the input token at its place.
- **Grammar.** Every tree follows the precedence grammar, and each binary level nests to the left.
- **Maximal levels.** Every level stops at the first token that none of its loops takes.
- **One error.** The only failure is a missing `)`.

Module `ParseExamples` works out parses such as `1 + 2 * 3`, `1 - 2 - 3`,
`!!true` and `(1 + 2`.

Termination of both components is proved by the `decreases` clauses: the
remaining input, then the precedence level.

## Model

| member | source | states |
|---|---|---|
| Lexer.Scanner.constructor | src/main/java/com/craftinginterpreters/lox/Scanner.java:39-41 | stores the source; no tokens, `start == current == 0`, `line == 1` (the field initialisers) |
| Lexer.Scanner.ScanTokens | src/main/java/com/craftinginterpreters/lox/Scanner.java:43-51 | returns `None` exactly when the scan of the rest of the source crashes; otherwise the token list is the old list followed by the scanned tokens ending in EOF, the errors reported are appended to the log, the cursor is at the end of the source (so the scanner is valid again and can be asked to scan once more) and the line counter has grown by the line breaks scanned |
| Lexer.Scanner.ScanToken | src/main/java/com/craftinginterpreters/lox/Scanner.java:53-138 | one call moves the cursor, line, token list and error log exactly as `ScanStep` says, and fails only where `ScanStep` runs past the end |
| Lexer.Scanner.SlashOrComment | src/main/java/com/craftinginterpreters/lox/Scanner.java:101-111 | the `/` case: line comment up to the line break, block comment, or SLASH, as `SlashStep` says |
| Lexer.Scanner.MultilineComment | src/main/java/com/craftinginterpreters/lox/Scanner.java:144-161 | ends where `BlockComment` closes with its line count, and fails exactly when `BlockComment` runs past the end |
| Lexer.Scanner.ScanNumber | src/main/java/com/craftinginterpreters/lox/Scanner.java:163-178 | appends the NUMBER token of `NumberStep`: the lexeme up to `NumberEnd`, literal its text |
| Lexer.Scanner.ScanIdentifier | src/main/java/com/craftinginterpreters/lox/Scanner.java:188-198 | appends the token of `IdentifierStep`: the keyword kind of the maximal word, else IDENTIFIER |
| Lexer.Scanner.ScanString | src/main/java/com/craftinginterpreters/lox/Scanner.java:206-220 | counts the line breaks inside, then appends the STRING token or reports the unterminated string, as `StringStep` says |
| Lexer.Scanner.Advance | src/main/java/com/craftinginterpreters/lox/Scanner.java:222-224 | returns the character under the cursor and moves past it |
| Lexer.Scanner.Match | src/main/java/com/craftinginterpreters/lox/Scanner.java:232-237 | consumes one character exactly when it is the expected one; false at the end |
| Lexer.Scanner.AddToken | src/main/java/com/craftinginterpreters/lox/Scanner.java:239-246 | appends a token whose lexeme is `source[start..current]` and whose line is the current line |
| Lexer.Scanner.ReportError | src/main/java/com/craftinginterpreters/lox/Scanner.java:128-136 | appends `(line, message)` to the error log and changes nothing else |
| Lexer.Scanner.Peek | src/main/java/com/craftinginterpreters/lox/Scanner.java:226-230 | inside the source, the character under the cursor |
| Lexer.Scanner.PeekNext | src/main/java/com/craftinginterpreters/lox/Scanner.java:200-204 | the character after the cursor, NUL when there is none |
| Lexer.Scanner.IsAtEnd | src/main/java/com/craftinginterpreters/lox/Scanner.java:248-250 | for a valid scanner, true exactly when the cursor is on the end of the source |
| Tokens.KeywordKind | src/main/java/com/craftinginterpreters/lox/Scanner.java:192-195 | a lexeme never looks up to the EOF kind |
| LexProps.CharClasses | src/main/java/com/craftinginterpreters/lox/Scanner.java:140-186 | `isDigit` (140-142) holds exactly for the ten ASCII digits, `isAlpha` (180-182) for ASCII letters of either case and the underscore, `isAlphanumeric` (184-186) for those and the digits; no character is both a digit and a letter |
| LexProps.KeywordsAreWords | src/main/java/com/craftinginterpreters/lox/Scanner.java:17-37 | every keyword-table entry is a non-empty word of letters, so `identifier` scans it whole |
| LexProps.KeywordsNameTheirKind | src/main/java/com/craftinginterpreters/lox/Scanner.java:17-37 | every keyword-table entry maps to the kind whose reserved word it is, so no two words share a kind |
| LexProps.EveryReservedWordIsAKeyword | src/main/java/com/craftinginterpreters/lox/Scanner.java:17-37 | each of the 16 keyword kinds has its reserved word in the table |
| LexProps.KeywordKindLookup | src/main/java/com/craftinginterpreters/lox/Scanner.java:192-195 | a lexeme scans to IDENTIFIER exactly when it is not in the table, otherwise to the kind of that reserved word |
| LexSpec.ScanStep | src/main/java/com/craftinginterpreters/lox/Scanner.java:53-138 | a step that does not crash consumes at least one character and stays within the source |
| LexSpec.BlockComment | src/main/java/com/craftinginterpreters/lox/Scanner.java:144-161 | a comment that closes ends within the source, and the line count never decreases |
| LexSpec.NumberEnd | src/main/java/com/craftinginterpreters/lox/Scanner.java:163-174 | a number lexeme is at least one character long and ends within the source |
| LexSpec.NumberStep | src/main/java/com/craftinginterpreters/lox/Scanner.java:163-178 | `number` always adds a NUMBER token and never reports an error |
| LexSpec.IdentifierStep | src/main/java/com/craftinginterpreters/lox/Scanner.java:188-198 | `identifier` adds a non-EOF token spanning what it consumed, on the current line, with no error |
| LexProps.StringStepShape | src/main/java/com/craftinginterpreters/lox/Scanner.java:206-220 | `string` stops within the source with the line grown by the line breaks it consumed; when a closing quote follows, the STRING token spans up to the first one and its value is the text strictly between the quotes; otherwise it stops at the end, reports the unterminated string on the line reached and adds no token |
| LexSpec.CommentStep | src/main/java/com/craftinginterpreters/lox/Scanner.java:106-107 | a block comment that closes adds neither a token nor an error and ends within the source |
| LexSpec.SlashStep | src/main/java/com/craftinginterpreters/lox/Scanner.java:101-111 | the `/` case reports no error, emits only SLASH (one character), and runs past the end only after a slash-star |
| LexSpec.OneOrTwo | src/main/java/com/craftinginterpreters/lox/Scanner.java:89-100 | a one- or two-character operator: one token spanning what was consumed, the two-character kind exactly when two were consumed |
| LexSpec.ScanFrom | src/main/java/com/craftinginterpreters/lox/Scanner.java:43-51 | a scan that does not crash ends with an EOF token |
| LexSpec.ScanSource | src/main/java/com/craftinginterpreters/lox/Scanner.java:43-51 | an empty source scans to a single EOF token on line 1 and no errors |
| LexProps.BlockCommentNesting | src/main/java/com/craftinginterpreters/lox/Scanner.java:144-161 | the nesting rule for all inputs: done at depth 0; a slash-star goes one deeper, a star-slash one up, star-slash-star closes and reopens over three characters, any other character is skipped (a line break counted), and at the end of the source the comment runs past the end |
| LexProps.BlockCommentLines | src/main/java/com/craftinginterpreters/lox/Scanner.java:157-158 | a closed block comment adds exactly the number of line breaks it spans to the line count |
| LexProps.BlockCommentEndsWithClose | src/main/java/com/craftinginterpreters/lox/Scanner.java:146-150 | a closed block comment ends right after a star-slash |
| LexProps.ScanPunctuation | src/main/java/com/craftinginterpreters/lox/Scanner.java:57-86 | each of the ten single-character tokens is emitted with its kind, one character long |
| LexProps.ScanOneOrTwo | src/main/java/com/craftinginterpreters/lox/Scanner.java:89-100 | `!`, `=`, `<`, `>` followed by `=` give the two-character kind, otherwise the one-character kind (longest match) |
| LexProps.ScanWhitespace | src/main/java/com/craftinginterpreters/lox/Scanner.java:117-126 | blanks are skipped without a token; a line break adds one to the line |
| LexProps.ScanSlash | src/main/java/com/craftinginterpreters/lox/Scanner.java:101-111 | `//` skips up to, not including, the next line break or the end; slash-star emits nothing and ends after a star-slash or crashes; a lone `/` is SLASH |
| LexProps.ScanNumberShape | src/main/java/com/craftinginterpreters/lox/Scanner.java:163-178 | a NUMBER lexeme is digits with at most one dot that has digits on both sides, it is maximal, and its literal is its text |
| LexProps.ScanIdentifierShape | src/main/java/com/craftinginterpreters/lox/Scanner.java:180-198 | an identifier is the maximal run of letters, digits and underscores; its kind is the exact keyword-table entry, else IDENTIFIER |
| LexProps.ScanStringShape | src/main/java/com/craftinginterpreters/lox/Scanner.java:206-220 | a closed string's value is the text strictly between the quotes; an unclosed one reports an error at the end and adds no token; line breaks inside are counted |
| LexProps.ScanUnexpected | src/main/java/com/craftinginterpreters/lox/Scanner.java:128-136 | any other character is reported as unexpected, consumed, and adds no token |
| LexProps.StepFacts | src/main/java/com/craftinginterpreters/lox/Scanner.java:239-246 | the token a step adds spans exactly the characters consumed, is not EOF and carries the line reached; the line grows by the line breaks consumed |
| LexProps.ScanEndsWithEof | src/main/java/com/craftinginterpreters/lox/Scanner.java:43-51 | a scan that does not crash ends with one EOF token (empty lexeme, no literal, final line) and no other token is EOF |
| LexProps.ScanSourceEndsWithEof | src/main/java/com/craftinginterpreters/lox/Scanner.java:43-51 | from the start of a source, the EOF token's line is 1 plus the number of line breaks |
| LexProps.ScanInSourceOrder | src/main/java/com/craftinginterpreters/lox/Scanner.java:43-46 | the tokens before EOF are non-empty, non-overlapping spans of the source in increasing order |
| LexProps.PunctuationRoundTrip | src/main/java/com/craftinginterpreters/lox/Scanner.java:57-126 | on punctuation, operators, blanks and slashes that start no comment, the scan reports nothing and the lexemes put together give back the source without its blanks |
| LexExamples.NestedCommentSkipped | src/main/java/com/craftinginterpreters/lox/Scanner.java:144-161 | a nested block comment yields only EOF |
| LexExamples.CloseThenReopen | src/main/java/com/craftinginterpreters/lox/Scanner.java:147-155 | `/**/*x*/` is one comment: star-slash-star closes and reopens |
| LexExamples.CloseThenReopenCrashes | src/main/java/com/craftinginterpreters/lox/Scanner.java:152-159 | `/**/*/` crashes instead of giving STAR and SLASH |
| LexExamples.UnclosedCommentCrashes | src/main/java/com/craftinginterpreters/lox/Scanner.java:159 | a lone slash-star makes the scan crash |
| LexExamples.TrailingDotIsSeparate | src/main/java/com/craftinginterpreters/lox/Scanner.java:169-174 | `123.` is NUMBER `123` then DOT |
| LexExamples.LineCommentThenNumber | src/main/java/com/craftinginterpreters/lox/Scanner.java:102-105 | a line comment ends at the line break, which still counts; `1.5` is one NUMBER |
| LexExamples.UnterminatedString | src/main/java/com/craftinginterpreters/lox/Scanner.java:213-216 | an unterminated string reports its error and adds no token |
| LexExamples.StringValueWithoutQuotes | src/main/java/com/craftinginterpreters/lox/Scanner.java:217-219 | a string's lexeme keeps the quotes, its value does not |
| LexExamples.KeywordsAreExact | src/main/java/com/craftinginterpreters/lox/Scanner.java:192-197 | keyword lookup is exact and case-sensitive: `or` is OR, `Or`, `or2` and `orchid` are IDENTIFIER |
| LexExamples.KeywordPrefixIsIdentifier | src/main/java/com/craftinginterpreters/lox/Scanner.java:188-198 | `or2 or` is IDENTIFIER `or2` then OR |
| LexExamples.UnexpectedCharacterSkipped | src/main/java/com/craftinginterpreters/lox/Scanner.java:128-136 | `@-` reports one error and goes on to MINUS |
| Parsing.Parser.constructor | src/main/java/com/craftinginterpreters/lox/Parser.java:8-13 | stores the token list; cursor 0 |
| Parsing.Parser.Parse | src/main/java/com/craftinginterpreters/lox/Parser.java:15-17 | from cursor 0, yields what `ParseTokens` gives: the tree and the cursor after it, or the error |
| Parsing.Parser.Expression | src/main/java/com/craftinginterpreters/lox/Parser.java:15-17 | yields `ExpressionAt` from the entry cursor |
| Parsing.Parser.Equality | src/main/java/com/craftinginterpreters/lox/Parser.java:19-28 | the loop yields `LevelAt` for the equality level from the entry cursor |
| Parsing.Parser.Comparison | src/main/java/com/craftinginterpreters/lox/Parser.java:30-39 | the loop yields `LevelAt` for the comparison level |
| Parsing.Parser.Term | src/main/java/com/craftinginterpreters/lox/Parser.java:41-51 | the loop yields `LevelAt` for the term level |
| Parsing.Parser.Factor | src/main/java/com/craftinginterpreters/lox/Parser.java:53-63 | the loop yields `LevelAt` for the factor level |
| Parsing.Parser.Unary | src/main/java/com/craftinginterpreters/lox/Parser.java:65-70 | yields `UnaryAt` from the entry cursor |
| Parsing.Parser.Primary | src/main/java/com/craftinginterpreters/lox/Parser.java:72-84 | yields `PrimaryAt` from the entry cursor |
| Parsing.Parser.Match | src/main/java/com/craftinginterpreters/lox/Parser.java:86-94 | true exactly when the current token has one of the kinds; then the cursor moves by one (so `previous()` is that token), else it stays |
| Parsing.Parser.Check | src/main/java/com/craftinginterpreters/lox/Parser.java:96-100 | false at the end of the list, else whether the current token has the kind |
| Parsing.Parser.IsAtEnd | src/main/java/com/craftinginterpreters/lox/Parser.java:102-104 | for a valid parser, true exactly when the cursor is past the last token |
| Parsing.Parser.Peek | src/main/java/com/craftinginterpreters/lox/Parser.java:106-108 | the token at the cursor, the one `check` tests |
| Parsing.Parser.Previous | src/main/java/com/craftinginterpreters/lox/Parser.java:110-112 | the token just before the cursor |
| Parsing.Parser.Advance | src/main/java/com/craftinginterpreters/lox/Parser.java:114-118 | moves the cursor by one unless at the end and returns the token before it; the cursor never passes the end |
| Parsing.Parser.Consume | src/main/java/com/craftinginterpreters/lox/Parser.java:120-122 | consumes and returns the token when it has the kind; otherwise fails with the token found and the message, cursor unchanged |
| ParseSpec.ConsumeAt | src/main/java/com/craftinginterpreters/lox/Parser.java:75 | succeeds exactly when the token at the cursor has the kind, moving one past it; else an error with that token (none at the end) and the message |
| ParseProps.MatchIsSomeCheck | src/main/java/com/craftinginterpreters/lox/Parser.java:86-100 | `match` holds exactly when `check` holds for one of its kinds; both are false at the end of the list |
| ParseSpec.OperandAt | src/main/java/com/craftinginterpreters/lox/Parser.java:19-63 | the operand of a level (the next tighter level, or `unary` below `factor`) never moves the cursor backwards or past the end |
| ParseSpec.ExpressionAt | src/main/java/com/craftinginterpreters/lox/Parser.java:15-17 | a parse never moves the cursor backwards or past the end |
| ParseSpec.LevelAt | src/main/java/com/craftinginterpreters/lox/Parser.java:19-63 | a binary level never moves the cursor backwards or past the end |
| ParseSpec.FoldAt | src/main/java/com/craftinginterpreters/lox/Parser.java:22-27 | the operator loop never moves the cursor backwards or past the end |
| ParseSpec.UnaryAt | src/main/java/com/craftinginterpreters/lox/Parser.java:65-70 | `unary` never moves the cursor backwards or past the end |
| ParseSpec.PrimaryAt | src/main/java/com/craftinginterpreters/lox/Parser.java:72-84 | `primary` never moves the cursor backwards or past the end |
| ParseSpec.ParseTokens | src/main/java/com/craftinginterpreters/lox/Parser.java:15-17 | the entry point stops within the token list |
| ParseProps.ExpressionSound | src/main/java/com/craftinginterpreters/lox/Parser.java:15-84 | an expression's tree is an exact in-order image of the tokens consumed, follows the precedence grammar, stops at a token no binary loop takes, and the only failure is a missing `)` |
| ParseProps.LevelSound | src/main/java/com/craftinginterpreters/lox/Parser.java:19-63 | a binary level's tree uses only its own and tighter operators, nests to the left, and stops at a token none of those loops takes |
| ParseProps.FoldSound | src/main/java/com/craftinginterpreters/lox/Parser.java:22-27 | each turn of the loop puts the tree so far on the left of the operator token just consumed |
| ParseProps.UnarySound | src/main/java/com/craftinginterpreters/lox/Parser.java:65-70 | a unary tree is prefix `!`/`-` tokens around a primary, each operator the token consumed |
| ParseProps.PrimarySound | src/main/java/com/craftinginterpreters/lox/Parser.java:72-84 | a primary is a parenthesized expression, a literal from one token, or Missing consuming nothing |
| ParseProps.PrimaryCases | src/main/java/com/craftinginterpreters/lox/Parser.java:72-84 | `(` gives a grouping closed by `)` or the missing-paren error; TRUE/FALSE/NIL give a literal holding the token; NUMBER/STRING give the token's literal; Missing exactly when none of these kinds is next |
| ParseProps.UnaryCases | src/main/java/com/craftinginterpreters/lox/Parser.java:65-70 | a leading `!` or `-` becomes the operator of a Unary node around the next unary; anything else is a primary |
| ParseExamples.FactorBindsTighter | src/main/java/com/craftinginterpreters/lox/Parser.java:41-63 | `1 + 2 * 3` is `1 + (2 * 3)`, EOF left unconsumed |
| ParseExamples.TermIsLeftAssociative | src/main/java/com/craftinginterpreters/lox/Parser.java:41-51 | `1 - 2 - 3` is `(1 - 2) - 3` |
| ParseExamples.ComparisonBindsTighter | src/main/java/com/craftinginterpreters/lox/Parser.java:19-39 | `1 == 2 < 3` is `1 == (2 < 3)` |
| ParseExamples.UnaryIsRightRecursive | src/main/java/com/craftinginterpreters/lox/Parser.java:65-70 | `!!true` is `!(!true)` with `true` a literal holding its token |
| ParseExamples.GroupingOverridesPrecedence | src/main/java/com/craftinginterpreters/lox/Parser.java:72-76 | `(1 + 2) * 3` groups the sum |
| ParseExamples.UnclosedGroupFails | src/main/java/com/craftinginterpreters/lox/Parser.java:73-76 | `(1 + 2` fails with the missing-paren error at the EOF token |
| ParseExamples.DanglingOperatorEmbedsMissing | src/main/java/com/craftinginterpreters/lox/Parser.java:83 | `1 +` builds a Binary node whose right operand is Missing |
| ParseExamples.OnlyEofIsMissing | src/main/java/com/craftinginterpreters/lox/Parser.java:72-84 | a list holding only EOF parses to Missing at cursor 0 |

## Left out

- Floating-point parsing of numbers (`Double.parseDouble`): a NUMBER token's literal is the text of its lexeme.
- The driver's error sink `Lox.error`: it is modelled as an append to the scanner's error log of `(line, message)`. Printing and the driver's had-error flag are not part of this model.
- The `Token`, `TokenType`, `Expr` and `Lox` classes are not part of this model. Minimal datatypes stand in for the first three. A literal payload is a tagged union: none, number text, or string value.
- The keyword table's hash-map mechanics: a constant map of the 16 keywords.
- Java `char` as a UTF-16 unit and `charAt` exceptions, except for the read past the end at the close of `multilineComment`.
- The parser's exceptions are results (`Parse` / `Result`). There is no error recovery or synchronisation, and there is none in the source.
- Parsing does not require the whole token list to be consumed. The trailing EOF is left unconsumed, as in the source.
- Lexer.Scanner.ScanTokens: after a crash it states only that the result is `None`. The state left behind by the source's exception is not stated.
- Lexer.Scanner.Peek: states the character only when the cursor is inside the source. The NUL it returns at the end is stated by `CharAt`, which is its body, and not by its contract.
- Lexer.Scanner.ScanToken: when the step runs past the end it states only that it fails. The same holds for `SlashOrComment` and `MultilineComment`.
- Parsing.Parser.Expression: on failure it states the error but not the final cursor. The source abandons the parser by an exception. The same holds for the other parsing methods.
- Parsing.Parser.Advance: requires a non-empty token list. On an empty list the source's `previous()` would read index -1. `match` only advances after a successful `check`, so it never reaches that case.
