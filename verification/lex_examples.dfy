/**
 * Concrete scans, worked out by the verifier from the definitions in LexSpec.
 */
module LexExamples {
  import opened Wrappers
  import opened Tokens
  import opened LexSpec

  /** Nested block comments are skipped entirely. */
  lemma NestedCommentSkipped()
    ensures ScanSource("/*/**/ */") == Scanned([EofToken(1)], [])
  {
    var s := "/*/**/ */";
    assert BlockComment(s, 6, 1, 1) == Closed(9, 1);
    assert BlockComment(s, 4, 2, 1) == BlockComment(s, 6, 1, 1);
    assert BlockComment(s, 2, 1, 1) == BlockComment(s, 4, 2, 1);
    assert ScanStep(s, 0, 1) == Skip(9, 1);
  }

  /** A star-slash-star closes the comment and at once opens a new one, which swallows the `x`. */
  lemma CloseThenReopen()
    ensures ScanSource("/**/*x*/") == Scanned([EofToken(1)], [])
  {
    var s := "/**/*x*/";
    assert BlockComment(s, 6, 1, 1) == Closed(8, 1);
    assert BlockComment(s, 2, 1, 1) == BlockComment(s, 6, 1, 1);
    assert ScanStep(s, 0, 1) == Skip(8, 1);
  }

  /** So a comment followed directly by star-slash does not give STAR and SLASH: the scan fails. */
  lemma CloseThenReopenCrashes()
    ensures ScanSource("/**/*/") == Crashed
  {
    var s := "/**/*/";
    assert BlockComment(s, 5, 1, 1) == RanPastEnd(1);
    assert BlockComment(s, 2, 1, 1) == BlockComment(s, 5, 1, 1);
    assert ScanStep(s, 0, 1) == PastEnd;
  }

  /** A block comment that never closes makes the scan fail. */
  lemma UnclosedCommentCrashes()
    ensures ScanSource("/*") == Crashed
  {
  }

  /** `123.` is NUMBER `123` followed by DOT: a fraction needs a digit after the dot. */
  lemma TrailingDotIsSeparate()
    ensures ScanSource("123.") == Scanned([
      Token(Number, "123", NumberText("123"), 1), Token(Dot, ".", NoLiteral, 1), EofToken(1)], [])
  {
    var s := "123.";
    assert s[0..3] == "123" && s[3..4] == ".";
    assert SkipWhile(s, 1, Digits) == 3;
    assert ScanStep(s, 0, 1) == Emit(s, 0, 3, Number, NumberText("123"), 1);
    assert ScanStep(s, 3, 1) == Emit(s, 3, 4, Dot, NoLiteral, 1);
  }

  /** A line comment ends at the line break, which still counts. */
  lemma LineCommentThenNumber()
    ensures ScanSource("// c\n1.5") == Scanned([Token(Number, "1.5", NumberText("1.5"), 2), EofToken(2)], [])
  {
    var s := "// c\n1.5";
    assert SkipWhile(s, 2, NonNewlines) == 4;
    assert ScanStep(s, 0, 1) == Skip(4, 1);
    assert ScanStep(s, 4, 1) == Skip(5, 2);
    assert SkipWhile(s, 6, Digits) == 6 && SkipWhile(s, 7, Digits) == 8;
    assert s[5..8] == "1.5";
    assert NumberEnd(s, 5) == 8;
    assert ScanStep(s, 5, 2) == Emit(s, 5, 8, Number, NumberText("1.5"), 2);
    assert ScanFrom(s, 8, 2) == Scanned([EofToken(2)], []);
    assert ScanFrom(s, 5, 2) == Scanned([Token(Number, "1.5", NumberText("1.5"), 2), EofToken(2)], []);
    assert ScanFrom(s, 0, 1) == ScanFrom(s, 4, 1) == ScanFrom(s, 5, 2);
  }

  /** An unterminated string is reported and gives no token. */
  lemma UnterminatedString()
    ensures ScanSource("\"ab") == Scanned([EofToken(1)], [LexError(1, "Unterminated String literal.")])
  {
  }

  /** A string token carries the text between the quotes. */
  lemma StringValueWithoutQuotes()
    ensures ScanSource("\"ab\"") == Scanned([Token(String, "\"ab\"", StringValue("ab"), 1), EofToken(1)], [])
  {
    var s := "\"ab\"";
    assert SkipWhile(s, 1, NonQuotes) == 3;
    assert s[0..4] == "\"ab\"" && s[1..3] == "ab";
    assert ScanStep(s, 0, 1) == Emit(s, 0, 4, String, StringValue("ab"), 1);
  }

  /** Keywords are matched exactly, case included: `or` is OR, `Or` and `orchid` are identifiers. */
  lemma KeywordsAreExact()
    ensures KeywordKind("or") == Or && KeywordKind("Or") == Identifier && KeywordKind("orchid") == Identifier
    ensures KeywordKind("nil") == Nil && KeywordKind("this") == This && KeywordKind("or2") == Identifier
  {
  }

  /** The longest run of letters and digits is one lexeme, looked up as a whole. */
  lemma KeywordPrefixIsIdentifier()
    ensures ScanSource("or2 or") == Scanned([
      Token(Identifier, "or2", NoLiteral, 1), Token(Or, "or", NoLiteral, 1), EofToken(1)], [])
  {
    var s := "or2 or";
    assert s[0..3] == "or2" && s[4..6] == "or";
    KeywordsAreExact();
    assert SkipWhile(s, 1, WordChars) == 3;
    assert SkipWhile(s, 5, WordChars) == 6;
    assert ScanStep(s, 0, 1) == Emit(s, 0, 3, Identifier, NoLiteral, 1);
    assert ScanStep(s, 4, 1) == Emit(s, 4, 6, Or, NoLiteral, 1);
    assert ScanFrom(s, 4, 1) == Scanned([Token(Or, "or", NoLiteral, 1), EofToken(1)], []);
    assert ScanStep(s, 3, 1) == Skip(4, 1);
  }

  /** An unexpected character is reported and scanning goes on after it. */
  lemma UnexpectedCharacterSkipped()
    ensures ScanSource("@-") == Scanned([Token(Minus, "-", NoLiteral, 1), EofToken(1)],
                                        [LexError(1, "Unexpected character.")])
  {
    var s := "@-";
    assert s[1..2] == "-";
    assert ScanStep(s, 0, 1) == Step(1, 1, None, Some(LexError(1, "Unexpected character.")));
    assert ScanStep(s, 1, 1) == Emit(s, 1, 2, Minus, NoLiteral, 1);
  }
}
