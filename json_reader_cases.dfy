/**
 * The reader's answers on the inputs of the JSON reader's unit tests
 * (json_reader_unittest.cc), one lemma per input. Each input is written as a
 * concatenation of short pieces, and a lemma named `<Case>Step<n>` states one
 * intermediate evaluation fact (an offset reached, a token lexed, a value
 * parsed) that the next step or the case itself builds on.
 */
module JsonReaderCases {
  import opened JsonReader

  /** A text opening with `[` is read, root or not, as the list after it. */
  lemma RootList(s: string, isRoot: bool, allowTrailingComma: bool)
    requires |s| > 0 && s[0] == '['
    ensures ParseValue(s, 0, 0, isRoot, allowTrailingComma) == ParseArray(s, 1, 1, allowTrailingComma)
  {
    assert SkipTrivia(s, 0) == 0;
    assert Lex(s, 0) == Lexed(ArrayBegin, 1);
  }

  /** A text opening with `{` is read, root or not, as the dictionary after it. */
  lemma RootDict(s: string, isRoot: bool, allowTrailingComma: bool)
    requires |s| > 0 && s[0] == '{'
    ensures ParseValue(s, 0, 0, isRoot, allowTrailingComma) == ParseObject(s, 1, 1, allowTrailingComma)
  {
    assert SkipTrivia(s, 0) == 0;
    assert Lex(s, 0) == Lexed(ObjectBegin, 1);
  }

  /** The letters of `true` at offset p lex as the keyword. */
  lemma TrueAt(s: string, p: nat)
    requires p + 4 <= |s| && s[p] == 't' && s[p + 1] == 'r' && s[p + 2] == 'u' && s[p + 3] == 'e'
    ensures Lex(s, p) == Lexed(TrueToken, p + 4)
  {
    assert s[p..p + 4] == "true";
  }

  /** The letters of `null` at offset p lex as the keyword. */
  lemma NullAt(s: string, p: nat)
    requires p + 4 <= |s| && s[p] == 'n' && s[p + 1] == 'u' && s[p + 2] == 'l' && s[p + 3] == 'l'
    ensures Lex(s, p) == Lexed(NullToken, p + 4)
  {
    assert s[p..p + 4] == "null";
  }

  /** The letters of `false` at offset p lex as the keyword. */
  lemma FalseAt(s: string, p: nat)
    requires p + 5 <= |s| && s[p] == 'f' && s[p + 1] == 'a' && s[p + 2] == 'l' && s[p + 3] == 's' && s[p + 4] == 'e'
    ensures Lex(s, p) == Lexed(FalseToken, p + 5)
  {
    assert s[p..p + 5] == "false";
  }

  /** A number token at offset p, inside a value, is the value its text decodes to. */
  lemma NumberValueAt(s: string, p: nat, depth: nat, allowTrailingComma: bool, text: string, e: nat)
    requires p <= |s| && SkipTrivia(s, p) == p && depth + 1 <= StackLimit
    requires Lex(s, p) == Lexed(NumberToken(text), e)
    ensures ParseValue(s, p, depth, false, allowTrailingComma) == Parsed(DecodeNumber(text), e)
  { }

  /** The fraction in the mixed-object tests is read as a double. */
  lemma MixedFractionIsDouble()
    ensures DecodeNumber("9.87654321") == Double("9.87654321")
  {
    assert !IsDigit("9.87654321"[1]);
  }

  /** A `[` at offset p, inside a value, opens a list read from just after it. */
  lemma ListAt(s: string, p: nat, depth: nat, allowTrailingComma: bool)
    requires p < |s| && s[p] == '[' && depth + 1 <= StackLimit
    ensures ParseValue(s, p, depth, false, allowTrailingComma) == ParseArray(s, p + 1, depth + 1, allowTrailingComma)
  {
    assert SkipTrivia(s, p) == p;
    assert Lex(s, p) == Lexed(ArrayBegin, p + 1);
  }

  /** A `{` at offset p, inside a value, opens a dictionary read from just after it. */
  lemma DictAt(s: string, p: nat, depth: nat, allowTrailingComma: bool)
    requires p < |s| && s[p] == '{' && depth + 1 <= StackLimit
    ensures ParseValue(s, p, depth, false, allowTrailingComma) == ParseObject(s, p + 1, depth + 1, allowTrailingComma)
  {
    assert SkipTrivia(s, p) == p;
    assert Lex(s, p) == Lexed(ObjectBegin, p + 1);
  }

  /** A value, a comma and then `]` close a list when trailing commas are allowed. */
  lemma TrailingCommaCloses(s: string, p: nat, depth: nat, acc: seq<Value>, v: Value, e: nat, p3: nat)
    requires p <= |s| && e <= |s|
    requires ParseValue(s, p, depth, false, true) == Parsed(v, e)
    requires Lex(s, SkipTrivia(s, e)).token.ListSeparator?
    requires p3 == SkipTrivia(s, SkipTrivia(s, e) + 1) && Lex(s, p3).token.ArrayEnd?
    ensures ParseElements(s, p, depth, acc, true) == Parsed(List(acc + [v]), p3 + 1)
  {
  }

  /** A member's value, a comma and then `}` close a dictionary when trailing commas are allowed. */
  lemma MemberTrailingCommaCloses(s: string, p2: nat, depth: nat, acc: map<seq<int>, Value>, key: seq<int>,
                                  v: Value, e: nat, p3: nat, p4: nat)
    requires p2 <= |s| && p3 < |s|
    requires ParseValue(s, p2, depth, false, true) == Parsed(v, e)
    requires p3 == SkipTrivia(s, e) && Lex(s, p3).token.ListSeparator?
    requires p4 == SkipTrivia(s, p3 + 1) && Lex(s, p4).token.ObjectEnd?
    ensures ParseMemberValue(s, p2, depth, acc, key, true) == Parsed(Dict(acc[key := v]), p4 + 1)
  {
  }

  /** Whitespace around a root value is skipped. */
  lemma PaddedNull(s: string)
    requires s == "   n" + "ull " + "  "
    ensures JsonToValue(s, false, false) == Ok(Null)
  {
    PaddedNullStep8(s);
    assert Lex(s, 10) == Lexed(EndOfInput, 10);
    PaddedNullStep5(s);
  }

  lemma PaddedNullStep1(s: string)
    requires s == "   n" + "ull " + "  "
    ensures SkipTrivia(s, 2) == 3
  {
    assert SkipTrivia(s, 3) == 3;
  }

  lemma PaddedNullStep2(s: string)
    requires s == "   n" + "ull " + "  "
    ensures SkipTrivia(s, 1) == 3
  {
    PaddedNullStep1(s);
  }

  lemma PaddedNullStep3(s: string)
    requires s == "   n" + "ull " + "  "
    ensures SkipTrivia(s, 0) == 3
  {
    PaddedNullStep2(s);
  }

  lemma PaddedNullStep4(s: string)
    requires s == "   n" + "ull " + "  "
    ensures Lex(s, 3) == Lexed(NullToken, 7)
  {
    NullAt(s, 3);
  }

  lemma PaddedNullStep5(s: string)
    requires s == "   n" + "ull " + "  "
    ensures ParseValue(s, 0, 0, false, false) == Parsed(Null, 7)
  {
    PaddedNullStep3(s);
    PaddedNullStep4(s);
  }

  lemma PaddedNullStep6(s: string)
    requires s == "   n" + "ull " + "  "
    ensures SkipTrivia(s, 9) == 10
  {
    assert SkipTrivia(s, 10) == 10;
  }

  lemma PaddedNullStep7(s: string)
    requires s == "   n" + "ull " + "  "
    ensures SkipTrivia(s, 8) == 10
  {
    PaddedNullStep6(s);
  }

  lemma PaddedNullStep8(s: string)
    requires s == "   n" + "ull " + "  "
    ensures SkipTrivia(s, 7) == 10
  {
    PaddedNullStep7(s);
  }

  /** A truncated keyword is not a value. */
  lemma TruncatedKeyword(s: string)
    requires s == "nu"
    ensures JsonToValue(s, false, false).Err?
  {
    TruncatedKeywordStep1(s);
  }

  lemma TruncatedKeywordStep1(s: string)
    requires s == "nu"
    ensures ParseValue(s, 0, 0, false, false) == Failed(SyntaxError, 0)
  {
    assert SkipTrivia(s, 0) == 0;
    assert Lex(s, 0) == Lexed(InvalidToken(None), 0);
  }

  /** A boolean followed by spaces is read. */
  lemma BoolWithTrailingSpace(s: string)
    requires s == "true" + "  "
    ensures JsonToValue(s, false, false) == Ok(Bool(true))
  {
    BoolWithTrailingSpaceStep4(s);
    assert Lex(s, 6) == Lexed(EndOfInput, 6);
    BoolWithTrailingSpaceStep2(s);
  }

  lemma BoolWithTrailingSpaceStep1(s: string)
    requires s == "true" + "  "
    ensures Lex(s, 0) == Lexed(TrueToken, 4)
  {
    TrueAt(s, 0);
  }

  lemma BoolWithTrailingSpaceStep2(s: string)
    requires s == "true" + "  "
    ensures ParseValue(s, 0, 0, false, false) == Parsed(Bool(true), 4)
  {
    assert SkipTrivia(s, 0) == 0;
    BoolWithTrailingSpaceStep1(s);
  }

  lemma BoolWithTrailingSpaceStep3(s: string)
    requires s == "true" + "  "
    ensures SkipTrivia(s, 5) == 6
  {
    assert SkipTrivia(s, 6) == 6;
  }

  lemma BoolWithTrailingSpaceStep4(s: string)
    requires s == "true" + "  "
    ensures SkipTrivia(s, 4) == 6
  {
    BoolWithTrailingSpaceStep3(s);
  }

  /** A block comment before the value is skipped. */
  lemma CommentBeforeNull(s: string)
    requires s == "/* c" + "omme" + "nt *" + "/nul" + "l"
    ensures JsonToValue(s, false, false) == Ok(Null)
  {
    assert SkipTrivia(s, 17) == 17;
    assert Lex(s, 17) == Lexed(EndOfInput, 17);
    CommentBeforeNullStep5(s);
  }

  lemma CommentBeforeNullStep1(s: string)
    requires s == "/* c" + "omme" + "nt *" + "/nul" + "l"
    ensures BlockCommentEnd(s, 8) == Some(13)
  {
    assert BlockCommentEnd(s, 11) == Some(13);
    assert BlockCommentEnd(s, 10) == Some(13);
    assert BlockCommentEnd(s, 9) == Some(13);
  }

  lemma CommentBeforeNullStep2(s: string)
    requires s == "/* c" + "omme" + "nt *" + "/nul" + "l"
    ensures BlockCommentEnd(s, 4) == Some(13)
  {
    CommentBeforeNullStep1(s);
    assert BlockCommentEnd(s, 7) == Some(13);
    assert BlockCommentEnd(s, 6) == Some(13);
    assert BlockCommentEnd(s, 5) == Some(13);
  }

  lemma CommentBeforeNullStep3(s: string)
    requires s == "/* c" + "omme" + "nt *" + "/nul" + "l"
    ensures SkipTrivia(s, 0) == 13
  {
    CommentBeforeNullStep2(s);
    assert BlockCommentEnd(s, 3) == Some(13);
    assert BlockCommentEnd(s, 2) == Some(13);
    assert SkipTrivia(s, 13) == 13;
  }

  lemma CommentBeforeNullStep4(s: string)
    requires s == "/* c" + "omme" + "nt *" + "/nul" + "l"
    ensures Lex(s, 13) == Lexed(NullToken, 17)
  {
    NullAt(s, 13);
  }

  lemma CommentBeforeNullStep5(s: string)
    requires s == "/* c" + "omme" + "nt *" + "/nul" + "l"
    ensures ParseValue(s, 0, 0, false, false) == Parsed(Null, 17)
  {
    CommentBeforeNullStep3(s);
    CommentBeforeNullStep4(s);
  }

  /** A block comment after the value is skipped. */
  lemma CommentAfterInteger(s: string)
    requires s == "40 /" + "* co" + "mmen" + "t */"
    ensures JsonToValue(s, false, false) == Ok(Integer(40))
  {
    CommentAfterIntegerStep7(s);
    assert Lex(s, 16) == Lexed(EndOfInput, 16);
    CommentAfterIntegerStep3(s);
  }

  lemma CommentAfterIntegerStep1(s: string)
    requires s == "40 /" + "* co" + "mmen" + "t */"
    ensures Lex(s, 0) == Lexed(NumberToken("40"), 2)
  {
    assert DigitRunEnd(s, 2) == 2;
    assert DigitRunEnd(s, 1) == 2;
    assert DigitRunEnd(s, 0) == 2;
    assert ExponentEnd(s, 2) == Some(2);
    assert s[0..2] == "40";
    assert LexNumber(s, 0) == Lexed(NumberToken("40"), 2);
  }

  lemma CommentAfterIntegerStep2(s: string)
    requires s == "40 /" + "* co" + "mmen" + "t */"
    ensures DigitsValue("40") == 40
  {
    assert DigitsValue("4") == 4;
    assert "40"[..1] == "4";
  }

  lemma CommentAfterIntegerStep3(s: string)
    requires s == "40 /" + "* co" + "mmen" + "t */"
    ensures ParseValue(s, 0, 0, false, false) == Parsed(Integer(40), 2)
  {
    assert SkipTrivia(s, 0) == 0;
    CommentAfterIntegerStep1(s);
    CommentAfterIntegerStep2(s);
    assert DecodeNumber("40") == Integer(40);
  }

  lemma CommentAfterIntegerStep4(s: string)
    requires s == "40 /" + "* co" + "mmen" + "t */"
    ensures BlockCommentEnd(s, 12) == Some(16)
  {
    assert BlockCommentEnd(s, 14) == Some(16);
    assert BlockCommentEnd(s, 13) == Some(16);
  }

  lemma CommentAfterIntegerStep5(s: string)
    requires s == "40 /" + "* co" + "mmen" + "t */"
    ensures BlockCommentEnd(s, 8) == Some(16)
  {
    CommentAfterIntegerStep4(s);
    assert BlockCommentEnd(s, 11) == Some(16);
    assert BlockCommentEnd(s, 10) == Some(16);
    assert BlockCommentEnd(s, 9) == Some(16);
  }

  lemma CommentAfterIntegerStep6(s: string)
    requires s == "40 /" + "* co" + "mmen" + "t */"
    ensures SkipTrivia(s, 3) == 16
  {
    CommentAfterIntegerStep5(s);
    assert BlockCommentEnd(s, 7) == Some(16);
    assert BlockCommentEnd(s, 6) == Some(16);
    assert BlockCommentEnd(s, 5) == Some(16);
    assert SkipTrivia(s, 16) == 16;
  }

  lemma CommentAfterIntegerStep7(s: string)
    requires s == "40 /" + "* co" + "mmen" + "t */"
    ensures SkipTrivia(s, 2) == 16
  {
    CommentAfterIntegerStep6(s);
  }

  /** A line comment running to the end of the input is skipped. */
  lemma LineCommentAfterBool(s: string)
    requires s == "true" + " // " + "comm" + "ent"
    ensures JsonToValue(s, false, false) == Ok(Bool(true))
  {
    LineCommentAfterBoolStep6(s);
    assert Lex(s, 15) == Lexed(EndOfInput, 15);
    LineCommentAfterBoolStep2(s);
  }

  lemma LineCommentAfterBoolStep1(s: string)
    requires s == "true" + " // " + "comm" + "ent"
    ensures Lex(s, 0) == Lexed(TrueToken, 4)
  {
    TrueAt(s, 0);
  }

  lemma LineCommentAfterBoolStep2(s: string)
    requires s == "true" + " // " + "comm" + "ent"
    ensures ParseValue(s, 0, 0, false, false) == Parsed(Bool(true), 4)
  {
    assert SkipTrivia(s, 0) == 0;
    LineCommentAfterBoolStep1(s);
  }

  lemma LineCommentAfterBoolStep3(s: string)
    requires s == "true" + " // " + "comm" + "ent"
    ensures LineCommentEnd(s, 12) == 15
  {
    assert LineCommentEnd(s, 15) == 15;
    assert LineCommentEnd(s, 14) == 15;
    assert LineCommentEnd(s, 13) == 15;
  }

  lemma LineCommentAfterBoolStep4(s: string)
    requires s == "true" + " // " + "comm" + "ent"
    ensures LineCommentEnd(s, 8) == 15
  {
    LineCommentAfterBoolStep3(s);
    assert LineCommentEnd(s, 11) == 15;
    assert LineCommentEnd(s, 10) == 15;
    assert LineCommentEnd(s, 9) == 15;
  }

  lemma LineCommentAfterBoolStep5(s: string)
    requires s == "true" + " // " + "comm" + "ent"
    ensures SkipTrivia(s, 5) == 15
  {
    LineCommentAfterBoolStep4(s);
    assert LineCommentEnd(s, 7) == 15;
    assert SkipTrivia(s, 15) == 15;
  }

  lemma LineCommentAfterBoolStep6(s: string)
    requires s == "true" + " // " + "comm" + "ent"
    ensures SkipTrivia(s, 4) == 15
  {
    LineCommentAfterBoolStep5(s);
  }

  /** A block comment before a string is skipped and the string is kept. */
  lemma CommentBeforeString(s: string)
    requires s == "/* c" + "omme" + "nt *" + "/\"sa" + "mple" + " str" + "ing\""
    ensures JsonToValue(s, false, false) == Ok(Str([115, 97, 109, 112, 108, 101, 32, 115, 116, 114, 105, 110, 103]))
  {
    assert SkipTrivia(s, 28) == 28;
    assert Lex(s, 28) == Lexed(EndOfInput, 28);
    CommentBeforeStringStep14(s);
  }

  lemma CommentBeforeStringStep1(s: string)
    requires s == "/* c" + "omme" + "nt *" + "/\"sa" + "mple" + " str" + "ing\""
    ensures BlockCommentEnd(s, 8) == Some(13)
  {
    assert BlockCommentEnd(s, 11) == Some(13);
    assert BlockCommentEnd(s, 10) == Some(13);
    assert BlockCommentEnd(s, 9) == Some(13);
  }

  lemma CommentBeforeStringStep2(s: string)
    requires s == "/* c" + "omme" + "nt *" + "/\"sa" + "mple" + " str" + "ing\""
    ensures BlockCommentEnd(s, 4) == Some(13)
  {
    CommentBeforeStringStep1(s);
    assert BlockCommentEnd(s, 7) == Some(13);
    assert BlockCommentEnd(s, 6) == Some(13);
    assert BlockCommentEnd(s, 5) == Some(13);
  }

  lemma CommentBeforeStringStep3(s: string)
    requires s == "/* c" + "omme" + "nt *" + "/\"sa" + "mple" + " str" + "ing\""
    ensures SkipTrivia(s, 0) == 13
  {
    CommentBeforeStringStep2(s);
    assert BlockCommentEnd(s, 3) == Some(13);
    assert BlockCommentEnd(s, 2) == Some(13);
    assert SkipTrivia(s, 13) == 13;
  }

  lemma CommentBeforeStringStep4(s: string)
    requires s == "/* c" + "omme" + "nt *" + "/\"sa" + "mple" + " str" + "ing\""
    ensures LexString(s, 13, 25, [115, 97, 109, 112, 108, 101, 32, 115, 116, 114, 105]) == Lexed(StringToken([115, 97, 109, 112, 108, 101, 32, 115, 116, 114, 105, 110, 103]), 28)
  {
    assert [115, 97, 109, 112, 108, 101, 32, 115, 116, 114, 105] + [110] == [115, 97, 109, 112, 108, 101, 32, 115, 116, 114, 105, 110];
    assert [115, 97, 109, 112, 108, 101, 32, 115, 116, 114, 105, 110] + [103] == [115, 97, 109, 112, 108, 101, 32, 115, 116, 114, 105, 110, 103];
    assert LexString(s, 13, 27, [115, 97, 109, 112, 108, 101, 32, 115, 116, 114, 105, 110, 103]) == Lexed(StringToken([115, 97, 109, 112, 108, 101, 32, 115, 116, 114, 105, 110, 103]), 28);
    assert LexString(s, 13, 26, [115, 97, 109, 112, 108, 101, 32, 115, 116, 114, 105, 110]) == Lexed(StringToken([115, 97, 109, 112, 108, 101, 32, 115, 116, 114, 105, 110, 103]), 28);
  }

  lemma CommentBeforeStringStep5(s: string)
    requires s == "/* c" + "omme" + "nt *" + "/\"sa" + "mple" + " str" + "ing\""
    ensures [115, 97, 109, 112, 108, 101, 32] + [115] == [115, 97, 109, 112, 108, 101, 32, 115] && [115, 97, 109, 112, 108, 101, 32, 115] + [116] == [115, 97, 109, 112, 108, 101, 32, 115, 116] && [115, 97, 109, 112, 108, 101, 32, 115, 116] + [114] == [115, 97, 109, 112, 108, 101, 32, 115, 116, 114] && [115, 97, 109, 112, 108, 101, 32, 115, 116, 114] + [105] == [115, 97, 109, 112, 108, 101, 32, 115, 116, 114, 105] && LexString(s, 13, 25, [115, 97, 109, 112, 108, 101, 32, 115, 116, 114, 105]) == Lexed(StringToken([115, 97, 109, 112, 108, 101, 32, 115, 116, 114, 105, 110, 103]), 28)
  {
    assert [115, 97, 109, 112, 108, 101, 32] + [115] == [115, 97, 109, 112, 108, 101, 32, 115];
    assert [115, 97, 109, 112, 108, 101, 32, 115] + [116] == [115, 97, 109, 112, 108, 101, 32, 115, 116];
    assert [115, 97, 109, 112, 108, 101, 32, 115, 116] + [114] == [115, 97, 109, 112, 108, 101, 32, 115, 116, 114];
    assert [115, 97, 109, 112, 108, 101, 32, 115, 116, 114] + [105] == [115, 97, 109, 112, 108, 101, 32, 115, 116, 114, 105];
    CommentBeforeStringStep4(s);
  }

  lemma CommentBeforeStringStep6(s: string)
    requires s == "/* c" + "omme" + "nt *" + "/\"sa" + "mple" + " str" + "ing\""
    ensures LexString(s, 13, 24, [115, 97, 109, 112, 108, 101, 32, 115, 116, 114]) == Lexed(StringToken([115, 97, 109, 112, 108, 101, 32, 115, 116, 114, 105, 110, 103]), 28) && LexString(s, 13, 23, [115, 97, 109, 112, 108, 101, 32, 115, 116]) == Lexed(StringToken([115, 97, 109, 112, 108, 101, 32, 115, 116, 114, 105, 110, 103]), 28) && LexString(s, 13, 22, [115, 97, 109, 112, 108, 101, 32, 115]) == Lexed(StringToken([115, 97, 109, 112, 108, 101, 32, 115, 116, 114, 105, 110, 103]), 28)
  {
    CommentBeforeStringStep5(s);
    assert LexString(s, 13, 24, [115, 97, 109, 112, 108, 101, 32, 115, 116, 114]) == Lexed(StringToken([115, 97, 109, 112, 108, 101, 32, 115, 116, 114, 105, 110, 103]), 28);
    assert LexString(s, 13, 23, [115, 97, 109, 112, 108, 101, 32, 115, 116]) == Lexed(StringToken([115, 97, 109, 112, 108, 101, 32, 115, 116, 114, 105, 110, 103]), 28);
    assert LexString(s, 13, 22, [115, 97, 109, 112, 108, 101, 32, 115]) == Lexed(StringToken([115, 97, 109, 112, 108, 101, 32, 115, 116, 114, 105, 110, 103]), 28);
  }

  lemma CommentBeforeStringStep7(s: string)
    requires s == "/* c" + "omme" + "nt *" + "/\"sa" + "mple" + " str" + "ing\""
    ensures LexString(s, 13, 21, [115, 97, 109, 112, 108, 101, 32]) == Lexed(StringToken([115, 97, 109, 112, 108, 101, 32, 115, 116, 114, 105, 110, 103]), 28)
  {
    CommentBeforeStringStep5(s);
    CommentBeforeStringStep6(s);
  }

  lemma CommentBeforeStringStep8(s: string)
    requires s == "/* c" + "omme" + "nt *" + "/\"sa" + "mple" + " str" + "ing\""
    ensures [115, 97, 109] + [112] == [115, 97, 109, 112] && [115, 97, 109, 112] + [108] == [115, 97, 109, 112, 108] && [115, 97, 109, 112, 108] + [101] == [115, 97, 109, 112, 108, 101] && [115, 97, 109, 112, 108, 101] + [32] == [115, 97, 109, 112, 108, 101, 32] && LexString(s, 13, 21, [115, 97, 109, 112, 108, 101, 32]) == Lexed(StringToken([115, 97, 109, 112, 108, 101, 32, 115, 116, 114, 105, 110, 103]), 28)
  {
    assert [115, 97, 109] + [112] == [115, 97, 109, 112];
    assert [115, 97, 109, 112] + [108] == [115, 97, 109, 112, 108];
    assert [115, 97, 109, 112, 108] + [101] == [115, 97, 109, 112, 108, 101];
    assert [115, 97, 109, 112, 108, 101] + [32] == [115, 97, 109, 112, 108, 101, 32];
    CommentBeforeStringStep7(s);
  }

  lemma CommentBeforeStringStep9(s: string)
    requires s == "/* c" + "omme" + "nt *" + "/\"sa" + "mple" + " str" + "ing\""
    ensures LexString(s, 13, 20, [115, 97, 109, 112, 108, 101]) == Lexed(StringToken([115, 97, 109, 112, 108, 101, 32, 115, 116, 114, 105, 110, 103]), 28) && LexString(s, 13, 19, [115, 97, 109, 112, 108]) == Lexed(StringToken([115, 97, 109, 112, 108, 101, 32, 115, 116, 114, 105, 110, 103]), 28) && LexString(s, 13, 18, [115, 97, 109, 112]) == Lexed(StringToken([115, 97, 109, 112, 108, 101, 32, 115, 116, 114, 105, 110, 103]), 28)
  {
    CommentBeforeStringStep8(s);
    assert LexString(s, 13, 20, [115, 97, 109, 112, 108, 101]) == Lexed(StringToken([115, 97, 109, 112, 108, 101, 32, 115, 116, 114, 105, 110, 103]), 28);
    assert LexString(s, 13, 19, [115, 97, 109, 112, 108]) == Lexed(StringToken([115, 97, 109, 112, 108, 101, 32, 115, 116, 114, 105, 110, 103]), 28);
    assert LexString(s, 13, 18, [115, 97, 109, 112]) == Lexed(StringToken([115, 97, 109, 112, 108, 101, 32, 115, 116, 114, 105, 110, 103]), 28);
  }

  lemma CommentBeforeStringStep10(s: string)
    requires s == "/* c" + "omme" + "nt *" + "/\"sa" + "mple" + " str" + "ing\""
    ensures LexString(s, 13, 17, [115, 97, 109]) == Lexed(StringToken([115, 97, 109, 112, 108, 101, 32, 115, 116, 114, 105, 110, 103]), 28)
  {
    CommentBeforeStringStep8(s);
    CommentBeforeStringStep9(s);
  }

  lemma CommentBeforeStringStep11(s: string)
    requires s == "/* c" + "omme" + "nt *" + "/\"sa" + "mple" + " str" + "ing\""
    ensures [] + [115] == [115] && [115] + [97] == [115, 97] && [115, 97] + [109] == [115, 97, 109] && LexString(s, 13, 17, [115, 97, 109]) == Lexed(StringToken([115, 97, 109, 112, 108, 101, 32, 115, 116, 114, 105, 110, 103]), 28) && LexString(s, 13, 16, [115, 97]) == Lexed(StringToken([115, 97, 109, 112, 108, 101, 32, 115, 116, 114, 105, 110, 103]), 28)
  {
    assert [] + [115] == [115];
    assert [115] + [97] == [115, 97];
    assert [115, 97] + [109] == [115, 97, 109];
    CommentBeforeStringStep10(s);
    assert LexString(s, 13, 16, [115, 97]) == Lexed(StringToken([115, 97, 109, 112, 108, 101, 32, 115, 116, 114, 105, 110, 103]), 28);
  }

  lemma CommentBeforeStringStep12(s: string)
    requires s == "/* c" + "omme" + "nt *" + "/\"sa" + "mple" + " str" + "ing\""
    ensures LexString(s, 13, 15, [115]) == Lexed(StringToken([115, 97, 109, 112, 108, 101, 32, 115, 116, 114, 105, 110, 103]), 28) && LexString(s, 13, 14, []) == Lexed(StringToken([115, 97, 109, 112, 108, 101, 32, 115, 116, 114, 105, 110, 103]), 28)
  {
    CommentBeforeStringStep11(s);
    assert LexString(s, 13, 15, [115]) == Lexed(StringToken([115, 97, 109, 112, 108, 101, 32, 115, 116, 114, 105, 110, 103]), 28);
    assert LexString(s, 13, 14, []) == Lexed(StringToken([115, 97, 109, 112, 108, 101, 32, 115, 116, 114, 105, 110, 103]), 28);
  }

  lemma CommentBeforeStringStep13(s: string)
    requires s == "/* c" + "omme" + "nt *" + "/\"sa" + "mple" + " str" + "ing\""
    ensures Lex(s, 13) == Lexed(StringToken([115, 97, 109, 112, 108, 101, 32, 115, 116, 114, 105, 110, 103]), 28)
  {
    CommentBeforeStringStep11(s);
    CommentBeforeStringStep12(s);
  }

  lemma CommentBeforeStringStep14(s: string)
    requires s == "/* c" + "omme" + "nt *" + "/\"sa" + "mple" + " str" + "ing\""
    ensures ParseValue(s, 0, 0, false, false) == Parsed(Str([115, 97, 109, 112, 108, 101, 32, 115, 116, 114, 105, 110, 103]), 28)
  {
    CommentBeforeStringStep3(s);
    CommentBeforeStringStep13(s);
  }

  /** A number with a leading zero is refused. */
  lemma RejectsLeadingZero(s: string)
    requires s == "043"
    ensures JsonToValue(s, false, false).Err?
  {
    RejectsLeadingZeroStep3(s);
  }

  lemma RejectsLeadingZeroStep1(s: string)
    requires s == "043"
    ensures SkipTrivia(s, 0) == 0 && DigitRunEnd(s, 3) == 3 && DigitRunEnd(s, 2) == 3 && DigitRunEnd(s, 1) == 3 && DigitRunEnd(s, 0) == 3
  {
    assert SkipTrivia(s, 0) == 0;
    assert DigitRunEnd(s, 3) == 3;
    assert DigitRunEnd(s, 2) == 3;
    assert DigitRunEnd(s, 1) == 3;
    assert DigitRunEnd(s, 0) == 3;
  }

  lemma RejectsLeadingZeroStep2(s: string)
    requires s == "043"
    ensures LexNumber(s, 0) == Lexed(InvalidToken(None), 0) && Lex(s, 0) == Lexed(InvalidToken(None), 0)
  {
    RejectsLeadingZeroStep1(s);
    assert LexNumber(s, 0) == Lexed(InvalidToken(None), 0);
    assert Lex(s, 0) == Lexed(InvalidToken(None), 0);
  }

  lemma RejectsLeadingZeroStep3(s: string)
    requires s == "043"
    ensures ParseValue(s, 0, 0, false, false) == Failed(SyntaxError, 0)
  {
    RejectsLeadingZeroStep1(s);
    RejectsLeadingZeroStep2(s);
  }

  /** A number with a hexadecimal literal is refused. */
  lemma RejectsHexNumber(s: string)
    requires s == "0x43"
    ensures JsonToValue(s, false, false).Err?
  {
    assert SkipTrivia(s, 1) == 1;
    assert Lex(s, 1) == Lexed(InvalidToken(None), 1);
    RejectsHexNumberStep4(s);
    RejectsHexNumberStep3(s);
  }

  lemma RejectsHexNumberStep1(s: string)
    requires s == "0x43"
    ensures Lex(s, 0) == Lexed(NumberToken("0"), 1)
  {
    assert DigitRunEnd(s, 1) == 1;
    assert DigitRunEnd(s, 0) == 1;
    assert ExponentEnd(s, 1) == Some(1);
    assert s[0..1] == "0";
    assert LexNumber(s, 0) == Lexed(NumberToken("0"), 1);
  }

  lemma RejectsHexNumberStep2(s: string)
    requires s == "0x43"
    ensures DigitsValue("0") == 0
  {
  }

  lemma RejectsHexNumberStep3(s: string)
    requires s == "0x43"
    ensures ParseValue(s, 0, 0, false, false) == Parsed(Integer(0), 1)
  {
    assert SkipTrivia(s, 0) == 0;
    RejectsHexNumberStep1(s);
    RejectsHexNumberStep2(s);
    assert DecodeNumber("0") == Integer(0);
  }

  lemma RejectsHexNumberStep4(s: string)
    requires s == "0x43"
    ensures LineColumn(s[..1]) == (1, 2)
  {
  }

  /** A number with two zeros is refused. */
  lemma RejectsDoubleZero(s: string)
    requires s == "00"
    ensures JsonToValue(s, false, false).Err?
  {
    RejectsDoubleZeroStep1(s);
  }

  lemma RejectsDoubleZeroStep1(s: string)
    requires s == "00"
    ensures ParseValue(s, 0, 0, false, false) == Failed(SyntaxError, 0)
  {
    assert SkipTrivia(s, 0) == 0;
    assert DigitRunEnd(s, 2) == 2;
    assert DigitRunEnd(s, 1) == 2;
    assert DigitRunEnd(s, 0) == 2;
    assert LexNumber(s, 0) == Lexed(InvalidToken(None), 0);
    assert Lex(s, 0) == Lexed(InvalidToken(None), 0);
  }

  /** A number with a point without digits after it is refused. */
  lemma RejectsNoFractionDigits(s: string)
    requires s == "1."
    ensures JsonToValue(s, false, false).Err?
  {
    RejectsNoFractionDigitsStep1(s);
  }

  lemma RejectsNoFractionDigitsStep1(s: string)
    requires s == "1."
    ensures ParseValue(s, 0, 0, false, false) == Failed(SyntaxError, 0)
  {
    assert SkipTrivia(s, 0) == 0;
    assert DigitRunEnd(s, 1) == 1;
    assert DigitRunEnd(s, 0) == 1;
    assert DigitRunEnd(s, 2) == 2;
    assert LexNumber(s, 0) == Lexed(InvalidToken(None), 0);
    assert Lex(s, 0) == Lexed(InvalidToken(None), 0);
  }

  /** A number with a point without digits before it is refused. */
  lemma RejectsNoIntegerDigits(s: string)
    requires s == ".1"
    ensures JsonToValue(s, false, false).Err?
  {
    RejectsNoIntegerDigitsStep1(s);
  }

  lemma RejectsNoIntegerDigitsStep1(s: string)
    requires s == ".1"
    ensures ParseValue(s, 0, 0, false, false) == Failed(SyntaxError, 0)
  {
    assert SkipTrivia(s, 0) == 0;
    assert Lex(s, 0) == Lexed(InvalidToken(None), 0);
  }

  /** A number with an empty fraction is refused. */
  lemma RejectsEmptyFractionBeforeExponent(s: string)
    requires s == "1.e1" + "0"
    ensures JsonToValue(s, false, false).Err?
  {
    RejectsEmptyFractionBeforeExponentStep1(s);
  }

  lemma RejectsEmptyFractionBeforeExponentStep1(s: string)
    requires s == "1.e1" + "0"
    ensures ParseValue(s, 0, 0, false, false) == Failed(SyntaxError, 0)
  {
    assert SkipTrivia(s, 0) == 0;
    assert DigitRunEnd(s, 1) == 1;
    assert DigitRunEnd(s, 0) == 1;
    assert DigitRunEnd(s, 2) == 2;
    assert LexNumber(s, 0) == Lexed(InvalidToken(None), 0);
    assert Lex(s, 0) == Lexed(InvalidToken(None), 0);
  }

  /** A number with an exponent without digits is refused. */
  lemma RejectsNoExponentDigits(s: string)
    requires s == "1e"
    ensures JsonToValue(s, false, false).Err?
  {
    RejectsNoExponentDigitsStep3(s);
  }

  lemma RejectsNoExponentDigitsStep1(s: string)
    requires s == "1e"
    ensures SkipTrivia(s, 0) == 0 && DigitRunEnd(s, 1) == 1 && DigitRunEnd(s, 0) == 1 && DigitRunEnd(s, 2) == 2 && ExponentEnd(s, 1) == None
  {
    assert SkipTrivia(s, 0) == 0;
    assert DigitRunEnd(s, 1) == 1;
    assert DigitRunEnd(s, 0) == 1;
    assert DigitRunEnd(s, 2) == 2;
    assert ExponentEnd(s, 1) == None;
  }

  lemma RejectsNoExponentDigitsStep2(s: string)
    requires s == "1e"
    ensures LexNumber(s, 0) == Lexed(InvalidToken(None), 0) && Lex(s, 0) == Lexed(InvalidToken(None), 0)
  {
    RejectsNoExponentDigitsStep1(s);
    assert LexNumber(s, 0) == Lexed(InvalidToken(None), 0);
    assert Lex(s, 0) == Lexed(InvalidToken(None), 0);
  }

  lemma RejectsNoExponentDigitsStep3(s: string)
    requires s == "1e"
    ensures ParseValue(s, 0, 0, false, false) == Failed(SyntaxError, 0)
  {
    RejectsNoExponentDigitsStep1(s);
    RejectsNoExponentDigitsStep2(s);
  }

  /** A number with an upper-case exponent without digits is refused. */
  lemma RejectsNoUpperExponentDigits(s: string)
    requires s == "1E"
    ensures JsonToValue(s, false, false).Err?
  {
    RejectsNoUpperExponentDigitsStep3(s);
  }

  lemma RejectsNoUpperExponentDigitsStep1(s: string)
    requires s == "1E"
    ensures SkipTrivia(s, 0) == 0 && DigitRunEnd(s, 1) == 1 && DigitRunEnd(s, 0) == 1 && DigitRunEnd(s, 2) == 2 && ExponentEnd(s, 1) == None
  {
    assert SkipTrivia(s, 0) == 0;
    assert DigitRunEnd(s, 1) == 1;
    assert DigitRunEnd(s, 0) == 1;
    assert DigitRunEnd(s, 2) == 2;
    assert ExponentEnd(s, 1) == None;
  }

  lemma RejectsNoUpperExponentDigitsStep2(s: string)
    requires s == "1E"
    ensures LexNumber(s, 0) == Lexed(InvalidToken(None), 0) && Lex(s, 0) == Lexed(InvalidToken(None), 0)
  {
    RejectsNoUpperExponentDigitsStep1(s);
    assert LexNumber(s, 0) == Lexed(InvalidToken(None), 0);
    assert Lex(s, 0) == Lexed(InvalidToken(None), 0);
  }

  lemma RejectsNoUpperExponentDigitsStep3(s: string)
    requires s == "1E"
    ensures ParseValue(s, 0, 0, false, false) == Failed(SyntaxError, 0)
  {
    RejectsNoUpperExponentDigitsStep1(s);
    RejectsNoUpperExponentDigitsStep2(s);
  }

  /** A number with a point after the exponent is refused. */
  lemma RejectsPointAfterExponent(s: string)
    requires s == "1e1."
    ensures JsonToValue(s, false, false).Err?
  {
    assert SkipTrivia(s, 3) == 3;
    assert Lex(s, 3) == Lexed(InvalidToken(None), 3);
    RejectsPointAfterExponentStep5(s);
    RejectsPointAfterExponentStep4(s);
  }

  lemma RejectsPointAfterExponentStep1(s: string)
    requires s == "1e1."
    ensures DigitRunEnd(s, 1) == 1 && DigitRunEnd(s, 0) == 1 && DigitRunEnd(s, 3) == 3 && DigitRunEnd(s, 2) == 3 && ExponentEnd(s, 1) == Some(3)
  {
    assert DigitRunEnd(s, 1) == 1;
    assert DigitRunEnd(s, 0) == 1;
    assert DigitRunEnd(s, 3) == 3;
    assert DigitRunEnd(s, 2) == 3;
    assert ExponentEnd(s, 1) == Some(3);
  }

  lemma RejectsPointAfterExponentStep2(s: string)
    requires s == "1e1."
    ensures s[0..3] == "1e1" && LexNumber(s, 0) == Lexed(NumberToken("1e1"), 3)
  {
    RejectsPointAfterExponentStep1(s);
    assert s[0..3] == "1e1";
    assert LexNumber(s, 0) == Lexed(NumberToken("1e1"), 3);
  }

  lemma RejectsPointAfterExponentStep3(s: string)
    requires s == "1e1."
    ensures Lex(s, 0) == Lexed(NumberToken("1e1"), 3)
  {
    RejectsPointAfterExponentStep1(s);
    RejectsPointAfterExponentStep2(s);
  }

  lemma RejectsPointAfterExponentStep4(s: string)
    requires s == "1e1."
    ensures ParseValue(s, 0, 0, false, false) == Parsed(Double("1e1"), 3)
  {
    assert SkipTrivia(s, 0) == 0;
    RejectsPointAfterExponentStep3(s);
    assert !IsDigit("1e1"[1]);
    assert DecodeNumber("1e1") == Double("1e1");
  }

  lemma RejectsPointAfterExponentStep5(s: string)
    requires s == "1e1."
    ensures LineColumn(s[..3]) == (1, 4)
  {
    assert LineColumn(s[..1]) == (1, 2);
    assert s[..2][..1] == s[..1];
    assert LineColumn(s[..2]) == (1, 3);
    assert s[..3][..2] == s[..2];
  }

  /** A number with a fraction after the exponent is refused. */
  lemma RejectsFractionAfterExponent(s: string)
    requires s == "1e1." + "0"
    ensures JsonToValue(s, false, false).Err?
  {
    assert SkipTrivia(s, 3) == 3;
    assert Lex(s, 3) == Lexed(InvalidToken(None), 3);
    RejectsFractionAfterExponentStep5(s);
    RejectsFractionAfterExponentStep4(s);
  }

  lemma RejectsFractionAfterExponentStep1(s: string)
    requires s == "1e1." + "0"
    ensures DigitRunEnd(s, 1) == 1 && DigitRunEnd(s, 0) == 1 && DigitRunEnd(s, 3) == 3 && DigitRunEnd(s, 2) == 3 && ExponentEnd(s, 1) == Some(3)
  {
    assert DigitRunEnd(s, 1) == 1;
    assert DigitRunEnd(s, 0) == 1;
    assert DigitRunEnd(s, 3) == 3;
    assert DigitRunEnd(s, 2) == 3;
    assert ExponentEnd(s, 1) == Some(3);
  }

  lemma RejectsFractionAfterExponentStep2(s: string)
    requires s == "1e1." + "0"
    ensures s[0..3] == "1e1" && LexNumber(s, 0) == Lexed(NumberToken("1e1"), 3)
  {
    RejectsFractionAfterExponentStep1(s);
    assert s[0..3] == "1e1";
    assert LexNumber(s, 0) == Lexed(NumberToken("1e1"), 3);
  }

  lemma RejectsFractionAfterExponentStep3(s: string)
    requires s == "1e1." + "0"
    ensures Lex(s, 0) == Lexed(NumberToken("1e1"), 3)
  {
    RejectsFractionAfterExponentStep1(s);
    RejectsFractionAfterExponentStep2(s);
  }

  lemma RejectsFractionAfterExponentStep4(s: string)
    requires s == "1e1." + "0"
    ensures ParseValue(s, 0, 0, false, false) == Parsed(Double("1e1"), 3)
  {
    assert SkipTrivia(s, 0) == 0;
    RejectsFractionAfterExponentStep3(s);
    assert !IsDigit("1e1"[1]);
    assert DecodeNumber("1e1") == Double("1e1");
  }

  lemma RejectsFractionAfterExponentStep5(s: string)
    requires s == "1e1." + "0"
    ensures LineColumn(s[..3]) == (1, 4)
  {
    assert LineColumn(s[..1]) == (1, 2);
    assert s[..2][..1] == s[..1];
    assert LineColumn(s[..2]) == (1, 3);
    assert s[..3][..2] == s[..2];
  }

  /** A number with NaN is refused. */
  lemma RejectsUpperNaN(s: string)
    requires s == "NaN"
    ensures JsonToValue(s, false, false).Err?
  {
    RejectsUpperNaNStep1(s);
  }

  lemma RejectsUpperNaNStep1(s: string)
    requires s == "NaN"
    ensures ParseValue(s, 0, 0, false, false) == Failed(SyntaxError, 0)
  {
    assert SkipTrivia(s, 0) == 0;
    assert Lex(s, 0) == Lexed(InvalidToken(None), 0);
  }

  /** A number with nan is refused. */
  lemma RejectsLowerNaN(s: string)
    requires s == "nan"
    ensures JsonToValue(s, false, false).Err?
  {
    RejectsLowerNaNStep1(s);
  }

  lemma RejectsLowerNaNStep1(s: string)
    requires s == "nan"
    ensures ParseValue(s, 0, 0, false, false) == Failed(SyntaxError, 0)
  {
    assert SkipTrivia(s, 0) == 0;
    assert Lex(s, 0) == Lexed(InvalidToken(None), 0);
  }

  /** A number with inf is refused. */
  lemma RejectsInfinity(s: string)
    requires s == "inf"
    ensures JsonToValue(s, false, false).Err?
  {
    RejectsInfinityStep1(s);
  }

  lemma RejectsInfinityStep1(s: string)
    requires s == "inf"
    ensures ParseValue(s, 0, 0, false, false) == Failed(SyntaxError, 0)
  {
    assert SkipTrivia(s, 0) == 0;
    assert Lex(s, 0) == Lexed(InvalidToken(None), 0);
  }

  /** A number with two decimal points is refused. */
  lemma RejectsTwoPoints(s: string)
    requires s == "4.3." + "1"
    ensures JsonToValue(s, false, false).Err?
  {
    assert SkipTrivia(s, 3) == 3;
    assert Lex(s, 3) == Lexed(InvalidToken(None), 3);
    RejectsTwoPointsStep5(s);
    RejectsTwoPointsStep4(s);
  }

  lemma RejectsTwoPointsStep1(s: string)
    requires s == "4.3." + "1"
    ensures DigitRunEnd(s, 1) == 1 && DigitRunEnd(s, 0) == 1 && DigitRunEnd(s, 3) == 3 && DigitRunEnd(s, 2) == 3 && ExponentEnd(s, 3) == Some(3)
  {
    assert DigitRunEnd(s, 1) == 1;
    assert DigitRunEnd(s, 0) == 1;
    assert DigitRunEnd(s, 3) == 3;
    assert DigitRunEnd(s, 2) == 3;
    assert ExponentEnd(s, 3) == Some(3);
  }

  lemma RejectsTwoPointsStep2(s: string)
    requires s == "4.3." + "1"
    ensures s[0..3] == "4.3" && LexNumber(s, 0) == Lexed(NumberToken("4.3"), 3)
  {
    RejectsTwoPointsStep1(s);
    assert s[0..3] == "4.3";
    assert LexNumber(s, 0) == Lexed(NumberToken("4.3"), 3);
  }

  lemma RejectsTwoPointsStep3(s: string)
    requires s == "4.3." + "1"
    ensures Lex(s, 0) == Lexed(NumberToken("4.3"), 3)
  {
    RejectsTwoPointsStep1(s);
    RejectsTwoPointsStep2(s);
  }

  lemma RejectsTwoPointsStep4(s: string)
    requires s == "4.3." + "1"
    ensures ParseValue(s, 0, 0, false, false) == Parsed(Double("4.3"), 3)
  {
    assert SkipTrivia(s, 0) == 0;
    RejectsTwoPointsStep3(s);
    assert !IsDigit("4.3"[1]);
    assert DecodeNumber("4.3") == Double("4.3");
  }

  lemma RejectsTwoPointsStep5(s: string)
    requires s == "4.3." + "1"
    ensures LineColumn(s[..3]) == (1, 4)
  {
    assert LineColumn(s[..1]) == (1, 2);
    assert s[..2][..1] == s[..1];
    assert LineColumn(s[..2]) == (1, 3);
    assert s[..3][..2] == s[..2];
  }

  /** A number with a fractional exponent is refused. */
  lemma RejectsFractionalExponent(s: string)
    requires s == "4e3." + "1"
    ensures JsonToValue(s, false, false).Err?
  {
    assert SkipTrivia(s, 3) == 3;
    assert Lex(s, 3) == Lexed(InvalidToken(None), 3);
    RejectsFractionalExponentStep5(s);
    RejectsFractionalExponentStep4(s);
  }

  lemma RejectsFractionalExponentStep1(s: string)
    requires s == "4e3." + "1"
    ensures DigitRunEnd(s, 1) == 1 && DigitRunEnd(s, 0) == 1 && DigitRunEnd(s, 3) == 3 && DigitRunEnd(s, 2) == 3 && ExponentEnd(s, 1) == Some(3)
  {
    assert DigitRunEnd(s, 1) == 1;
    assert DigitRunEnd(s, 0) == 1;
    assert DigitRunEnd(s, 3) == 3;
    assert DigitRunEnd(s, 2) == 3;
    assert ExponentEnd(s, 1) == Some(3);
  }

  lemma RejectsFractionalExponentStep2(s: string)
    requires s == "4e3." + "1"
    ensures s[0..3] == "4e3" && LexNumber(s, 0) == Lexed(NumberToken("4e3"), 3)
  {
    RejectsFractionalExponentStep1(s);
    assert s[0..3] == "4e3";
    assert LexNumber(s, 0) == Lexed(NumberToken("4e3"), 3);
  }

  lemma RejectsFractionalExponentStep3(s: string)
    requires s == "4e3." + "1"
    ensures Lex(s, 0) == Lexed(NumberToken("4e3"), 3)
  {
    RejectsFractionalExponentStep1(s);
    RejectsFractionalExponentStep2(s);
  }

  lemma RejectsFractionalExponentStep4(s: string)
    requires s == "4e3." + "1"
    ensures ParseValue(s, 0, 0, false, false) == Parsed(Double("4e3"), 3)
  {
    assert SkipTrivia(s, 0) == 0;
    RejectsFractionalExponentStep3(s);
    assert !IsDigit("4e3"[1]);
    assert DecodeNumber("4e3") == Double("4e3");
  }

  lemma RejectsFractionalExponentStep5(s: string)
    requires s == "4e3." + "1"
    ensures LineColumn(s[..3]) == (1, 4)
  {
    assert LineColumn(s[..1]) == (1, 2);
    assert s[..2][..1] == s[..1];
    assert LineColumn(s[..2]) == (1, 3);
    assert s[..3][..2] == s[..2];
  }

  /** A plain string is read as its characters. */
  lemma HelloWorld(s: string)
    requires s == "\"hel" + "lo w" + "orld" + "\""
    ensures JsonToValue(s, false, false) == Ok(Str([104, 101, 108, 108, 111, 32, 119, 111, 114, 108, 100]))
  {
    assert SkipTrivia(s, 13) == 13;
    assert Lex(s, 13) == Lexed(EndOfInput, 13);
    HelloWorldStep11(s);
  }

  lemma HelloWorldStep1(s: string)
    requires s == "\"hel" + "lo w" + "orld" + "\""
    ensures LexString(s, 0, 12, [104, 101, 108, 108, 111, 32, 119, 111, 114, 108, 100]) == Lexed(StringToken([104, 101, 108, 108, 111, 32, 119, 111, 114, 108, 100]), 13)
  {
  }

  lemma HelloWorldStep2(s: string)
    requires s == "\"hel" + "lo w" + "orld" + "\""
    ensures [104, 101, 108, 108, 111, 32, 119] + [111] == [104, 101, 108, 108, 111, 32, 119, 111] && [104, 101, 108, 108, 111, 32, 119, 111] + [114] == [104, 101, 108, 108, 111, 32, 119, 111, 114] && [104, 101, 108, 108, 111, 32, 119, 111, 114] + [108] == [104, 101, 108, 108, 111, 32, 119, 111, 114, 108] && [104, 101, 108, 108, 111, 32, 119, 111, 114, 108] + [100] == [104, 101, 108, 108, 111, 32, 119, 111, 114, 108, 100] && LexString(s, 0, 12, [104, 101, 108, 108, 111, 32, 119, 111, 114, 108, 100]) == Lexed(StringToken([104, 101, 108, 108, 111, 32, 119, 111, 114, 108, 100]), 13)
  {
    assert [104, 101, 108, 108, 111, 32, 119] + [111] == [104, 101, 108, 108, 111, 32, 119, 111];
    assert [104, 101, 108, 108, 111, 32, 119, 111] + [114] == [104, 101, 108, 108, 111, 32, 119, 111, 114];
    assert [104, 101, 108, 108, 111, 32, 119, 111, 114] + [108] == [104, 101, 108, 108, 111, 32, 119, 111, 114, 108];
    assert [104, 101, 108, 108, 111, 32, 119, 111, 114, 108] + [100] == [104, 101, 108, 108, 111, 32, 119, 111, 114, 108, 100];
    HelloWorldStep1(s);
  }

  lemma HelloWorldStep3(s: string)
    requires s == "\"hel" + "lo w" + "orld" + "\""
    ensures LexString(s, 0, 11, [104, 101, 108, 108, 111, 32, 119, 111, 114, 108]) == Lexed(StringToken([104, 101, 108, 108, 111, 32, 119, 111, 114, 108, 100]), 13) && LexString(s, 0, 10, [104, 101, 108, 108, 111, 32, 119, 111, 114]) == Lexed(StringToken([104, 101, 108, 108, 111, 32, 119, 111, 114, 108, 100]), 13) && LexString(s, 0, 9, [104, 101, 108, 108, 111, 32, 119, 111]) == Lexed(StringToken([104, 101, 108, 108, 111, 32, 119, 111, 114, 108, 100]), 13)
  {
    HelloWorldStep2(s);
    assert LexString(s, 0, 11, [104, 101, 108, 108, 111, 32, 119, 111, 114, 108]) == Lexed(StringToken([104, 101, 108, 108, 111, 32, 119, 111, 114, 108, 100]), 13);
    assert LexString(s, 0, 10, [104, 101, 108, 108, 111, 32, 119, 111, 114]) == Lexed(StringToken([104, 101, 108, 108, 111, 32, 119, 111, 114, 108, 100]), 13);
    assert LexString(s, 0, 9, [104, 101, 108, 108, 111, 32, 119, 111]) == Lexed(StringToken([104, 101, 108, 108, 111, 32, 119, 111, 114, 108, 100]), 13);
  }

  lemma HelloWorldStep4(s: string)
    requires s == "\"hel" + "lo w" + "orld" + "\""
    ensures LexString(s, 0, 8, [104, 101, 108, 108, 111, 32, 119]) == Lexed(StringToken([104, 101, 108, 108, 111, 32, 119, 111, 114, 108, 100]), 13)
  {
    HelloWorldStep2(s);
    HelloWorldStep3(s);
  }

  lemma HelloWorldStep5(s: string)
    requires s == "\"hel" + "lo w" + "orld" + "\""
    ensures [104, 101, 108] + [108] == [104, 101, 108, 108] && [104, 101, 108, 108] + [111] == [104, 101, 108, 108, 111] && [104, 101, 108, 108, 111] + [32] == [104, 101, 108, 108, 111, 32] && [104, 101, 108, 108, 111, 32] + [119] == [104, 101, 108, 108, 111, 32, 119] && LexString(s, 0, 8, [104, 101, 108, 108, 111, 32, 119]) == Lexed(StringToken([104, 101, 108, 108, 111, 32, 119, 111, 114, 108, 100]), 13)
  {
    assert [104, 101, 108] + [108] == [104, 101, 108, 108];
    assert [104, 101, 108, 108] + [111] == [104, 101, 108, 108, 111];
    assert [104, 101, 108, 108, 111] + [32] == [104, 101, 108, 108, 111, 32];
    assert [104, 101, 108, 108, 111, 32] + [119] == [104, 101, 108, 108, 111, 32, 119];
    HelloWorldStep4(s);
  }

  lemma HelloWorldStep6(s: string)
    requires s == "\"hel" + "lo w" + "orld" + "\""
    ensures LexString(s, 0, 7, [104, 101, 108, 108, 111, 32]) == Lexed(StringToken([104, 101, 108, 108, 111, 32, 119, 111, 114, 108, 100]), 13) && LexString(s, 0, 6, [104, 101, 108, 108, 111]) == Lexed(StringToken([104, 101, 108, 108, 111, 32, 119, 111, 114, 108, 100]), 13) && LexString(s, 0, 5, [104, 101, 108, 108]) == Lexed(StringToken([104, 101, 108, 108, 111, 32, 119, 111, 114, 108, 100]), 13)
  {
    HelloWorldStep5(s);
    assert LexString(s, 0, 7, [104, 101, 108, 108, 111, 32]) == Lexed(StringToken([104, 101, 108, 108, 111, 32, 119, 111, 114, 108, 100]), 13);
    assert LexString(s, 0, 6, [104, 101, 108, 108, 111]) == Lexed(StringToken([104, 101, 108, 108, 111, 32, 119, 111, 114, 108, 100]), 13);
    assert LexString(s, 0, 5, [104, 101, 108, 108]) == Lexed(StringToken([104, 101, 108, 108, 111, 32, 119, 111, 114, 108, 100]), 13);
  }

  lemma HelloWorldStep7(s: string)
    requires s == "\"hel" + "lo w" + "orld" + "\""
    ensures LexString(s, 0, 4, [104, 101, 108]) == Lexed(StringToken([104, 101, 108, 108, 111, 32, 119, 111, 114, 108, 100]), 13)
  {
    HelloWorldStep5(s);
    HelloWorldStep6(s);
  }

  lemma HelloWorldStep8(s: string)
    requires s == "\"hel" + "lo w" + "orld" + "\""
    ensures [] + [104] == [104] && [104] + [101] == [104, 101] && [104, 101] + [108] == [104, 101, 108] && LexString(s, 0, 4, [104, 101, 108]) == Lexed(StringToken([104, 101, 108, 108, 111, 32, 119, 111, 114, 108, 100]), 13) && LexString(s, 0, 3, [104, 101]) == Lexed(StringToken([104, 101, 108, 108, 111, 32, 119, 111, 114, 108, 100]), 13)
  {
    assert [] + [104] == [104];
    assert [104] + [101] == [104, 101];
    assert [104, 101] + [108] == [104, 101, 108];
    HelloWorldStep7(s);
    assert LexString(s, 0, 3, [104, 101]) == Lexed(StringToken([104, 101, 108, 108, 111, 32, 119, 111, 114, 108, 100]), 13);
  }

  lemma HelloWorldStep9(s: string)
    requires s == "\"hel" + "lo w" + "orld" + "\""
    ensures LexString(s, 0, 2, [104]) == Lexed(StringToken([104, 101, 108, 108, 111, 32, 119, 111, 114, 108, 100]), 13) && LexString(s, 0, 1, []) == Lexed(StringToken([104, 101, 108, 108, 111, 32, 119, 111, 114, 108, 100]), 13)
  {
    HelloWorldStep8(s);
    assert LexString(s, 0, 2, [104]) == Lexed(StringToken([104, 101, 108, 108, 111, 32, 119, 111, 114, 108, 100]), 13);
    assert LexString(s, 0, 1, []) == Lexed(StringToken([104, 101, 108, 108, 111, 32, 119, 111, 114, 108, 100]), 13);
  }

  lemma HelloWorldStep10(s: string)
    requires s == "\"hel" + "lo w" + "orld" + "\""
    ensures Lex(s, 0) == Lexed(StringToken([104, 101, 108, 108, 111, 32, 119, 111, 114, 108, 100]), 13)
  {
    HelloWorldStep8(s);
    HelloWorldStep9(s);
  }

  lemma HelloWorldStep11(s: string)
    requires s == "\"hel" + "lo w" + "orld" + "\""
    ensures ParseValue(s, 0, 0, false, false) == Parsed(Str([104, 101, 108, 108, 111, 32, 119, 111, 114, 108, 100]), 13)
  {
    assert SkipTrivia(s, 0) == 0;
    HelloWorldStep10(s);
  }

  /** An empty string is read. */
  lemma EmptyString(s: string)
    requires s == "\"\""
    ensures JsonToValue(s, false, false) == Ok(Str([]))
  {
    assert SkipTrivia(s, 2) == 2;
    assert Lex(s, 2) == Lexed(EndOfInput, 2);
    EmptyStringStep2(s);
  }

  lemma EmptyStringStep1(s: string)
    requires s == "\"\""
    ensures Lex(s, 0) == Lexed(StringToken([]), 2)
  {
    assert LexString(s, 0, 1, []) == Lexed(StringToken([]), 2);
  }

  lemma EmptyStringStep2(s: string)
    requires s == "\"\""
    ensures ParseValue(s, 0, 0, false, false) == Parsed(Str([]), 2)
  {
    assert SkipTrivia(s, 0) == 0;
    EmptyStringStep1(s);
  }

  /** The one-character escapes, including the vertical tab, decode to their characters. */
  lemma BasicEscapes(s: string)
    requires s == "\" \\\"" + "\\\\\\/" + "\\b\\f" + "\\n\\r" + "\\t\\v" + "\""
    ensures JsonToValue(s, false, false) == Ok(Str([32, 34, 92, 47, 8, 12, 10, 13, 9, 11]))
  {
    assert SkipTrivia(s, 21) == 21;
    assert Lex(s, 21) == Lexed(EndOfInput, 21);
    BasicEscapesStep7(s);
  }

  lemma BasicEscapesStep1(s: string)
    requires s == "\" \\\"" + "\\\\\\/" + "\\b\\f" + "\\n\\r" + "\\t\\v" + "\""
    ensures LexString(s, 0, 20, [32, 34, 92, 47, 8, 12, 10, 13, 9, 11]) == Lexed(StringToken([32, 34, 92, 47, 8, 12, 10, 13, 9, 11]), 21)
  {
  }

  lemma BasicEscapesStep2(s: string)
    requires s == "\" \\\"" + "\\\\\\/" + "\\b\\f" + "\\n\\r" + "\\t\\v" + "\""
    ensures LexString(s, 0, 16, [32, 34, 92, 47, 8, 12, 10, 13]) == Lexed(StringToken([32, 34, 92, 47, 8, 12, 10, 13, 9, 11]), 21)
  {
    assert [32, 34, 92, 47, 8, 12, 10, 13] + [9] == [32, 34, 92, 47, 8, 12, 10, 13, 9];
    assert [32, 34, 92, 47, 8, 12, 10, 13, 9] + [11] == [32, 34, 92, 47, 8, 12, 10, 13, 9, 11];
    BasicEscapesStep1(s);
    assert LexString(s, 0, 18, [32, 34, 92, 47, 8, 12, 10, 13, 9]) == Lexed(StringToken([32, 34, 92, 47, 8, 12, 10, 13, 9, 11]), 21);
  }

  lemma BasicEscapesStep3(s: string)
    requires s == "\" \\\"" + "\\\\\\/" + "\\b\\f" + "\\n\\r" + "\\t\\v" + "\""
    ensures LexString(s, 0, 12, [32, 34, 92, 47, 8, 12]) == Lexed(StringToken([32, 34, 92, 47, 8, 12, 10, 13, 9, 11]), 21)
  {
    assert [32, 34, 92, 47, 8, 12] + [10] == [32, 34, 92, 47, 8, 12, 10];
    assert [32, 34, 92, 47, 8, 12, 10] + [13] == [32, 34, 92, 47, 8, 12, 10, 13];
    BasicEscapesStep2(s);
    assert LexString(s, 0, 14, [32, 34, 92, 47, 8, 12, 10]) == Lexed(StringToken([32, 34, 92, 47, 8, 12, 10, 13, 9, 11]), 21);
  }

  lemma BasicEscapesStep4(s: string)
    requires s == "\" \\\"" + "\\\\\\/" + "\\b\\f" + "\\n\\r" + "\\t\\v" + "\""
    ensures LexString(s, 0, 8, [32, 34, 92, 47]) == Lexed(StringToken([32, 34, 92, 47, 8, 12, 10, 13, 9, 11]), 21)
  {
    assert [32, 34, 92, 47] + [8] == [32, 34, 92, 47, 8];
    assert [32, 34, 92, 47, 8] + [12] == [32, 34, 92, 47, 8, 12];
    BasicEscapesStep3(s);
    assert LexString(s, 0, 10, [32, 34, 92, 47, 8]) == Lexed(StringToken([32, 34, 92, 47, 8, 12, 10, 13, 9, 11]), 21);
  }

  lemma BasicEscapesStep5(s: string)
    requires s == "\" \\\"" + "\\\\\\/" + "\\b\\f" + "\\n\\r" + "\\t\\v" + "\""
    ensures LexString(s, 0, 4, [32, 34]) == Lexed(StringToken([32, 34, 92, 47, 8, 12, 10, 13, 9, 11]), 21)
  {
    assert [32, 34] + [92] == [32, 34, 92];
    assert [32, 34, 92] + [47] == [32, 34, 92, 47];
    BasicEscapesStep4(s);
    assert LexString(s, 0, 6, [32, 34, 92]) == Lexed(StringToken([32, 34, 92, 47, 8, 12, 10, 13, 9, 11]), 21);
  }

  lemma BasicEscapesStep6(s: string)
    requires s == "\" \\\"" + "\\\\\\/" + "\\b\\f" + "\\n\\r" + "\\t\\v" + "\""
    ensures Lex(s, 0) == Lexed(StringToken([32, 34, 92, 47, 8, 12, 10, 13, 9, 11]), 21)
  {
    assert [] + [32] == [32];
    assert [32] + [34] == [32, 34];
    BasicEscapesStep5(s);
    assert LexString(s, 0, 2, [32]) == Lexed(StringToken([32, 34, 92, 47, 8, 12, 10, 13, 9, 11]), 21);
    assert LexString(s, 0, 1, []) == Lexed(StringToken([32, 34, 92, 47, 8, 12, 10, 13, 9, 11]), 21);
  }

  lemma BasicEscapesStep7(s: string)
    requires s == "\" \\\"" + "\\\\\\/" + "\\b\\f" + "\\n\\r" + "\\t\\v" + "\""
    ensures ParseValue(s, 0, 0, false, false) == Parsed(Str([32, 34, 92, 47, 8, 12, 10, 13, 9, 11]), 21)
  {
    assert SkipTrivia(s, 0) == 0;
    BasicEscapesStep6(s);
  }

  /** Hex and unicode escapes decode to one code unit each, the null character included. */
  lemma HexAndUnicodeEscapes(s: string)
    requires s == "\"\\x4" + "1\\x0" + "0\\u1" + "234\""
    ensures JsonToValue(s, false, false) == Ok(Str([65, 0, 4660]))
  {
    assert SkipTrivia(s, 16) == 16;
    assert Lex(s, 16) == Lexed(EndOfInput, 16);
    HexAndUnicodeEscapesStep8(s);
  }

  lemma HexAndUnicodeEscapesStep1(s: string)
    requires s == "\"\\x4" + "1\\x0" + "0\\u1" + "234\""
    ensures IsHexDigit(At(s, 3)) && IsHexDigit(At(s, 4)) && HexRun(s, 3, 2) && HexNumber(s, 3, 1) == 4 && HexNumber(s, 3, 2) == 65
  {
    assert IsHexDigit(At(s, 3));
    assert IsHexDigit(At(s, 4));
    assert HexRun(s, 3, 2);
    assert HexNumber(s, 3, 1) == 4;
    assert HexNumber(s, 3, 2) == 65;
  }

  lemma HexAndUnicodeEscapesStep2(s: string)
    requires s == "\"\\x4" + "1\\x0" + "0\\u1" + "234\""
    ensures [] + [65] == [65] && IsHexDigit(At(s, 7)) && IsHexDigit(At(s, 8)) && HexRun(s, 7, 2) && HexNumber(s, 7, 1) == 0
  {
    HexAndUnicodeEscapesStep1(s);
    assert [] + [65] == [65];
    assert IsHexDigit(At(s, 7));
    assert IsHexDigit(At(s, 8));
    assert HexRun(s, 7, 2);
    assert HexNumber(s, 7, 1) == 0;
  }

  lemma HexAndUnicodeEscapesStep3(s: string)
    requires s == "\"\\x4" + "1\\x0" + "0\\u1" + "234\""
    ensures HexNumber(s, 7, 2) == 0 && [65] + [0] == [65, 0] && IsHexDigit(At(s, 11)) && IsHexDigit(At(s, 12)) && IsHexDigit(At(s, 13))
  {
    HexAndUnicodeEscapesStep1(s);
    HexAndUnicodeEscapesStep2(s);
    assert HexNumber(s, 7, 2) == 0;
    assert [65] + [0] == [65, 0];
    assert IsHexDigit(At(s, 11));
    assert IsHexDigit(At(s, 12));
    assert IsHexDigit(At(s, 13));
  }

  lemma HexAndUnicodeEscapesStep4(s: string)
    requires s == "\"\\x4" + "1\\x0" + "0\\u1" + "234\""
    ensures IsHexDigit(At(s, 14)) && HexRun(s, 11, 4) && HexNumber(s, 11, 1) == 1 && HexNumber(s, 11, 2) == 18 && HexNumber(s, 11, 3) == 291
  {
    HexAndUnicodeEscapesStep1(s);
    HexAndUnicodeEscapesStep2(s);
    HexAndUnicodeEscapesStep3(s);
    assert IsHexDigit(At(s, 14));
    assert HexRun(s, 11, 4);
    assert HexNumber(s, 11, 1) == 1;
    assert HexNumber(s, 11, 2) == 18;
    assert HexNumber(s, 11, 3) == 291;
  }

  lemma HexAndUnicodeEscapesStep5(s: string)
    requires s == "\"\\x4" + "1\\x0" + "0\\u1" + "234\""
    ensures HexNumber(s, 11, 4) == 4660 && [65, 0] + [4660] == [65, 0, 4660] && LexString(s, 0, 15, [65, 0, 4660]) == Lexed(StringToken([65, 0, 4660]), 16) && LexString(s, 0, 9, [65, 0]) == Lexed(StringToken([65, 0, 4660]), 16) && LexString(s, 0, 5, [65]) == Lexed(StringToken([65, 0, 4660]), 16)
  {
    HexAndUnicodeEscapesStep1(s);
    HexAndUnicodeEscapesStep2(s);
    HexAndUnicodeEscapesStep3(s);
    HexAndUnicodeEscapesStep4(s);
    assert HexNumber(s, 11, 4) == 4660;
    assert [65, 0] + [4660] == [65, 0, 4660];
    assert LexString(s, 0, 15, [65, 0, 4660]) == Lexed(StringToken([65, 0, 4660]), 16);
    assert LexString(s, 0, 9, [65, 0]) == Lexed(StringToken([65, 0, 4660]), 16);
    assert LexString(s, 0, 5, [65]) == Lexed(StringToken([65, 0, 4660]), 16);
  }

  lemma HexAndUnicodeEscapesStep6(s: string)
    requires s == "\"\\x4" + "1\\x0" + "0\\u1" + "234\""
    ensures LexString(s, 0, 1, []) == Lexed(StringToken([65, 0, 4660]), 16)
  {
    HexAndUnicodeEscapesStep1(s);
    HexAndUnicodeEscapesStep2(s);
    HexAndUnicodeEscapesStep3(s);
    HexAndUnicodeEscapesStep4(s);
    HexAndUnicodeEscapesStep5(s);
    assert LexString(s, 0, 1, []) == Lexed(StringToken([65, 0, 4660]), 16);
  }

  lemma HexAndUnicodeEscapesStep7(s: string)
    requires s == "\"\\x4" + "1\\x0" + "0\\u1" + "234\""
    ensures Lex(s, 0) == Lexed(StringToken([65, 0, 4660]), 16)
  {
    HexAndUnicodeEscapesStep1(s);
    HexAndUnicodeEscapesStep2(s);
    HexAndUnicodeEscapesStep3(s);
    HexAndUnicodeEscapesStep4(s);
    HexAndUnicodeEscapesStep5(s);
    HexAndUnicodeEscapesStep6(s);
  }

  lemma HexAndUnicodeEscapesStep8(s: string)
    requires s == "\"\\x4" + "1\\x0" + "0\\u1" + "234\""
    ensures ParseValue(s, 0, 0, false, false) == Parsed(Str([65, 0, 4660]), 16)
  {
    assert SkipTrivia(s, 0) == 0;
    HexAndUnicodeEscapesStep7(s);
  }

  /** A string without its closing quote is refused. */
  lemma NoClosingQuote(s: string)
    requires s == "\"no " + "clos" + "ing " + "quot" + "e"
    ensures JsonToValue(s, false, false).Err?
  {
    NoClosingQuoteStep13(s);
  }

  lemma NoClosingQuoteStep1(s: string)
    requires s == "\"no " + "clos" + "ing " + "quot" + "e"
    ensures LexString(s, 0, 16, [110, 111, 32, 99, 108, 111, 115, 105, 110, 103, 32, 113, 117, 111, 116]) == Lexed(InvalidToken(None), 0)
  {
    assert [110, 111, 32, 99, 108, 111, 115, 105, 110, 103, 32, 113, 117, 111, 116] + [101] == [110, 111, 32, 99, 108, 111, 115, 105, 110, 103, 32, 113, 117, 111, 116, 101];
    assert LexString(s, 0, 17, [110, 111, 32, 99, 108, 111, 115, 105, 110, 103, 32, 113, 117, 111, 116, 101]) == Lexed(InvalidToken(None), 0);
  }

  lemma NoClosingQuoteStep2(s: string)
    requires s == "\"no " + "clos" + "ing " + "quot" + "e"
    ensures [110, 111, 32, 99, 108, 111, 115, 105, 110, 103, 32] + [113] == [110, 111, 32, 99, 108, 111, 115, 105, 110, 103, 32, 113] && [110, 111, 32, 99, 108, 111, 115, 105, 110, 103, 32, 113] + [117] == [110, 111, 32, 99, 108, 111, 115, 105, 110, 103, 32, 113, 117] && [110, 111, 32, 99, 108, 111, 115, 105, 110, 103, 32, 113, 117] + [111] == [110, 111, 32, 99, 108, 111, 115, 105, 110, 103, 32, 113, 117, 111] && [110, 111, 32, 99, 108, 111, 115, 105, 110, 103, 32, 113, 117, 111] + [116] == [110, 111, 32, 99, 108, 111, 115, 105, 110, 103, 32, 113, 117, 111, 116] && LexString(s, 0, 16, [110, 111, 32, 99, 108, 111, 115, 105, 110, 103, 32, 113, 117, 111, 116]) == Lexed(InvalidToken(None), 0)
  {
    assert [110, 111, 32, 99, 108, 111, 115, 105, 110, 103, 32] + [113] == [110, 111, 32, 99, 108, 111, 115, 105, 110, 103, 32, 113];
    assert [110, 111, 32, 99, 108, 111, 115, 105, 110, 103, 32, 113] + [117] == [110, 111, 32, 99, 108, 111, 115, 105, 110, 103, 32, 113, 117];
    assert [110, 111, 32, 99, 108, 111, 115, 105, 110, 103, 32, 113, 117] + [111] == [110, 111, 32, 99, 108, 111, 115, 105, 110, 103, 32, 113, 117, 111];
    assert [110, 111, 32, 99, 108, 111, 115, 105, 110, 103, 32, 113, 117, 111] + [116] == [110, 111, 32, 99, 108, 111, 115, 105, 110, 103, 32, 113, 117, 111, 116];
    NoClosingQuoteStep1(s);
  }

  lemma NoClosingQuoteStep3(s: string)
    requires s == "\"no " + "clos" + "ing " + "quot" + "e"
    ensures LexString(s, 0, 15, [110, 111, 32, 99, 108, 111, 115, 105, 110, 103, 32, 113, 117, 111]) == Lexed(InvalidToken(None), 0) && LexString(s, 0, 14, [110, 111, 32, 99, 108, 111, 115, 105, 110, 103, 32, 113, 117]) == Lexed(InvalidToken(None), 0) && LexString(s, 0, 13, [110, 111, 32, 99, 108, 111, 115, 105, 110, 103, 32, 113]) == Lexed(InvalidToken(None), 0)
  {
    NoClosingQuoteStep2(s);
    assert LexString(s, 0, 15, [110, 111, 32, 99, 108, 111, 115, 105, 110, 103, 32, 113, 117, 111]) == Lexed(InvalidToken(None), 0);
    assert LexString(s, 0, 14, [110, 111, 32, 99, 108, 111, 115, 105, 110, 103, 32, 113, 117]) == Lexed(InvalidToken(None), 0);
    assert LexString(s, 0, 13, [110, 111, 32, 99, 108, 111, 115, 105, 110, 103, 32, 113]) == Lexed(InvalidToken(None), 0);
  }

  lemma NoClosingQuoteStep4(s: string)
    requires s == "\"no " + "clos" + "ing " + "quot" + "e"
    ensures LexString(s, 0, 12, [110, 111, 32, 99, 108, 111, 115, 105, 110, 103, 32]) == Lexed(InvalidToken(None), 0)
  {
    NoClosingQuoteStep2(s);
    NoClosingQuoteStep3(s);
  }

  lemma NoClosingQuoteStep5(s: string)
    requires s == "\"no " + "clos" + "ing " + "quot" + "e"
    ensures [110, 111, 32, 99, 108, 111, 115] + [105] == [110, 111, 32, 99, 108, 111, 115, 105] && [110, 111, 32, 99, 108, 111, 115, 105] + [110] == [110, 111, 32, 99, 108, 111, 115, 105, 110] && [110, 111, 32, 99, 108, 111, 115, 105, 110] + [103] == [110, 111, 32, 99, 108, 111, 115, 105, 110, 103] && [110, 111, 32, 99, 108, 111, 115, 105, 110, 103] + [32] == [110, 111, 32, 99, 108, 111, 115, 105, 110, 103, 32] && LexString(s, 0, 12, [110, 111, 32, 99, 108, 111, 115, 105, 110, 103, 32]) == Lexed(InvalidToken(None), 0)
  {
    assert [110, 111, 32, 99, 108, 111, 115] + [105] == [110, 111, 32, 99, 108, 111, 115, 105];
    assert [110, 111, 32, 99, 108, 111, 115, 105] + [110] == [110, 111, 32, 99, 108, 111, 115, 105, 110];
    assert [110, 111, 32, 99, 108, 111, 115, 105, 110] + [103] == [110, 111, 32, 99, 108, 111, 115, 105, 110, 103];
    assert [110, 111, 32, 99, 108, 111, 115, 105, 110, 103] + [32] == [110, 111, 32, 99, 108, 111, 115, 105, 110, 103, 32];
    NoClosingQuoteStep4(s);
  }

  lemma NoClosingQuoteStep6(s: string)
    requires s == "\"no " + "clos" + "ing " + "quot" + "e"
    ensures LexString(s, 0, 11, [110, 111, 32, 99, 108, 111, 115, 105, 110, 103]) == Lexed(InvalidToken(None), 0) && LexString(s, 0, 10, [110, 111, 32, 99, 108, 111, 115, 105, 110]) == Lexed(InvalidToken(None), 0) && LexString(s, 0, 9, [110, 111, 32, 99, 108, 111, 115, 105]) == Lexed(InvalidToken(None), 0)
  {
    NoClosingQuoteStep5(s);
    assert LexString(s, 0, 11, [110, 111, 32, 99, 108, 111, 115, 105, 110, 103]) == Lexed(InvalidToken(None), 0);
    assert LexString(s, 0, 10, [110, 111, 32, 99, 108, 111, 115, 105, 110]) == Lexed(InvalidToken(None), 0);
    assert LexString(s, 0, 9, [110, 111, 32, 99, 108, 111, 115, 105]) == Lexed(InvalidToken(None), 0);
  }

  lemma NoClosingQuoteStep7(s: string)
    requires s == "\"no " + "clos" + "ing " + "quot" + "e"
    ensures LexString(s, 0, 8, [110, 111, 32, 99, 108, 111, 115]) == Lexed(InvalidToken(None), 0)
  {
    NoClosingQuoteStep5(s);
    NoClosingQuoteStep6(s);
  }

  lemma NoClosingQuoteStep8(s: string)
    requires s == "\"no " + "clos" + "ing " + "quot" + "e"
    ensures [110, 111, 32] + [99] == [110, 111, 32, 99] && [110, 111, 32, 99] + [108] == [110, 111, 32, 99, 108] && [110, 111, 32, 99, 108] + [111] == [110, 111, 32, 99, 108, 111] && [110, 111, 32, 99, 108, 111] + [115] == [110, 111, 32, 99, 108, 111, 115] && LexString(s, 0, 8, [110, 111, 32, 99, 108, 111, 115]) == Lexed(InvalidToken(None), 0)
  {
    assert [110, 111, 32] + [99] == [110, 111, 32, 99];
    assert [110, 111, 32, 99] + [108] == [110, 111, 32, 99, 108];
    assert [110, 111, 32, 99, 108] + [111] == [110, 111, 32, 99, 108, 111];
    assert [110, 111, 32, 99, 108, 111] + [115] == [110, 111, 32, 99, 108, 111, 115];
    NoClosingQuoteStep7(s);
  }

  lemma NoClosingQuoteStep9(s: string)
    requires s == "\"no " + "clos" + "ing " + "quot" + "e"
    ensures LexString(s, 0, 7, [110, 111, 32, 99, 108, 111]) == Lexed(InvalidToken(None), 0) && LexString(s, 0, 6, [110, 111, 32, 99, 108]) == Lexed(InvalidToken(None), 0) && LexString(s, 0, 5, [110, 111, 32, 99]) == Lexed(InvalidToken(None), 0)
  {
    NoClosingQuoteStep8(s);
    assert LexString(s, 0, 7, [110, 111, 32, 99, 108, 111]) == Lexed(InvalidToken(None), 0);
    assert LexString(s, 0, 6, [110, 111, 32, 99, 108]) == Lexed(InvalidToken(None), 0);
    assert LexString(s, 0, 5, [110, 111, 32, 99]) == Lexed(InvalidToken(None), 0);
  }

  lemma NoClosingQuoteStep10(s: string)
    requires s == "\"no " + "clos" + "ing " + "quot" + "e"
    ensures LexString(s, 0, 4, [110, 111, 32]) == Lexed(InvalidToken(None), 0)
  {
    NoClosingQuoteStep8(s);
    NoClosingQuoteStep9(s);
  }

  lemma NoClosingQuoteStep11(s: string)
    requires s == "\"no " + "clos" + "ing " + "quot" + "e"
    ensures SkipTrivia(s, 0) == 0 && [] + [110] == [110] && [110] + [111] == [110, 111] && [110, 111] + [32] == [110, 111, 32] && LexString(s, 0, 4, [110, 111, 32]) == Lexed(InvalidToken(None), 0)
  {
    assert SkipTrivia(s, 0) == 0;
    assert [] + [110] == [110];
    assert [110] + [111] == [110, 111];
    assert [110, 111] + [32] == [110, 111, 32];
    NoClosingQuoteStep10(s);
  }

  lemma NoClosingQuoteStep12(s: string)
    requires s == "\"no " + "clos" + "ing " + "quot" + "e"
    ensures LexString(s, 0, 3, [110, 111]) == Lexed(InvalidToken(None), 0) && LexString(s, 0, 2, [110]) == Lexed(InvalidToken(None), 0) && LexString(s, 0, 1, []) == Lexed(InvalidToken(None), 0) && Lex(s, 0) == Lexed(InvalidToken(None), 0)
  {
    NoClosingQuoteStep11(s);
    assert LexString(s, 0, 3, [110, 111]) == Lexed(InvalidToken(None), 0);
    assert LexString(s, 0, 2, [110]) == Lexed(InvalidToken(None), 0);
    assert LexString(s, 0, 1, []) == Lexed(InvalidToken(None), 0);
    assert Lex(s, 0) == Lexed(InvalidToken(None), 0);
  }

  lemma NoClosingQuoteStep13(s: string)
    requires s == "\"no " + "clos" + "ing " + "quot" + "e"
    ensures ParseValue(s, 0, 0, false, false) == Failed(SyntaxError, 0)
  {
    NoClosingQuoteStep11(s);
    NoClosingQuoteStep12(s);
  }

  /** An unknown escape character is refused. */
  lemma InvalidEscapeChar(s: string)
    requires s == "\"\\z " + "inva" + "lid " + "esca" + "pe c" + "har\""
    ensures JsonToValue(s, false, false).Err?
  {
    InvalidEscapeCharStep2(s);
    InvalidEscapeCharStep1(s);
  }

  lemma InvalidEscapeCharStep1(s: string)
    requires s == "\"\\z " + "inva" + "lid " + "esca" + "pe c" + "har\""
    ensures ParseValue(s, 0, 0, false, false) == Failed(InvalidEscape, 2)
  {
    assert SkipTrivia(s, 0) == 0;
    assert LexString(s, 0, 1, []) == Lexed(InvalidToken(Some((InvalidEscape, 2))), 0);
    assert Lex(s, 0) == Lexed(InvalidToken(Some((InvalidEscape, 2))), 0);
  }

  lemma InvalidEscapeCharStep2(s: string)
    requires s == "\"\\z " + "inva" + "lid " + "esca" + "pe c" + "har\""
    ensures LineColumn(s[..2]) == (1, 3)
  {
    assert LineColumn(s[..1]) == (1, 2);
    assert s[..2][..1] == s[..1];
  }

  /** A hex escape with a non-hex digit is refused. */
  lemma InvalidHexCode(s: string)
    requires s == "\"\\xA" + "Q in" + "vali" + "d he" + "x co" + "de\""
    ensures JsonToValue(s, false, false).Err?
  {
    InvalidHexCodeStep2(s);
    InvalidHexCodeStep1(s);
  }

  lemma InvalidHexCodeStep1(s: string)
    requires s == "\"\\xA" + "Q in" + "vali" + "d he" + "x co" + "de\""
    ensures ParseValue(s, 0, 0, false, false) == Failed(InvalidEscape, 2)
  {
    assert SkipTrivia(s, 0) == 0;
    assert !IsHexDigit(At(s, 4));
    assert !HexRun(s, 3, 2);
    assert LexString(s, 0, 1, []) == Lexed(InvalidToken(Some((InvalidEscape, 2))), 0);
    assert Lex(s, 0) == Lexed(InvalidToken(Some((InvalidEscape, 2))), 0);
  }

  lemma InvalidHexCodeStep2(s: string)
    requires s == "\"\\xA" + "Q in" + "vali" + "d he" + "x co" + "de\""
    ensures LineColumn(s[..2]) == (1, 3)
  {
    assert LineColumn(s[..1]) == (1, 2);
    assert s[..2][..1] == s[..1];
  }

  /** Text that is not a value is refused. */
  lemma UnquotedText(s: string)
    requires s == "not " + "enou" + "gh h" + "ex c" + "hars" + "\\x1\""
    ensures JsonToValue(s, false, false).Err?
  {
    UnquotedTextStep1(s);
  }

  lemma UnquotedTextStep1(s: string)
    requires s == "not " + "enou" + "gh h" + "ex c" + "hars" + "\\x1\""
    ensures ParseValue(s, 0, 0, false, false) == Failed(SyntaxError, 0)
  {
    assert SkipTrivia(s, 0) == 0;
    assert s[0..4] == "not ";
    assert Lex(s, 0) == Lexed(InvalidToken(None), 0);
  }

  /** A unicode escape with three digits is refused. */
  lemma ShortUnicodeEscape(s: string)
    requires s == "\"not" + " eno" + "ugh " + "esca" + "pe c" + "hars" + "\\u12" + "3\""
    ensures JsonToValue(s, false, false).Err?
  {
    ShortUnicodeEscapeStep22(s);
    ShortUnicodeEscapeStep25(s);
    ShortUnicodeEscapeStep28(s);
    ShortUnicodeEscapeStep31(s);
    ShortUnicodeEscapeStep34(s);
    ShortUnicodeEscapeStep19(s);
  }

  lemma ShortUnicodeEscapeStep1(s: string)
    requires s == "\"not" + " eno" + "ugh " + "esca" + "pe c" + "hars" + "\\u12" + "3\""
    ensures LexString(s, 0, 24, [110, 111, 116, 32, 101, 110, 111, 117, 103, 104, 32, 101, 115, 99, 97, 112, 101, 32, 99, 104, 97, 114, 115]) == Lexed(InvalidToken(Some((InvalidEscape, 25))), 0)
  {
    assert !IsHexDigit(At(s, 29));
    assert !HexRun(s, 26, 4);
  }

  lemma ShortUnicodeEscapeStep2(s: string)
    requires s == "\"not" + " eno" + "ugh " + "esca" + "pe c" + "hars" + "\\u12" + "3\""
    ensures [110, 111, 116, 32, 101, 110, 111, 117, 103, 104, 32, 101, 115, 99, 97, 112, 101, 32, 99] + [104] == [110, 111, 116, 32, 101, 110, 111, 117, 103, 104, 32, 101, 115, 99, 97, 112, 101, 32, 99, 104] && [110, 111, 116, 32, 101, 110, 111, 117, 103, 104, 32, 101, 115, 99, 97, 112, 101, 32, 99, 104] + [97] == [110, 111, 116, 32, 101, 110, 111, 117, 103, 104, 32, 101, 115, 99, 97, 112, 101, 32, 99, 104, 97] && [110, 111, 116, 32, 101, 110, 111, 117, 103, 104, 32, 101, 115, 99, 97, 112, 101, 32, 99, 104, 97] + [114] == [110, 111, 116, 32, 101, 110, 111, 117, 103, 104, 32, 101, 115, 99, 97, 112, 101, 32, 99, 104, 97, 114] && [110, 111, 116, 32, 101, 110, 111, 117, 103, 104, 32, 101, 115, 99, 97, 112, 101, 32, 99, 104, 97, 114] + [115] == [110, 111, 116, 32, 101, 110, 111, 117, 103, 104, 32, 101, 115, 99, 97, 112, 101, 32, 99, 104, 97, 114, 115] && LexString(s, 0, 24, [110, 111, 116, 32, 101, 110, 111, 117, 103, 104, 32, 101, 115, 99, 97, 112, 101, 32, 99, 104, 97, 114, 115]) == Lexed(InvalidToken(Some((InvalidEscape, 25))), 0)
  {
    assert [110, 111, 116, 32, 101, 110, 111, 117, 103, 104, 32, 101, 115, 99, 97, 112, 101, 32, 99] + [104] == [110, 111, 116, 32, 101, 110, 111, 117, 103, 104, 32, 101, 115, 99, 97, 112, 101, 32, 99, 104];
    assert [110, 111, 116, 32, 101, 110, 111, 117, 103, 104, 32, 101, 115, 99, 97, 112, 101, 32, 99, 104] + [97] == [110, 111, 116, 32, 101, 110, 111, 117, 103, 104, 32, 101, 115, 99, 97, 112, 101, 32, 99, 104, 97];
    assert [110, 111, 116, 32, 101, 110, 111, 117, 103, 104, 32, 101, 115, 99, 97, 112, 101, 32, 99, 104, 97] + [114] == [110, 111, 116, 32, 101, 110, 111, 117, 103, 104, 32, 101, 115, 99, 97, 112, 101, 32, 99, 104, 97, 114];
    assert [110, 111, 116, 32, 101, 110, 111, 117, 103, 104, 32, 101, 115, 99, 97, 112, 101, 32, 99, 104, 97, 114] + [115] == [110, 111, 116, 32, 101, 110, 111, 117, 103, 104, 32, 101, 115, 99, 97, 112, 101, 32, 99, 104, 97, 114, 115];
    ShortUnicodeEscapeStep1(s);
  }

  lemma ShortUnicodeEscapeStep3(s: string)
    requires s == "\"not" + " eno" + "ugh " + "esca" + "pe c" + "hars" + "\\u12" + "3\""
    ensures LexString(s, 0, 23, [110, 111, 116, 32, 101, 110, 111, 117, 103, 104, 32, 101, 115, 99, 97, 112, 101, 32, 99, 104, 97, 114]) == Lexed(InvalidToken(Some((InvalidEscape, 25))), 0) && LexString(s, 0, 22, [110, 111, 116, 32, 101, 110, 111, 117, 103, 104, 32, 101, 115, 99, 97, 112, 101, 32, 99, 104, 97]) == Lexed(InvalidToken(Some((InvalidEscape, 25))), 0) && LexString(s, 0, 21, [110, 111, 116, 32, 101, 110, 111, 117, 103, 104, 32, 101, 115, 99, 97, 112, 101, 32, 99, 104]) == Lexed(InvalidToken(Some((InvalidEscape, 25))), 0)
  {
    ShortUnicodeEscapeStep2(s);
    assert LexString(s, 0, 23, [110, 111, 116, 32, 101, 110, 111, 117, 103, 104, 32, 101, 115, 99, 97, 112, 101, 32, 99, 104, 97, 114]) == Lexed(InvalidToken(Some((InvalidEscape, 25))), 0);
    assert LexString(s, 0, 22, [110, 111, 116, 32, 101, 110, 111, 117, 103, 104, 32, 101, 115, 99, 97, 112, 101, 32, 99, 104, 97]) == Lexed(InvalidToken(Some((InvalidEscape, 25))), 0);
    assert LexString(s, 0, 21, [110, 111, 116, 32, 101, 110, 111, 117, 103, 104, 32, 101, 115, 99, 97, 112, 101, 32, 99, 104]) == Lexed(InvalidToken(Some((InvalidEscape, 25))), 0);
  }

  lemma ShortUnicodeEscapeStep4(s: string)
    requires s == "\"not" + " eno" + "ugh " + "esca" + "pe c" + "hars" + "\\u12" + "3\""
    ensures LexString(s, 0, 20, [110, 111, 116, 32, 101, 110, 111, 117, 103, 104, 32, 101, 115, 99, 97, 112, 101, 32, 99]) == Lexed(InvalidToken(Some((InvalidEscape, 25))), 0)
  {
    ShortUnicodeEscapeStep2(s);
    ShortUnicodeEscapeStep3(s);
  }

  lemma ShortUnicodeEscapeStep5(s: string)
    requires s == "\"not" + " eno" + "ugh " + "esca" + "pe c" + "hars" + "\\u12" + "3\""
    ensures [110, 111, 116, 32, 101, 110, 111, 117, 103, 104, 32, 101, 115, 99, 97] + [112] == [110, 111, 116, 32, 101, 110, 111, 117, 103, 104, 32, 101, 115, 99, 97, 112] && [110, 111, 116, 32, 101, 110, 111, 117, 103, 104, 32, 101, 115, 99, 97, 112] + [101] == [110, 111, 116, 32, 101, 110, 111, 117, 103, 104, 32, 101, 115, 99, 97, 112, 101] && [110, 111, 116, 32, 101, 110, 111, 117, 103, 104, 32, 101, 115, 99, 97, 112, 101] + [32] == [110, 111, 116, 32, 101, 110, 111, 117, 103, 104, 32, 101, 115, 99, 97, 112, 101, 32] && [110, 111, 116, 32, 101, 110, 111, 117, 103, 104, 32, 101, 115, 99, 97, 112, 101, 32] + [99] == [110, 111, 116, 32, 101, 110, 111, 117, 103, 104, 32, 101, 115, 99, 97, 112, 101, 32, 99] && LexString(s, 0, 20, [110, 111, 116, 32, 101, 110, 111, 117, 103, 104, 32, 101, 115, 99, 97, 112, 101, 32, 99]) == Lexed(InvalidToken(Some((InvalidEscape, 25))), 0)
  {
    assert [110, 111, 116, 32, 101, 110, 111, 117, 103, 104, 32, 101, 115, 99, 97] + [112] == [110, 111, 116, 32, 101, 110, 111, 117, 103, 104, 32, 101, 115, 99, 97, 112];
    assert [110, 111, 116, 32, 101, 110, 111, 117, 103, 104, 32, 101, 115, 99, 97, 112] + [101] == [110, 111, 116, 32, 101, 110, 111, 117, 103, 104, 32, 101, 115, 99, 97, 112, 101];
    assert [110, 111, 116, 32, 101, 110, 111, 117, 103, 104, 32, 101, 115, 99, 97, 112, 101] + [32] == [110, 111, 116, 32, 101, 110, 111, 117, 103, 104, 32, 101, 115, 99, 97, 112, 101, 32];
    assert [110, 111, 116, 32, 101, 110, 111, 117, 103, 104, 32, 101, 115, 99, 97, 112, 101, 32] + [99] == [110, 111, 116, 32, 101, 110, 111, 117, 103, 104, 32, 101, 115, 99, 97, 112, 101, 32, 99];
    ShortUnicodeEscapeStep4(s);
  }

  lemma ShortUnicodeEscapeStep6(s: string)
    requires s == "\"not" + " eno" + "ugh " + "esca" + "pe c" + "hars" + "\\u12" + "3\""
    ensures LexString(s, 0, 19, [110, 111, 116, 32, 101, 110, 111, 117, 103, 104, 32, 101, 115, 99, 97, 112, 101, 32]) == Lexed(InvalidToken(Some((InvalidEscape, 25))), 0) && LexString(s, 0, 18, [110, 111, 116, 32, 101, 110, 111, 117, 103, 104, 32, 101, 115, 99, 97, 112, 101]) == Lexed(InvalidToken(Some((InvalidEscape, 25))), 0) && LexString(s, 0, 17, [110, 111, 116, 32, 101, 110, 111, 117, 103, 104, 32, 101, 115, 99, 97, 112]) == Lexed(InvalidToken(Some((InvalidEscape, 25))), 0)
  {
    ShortUnicodeEscapeStep5(s);
    assert LexString(s, 0, 19, [110, 111, 116, 32, 101, 110, 111, 117, 103, 104, 32, 101, 115, 99, 97, 112, 101, 32]) == Lexed(InvalidToken(Some((InvalidEscape, 25))), 0);
    assert LexString(s, 0, 18, [110, 111, 116, 32, 101, 110, 111, 117, 103, 104, 32, 101, 115, 99, 97, 112, 101]) == Lexed(InvalidToken(Some((InvalidEscape, 25))), 0);
    assert LexString(s, 0, 17, [110, 111, 116, 32, 101, 110, 111, 117, 103, 104, 32, 101, 115, 99, 97, 112]) == Lexed(InvalidToken(Some((InvalidEscape, 25))), 0);
  }

  lemma ShortUnicodeEscapeStep7(s: string)
    requires s == "\"not" + " eno" + "ugh " + "esca" + "pe c" + "hars" + "\\u12" + "3\""
    ensures LexString(s, 0, 16, [110, 111, 116, 32, 101, 110, 111, 117, 103, 104, 32, 101, 115, 99, 97]) == Lexed(InvalidToken(Some((InvalidEscape, 25))), 0)
  {
    ShortUnicodeEscapeStep5(s);
    ShortUnicodeEscapeStep6(s);
  }

  lemma ShortUnicodeEscapeStep8(s: string)
    requires s == "\"not" + " eno" + "ugh " + "esca" + "pe c" + "hars" + "\\u12" + "3\""
    ensures [110, 111, 116, 32, 101, 110, 111, 117, 103, 104, 32] + [101] == [110, 111, 116, 32, 101, 110, 111, 117, 103, 104, 32, 101] && [110, 111, 116, 32, 101, 110, 111, 117, 103, 104, 32, 101] + [115] == [110, 111, 116, 32, 101, 110, 111, 117, 103, 104, 32, 101, 115] && [110, 111, 116, 32, 101, 110, 111, 117, 103, 104, 32, 101, 115] + [99] == [110, 111, 116, 32, 101, 110, 111, 117, 103, 104, 32, 101, 115, 99] && [110, 111, 116, 32, 101, 110, 111, 117, 103, 104, 32, 101, 115, 99] + [97] == [110, 111, 116, 32, 101, 110, 111, 117, 103, 104, 32, 101, 115, 99, 97] && LexString(s, 0, 16, [110, 111, 116, 32, 101, 110, 111, 117, 103, 104, 32, 101, 115, 99, 97]) == Lexed(InvalidToken(Some((InvalidEscape, 25))), 0)
  {
    assert [110, 111, 116, 32, 101, 110, 111, 117, 103, 104, 32] + [101] == [110, 111, 116, 32, 101, 110, 111, 117, 103, 104, 32, 101];
    assert [110, 111, 116, 32, 101, 110, 111, 117, 103, 104, 32, 101] + [115] == [110, 111, 116, 32, 101, 110, 111, 117, 103, 104, 32, 101, 115];
    assert [110, 111, 116, 32, 101, 110, 111, 117, 103, 104, 32, 101, 115] + [99] == [110, 111, 116, 32, 101, 110, 111, 117, 103, 104, 32, 101, 115, 99];
    assert [110, 111, 116, 32, 101, 110, 111, 117, 103, 104, 32, 101, 115, 99] + [97] == [110, 111, 116, 32, 101, 110, 111, 117, 103, 104, 32, 101, 115, 99, 97];
    ShortUnicodeEscapeStep7(s);
  }

  lemma ShortUnicodeEscapeStep9(s: string)
    requires s == "\"not" + " eno" + "ugh " + "esca" + "pe c" + "hars" + "\\u12" + "3\""
    ensures LexString(s, 0, 15, [110, 111, 116, 32, 101, 110, 111, 117, 103, 104, 32, 101, 115, 99]) == Lexed(InvalidToken(Some((InvalidEscape, 25))), 0) && LexString(s, 0, 14, [110, 111, 116, 32, 101, 110, 111, 117, 103, 104, 32, 101, 115]) == Lexed(InvalidToken(Some((InvalidEscape, 25))), 0) && LexString(s, 0, 13, [110, 111, 116, 32, 101, 110, 111, 117, 103, 104, 32, 101]) == Lexed(InvalidToken(Some((InvalidEscape, 25))), 0)
  {
    ShortUnicodeEscapeStep8(s);
    assert LexString(s, 0, 15, [110, 111, 116, 32, 101, 110, 111, 117, 103, 104, 32, 101, 115, 99]) == Lexed(InvalidToken(Some((InvalidEscape, 25))), 0);
    assert LexString(s, 0, 14, [110, 111, 116, 32, 101, 110, 111, 117, 103, 104, 32, 101, 115]) == Lexed(InvalidToken(Some((InvalidEscape, 25))), 0);
    assert LexString(s, 0, 13, [110, 111, 116, 32, 101, 110, 111, 117, 103, 104, 32, 101]) == Lexed(InvalidToken(Some((InvalidEscape, 25))), 0);
  }

  lemma ShortUnicodeEscapeStep10(s: string)
    requires s == "\"not" + " eno" + "ugh " + "esca" + "pe c" + "hars" + "\\u12" + "3\""
    ensures LexString(s, 0, 12, [110, 111, 116, 32, 101, 110, 111, 117, 103, 104, 32]) == Lexed(InvalidToken(Some((InvalidEscape, 25))), 0)
  {
    ShortUnicodeEscapeStep8(s);
    ShortUnicodeEscapeStep9(s);
  }

  lemma ShortUnicodeEscapeStep11(s: string)
    requires s == "\"not" + " eno" + "ugh " + "esca" + "pe c" + "hars" + "\\u12" + "3\""
    ensures [110, 111, 116, 32, 101, 110, 111] + [117] == [110, 111, 116, 32, 101, 110, 111, 117] && [110, 111, 116, 32, 101, 110, 111, 117] + [103] == [110, 111, 116, 32, 101, 110, 111, 117, 103] && [110, 111, 116, 32, 101, 110, 111, 117, 103] + [104] == [110, 111, 116, 32, 101, 110, 111, 117, 103, 104] && [110, 111, 116, 32, 101, 110, 111, 117, 103, 104] + [32] == [110, 111, 116, 32, 101, 110, 111, 117, 103, 104, 32] && LexString(s, 0, 12, [110, 111, 116, 32, 101, 110, 111, 117, 103, 104, 32]) == Lexed(InvalidToken(Some((InvalidEscape, 25))), 0)
  {
    assert [110, 111, 116, 32, 101, 110, 111] + [117] == [110, 111, 116, 32, 101, 110, 111, 117];
    assert [110, 111, 116, 32, 101, 110, 111, 117] + [103] == [110, 111, 116, 32, 101, 110, 111, 117, 103];
    assert [110, 111, 116, 32, 101, 110, 111, 117, 103] + [104] == [110, 111, 116, 32, 101, 110, 111, 117, 103, 104];
    assert [110, 111, 116, 32, 101, 110, 111, 117, 103, 104] + [32] == [110, 111, 116, 32, 101, 110, 111, 117, 103, 104, 32];
    ShortUnicodeEscapeStep10(s);
  }

  lemma ShortUnicodeEscapeStep12(s: string)
    requires s == "\"not" + " eno" + "ugh " + "esca" + "pe c" + "hars" + "\\u12" + "3\""
    ensures LexString(s, 0, 11, [110, 111, 116, 32, 101, 110, 111, 117, 103, 104]) == Lexed(InvalidToken(Some((InvalidEscape, 25))), 0) && LexString(s, 0, 10, [110, 111, 116, 32, 101, 110, 111, 117, 103]) == Lexed(InvalidToken(Some((InvalidEscape, 25))), 0) && LexString(s, 0, 9, [110, 111, 116, 32, 101, 110, 111, 117]) == Lexed(InvalidToken(Some((InvalidEscape, 25))), 0)
  {
    ShortUnicodeEscapeStep11(s);
    assert LexString(s, 0, 11, [110, 111, 116, 32, 101, 110, 111, 117, 103, 104]) == Lexed(InvalidToken(Some((InvalidEscape, 25))), 0);
    assert LexString(s, 0, 10, [110, 111, 116, 32, 101, 110, 111, 117, 103]) == Lexed(InvalidToken(Some((InvalidEscape, 25))), 0);
    assert LexString(s, 0, 9, [110, 111, 116, 32, 101, 110, 111, 117]) == Lexed(InvalidToken(Some((InvalidEscape, 25))), 0);
  }

  lemma ShortUnicodeEscapeStep13(s: string)
    requires s == "\"not" + " eno" + "ugh " + "esca" + "pe c" + "hars" + "\\u12" + "3\""
    ensures LexString(s, 0, 8, [110, 111, 116, 32, 101, 110, 111]) == Lexed(InvalidToken(Some((InvalidEscape, 25))), 0)
  {
    ShortUnicodeEscapeStep11(s);
    ShortUnicodeEscapeStep12(s);
  }

  lemma ShortUnicodeEscapeStep14(s: string)
    requires s == "\"not" + " eno" + "ugh " + "esca" + "pe c" + "hars" + "\\u12" + "3\""
    ensures [110, 111, 116] + [32] == [110, 111, 116, 32] && [110, 111, 116, 32] + [101] == [110, 111, 116, 32, 101] && [110, 111, 116, 32, 101] + [110] == [110, 111, 116, 32, 101, 110] && [110, 111, 116, 32, 101, 110] + [111] == [110, 111, 116, 32, 101, 110, 111] && LexString(s, 0, 8, [110, 111, 116, 32, 101, 110, 111]) == Lexed(InvalidToken(Some((InvalidEscape, 25))), 0)
  {
    assert [110, 111, 116] + [32] == [110, 111, 116, 32];
    assert [110, 111, 116, 32] + [101] == [110, 111, 116, 32, 101];
    assert [110, 111, 116, 32, 101] + [110] == [110, 111, 116, 32, 101, 110];
    assert [110, 111, 116, 32, 101, 110] + [111] == [110, 111, 116, 32, 101, 110, 111];
    ShortUnicodeEscapeStep13(s);
  }

  lemma ShortUnicodeEscapeStep15(s: string)
    requires s == "\"not" + " eno" + "ugh " + "esca" + "pe c" + "hars" + "\\u12" + "3\""
    ensures LexString(s, 0, 7, [110, 111, 116, 32, 101, 110]) == Lexed(InvalidToken(Some((InvalidEscape, 25))), 0) && LexString(s, 0, 6, [110, 111, 116, 32, 101]) == Lexed(InvalidToken(Some((InvalidEscape, 25))), 0) && LexString(s, 0, 5, [110, 111, 116, 32]) == Lexed(InvalidToken(Some((InvalidEscape, 25))), 0)
  {
    ShortUnicodeEscapeStep14(s);
    assert LexString(s, 0, 7, [110, 111, 116, 32, 101, 110]) == Lexed(InvalidToken(Some((InvalidEscape, 25))), 0);
    assert LexString(s, 0, 6, [110, 111, 116, 32, 101]) == Lexed(InvalidToken(Some((InvalidEscape, 25))), 0);
    assert LexString(s, 0, 5, [110, 111, 116, 32]) == Lexed(InvalidToken(Some((InvalidEscape, 25))), 0);
  }

  lemma ShortUnicodeEscapeStep16(s: string)
    requires s == "\"not" + " eno" + "ugh " + "esca" + "pe c" + "hars" + "\\u12" + "3\""
    ensures LexString(s, 0, 4, [110, 111, 116]) == Lexed(InvalidToken(Some((InvalidEscape, 25))), 0)
  {
    ShortUnicodeEscapeStep14(s);
    ShortUnicodeEscapeStep15(s);
  }

  lemma ShortUnicodeEscapeStep17(s: string)
    requires s == "\"not" + " eno" + "ugh " + "esca" + "pe c" + "hars" + "\\u12" + "3\""
    ensures SkipTrivia(s, 0) == 0 && [] + [110] == [110] && [110] + [111] == [110, 111] && [110, 111] + [116] == [110, 111, 116] && LexString(s, 0, 4, [110, 111, 116]) == Lexed(InvalidToken(Some((InvalidEscape, 25))), 0)
  {
    assert SkipTrivia(s, 0) == 0;
    assert [] + [110] == [110];
    assert [110] + [111] == [110, 111];
    assert [110, 111] + [116] == [110, 111, 116];
    ShortUnicodeEscapeStep16(s);
  }

  lemma ShortUnicodeEscapeStep18(s: string)
    requires s == "\"not" + " eno" + "ugh " + "esca" + "pe c" + "hars" + "\\u12" + "3\""
    ensures LexString(s, 0, 3, [110, 111]) == Lexed(InvalidToken(Some((InvalidEscape, 25))), 0) && LexString(s, 0, 2, [110]) == Lexed(InvalidToken(Some((InvalidEscape, 25))), 0) && LexString(s, 0, 1, []) == Lexed(InvalidToken(Some((InvalidEscape, 25))), 0) && Lex(s, 0) == Lexed(InvalidToken(Some((InvalidEscape, 25))), 0)
  {
    ShortUnicodeEscapeStep17(s);
    assert LexString(s, 0, 3, [110, 111]) == Lexed(InvalidToken(Some((InvalidEscape, 25))), 0);
    assert LexString(s, 0, 2, [110]) == Lexed(InvalidToken(Some((InvalidEscape, 25))), 0);
    assert LexString(s, 0, 1, []) == Lexed(InvalidToken(Some((InvalidEscape, 25))), 0);
    assert Lex(s, 0) == Lexed(InvalidToken(Some((InvalidEscape, 25))), 0);
  }

  lemma ShortUnicodeEscapeStep19(s: string)
    requires s == "\"not" + " eno" + "ugh " + "esca" + "pe c" + "hars" + "\\u12" + "3\""
    ensures ParseValue(s, 0, 0, false, false) == Failed(InvalidEscape, 25)
  {
    ShortUnicodeEscapeStep17(s);
    ShortUnicodeEscapeStep18(s);
  }

  lemma ShortUnicodeEscapeStep20(s: string)
    requires s == "\"not" + " eno" + "ugh " + "esca" + "pe c" + "hars" + "\\u12" + "3\""
    ensures LineColumn(s[..1]) == (1, 2) && s[..2][..1] == s[..1] && LineColumn(s[..2]) == (1, 3) && s[..3][..2] == s[..2] && LineColumn(s[..3]) == (1, 4)
  {
    assert LineColumn(s[..1]) == (1, 2);
    assert s[..2][..1] == s[..1];
    assert LineColumn(s[..2]) == (1, 3);
    assert s[..3][..2] == s[..2];
    assert LineColumn(s[..3]) == (1, 4);
  }

  lemma ShortUnicodeEscapeStep21(s: string)
    requires s == "\"not" + " eno" + "ugh " + "esca" + "pe c" + "hars" + "\\u12" + "3\""
    ensures s[..4][..3] == s[..3] && LineColumn(s[..4]) == (1, 5) && s[..5][..4] == s[..4]
  {
    ShortUnicodeEscapeStep20(s);
    assert s[..4][..3] == s[..3];
    assert LineColumn(s[..4]) == (1, 5);
    assert s[..5][..4] == s[..4];
  }

  lemma ShortUnicodeEscapeStep22(s: string)
    requires s == "\"not" + " eno" + "ugh " + "esca" + "pe c" + "hars" + "\\u12" + "3\""
    ensures LineColumn(s[..5]) == (1, 6)
  {
    ShortUnicodeEscapeStep20(s);
    ShortUnicodeEscapeStep21(s);
  }

  lemma ShortUnicodeEscapeStep23(s: string)
    requires s == "\"not" + " eno" + "ugh " + "esca" + "pe c" + "hars" + "\\u12" + "3\""
    ensures LineColumn(s[..5]) == (1, 6) && s[..6][..5] == s[..5] && LineColumn(s[..6]) == (1, 7) && s[..7][..6] == s[..6] && LineColumn(s[..7]) == (1, 8)
  {
    ShortUnicodeEscapeStep22(s);
    assert s[..6][..5] == s[..5];
    assert LineColumn(s[..6]) == (1, 7);
    assert s[..7][..6] == s[..6];
    assert LineColumn(s[..7]) == (1, 8);
  }

  lemma ShortUnicodeEscapeStep24(s: string)
    requires s == "\"not" + " eno" + "ugh " + "esca" + "pe c" + "hars" + "\\u12" + "3\""
    ensures s[..8][..7] == s[..7] && LineColumn(s[..8]) == (1, 9) && s[..9][..8] == s[..8] && LineColumn(s[..9]) == (1, 10) && s[..10][..9] == s[..9]
  {
    ShortUnicodeEscapeStep23(s);
    assert s[..8][..7] == s[..7];
    assert LineColumn(s[..8]) == (1, 9);
    assert s[..9][..8] == s[..8];
    assert LineColumn(s[..9]) == (1, 10);
    assert s[..10][..9] == s[..9];
  }

  lemma ShortUnicodeEscapeStep25(s: string)
    requires s == "\"not" + " eno" + "ugh " + "esca" + "pe c" + "hars" + "\\u12" + "3\""
    ensures LineColumn(s[..10]) == (1, 11)
  {
    ShortUnicodeEscapeStep23(s);
    ShortUnicodeEscapeStep24(s);
  }

  lemma ShortUnicodeEscapeStep26(s: string)
    requires s == "\"not" + " eno" + "ugh " + "esca" + "pe c" + "hars" + "\\u12" + "3\""
    ensures LineColumn(s[..10]) == (1, 11) && s[..11][..10] == s[..10] && LineColumn(s[..11]) == (1, 12) && s[..12][..11] == s[..11] && LineColumn(s[..12]) == (1, 13)
  {
    ShortUnicodeEscapeStep25(s);
    assert s[..11][..10] == s[..10];
    assert LineColumn(s[..11]) == (1, 12);
    assert s[..12][..11] == s[..11];
    assert LineColumn(s[..12]) == (1, 13);
  }

  lemma ShortUnicodeEscapeStep27(s: string)
    requires s == "\"not" + " eno" + "ugh " + "esca" + "pe c" + "hars" + "\\u12" + "3\""
    ensures s[..13][..12] == s[..12] && LineColumn(s[..13]) == (1, 14) && s[..14][..13] == s[..13] && LineColumn(s[..14]) == (1, 15) && s[..15][..14] == s[..14]
  {
    ShortUnicodeEscapeStep26(s);
    assert s[..13][..12] == s[..12];
    assert LineColumn(s[..13]) == (1, 14);
    assert s[..14][..13] == s[..13];
    assert LineColumn(s[..14]) == (1, 15);
    assert s[..15][..14] == s[..14];
  }

  lemma ShortUnicodeEscapeStep28(s: string)
    requires s == "\"not" + " eno" + "ugh " + "esca" + "pe c" + "hars" + "\\u12" + "3\""
    ensures LineColumn(s[..15]) == (1, 16)
  {
    ShortUnicodeEscapeStep26(s);
    ShortUnicodeEscapeStep27(s);
  }

  lemma ShortUnicodeEscapeStep29(s: string)
    requires s == "\"not" + " eno" + "ugh " + "esca" + "pe c" + "hars" + "\\u12" + "3\""
    ensures LineColumn(s[..15]) == (1, 16) && s[..16][..15] == s[..15] && LineColumn(s[..16]) == (1, 17) && s[..17][..16] == s[..16] && LineColumn(s[..17]) == (1, 18)
  {
    ShortUnicodeEscapeStep28(s);
    assert s[..16][..15] == s[..15];
    assert LineColumn(s[..16]) == (1, 17);
    assert s[..17][..16] == s[..16];
    assert LineColumn(s[..17]) == (1, 18);
  }

  lemma ShortUnicodeEscapeStep30(s: string)
    requires s == "\"not" + " eno" + "ugh " + "esca" + "pe c" + "hars" + "\\u12" + "3\""
    ensures s[..18][..17] == s[..17] && LineColumn(s[..18]) == (1, 19) && s[..19][..18] == s[..18] && LineColumn(s[..19]) == (1, 20) && s[..20][..19] == s[..19]
  {
    ShortUnicodeEscapeStep29(s);
    assert s[..18][..17] == s[..17];
    assert LineColumn(s[..18]) == (1, 19);
    assert s[..19][..18] == s[..18];
    assert LineColumn(s[..19]) == (1, 20);
    assert s[..20][..19] == s[..19];
  }

  lemma ShortUnicodeEscapeStep31(s: string)
    requires s == "\"not" + " eno" + "ugh " + "esca" + "pe c" + "hars" + "\\u12" + "3\""
    ensures LineColumn(s[..20]) == (1, 21)
  {
    ShortUnicodeEscapeStep29(s);
    ShortUnicodeEscapeStep30(s);
  }

  lemma ShortUnicodeEscapeStep32(s: string)
    requires s == "\"not" + " eno" + "ugh " + "esca" + "pe c" + "hars" + "\\u12" + "3\""
    ensures LineColumn(s[..20]) == (1, 21) && s[..21][..20] == s[..20] && LineColumn(s[..21]) == (1, 22) && s[..22][..21] == s[..21] && LineColumn(s[..22]) == (1, 23)
  {
    ShortUnicodeEscapeStep31(s);
    assert s[..21][..20] == s[..20];
    assert LineColumn(s[..21]) == (1, 22);
    assert s[..22][..21] == s[..21];
    assert LineColumn(s[..22]) == (1, 23);
  }

  lemma ShortUnicodeEscapeStep33(s: string)
    requires s == "\"not" + " eno" + "ugh " + "esca" + "pe c" + "hars" + "\\u12" + "3\""
    ensures s[..23][..22] == s[..22] && LineColumn(s[..23]) == (1, 24) && s[..24][..23] == s[..23] && LineColumn(s[..24]) == (1, 25) && s[..25][..24] == s[..24]
  {
    ShortUnicodeEscapeStep32(s);
    assert s[..23][..22] == s[..22];
    assert LineColumn(s[..23]) == (1, 24);
    assert s[..24][..23] == s[..23];
    assert LineColumn(s[..24]) == (1, 25);
    assert s[..25][..24] == s[..24];
  }

  lemma ShortUnicodeEscapeStep34(s: string)
    requires s == "\"not" + " eno" + "ugh " + "esca" + "pe c" + "hars" + "\\u12" + "3\""
    ensures LineColumn(s[..25]) == (1, 26)
  {
    ShortUnicodeEscapeStep32(s);
    ShortUnicodeEscapeStep33(s);
  }

  /** A backslash that escapes the closing quote leaves the string open. */
  lemma BackslashAtEnd(s: string)
    requires s == "\"ext" + "ra b" + "acks" + "lash" + " at " + "end " + "of i" + "nput" + "\\\""
    ensures JsonToValue(s, false, false).Err?
  {
    BackslashAtEndStep25(s);
  }

  lemma BackslashAtEndStep1(s: string)
    requires s == "\"ext" + "ra b" + "acks" + "lash" + " at " + "end " + "of i" + "nput" + "\\\""
    ensures LexString(s, 0, 32, [101, 120, 116, 114, 97, 32, 98, 97, 99, 107, 115, 108, 97, 115, 104, 32, 97, 116, 32, 101, 110, 100, 32, 111, 102, 32, 105, 110, 112, 117, 116]) == Lexed(InvalidToken(None), 0)
  {
    assert [101, 120, 116, 114, 97, 32, 98, 97, 99, 107, 115, 108, 97, 115, 104, 32, 97, 116, 32, 101, 110, 100, 32, 111, 102, 32, 105, 110, 112, 117, 116] + [34] == [101, 120, 116, 114, 97, 32, 98, 97, 99, 107, 115, 108, 97, 115, 104, 32, 97, 116, 32, 101, 110, 100, 32, 111, 102, 32, 105, 110, 112, 117, 116, 34];
    assert LexString(s, 0, 34, [101, 120, 116, 114, 97, 32, 98, 97, 99, 107, 115, 108, 97, 115, 104, 32, 97, 116, 32, 101, 110, 100, 32, 111, 102, 32, 105, 110, 112, 117, 116, 34]) == Lexed(InvalidToken(None), 0);
  }

  lemma BackslashAtEndStep2(s: string)
    requires s == "\"ext" + "ra b" + "acks" + "lash" + " at " + "end " + "of i" + "nput" + "\\\""
    ensures [101, 120, 116, 114, 97, 32, 98, 97, 99, 107, 115, 108, 97, 115, 104, 32, 97, 116, 32, 101, 110, 100, 32, 111, 102, 32, 105] + [110] == [101, 120, 116, 114, 97, 32, 98, 97, 99, 107, 115, 108, 97, 115, 104, 32, 97, 116, 32, 101, 110, 100, 32, 111, 102, 32, 105, 110] && [101, 120, 116, 114, 97, 32, 98, 97, 99, 107, 115, 108, 97, 115, 104, 32, 97, 116, 32, 101, 110, 100, 32, 111, 102, 32, 105, 110] + [112] == [101, 120, 116, 114, 97, 32, 98, 97, 99, 107, 115, 108, 97, 115, 104, 32, 97, 116, 32, 101, 110, 100, 32, 111, 102, 32, 105, 110, 112] && [101, 120, 116, 114, 97, 32, 98, 97, 99, 107, 115, 108, 97, 115, 104, 32, 97, 116, 32, 101, 110, 100, 32, 111, 102, 32, 105, 110, 112] + [117] == [101, 120, 116, 114, 97, 32, 98, 97, 99, 107, 115, 108, 97, 115, 104, 32, 97, 116, 32, 101, 110, 100, 32, 111, 102, 32, 105, 110, 112, 117] && [101, 120, 116, 114, 97, 32, 98, 97, 99, 107, 115, 108, 97, 115, 104, 32, 97, 116, 32, 101, 110, 100, 32, 111, 102, 32, 105, 110, 112, 117] + [116] == [101, 120, 116, 114, 97, 32, 98, 97, 99, 107, 115, 108, 97, 115, 104, 32, 97, 116, 32, 101, 110, 100, 32, 111, 102, 32, 105, 110, 112, 117, 116] && LexString(s, 0, 32, [101, 120, 116, 114, 97, 32, 98, 97, 99, 107, 115, 108, 97, 115, 104, 32, 97, 116, 32, 101, 110, 100, 32, 111, 102, 32, 105, 110, 112, 117, 116]) == Lexed(InvalidToken(None), 0)
  {
    assert [101, 120, 116, 114, 97, 32, 98, 97, 99, 107, 115, 108, 97, 115, 104, 32, 97, 116, 32, 101, 110, 100, 32, 111, 102, 32, 105] + [110] == [101, 120, 116, 114, 97, 32, 98, 97, 99, 107, 115, 108, 97, 115, 104, 32, 97, 116, 32, 101, 110, 100, 32, 111, 102, 32, 105, 110];
    assert [101, 120, 116, 114, 97, 32, 98, 97, 99, 107, 115, 108, 97, 115, 104, 32, 97, 116, 32, 101, 110, 100, 32, 111, 102, 32, 105, 110] + [112] == [101, 120, 116, 114, 97, 32, 98, 97, 99, 107, 115, 108, 97, 115, 104, 32, 97, 116, 32, 101, 110, 100, 32, 111, 102, 32, 105, 110, 112];
    assert [101, 120, 116, 114, 97, 32, 98, 97, 99, 107, 115, 108, 97, 115, 104, 32, 97, 116, 32, 101, 110, 100, 32, 111, 102, 32, 105, 110, 112] + [117] == [101, 120, 116, 114, 97, 32, 98, 97, 99, 107, 115, 108, 97, 115, 104, 32, 97, 116, 32, 101, 110, 100, 32, 111, 102, 32, 105, 110, 112, 117];
    assert [101, 120, 116, 114, 97, 32, 98, 97, 99, 107, 115, 108, 97, 115, 104, 32, 97, 116, 32, 101, 110, 100, 32, 111, 102, 32, 105, 110, 112, 117] + [116] == [101, 120, 116, 114, 97, 32, 98, 97, 99, 107, 115, 108, 97, 115, 104, 32, 97, 116, 32, 101, 110, 100, 32, 111, 102, 32, 105, 110, 112, 117, 116];
    BackslashAtEndStep1(s);
  }

  lemma BackslashAtEndStep3(s: string)
    requires s == "\"ext" + "ra b" + "acks" + "lash" + " at " + "end " + "of i" + "nput" + "\\\""
    ensures LexString(s, 0, 31, [101, 120, 116, 114, 97, 32, 98, 97, 99, 107, 115, 108, 97, 115, 104, 32, 97, 116, 32, 101, 110, 100, 32, 111, 102, 32, 105, 110, 112, 117]) == Lexed(InvalidToken(None), 0) && LexString(s, 0, 30, [101, 120, 116, 114, 97, 32, 98, 97, 99, 107, 115, 108, 97, 115, 104, 32, 97, 116, 32, 101, 110, 100, 32, 111, 102, 32, 105, 110, 112]) == Lexed(InvalidToken(None), 0) && LexString(s, 0, 29, [101, 120, 116, 114, 97, 32, 98, 97, 99, 107, 115, 108, 97, 115, 104, 32, 97, 116, 32, 101, 110, 100, 32, 111, 102, 32, 105, 110]) == Lexed(InvalidToken(None), 0)
  {
    BackslashAtEndStep2(s);
    assert LexString(s, 0, 31, [101, 120, 116, 114, 97, 32, 98, 97, 99, 107, 115, 108, 97, 115, 104, 32, 97, 116, 32, 101, 110, 100, 32, 111, 102, 32, 105, 110, 112, 117]) == Lexed(InvalidToken(None), 0);
    assert LexString(s, 0, 30, [101, 120, 116, 114, 97, 32, 98, 97, 99, 107, 115, 108, 97, 115, 104, 32, 97, 116, 32, 101, 110, 100, 32, 111, 102, 32, 105, 110, 112]) == Lexed(InvalidToken(None), 0);
    assert LexString(s, 0, 29, [101, 120, 116, 114, 97, 32, 98, 97, 99, 107, 115, 108, 97, 115, 104, 32, 97, 116, 32, 101, 110, 100, 32, 111, 102, 32, 105, 110]) == Lexed(InvalidToken(None), 0);
  }

  lemma BackslashAtEndStep4(s: string)
    requires s == "\"ext" + "ra b" + "acks" + "lash" + " at " + "end " + "of i" + "nput" + "\\\""
    ensures LexString(s, 0, 28, [101, 120, 116, 114, 97, 32, 98, 97, 99, 107, 115, 108, 97, 115, 104, 32, 97, 116, 32, 101, 110, 100, 32, 111, 102, 32, 105]) == Lexed(InvalidToken(None), 0)
  {
    BackslashAtEndStep2(s);
    BackslashAtEndStep3(s);
  }

  lemma BackslashAtEndStep5(s: string)
    requires s == "\"ext" + "ra b" + "acks" + "lash" + " at " + "end " + "of i" + "nput" + "\\\""
    ensures [101, 120, 116, 114, 97, 32, 98, 97, 99, 107, 115, 108, 97, 115, 104, 32, 97, 116, 32, 101, 110, 100, 32] + [111] == [101, 120, 116, 114, 97, 32, 98, 97, 99, 107, 115, 108, 97, 115, 104, 32, 97, 116, 32, 101, 110, 100, 32, 111] && [101, 120, 116, 114, 97, 32, 98, 97, 99, 107, 115, 108, 97, 115, 104, 32, 97, 116, 32, 101, 110, 100, 32, 111] + [102] == [101, 120, 116, 114, 97, 32, 98, 97, 99, 107, 115, 108, 97, 115, 104, 32, 97, 116, 32, 101, 110, 100, 32, 111, 102] && [101, 120, 116, 114, 97, 32, 98, 97, 99, 107, 115, 108, 97, 115, 104, 32, 97, 116, 32, 101, 110, 100, 32, 111, 102] + [32] == [101, 120, 116, 114, 97, 32, 98, 97, 99, 107, 115, 108, 97, 115, 104, 32, 97, 116, 32, 101, 110, 100, 32, 111, 102, 32] && [101, 120, 116, 114, 97, 32, 98, 97, 99, 107, 115, 108, 97, 115, 104, 32, 97, 116, 32, 101, 110, 100, 32, 111, 102, 32] + [105] == [101, 120, 116, 114, 97, 32, 98, 97, 99, 107, 115, 108, 97, 115, 104, 32, 97, 116, 32, 101, 110, 100, 32, 111, 102, 32, 105] && LexString(s, 0, 28, [101, 120, 116, 114, 97, 32, 98, 97, 99, 107, 115, 108, 97, 115, 104, 32, 97, 116, 32, 101, 110, 100, 32, 111, 102, 32, 105]) == Lexed(InvalidToken(None), 0)
  {
    assert [101, 120, 116, 114, 97, 32, 98, 97, 99, 107, 115, 108, 97, 115, 104, 32, 97, 116, 32, 101, 110, 100, 32] + [111] == [101, 120, 116, 114, 97, 32, 98, 97, 99, 107, 115, 108, 97, 115, 104, 32, 97, 116, 32, 101, 110, 100, 32, 111];
    assert [101, 120, 116, 114, 97, 32, 98, 97, 99, 107, 115, 108, 97, 115, 104, 32, 97, 116, 32, 101, 110, 100, 32, 111] + [102] == [101, 120, 116, 114, 97, 32, 98, 97, 99, 107, 115, 108, 97, 115, 104, 32, 97, 116, 32, 101, 110, 100, 32, 111, 102];
    assert [101, 120, 116, 114, 97, 32, 98, 97, 99, 107, 115, 108, 97, 115, 104, 32, 97, 116, 32, 101, 110, 100, 32, 111, 102] + [32] == [101, 120, 116, 114, 97, 32, 98, 97, 99, 107, 115, 108, 97, 115, 104, 32, 97, 116, 32, 101, 110, 100, 32, 111, 102, 32];
    assert [101, 120, 116, 114, 97, 32, 98, 97, 99, 107, 115, 108, 97, 115, 104, 32, 97, 116, 32, 101, 110, 100, 32, 111, 102, 32] + [105] == [101, 120, 116, 114, 97, 32, 98, 97, 99, 107, 115, 108, 97, 115, 104, 32, 97, 116, 32, 101, 110, 100, 32, 111, 102, 32, 105];
    BackslashAtEndStep4(s);
  }

  lemma BackslashAtEndStep6(s: string)
    requires s == "\"ext" + "ra b" + "acks" + "lash" + " at " + "end " + "of i" + "nput" + "\\\""
    ensures LexString(s, 0, 27, [101, 120, 116, 114, 97, 32, 98, 97, 99, 107, 115, 108, 97, 115, 104, 32, 97, 116, 32, 101, 110, 100, 32, 111, 102, 32]) == Lexed(InvalidToken(None), 0) && LexString(s, 0, 26, [101, 120, 116, 114, 97, 32, 98, 97, 99, 107, 115, 108, 97, 115, 104, 32, 97, 116, 32, 101, 110, 100, 32, 111, 102]) == Lexed(InvalidToken(None), 0) && LexString(s, 0, 25, [101, 120, 116, 114, 97, 32, 98, 97, 99, 107, 115, 108, 97, 115, 104, 32, 97, 116, 32, 101, 110, 100, 32, 111]) == Lexed(InvalidToken(None), 0)
  {
    BackslashAtEndStep5(s);
    assert LexString(s, 0, 27, [101, 120, 116, 114, 97, 32, 98, 97, 99, 107, 115, 108, 97, 115, 104, 32, 97, 116, 32, 101, 110, 100, 32, 111, 102, 32]) == Lexed(InvalidToken(None), 0);
    assert LexString(s, 0, 26, [101, 120, 116, 114, 97, 32, 98, 97, 99, 107, 115, 108, 97, 115, 104, 32, 97, 116, 32, 101, 110, 100, 32, 111, 102]) == Lexed(InvalidToken(None), 0);
    assert LexString(s, 0, 25, [101, 120, 116, 114, 97, 32, 98, 97, 99, 107, 115, 108, 97, 115, 104, 32, 97, 116, 32, 101, 110, 100, 32, 111]) == Lexed(InvalidToken(None), 0);
  }

  lemma BackslashAtEndStep7(s: string)
    requires s == "\"ext" + "ra b" + "acks" + "lash" + " at " + "end " + "of i" + "nput" + "\\\""
    ensures LexString(s, 0, 24, [101, 120, 116, 114, 97, 32, 98, 97, 99, 107, 115, 108, 97, 115, 104, 32, 97, 116, 32, 101, 110, 100, 32]) == Lexed(InvalidToken(None), 0)
  {
    BackslashAtEndStep5(s);
    BackslashAtEndStep6(s);
  }

  lemma BackslashAtEndStep8(s: string)
    requires s == "\"ext" + "ra b" + "acks" + "lash" + " at " + "end " + "of i" + "nput" + "\\\""
    ensures [101, 120, 116, 114, 97, 32, 98, 97, 99, 107, 115, 108, 97, 115, 104, 32, 97, 116, 32] + [101] == [101, 120, 116, 114, 97, 32, 98, 97, 99, 107, 115, 108, 97, 115, 104, 32, 97, 116, 32, 101] && [101, 120, 116, 114, 97, 32, 98, 97, 99, 107, 115, 108, 97, 115, 104, 32, 97, 116, 32, 101] + [110] == [101, 120, 116, 114, 97, 32, 98, 97, 99, 107, 115, 108, 97, 115, 104, 32, 97, 116, 32, 101, 110] && [101, 120, 116, 114, 97, 32, 98, 97, 99, 107, 115, 108, 97, 115, 104, 32, 97, 116, 32, 101, 110] + [100] == [101, 120, 116, 114, 97, 32, 98, 97, 99, 107, 115, 108, 97, 115, 104, 32, 97, 116, 32, 101, 110, 100] && [101, 120, 116, 114, 97, 32, 98, 97, 99, 107, 115, 108, 97, 115, 104, 32, 97, 116, 32, 101, 110, 100] + [32] == [101, 120, 116, 114, 97, 32, 98, 97, 99, 107, 115, 108, 97, 115, 104, 32, 97, 116, 32, 101, 110, 100, 32] && LexString(s, 0, 24, [101, 120, 116, 114, 97, 32, 98, 97, 99, 107, 115, 108, 97, 115, 104, 32, 97, 116, 32, 101, 110, 100, 32]) == Lexed(InvalidToken(None), 0)
  {
    assert [101, 120, 116, 114, 97, 32, 98, 97, 99, 107, 115, 108, 97, 115, 104, 32, 97, 116, 32] + [101] == [101, 120, 116, 114, 97, 32, 98, 97, 99, 107, 115, 108, 97, 115, 104, 32, 97, 116, 32, 101];
    assert [101, 120, 116, 114, 97, 32, 98, 97, 99, 107, 115, 108, 97, 115, 104, 32, 97, 116, 32, 101] + [110] == [101, 120, 116, 114, 97, 32, 98, 97, 99, 107, 115, 108, 97, 115, 104, 32, 97, 116, 32, 101, 110];
    assert [101, 120, 116, 114, 97, 32, 98, 97, 99, 107, 115, 108, 97, 115, 104, 32, 97, 116, 32, 101, 110] + [100] == [101, 120, 116, 114, 97, 32, 98, 97, 99, 107, 115, 108, 97, 115, 104, 32, 97, 116, 32, 101, 110, 100];
    assert [101, 120, 116, 114, 97, 32, 98, 97, 99, 107, 115, 108, 97, 115, 104, 32, 97, 116, 32, 101, 110, 100] + [32] == [101, 120, 116, 114, 97, 32, 98, 97, 99, 107, 115, 108, 97, 115, 104, 32, 97, 116, 32, 101, 110, 100, 32];
    BackslashAtEndStep7(s);
  }

  lemma BackslashAtEndStep9(s: string)
    requires s == "\"ext" + "ra b" + "acks" + "lash" + " at " + "end " + "of i" + "nput" + "\\\""
    ensures LexString(s, 0, 23, [101, 120, 116, 114, 97, 32, 98, 97, 99, 107, 115, 108, 97, 115, 104, 32, 97, 116, 32, 101, 110, 100]) == Lexed(InvalidToken(None), 0) && LexString(s, 0, 22, [101, 120, 116, 114, 97, 32, 98, 97, 99, 107, 115, 108, 97, 115, 104, 32, 97, 116, 32, 101, 110]) == Lexed(InvalidToken(None), 0) && LexString(s, 0, 21, [101, 120, 116, 114, 97, 32, 98, 97, 99, 107, 115, 108, 97, 115, 104, 32, 97, 116, 32, 101]) == Lexed(InvalidToken(None), 0)
  {
    BackslashAtEndStep8(s);
    assert LexString(s, 0, 23, [101, 120, 116, 114, 97, 32, 98, 97, 99, 107, 115, 108, 97, 115, 104, 32, 97, 116, 32, 101, 110, 100]) == Lexed(InvalidToken(None), 0);
    assert LexString(s, 0, 22, [101, 120, 116, 114, 97, 32, 98, 97, 99, 107, 115, 108, 97, 115, 104, 32, 97, 116, 32, 101, 110]) == Lexed(InvalidToken(None), 0);
    assert LexString(s, 0, 21, [101, 120, 116, 114, 97, 32, 98, 97, 99, 107, 115, 108, 97, 115, 104, 32, 97, 116, 32, 101]) == Lexed(InvalidToken(None), 0);
  }

  lemma BackslashAtEndStep10(s: string)
    requires s == "\"ext" + "ra b" + "acks" + "lash" + " at " + "end " + "of i" + "nput" + "\\\""
    ensures LexString(s, 0, 20, [101, 120, 116, 114, 97, 32, 98, 97, 99, 107, 115, 108, 97, 115, 104, 32, 97, 116, 32]) == Lexed(InvalidToken(None), 0)
  {
    BackslashAtEndStep8(s);
    BackslashAtEndStep9(s);
  }

  lemma BackslashAtEndStep11(s: string)
    requires s == "\"ext" + "ra b" + "acks" + "lash" + " at " + "end " + "of i" + "nput" + "\\\""
    ensures [101, 120, 116, 114, 97, 32, 98, 97, 99, 107, 115, 108, 97, 115, 104] + [32] == [101, 120, 116, 114, 97, 32, 98, 97, 99, 107, 115, 108, 97, 115, 104, 32] && [101, 120, 116, 114, 97, 32, 98, 97, 99, 107, 115, 108, 97, 115, 104, 32] + [97] == [101, 120, 116, 114, 97, 32, 98, 97, 99, 107, 115, 108, 97, 115, 104, 32, 97] && [101, 120, 116, 114, 97, 32, 98, 97, 99, 107, 115, 108, 97, 115, 104, 32, 97] + [116] == [101, 120, 116, 114, 97, 32, 98, 97, 99, 107, 115, 108, 97, 115, 104, 32, 97, 116] && [101, 120, 116, 114, 97, 32, 98, 97, 99, 107, 115, 108, 97, 115, 104, 32, 97, 116] + [32] == [101, 120, 116, 114, 97, 32, 98, 97, 99, 107, 115, 108, 97, 115, 104, 32, 97, 116, 32] && LexString(s, 0, 20, [101, 120, 116, 114, 97, 32, 98, 97, 99, 107, 115, 108, 97, 115, 104, 32, 97, 116, 32]) == Lexed(InvalidToken(None), 0)
  {
    assert [101, 120, 116, 114, 97, 32, 98, 97, 99, 107, 115, 108, 97, 115, 104] + [32] == [101, 120, 116, 114, 97, 32, 98, 97, 99, 107, 115, 108, 97, 115, 104, 32];
    assert [101, 120, 116, 114, 97, 32, 98, 97, 99, 107, 115, 108, 97, 115, 104, 32] + [97] == [101, 120, 116, 114, 97, 32, 98, 97, 99, 107, 115, 108, 97, 115, 104, 32, 97];
    assert [101, 120, 116, 114, 97, 32, 98, 97, 99, 107, 115, 108, 97, 115, 104, 32, 97] + [116] == [101, 120, 116, 114, 97, 32, 98, 97, 99, 107, 115, 108, 97, 115, 104, 32, 97, 116];
    assert [101, 120, 116, 114, 97, 32, 98, 97, 99, 107, 115, 108, 97, 115, 104, 32, 97, 116] + [32] == [101, 120, 116, 114, 97, 32, 98, 97, 99, 107, 115, 108, 97, 115, 104, 32, 97, 116, 32];
    BackslashAtEndStep10(s);
  }

  lemma BackslashAtEndStep12(s: string)
    requires s == "\"ext" + "ra b" + "acks" + "lash" + " at " + "end " + "of i" + "nput" + "\\\""
    ensures LexString(s, 0, 19, [101, 120, 116, 114, 97, 32, 98, 97, 99, 107, 115, 108, 97, 115, 104, 32, 97, 116]) == Lexed(InvalidToken(None), 0) && LexString(s, 0, 18, [101, 120, 116, 114, 97, 32, 98, 97, 99, 107, 115, 108, 97, 115, 104, 32, 97]) == Lexed(InvalidToken(None), 0) && LexString(s, 0, 17, [101, 120, 116, 114, 97, 32, 98, 97, 99, 107, 115, 108, 97, 115, 104, 32]) == Lexed(InvalidToken(None), 0)
  {
    BackslashAtEndStep11(s);
    assert LexString(s, 0, 19, [101, 120, 116, 114, 97, 32, 98, 97, 99, 107, 115, 108, 97, 115, 104, 32, 97, 116]) == Lexed(InvalidToken(None), 0);
    assert LexString(s, 0, 18, [101, 120, 116, 114, 97, 32, 98, 97, 99, 107, 115, 108, 97, 115, 104, 32, 97]) == Lexed(InvalidToken(None), 0);
    assert LexString(s, 0, 17, [101, 120, 116, 114, 97, 32, 98, 97, 99, 107, 115, 108, 97, 115, 104, 32]) == Lexed(InvalidToken(None), 0);
  }

  lemma BackslashAtEndStep13(s: string)
    requires s == "\"ext" + "ra b" + "acks" + "lash" + " at " + "end " + "of i" + "nput" + "\\\""
    ensures LexString(s, 0, 16, [101, 120, 116, 114, 97, 32, 98, 97, 99, 107, 115, 108, 97, 115, 104]) == Lexed(InvalidToken(None), 0)
  {
    BackslashAtEndStep11(s);
    BackslashAtEndStep12(s);
  }

  lemma BackslashAtEndStep14(s: string)
    requires s == "\"ext" + "ra b" + "acks" + "lash" + " at " + "end " + "of i" + "nput" + "\\\""
    ensures [101, 120, 116, 114, 97, 32, 98, 97, 99, 107, 115] + [108] == [101, 120, 116, 114, 97, 32, 98, 97, 99, 107, 115, 108] && [101, 120, 116, 114, 97, 32, 98, 97, 99, 107, 115, 108] + [97] == [101, 120, 116, 114, 97, 32, 98, 97, 99, 107, 115, 108, 97] && [101, 120, 116, 114, 97, 32, 98, 97, 99, 107, 115, 108, 97] + [115] == [101, 120, 116, 114, 97, 32, 98, 97, 99, 107, 115, 108, 97, 115] && [101, 120, 116, 114, 97, 32, 98, 97, 99, 107, 115, 108, 97, 115] + [104] == [101, 120, 116, 114, 97, 32, 98, 97, 99, 107, 115, 108, 97, 115, 104] && LexString(s, 0, 16, [101, 120, 116, 114, 97, 32, 98, 97, 99, 107, 115, 108, 97, 115, 104]) == Lexed(InvalidToken(None), 0)
  {
    assert [101, 120, 116, 114, 97, 32, 98, 97, 99, 107, 115] + [108] == [101, 120, 116, 114, 97, 32, 98, 97, 99, 107, 115, 108];
    assert [101, 120, 116, 114, 97, 32, 98, 97, 99, 107, 115, 108] + [97] == [101, 120, 116, 114, 97, 32, 98, 97, 99, 107, 115, 108, 97];
    assert [101, 120, 116, 114, 97, 32, 98, 97, 99, 107, 115, 108, 97] + [115] == [101, 120, 116, 114, 97, 32, 98, 97, 99, 107, 115, 108, 97, 115];
    assert [101, 120, 116, 114, 97, 32, 98, 97, 99, 107, 115, 108, 97, 115] + [104] == [101, 120, 116, 114, 97, 32, 98, 97, 99, 107, 115, 108, 97, 115, 104];
    BackslashAtEndStep13(s);
  }

  lemma BackslashAtEndStep15(s: string)
    requires s == "\"ext" + "ra b" + "acks" + "lash" + " at " + "end " + "of i" + "nput" + "\\\""
    ensures LexString(s, 0, 15, [101, 120, 116, 114, 97, 32, 98, 97, 99, 107, 115, 108, 97, 115]) == Lexed(InvalidToken(None), 0) && LexString(s, 0, 14, [101, 120, 116, 114, 97, 32, 98, 97, 99, 107, 115, 108, 97]) == Lexed(InvalidToken(None), 0) && LexString(s, 0, 13, [101, 120, 116, 114, 97, 32, 98, 97, 99, 107, 115, 108]) == Lexed(InvalidToken(None), 0)
  {
    BackslashAtEndStep14(s);
    assert LexString(s, 0, 15, [101, 120, 116, 114, 97, 32, 98, 97, 99, 107, 115, 108, 97, 115]) == Lexed(InvalidToken(None), 0);
    assert LexString(s, 0, 14, [101, 120, 116, 114, 97, 32, 98, 97, 99, 107, 115, 108, 97]) == Lexed(InvalidToken(None), 0);
    assert LexString(s, 0, 13, [101, 120, 116, 114, 97, 32, 98, 97, 99, 107, 115, 108]) == Lexed(InvalidToken(None), 0);
  }

  lemma BackslashAtEndStep16(s: string)
    requires s == "\"ext" + "ra b" + "acks" + "lash" + " at " + "end " + "of i" + "nput" + "\\\""
    ensures LexString(s, 0, 12, [101, 120, 116, 114, 97, 32, 98, 97, 99, 107, 115]) == Lexed(InvalidToken(None), 0)
  {
    BackslashAtEndStep14(s);
    BackslashAtEndStep15(s);
  }

  lemma BackslashAtEndStep17(s: string)
    requires s == "\"ext" + "ra b" + "acks" + "lash" + " at " + "end " + "of i" + "nput" + "\\\""
    ensures [101, 120, 116, 114, 97, 32, 98] + [97] == [101, 120, 116, 114, 97, 32, 98, 97] && [101, 120, 116, 114, 97, 32, 98, 97] + [99] == [101, 120, 116, 114, 97, 32, 98, 97, 99] && [101, 120, 116, 114, 97, 32, 98, 97, 99] + [107] == [101, 120, 116, 114, 97, 32, 98, 97, 99, 107] && [101, 120, 116, 114, 97, 32, 98, 97, 99, 107] + [115] == [101, 120, 116, 114, 97, 32, 98, 97, 99, 107, 115] && LexString(s, 0, 12, [101, 120, 116, 114, 97, 32, 98, 97, 99, 107, 115]) == Lexed(InvalidToken(None), 0)
  {
    assert [101, 120, 116, 114, 97, 32, 98] + [97] == [101, 120, 116, 114, 97, 32, 98, 97];
    assert [101, 120, 116, 114, 97, 32, 98, 97] + [99] == [101, 120, 116, 114, 97, 32, 98, 97, 99];
    assert [101, 120, 116, 114, 97, 32, 98, 97, 99] + [107] == [101, 120, 116, 114, 97, 32, 98, 97, 99, 107];
    assert [101, 120, 116, 114, 97, 32, 98, 97, 99, 107] + [115] == [101, 120, 116, 114, 97, 32, 98, 97, 99, 107, 115];
    BackslashAtEndStep16(s);
  }

  lemma BackslashAtEndStep18(s: string)
    requires s == "\"ext" + "ra b" + "acks" + "lash" + " at " + "end " + "of i" + "nput" + "\\\""
    ensures LexString(s, 0, 11, [101, 120, 116, 114, 97, 32, 98, 97, 99, 107]) == Lexed(InvalidToken(None), 0) && LexString(s, 0, 10, [101, 120, 116, 114, 97, 32, 98, 97, 99]) == Lexed(InvalidToken(None), 0) && LexString(s, 0, 9, [101, 120, 116, 114, 97, 32, 98, 97]) == Lexed(InvalidToken(None), 0)
  {
    BackslashAtEndStep17(s);
    assert LexString(s, 0, 11, [101, 120, 116, 114, 97, 32, 98, 97, 99, 107]) == Lexed(InvalidToken(None), 0);
    assert LexString(s, 0, 10, [101, 120, 116, 114, 97, 32, 98, 97, 99]) == Lexed(InvalidToken(None), 0);
    assert LexString(s, 0, 9, [101, 120, 116, 114, 97, 32, 98, 97]) == Lexed(InvalidToken(None), 0);
  }

  lemma BackslashAtEndStep19(s: string)
    requires s == "\"ext" + "ra b" + "acks" + "lash" + " at " + "end " + "of i" + "nput" + "\\\""
    ensures LexString(s, 0, 8, [101, 120, 116, 114, 97, 32, 98]) == Lexed(InvalidToken(None), 0)
  {
    BackslashAtEndStep17(s);
    BackslashAtEndStep18(s);
  }

  lemma BackslashAtEndStep20(s: string)
    requires s == "\"ext" + "ra b" + "acks" + "lash" + " at " + "end " + "of i" + "nput" + "\\\""
    ensures [101, 120, 116] + [114] == [101, 120, 116, 114] && [101, 120, 116, 114] + [97] == [101, 120, 116, 114, 97] && [101, 120, 116, 114, 97] + [32] == [101, 120, 116, 114, 97, 32] && [101, 120, 116, 114, 97, 32] + [98] == [101, 120, 116, 114, 97, 32, 98] && LexString(s, 0, 8, [101, 120, 116, 114, 97, 32, 98]) == Lexed(InvalidToken(None), 0)
  {
    assert [101, 120, 116] + [114] == [101, 120, 116, 114];
    assert [101, 120, 116, 114] + [97] == [101, 120, 116, 114, 97];
    assert [101, 120, 116, 114, 97] + [32] == [101, 120, 116, 114, 97, 32];
    assert [101, 120, 116, 114, 97, 32] + [98] == [101, 120, 116, 114, 97, 32, 98];
    BackslashAtEndStep19(s);
  }

  lemma BackslashAtEndStep21(s: string)
    requires s == "\"ext" + "ra b" + "acks" + "lash" + " at " + "end " + "of i" + "nput" + "\\\""
    ensures LexString(s, 0, 7, [101, 120, 116, 114, 97, 32]) == Lexed(InvalidToken(None), 0) && LexString(s, 0, 6, [101, 120, 116, 114, 97]) == Lexed(InvalidToken(None), 0) && LexString(s, 0, 5, [101, 120, 116, 114]) == Lexed(InvalidToken(None), 0)
  {
    BackslashAtEndStep20(s);
    assert LexString(s, 0, 7, [101, 120, 116, 114, 97, 32]) == Lexed(InvalidToken(None), 0);
    assert LexString(s, 0, 6, [101, 120, 116, 114, 97]) == Lexed(InvalidToken(None), 0);
    assert LexString(s, 0, 5, [101, 120, 116, 114]) == Lexed(InvalidToken(None), 0);
  }

  lemma BackslashAtEndStep22(s: string)
    requires s == "\"ext" + "ra b" + "acks" + "lash" + " at " + "end " + "of i" + "nput" + "\\\""
    ensures LexString(s, 0, 4, [101, 120, 116]) == Lexed(InvalidToken(None), 0)
  {
    BackslashAtEndStep20(s);
    BackslashAtEndStep21(s);
  }

  lemma BackslashAtEndStep23(s: string)
    requires s == "\"ext" + "ra b" + "acks" + "lash" + " at " + "end " + "of i" + "nput" + "\\\""
    ensures SkipTrivia(s, 0) == 0 && [] + [101] == [101] && [101] + [120] == [101, 120] && [101, 120] + [116] == [101, 120, 116] && LexString(s, 0, 4, [101, 120, 116]) == Lexed(InvalidToken(None), 0)
  {
    assert SkipTrivia(s, 0) == 0;
    assert [] + [101] == [101];
    assert [101] + [120] == [101, 120];
    assert [101, 120] + [116] == [101, 120, 116];
    BackslashAtEndStep22(s);
  }

  lemma BackslashAtEndStep24(s: string)
    requires s == "\"ext" + "ra b" + "acks" + "lash" + " at " + "end " + "of i" + "nput" + "\\\""
    ensures LexString(s, 0, 3, [101, 120]) == Lexed(InvalidToken(None), 0) && LexString(s, 0, 2, [101]) == Lexed(InvalidToken(None), 0) && LexString(s, 0, 1, []) == Lexed(InvalidToken(None), 0) && Lex(s, 0) == Lexed(InvalidToken(None), 0)
  {
    BackslashAtEndStep23(s);
    assert LexString(s, 0, 3, [101, 120]) == Lexed(InvalidToken(None), 0);
    assert LexString(s, 0, 2, [101]) == Lexed(InvalidToken(None), 0);
    assert LexString(s, 0, 1, []) == Lexed(InvalidToken(None), 0);
    assert Lex(s, 0) == Lexed(InvalidToken(None), 0);
  }

  lemma BackslashAtEndStep25(s: string)
    requires s == "\"ext" + "ra b" + "acks" + "lash" + " at " + "end " + "of i" + "nput" + "\\\""
    ensures ParseValue(s, 0, 0, false, false) == Failed(SyntaxError, 0)
  {
    BackslashAtEndStep23(s);
    BackslashAtEndStep24(s);
  }

  /** A list of three literals. */
  lemma ArrayBasic(s: string)
    requires s == "[tru" + "e, f" + "alse" + ", nu" + "ll]"
    ensures Read(s, false) == Some(List([Bool(true), Bool(false), Null]))
  {
    assert SkipTrivia(s, 19) == 19;
    assert Lex(s, 19) == Lexed(EndOfInput, 19);
    ArrayBasicStep15(s);
  }

  lemma ArrayBasicStep1(s: string)
    requires s == "[tru" + "e, f" + "alse" + ", nu" + "ll]"
    ensures Lex(s, 1) == Lexed(TrueToken, 5)
  {
    TrueAt(s, 1);
  }

  lemma ArrayBasicStep2(s: string)
    requires s == "[tru" + "e, f" + "alse" + ", nu" + "ll]"
    ensures ParseValue(s, 1, 1, false, false) == Parsed(Bool(true), 5)
  {
    assert SkipTrivia(s, 1) == 1;
    ArrayBasicStep1(s);
  }

  lemma ArrayBasicStep3(s: string)
    requires s == "[tru" + "e, f" + "alse" + ", nu" + "ll]"
    ensures SkipTrivia(s, 6) == 7
  {
    assert SkipTrivia(s, 7) == 7;
  }

  lemma ArrayBasicStep4(s: string)
    requires s == "[tru" + "e, f" + "alse" + ", nu" + "ll]"
    ensures Lex(s, 7) == Lexed(FalseToken, 12)
  {
    FalseAt(s, 7);
  }

  lemma ArrayBasicStep5(s: string)
    requires s == "[tru" + "e, f" + "alse" + ", nu" + "ll]"
    ensures ParseValue(s, 7, 1, false, false) == Parsed(Bool(false), 12)
  {
    assert SkipTrivia(s, 7) == 7;
    ArrayBasicStep4(s);
  }

  lemma ArrayBasicStep6(s: string)
    requires s == "[tru" + "e, f" + "alse" + ", nu" + "ll]"
    ensures SkipTrivia(s, 13) == 14
  {
    assert SkipTrivia(s, 14) == 14;
  }

  lemma ArrayBasicStep7(s: string)
    requires s == "[tru" + "e, f" + "alse" + ", nu" + "ll]"
    ensures Lex(s, 14) == Lexed(NullToken, 18)
  {
    NullAt(s, 14);
  }

  lemma ArrayBasicStep8(s: string)
    requires s == "[tru" + "e, f" + "alse" + ", nu" + "ll]"
    ensures ParseValue(s, 14, 1, false, false) == Parsed(Null, 18)
  {
    assert SkipTrivia(s, 14) == 14;
    ArrayBasicStep7(s);
  }

  lemma ArrayBasicStep9(s: string)
    requires s == "[tru" + "e, f" + "alse" + ", nu" + "ll]"
    ensures ParseElements(s, 14, 1, [Bool(true), Bool(false)], false) == Parsed(List([Bool(true), Bool(false), Null]), 19)
  {
    assert [Bool(true), Bool(false)] + [Null] == [Bool(true), Bool(false), Null];
    assert SkipTrivia(s, 18) == 18;
    assert Lex(s, 18) == Lexed(ArrayEnd, 19);
    ArrayBasicStep8(s);
  }

  lemma ArrayBasicStep10(s: string)
    requires s == "[tru" + "e, f" + "alse" + ", nu" + "ll]"
    ensures [Bool(true)] + [Bool(false)] == [Bool(true), Bool(false)] && SkipTrivia(s, 12) == 12 && Lex(s, 12) == Lexed(ListSeparator, 13) && SkipTrivia(s, 13) == 14 && Lex(s, 14) == Lexed(NullToken, 18)
  {
    assert [Bool(true)] + [Bool(false)] == [Bool(true), Bool(false)];
    assert SkipTrivia(s, 12) == 12;
    assert Lex(s, 12) == Lexed(ListSeparator, 13);
    ArrayBasicStep6(s);
    ArrayBasicStep7(s);
  }

  lemma ArrayBasicStep11(s: string)
    requires s == "[tru" + "e, f" + "alse" + ", nu" + "ll]"
    ensures ParseElements(s, 7, 1, [Bool(true)], false) == Parsed(List([Bool(true), Bool(false), Null]), 19)
  {
    ArrayBasicStep10(s);
    ArrayBasicStep5(s);
    ArrayBasicStep9(s);
  }

  lemma ArrayBasicStep12(s: string)
    requires s == "[tru" + "e, f" + "alse" + ", nu" + "ll]"
    ensures [] + [Bool(true)] == [Bool(true)] && SkipTrivia(s, 5) == 5 && Lex(s, 5) == Lexed(ListSeparator, 6) && SkipTrivia(s, 6) == 7 && Lex(s, 7) == Lexed(FalseToken, 12)
  {
    assert [] + [Bool(true)] == [Bool(true)];
    assert SkipTrivia(s, 5) == 5;
    assert Lex(s, 5) == Lexed(ListSeparator, 6);
    ArrayBasicStep3(s);
    ArrayBasicStep4(s);
  }

  lemma ArrayBasicStep13(s: string)
    requires s == "[tru" + "e, f" + "alse" + ", nu" + "ll]"
    ensures ParseElements(s, 1, 1, [], false) == Parsed(List([Bool(true), Bool(false), Null]), 19)
  {
    ArrayBasicStep12(s);
    ArrayBasicStep2(s);
    ArrayBasicStep11(s);
  }

  lemma ArrayBasicStep14(s: string)
    requires s == "[tru" + "e, f" + "alse" + ", nu" + "ll]"
    ensures ParseArray(s, 1, 1, false) == Parsed(List([Bool(true), Bool(false), Null]), 19)
  {
    assert SkipTrivia(s, 1) == 1;
    ArrayBasicStep1(s);
    ArrayBasicStep13(s);
  }

  lemma ArrayBasicStep15(s: string)
    requires s == "[tru" + "e, f" + "alse" + ", nu" + "ll]"
    ensures ParseValue(s, 0, 0, true, false) == Parsed(List([Bool(true), Bool(false), Null]), 19)
  {
    RootList(s, true, false);
    ArrayBasicStep14(s);
  }

  /** The same list with a trailing comma, allowed. */
  lemma ArrayBasicTrailing(s: string)
    requires s == "[tru" + "e, f" + "alse" + ", nu" + "ll, " + "]"
    ensures Read(s, true) == Some(List([Bool(true), Bool(false), Null]))
  {
    assert SkipTrivia(s, 21) == 21;
    assert Lex(s, 21) == Lexed(EndOfInput, 21);
    ArrayBasicTrailingStep16(s);
  }

  lemma ArrayBasicTrailingStep1(s: string)
    requires s == "[tru" + "e, f" + "alse" + ", nu" + "ll, " + "]"
    ensures Lex(s, 1) == Lexed(TrueToken, 5)
  {
    TrueAt(s, 1);
  }

  lemma ArrayBasicTrailingStep2(s: string)
    requires s == "[tru" + "e, f" + "alse" + ", nu" + "ll, " + "]"
    ensures ParseValue(s, 1, 1, false, true) == Parsed(Bool(true), 5)
  {
    assert SkipTrivia(s, 1) == 1;
    ArrayBasicTrailingStep1(s);
  }

  lemma ArrayBasicTrailingStep3(s: string)
    requires s == "[tru" + "e, f" + "alse" + ", nu" + "ll, " + "]"
    ensures SkipTrivia(s, 6) == 7
  {
    assert SkipTrivia(s, 7) == 7;
  }

  lemma ArrayBasicTrailingStep4(s: string)
    requires s == "[tru" + "e, f" + "alse" + ", nu" + "ll, " + "]"
    ensures Lex(s, 7) == Lexed(FalseToken, 12)
  {
    FalseAt(s, 7);
  }

  lemma ArrayBasicTrailingStep5(s: string)
    requires s == "[tru" + "e, f" + "alse" + ", nu" + "ll, " + "]"
    ensures ParseValue(s, 7, 1, false, true) == Parsed(Bool(false), 12)
  {
    assert SkipTrivia(s, 7) == 7;
    ArrayBasicTrailingStep4(s);
  }

  lemma ArrayBasicTrailingStep6(s: string)
    requires s == "[tru" + "e, f" + "alse" + ", nu" + "ll, " + "]"
    ensures SkipTrivia(s, 13) == 14
  {
    assert SkipTrivia(s, 14) == 14;
  }

  lemma ArrayBasicTrailingStep7(s: string)
    requires s == "[tru" + "e, f" + "alse" + ", nu" + "ll, " + "]"
    ensures Lex(s, 14) == Lexed(NullToken, 18)
  {
    NullAt(s, 14);
  }

  lemma ArrayBasicTrailingStep8(s: string)
    requires s == "[tru" + "e, f" + "alse" + ", nu" + "ll, " + "]"
    ensures ParseValue(s, 14, 1, false, true) == Parsed(Null, 18)
  {
    assert SkipTrivia(s, 14) == 14;
    ArrayBasicTrailingStep7(s);
  }

  lemma ArrayBasicTrailingStep9(s: string)
    requires s == "[tru" + "e, f" + "alse" + ", nu" + "ll, " + "]"
    ensures SkipTrivia(s, 19) == 20
  {
    assert SkipTrivia(s, 20) == 20;
  }

  lemma ArrayBasicTrailingStep10(s: string)
    requires s == "[tru" + "e, f" + "alse" + ", nu" + "ll, " + "]"
    ensures ParseElements(s, 14, 1, [Bool(true), Bool(false)], true) == Parsed(List([Bool(true), Bool(false), Null]), 21)
  {
    assert [Bool(true), Bool(false)] + [Null] == [Bool(true), Bool(false), Null];
    assert SkipTrivia(s, 18) == 18;
    assert Lex(s, 18) == Lexed(ListSeparator, 19);
    ArrayBasicTrailingStep9(s);
    assert Lex(s, 20) == Lexed(ArrayEnd, 21);
    ArrayBasicTrailingStep8(s);
  }

  lemma ArrayBasicTrailingStep11(s: string)
    requires s == "[tru" + "e, f" + "alse" + ", nu" + "ll, " + "]"
    ensures [Bool(true)] + [Bool(false)] == [Bool(true), Bool(false)] && SkipTrivia(s, 12) == 12 && Lex(s, 12) == Lexed(ListSeparator, 13) && SkipTrivia(s, 13) == 14 && Lex(s, 14) == Lexed(NullToken, 18)
  {
    assert [Bool(true)] + [Bool(false)] == [Bool(true), Bool(false)];
    assert SkipTrivia(s, 12) == 12;
    assert Lex(s, 12) == Lexed(ListSeparator, 13);
    ArrayBasicTrailingStep6(s);
    ArrayBasicTrailingStep7(s);
  }

  lemma ArrayBasicTrailingStep12(s: string)
    requires s == "[tru" + "e, f" + "alse" + ", nu" + "ll, " + "]"
    ensures ParseElements(s, 7, 1, [Bool(true)], true) == Parsed(List([Bool(true), Bool(false), Null]), 21)
  {
    ArrayBasicTrailingStep11(s);
    ArrayBasicTrailingStep5(s);
    ArrayBasicTrailingStep10(s);
  }

  lemma ArrayBasicTrailingStep13(s: string)
    requires s == "[tru" + "e, f" + "alse" + ", nu" + "ll, " + "]"
    ensures [] + [Bool(true)] == [Bool(true)] && SkipTrivia(s, 5) == 5 && Lex(s, 5) == Lexed(ListSeparator, 6) && SkipTrivia(s, 6) == 7 && Lex(s, 7) == Lexed(FalseToken, 12)
  {
    assert [] + [Bool(true)] == [Bool(true)];
    assert SkipTrivia(s, 5) == 5;
    assert Lex(s, 5) == Lexed(ListSeparator, 6);
    ArrayBasicTrailingStep3(s);
    ArrayBasicTrailingStep4(s);
  }

  lemma ArrayBasicTrailingStep14(s: string)
    requires s == "[tru" + "e, f" + "alse" + ", nu" + "ll, " + "]"
    ensures ParseElements(s, 1, 1, [], true) == Parsed(List([Bool(true), Bool(false), Null]), 21)
  {
    ArrayBasicTrailingStep13(s);
    ArrayBasicTrailingStep2(s);
    ArrayBasicTrailingStep12(s);
  }

  lemma ArrayBasicTrailingStep15(s: string)
    requires s == "[tru" + "e, f" + "alse" + ", nu" + "ll, " + "]"
    ensures ParseArray(s, 1, 1, true) == Parsed(List([Bool(true), Bool(false), Null]), 21)
  {
    assert SkipTrivia(s, 1) == 1;
    ArrayBasicTrailingStep1(s);
    ArrayBasicTrailingStep14(s);
  }

  lemma ArrayBasicTrailingStep16(s: string)
    requires s == "[tru" + "e, f" + "alse" + ", nu" + "ll, " + "]"
    ensures ParseValue(s, 0, 0, true, true) == Parsed(List([Bool(true), Bool(false), Null]), 21)
  {
    RootList(s, true, true);
    ArrayBasicTrailingStep15(s);
  }

  /** An empty list. */
  lemma EmptyArray(s: string)
    requires s == "[]"
    ensures Read(s, false) == Some(List([]))
  {
    assert SkipTrivia(s, 2) == 2;
    assert Lex(s, 2) == Lexed(EndOfInput, 2);
    EmptyArrayStep2(s);
  }

  lemma EmptyArrayStep1(s: string)
    requires s == "[]"
    ensures ParseArray(s, 1, 1, false) == Parsed(List([]), 2)
  {
    assert SkipTrivia(s, 1) == 1;
    assert Lex(s, 1) == Lexed(ArrayEnd, 2);
  }

  lemma EmptyArrayStep2(s: string)
    requires s == "[]"
    ensures ParseValue(s, 0, 0, true, false) == Parsed(List([]), 2)
  {
    RootList(s, true, false);
    EmptyArrayStep1(s);
  }

  /** Two commas in a row are refused. */
  lemma ArrayDoubleComma(s: string)
    requires s == "[tru" + "e,, " + "null" + "]"
    ensures Read(s, false) == None
  {
    ArrayDoubleCommaStep11(s);
    ArrayDoubleCommaStep12(s);
    ArrayDoubleCommaStep8(s);
  }

  lemma ArrayDoubleCommaStep1(s: string)
    requires s == "[tru" + "e,, " + "null" + "]"
    ensures Lex(s, 1) == Lexed(TrueToken, 5)
  {
    TrueAt(s, 1);
  }

  lemma ArrayDoubleCommaStep2(s: string)
    requires s == "[tru" + "e,, " + "null" + "]"
    ensures ParseValue(s, 1, 1, false, false) == Parsed(Bool(true), 5)
  {
    assert SkipTrivia(s, 1) == 1;
    ArrayDoubleCommaStep1(s);
  }

  lemma ArrayDoubleCommaStep3(s: string)
    requires s == "[tru" + "e,, " + "null" + "]"
    ensures ParseValue(s, 6, 1, false, false) == Failed(SyntaxError, 6)
  {
    assert SkipTrivia(s, 6) == 6;
    assert Lex(s, 6) == Lexed(ListSeparator, 7);
  }

  lemma ArrayDoubleCommaStep4(s: string)
    requires s == "[tru" + "e,, " + "null" + "]"
    ensures ParseElements(s, 6, 1, [Bool(true)], false) == Failed(SyntaxError, 6)
  {
    ArrayDoubleCommaStep3(s);
  }

  lemma ArrayDoubleCommaStep5(s: string)
    requires s == "[tru" + "e,, " + "null" + "]"
    ensures [] + [Bool(true)] == [Bool(true)] && SkipTrivia(s, 5) == 5 && Lex(s, 5) == Lexed(ListSeparator, 6) && SkipTrivia(s, 6) == 6 && Lex(s, 6) == Lexed(ListSeparator, 7)
  {
    assert [] + [Bool(true)] == [Bool(true)];
    assert SkipTrivia(s, 5) == 5;
    assert Lex(s, 5) == Lexed(ListSeparator, 6);
    assert SkipTrivia(s, 6) == 6;
    assert Lex(s, 6) == Lexed(ListSeparator, 7);
  }

  lemma ArrayDoubleCommaStep6(s: string)
    requires s == "[tru" + "e,, " + "null" + "]"
    ensures ParseElements(s, 1, 1, [], false) == Failed(SyntaxError, 6)
  {
    ArrayDoubleCommaStep5(s);
    ArrayDoubleCommaStep2(s);
    ArrayDoubleCommaStep4(s);
  }

  lemma ArrayDoubleCommaStep7(s: string)
    requires s == "[tru" + "e,, " + "null" + "]"
    ensures ParseArray(s, 1, 1, false) == Failed(SyntaxError, 6)
  {
    assert SkipTrivia(s, 1) == 1;
    ArrayDoubleCommaStep1(s);
    ArrayDoubleCommaStep6(s);
  }

  lemma ArrayDoubleCommaStep8(s: string)
    requires s == "[tru" + "e,, " + "null" + "]"
    ensures ParseValue(s, 0, 0, true, false) == Failed(SyntaxError, 6)
  {
    RootList(s, true, false);
    ArrayDoubleCommaStep7(s);
  }

  lemma ArrayDoubleCommaStep9(s: string)
    requires s == "[tru" + "e,, " + "null" + "]"
    ensures LineColumn(s[..1]) == (1, 2) && s[..2][..1] == s[..1] && LineColumn(s[..2]) == (1, 3) && s[..3][..2] == s[..2] && LineColumn(s[..3]) == (1, 4)
  {
    assert LineColumn(s[..1]) == (1, 2);
    assert s[..2][..1] == s[..1];
    assert LineColumn(s[..2]) == (1, 3);
    assert s[..3][..2] == s[..2];
    assert LineColumn(s[..3]) == (1, 4);
  }

  lemma ArrayDoubleCommaStep10(s: string)
    requires s == "[tru" + "e,, " + "null" + "]"
    ensures s[..4][..3] == s[..3] && LineColumn(s[..4]) == (1, 5) && s[..5][..4] == s[..4]
  {
    ArrayDoubleCommaStep9(s);
    assert s[..4][..3] == s[..3];
    assert LineColumn(s[..4]) == (1, 5);
    assert s[..5][..4] == s[..4];
  }

  lemma ArrayDoubleCommaStep11(s: string)
    requires s == "[tru" + "e,, " + "null" + "]"
    ensures LineColumn(s[..5]) == (1, 6)
  {
    ArrayDoubleCommaStep9(s);
    ArrayDoubleCommaStep10(s);
  }

  lemma ArrayDoubleCommaStep12(s: string)
    requires s == "[tru" + "e,, " + "null" + "]"
    ensures LineColumn(s[..6]) == (1, 7)
  {
    ArrayDoubleCommaStep11(s);
    assert s[..6][..5] == s[..5];
  }

  /** Two commas in a row are refused even when trailing commas are allowed. */
  lemma ArrayDoubleCommaTrailing(s: string)
    requires s == "[tru" + "e,, " + "null" + "]"
    ensures Read(s, true) == None
  {
    ArrayDoubleCommaTrailingStep11(s);
    ArrayDoubleCommaTrailingStep12(s);
    ArrayDoubleCommaTrailingStep8(s);
  }

  lemma ArrayDoubleCommaTrailingStep1(s: string)
    requires s == "[tru" + "e,, " + "null" + "]"
    ensures Lex(s, 1) == Lexed(TrueToken, 5)
  {
    TrueAt(s, 1);
  }

  lemma ArrayDoubleCommaTrailingStep2(s: string)
    requires s == "[tru" + "e,, " + "null" + "]"
    ensures ParseValue(s, 1, 1, false, true) == Parsed(Bool(true), 5)
  {
    assert SkipTrivia(s, 1) == 1;
    ArrayDoubleCommaTrailingStep1(s);
  }

  lemma ArrayDoubleCommaTrailingStep3(s: string)
    requires s == "[tru" + "e,, " + "null" + "]"
    ensures ParseValue(s, 6, 1, false, true) == Failed(SyntaxError, 6)
  {
    assert SkipTrivia(s, 6) == 6;
    assert Lex(s, 6) == Lexed(ListSeparator, 7);
  }

  lemma ArrayDoubleCommaTrailingStep4(s: string)
    requires s == "[tru" + "e,, " + "null" + "]"
    ensures ParseElements(s, 6, 1, [Bool(true)], true) == Failed(SyntaxError, 6)
  {
    ArrayDoubleCommaTrailingStep3(s);
  }

  lemma ArrayDoubleCommaTrailingStep5(s: string)
    requires s == "[tru" + "e,, " + "null" + "]"
    ensures [] + [Bool(true)] == [Bool(true)] && SkipTrivia(s, 5) == 5 && Lex(s, 5) == Lexed(ListSeparator, 6) && SkipTrivia(s, 6) == 6 && Lex(s, 6) == Lexed(ListSeparator, 7)
  {
    assert [] + [Bool(true)] == [Bool(true)];
    assert SkipTrivia(s, 5) == 5;
    assert Lex(s, 5) == Lexed(ListSeparator, 6);
    assert SkipTrivia(s, 6) == 6;
    assert Lex(s, 6) == Lexed(ListSeparator, 7);
  }

  lemma ArrayDoubleCommaTrailingStep6(s: string)
    requires s == "[tru" + "e,, " + "null" + "]"
    ensures ParseElements(s, 1, 1, [], true) == Failed(SyntaxError, 6)
  {
    ArrayDoubleCommaTrailingStep5(s);
    ArrayDoubleCommaTrailingStep2(s);
    ArrayDoubleCommaTrailingStep4(s);
  }

  lemma ArrayDoubleCommaTrailingStep7(s: string)
    requires s == "[tru" + "e,, " + "null" + "]"
    ensures ParseArray(s, 1, 1, true) == Failed(SyntaxError, 6)
  {
    assert SkipTrivia(s, 1) == 1;
    ArrayDoubleCommaTrailingStep1(s);
    ArrayDoubleCommaTrailingStep6(s);
  }

  lemma ArrayDoubleCommaTrailingStep8(s: string)
    requires s == "[tru" + "e,, " + "null" + "]"
    ensures ParseValue(s, 0, 0, true, true) == Failed(SyntaxError, 6)
  {
    RootList(s, true, true);
    ArrayDoubleCommaTrailingStep7(s);
  }

  lemma ArrayDoubleCommaTrailingStep9(s: string)
    requires s == "[tru" + "e,, " + "null" + "]"
    ensures LineColumn(s[..1]) == (1, 2) && s[..2][..1] == s[..1] && LineColumn(s[..2]) == (1, 3) && s[..3][..2] == s[..2] && LineColumn(s[..3]) == (1, 4)
  {
    assert LineColumn(s[..1]) == (1, 2);
    assert s[..2][..1] == s[..1];
    assert LineColumn(s[..2]) == (1, 3);
    assert s[..3][..2] == s[..2];
    assert LineColumn(s[..3]) == (1, 4);
  }

  lemma ArrayDoubleCommaTrailingStep10(s: string)
    requires s == "[tru" + "e,, " + "null" + "]"
    ensures s[..4][..3] == s[..3] && LineColumn(s[..4]) == (1, 5) && s[..5][..4] == s[..4]
  {
    ArrayDoubleCommaTrailingStep9(s);
    assert s[..4][..3] == s[..3];
    assert LineColumn(s[..4]) == (1, 5);
    assert s[..5][..4] == s[..4];
  }

  lemma ArrayDoubleCommaTrailingStep11(s: string)
    requires s == "[tru" + "e,, " + "null" + "]"
    ensures LineColumn(s[..5]) == (1, 6)
  {
    ArrayDoubleCommaTrailingStep9(s);
    ArrayDoubleCommaTrailingStep10(s);
  }

  lemma ArrayDoubleCommaTrailingStep12(s: string)
    requires s == "[tru" + "e,, " + "null" + "]"
    ensures LineColumn(s[..6]) == (1, 7)
  {
    ArrayDoubleCommaTrailingStep11(s);
    assert s[..6][..5] == s[..5];
  }

  /** Elements without a comma are refused. */
  lemma ArrayNoComma(s: string)
    requires s == "[tru" + "e nu" + "ll]"
    ensures Read(s, false) == None
  {
    ArrayNoCommaStep10(s);
    ArrayNoCommaStep11(s);
    ArrayNoCommaStep7(s);
  }

  lemma ArrayNoCommaStep1(s: string)
    requires s == "[tru" + "e nu" + "ll]"
    ensures Lex(s, 1) == Lexed(TrueToken, 5)
  {
    TrueAt(s, 1);
  }

  lemma ArrayNoCommaStep2(s: string)
    requires s == "[tru" + "e nu" + "ll]"
    ensures ParseValue(s, 1, 1, false, false) == Parsed(Bool(true), 5)
  {
    assert SkipTrivia(s, 1) == 1;
    ArrayNoCommaStep1(s);
  }

  lemma ArrayNoCommaStep3(s: string)
    requires s == "[tru" + "e nu" + "ll]"
    ensures SkipTrivia(s, 5) == 6
  {
    assert SkipTrivia(s, 6) == 6;
  }

  lemma ArrayNoCommaStep4(s: string)
    requires s == "[tru" + "e nu" + "ll]"
    ensures Lex(s, 6) == Lexed(NullToken, 10)
  {
    NullAt(s, 6);
  }

  lemma ArrayNoCommaStep5(s: string)
    requires s == "[tru" + "e nu" + "ll]"
    ensures ParseElements(s, 1, 1, [], false) == Failed(SyntaxError, 6)
  {
    assert [] + [Bool(true)] == [Bool(true)];
    ArrayNoCommaStep3(s);
    ArrayNoCommaStep4(s);
    ArrayNoCommaStep2(s);
  }

  lemma ArrayNoCommaStep6(s: string)
    requires s == "[tru" + "e nu" + "ll]"
    ensures ParseArray(s, 1, 1, false) == Failed(SyntaxError, 6)
  {
    assert SkipTrivia(s, 1) == 1;
    ArrayNoCommaStep1(s);
    ArrayNoCommaStep5(s);
  }

  lemma ArrayNoCommaStep7(s: string)
    requires s == "[tru" + "e nu" + "ll]"
    ensures ParseValue(s, 0, 0, true, false) == Failed(SyntaxError, 6)
  {
    RootList(s, true, false);
    ArrayNoCommaStep6(s);
  }

  lemma ArrayNoCommaStep8(s: string)
    requires s == "[tru" + "e nu" + "ll]"
    ensures LineColumn(s[..1]) == (1, 2) && s[..2][..1] == s[..1] && LineColumn(s[..2]) == (1, 3) && s[..3][..2] == s[..2] && LineColumn(s[..3]) == (1, 4)
  {
    assert LineColumn(s[..1]) == (1, 2);
    assert s[..2][..1] == s[..1];
    assert LineColumn(s[..2]) == (1, 3);
    assert s[..3][..2] == s[..2];
    assert LineColumn(s[..3]) == (1, 4);
  }

  lemma ArrayNoCommaStep9(s: string)
    requires s == "[tru" + "e nu" + "ll]"
    ensures s[..4][..3] == s[..3] && LineColumn(s[..4]) == (1, 5) && s[..5][..4] == s[..4]
  {
    ArrayNoCommaStep8(s);
    assert s[..4][..3] == s[..3];
    assert LineColumn(s[..4]) == (1, 5);
    assert s[..5][..4] == s[..4];
  }

  lemma ArrayNoCommaStep10(s: string)
    requires s == "[tru" + "e nu" + "ll]"
    ensures LineColumn(s[..5]) == (1, 6)
  {
    ArrayNoCommaStep8(s);
    ArrayNoCommaStep9(s);
  }

  lemma ArrayNoCommaStep11(s: string)
    requires s == "[tru" + "e nu" + "ll]"
    ensures LineColumn(s[..6]) == (1, 7)
  {
    ArrayNoCommaStep10(s);
    assert s[..6][..5] == s[..5];
  }

  /** A trailing comma is refused by default. */
  lemma ArrayTrailingRefused(s: string)
    requires s == "[tru" + "e,]"
    ensures Read(s, false) == None
  {
    ArrayTrailingRefusedStep8(s);
    ArrayTrailingRefusedStep9(s);
    ArrayTrailingRefusedStep5(s);
  }

  lemma ArrayTrailingRefusedStep1(s: string)
    requires s == "[tru" + "e,]"
    ensures Lex(s, 1) == Lexed(TrueToken, 5)
  {
    TrueAt(s, 1);
  }

  lemma ArrayTrailingRefusedStep2(s: string)
    requires s == "[tru" + "e,]"
    ensures ParseValue(s, 1, 1, false, false) == Parsed(Bool(true), 5)
  {
    assert SkipTrivia(s, 1) == 1;
    ArrayTrailingRefusedStep1(s);
  }

  lemma ArrayTrailingRefusedStep3(s: string)
    requires s == "[tru" + "e,]"
    ensures ParseElements(s, 1, 1, [], false) == Failed(TrailingComma, 6)
  {
    assert [] + [Bool(true)] == [Bool(true)];
    assert SkipTrivia(s, 5) == 5;
    assert Lex(s, 5) == Lexed(ListSeparator, 6);
    assert SkipTrivia(s, 6) == 6;
    assert Lex(s, 6) == Lexed(ArrayEnd, 7);
    ArrayTrailingRefusedStep2(s);
  }

  lemma ArrayTrailingRefusedStep4(s: string)
    requires s == "[tru" + "e,]"
    ensures ParseArray(s, 1, 1, false) == Failed(TrailingComma, 6)
  {
    assert SkipTrivia(s, 1) == 1;
    ArrayTrailingRefusedStep1(s);
    ArrayTrailingRefusedStep3(s);
  }

  lemma ArrayTrailingRefusedStep5(s: string)
    requires s == "[tru" + "e,]"
    ensures ParseValue(s, 0, 0, true, false) == Failed(TrailingComma, 6)
  {
    RootList(s, true, false);
    ArrayTrailingRefusedStep4(s);
  }

  lemma ArrayTrailingRefusedStep6(s: string)
    requires s == "[tru" + "e,]"
    ensures LineColumn(s[..1]) == (1, 2) && s[..2][..1] == s[..1] && LineColumn(s[..2]) == (1, 3) && s[..3][..2] == s[..2] && LineColumn(s[..3]) == (1, 4)
  {
    assert LineColumn(s[..1]) == (1, 2);
    assert s[..2][..1] == s[..1];
    assert LineColumn(s[..2]) == (1, 3);
    assert s[..3][..2] == s[..2];
    assert LineColumn(s[..3]) == (1, 4);
  }

  lemma ArrayTrailingRefusedStep7(s: string)
    requires s == "[tru" + "e,]"
    ensures s[..4][..3] == s[..3] && LineColumn(s[..4]) == (1, 5) && s[..5][..4] == s[..4]
  {
    ArrayTrailingRefusedStep6(s);
    assert s[..4][..3] == s[..3];
    assert LineColumn(s[..4]) == (1, 5);
    assert s[..5][..4] == s[..4];
  }

  lemma ArrayTrailingRefusedStep8(s: string)
    requires s == "[tru" + "e,]"
    ensures LineColumn(s[..5]) == (1, 6)
  {
    ArrayTrailingRefusedStep6(s);
    ArrayTrailingRefusedStep7(s);
  }

  lemma ArrayTrailingRefusedStep9(s: string)
    requires s == "[tru" + "e,]"
    ensures LineColumn(s[..6]) == (1, 7)
  {
    ArrayTrailingRefusedStep8(s);
    assert s[..6][..5] == s[..5];
  }

  /** A trailing comma is accepted when allowed. */
  lemma ArrayTrailingAllowed(s: string)
    requires s == "[tru" + "e,]"
    ensures Read(s, true) == Some(List([Bool(true)]))
  {
    assert SkipTrivia(s, 7) == 7;
    assert Lex(s, 7) == Lexed(EndOfInput, 7);
    ArrayTrailingAllowedStep5(s);
  }

  lemma ArrayTrailingAllowedStep1(s: string)
    requires s == "[tru" + "e,]"
    ensures Lex(s, 1) == Lexed(TrueToken, 5)
  {
    TrueAt(s, 1);
  }

  lemma ArrayTrailingAllowedStep2(s: string)
    requires s == "[tru" + "e,]"
    ensures ParseValue(s, 1, 1, false, true) == Parsed(Bool(true), 5)
  {
    assert SkipTrivia(s, 1) == 1;
    ArrayTrailingAllowedStep1(s);
  }

  lemma ArrayTrailingAllowedStep3(s: string)
    requires s == "[tru" + "e,]"
    ensures ParseElements(s, 1, 1, [], true) == Parsed(List([Bool(true)]), 7)
  {
    assert [] + [Bool(true)] == [Bool(true)];
    assert SkipTrivia(s, 5) == 5;
    assert Lex(s, 5) == Lexed(ListSeparator, 6);
    assert SkipTrivia(s, 6) == 6;
    assert Lex(s, 6) == Lexed(ArrayEnd, 7);
    ArrayTrailingAllowedStep2(s);
  }

  lemma ArrayTrailingAllowedStep4(s: string)
    requires s == "[tru" + "e,]"
    ensures ParseArray(s, 1, 1, true) == Parsed(List([Bool(true)]), 7)
  {
    assert SkipTrivia(s, 1) == 1;
    ArrayTrailingAllowedStep1(s);
    ArrayTrailingAllowedStep3(s);
  }

  lemma ArrayTrailingAllowedStep5(s: string)
    requires s == "[tru" + "e,]"
    ensures ParseValue(s, 0, 0, true, true) == Parsed(List([Bool(true)]), 7)
  {
    RootList(s, true, true);
    ArrayTrailingAllowedStep4(s);
  }

  /** A lone comma is not an empty element. */
  lemma ArrayLoneComma(s: string)
    requires s == "[,]"
    ensures Read(s, true) == None
  {
    ArrayLoneCommaStep5(s);
    ArrayLoneCommaStep4(s);
  }

  lemma ArrayLoneCommaStep1(s: string)
    requires s == "[,]"
    ensures ParseValue(s, 1, 1, false, true) == Failed(SyntaxError, 1)
  {
    assert SkipTrivia(s, 1) == 1;
    assert Lex(s, 1) == Lexed(ListSeparator, 2);
  }

  lemma ArrayLoneCommaStep2(s: string)
    requires s == "[,]"
    ensures ParseElements(s, 1, 1, [], true) == Failed(SyntaxError, 1)
  {
    ArrayLoneCommaStep1(s);
  }

  lemma ArrayLoneCommaStep3(s: string)
    requires s == "[,]"
    ensures ParseArray(s, 1, 1, true) == Failed(SyntaxError, 1)
  {
    assert SkipTrivia(s, 1) == 1;
    assert Lex(s, 1) == Lexed(ListSeparator, 2);
    ArrayLoneCommaStep2(s);
  }

  lemma ArrayLoneCommaStep4(s: string)
    requires s == "[,]"
    ensures ParseValue(s, 0, 0, true, true) == Failed(SyntaxError, 1)
  {
    RootList(s, true, true);
    ArrayLoneCommaStep3(s);
  }

  lemma ArrayLoneCommaStep5(s: string)
    requires s == "[,]"
    ensures LineColumn(s[..1]) == (1, 2)
  {
  }

  /** Two trailing commas are refused. */
  lemma ArrayTwoTrailingCommas(s: string)
    requires s == "[tru" + "e,,]"
    ensures Read(s, true) == None
  {
    ArrayTwoTrailingCommasStep11(s);
    ArrayTwoTrailingCommasStep12(s);
    ArrayTwoTrailingCommasStep8(s);
  }

  lemma ArrayTwoTrailingCommasStep1(s: string)
    requires s == "[tru" + "e,,]"
    ensures Lex(s, 1) == Lexed(TrueToken, 5)
  {
    TrueAt(s, 1);
  }

  lemma ArrayTwoTrailingCommasStep2(s: string)
    requires s == "[tru" + "e,,]"
    ensures ParseValue(s, 1, 1, false, true) == Parsed(Bool(true), 5)
  {
    assert SkipTrivia(s, 1) == 1;
    ArrayTwoTrailingCommasStep1(s);
  }

  lemma ArrayTwoTrailingCommasStep3(s: string)
    requires s == "[tru" + "e,,]"
    ensures ParseValue(s, 6, 1, false, true) == Failed(SyntaxError, 6)
  {
    assert SkipTrivia(s, 6) == 6;
    assert Lex(s, 6) == Lexed(ListSeparator, 7);
  }

  lemma ArrayTwoTrailingCommasStep4(s: string)
    requires s == "[tru" + "e,,]"
    ensures ParseElements(s, 6, 1, [Bool(true)], true) == Failed(SyntaxError, 6)
  {
    ArrayTwoTrailingCommasStep3(s);
  }

  lemma ArrayTwoTrailingCommasStep5(s: string)
    requires s == "[tru" + "e,,]"
    ensures [] + [Bool(true)] == [Bool(true)] && SkipTrivia(s, 5) == 5 && Lex(s, 5) == Lexed(ListSeparator, 6) && SkipTrivia(s, 6) == 6 && Lex(s, 6) == Lexed(ListSeparator, 7)
  {
    assert [] + [Bool(true)] == [Bool(true)];
    assert SkipTrivia(s, 5) == 5;
    assert Lex(s, 5) == Lexed(ListSeparator, 6);
    assert SkipTrivia(s, 6) == 6;
    assert Lex(s, 6) == Lexed(ListSeparator, 7);
  }

  lemma ArrayTwoTrailingCommasStep6(s: string)
    requires s == "[tru" + "e,,]"
    ensures ParseElements(s, 1, 1, [], true) == Failed(SyntaxError, 6)
  {
    ArrayTwoTrailingCommasStep5(s);
    ArrayTwoTrailingCommasStep2(s);
    ArrayTwoTrailingCommasStep4(s);
  }

  lemma ArrayTwoTrailingCommasStep7(s: string)
    requires s == "[tru" + "e,,]"
    ensures ParseArray(s, 1, 1, true) == Failed(SyntaxError, 6)
  {
    assert SkipTrivia(s, 1) == 1;
    ArrayTwoTrailingCommasStep1(s);
    ArrayTwoTrailingCommasStep6(s);
  }

  lemma ArrayTwoTrailingCommasStep8(s: string)
    requires s == "[tru" + "e,,]"
    ensures ParseValue(s, 0, 0, true, true) == Failed(SyntaxError, 6)
  {
    RootList(s, true, true);
    ArrayTwoTrailingCommasStep7(s);
  }

  lemma ArrayTwoTrailingCommasStep9(s: string)
    requires s == "[tru" + "e,,]"
    ensures LineColumn(s[..1]) == (1, 2) && s[..2][..1] == s[..1] && LineColumn(s[..2]) == (1, 3) && s[..3][..2] == s[..2] && LineColumn(s[..3]) == (1, 4)
  {
    assert LineColumn(s[..1]) == (1, 2);
    assert s[..2][..1] == s[..1];
    assert LineColumn(s[..2]) == (1, 3);
    assert s[..3][..2] == s[..2];
    assert LineColumn(s[..3]) == (1, 4);
  }

  lemma ArrayTwoTrailingCommasStep10(s: string)
    requires s == "[tru" + "e,,]"
    ensures s[..4][..3] == s[..3] && LineColumn(s[..4]) == (1, 5) && s[..5][..4] == s[..4]
  {
    ArrayTwoTrailingCommasStep9(s);
    assert s[..4][..3] == s[..3];
    assert LineColumn(s[..4]) == (1, 5);
    assert s[..5][..4] == s[..4];
  }

  lemma ArrayTwoTrailingCommasStep11(s: string)
    requires s == "[tru" + "e,,]"
    ensures LineColumn(s[..5]) == (1, 6)
  {
    ArrayTwoTrailingCommasStep9(s);
    ArrayTwoTrailingCommasStep10(s);
  }

  lemma ArrayTwoTrailingCommasStep12(s: string)
    requires s == "[tru" + "e,,]"
    ensures LineColumn(s[..6]) == (1, 7)
  {
    ArrayTwoTrailingCommasStep11(s);
    assert s[..6][..5] == s[..5];
  }

  /** A leading comma is refused. */
  lemma ArrayLeadingComma(s: string)
    requires s == "[,tr" + "ue,]"
    ensures Read(s, true) == None
  {
    ArrayLeadingCommaStep5(s);
    ArrayLeadingCommaStep4(s);
  }

  lemma ArrayLeadingCommaStep1(s: string)
    requires s == "[,tr" + "ue,]"
    ensures ParseValue(s, 1, 1, false, true) == Failed(SyntaxError, 1)
  {
    assert SkipTrivia(s, 1) == 1;
    assert Lex(s, 1) == Lexed(ListSeparator, 2);
  }

  lemma ArrayLeadingCommaStep2(s: string)
    requires s == "[,tr" + "ue,]"
    ensures ParseElements(s, 1, 1, [], true) == Failed(SyntaxError, 1)
  {
    ArrayLeadingCommaStep1(s);
  }

  lemma ArrayLeadingCommaStep3(s: string)
    requires s == "[,tr" + "ue,]"
    ensures ParseArray(s, 1, 1, true) == Failed(SyntaxError, 1)
  {
    assert SkipTrivia(s, 1) == 1;
    assert Lex(s, 1) == Lexed(ListSeparator, 2);
    ArrayLeadingCommaStep2(s);
  }

  lemma ArrayLeadingCommaStep4(s: string)
    requires s == "[,tr" + "ue,]"
    ensures ParseValue(s, 0, 0, true, true) == Failed(SyntaxError, 1)
  {
    RootList(s, true, true);
    ArrayLeadingCommaStep3(s);
  }

  lemma ArrayLeadingCommaStep5(s: string)
    requires s == "[,tr" + "ue,]"
    ensures LineColumn(s[..1]) == (1, 2)
  {
  }

  /** An empty element in the middle is refused. */
  lemma ArrayEmptyMiddle(s: string)
    requires s == "[tru" + "e,,f" + "alse" + "]"
    ensures Read(s, true) == None
  {
    ArrayEmptyMiddleStep11(s);
    ArrayEmptyMiddleStep12(s);
    ArrayEmptyMiddleStep8(s);
  }

  lemma ArrayEmptyMiddleStep1(s: string)
    requires s == "[tru" + "e,,f" + "alse" + "]"
    ensures Lex(s, 1) == Lexed(TrueToken, 5)
  {
    TrueAt(s, 1);
  }

  lemma ArrayEmptyMiddleStep2(s: string)
    requires s == "[tru" + "e,,f" + "alse" + "]"
    ensures ParseValue(s, 1, 1, false, true) == Parsed(Bool(true), 5)
  {
    assert SkipTrivia(s, 1) == 1;
    ArrayEmptyMiddleStep1(s);
  }

  lemma ArrayEmptyMiddleStep3(s: string)
    requires s == "[tru" + "e,,f" + "alse" + "]"
    ensures ParseValue(s, 6, 1, false, true) == Failed(SyntaxError, 6)
  {
    assert SkipTrivia(s, 6) == 6;
    assert Lex(s, 6) == Lexed(ListSeparator, 7);
  }

  lemma ArrayEmptyMiddleStep4(s: string)
    requires s == "[tru" + "e,,f" + "alse" + "]"
    ensures ParseElements(s, 6, 1, [Bool(true)], true) == Failed(SyntaxError, 6)
  {
    ArrayEmptyMiddleStep3(s);
  }

  lemma ArrayEmptyMiddleStep5(s: string)
    requires s == "[tru" + "e,,f" + "alse" + "]"
    ensures [] + [Bool(true)] == [Bool(true)] && SkipTrivia(s, 5) == 5 && Lex(s, 5) == Lexed(ListSeparator, 6) && SkipTrivia(s, 6) == 6 && Lex(s, 6) == Lexed(ListSeparator, 7)
  {
    assert [] + [Bool(true)] == [Bool(true)];
    assert SkipTrivia(s, 5) == 5;
    assert Lex(s, 5) == Lexed(ListSeparator, 6);
    assert SkipTrivia(s, 6) == 6;
    assert Lex(s, 6) == Lexed(ListSeparator, 7);
  }

  lemma ArrayEmptyMiddleStep6(s: string)
    requires s == "[tru" + "e,,f" + "alse" + "]"
    ensures ParseElements(s, 1, 1, [], true) == Failed(SyntaxError, 6)
  {
    ArrayEmptyMiddleStep5(s);
    ArrayEmptyMiddleStep2(s);
    ArrayEmptyMiddleStep4(s);
  }

  lemma ArrayEmptyMiddleStep7(s: string)
    requires s == "[tru" + "e,,f" + "alse" + "]"
    ensures ParseArray(s, 1, 1, true) == Failed(SyntaxError, 6)
  {
    assert SkipTrivia(s, 1) == 1;
    ArrayEmptyMiddleStep1(s);
    ArrayEmptyMiddleStep6(s);
  }

  lemma ArrayEmptyMiddleStep8(s: string)
    requires s == "[tru" + "e,,f" + "alse" + "]"
    ensures ParseValue(s, 0, 0, true, true) == Failed(SyntaxError, 6)
  {
    RootList(s, true, true);
    ArrayEmptyMiddleStep7(s);
  }

  lemma ArrayEmptyMiddleStep9(s: string)
    requires s == "[tru" + "e,,f" + "alse" + "]"
    ensures LineColumn(s[..1]) == (1, 2) && s[..2][..1] == s[..1] && LineColumn(s[..2]) == (1, 3) && s[..3][..2] == s[..2] && LineColumn(s[..3]) == (1, 4)
  {
    assert LineColumn(s[..1]) == (1, 2);
    assert s[..2][..1] == s[..1];
    assert LineColumn(s[..2]) == (1, 3);
    assert s[..3][..2] == s[..2];
    assert LineColumn(s[..3]) == (1, 4);
  }

  lemma ArrayEmptyMiddleStep10(s: string)
    requires s == "[tru" + "e,,f" + "alse" + "]"
    ensures s[..4][..3] == s[..3] && LineColumn(s[..4]) == (1, 5) && s[..5][..4] == s[..4]
  {
    ArrayEmptyMiddleStep9(s);
    assert s[..4][..3] == s[..3];
    assert LineColumn(s[..4]) == (1, 5);
    assert s[..5][..4] == s[..4];
  }

  lemma ArrayEmptyMiddleStep11(s: string)
    requires s == "[tru" + "e,,f" + "alse" + "]"
    ensures LineColumn(s[..5]) == (1, 6)
  {
    ArrayEmptyMiddleStep9(s);
    ArrayEmptyMiddleStep10(s);
  }

  lemma ArrayEmptyMiddleStep12(s: string)
    requires s == "[tru" + "e,,f" + "alse" + "]"
    ensures LineColumn(s[..6]) == (1, 7)
  {
    ArrayEmptyMiddleStep11(s);
    assert s[..6][..5] == s[..5];
  }

  /** An empty dictionary. */
  lemma EmptyObject(s: string)
    requires s == "{}"
    ensures Read(s, false) == Some(Dict(map[]))
  {
    assert SkipTrivia(s, 2) == 2;
    assert Lex(s, 2) == Lexed(EndOfInput, 2);
    EmptyObjectStep2(s);
  }

  lemma EmptyObjectStep1(s: string)
    requires s == "{}"
    ensures ParseObject(s, 1, 1, false) == Parsed(Dict(map[]), 2)
  {
    assert SkipTrivia(s, 1) == 1;
    assert Lex(s, 1) == Lexed(ObjectEnd, 2);
  }

  lemma EmptyObjectStep2(s: string)
    requires s == "{}"
    ensures ParseValue(s, 0, 0, true, false) == Parsed(Dict(map[]), 2)
  {
    RootDict(s, true, false);
    EmptyObjectStep1(s);
  }

  /** A key with a period sits beside the nested key it would name as a path. */
  lemma PeriodKeyBesideNested(s: string)
    requires s == "{\"a\"" + ":{\"b" + "\":2}" + ",\"a." + "b\":1" + "}"
    ensures Read(s, false) == Some(Dict(map[[97] := Dict(map[[98] := Integer(2)]), [97, 46, 98] := Integer(1)]))
  {
    assert SkipTrivia(s, 21) == 21;
    assert Lex(s, 21) == Lexed(EndOfInput, 21);
    PeriodKeyBesideNestedStep27(s);
  }

  lemma PeriodKeyBesideNestedStep1(s: string)
    requires s == "{\"a\"" + ":{\"b" + "\":2}" + ",\"a." + "b\":1" + "}"
    ensures Lex(s, 1) == Lexed(StringToken([97]), 4)
  {
    assert [] + [97] == [97];
    assert LexString(s, 1, 3, [97]) == Lexed(StringToken([97]), 4);
    assert LexString(s, 1, 2, []) == Lexed(StringToken([97]), 4);
  }

  lemma PeriodKeyBesideNestedStep2(s: string)
    requires s == "{\"a\"" + ":{\"b" + "\":2}" + ",\"a." + "b\":1" + "}"
    ensures Lex(s, 6) == Lexed(StringToken([98]), 9)
  {
    assert [] + [98] == [98];
    assert LexString(s, 6, 8, [98]) == Lexed(StringToken([98]), 9);
    assert LexString(s, 6, 7, []) == Lexed(StringToken([98]), 9);
  }

  lemma PeriodKeyBesideNestedStep3(s: string)
    requires s == "{\"a\"" + ":{\"b" + "\":2}" + ",\"a." + "b\":1" + "}"
    ensures DigitRunEnd(s, 10) == 11
  {
    assert DigitRunEnd(s, 11) == 11;
  }

  lemma PeriodKeyBesideNestedStep4(s: string)
    requires s == "{\"a\"" + ":{\"b" + "\":2}" + ",\"a." + "b\":1" + "}"
    ensures Lex(s, 10) == Lexed(NumberToken("2"), 11)
  {
    PeriodKeyBesideNestedStep3(s);
    assert ExponentEnd(s, 11) == Some(11);
    assert s[10..11] == "2";
    assert LexNumber(s, 10) == Lexed(NumberToken("2"), 11);
  }

  lemma PeriodKeyBesideNestedStep5(s: string)
    requires s == "{\"a\"" + ":{\"b" + "\":2}" + ",\"a." + "b\":1" + "}"
    ensures DigitsValue("2") == 2
  {
  }

  lemma PeriodKeyBesideNestedStep6(s: string)
    requires s == "{\"a\"" + ":{\"b" + "\":2}" + ",\"a." + "b\":1" + "}"
    ensures ParseValue(s, 10, 2, false, false) == Parsed(Integer(2), 11)
  {
    assert SkipTrivia(s, 10) == 10;
    PeriodKeyBesideNestedStep4(s);
    PeriodKeyBesideNestedStep5(s);
    assert DecodeNumber("2") == Integer(2);
  }

  lemma PeriodKeyBesideNestedStep7(s: string)
    requires s == "{\"a\"" + ":{\"b" + "\":2}" + ",\"a." + "b\":1" + "}"
    ensures ParseMemberValue(s, 10, 2, map[], [98], false) == Parsed(Dict(map[[98] := Integer(2)]), 12)
  {
    assert map[][[98] := Integer(2)] == map[[98] := Integer(2)];
    assert SkipTrivia(s, 11) == 11;
    assert Lex(s, 11) == Lexed(ObjectEnd, 12);
    PeriodKeyBesideNestedStep6(s);
  }

  lemma PeriodKeyBesideNestedStep8(s: string)
    requires s == "{\"a\"" + ":{\"b" + "\":2}" + ",\"a." + "b\":1" + "}"
    ensures ParseMembers(s, 6, 2, map[], false) == Parsed(Dict(map[[98] := Integer(2)]), 12)
  {
    PeriodKeyBesideNestedStep2(s);
    assert SkipTrivia(s, 9) == 9;
    assert Lex(s, 9) == Lexed(PairSeparator, 10);
    assert SkipTrivia(s, 10) == 10;
    PeriodKeyBesideNestedStep7(s);
  }

  lemma PeriodKeyBesideNestedStep9(s: string)
    requires s == "{\"a\"" + ":{\"b" + "\":2}" + ",\"a." + "b\":1" + "}"
    ensures ParseObject(s, 6, 2, false) == Parsed(Dict(map[[98] := Integer(2)]), 12)
  {
    assert SkipTrivia(s, 6) == 6;
    PeriodKeyBesideNestedStep2(s);
    PeriodKeyBesideNestedStep8(s);
  }

  lemma PeriodKeyBesideNestedStep10(s: string)
    requires s == "{\"a\"" + ":{\"b" + "\":2}" + ",\"a." + "b\":1" + "}"
    ensures ParseValue(s, 5, 1, false, false) == Parsed(Dict(map[[98] := Integer(2)]), 12)
  {
    assert SkipTrivia(s, 5) == 5;
    assert Lex(s, 5) == Lexed(ObjectBegin, 6);
    PeriodKeyBesideNestedStep9(s);
  }

  lemma PeriodKeyBesideNestedStep11(s: string)
    requires s == "{\"a\"" + ":{\"b" + "\":2}" + ",\"a." + "b\":1" + "}"
    ensures LexString(s, 13, 17, [97, 46, 98]) == Lexed(StringToken([97, 46, 98]), 18)
  {
  }

  lemma PeriodKeyBesideNestedStep12(s: string)
    requires s == "{\"a\"" + ":{\"b" + "\":2}" + ",\"a." + "b\":1" + "}"
    ensures [] + [97] == [97] && [97] + [46] == [97, 46] && [97, 46] + [98] == [97, 46, 98] && LexString(s, 13, 17, [97, 46, 98]) == Lexed(StringToken([97, 46, 98]), 18) && LexString(s, 13, 16, [97, 46]) == Lexed(StringToken([97, 46, 98]), 18)
  {
    assert [] + [97] == [97];
    assert [97] + [46] == [97, 46];
    assert [97, 46] + [98] == [97, 46, 98];
    PeriodKeyBesideNestedStep11(s);
    assert LexString(s, 13, 16, [97, 46]) == Lexed(StringToken([97, 46, 98]), 18);
  }

  lemma PeriodKeyBesideNestedStep13(s: string)
    requires s == "{\"a\"" + ":{\"b" + "\":2}" + ",\"a." + "b\":1" + "}"
    ensures LexString(s, 13, 15, [97]) == Lexed(StringToken([97, 46, 98]), 18) && LexString(s, 13, 14, []) == Lexed(StringToken([97, 46, 98]), 18)
  {
    PeriodKeyBesideNestedStep12(s);
    assert LexString(s, 13, 15, [97]) == Lexed(StringToken([97, 46, 98]), 18);
    assert LexString(s, 13, 14, []) == Lexed(StringToken([97, 46, 98]), 18);
  }

  lemma PeriodKeyBesideNestedStep14(s: string)
    requires s == "{\"a\"" + ":{\"b" + "\":2}" + ",\"a." + "b\":1" + "}"
    ensures Lex(s, 13) == Lexed(StringToken([97, 46, 98]), 18)
  {
    PeriodKeyBesideNestedStep12(s);
    PeriodKeyBesideNestedStep13(s);
  }

  lemma PeriodKeyBesideNestedStep15(s: string)
    requires s == "{\"a\"" + ":{\"b" + "\":2}" + ",\"a." + "b\":1" + "}"
    ensures [] + [97] == [97] && [97] + [46] == [97, 46] && [97, 46] + [98] == [97, 46, 98] && LexString(s, 13, 17, [97, 46, 98]) == Lexed(StringToken([97, 46, 98]), 18) && LexString(s, 13, 16, [97, 46]) == Lexed(StringToken([97, 46, 98]), 18)
  {
    assert [] + [97] == [97];
    assert [97] + [46] == [97, 46];
    assert [97, 46] + [98] == [97, 46, 98];
    PeriodKeyBesideNestedStep11(s);
    assert LexString(s, 13, 16, [97, 46]) == Lexed(StringToken([97, 46, 98]), 18);
  }

  lemma PeriodKeyBesideNestedStep16(s: string)
    requires s == "{\"a\"" + ":{\"b" + "\":2}" + ",\"a." + "b\":1" + "}"
    ensures LexString(s, 13, 15, [97]) == Lexed(StringToken([97, 46, 98]), 18) && LexString(s, 13, 14, []) == Lexed(StringToken([97, 46, 98]), 18)
  {
    PeriodKeyBesideNestedStep15(s);
    assert LexString(s, 13, 15, [97]) == Lexed(StringToken([97, 46, 98]), 18);
    assert LexString(s, 13, 14, []) == Lexed(StringToken([97, 46, 98]), 18);
  }

  lemma PeriodKeyBesideNestedStep17(s: string)
    requires s == "{\"a\"" + ":{\"b" + "\":2}" + ",\"a." + "b\":1" + "}"
    ensures DigitRunEnd(s, 20) == 20
  {
  }

  lemma PeriodKeyBesideNestedStep18(s: string)
    requires s == "{\"a\"" + ":{\"b" + "\":2}" + ",\"a." + "b\":1" + "}"
    ensures Lex(s, 19) == Lexed(NumberToken("1"), 20)
  {
    PeriodKeyBesideNestedStep17(s);
    assert DigitRunEnd(s, 19) == 20;
    assert ExponentEnd(s, 20) == Some(20);
    assert s[19..20] == "1";
    assert LexNumber(s, 19) == Lexed(NumberToken("1"), 20);
  }

  lemma PeriodKeyBesideNestedStep19(s: string)
    requires s == "{\"a\"" + ":{\"b" + "\":2}" + ",\"a." + "b\":1" + "}"
    ensures DigitsValue("1") == 1
  {
  }

  lemma PeriodKeyBesideNestedStep20(s: string)
    requires s == "{\"a\"" + ":{\"b" + "\":2}" + ",\"a." + "b\":1" + "}"
    ensures ParseValue(s, 19, 1, false, false) == Parsed(Integer(1), 20)
  {
    assert SkipTrivia(s, 19) == 19;
    PeriodKeyBesideNestedStep18(s);
    PeriodKeyBesideNestedStep19(s);
    assert DecodeNumber("1") == Integer(1);
  }

  lemma PeriodKeyBesideNestedStep21(s: string)
    requires s == "{\"a\"" + ":{\"b" + "\":2}" + ",\"a." + "b\":1" + "}"
    ensures ParseMemberValue(s, 19, 1, map[[97] := Dict(map[[98] := Integer(2)])], [97, 46, 98], false) == Parsed(Dict(map[[97] := Dict(map[[98] := Integer(2)]), [97, 46, 98] := Integer(1)]), 21)
  {
    assert map[[97] := Dict(map[[98] := Integer(2)])][[97, 46, 98] := Integer(1)] == map[[97] := Dict(map[[98] := Integer(2)]), [97, 46, 98] := Integer(1)];
    assert SkipTrivia(s, 20) == 20;
    assert Lex(s, 20) == Lexed(ObjectEnd, 21);
    PeriodKeyBesideNestedStep20(s);
  }

  lemma PeriodKeyBesideNestedStep22(s: string)
    requires s == "{\"a\"" + ":{\"b" + "\":2}" + ",\"a." + "b\":1" + "}"
    ensures ParseMembers(s, 13, 1, map[[97] := Dict(map[[98] := Integer(2)])], false) == Parsed(Dict(map[[97] := Dict(map[[98] := Integer(2)]), [97, 46, 98] := Integer(1)]), 21)
  {
    PeriodKeyBesideNestedStep14(s);
    assert SkipTrivia(s, 18) == 18;
    assert Lex(s, 18) == Lexed(PairSeparator, 19);
    assert SkipTrivia(s, 19) == 19;
    PeriodKeyBesideNestedStep21(s);
  }

  lemma PeriodKeyBesideNestedStep23(s: string)
    requires s == "{\"a\"" + ":{\"b" + "\":2}" + ",\"a." + "b\":1" + "}"
    ensures map[][[97] := Dict(map[[98] := Integer(2)])] == map[[97] := Dict(map[[98] := Integer(2)])] && SkipTrivia(s, 12) == 12 && Lex(s, 12) == Lexed(ListSeparator, 13) && SkipTrivia(s, 13) == 13 && Lex(s, 13) == Lexed(StringToken([97, 46, 98]), 18)
  {
    assert map[][[97] := Dict(map[[98] := Integer(2)])] == map[[97] := Dict(map[[98] := Integer(2)])];
    assert SkipTrivia(s, 12) == 12;
    assert Lex(s, 12) == Lexed(ListSeparator, 13);
    assert SkipTrivia(s, 13) == 13;
    PeriodKeyBesideNestedStep14(s);
  }

  lemma PeriodKeyBesideNestedStep24(s: string)
    requires s == "{\"a\"" + ":{\"b" + "\":2}" + ",\"a." + "b\":1" + "}"
    ensures ParseMemberValue(s, 5, 1, map[], [97], false) == Parsed(Dict(map[[97] := Dict(map[[98] := Integer(2)]), [97, 46, 98] := Integer(1)]), 21)
  {
    PeriodKeyBesideNestedStep23(s);
    PeriodKeyBesideNestedStep10(s);
    PeriodKeyBesideNestedStep22(s);
  }

  lemma PeriodKeyBesideNestedStep25(s: string)
    requires s == "{\"a\"" + ":{\"b" + "\":2}" + ",\"a." + "b\":1" + "}"
    ensures ParseMembers(s, 1, 1, map[], false) == Parsed(Dict(map[[97] := Dict(map[[98] := Integer(2)]), [97, 46, 98] := Integer(1)]), 21)
  {
    PeriodKeyBesideNestedStep1(s);
    assert SkipTrivia(s, 4) == 4;
    assert Lex(s, 4) == Lexed(PairSeparator, 5);
    assert SkipTrivia(s, 5) == 5;
    PeriodKeyBesideNestedStep24(s);
  }

  lemma PeriodKeyBesideNestedStep26(s: string)
    requires s == "{\"a\"" + ":{\"b" + "\":2}" + ",\"a." + "b\":1" + "}"
    ensures ParseObject(s, 1, 1, false) == Parsed(Dict(map[[97] := Dict(map[[98] := Integer(2)]), [97, 46, 98] := Integer(1)]), 21)
  {
    assert SkipTrivia(s, 1) == 1;
    PeriodKeyBesideNestedStep1(s);
    PeriodKeyBesideNestedStep25(s);
  }

  lemma PeriodKeyBesideNestedStep27(s: string)
    requires s == "{\"a\"" + ":{\"b" + "\":2}" + ",\"a." + "b\":1" + "}"
    ensures ParseValue(s, 0, 0, true, false) == Parsed(Dict(map[[97] := Dict(map[[98] := Integer(2)]), [97, 46, 98] := Integer(1)]), 21)
  {
    RootDict(s, true, false);
    PeriodKeyBesideNestedStep26(s);
  }

  /** A dictionary without its closing brace is refused. */
  lemma ObjectNoClose(s: string)
    requires s == "{\"a\"" + ": tr" + "ue"
    ensures Read(s, false) == None
  {
    ObjectNoCloseStep11(s);
    ObjectNoCloseStep14(s);
    ObjectNoCloseStep8(s);
  }

  lemma ObjectNoCloseStep1(s: string)
    requires s == "{\"a\"" + ": tr" + "ue"
    ensures Lex(s, 1) == Lexed(StringToken([97]), 4)
  {
    assert [] + [97] == [97];
    assert LexString(s, 1, 3, [97]) == Lexed(StringToken([97]), 4);
    assert LexString(s, 1, 2, []) == Lexed(StringToken([97]), 4);
  }

  lemma ObjectNoCloseStep2(s: string)
    requires s == "{\"a\"" + ": tr" + "ue"
    ensures SkipTrivia(s, 5) == 6
  {
    assert SkipTrivia(s, 6) == 6;
  }

  lemma ObjectNoCloseStep3(s: string)
    requires s == "{\"a\"" + ": tr" + "ue"
    ensures Lex(s, 6) == Lexed(TrueToken, 10)
  {
    TrueAt(s, 6);
  }

  lemma ObjectNoCloseStep4(s: string)
    requires s == "{\"a\"" + ": tr" + "ue"
    ensures ParseValue(s, 6, 1, false, false) == Parsed(Bool(true), 10)
  {
    assert SkipTrivia(s, 6) == 6;
    ObjectNoCloseStep3(s);
  }

  lemma ObjectNoCloseStep5(s: string)
    requires s == "{\"a\"" + ": tr" + "ue"
    ensures ParseMemberValue(s, 6, 1, map[], [97], false) == Failed(SyntaxError, 10)
  {
    assert map[][[97] := Bool(true)] == map[[97] := Bool(true)];
    assert SkipTrivia(s, 10) == 10;
    assert Lex(s, 10) == Lexed(EndOfInput, 10);
    ObjectNoCloseStep4(s);
  }

  lemma ObjectNoCloseStep6(s: string)
    requires s == "{\"a\"" + ": tr" + "ue"
    ensures ParseMembers(s, 1, 1, map[], false) == Failed(SyntaxError, 10)
  {
    ObjectNoCloseStep1(s);
    assert SkipTrivia(s, 4) == 4;
    assert Lex(s, 4) == Lexed(PairSeparator, 5);
    ObjectNoCloseStep2(s);
    ObjectNoCloseStep5(s);
  }

  lemma ObjectNoCloseStep7(s: string)
    requires s == "{\"a\"" + ": tr" + "ue"
    ensures ParseObject(s, 1, 1, false) == Failed(SyntaxError, 10)
  {
    assert SkipTrivia(s, 1) == 1;
    ObjectNoCloseStep1(s);
    ObjectNoCloseStep6(s);
  }

  lemma ObjectNoCloseStep8(s: string)
    requires s == "{\"a\"" + ": tr" + "ue"
    ensures ParseValue(s, 0, 0, true, false) == Failed(SyntaxError, 10)
  {
    RootDict(s, true, false);
    ObjectNoCloseStep7(s);
  }

  lemma ObjectNoCloseStep9(s: string)
    requires s == "{\"a\"" + ": tr" + "ue"
    ensures LineColumn(s[..1]) == (1, 2) && s[..2][..1] == s[..1] && LineColumn(s[..2]) == (1, 3) && s[..3][..2] == s[..2] && LineColumn(s[..3]) == (1, 4)
  {
    assert LineColumn(s[..1]) == (1, 2);
    assert s[..2][..1] == s[..1];
    assert LineColumn(s[..2]) == (1, 3);
    assert s[..3][..2] == s[..2];
    assert LineColumn(s[..3]) == (1, 4);
  }

  lemma ObjectNoCloseStep10(s: string)
    requires s == "{\"a\"" + ": tr" + "ue"
    ensures s[..4][..3] == s[..3] && LineColumn(s[..4]) == (1, 5) && s[..5][..4] == s[..4]
  {
    ObjectNoCloseStep9(s);
    assert s[..4][..3] == s[..3];
    assert LineColumn(s[..4]) == (1, 5);
    assert s[..5][..4] == s[..4];
  }

  lemma ObjectNoCloseStep11(s: string)
    requires s == "{\"a\"" + ": tr" + "ue"
    ensures LineColumn(s[..5]) == (1, 6)
  {
    ObjectNoCloseStep9(s);
    ObjectNoCloseStep10(s);
  }

  lemma ObjectNoCloseStep12(s: string)
    requires s == "{\"a\"" + ": tr" + "ue"
    ensures LineColumn(s[..5]) == (1, 6) && s[..6][..5] == s[..5] && LineColumn(s[..6]) == (1, 7) && s[..7][..6] == s[..6] && LineColumn(s[..7]) == (1, 8)
  {
    ObjectNoCloseStep11(s);
    assert s[..6][..5] == s[..5];
    assert LineColumn(s[..6]) == (1, 7);
    assert s[..7][..6] == s[..6];
    assert LineColumn(s[..7]) == (1, 8);
  }

  lemma ObjectNoCloseStep13(s: string)
    requires s == "{\"a\"" + ": tr" + "ue"
    ensures s[..8][..7] == s[..7] && LineColumn(s[..8]) == (1, 9) && s[..9][..8] == s[..8] && LineColumn(s[..9]) == (1, 10) && s[..10][..9] == s[..9]
  {
    ObjectNoCloseStep12(s);
    assert s[..8][..7] == s[..7];
    assert LineColumn(s[..8]) == (1, 9);
    assert s[..9][..8] == s[..8];
    assert LineColumn(s[..9]) == (1, 10);
    assert s[..10][..9] == s[..9];
  }

  lemma ObjectNoCloseStep14(s: string)
    requires s == "{\"a\"" + ": tr" + "ue"
    ensures LineColumn(s[..10]) == (1, 11)
  {
    ObjectNoCloseStep12(s);
    ObjectNoCloseStep13(s);
  }

  /** An unquoted key is refused. */
  lemma ObjectUnquotedKey(s: string)
    requires s == "{foo" + ":tru" + "e}"
    ensures Read(s, false) == None
  {
    ObjectUnquotedKeyStep4(s);
    ObjectUnquotedKeyStep3(s);
  }

  lemma ObjectUnquotedKeyStep1(s: string)
    requires s == "{foo" + ":tru" + "e}"
    ensures ParseMembers(s, 1, 1, map[], false) == Failed(UnquotedDictionaryKey, 1)
  {
    assert s[1..6] == "foo:t";
    assert Lex(s, 1) == Lexed(InvalidToken(None), 1);
  }

  lemma ObjectUnquotedKeyStep2(s: string)
    requires s == "{foo" + ":tru" + "e}"
    ensures ParseObject(s, 1, 1, false) == Failed(UnquotedDictionaryKey, 1)
  {
    assert SkipTrivia(s, 1) == 1;
    assert s[1..6] == "foo:t";
    assert Lex(s, 1) == Lexed(InvalidToken(None), 1);
    ObjectUnquotedKeyStep1(s);
  }

  lemma ObjectUnquotedKeyStep3(s: string)
    requires s == "{foo" + ":tru" + "e}"
    ensures ParseValue(s, 0, 0, true, false) == Failed(UnquotedDictionaryKey, 1)
  {
    RootDict(s, true, false);
    ObjectUnquotedKeyStep2(s);
  }

  lemma ObjectUnquotedKeyStep4(s: string)
    requires s == "{foo" + ":tru" + "e}"
    ensures LineColumn(s[..1]) == (1, 2)
  {
  }

  /** A trailing comma in a dictionary is refused by default. */
  lemma ObjectTrailingRefused(s: string)
    requires s == "{\"a\"" + ":tru" + "e,}"
    ensures Read(s, false) == None
  {
    ObjectTrailingRefusedStep10(s);
    ObjectTrailingRefusedStep13(s);
    ObjectTrailingRefusedStep7(s);
  }

  lemma ObjectTrailingRefusedStep1(s: string)
    requires s == "{\"a\"" + ":tru" + "e,}"
    ensures Lex(s, 1) == Lexed(StringToken([97]), 4)
  {
    assert [] + [97] == [97];
    assert LexString(s, 1, 3, [97]) == Lexed(StringToken([97]), 4);
    assert LexString(s, 1, 2, []) == Lexed(StringToken([97]), 4);
  }

  lemma ObjectTrailingRefusedStep2(s: string)
    requires s == "{\"a\"" + ":tru" + "e,}"
    ensures Lex(s, 5) == Lexed(TrueToken, 9)
  {
    TrueAt(s, 5);
  }

  lemma ObjectTrailingRefusedStep3(s: string)
    requires s == "{\"a\"" + ":tru" + "e,}"
    ensures ParseValue(s, 5, 1, false, false) == Parsed(Bool(true), 9)
  {
    assert SkipTrivia(s, 5) == 5;
    ObjectTrailingRefusedStep2(s);
  }

  lemma ObjectTrailingRefusedStep4(s: string)
    requires s == "{\"a\"" + ":tru" + "e,}"
    ensures ParseMemberValue(s, 5, 1, map[], [97], false) == Failed(TrailingComma, 10)
  {
    assert map[][[97] := Bool(true)] == map[[97] := Bool(true)];
    assert SkipTrivia(s, 9) == 9;
    assert Lex(s, 9) == Lexed(ListSeparator, 10);
    assert SkipTrivia(s, 10) == 10;
    assert Lex(s, 10) == Lexed(ObjectEnd, 11);
    ObjectTrailingRefusedStep3(s);
  }

  lemma ObjectTrailingRefusedStep5(s: string)
    requires s == "{\"a\"" + ":tru" + "e,}"
    ensures ParseMembers(s, 1, 1, map[], false) == Failed(TrailingComma, 10)
  {
    ObjectTrailingRefusedStep1(s);
    assert SkipTrivia(s, 4) == 4;
    assert Lex(s, 4) == Lexed(PairSeparator, 5);
    assert SkipTrivia(s, 5) == 5;
    ObjectTrailingRefusedStep4(s);
  }

  lemma ObjectTrailingRefusedStep6(s: string)
    requires s == "{\"a\"" + ":tru" + "e,}"
    ensures ParseObject(s, 1, 1, false) == Failed(TrailingComma, 10)
  {
    assert SkipTrivia(s, 1) == 1;
    ObjectTrailingRefusedStep1(s);
    ObjectTrailingRefusedStep5(s);
  }

  lemma ObjectTrailingRefusedStep7(s: string)
    requires s == "{\"a\"" + ":tru" + "e,}"
    ensures ParseValue(s, 0, 0, true, false) == Failed(TrailingComma, 10)
  {
    RootDict(s, true, false);
    ObjectTrailingRefusedStep6(s);
  }

  lemma ObjectTrailingRefusedStep8(s: string)
    requires s == "{\"a\"" + ":tru" + "e,}"
    ensures LineColumn(s[..1]) == (1, 2) && s[..2][..1] == s[..1] && LineColumn(s[..2]) == (1, 3) && s[..3][..2] == s[..2] && LineColumn(s[..3]) == (1, 4)
  {
    assert LineColumn(s[..1]) == (1, 2);
    assert s[..2][..1] == s[..1];
    assert LineColumn(s[..2]) == (1, 3);
    assert s[..3][..2] == s[..2];
    assert LineColumn(s[..3]) == (1, 4);
  }

  lemma ObjectTrailingRefusedStep9(s: string)
    requires s == "{\"a\"" + ":tru" + "e,}"
    ensures s[..4][..3] == s[..3] && LineColumn(s[..4]) == (1, 5) && s[..5][..4] == s[..4]
  {
    ObjectTrailingRefusedStep8(s);
    assert s[..4][..3] == s[..3];
    assert LineColumn(s[..4]) == (1, 5);
    assert s[..5][..4] == s[..4];
  }

  lemma ObjectTrailingRefusedStep10(s: string)
    requires s == "{\"a\"" + ":tru" + "e,}"
    ensures LineColumn(s[..5]) == (1, 6)
  {
    ObjectTrailingRefusedStep8(s);
    ObjectTrailingRefusedStep9(s);
  }

  lemma ObjectTrailingRefusedStep11(s: string)
    requires s == "{\"a\"" + ":tru" + "e,}"
    ensures LineColumn(s[..5]) == (1, 6) && s[..6][..5] == s[..5] && LineColumn(s[..6]) == (1, 7) && s[..7][..6] == s[..6] && LineColumn(s[..7]) == (1, 8)
  {
    ObjectTrailingRefusedStep10(s);
    assert s[..6][..5] == s[..5];
    assert LineColumn(s[..6]) == (1, 7);
    assert s[..7][..6] == s[..6];
    assert LineColumn(s[..7]) == (1, 8);
  }

  lemma ObjectTrailingRefusedStep12(s: string)
    requires s == "{\"a\"" + ":tru" + "e,}"
    ensures s[..8][..7] == s[..7] && LineColumn(s[..8]) == (1, 9) && s[..9][..8] == s[..8] && LineColumn(s[..9]) == (1, 10) && s[..10][..9] == s[..9]
  {
    ObjectTrailingRefusedStep11(s);
    assert s[..8][..7] == s[..7];
    assert LineColumn(s[..8]) == (1, 9);
    assert s[..9][..8] == s[..8];
    assert LineColumn(s[..9]) == (1, 10);
    assert s[..10][..9] == s[..9];
  }

  lemma ObjectTrailingRefusedStep13(s: string)
    requires s == "{\"a\"" + ":tru" + "e,}"
    ensures LineColumn(s[..10]) == (1, 11)
  {
    ObjectTrailingRefusedStep11(s);
    ObjectTrailingRefusedStep12(s);
  }

  /** Two commas in a row are refused. */
  lemma ObjectDoubleComma(s: string)
    requires s == "{\"a\"" + ":tru" + "e,,\"" + "b\":f" + "alse" + "}"
    ensures Read(s, false) == None
  {
    ObjectDoubleCommaStep12(s);
    ObjectDoubleCommaStep15(s);
    ObjectDoubleCommaStep9(s);
  }

  lemma ObjectDoubleCommaStep1(s: string)
    requires s == "{\"a\"" + ":tru" + "e,,\"" + "b\":f" + "alse" + "}"
    ensures Lex(s, 1) == Lexed(StringToken([97]), 4)
  {
    assert [] + [97] == [97];
    assert LexString(s, 1, 3, [97]) == Lexed(StringToken([97]), 4);
    assert LexString(s, 1, 2, []) == Lexed(StringToken([97]), 4);
  }

  lemma ObjectDoubleCommaStep2(s: string)
    requires s == "{\"a\"" + ":tru" + "e,,\"" + "b\":f" + "alse" + "}"
    ensures Lex(s, 5) == Lexed(TrueToken, 9)
  {
    TrueAt(s, 5);
  }

  lemma ObjectDoubleCommaStep3(s: string)
    requires s == "{\"a\"" + ":tru" + "e,,\"" + "b\":f" + "alse" + "}"
    ensures ParseValue(s, 5, 1, false, false) == Parsed(Bool(true), 9)
  {
    assert SkipTrivia(s, 5) == 5;
    ObjectDoubleCommaStep2(s);
  }

  lemma ObjectDoubleCommaStep4(s: string)
    requires s == "{\"a\"" + ":tru" + "e,,\"" + "b\":f" + "alse" + "}"
    ensures ParseMembers(s, 10, 1, map[[97] := Bool(true)], false) == Failed(UnquotedDictionaryKey, 10)
  {
    assert Lex(s, 10) == Lexed(ListSeparator, 11);
  }

  lemma ObjectDoubleCommaStep5(s: string)
    requires s == "{\"a\"" + ":tru" + "e,,\"" + "b\":f" + "alse" + "}"
    ensures map[][[97] := Bool(true)] == map[[97] := Bool(true)] && SkipTrivia(s, 9) == 9 && Lex(s, 9) == Lexed(ListSeparator, 10) && SkipTrivia(s, 10) == 10 && Lex(s, 10) == Lexed(ListSeparator, 11)
  {
    assert map[][[97] := Bool(true)] == map[[97] := Bool(true)];
    assert SkipTrivia(s, 9) == 9;
    assert Lex(s, 9) == Lexed(ListSeparator, 10);
    assert SkipTrivia(s, 10) == 10;
    assert Lex(s, 10) == Lexed(ListSeparator, 11);
  }

  lemma ObjectDoubleCommaStep6(s: string)
    requires s == "{\"a\"" + ":tru" + "e,,\"" + "b\":f" + "alse" + "}"
    ensures ParseMemberValue(s, 5, 1, map[], [97], false) == Failed(UnquotedDictionaryKey, 10)
  {
    ObjectDoubleCommaStep5(s);
    ObjectDoubleCommaStep3(s);
    ObjectDoubleCommaStep4(s);
  }

  lemma ObjectDoubleCommaStep7(s: string)
    requires s == "{\"a\"" + ":tru" + "e,,\"" + "b\":f" + "alse" + "}"
    ensures ParseMembers(s, 1, 1, map[], false) == Failed(UnquotedDictionaryKey, 10)
  {
    ObjectDoubleCommaStep1(s);
    assert SkipTrivia(s, 4) == 4;
    assert Lex(s, 4) == Lexed(PairSeparator, 5);
    assert SkipTrivia(s, 5) == 5;
    ObjectDoubleCommaStep6(s);
  }

  lemma ObjectDoubleCommaStep8(s: string)
    requires s == "{\"a\"" + ":tru" + "e,,\"" + "b\":f" + "alse" + "}"
    ensures ParseObject(s, 1, 1, false) == Failed(UnquotedDictionaryKey, 10)
  {
    assert SkipTrivia(s, 1) == 1;
    ObjectDoubleCommaStep1(s);
    ObjectDoubleCommaStep7(s);
  }

  lemma ObjectDoubleCommaStep9(s: string)
    requires s == "{\"a\"" + ":tru" + "e,,\"" + "b\":f" + "alse" + "}"
    ensures ParseValue(s, 0, 0, true, false) == Failed(UnquotedDictionaryKey, 10)
  {
    RootDict(s, true, false);
    ObjectDoubleCommaStep8(s);
  }

  lemma ObjectDoubleCommaStep10(s: string)
    requires s == "{\"a\"" + ":tru" + "e,,\"" + "b\":f" + "alse" + "}"
    ensures LineColumn(s[..1]) == (1, 2) && s[..2][..1] == s[..1] && LineColumn(s[..2]) == (1, 3) && s[..3][..2] == s[..2] && LineColumn(s[..3]) == (1, 4)
  {
    assert LineColumn(s[..1]) == (1, 2);
    assert s[..2][..1] == s[..1];
    assert LineColumn(s[..2]) == (1, 3);
    assert s[..3][..2] == s[..2];
    assert LineColumn(s[..3]) == (1, 4);
  }

  lemma ObjectDoubleCommaStep11(s: string)
    requires s == "{\"a\"" + ":tru" + "e,,\"" + "b\":f" + "alse" + "}"
    ensures s[..4][..3] == s[..3] && LineColumn(s[..4]) == (1, 5) && s[..5][..4] == s[..4]
  {
    ObjectDoubleCommaStep10(s);
    assert s[..4][..3] == s[..3];
    assert LineColumn(s[..4]) == (1, 5);
    assert s[..5][..4] == s[..4];
  }

  lemma ObjectDoubleCommaStep12(s: string)
    requires s == "{\"a\"" + ":tru" + "e,,\"" + "b\":f" + "alse" + "}"
    ensures LineColumn(s[..5]) == (1, 6)
  {
    ObjectDoubleCommaStep10(s);
    ObjectDoubleCommaStep11(s);
  }

  lemma ObjectDoubleCommaStep13(s: string)
    requires s == "{\"a\"" + ":tru" + "e,,\"" + "b\":f" + "alse" + "}"
    ensures LineColumn(s[..5]) == (1, 6) && s[..6][..5] == s[..5] && LineColumn(s[..6]) == (1, 7) && s[..7][..6] == s[..6] && LineColumn(s[..7]) == (1, 8)
  {
    ObjectDoubleCommaStep12(s);
    assert s[..6][..5] == s[..5];
    assert LineColumn(s[..6]) == (1, 7);
    assert s[..7][..6] == s[..6];
    assert LineColumn(s[..7]) == (1, 8);
  }

  lemma ObjectDoubleCommaStep14(s: string)
    requires s == "{\"a\"" + ":tru" + "e,,\"" + "b\":f" + "alse" + "}"
    ensures s[..8][..7] == s[..7] && LineColumn(s[..8]) == (1, 9) && s[..9][..8] == s[..8] && LineColumn(s[..9]) == (1, 10) && s[..10][..9] == s[..9]
  {
    ObjectDoubleCommaStep13(s);
    assert s[..8][..7] == s[..7];
    assert LineColumn(s[..8]) == (1, 9);
    assert s[..9][..8] == s[..8];
    assert LineColumn(s[..9]) == (1, 10);
    assert s[..10][..9] == s[..9];
  }

  lemma ObjectDoubleCommaStep15(s: string)
    requires s == "{\"a\"" + ":tru" + "e,,\"" + "b\":f" + "alse" + "}"
    ensures LineColumn(s[..10]) == (1, 11)
  {
    ObjectDoubleCommaStep13(s);
    ObjectDoubleCommaStep14(s);
  }

  /** Two commas in a row are refused even when trailing commas are allowed. */
  lemma ObjectDoubleCommaTrailing(s: string)
    requires s == "{\"a\"" + ":tru" + "e,,\"" + "b\":f" + "alse" + "}"
    ensures Read(s, true) == None
  {
    ObjectDoubleCommaTrailingStep12(s);
    ObjectDoubleCommaTrailingStep15(s);
    ObjectDoubleCommaTrailingStep9(s);
  }

  lemma ObjectDoubleCommaTrailingStep1(s: string)
    requires s == "{\"a\"" + ":tru" + "e,,\"" + "b\":f" + "alse" + "}"
    ensures Lex(s, 1) == Lexed(StringToken([97]), 4)
  {
    assert [] + [97] == [97];
    assert LexString(s, 1, 3, [97]) == Lexed(StringToken([97]), 4);
    assert LexString(s, 1, 2, []) == Lexed(StringToken([97]), 4);
  }

  lemma ObjectDoubleCommaTrailingStep2(s: string)
    requires s == "{\"a\"" + ":tru" + "e,,\"" + "b\":f" + "alse" + "}"
    ensures Lex(s, 5) == Lexed(TrueToken, 9)
  {
    TrueAt(s, 5);
  }

  lemma ObjectDoubleCommaTrailingStep3(s: string)
    requires s == "{\"a\"" + ":tru" + "e,,\"" + "b\":f" + "alse" + "}"
    ensures ParseValue(s, 5, 1, false, true) == Parsed(Bool(true), 9)
  {
    assert SkipTrivia(s, 5) == 5;
    ObjectDoubleCommaTrailingStep2(s);
  }

  lemma ObjectDoubleCommaTrailingStep4(s: string)
    requires s == "{\"a\"" + ":tru" + "e,,\"" + "b\":f" + "alse" + "}"
    ensures ParseMembers(s, 10, 1, map[[97] := Bool(true)], true) == Failed(UnquotedDictionaryKey, 10)
  {
    assert Lex(s, 10) == Lexed(ListSeparator, 11);
  }

  lemma ObjectDoubleCommaTrailingStep5(s: string)
    requires s == "{\"a\"" + ":tru" + "e,,\"" + "b\":f" + "alse" + "}"
    ensures map[][[97] := Bool(true)] == map[[97] := Bool(true)] && SkipTrivia(s, 9) == 9 && Lex(s, 9) == Lexed(ListSeparator, 10) && SkipTrivia(s, 10) == 10 && Lex(s, 10) == Lexed(ListSeparator, 11)
  {
    assert map[][[97] := Bool(true)] == map[[97] := Bool(true)];
    assert SkipTrivia(s, 9) == 9;
    assert Lex(s, 9) == Lexed(ListSeparator, 10);
    assert SkipTrivia(s, 10) == 10;
    assert Lex(s, 10) == Lexed(ListSeparator, 11);
  }

  lemma ObjectDoubleCommaTrailingStep6(s: string)
    requires s == "{\"a\"" + ":tru" + "e,,\"" + "b\":f" + "alse" + "}"
    ensures ParseMemberValue(s, 5, 1, map[], [97], true) == Failed(UnquotedDictionaryKey, 10)
  {
    ObjectDoubleCommaTrailingStep5(s);
    ObjectDoubleCommaTrailingStep3(s);
    ObjectDoubleCommaTrailingStep4(s);
  }

  lemma ObjectDoubleCommaTrailingStep7(s: string)
    requires s == "{\"a\"" + ":tru" + "e,,\"" + "b\":f" + "alse" + "}"
    ensures ParseMembers(s, 1, 1, map[], true) == Failed(UnquotedDictionaryKey, 10)
  {
    ObjectDoubleCommaTrailingStep1(s);
    assert SkipTrivia(s, 4) == 4;
    assert Lex(s, 4) == Lexed(PairSeparator, 5);
    assert SkipTrivia(s, 5) == 5;
    ObjectDoubleCommaTrailingStep6(s);
  }

  lemma ObjectDoubleCommaTrailingStep8(s: string)
    requires s == "{\"a\"" + ":tru" + "e,,\"" + "b\":f" + "alse" + "}"
    ensures ParseObject(s, 1, 1, true) == Failed(UnquotedDictionaryKey, 10)
  {
    assert SkipTrivia(s, 1) == 1;
    ObjectDoubleCommaTrailingStep1(s);
    ObjectDoubleCommaTrailingStep7(s);
  }

  lemma ObjectDoubleCommaTrailingStep9(s: string)
    requires s == "{\"a\"" + ":tru" + "e,,\"" + "b\":f" + "alse" + "}"
    ensures ParseValue(s, 0, 0, true, true) == Failed(UnquotedDictionaryKey, 10)
  {
    RootDict(s, true, true);
    ObjectDoubleCommaTrailingStep8(s);
  }

  lemma ObjectDoubleCommaTrailingStep10(s: string)
    requires s == "{\"a\"" + ":tru" + "e,,\"" + "b\":f" + "alse" + "}"
    ensures LineColumn(s[..1]) == (1, 2) && s[..2][..1] == s[..1] && LineColumn(s[..2]) == (1, 3) && s[..3][..2] == s[..2] && LineColumn(s[..3]) == (1, 4)
  {
    assert LineColumn(s[..1]) == (1, 2);
    assert s[..2][..1] == s[..1];
    assert LineColumn(s[..2]) == (1, 3);
    assert s[..3][..2] == s[..2];
    assert LineColumn(s[..3]) == (1, 4);
  }

  lemma ObjectDoubleCommaTrailingStep11(s: string)
    requires s == "{\"a\"" + ":tru" + "e,,\"" + "b\":f" + "alse" + "}"
    ensures s[..4][..3] == s[..3] && LineColumn(s[..4]) == (1, 5) && s[..5][..4] == s[..4]
  {
    ObjectDoubleCommaTrailingStep10(s);
    assert s[..4][..3] == s[..3];
    assert LineColumn(s[..4]) == (1, 5);
    assert s[..5][..4] == s[..4];
  }

  lemma ObjectDoubleCommaTrailingStep12(s: string)
    requires s == "{\"a\"" + ":tru" + "e,,\"" + "b\":f" + "alse" + "}"
    ensures LineColumn(s[..5]) == (1, 6)
  {
    ObjectDoubleCommaTrailingStep10(s);
    ObjectDoubleCommaTrailingStep11(s);
  }

  lemma ObjectDoubleCommaTrailingStep13(s: string)
    requires s == "{\"a\"" + ":tru" + "e,,\"" + "b\":f" + "alse" + "}"
    ensures LineColumn(s[..5]) == (1, 6) && s[..6][..5] == s[..5] && LineColumn(s[..6]) == (1, 7) && s[..7][..6] == s[..6] && LineColumn(s[..7]) == (1, 8)
  {
    ObjectDoubleCommaTrailingStep12(s);
    assert s[..6][..5] == s[..5];
    assert LineColumn(s[..6]) == (1, 7);
    assert s[..7][..6] == s[..6];
    assert LineColumn(s[..7]) == (1, 8);
  }

  lemma ObjectDoubleCommaTrailingStep14(s: string)
    requires s == "{\"a\"" + ":tru" + "e,,\"" + "b\":f" + "alse" + "}"
    ensures s[..8][..7] == s[..7] && LineColumn(s[..8]) == (1, 9) && s[..9][..8] == s[..8] && LineColumn(s[..9]) == (1, 10) && s[..10][..9] == s[..9]
  {
    ObjectDoubleCommaTrailingStep13(s);
    assert s[..8][..7] == s[..7];
    assert LineColumn(s[..8]) == (1, 9);
    assert s[..9][..8] == s[..8];
    assert LineColumn(s[..9]) == (1, 10);
    assert s[..10][..9] == s[..9];
  }

  lemma ObjectDoubleCommaTrailingStep15(s: string)
    requires s == "{\"a\"" + ":tru" + "e,,\"" + "b\":f" + "alse" + "}"
    ensures LineColumn(s[..10]) == (1, 11)
  {
    ObjectDoubleCommaTrailingStep13(s);
    ObjectDoubleCommaTrailingStep14(s);
  }

  /** A key without its colon is refused. */
  lemma ObjectNoSeparator(s: string)
    requires s == "{\"a\"" + " \"b\"" + "}"
    ensures Read(s, false) == None
  {
    ObjectNoSeparatorStep9(s);
    ObjectNoSeparatorStep6(s);
  }

  lemma ObjectNoSeparatorStep1(s: string)
    requires s == "{\"a\"" + " \"b\"" + "}"
    ensures Lex(s, 1) == Lexed(StringToken([97]), 4)
  {
    assert [] + [97] == [97];
    assert LexString(s, 1, 3, [97]) == Lexed(StringToken([97]), 4);
    assert LexString(s, 1, 2, []) == Lexed(StringToken([97]), 4);
  }

  lemma ObjectNoSeparatorStep2(s: string)
    requires s == "{\"a\"" + " \"b\"" + "}"
    ensures SkipTrivia(s, 4) == 5
  {
    assert SkipTrivia(s, 5) == 5;
  }

  lemma ObjectNoSeparatorStep3(s: string)
    requires s == "{\"a\"" + " \"b\"" + "}"
    ensures Lex(s, 5) == Lexed(StringToken([98]), 8)
  {
    assert [] + [98] == [98];
    assert LexString(s, 5, 7, [98]) == Lexed(StringToken([98]), 8);
    assert LexString(s, 5, 6, []) == Lexed(StringToken([98]), 8);
  }

  lemma ObjectNoSeparatorStep4(s: string)
    requires s == "{\"a\"" + " \"b\"" + "}"
    ensures ParseMembers(s, 1, 1, map[], false) == Failed(SyntaxError, 5)
  {
    ObjectNoSeparatorStep1(s);
    ObjectNoSeparatorStep2(s);
    ObjectNoSeparatorStep3(s);
  }

  lemma ObjectNoSeparatorStep5(s: string)
    requires s == "{\"a\"" + " \"b\"" + "}"
    ensures ParseObject(s, 1, 1, false) == Failed(SyntaxError, 5)
  {
    assert SkipTrivia(s, 1) == 1;
    ObjectNoSeparatorStep1(s);
    ObjectNoSeparatorStep4(s);
  }

  lemma ObjectNoSeparatorStep6(s: string)
    requires s == "{\"a\"" + " \"b\"" + "}"
    ensures ParseValue(s, 0, 0, true, false) == Failed(SyntaxError, 5)
  {
    RootDict(s, true, false);
    ObjectNoSeparatorStep5(s);
  }

  lemma ObjectNoSeparatorStep7(s: string)
    requires s == "{\"a\"" + " \"b\"" + "}"
    ensures LineColumn(s[..1]) == (1, 2) && s[..2][..1] == s[..1] && LineColumn(s[..2]) == (1, 3) && s[..3][..2] == s[..2] && LineColumn(s[..3]) == (1, 4)
  {
    assert LineColumn(s[..1]) == (1, 2);
    assert s[..2][..1] == s[..1];
    assert LineColumn(s[..2]) == (1, 3);
    assert s[..3][..2] == s[..2];
    assert LineColumn(s[..3]) == (1, 4);
  }

  lemma ObjectNoSeparatorStep8(s: string)
    requires s == "{\"a\"" + " \"b\"" + "}"
    ensures s[..4][..3] == s[..3] && LineColumn(s[..4]) == (1, 5) && s[..5][..4] == s[..4]
  {
    ObjectNoSeparatorStep7(s);
    assert s[..4][..3] == s[..3];
    assert LineColumn(s[..4]) == (1, 5);
    assert s[..5][..4] == s[..4];
  }

  lemma ObjectNoSeparatorStep9(s: string)
    requires s == "{\"a\"" + " \"b\"" + "}"
    ensures LineColumn(s[..5]) == (1, 6)
  {
    ObjectNoSeparatorStep7(s);
    ObjectNoSeparatorStep8(s);
  }

  /** A lone comma is refused. */
  lemma ObjectLoneComma(s: string)
    requires s == "{,}"
    ensures Read(s, false) == None
  {
    ObjectLoneCommaStep4(s);
    ObjectLoneCommaStep3(s);
  }

  lemma ObjectLoneCommaStep1(s: string)
    requires s == "{,}"
    ensures ParseMembers(s, 1, 1, map[], false) == Failed(UnquotedDictionaryKey, 1)
  {
    assert Lex(s, 1) == Lexed(ListSeparator, 2);
  }

  lemma ObjectLoneCommaStep2(s: string)
    requires s == "{,}"
    ensures ParseObject(s, 1, 1, false) == Failed(UnquotedDictionaryKey, 1)
  {
    assert SkipTrivia(s, 1) == 1;
    assert Lex(s, 1) == Lexed(ListSeparator, 2);
    ObjectLoneCommaStep1(s);
  }

  lemma ObjectLoneCommaStep3(s: string)
    requires s == "{,}"
    ensures ParseValue(s, 0, 0, true, false) == Failed(UnquotedDictionaryKey, 1)
  {
    RootDict(s, true, false);
    ObjectLoneCommaStep2(s);
  }

  lemma ObjectLoneCommaStep4(s: string)
    requires s == "{,}"
    ensures LineColumn(s[..1]) == (1, 2)
  {
  }

  /** A lone comma is refused even when trailing commas are allowed. */
  lemma ObjectLoneCommaTrailing(s: string)
    requires s == "{,}"
    ensures Read(s, true) == None
  {
    ObjectLoneCommaTrailingStep4(s);
    ObjectLoneCommaTrailingStep3(s);
  }

  lemma ObjectLoneCommaTrailingStep1(s: string)
    requires s == "{,}"
    ensures ParseMembers(s, 1, 1, map[], true) == Failed(UnquotedDictionaryKey, 1)
  {
    assert Lex(s, 1) == Lexed(ListSeparator, 2);
  }

  lemma ObjectLoneCommaTrailingStep2(s: string)
    requires s == "{,}"
    ensures ParseObject(s, 1, 1, true) == Failed(UnquotedDictionaryKey, 1)
  {
    assert SkipTrivia(s, 1) == 1;
    assert Lex(s, 1) == Lexed(ListSeparator, 2);
    ObjectLoneCommaTrailingStep1(s);
  }

  lemma ObjectLoneCommaTrailingStep3(s: string)
    requires s == "{,}"
    ensures ParseValue(s, 0, 0, true, true) == Failed(UnquotedDictionaryKey, 1)
  {
    RootDict(s, true, true);
    ObjectLoneCommaTrailingStep2(s);
  }

  lemma ObjectLoneCommaTrailingStep4(s: string)
    requires s == "{,}"
    ensures LineColumn(s[..1]) == (1, 2)
  {
  }

  /** Two trailing commas are refused. */
  lemma ObjectTwoTrailingCommas(s: string)
    requires s == "{\"a\"" + ":tru" + "e,,}"
    ensures Read(s, true) == None
  {
    ObjectTwoTrailingCommasStep12(s);
    ObjectTwoTrailingCommasStep15(s);
    ObjectTwoTrailingCommasStep9(s);
  }

  lemma ObjectTwoTrailingCommasStep1(s: string)
    requires s == "{\"a\"" + ":tru" + "e,,}"
    ensures Lex(s, 1) == Lexed(StringToken([97]), 4)
  {
    assert [] + [97] == [97];
    assert LexString(s, 1, 3, [97]) == Lexed(StringToken([97]), 4);
    assert LexString(s, 1, 2, []) == Lexed(StringToken([97]), 4);
  }

  lemma ObjectTwoTrailingCommasStep2(s: string)
    requires s == "{\"a\"" + ":tru" + "e,,}"
    ensures Lex(s, 5) == Lexed(TrueToken, 9)
  {
    TrueAt(s, 5);
  }

  lemma ObjectTwoTrailingCommasStep3(s: string)
    requires s == "{\"a\"" + ":tru" + "e,,}"
    ensures ParseValue(s, 5, 1, false, true) == Parsed(Bool(true), 9)
  {
    assert SkipTrivia(s, 5) == 5;
    ObjectTwoTrailingCommasStep2(s);
  }

  lemma ObjectTwoTrailingCommasStep4(s: string)
    requires s == "{\"a\"" + ":tru" + "e,,}"
    ensures ParseMembers(s, 10, 1, map[[97] := Bool(true)], true) == Failed(UnquotedDictionaryKey, 10)
  {
    assert Lex(s, 10) == Lexed(ListSeparator, 11);
  }

  lemma ObjectTwoTrailingCommasStep5(s: string)
    requires s == "{\"a\"" + ":tru" + "e,,}"
    ensures map[][[97] := Bool(true)] == map[[97] := Bool(true)] && SkipTrivia(s, 9) == 9 && Lex(s, 9) == Lexed(ListSeparator, 10) && SkipTrivia(s, 10) == 10 && Lex(s, 10) == Lexed(ListSeparator, 11)
  {
    assert map[][[97] := Bool(true)] == map[[97] := Bool(true)];
    assert SkipTrivia(s, 9) == 9;
    assert Lex(s, 9) == Lexed(ListSeparator, 10);
    assert SkipTrivia(s, 10) == 10;
    assert Lex(s, 10) == Lexed(ListSeparator, 11);
  }

  lemma ObjectTwoTrailingCommasStep6(s: string)
    requires s == "{\"a\"" + ":tru" + "e,,}"
    ensures ParseMemberValue(s, 5, 1, map[], [97], true) == Failed(UnquotedDictionaryKey, 10)
  {
    ObjectTwoTrailingCommasStep5(s);
    ObjectTwoTrailingCommasStep3(s);
    ObjectTwoTrailingCommasStep4(s);
  }

  lemma ObjectTwoTrailingCommasStep7(s: string)
    requires s == "{\"a\"" + ":tru" + "e,,}"
    ensures ParseMembers(s, 1, 1, map[], true) == Failed(UnquotedDictionaryKey, 10)
  {
    ObjectTwoTrailingCommasStep1(s);
    assert SkipTrivia(s, 4) == 4;
    assert Lex(s, 4) == Lexed(PairSeparator, 5);
    assert SkipTrivia(s, 5) == 5;
    ObjectTwoTrailingCommasStep6(s);
  }

  lemma ObjectTwoTrailingCommasStep8(s: string)
    requires s == "{\"a\"" + ":tru" + "e,,}"
    ensures ParseObject(s, 1, 1, true) == Failed(UnquotedDictionaryKey, 10)
  {
    assert SkipTrivia(s, 1) == 1;
    ObjectTwoTrailingCommasStep1(s);
    ObjectTwoTrailingCommasStep7(s);
  }

  lemma ObjectTwoTrailingCommasStep9(s: string)
    requires s == "{\"a\"" + ":tru" + "e,,}"
    ensures ParseValue(s, 0, 0, true, true) == Failed(UnquotedDictionaryKey, 10)
  {
    RootDict(s, true, true);
    ObjectTwoTrailingCommasStep8(s);
  }

  lemma ObjectTwoTrailingCommasStep10(s: string)
    requires s == "{\"a\"" + ":tru" + "e,,}"
    ensures LineColumn(s[..1]) == (1, 2) && s[..2][..1] == s[..1] && LineColumn(s[..2]) == (1, 3) && s[..3][..2] == s[..2] && LineColumn(s[..3]) == (1, 4)
  {
    assert LineColumn(s[..1]) == (1, 2);
    assert s[..2][..1] == s[..1];
    assert LineColumn(s[..2]) == (1, 3);
    assert s[..3][..2] == s[..2];
    assert LineColumn(s[..3]) == (1, 4);
  }

  lemma ObjectTwoTrailingCommasStep11(s: string)
    requires s == "{\"a\"" + ":tru" + "e,,}"
    ensures s[..4][..3] == s[..3] && LineColumn(s[..4]) == (1, 5) && s[..5][..4] == s[..4]
  {
    ObjectTwoTrailingCommasStep10(s);
    assert s[..4][..3] == s[..3];
    assert LineColumn(s[..4]) == (1, 5);
    assert s[..5][..4] == s[..4];
  }

  lemma ObjectTwoTrailingCommasStep12(s: string)
    requires s == "{\"a\"" + ":tru" + "e,,}"
    ensures LineColumn(s[..5]) == (1, 6)
  {
    ObjectTwoTrailingCommasStep10(s);
    ObjectTwoTrailingCommasStep11(s);
  }

  lemma ObjectTwoTrailingCommasStep13(s: string)
    requires s == "{\"a\"" + ":tru" + "e,,}"
    ensures LineColumn(s[..5]) == (1, 6) && s[..6][..5] == s[..5] && LineColumn(s[..6]) == (1, 7) && s[..7][..6] == s[..6] && LineColumn(s[..7]) == (1, 8)
  {
    ObjectTwoTrailingCommasStep12(s);
    assert s[..6][..5] == s[..5];
    assert LineColumn(s[..6]) == (1, 7);
    assert s[..7][..6] == s[..6];
    assert LineColumn(s[..7]) == (1, 8);
  }

  lemma ObjectTwoTrailingCommasStep14(s: string)
    requires s == "{\"a\"" + ":tru" + "e,,}"
    ensures s[..8][..7] == s[..7] && LineColumn(s[..8]) == (1, 9) && s[..9][..8] == s[..8] && LineColumn(s[..9]) == (1, 10) && s[..10][..9] == s[..9]
  {
    ObjectTwoTrailingCommasStep13(s);
    assert s[..8][..7] == s[..7];
    assert LineColumn(s[..8]) == (1, 9);
    assert s[..9][..8] == s[..8];
    assert LineColumn(s[..9]) == (1, 10);
    assert s[..10][..9] == s[..9];
  }

  lemma ObjectTwoTrailingCommasStep15(s: string)
    requires s == "{\"a\"" + ":tru" + "e,,}"
    ensures LineColumn(s[..10]) == (1, 11)
  {
    ObjectTwoTrailingCommasStep13(s);
    ObjectTwoTrailingCommasStep14(s);
  }

  /** A leading comma is refused. */
  lemma ObjectLeadingComma(s: string)
    requires s == "{,\"a" + "\":tr" + "ue}"
    ensures Read(s, true) == None
  {
    ObjectLeadingCommaStep4(s);
    ObjectLeadingCommaStep3(s);
  }

  lemma ObjectLeadingCommaStep1(s: string)
    requires s == "{,\"a" + "\":tr" + "ue}"
    ensures ParseMembers(s, 1, 1, map[], true) == Failed(UnquotedDictionaryKey, 1)
  {
    assert Lex(s, 1) == Lexed(ListSeparator, 2);
  }

  lemma ObjectLeadingCommaStep2(s: string)
    requires s == "{,\"a" + "\":tr" + "ue}"
    ensures ParseObject(s, 1, 1, true) == Failed(UnquotedDictionaryKey, 1)
  {
    assert SkipTrivia(s, 1) == 1;
    assert Lex(s, 1) == Lexed(ListSeparator, 2);
    ObjectLeadingCommaStep1(s);
  }

  lemma ObjectLeadingCommaStep3(s: string)
    requires s == "{,\"a" + "\":tr" + "ue}"
    ensures ParseValue(s, 0, 0, true, true) == Failed(UnquotedDictionaryKey, 1)
  {
    RootDict(s, true, true);
    ObjectLeadingCommaStep2(s);
  }

  lemma ObjectLeadingCommaStep4(s: string)
    requires s == "{,\"a" + "\":tr" + "ue}"
    ensures LineColumn(s[..1]) == (1, 2)
  {
  }

  /** A null root is refused by Read. */
  lemma NullRoot(s: string)
    requires s == "null"
    ensures Read(s, false) == None
  {
    NullRootStep2(s);
  }

  lemma NullRootStep1(s: string)
    requires s == "null"
    ensures Lex(s, 0) == Lexed(NullToken, 4)
  {
    NullAt(s, 0);
  }

  lemma NullRootStep2(s: string)
    requires s == "null"
    ensures ParseValue(s, 0, 0, true, false) == Failed(BadRootElementType, 0)
  {
    assert SkipTrivia(s, 0) == 0;
    NullRootStep1(s);
  }

  /** A boolean root is refused by Read. */
  lemma TrueRoot(s: string)
    requires s == "true"
    ensures Read(s, false) == None
  {
    TrueRootStep2(s);
  }

  lemma TrueRootStep1(s: string)
    requires s == "true"
    ensures Lex(s, 0) == Lexed(TrueToken, 4)
  {
    TrueAt(s, 0);
  }

  lemma TrueRootStep2(s: string)
    requires s == "true"
    ensures ParseValue(s, 0, 0, true, false) == Failed(BadRootElementType, 0)
  {
    assert SkipTrivia(s, 0) == 0;
    TrueRootStep1(s);
  }

  /** An integer root is refused by Read. */
  lemma IntegerRoot(s: string)
    requires s == "10"
    ensures Read(s, false) == None
  {
    IntegerRootStep2(s);
  }

  lemma IntegerRootStep1(s: string)
    requires s == "10"
    ensures Lex(s, 0) == Lexed(NumberToken("10"), 2)
  {
    assert DigitRunEnd(s, 2) == 2;
    assert DigitRunEnd(s, 1) == 2;
    assert DigitRunEnd(s, 0) == 2;
    assert ExponentEnd(s, 2) == Some(2);
    assert s[0..2] == "10";
    assert LexNumber(s, 0) == Lexed(NumberToken("10"), 2);
  }

  lemma IntegerRootStep2(s: string)
    requires s == "10"
    ensures ParseValue(s, 0, 0, true, false) == Failed(BadRootElementType, 0)
  {
    assert SkipTrivia(s, 0) == 0;
    IntegerRootStep1(s);
  }

  /** A string root is refused by Read. */
  lemma StringRoot(s: string)
    requires s == "\"roo" + "t\""
    ensures Read(s, false) == None
  {
    StringRootStep5(s);
  }

  lemma StringRootStep1(s: string)
    requires s == "\"roo" + "t\""
    ensures LexString(s, 0, 4, [114, 111, 111]) == Lexed(StringToken([114, 111, 111, 116]), 6)
  {
    assert [114, 111, 111] + [116] == [114, 111, 111, 116];
    assert LexString(s, 0, 5, [114, 111, 111, 116]) == Lexed(StringToken([114, 111, 111, 116]), 6);
  }

  lemma StringRootStep2(s: string)
    requires s == "\"roo" + "t\""
    ensures [] + [114] == [114] && [114] + [111] == [114, 111] && [114, 111] + [111] == [114, 111, 111] && LexString(s, 0, 4, [114, 111, 111]) == Lexed(StringToken([114, 111, 111, 116]), 6) && LexString(s, 0, 3, [114, 111]) == Lexed(StringToken([114, 111, 111, 116]), 6)
  {
    assert [] + [114] == [114];
    assert [114] + [111] == [114, 111];
    assert [114, 111] + [111] == [114, 111, 111];
    StringRootStep1(s);
    assert LexString(s, 0, 3, [114, 111]) == Lexed(StringToken([114, 111, 111, 116]), 6);
  }

  lemma StringRootStep3(s: string)
    requires s == "\"roo" + "t\""
    ensures LexString(s, 0, 2, [114]) == Lexed(StringToken([114, 111, 111, 116]), 6) && LexString(s, 0, 1, []) == Lexed(StringToken([114, 111, 111, 116]), 6)
  {
    StringRootStep2(s);
    assert LexString(s, 0, 2, [114]) == Lexed(StringToken([114, 111, 111, 116]), 6);
    assert LexString(s, 0, 1, []) == Lexed(StringToken([114, 111, 111, 116]), 6);
  }

  lemma StringRootStep4(s: string)
    requires s == "\"roo" + "t\""
    ensures Lex(s, 0) == Lexed(StringToken([114, 111, 111, 116]), 6)
  {
    StringRootStep2(s);
    StringRootStep3(s);
  }

  lemma StringRootStep5(s: string)
    requires s == "\"roo" + "t\""
    ensures ParseValue(s, 0, 0, true, false) == Failed(BadRootElementType, 0)
  {
    assert SkipTrivia(s, 0) == 0;
    StringRootStep4(s);
  }

  /** A missing comma on the fifth line is a syntax error at line 5, column 9. */
  lemma BigJsonError(s: string)
    requires s == "[\n0," + "\n1,\n" + "2,\n3" + ",4,5" + ",6 7" + ",\n8," + "\n9\n]"
    ensures ReadAndReturnError(s, false, NoError, None) == Report(None, ErrorCode(SyntaxError), Some(ParseError(SyntaxError, 5, 9)))
  {
    BigJsonErrorStep48(s);
    BigJsonErrorStep51(s);
    BigJsonErrorStep54(s);
    BigJsonErrorStep57(s);
    BigJsonErrorStep45(s);
    assert JsonToValue(s, true, false) == Err(ParseError(SyntaxError, 5, 9));
  }

  lemma BigJsonErrorStep1(s: string)
    requires s == "[\n0," + "\n1,\n" + "2,\n3" + ",4,5" + ",6 7" + ",\n8," + "\n9\n]"
    ensures SkipTrivia(s, 1) == 2
  {
    assert SkipTrivia(s, 2) == 2;
  }

  lemma BigJsonErrorStep2(s: string)
    requires s == "[\n0," + "\n1,\n" + "2,\n3" + ",4,5" + ",6 7" + ",\n8," + "\n9\n]"
    ensures Lex(s, 2) == Lexed(NumberToken("0"), 3)
  {
    assert DigitRunEnd(s, 3) == 3;
    assert DigitRunEnd(s, 2) == 3;
    assert ExponentEnd(s, 3) == Some(3);
    assert s[2..3] == "0";
    assert LexNumber(s, 2) == Lexed(NumberToken("0"), 3);
  }

  lemma BigJsonErrorStep3(s: string)
    requires s == "[\n0," + "\n1,\n" + "2,\n3" + ",4,5" + ",6 7" + ",\n8," + "\n9\n]"
    ensures DigitsValue("0") == 0
  {
  }

  lemma BigJsonErrorStep4(s: string)
    requires s == "[\n0," + "\n1,\n" + "2,\n3" + ",4,5" + ",6 7" + ",\n8," + "\n9\n]"
    ensures ParseValue(s, 2, 1, false, false) == Parsed(Integer(0), 3)
  {
    assert SkipTrivia(s, 2) == 2;
    BigJsonErrorStep2(s);
    BigJsonErrorStep3(s);
    assert DecodeNumber("0") == Integer(0);
  }

  lemma BigJsonErrorStep5(s: string)
    requires s == "[\n0," + "\n1,\n" + "2,\n3" + ",4,5" + ",6 7" + ",\n8," + "\n9\n]"
    ensures SkipTrivia(s, 4) == 5
  {
    assert SkipTrivia(s, 5) == 5;
  }

  lemma BigJsonErrorStep6(s: string)
    requires s == "[\n0," + "\n1,\n" + "2,\n3" + ",4,5" + ",6 7" + ",\n8," + "\n9\n]"
    ensures DigitRunEnd(s, 5) == 6
  {
    assert DigitRunEnd(s, 6) == 6;
  }

  lemma BigJsonErrorStep7(s: string)
    requires s == "[\n0," + "\n1,\n" + "2,\n3" + ",4,5" + ",6 7" + ",\n8," + "\n9\n]"
    ensures Lex(s, 5) == Lexed(NumberToken("1"), 6)
  {
    BigJsonErrorStep6(s);
    assert ExponentEnd(s, 6) == Some(6);
    assert s[5..6] == "1";
    assert LexNumber(s, 5) == Lexed(NumberToken("1"), 6);
  }

  lemma BigJsonErrorStep8(s: string)
    requires s == "[\n0," + "\n1,\n" + "2,\n3" + ",4,5" + ",6 7" + ",\n8," + "\n9\n]"
    ensures DigitsValue("1") == 1
  {
  }

  lemma BigJsonErrorStep9(s: string)
    requires s == "[\n0," + "\n1,\n" + "2,\n3" + ",4,5" + ",6 7" + ",\n8," + "\n9\n]"
    ensures ParseValue(s, 5, 1, false, false) == Parsed(Integer(1), 6)
  {
    assert SkipTrivia(s, 5) == 5;
    BigJsonErrorStep7(s);
    BigJsonErrorStep8(s);
    assert DecodeNumber("1") == Integer(1);
  }

  lemma BigJsonErrorStep10(s: string)
    requires s == "[\n0," + "\n1,\n" + "2,\n3" + ",4,5" + ",6 7" + ",\n8," + "\n9\n]"
    ensures SkipTrivia(s, 7) == 8
  {
    assert SkipTrivia(s, 8) == 8;
  }

  lemma BigJsonErrorStep11(s: string)
    requires s == "[\n0," + "\n1,\n" + "2,\n3" + ",4,5" + ",6 7" + ",\n8," + "\n9\n]"
    ensures Lex(s, 8) == Lexed(NumberToken("2"), 9)
  {
    assert DigitRunEnd(s, 9) == 9;
    assert DigitRunEnd(s, 8) == 9;
    assert ExponentEnd(s, 9) == Some(9);
    assert s[8..9] == "2";
    assert LexNumber(s, 8) == Lexed(NumberToken("2"), 9);
  }

  lemma BigJsonErrorStep12(s: string)
    requires s == "[\n0," + "\n1,\n" + "2,\n3" + ",4,5" + ",6 7" + ",\n8," + "\n9\n]"
    ensures DigitsValue("2") == 2
  {
  }

  lemma BigJsonErrorStep13(s: string)
    requires s == "[\n0," + "\n1,\n" + "2,\n3" + ",4,5" + ",6 7" + ",\n8," + "\n9\n]"
    ensures ParseValue(s, 8, 1, false, false) == Parsed(Integer(2), 9)
  {
    assert SkipTrivia(s, 8) == 8;
    BigJsonErrorStep11(s);
    BigJsonErrorStep12(s);
    assert DecodeNumber("2") == Integer(2);
  }

  lemma BigJsonErrorStep14(s: string)
    requires s == "[\n0," + "\n1,\n" + "2,\n3" + ",4,5" + ",6 7" + ",\n8," + "\n9\n]"
    ensures SkipTrivia(s, 10) == 11
  {
    assert SkipTrivia(s, 11) == 11;
  }

  lemma BigJsonErrorStep15(s: string)
    requires s == "[\n0," + "\n1,\n" + "2,\n3" + ",4,5" + ",6 7" + ",\n8," + "\n9\n]"
    ensures Lex(s, 11) == Lexed(NumberToken("3"), 12)
  {
    assert DigitRunEnd(s, 12) == 12;
    assert DigitRunEnd(s, 11) == 12;
    assert ExponentEnd(s, 12) == Some(12);
    assert s[11..12] == "3";
    assert LexNumber(s, 11) == Lexed(NumberToken("3"), 12);
  }

  lemma BigJsonErrorStep16(s: string)
    requires s == "[\n0," + "\n1,\n" + "2,\n3" + ",4,5" + ",6 7" + ",\n8," + "\n9\n]"
    ensures DigitsValue("3") == 3
  {
  }

  lemma BigJsonErrorStep17(s: string)
    requires s == "[\n0," + "\n1,\n" + "2,\n3" + ",4,5" + ",6 7" + ",\n8," + "\n9\n]"
    ensures ParseValue(s, 11, 1, false, false) == Parsed(Integer(3), 12)
  {
    assert SkipTrivia(s, 11) == 11;
    BigJsonErrorStep15(s);
    BigJsonErrorStep16(s);
    assert DecodeNumber("3") == Integer(3);
  }

  lemma BigJsonErrorStep18(s: string)
    requires s == "[\n0," + "\n1,\n" + "2,\n3" + ",4,5" + ",6 7" + ",\n8," + "\n9\n]"
    ensures Lex(s, 13) == Lexed(NumberToken("4"), 14)
  {
    assert DigitRunEnd(s, 14) == 14;
    assert DigitRunEnd(s, 13) == 14;
    assert ExponentEnd(s, 14) == Some(14);
    assert s[13..14] == "4";
    assert LexNumber(s, 13) == Lexed(NumberToken("4"), 14);
  }

  lemma BigJsonErrorStep19(s: string)
    requires s == "[\n0," + "\n1,\n" + "2,\n3" + ",4,5" + ",6 7" + ",\n8," + "\n9\n]"
    ensures DigitsValue("4") == 4
  {
  }

  lemma BigJsonErrorStep20(s: string)
    requires s == "[\n0," + "\n1,\n" + "2,\n3" + ",4,5" + ",6 7" + ",\n8," + "\n9\n]"
    ensures ParseValue(s, 13, 1, false, false) == Parsed(Integer(4), 14)
  {
    assert SkipTrivia(s, 13) == 13;
    BigJsonErrorStep18(s);
    BigJsonErrorStep19(s);
    assert DecodeNumber("4") == Integer(4);
  }

  lemma BigJsonErrorStep21(s: string)
    requires s == "[\n0," + "\n1,\n" + "2,\n3" + ",4,5" + ",6 7" + ",\n8," + "\n9\n]"
    ensures DigitRunEnd(s, 15) == 16
  {
    assert DigitRunEnd(s, 16) == 16;
  }

  lemma BigJsonErrorStep22(s: string)
    requires s == "[\n0," + "\n1,\n" + "2,\n3" + ",4,5" + ",6 7" + ",\n8," + "\n9\n]"
    ensures Lex(s, 15) == Lexed(NumberToken("5"), 16)
  {
    BigJsonErrorStep21(s);
    assert ExponentEnd(s, 16) == Some(16);
    assert s[15..16] == "5";
    assert LexNumber(s, 15) == Lexed(NumberToken("5"), 16);
  }

  lemma BigJsonErrorStep23(s: string)
    requires s == "[\n0," + "\n1,\n" + "2,\n3" + ",4,5" + ",6 7" + ",\n8," + "\n9\n]"
    ensures DigitsValue("5") == 5
  {
  }

  lemma BigJsonErrorStep24(s: string)
    requires s == "[\n0," + "\n1,\n" + "2,\n3" + ",4,5" + ",6 7" + ",\n8," + "\n9\n]"
    ensures ParseValue(s, 15, 1, false, false) == Parsed(Integer(5), 16)
  {
    assert SkipTrivia(s, 15) == 15;
    BigJsonErrorStep22(s);
    BigJsonErrorStep23(s);
    assert DecodeNumber("5") == Integer(5);
  }

  lemma BigJsonErrorStep25(s: string)
    requires s == "[\n0," + "\n1,\n" + "2,\n3" + ",4,5" + ",6 7" + ",\n8," + "\n9\n]"
    ensures Lex(s, 17) == Lexed(NumberToken("6"), 18)
  {
    assert DigitRunEnd(s, 18) == 18;
    assert DigitRunEnd(s, 17) == 18;
    assert ExponentEnd(s, 18) == Some(18);
    assert s[17..18] == "6";
    assert LexNumber(s, 17) == Lexed(NumberToken("6"), 18);
  }

  lemma BigJsonErrorStep26(s: string)
    requires s == "[\n0," + "\n1,\n" + "2,\n3" + ",4,5" + ",6 7" + ",\n8," + "\n9\n]"
    ensures DigitsValue("6") == 6
  {
  }

  lemma BigJsonErrorStep27(s: string)
    requires s == "[\n0," + "\n1,\n" + "2,\n3" + ",4,5" + ",6 7" + ",\n8," + "\n9\n]"
    ensures ParseValue(s, 17, 1, false, false) == Parsed(Integer(6), 18)
  {
    assert SkipTrivia(s, 17) == 17;
    BigJsonErrorStep25(s);
    BigJsonErrorStep26(s);
    assert DecodeNumber("6") == Integer(6);
  }

  lemma BigJsonErrorStep28(s: string)
    requires s == "[\n0," + "\n1,\n" + "2,\n3" + ",4,5" + ",6 7" + ",\n8," + "\n9\n]"
    ensures SkipTrivia(s, 18) == 19
  {
    assert SkipTrivia(s, 19) == 19;
  }

  lemma BigJsonErrorStep29(s: string)
    requires s == "[\n0," + "\n1,\n" + "2,\n3" + ",4,5" + ",6 7" + ",\n8," + "\n9\n]"
    ensures DigitRunEnd(s, 20) == 20
  {
  }

  lemma BigJsonErrorStep30(s: string)
    requires s == "[\n0," + "\n1,\n" + "2,\n3" + ",4,5" + ",6 7" + ",\n8," + "\n9\n]"
    ensures Lex(s, 19) == Lexed(NumberToken("7"), 20)
  {
    BigJsonErrorStep29(s);
    assert DigitRunEnd(s, 19) == 20;
    assert ExponentEnd(s, 20) == Some(20);
    assert s[19..20] == "7";
    assert LexNumber(s, 19) == Lexed(NumberToken("7"), 20);
  }

  lemma BigJsonErrorStep31(s: string)
    requires s == "[\n0," + "\n1,\n" + "2,\n3" + ",4,5" + ",6 7" + ",\n8," + "\n9\n]"
    ensures ParseElements(s, 17, 1, [Integer(0), Integer(1), Integer(2), Integer(3), Integer(4), Integer(5)], false) == Failed(SyntaxError, 19)
  {
    assert [Integer(0), Integer(1), Integer(2), Integer(3), Integer(4), Integer(5)] + [Integer(6)] == [Integer(0), Integer(1), Integer(2), Integer(3), Integer(4), Integer(5), Integer(6)];
    BigJsonErrorStep28(s);
    BigJsonErrorStep30(s);
    BigJsonErrorStep27(s);
  }

  lemma BigJsonErrorStep32(s: string)
    requires s == "[\n0," + "\n1,\n" + "2,\n3" + ",4,5" + ",6 7" + ",\n8," + "\n9\n]"
    ensures [Integer(0), Integer(1), Integer(2), Integer(3), Integer(4)] + [Integer(5)] == [Integer(0), Integer(1), Integer(2), Integer(3), Integer(4), Integer(5)] && SkipTrivia(s, 16) == 16 && Lex(s, 16) == Lexed(ListSeparator, 17) && SkipTrivia(s, 17) == 17 && Lex(s, 17) == Lexed(NumberToken("6"), 18)
  {
    assert [Integer(0), Integer(1), Integer(2), Integer(3), Integer(4)] + [Integer(5)] == [Integer(0), Integer(1), Integer(2), Integer(3), Integer(4), Integer(5)];
    assert SkipTrivia(s, 16) == 16;
    assert Lex(s, 16) == Lexed(ListSeparator, 17);
    assert SkipTrivia(s, 17) == 17;
    BigJsonErrorStep25(s);
  }

  lemma BigJsonErrorStep33(s: string)
    requires s == "[\n0," + "\n1,\n" + "2,\n3" + ",4,5" + ",6 7" + ",\n8," + "\n9\n]"
    ensures ParseElements(s, 15, 1, [Integer(0), Integer(1), Integer(2), Integer(3), Integer(4)], false) == Failed(SyntaxError, 19)
  {
    BigJsonErrorStep32(s);
    BigJsonErrorStep24(s);
    BigJsonErrorStep31(s);
  }

  lemma BigJsonErrorStep34(s: string)
    requires s == "[\n0," + "\n1,\n" + "2,\n3" + ",4,5" + ",6 7" + ",\n8," + "\n9\n]"
    ensures [Integer(0), Integer(1), Integer(2), Integer(3)] + [Integer(4)] == [Integer(0), Integer(1), Integer(2), Integer(3), Integer(4)] && SkipTrivia(s, 14) == 14 && Lex(s, 14) == Lexed(ListSeparator, 15) && SkipTrivia(s, 15) == 15 && Lex(s, 15) == Lexed(NumberToken("5"), 16)
  {
    assert [Integer(0), Integer(1), Integer(2), Integer(3)] + [Integer(4)] == [Integer(0), Integer(1), Integer(2), Integer(3), Integer(4)];
    assert SkipTrivia(s, 14) == 14;
    assert Lex(s, 14) == Lexed(ListSeparator, 15);
    assert SkipTrivia(s, 15) == 15;
    BigJsonErrorStep22(s);
  }

  lemma BigJsonErrorStep35(s: string)
    requires s == "[\n0," + "\n1,\n" + "2,\n3" + ",4,5" + ",6 7" + ",\n8," + "\n9\n]"
    ensures ParseElements(s, 13, 1, [Integer(0), Integer(1), Integer(2), Integer(3)], false) == Failed(SyntaxError, 19)
  {
    BigJsonErrorStep34(s);
    BigJsonErrorStep20(s);
    BigJsonErrorStep33(s);
  }

  lemma BigJsonErrorStep36(s: string)
    requires s == "[\n0," + "\n1,\n" + "2,\n3" + ",4,5" + ",6 7" + ",\n8," + "\n9\n]"
    ensures [Integer(0), Integer(1), Integer(2)] + [Integer(3)] == [Integer(0), Integer(1), Integer(2), Integer(3)] && SkipTrivia(s, 12) == 12 && Lex(s, 12) == Lexed(ListSeparator, 13) && SkipTrivia(s, 13) == 13 && Lex(s, 13) == Lexed(NumberToken("4"), 14)
  {
    assert [Integer(0), Integer(1), Integer(2)] + [Integer(3)] == [Integer(0), Integer(1), Integer(2), Integer(3)];
    assert SkipTrivia(s, 12) == 12;
    assert Lex(s, 12) == Lexed(ListSeparator, 13);
    assert SkipTrivia(s, 13) == 13;
    BigJsonErrorStep18(s);
  }

  lemma BigJsonErrorStep37(s: string)
    requires s == "[\n0," + "\n1,\n" + "2,\n3" + ",4,5" + ",6 7" + ",\n8," + "\n9\n]"
    ensures ParseElements(s, 11, 1, [Integer(0), Integer(1), Integer(2)], false) == Failed(SyntaxError, 19)
  {
    BigJsonErrorStep36(s);
    BigJsonErrorStep17(s);
    BigJsonErrorStep35(s);
  }

  lemma BigJsonErrorStep38(s: string)
    requires s == "[\n0," + "\n1,\n" + "2,\n3" + ",4,5" + ",6 7" + ",\n8," + "\n9\n]"
    ensures [Integer(0), Integer(1)] + [Integer(2)] == [Integer(0), Integer(1), Integer(2)] && SkipTrivia(s, 9) == 9 && Lex(s, 9) == Lexed(ListSeparator, 10) && SkipTrivia(s, 10) == 11 && Lex(s, 11) == Lexed(NumberToken("3"), 12)
  {
    assert [Integer(0), Integer(1)] + [Integer(2)] == [Integer(0), Integer(1), Integer(2)];
    assert SkipTrivia(s, 9) == 9;
    assert Lex(s, 9) == Lexed(ListSeparator, 10);
    BigJsonErrorStep14(s);
    BigJsonErrorStep15(s);
  }

  lemma BigJsonErrorStep39(s: string)
    requires s == "[\n0," + "\n1,\n" + "2,\n3" + ",4,5" + ",6 7" + ",\n8," + "\n9\n]"
    ensures ParseElements(s, 8, 1, [Integer(0), Integer(1)], false) == Failed(SyntaxError, 19)
  {
    BigJsonErrorStep38(s);
    BigJsonErrorStep13(s);
    BigJsonErrorStep37(s);
  }

  lemma BigJsonErrorStep40(s: string)
    requires s == "[\n0," + "\n1,\n" + "2,\n3" + ",4,5" + ",6 7" + ",\n8," + "\n9\n]"
    ensures [Integer(0)] + [Integer(1)] == [Integer(0), Integer(1)] && SkipTrivia(s, 6) == 6 && Lex(s, 6) == Lexed(ListSeparator, 7) && SkipTrivia(s, 7) == 8 && Lex(s, 8) == Lexed(NumberToken("2"), 9)
  {
    assert [Integer(0)] + [Integer(1)] == [Integer(0), Integer(1)];
    assert SkipTrivia(s, 6) == 6;
    assert Lex(s, 6) == Lexed(ListSeparator, 7);
    BigJsonErrorStep10(s);
    BigJsonErrorStep11(s);
  }

  lemma BigJsonErrorStep41(s: string)
    requires s == "[\n0," + "\n1,\n" + "2,\n3" + ",4,5" + ",6 7" + ",\n8," + "\n9\n]"
    ensures ParseElements(s, 5, 1, [Integer(0)], false) == Failed(SyntaxError, 19)
  {
    BigJsonErrorStep40(s);
    BigJsonErrorStep9(s);
    BigJsonErrorStep39(s);
  }

  lemma BigJsonErrorStep42(s: string)
    requires s == "[\n0," + "\n1,\n" + "2,\n3" + ",4,5" + ",6 7" + ",\n8," + "\n9\n]"
    ensures [] + [Integer(0)] == [Integer(0)] && SkipTrivia(s, 3) == 3 && Lex(s, 3) == Lexed(ListSeparator, 4) && SkipTrivia(s, 4) == 5 && Lex(s, 5) == Lexed(NumberToken("1"), 6)
  {
    assert [] + [Integer(0)] == [Integer(0)];
    assert SkipTrivia(s, 3) == 3;
    assert Lex(s, 3) == Lexed(ListSeparator, 4);
    BigJsonErrorStep5(s);
    BigJsonErrorStep7(s);
  }

  lemma BigJsonErrorStep43(s: string)
    requires s == "[\n0," + "\n1,\n" + "2,\n3" + ",4,5" + ",6 7" + ",\n8," + "\n9\n]"
    ensures ParseElements(s, 2, 1, [], false) == Failed(SyntaxError, 19)
  {
    BigJsonErrorStep42(s);
    BigJsonErrorStep4(s);
    BigJsonErrorStep41(s);
  }

  lemma BigJsonErrorStep44(s: string)
    requires s == "[\n0," + "\n1,\n" + "2,\n3" + ",4,5" + ",6 7" + ",\n8," + "\n9\n]"
    ensures ParseArray(s, 1, 1, false) == Failed(SyntaxError, 19)
  {
    BigJsonErrorStep1(s);
    BigJsonErrorStep2(s);
    BigJsonErrorStep43(s);
  }

  lemma BigJsonErrorStep45(s: string)
    requires s == "[\n0," + "\n1,\n" + "2,\n3" + ",4,5" + ",6 7" + ",\n8," + "\n9\n]"
    ensures ParseValue(s, 0, 0, true, false) == Failed(SyntaxError, 19)
  {
    RootList(s, true, false);
    BigJsonErrorStep44(s);
  }

  lemma BigJsonErrorStep46(s: string)
    requires s == "[\n0," + "\n1,\n" + "2,\n3" + ",4,5" + ",6 7" + ",\n8," + "\n9\n]"
    ensures LineColumn(s[..1]) == (1, 2) && s[..2][..1] == s[..1] && LineColumn(s[..2]) == (2, 1) && s[..3][..2] == s[..2] && LineColumn(s[..3]) == (2, 2)
  {
    assert LineColumn(s[..1]) == (1, 2);
    assert s[..2][..1] == s[..1];
    assert LineColumn(s[..2]) == (2, 1);
    assert s[..3][..2] == s[..2];
    assert LineColumn(s[..3]) == (2, 2);
  }

  lemma BigJsonErrorStep47(s: string)
    requires s == "[\n0," + "\n1,\n" + "2,\n3" + ",4,5" + ",6 7" + ",\n8," + "\n9\n]"
    ensures s[..4][..3] == s[..3] && LineColumn(s[..4]) == (2, 3) && s[..5][..4] == s[..4]
  {
    BigJsonErrorStep46(s);
    assert s[..4][..3] == s[..3];
    assert LineColumn(s[..4]) == (2, 3);
    assert s[..5][..4] == s[..4];
  }

  lemma BigJsonErrorStep48(s: string)
    requires s == "[\n0," + "\n1,\n" + "2,\n3" + ",4,5" + ",6 7" + ",\n8," + "\n9\n]"
    ensures LineColumn(s[..5]) == (3, 1)
  {
    BigJsonErrorStep46(s);
    BigJsonErrorStep47(s);
  }

  lemma BigJsonErrorStep49(s: string)
    requires s == "[\n0," + "\n1,\n" + "2,\n3" + ",4,5" + ",6 7" + ",\n8," + "\n9\n]"
    ensures LineColumn(s[..5]) == (3, 1) && s[..6][..5] == s[..5] && LineColumn(s[..6]) == (3, 2) && s[..7][..6] == s[..6] && LineColumn(s[..7]) == (3, 3)
  {
    BigJsonErrorStep48(s);
    assert s[..6][..5] == s[..5];
    assert LineColumn(s[..6]) == (3, 2);
    assert s[..7][..6] == s[..6];
    assert LineColumn(s[..7]) == (3, 3);
  }

  lemma BigJsonErrorStep50(s: string)
    requires s == "[\n0," + "\n1,\n" + "2,\n3" + ",4,5" + ",6 7" + ",\n8," + "\n9\n]"
    ensures s[..8][..7] == s[..7] && LineColumn(s[..8]) == (4, 1) && s[..9][..8] == s[..8] && LineColumn(s[..9]) == (4, 2) && s[..10][..9] == s[..9]
  {
    BigJsonErrorStep49(s);
    assert s[..8][..7] == s[..7];
    assert LineColumn(s[..8]) == (4, 1);
    assert s[..9][..8] == s[..8];
    assert LineColumn(s[..9]) == (4, 2);
    assert s[..10][..9] == s[..9];
  }

  lemma BigJsonErrorStep51(s: string)
    requires s == "[\n0," + "\n1,\n" + "2,\n3" + ",4,5" + ",6 7" + ",\n8," + "\n9\n]"
    ensures LineColumn(s[..10]) == (4, 3)
  {
    BigJsonErrorStep49(s);
    BigJsonErrorStep50(s);
  }

  lemma BigJsonErrorStep52(s: string)
    requires s == "[\n0," + "\n1,\n" + "2,\n3" + ",4,5" + ",6 7" + ",\n8," + "\n9\n]"
    ensures LineColumn(s[..10]) == (4, 3) && s[..11][..10] == s[..10] && LineColumn(s[..11]) == (5, 1) && s[..12][..11] == s[..11] && LineColumn(s[..12]) == (5, 2)
  {
    BigJsonErrorStep51(s);
    assert s[..11][..10] == s[..10];
    assert LineColumn(s[..11]) == (5, 1);
    assert s[..12][..11] == s[..11];
    assert LineColumn(s[..12]) == (5, 2);
  }

  lemma BigJsonErrorStep53(s: string)
    requires s == "[\n0," + "\n1,\n" + "2,\n3" + ",4,5" + ",6 7" + ",\n8," + "\n9\n]"
    ensures s[..13][..12] == s[..12] && LineColumn(s[..13]) == (5, 3) && s[..14][..13] == s[..13] && LineColumn(s[..14]) == (5, 4) && s[..15][..14] == s[..14]
  {
    BigJsonErrorStep52(s);
    assert s[..13][..12] == s[..12];
    assert LineColumn(s[..13]) == (5, 3);
    assert s[..14][..13] == s[..13];
    assert LineColumn(s[..14]) == (5, 4);
    assert s[..15][..14] == s[..14];
  }

  lemma BigJsonErrorStep54(s: string)
    requires s == "[\n0," + "\n1,\n" + "2,\n3" + ",4,5" + ",6 7" + ",\n8," + "\n9\n]"
    ensures LineColumn(s[..15]) == (5, 5)
  {
    BigJsonErrorStep52(s);
    BigJsonErrorStep53(s);
  }

  lemma BigJsonErrorStep55(s: string)
    requires s == "[\n0," + "\n1,\n" + "2,\n3" + ",4,5" + ",6 7" + ",\n8," + "\n9\n]"
    ensures LineColumn(s[..15]) == (5, 5) && s[..16][..15] == s[..15] && LineColumn(s[..16]) == (5, 6) && s[..17][..16] == s[..16] && LineColumn(s[..17]) == (5, 7)
  {
    BigJsonErrorStep54(s);
    assert s[..16][..15] == s[..15];
    assert LineColumn(s[..16]) == (5, 6);
    assert s[..17][..16] == s[..16];
    assert LineColumn(s[..17]) == (5, 7);
  }

  lemma BigJsonErrorStep56(s: string)
    requires s == "[\n0," + "\n1,\n" + "2,\n3" + ",4,5" + ",6 7" + ",\n8," + "\n9\n]"
    ensures s[..18][..17] == s[..17] && LineColumn(s[..18]) == (5, 8) && s[..19][..18] == s[..18]
  {
    BigJsonErrorStep55(s);
    assert s[..18][..17] == s[..17];
    assert LineColumn(s[..18]) == (5, 8);
    assert s[..19][..18] == s[..18];
  }

  lemma BigJsonErrorStep57(s: string)
    requires s == "[\n0," + "\n1,\n" + "2,\n3" + ",4,5" + ",6 7" + ",\n8," + "\n9\n]"
    ensures LineColumn(s[..19]) == (5, 9)
  {
    BigJsonErrorStep55(s);
    BigJsonErrorStep56(s);
  }

  /** Data after the root is reported at the comma. */
  lemma DataAfterRootError(s: string)
    requires s == "{},{" + "}"
    ensures ReadAndReturnError(s, false, NoError, None) == Report(None, ErrorCode(UnexpectedDataAfterRoot), Some(ParseError(UnexpectedDataAfterRoot, 1, 3)))
  {
    assert SkipTrivia(s, 2) == 2;
    assert Lex(s, 2) == Lexed(ListSeparator, 3);
    DataAfterRootErrorStep3(s);
    DataAfterRootErrorStep2(s);
    assert JsonToValue(s, true, false) == Err(ParseError(UnexpectedDataAfterRoot, 1, 3));
  }

  lemma DataAfterRootErrorStep1(s: string)
    requires s == "{},{" + "}"
    ensures ParseObject(s, 1, 1, false) == Parsed(Dict(map[]), 2)
  {
    assert SkipTrivia(s, 1) == 1;
    assert Lex(s, 1) == Lexed(ObjectEnd, 2);
  }

  lemma DataAfterRootErrorStep2(s: string)
    requires s == "{},{" + "}"
    ensures ParseValue(s, 0, 0, true, false) == Parsed(Dict(map[]), 2)
  {
    RootDict(s, true, false);
    DataAfterRootErrorStep1(s);
  }

  lemma DataAfterRootErrorStep3(s: string)
    requires s == "{},{" + "}"
    ensures LineColumn(s[..2]) == (1, 3)
  {
    assert LineColumn(s[..1]) == (1, 2);
    assert s[..2][..1] == s[..1];
  }

  /** A root that is neither list nor dictionary is reported at its start. */
  lemma BadRootError(s: string)
    requires s == "42"
    ensures ReadAndReturnError(s, false, NoError, None) == Report(None, ErrorCode(BadRootElementType), Some(ParseError(BadRootElementType, 1, 1)))
  {
    BadRootErrorStep2(s);
    assert JsonToValue(s, true, false) == Err(ParseError(BadRootElementType, 1, 1));
  }

  lemma BadRootErrorStep1(s: string)
    requires s == "42"
    ensures Lex(s, 0) == Lexed(NumberToken("42"), 2)
  {
    assert DigitRunEnd(s, 2) == 2;
    assert DigitRunEnd(s, 1) == 2;
    assert DigitRunEnd(s, 0) == 2;
    assert ExponentEnd(s, 2) == Some(2);
    assert s[0..2] == "42";
    assert LexNumber(s, 0) == Lexed(NumberToken("42"), 2);
  }

  lemma BadRootErrorStep2(s: string)
    requires s == "42"
    ensures ParseValue(s, 0, 0, true, false) == Failed(BadRootElementType, 0)
  {
    assert SkipTrivia(s, 0) == 0;
    BadRootErrorStep1(s);
  }

  /** A trailing comma in a list is reported at the closing bracket. */
  lemma ListTrailingCommaError(s: string)
    requires s == "[1,]"
    ensures ReadAndReturnError(s, false, NoError, None) == Report(None, ErrorCode(TrailingComma), Some(ParseError(TrailingComma, 1, 4)))
  {
    ListTrailingCommaErrorStep7(s);
    ListTrailingCommaErrorStep6(s);
    assert JsonToValue(s, true, false) == Err(ParseError(TrailingComma, 1, 4));
  }

  lemma ListTrailingCommaErrorStep1(s: string)
    requires s == "[1,]"
    ensures Lex(s, 1) == Lexed(NumberToken("1"), 2)
  {
    assert DigitRunEnd(s, 2) == 2;
    assert DigitRunEnd(s, 1) == 2;
    assert ExponentEnd(s, 2) == Some(2);
    assert s[1..2] == "1";
    assert LexNumber(s, 1) == Lexed(NumberToken("1"), 2);
  }

  lemma ListTrailingCommaErrorStep2(s: string)
    requires s == "[1,]"
    ensures DigitsValue("1") == 1
  {
  }

  lemma ListTrailingCommaErrorStep3(s: string)
    requires s == "[1,]"
    ensures ParseValue(s, 1, 1, false, false) == Parsed(Integer(1), 2)
  {
    assert SkipTrivia(s, 1) == 1;
    ListTrailingCommaErrorStep1(s);
    ListTrailingCommaErrorStep2(s);
    assert DecodeNumber("1") == Integer(1);
  }

  lemma ListTrailingCommaErrorStep4(s: string)
    requires s == "[1,]"
    ensures ParseElements(s, 1, 1, [], false) == Failed(TrailingComma, 3)
  {
    assert [] + [Integer(1)] == [Integer(1)];
    assert SkipTrivia(s, 2) == 2;
    assert Lex(s, 2) == Lexed(ListSeparator, 3);
    assert SkipTrivia(s, 3) == 3;
    assert Lex(s, 3) == Lexed(ArrayEnd, 4);
    ListTrailingCommaErrorStep3(s);
  }

  lemma ListTrailingCommaErrorStep5(s: string)
    requires s == "[1,]"
    ensures ParseArray(s, 1, 1, false) == Failed(TrailingComma, 3)
  {
    assert SkipTrivia(s, 1) == 1;
    ListTrailingCommaErrorStep1(s);
    ListTrailingCommaErrorStep4(s);
  }

  lemma ListTrailingCommaErrorStep6(s: string)
    requires s == "[1,]"
    ensures ParseValue(s, 0, 0, true, false) == Failed(TrailingComma, 3)
  {
    RootList(s, true, false);
    ListTrailingCommaErrorStep5(s);
  }

  lemma ListTrailingCommaErrorStep7(s: string)
    requires s == "[1,]"
    ensures LineColumn(s[..3]) == (1, 4)
  {
    assert LineColumn(s[..1]) == (1, 2);
    assert s[..2][..1] == s[..1];
    assert LineColumn(s[..2]) == (1, 3);
    assert s[..3][..2] == s[..2];
  }

  /** An unquoted key is reported at the key. */
  lemma UnquotedKeyError(s: string)
    requires s == "{foo" + ":\"ba" + "r\"}"
    ensures ReadAndReturnError(s, false, NoError, None) == Report(None, ErrorCode(UnquotedDictionaryKey), Some(ParseError(UnquotedDictionaryKey, 1, 2)))
  {
    UnquotedKeyErrorStep4(s);
    UnquotedKeyErrorStep3(s);
    assert JsonToValue(s, true, false) == Err(ParseError(UnquotedDictionaryKey, 1, 2));
  }

  lemma UnquotedKeyErrorStep1(s: string)
    requires s == "{foo" + ":\"ba" + "r\"}"
    ensures ParseMembers(s, 1, 1, map[], false) == Failed(UnquotedDictionaryKey, 1)
  {
    assert s[1..6] == "foo:\"";
    assert Lex(s, 1) == Lexed(InvalidToken(None), 1);
  }

  lemma UnquotedKeyErrorStep2(s: string)
    requires s == "{foo" + ":\"ba" + "r\"}"
    ensures ParseObject(s, 1, 1, false) == Failed(UnquotedDictionaryKey, 1)
  {
    assert SkipTrivia(s, 1) == 1;
    assert s[1..6] == "foo:\"";
    assert Lex(s, 1) == Lexed(InvalidToken(None), 1);
    UnquotedKeyErrorStep1(s);
  }

  lemma UnquotedKeyErrorStep3(s: string)
    requires s == "{foo" + ":\"ba" + "r\"}"
    ensures ParseValue(s, 0, 0, true, false) == Failed(UnquotedDictionaryKey, 1)
  {
    RootDict(s, true, false);
    UnquotedKeyErrorStep2(s);
  }

  lemma UnquotedKeyErrorStep4(s: string)
    requires s == "{foo" + ":\"ba" + "r\"}"
    ensures LineColumn(s[..1]) == (1, 2)
  {
  }

  /** A trailing comma in a dictionary is reported at the closing brace. */
  lemma ObjectTrailingCommaError(s: string)
    requires s == "{\"fo" + "o\":\"" + "bar\"" + ",}"
    ensures ReadAndReturnError(s, false, NoError, None) == Report(None, ErrorCode(TrailingComma), Some(ParseError(TrailingComma, 1, 14)))
  {
    ObjectTrailingCommaErrorStep18(s);
    ObjectTrailingCommaErrorStep21(s);
    ObjectTrailingCommaErrorStep22(s);
    ObjectTrailingCommaErrorStep15(s);
    assert JsonToValue(s, true, false) == Err(ParseError(TrailingComma, 1, 14));
  }

  lemma ObjectTrailingCommaErrorStep1(s: string)
    requires s == "{\"fo" + "o\":\"" + "bar\"" + ",}"
    ensures LexString(s, 1, 5, [102, 111, 111]) == Lexed(StringToken([102, 111, 111]), 6)
  {
  }

  lemma ObjectTrailingCommaErrorStep2(s: string)
    requires s == "{\"fo" + "o\":\"" + "bar\"" + ",}"
    ensures [] + [102] == [102] && [102] + [111] == [102, 111] && [102, 111] + [111] == [102, 111, 111] && LexString(s, 1, 5, [102, 111, 111]) == Lexed(StringToken([102, 111, 111]), 6) && LexString(s, 1, 4, [102, 111]) == Lexed(StringToken([102, 111, 111]), 6)
  {
    assert [] + [102] == [102];
    assert [102] + [111] == [102, 111];
    assert [102, 111] + [111] == [102, 111, 111];
    ObjectTrailingCommaErrorStep1(s);
    assert LexString(s, 1, 4, [102, 111]) == Lexed(StringToken([102, 111, 111]), 6);
  }

  lemma ObjectTrailingCommaErrorStep3(s: string)
    requires s == "{\"fo" + "o\":\"" + "bar\"" + ",}"
    ensures LexString(s, 1, 3, [102]) == Lexed(StringToken([102, 111, 111]), 6) && LexString(s, 1, 2, []) == Lexed(StringToken([102, 111, 111]), 6)
  {
    ObjectTrailingCommaErrorStep2(s);
    assert LexString(s, 1, 3, [102]) == Lexed(StringToken([102, 111, 111]), 6);
    assert LexString(s, 1, 2, []) == Lexed(StringToken([102, 111, 111]), 6);
  }

  lemma ObjectTrailingCommaErrorStep4(s: string)
    requires s == "{\"fo" + "o\":\"" + "bar\"" + ",}"
    ensures Lex(s, 1) == Lexed(StringToken([102, 111, 111]), 6)
  {
    ObjectTrailingCommaErrorStep2(s);
    ObjectTrailingCommaErrorStep3(s);
  }

  lemma ObjectTrailingCommaErrorStep5(s: string)
    requires s == "{\"fo" + "o\":\"" + "bar\"" + ",}"
    ensures [] + [102] == [102] && [102] + [111] == [102, 111] && [102, 111] + [111] == [102, 111, 111] && LexString(s, 1, 5, [102, 111, 111]) == Lexed(StringToken([102, 111, 111]), 6) && LexString(s, 1, 4, [102, 111]) == Lexed(StringToken([102, 111, 111]), 6)
  {
    assert [] + [102] == [102];
    assert [102] + [111] == [102, 111];
    assert [102, 111] + [111] == [102, 111, 111];
    ObjectTrailingCommaErrorStep1(s);
    assert LexString(s, 1, 4, [102, 111]) == Lexed(StringToken([102, 111, 111]), 6);
  }

  lemma ObjectTrailingCommaErrorStep6(s: string)
    requires s == "{\"fo" + "o\":\"" + "bar\"" + ",}"
    ensures LexString(s, 1, 3, [102]) == Lexed(StringToken([102, 111, 111]), 6) && LexString(s, 1, 2, []) == Lexed(StringToken([102, 111, 111]), 6)
  {
    ObjectTrailingCommaErrorStep5(s);
    assert LexString(s, 1, 3, [102]) == Lexed(StringToken([102, 111, 111]), 6);
    assert LexString(s, 1, 2, []) == Lexed(StringToken([102, 111, 111]), 6);
  }

  lemma ObjectTrailingCommaErrorStep7(s: string)
    requires s == "{\"fo" + "o\":\"" + "bar\"" + ",}"
    ensures LexString(s, 7, 11, [98, 97, 114]) == Lexed(StringToken([98, 97, 114]), 12)
  {
  }

  lemma ObjectTrailingCommaErrorStep8(s: string)
    requires s == "{\"fo" + "o\":\"" + "bar\"" + ",}"
    ensures [] + [98] == [98] && [98] + [97] == [98, 97] && [98, 97] + [114] == [98, 97, 114] && LexString(s, 7, 11, [98, 97, 114]) == Lexed(StringToken([98, 97, 114]), 12) && LexString(s, 7, 10, [98, 97]) == Lexed(StringToken([98, 97, 114]), 12)
  {
    assert [] + [98] == [98];
    assert [98] + [97] == [98, 97];
    assert [98, 97] + [114] == [98, 97, 114];
    ObjectTrailingCommaErrorStep7(s);
    assert LexString(s, 7, 10, [98, 97]) == Lexed(StringToken([98, 97, 114]), 12);
  }

  lemma ObjectTrailingCommaErrorStep9(s: string)
    requires s == "{\"fo" + "o\":\"" + "bar\"" + ",}"
    ensures LexString(s, 7, 9, [98]) == Lexed(StringToken([98, 97, 114]), 12) && LexString(s, 7, 8, []) == Lexed(StringToken([98, 97, 114]), 12)
  {
    ObjectTrailingCommaErrorStep8(s);
    assert LexString(s, 7, 9, [98]) == Lexed(StringToken([98, 97, 114]), 12);
    assert LexString(s, 7, 8, []) == Lexed(StringToken([98, 97, 114]), 12);
  }

  lemma ObjectTrailingCommaErrorStep10(s: string)
    requires s == "{\"fo" + "o\":\"" + "bar\"" + ",}"
    ensures Lex(s, 7) == Lexed(StringToken([98, 97, 114]), 12)
  {
    ObjectTrailingCommaErrorStep8(s);
    ObjectTrailingCommaErrorStep9(s);
  }

  lemma ObjectTrailingCommaErrorStep11(s: string)
    requires s == "{\"fo" + "o\":\"" + "bar\"" + ",}"
    ensures ParseValue(s, 7, 1, false, false) == Parsed(Str([98, 97, 114]), 12)
  {
    assert SkipTrivia(s, 7) == 7;
    ObjectTrailingCommaErrorStep10(s);
  }

  lemma ObjectTrailingCommaErrorStep12(s: string)
    requires s == "{\"fo" + "o\":\"" + "bar\"" + ",}"
    ensures ParseMemberValue(s, 7, 1, map[], [102, 111, 111], false) == Failed(TrailingComma, 13)
  {
    assert map[][[102, 111, 111] := Str([98, 97, 114])] == map[[102, 111, 111] := Str([98, 97, 114])];
    assert SkipTrivia(s, 12) == 12;
    assert Lex(s, 12) == Lexed(ListSeparator, 13);
    assert SkipTrivia(s, 13) == 13;
    assert Lex(s, 13) == Lexed(ObjectEnd, 14);
    ObjectTrailingCommaErrorStep11(s);
  }

  lemma ObjectTrailingCommaErrorStep13(s: string)
    requires s == "{\"fo" + "o\":\"" + "bar\"" + ",}"
    ensures ParseMembers(s, 1, 1, map[], false) == Failed(TrailingComma, 13)
  {
    ObjectTrailingCommaErrorStep4(s);
    assert SkipTrivia(s, 6) == 6;
    assert Lex(s, 6) == Lexed(PairSeparator, 7);
    assert SkipTrivia(s, 7) == 7;
    ObjectTrailingCommaErrorStep12(s);
  }

  lemma ObjectTrailingCommaErrorStep14(s: string)
    requires s == "{\"fo" + "o\":\"" + "bar\"" + ",}"
    ensures ParseObject(s, 1, 1, false) == Failed(TrailingComma, 13)
  {
    assert SkipTrivia(s, 1) == 1;
    ObjectTrailingCommaErrorStep4(s);
    ObjectTrailingCommaErrorStep13(s);
  }

  lemma ObjectTrailingCommaErrorStep15(s: string)
    requires s == "{\"fo" + "o\":\"" + "bar\"" + ",}"
    ensures ParseValue(s, 0, 0, true, false) == Failed(TrailingComma, 13)
  {
    RootDict(s, true, false);
    ObjectTrailingCommaErrorStep14(s);
  }

  lemma ObjectTrailingCommaErrorStep16(s: string)
    requires s == "{\"fo" + "o\":\"" + "bar\"" + ",}"
    ensures LineColumn(s[..1]) == (1, 2) && s[..2][..1] == s[..1] && LineColumn(s[..2]) == (1, 3) && s[..3][..2] == s[..2] && LineColumn(s[..3]) == (1, 4)
  {
    assert LineColumn(s[..1]) == (1, 2);
    assert s[..2][..1] == s[..1];
    assert LineColumn(s[..2]) == (1, 3);
    assert s[..3][..2] == s[..2];
    assert LineColumn(s[..3]) == (1, 4);
  }

  lemma ObjectTrailingCommaErrorStep17(s: string)
    requires s == "{\"fo" + "o\":\"" + "bar\"" + ",}"
    ensures s[..4][..3] == s[..3] && LineColumn(s[..4]) == (1, 5) && s[..5][..4] == s[..4]
  {
    ObjectTrailingCommaErrorStep16(s);
    assert s[..4][..3] == s[..3];
    assert LineColumn(s[..4]) == (1, 5);
    assert s[..5][..4] == s[..4];
  }

  lemma ObjectTrailingCommaErrorStep18(s: string)
    requires s == "{\"fo" + "o\":\"" + "bar\"" + ",}"
    ensures LineColumn(s[..5]) == (1, 6)
  {
    ObjectTrailingCommaErrorStep16(s);
    ObjectTrailingCommaErrorStep17(s);
  }

  lemma ObjectTrailingCommaErrorStep19(s: string)
    requires s == "{\"fo" + "o\":\"" + "bar\"" + ",}"
    ensures LineColumn(s[..5]) == (1, 6) && s[..6][..5] == s[..5] && LineColumn(s[..6]) == (1, 7) && s[..7][..6] == s[..6] && LineColumn(s[..7]) == (1, 8)
  {
    ObjectTrailingCommaErrorStep18(s);
    assert s[..6][..5] == s[..5];
    assert LineColumn(s[..6]) == (1, 7);
    assert s[..7][..6] == s[..6];
    assert LineColumn(s[..7]) == (1, 8);
  }

  lemma ObjectTrailingCommaErrorStep20(s: string)
    requires s == "{\"fo" + "o\":\"" + "bar\"" + ",}"
    ensures s[..8][..7] == s[..7] && LineColumn(s[..8]) == (1, 9) && s[..9][..8] == s[..8] && LineColumn(s[..9]) == (1, 10) && s[..10][..9] == s[..9]
  {
    ObjectTrailingCommaErrorStep19(s);
    assert s[..8][..7] == s[..7];
    assert LineColumn(s[..8]) == (1, 9);
    assert s[..9][..8] == s[..8];
    assert LineColumn(s[..9]) == (1, 10);
    assert s[..10][..9] == s[..9];
  }

  lemma ObjectTrailingCommaErrorStep21(s: string)
    requires s == "{\"fo" + "o\":\"" + "bar\"" + ",}"
    ensures LineColumn(s[..10]) == (1, 11)
  {
    ObjectTrailingCommaErrorStep19(s);
    ObjectTrailingCommaErrorStep20(s);
  }

  lemma ObjectTrailingCommaErrorStep22(s: string)
    requires s == "{\"fo" + "o\":\"" + "bar\"" + ",}"
    ensures LineColumn(s[..13]) == (1, 14)
  {
    ObjectTrailingCommaErrorStep21(s);
    assert s[..11][..10] == s[..10];
    assert LineColumn(s[..11]) == (1, 12);
    assert s[..12][..11] == s[..11];
    assert LineColumn(s[..12]) == (1, 13);
    assert s[..13][..12] == s[..12];
  }

  /** A truncated keyword is a syntax error at its start. */
  lemma TruncatedKeywordError(s: string)
    requires s == "[nu]"
    ensures ReadAndReturnError(s, false, NoError, None) == Report(None, ErrorCode(SyntaxError), Some(ParseError(SyntaxError, 1, 2)))
  {
    TruncatedKeywordErrorStep5(s);
    TruncatedKeywordErrorStep4(s);
    assert JsonToValue(s, true, false) == Err(ParseError(SyntaxError, 1, 2));
  }

  lemma TruncatedKeywordErrorStep1(s: string)
    requires s == "[nu]"
    ensures ParseValue(s, 1, 1, false, false) == Failed(SyntaxError, 1)
  {
    assert SkipTrivia(s, 1) == 1;
    assert Lex(s, 1) == Lexed(InvalidToken(None), 1);
  }

  lemma TruncatedKeywordErrorStep2(s: string)
    requires s == "[nu]"
    ensures ParseElements(s, 1, 1, [], false) == Failed(SyntaxError, 1)
  {
    TruncatedKeywordErrorStep1(s);
  }

  lemma TruncatedKeywordErrorStep3(s: string)
    requires s == "[nu]"
    ensures ParseArray(s, 1, 1, false) == Failed(SyntaxError, 1)
  {
    assert SkipTrivia(s, 1) == 1;
    assert Lex(s, 1) == Lexed(InvalidToken(None), 1);
    TruncatedKeywordErrorStep2(s);
  }

  lemma TruncatedKeywordErrorStep4(s: string)
    requires s == "[nu]"
    ensures ParseValue(s, 0, 0, true, false) == Failed(SyntaxError, 1)
  {
    RootList(s, true, false);
    TruncatedKeywordErrorStep3(s);
  }

  lemma TruncatedKeywordErrorStep5(s: string)
    requires s == "[nu]"
    ensures LineColumn(s[..1]) == (1, 2)
  {
  }

  /** A bad hex escape is reported after the backslash. */
  lemma BadHexEscapeError(s: string)
    requires s == "[\"xx" + "x\\xq" + "\"]"
    ensures ReadAndReturnError(s, false, NoError, None) == Report(None, ErrorCode(InvalidEscape), Some(ParseError(InvalidEscape, 1, 7)))
  {
    BadHexEscapeErrorStep12(s);
    BadHexEscapeErrorStep13(s);
    BadHexEscapeErrorStep9(s);
    assert JsonToValue(s, true, false) == Err(ParseError(InvalidEscape, 1, 7));
  }

  lemma BadHexEscapeErrorStep1(s: string)
    requires s == "[\"xx" + "x\\xq" + "\"]"
    ensures LexString(s, 1, 5, [120, 120, 120]) == Lexed(InvalidToken(Some((InvalidEscape, 6))), 1)
  {
    assert !IsHexDigit(At(s, 7));
    assert !HexRun(s, 7, 2);
  }

  lemma BadHexEscapeErrorStep2(s: string)
    requires s == "[\"xx" + "x\\xq" + "\"]"
    ensures SkipTrivia(s, 1) == 1 && [] + [120] == [120] && [120] + [120] == [120, 120] && [120, 120] + [120] == [120, 120, 120] && LexString(s, 1, 5, [120, 120, 120]) == Lexed(InvalidToken(Some((InvalidEscape, 6))), 1)
  {
    assert SkipTrivia(s, 1) == 1;
    assert [] + [120] == [120];
    assert [120] + [120] == [120, 120];
    assert [120, 120] + [120] == [120, 120, 120];
    BadHexEscapeErrorStep1(s);
  }

  lemma BadHexEscapeErrorStep3(s: string)
    requires s == "[\"xx" + "x\\xq" + "\"]"
    ensures LexString(s, 1, 4, [120, 120]) == Lexed(InvalidToken(Some((InvalidEscape, 6))), 1) && LexString(s, 1, 3, [120]) == Lexed(InvalidToken(Some((InvalidEscape, 6))), 1) && LexString(s, 1, 2, []) == Lexed(InvalidToken(Some((InvalidEscape, 6))), 1) && Lex(s, 1) == Lexed(InvalidToken(Some((InvalidEscape, 6))), 1)
  {
    BadHexEscapeErrorStep2(s);
    assert LexString(s, 1, 4, [120, 120]) == Lexed(InvalidToken(Some((InvalidEscape, 6))), 1);
    assert LexString(s, 1, 3, [120]) == Lexed(InvalidToken(Some((InvalidEscape, 6))), 1);
    assert LexString(s, 1, 2, []) == Lexed(InvalidToken(Some((InvalidEscape, 6))), 1);
    assert Lex(s, 1) == Lexed(InvalidToken(Some((InvalidEscape, 6))), 1);
  }

  lemma BadHexEscapeErrorStep4(s: string)
    requires s == "[\"xx" + "x\\xq" + "\"]"
    ensures ParseValue(s, 1, 1, false, false) == Failed(InvalidEscape, 6)
  {
    BadHexEscapeErrorStep2(s);
    BadHexEscapeErrorStep3(s);
  }

  lemma BadHexEscapeErrorStep5(s: string)
    requires s == "[\"xx" + "x\\xq" + "\"]"
    ensures ParseElements(s, 1, 1, [], false) == Failed(InvalidEscape, 6)
  {
    BadHexEscapeErrorStep4(s);
  }

  lemma BadHexEscapeErrorStep6(s: string)
    requires s == "[\"xx" + "x\\xq" + "\"]"
    ensures SkipTrivia(s, 1) == 1 && [] + [120] == [120] && [120] + [120] == [120, 120] && [120, 120] + [120] == [120, 120, 120] && LexString(s, 1, 5, [120, 120, 120]) == Lexed(InvalidToken(Some((InvalidEscape, 6))), 1)
  {
    assert SkipTrivia(s, 1) == 1;
    assert [] + [120] == [120];
    assert [120] + [120] == [120, 120];
    assert [120, 120] + [120] == [120, 120, 120];
    BadHexEscapeErrorStep1(s);
  }

  lemma BadHexEscapeErrorStep7(s: string)
    requires s == "[\"xx" + "x\\xq" + "\"]"
    ensures LexString(s, 1, 4, [120, 120]) == Lexed(InvalidToken(Some((InvalidEscape, 6))), 1) && LexString(s, 1, 3, [120]) == Lexed(InvalidToken(Some((InvalidEscape, 6))), 1) && LexString(s, 1, 2, []) == Lexed(InvalidToken(Some((InvalidEscape, 6))), 1) && Lex(s, 1) == Lexed(InvalidToken(Some((InvalidEscape, 6))), 1)
  {
    BadHexEscapeErrorStep6(s);
    assert LexString(s, 1, 4, [120, 120]) == Lexed(InvalidToken(Some((InvalidEscape, 6))), 1);
    assert LexString(s, 1, 3, [120]) == Lexed(InvalidToken(Some((InvalidEscape, 6))), 1);
    assert LexString(s, 1, 2, []) == Lexed(InvalidToken(Some((InvalidEscape, 6))), 1);
    assert Lex(s, 1) == Lexed(InvalidToken(Some((InvalidEscape, 6))), 1);
  }

  lemma BadHexEscapeErrorStep8(s: string)
    requires s == "[\"xx" + "x\\xq" + "\"]"
    ensures ParseArray(s, 1, 1, false) == Failed(InvalidEscape, 6)
  {
    BadHexEscapeErrorStep6(s);
    BadHexEscapeErrorStep7(s);
    BadHexEscapeErrorStep5(s);
  }

  lemma BadHexEscapeErrorStep9(s: string)
    requires s == "[\"xx" + "x\\xq" + "\"]"
    ensures ParseValue(s, 0, 0, true, false) == Failed(InvalidEscape, 6)
  {
    RootList(s, true, false);
    BadHexEscapeErrorStep8(s);
  }

  lemma BadHexEscapeErrorStep10(s: string)
    requires s == "[\"xx" + "x\\xq" + "\"]"
    ensures LineColumn(s[..1]) == (1, 2) && s[..2][..1] == s[..1] && LineColumn(s[..2]) == (1, 3) && s[..3][..2] == s[..2] && LineColumn(s[..3]) == (1, 4)
  {
    assert LineColumn(s[..1]) == (1, 2);
    assert s[..2][..1] == s[..1];
    assert LineColumn(s[..2]) == (1, 3);
    assert s[..3][..2] == s[..2];
    assert LineColumn(s[..3]) == (1, 4);
  }

  lemma BadHexEscapeErrorStep11(s: string)
    requires s == "[\"xx" + "x\\xq" + "\"]"
    ensures s[..4][..3] == s[..3] && LineColumn(s[..4]) == (1, 5) && s[..5][..4] == s[..4]
  {
    BadHexEscapeErrorStep10(s);
    assert s[..4][..3] == s[..3];
    assert LineColumn(s[..4]) == (1, 5);
    assert s[..5][..4] == s[..4];
  }

  lemma BadHexEscapeErrorStep12(s: string)
    requires s == "[\"xx" + "x\\xq" + "\"]"
    ensures LineColumn(s[..5]) == (1, 6)
  {
    BadHexEscapeErrorStep10(s);
    BadHexEscapeErrorStep11(s);
  }

  lemma BadHexEscapeErrorStep13(s: string)
    requires s == "[\"xx" + "x\\xq" + "\"]"
    ensures LineColumn(s[..6]) == (1, 7)
  {
    BadHexEscapeErrorStep12(s);
    assert s[..6][..5] == s[..5];
  }

  /** A bad unicode escape is reported after the backslash. */
  lemma BadUnicodeEscapeError(s: string)
    requires s == "[\"xx" + "x\\uq" + "\"]"
    ensures ReadAndReturnError(s, false, NoError, None) == Report(None, ErrorCode(InvalidEscape), Some(ParseError(InvalidEscape, 1, 7)))
  {
    BadUnicodeEscapeErrorStep12(s);
    BadUnicodeEscapeErrorStep13(s);
    BadUnicodeEscapeErrorStep9(s);
    assert JsonToValue(s, true, false) == Err(ParseError(InvalidEscape, 1, 7));
  }

  lemma BadUnicodeEscapeErrorStep1(s: string)
    requires s == "[\"xx" + "x\\uq" + "\"]"
    ensures LexString(s, 1, 5, [120, 120, 120]) == Lexed(InvalidToken(Some((InvalidEscape, 6))), 1)
  {
    assert !IsHexDigit(At(s, 7));
    assert !HexRun(s, 7, 4);
  }

  lemma BadUnicodeEscapeErrorStep2(s: string)
    requires s == "[\"xx" + "x\\uq" + "\"]"
    ensures SkipTrivia(s, 1) == 1 && [] + [120] == [120] && [120] + [120] == [120, 120] && [120, 120] + [120] == [120, 120, 120] && LexString(s, 1, 5, [120, 120, 120]) == Lexed(InvalidToken(Some((InvalidEscape, 6))), 1)
  {
    assert SkipTrivia(s, 1) == 1;
    assert [] + [120] == [120];
    assert [120] + [120] == [120, 120];
    assert [120, 120] + [120] == [120, 120, 120];
    BadUnicodeEscapeErrorStep1(s);
  }

  lemma BadUnicodeEscapeErrorStep3(s: string)
    requires s == "[\"xx" + "x\\uq" + "\"]"
    ensures LexString(s, 1, 4, [120, 120]) == Lexed(InvalidToken(Some((InvalidEscape, 6))), 1) && LexString(s, 1, 3, [120]) == Lexed(InvalidToken(Some((InvalidEscape, 6))), 1) && LexString(s, 1, 2, []) == Lexed(InvalidToken(Some((InvalidEscape, 6))), 1) && Lex(s, 1) == Lexed(InvalidToken(Some((InvalidEscape, 6))), 1)
  {
    BadUnicodeEscapeErrorStep2(s);
    assert LexString(s, 1, 4, [120, 120]) == Lexed(InvalidToken(Some((InvalidEscape, 6))), 1);
    assert LexString(s, 1, 3, [120]) == Lexed(InvalidToken(Some((InvalidEscape, 6))), 1);
    assert LexString(s, 1, 2, []) == Lexed(InvalidToken(Some((InvalidEscape, 6))), 1);
    assert Lex(s, 1) == Lexed(InvalidToken(Some((InvalidEscape, 6))), 1);
  }

  lemma BadUnicodeEscapeErrorStep4(s: string)
    requires s == "[\"xx" + "x\\uq" + "\"]"
    ensures ParseValue(s, 1, 1, false, false) == Failed(InvalidEscape, 6)
  {
    BadUnicodeEscapeErrorStep2(s);
    BadUnicodeEscapeErrorStep3(s);
  }

  lemma BadUnicodeEscapeErrorStep5(s: string)
    requires s == "[\"xx" + "x\\uq" + "\"]"
    ensures ParseElements(s, 1, 1, [], false) == Failed(InvalidEscape, 6)
  {
    BadUnicodeEscapeErrorStep4(s);
  }

  lemma BadUnicodeEscapeErrorStep6(s: string)
    requires s == "[\"xx" + "x\\uq" + "\"]"
    ensures SkipTrivia(s, 1) == 1 && [] + [120] == [120] && [120] + [120] == [120, 120] && [120, 120] + [120] == [120, 120, 120] && LexString(s, 1, 5, [120, 120, 120]) == Lexed(InvalidToken(Some((InvalidEscape, 6))), 1)
  {
    assert SkipTrivia(s, 1) == 1;
    assert [] + [120] == [120];
    assert [120] + [120] == [120, 120];
    assert [120, 120] + [120] == [120, 120, 120];
    BadUnicodeEscapeErrorStep1(s);
  }

  lemma BadUnicodeEscapeErrorStep7(s: string)
    requires s == "[\"xx" + "x\\uq" + "\"]"
    ensures LexString(s, 1, 4, [120, 120]) == Lexed(InvalidToken(Some((InvalidEscape, 6))), 1) && LexString(s, 1, 3, [120]) == Lexed(InvalidToken(Some((InvalidEscape, 6))), 1) && LexString(s, 1, 2, []) == Lexed(InvalidToken(Some((InvalidEscape, 6))), 1) && Lex(s, 1) == Lexed(InvalidToken(Some((InvalidEscape, 6))), 1)
  {
    BadUnicodeEscapeErrorStep6(s);
    assert LexString(s, 1, 4, [120, 120]) == Lexed(InvalidToken(Some((InvalidEscape, 6))), 1);
    assert LexString(s, 1, 3, [120]) == Lexed(InvalidToken(Some((InvalidEscape, 6))), 1);
    assert LexString(s, 1, 2, []) == Lexed(InvalidToken(Some((InvalidEscape, 6))), 1);
    assert Lex(s, 1) == Lexed(InvalidToken(Some((InvalidEscape, 6))), 1);
  }

  lemma BadUnicodeEscapeErrorStep8(s: string)
    requires s == "[\"xx" + "x\\uq" + "\"]"
    ensures ParseArray(s, 1, 1, false) == Failed(InvalidEscape, 6)
  {
    BadUnicodeEscapeErrorStep6(s);
    BadUnicodeEscapeErrorStep7(s);
    BadUnicodeEscapeErrorStep5(s);
  }

  lemma BadUnicodeEscapeErrorStep9(s: string)
    requires s == "[\"xx" + "x\\uq" + "\"]"
    ensures ParseValue(s, 0, 0, true, false) == Failed(InvalidEscape, 6)
  {
    RootList(s, true, false);
    BadUnicodeEscapeErrorStep8(s);
  }

  lemma BadUnicodeEscapeErrorStep10(s: string)
    requires s == "[\"xx" + "x\\uq" + "\"]"
    ensures LineColumn(s[..1]) == (1, 2) && s[..2][..1] == s[..1] && LineColumn(s[..2]) == (1, 3) && s[..3][..2] == s[..2] && LineColumn(s[..3]) == (1, 4)
  {
    assert LineColumn(s[..1]) == (1, 2);
    assert s[..2][..1] == s[..1];
    assert LineColumn(s[..2]) == (1, 3);
    assert s[..3][..2] == s[..2];
    assert LineColumn(s[..3]) == (1, 4);
  }

  lemma BadUnicodeEscapeErrorStep11(s: string)
    requires s == "[\"xx" + "x\\uq" + "\"]"
    ensures s[..4][..3] == s[..3] && LineColumn(s[..4]) == (1, 5) && s[..5][..4] == s[..4]
  {
    BadUnicodeEscapeErrorStep10(s);
    assert s[..4][..3] == s[..3];
    assert LineColumn(s[..4]) == (1, 5);
    assert s[..5][..4] == s[..4];
  }

  lemma BadUnicodeEscapeErrorStep12(s: string)
    requires s == "[\"xx" + "x\\uq" + "\"]"
    ensures LineColumn(s[..5]) == (1, 6)
  {
    BadUnicodeEscapeErrorStep10(s);
    BadUnicodeEscapeErrorStep11(s);
  }

  lemma BadUnicodeEscapeErrorStep13(s: string)
    requires s == "[\"xx" + "x\\uq" + "\"]"
    ensures LineColumn(s[..6]) == (1, 7)
  {
    BadUnicodeEscapeErrorStep12(s);
    assert s[..6][..5] == s[..5];
  }

  /** An unknown escape is reported after the backslash. */
  lemma UnknownEscapeError(s: string)
    requires s == "[\"xx" + "x\\q\"" + "]"
    ensures ReadAndReturnError(s, false, NoError, None) == Report(None, ErrorCode(InvalidEscape), Some(ParseError(InvalidEscape, 1, 7)))
  {
    UnknownEscapeErrorStep12(s);
    UnknownEscapeErrorStep13(s);
    UnknownEscapeErrorStep9(s);
    assert JsonToValue(s, true, false) == Err(ParseError(InvalidEscape, 1, 7));
  }

  lemma UnknownEscapeErrorStep1(s: string)
    requires s == "[\"xx" + "x\\q\"" + "]"
    ensures LexString(s, 1, 5, [120, 120, 120]) == Lexed(InvalidToken(Some((InvalidEscape, 6))), 1)
  {
  }

  lemma UnknownEscapeErrorStep2(s: string)
    requires s == "[\"xx" + "x\\q\"" + "]"
    ensures SkipTrivia(s, 1) == 1 && [] + [120] == [120] && [120] + [120] == [120, 120] && [120, 120] + [120] == [120, 120, 120] && LexString(s, 1, 5, [120, 120, 120]) == Lexed(InvalidToken(Some((InvalidEscape, 6))), 1)
  {
    assert SkipTrivia(s, 1) == 1;
    assert [] + [120] == [120];
    assert [120] + [120] == [120, 120];
    assert [120, 120] + [120] == [120, 120, 120];
    UnknownEscapeErrorStep1(s);
  }

  lemma UnknownEscapeErrorStep3(s: string)
    requires s == "[\"xx" + "x\\q\"" + "]"
    ensures LexString(s, 1, 4, [120, 120]) == Lexed(InvalidToken(Some((InvalidEscape, 6))), 1) && LexString(s, 1, 3, [120]) == Lexed(InvalidToken(Some((InvalidEscape, 6))), 1) && LexString(s, 1, 2, []) == Lexed(InvalidToken(Some((InvalidEscape, 6))), 1) && Lex(s, 1) == Lexed(InvalidToken(Some((InvalidEscape, 6))), 1)
  {
    UnknownEscapeErrorStep2(s);
    assert LexString(s, 1, 4, [120, 120]) == Lexed(InvalidToken(Some((InvalidEscape, 6))), 1);
    assert LexString(s, 1, 3, [120]) == Lexed(InvalidToken(Some((InvalidEscape, 6))), 1);
    assert LexString(s, 1, 2, []) == Lexed(InvalidToken(Some((InvalidEscape, 6))), 1);
    assert Lex(s, 1) == Lexed(InvalidToken(Some((InvalidEscape, 6))), 1);
  }

  lemma UnknownEscapeErrorStep4(s: string)
    requires s == "[\"xx" + "x\\q\"" + "]"
    ensures ParseValue(s, 1, 1, false, false) == Failed(InvalidEscape, 6)
  {
    UnknownEscapeErrorStep2(s);
    UnknownEscapeErrorStep3(s);
  }

  lemma UnknownEscapeErrorStep5(s: string)
    requires s == "[\"xx" + "x\\q\"" + "]"
    ensures ParseElements(s, 1, 1, [], false) == Failed(InvalidEscape, 6)
  {
    UnknownEscapeErrorStep4(s);
  }

  lemma UnknownEscapeErrorStep6(s: string)
    requires s == "[\"xx" + "x\\q\"" + "]"
    ensures SkipTrivia(s, 1) == 1 && [] + [120] == [120] && [120] + [120] == [120, 120] && [120, 120] + [120] == [120, 120, 120] && LexString(s, 1, 5, [120, 120, 120]) == Lexed(InvalidToken(Some((InvalidEscape, 6))), 1)
  {
    assert SkipTrivia(s, 1) == 1;
    assert [] + [120] == [120];
    assert [120] + [120] == [120, 120];
    assert [120, 120] + [120] == [120, 120, 120];
    UnknownEscapeErrorStep1(s);
  }

  lemma UnknownEscapeErrorStep7(s: string)
    requires s == "[\"xx" + "x\\q\"" + "]"
    ensures LexString(s, 1, 4, [120, 120]) == Lexed(InvalidToken(Some((InvalidEscape, 6))), 1) && LexString(s, 1, 3, [120]) == Lexed(InvalidToken(Some((InvalidEscape, 6))), 1) && LexString(s, 1, 2, []) == Lexed(InvalidToken(Some((InvalidEscape, 6))), 1) && Lex(s, 1) == Lexed(InvalidToken(Some((InvalidEscape, 6))), 1)
  {
    UnknownEscapeErrorStep6(s);
    assert LexString(s, 1, 4, [120, 120]) == Lexed(InvalidToken(Some((InvalidEscape, 6))), 1);
    assert LexString(s, 1, 3, [120]) == Lexed(InvalidToken(Some((InvalidEscape, 6))), 1);
    assert LexString(s, 1, 2, []) == Lexed(InvalidToken(Some((InvalidEscape, 6))), 1);
    assert Lex(s, 1) == Lexed(InvalidToken(Some((InvalidEscape, 6))), 1);
  }

  lemma UnknownEscapeErrorStep8(s: string)
    requires s == "[\"xx" + "x\\q\"" + "]"
    ensures ParseArray(s, 1, 1, false) == Failed(InvalidEscape, 6)
  {
    UnknownEscapeErrorStep6(s);
    UnknownEscapeErrorStep7(s);
    UnknownEscapeErrorStep5(s);
  }

  lemma UnknownEscapeErrorStep9(s: string)
    requires s == "[\"xx" + "x\\q\"" + "]"
    ensures ParseValue(s, 0, 0, true, false) == Failed(InvalidEscape, 6)
  {
    RootList(s, true, false);
    UnknownEscapeErrorStep8(s);
  }

  lemma UnknownEscapeErrorStep10(s: string)
    requires s == "[\"xx" + "x\\q\"" + "]"
    ensures LineColumn(s[..1]) == (1, 2) && s[..2][..1] == s[..1] && LineColumn(s[..2]) == (1, 3) && s[..3][..2] == s[..2] && LineColumn(s[..3]) == (1, 4)
  {
    assert LineColumn(s[..1]) == (1, 2);
    assert s[..2][..1] == s[..1];
    assert LineColumn(s[..2]) == (1, 3);
    assert s[..3][..2] == s[..2];
    assert LineColumn(s[..3]) == (1, 4);
  }

  lemma UnknownEscapeErrorStep11(s: string)
    requires s == "[\"xx" + "x\\q\"" + "]"
    ensures s[..4][..3] == s[..3] && LineColumn(s[..4]) == (1, 5) && s[..5][..4] == s[..4]
  {
    UnknownEscapeErrorStep10(s);
    assert s[..4][..3] == s[..3];
    assert LineColumn(s[..4]) == (1, 5);
    assert s[..5][..4] == s[..4];
  }

  lemma UnknownEscapeErrorStep12(s: string)
    requires s == "[\"xx" + "x\\q\"" + "]"
    ensures LineColumn(s[..5]) == (1, 6)
  {
    UnknownEscapeErrorStep10(s);
    UnknownEscapeErrorStep11(s);
  }

  lemma UnknownEscapeErrorStep13(s: string)
    requires s == "[\"xx" + "x\\q\"" + "]"
    ensures LineColumn(s[..6]) == (1, 7)
  {
    UnknownEscapeErrorStep12(s);
    assert s[..6][..5] == s[..5];
  }

  /** A successful read. */
  lemma SuccessKeepsCode(s: string)
    requires s == "[42]"
    ensures Read(s, false) == Some(List([Integer(42)]))
  {
    assert SkipTrivia(s, 4) == 4;
    assert Lex(s, 4) == Lexed(EndOfInput, 4);
    SuccessKeepsCodeStep6(s);
  }

  lemma SuccessKeepsCodeStep1(s: string)
    requires s == "[42]"
    ensures Lex(s, 1) == Lexed(NumberToken("42"), 3)
  {
    assert DigitRunEnd(s, 3) == 3;
    assert DigitRunEnd(s, 2) == 3;
    assert DigitRunEnd(s, 1) == 3;
    assert ExponentEnd(s, 3) == Some(3);
    assert s[1..3] == "42";
    assert LexNumber(s, 1) == Lexed(NumberToken("42"), 3);
  }

  lemma SuccessKeepsCodeStep2(s: string)
    requires s == "[42]"
    ensures DigitsValue("42") == 42
  {
    assert DigitsValue("4") == 4;
    assert "42"[..1] == "4";
  }

  lemma SuccessKeepsCodeStep3(s: string)
    requires s == "[42]"
    ensures ParseValue(s, 1, 1, false, false) == Parsed(Integer(42), 3)
  {
    assert SkipTrivia(s, 1) == 1;
    SuccessKeepsCodeStep1(s);
    SuccessKeepsCodeStep2(s);
    assert DecodeNumber("42") == Integer(42);
  }

  lemma SuccessKeepsCodeStep4(s: string)
    requires s == "[42]"
    ensures ParseElements(s, 1, 1, [], false) == Parsed(List([Integer(42)]), 4)
  {
    assert [] + [Integer(42)] == [Integer(42)];
    assert SkipTrivia(s, 3) == 3;
    assert Lex(s, 3) == Lexed(ArrayEnd, 4);
    SuccessKeepsCodeStep3(s);
  }

  lemma SuccessKeepsCodeStep5(s: string)
    requires s == "[42]"
    ensures ParseArray(s, 1, 1, false) == Parsed(List([Integer(42)]), 4)
  {
    assert SkipTrivia(s, 1) == 1;
    SuccessKeepsCodeStep1(s);
    SuccessKeepsCodeStep4(s);
  }

  lemma SuccessKeepsCodeStep6(s: string)
    requires s == "[42]"
    ensures ParseValue(s, 0, 0, true, false) == Parsed(List([Integer(42)]), 4)
  {
    RootList(s, true, false);
    SuccessKeepsCodeStep5(s);
  }

  /** Nested lists, four elements at the top. */
  lemma NestedArrays(s: string)
    requires s == "[[tr" + "ue]," + " []," + " [fa" + "lse," + " []," + " [nu" + "ll]]" + ", nu" + "ll]"
    ensures Read(s, false) == Some(List([List([Bool(true)]), List([]), List([Bool(false), List([]), List([Null])]), Null]))
  {
    assert SkipTrivia(s, 39) == 39;
    assert Lex(s, 39) == Lexed(EndOfInput, 39);
    NestedArraysStep39(s);
  }

  lemma NestedArraysStep1(s: string)
    requires s == "[[tr" + "ue]," + " []," + " [fa" + "lse," + " []," + " [nu" + "ll]]" + ", nu" + "ll]"
    ensures Lex(s, 2) == Lexed(TrueToken, 6)
  {
    TrueAt(s, 2);
  }

  lemma NestedArraysStep2(s: string)
    requires s == "[[tr" + "ue]," + " []," + " [fa" + "lse," + " []," + " [nu" + "ll]]" + ", nu" + "ll]"
    ensures ParseValue(s, 2, 2, false, false) == Parsed(Bool(true), 6)
  {
    assert SkipTrivia(s, 2) == 2;
    NestedArraysStep1(s);
  }

  lemma NestedArraysStep3(s: string)
    requires s == "[[tr" + "ue]," + " []," + " [fa" + "lse," + " []," + " [nu" + "ll]]" + ", nu" + "ll]"
    ensures ParseElements(s, 2, 2, [], false) == Parsed(List([Bool(true)]), 7)
  {
    assert [] + [Bool(true)] == [Bool(true)];
    assert SkipTrivia(s, 6) == 6;
    assert Lex(s, 6) == Lexed(ArrayEnd, 7);
    NestedArraysStep2(s);
  }

  lemma NestedArraysStep4(s: string)
    requires s == "[[tr" + "ue]," + " []," + " [fa" + "lse," + " []," + " [nu" + "ll]]" + ", nu" + "ll]"
    ensures ParseArray(s, 2, 2, false) == Parsed(List([Bool(true)]), 7)
  {
    assert SkipTrivia(s, 2) == 2;
    NestedArraysStep1(s);
    NestedArraysStep3(s);
  }

  lemma NestedArraysStep5(s: string)
    requires s == "[[tr" + "ue]," + " []," + " [fa" + "lse," + " []," + " [nu" + "ll]]" + ", nu" + "ll]"
    ensures ParseValue(s, 1, 1, false, false) == Parsed(List([Bool(true)]), 7)
  {
    assert s[1] == '[';
    ListAt(s, 1, 1, false);
    NestedArraysStep4(s);
  }

  lemma NestedArraysStep6(s: string)
    requires s == "[[tr" + "ue]," + " []," + " [fa" + "lse," + " []," + " [nu" + "ll]]" + ", nu" + "ll]"
    ensures SkipTrivia(s, 8) == 9
  {
    assert SkipTrivia(s, 9) == 9;
  }

  lemma NestedArraysStep7(s: string)
    requires s == "[[tr" + "ue]," + " []," + " [fa" + "lse," + " []," + " [nu" + "ll]]" + ", nu" + "ll]"
    ensures ParseArray(s, 10, 2, false) == Parsed(List([]), 11)
  {
    assert SkipTrivia(s, 10) == 10;
    assert Lex(s, 10) == Lexed(ArrayEnd, 11);
  }

  lemma NestedArraysStep8(s: string)
    requires s == "[[tr" + "ue]," + " []," + " [fa" + "lse," + " []," + " [nu" + "ll]]" + ", nu" + "ll]"
    ensures ParseValue(s, 9, 1, false, false) == Parsed(List([]), 11)
  {
    assert s[9] == '[';
    ListAt(s, 9, 1, false);
    NestedArraysStep7(s);
  }

  lemma NestedArraysStep9(s: string)
    requires s == "[[tr" + "ue]," + " []," + " [fa" + "lse," + " []," + " [nu" + "ll]]" + ", nu" + "ll]"
    ensures SkipTrivia(s, 12) == 13
  {
    assert SkipTrivia(s, 13) == 13;
  }

  lemma NestedArraysStep10(s: string)
    requires s == "[[tr" + "ue]," + " []," + " [fa" + "lse," + " []," + " [nu" + "ll]]" + ", nu" + "ll]"
    ensures Lex(s, 14) == Lexed(FalseToken, 19)
  {
    FalseAt(s, 14);
  }

  lemma NestedArraysStep11(s: string)
    requires s == "[[tr" + "ue]," + " []," + " [fa" + "lse," + " []," + " [nu" + "ll]]" + ", nu" + "ll]"
    ensures ParseValue(s, 14, 2, false, false) == Parsed(Bool(false), 19)
  {
    assert SkipTrivia(s, 14) == 14;
    NestedArraysStep10(s);
  }

  lemma NestedArraysStep12(s: string)
    requires s == "[[tr" + "ue]," + " []," + " [fa" + "lse," + " []," + " [nu" + "ll]]" + ", nu" + "ll]"
    ensures SkipTrivia(s, 20) == 21
  {
    assert SkipTrivia(s, 21) == 21;
  }

  lemma NestedArraysStep13(s: string)
    requires s == "[[tr" + "ue]," + " []," + " [fa" + "lse," + " []," + " [nu" + "ll]]" + ", nu" + "ll]"
    ensures ParseArray(s, 22, 3, false) == Parsed(List([]), 23)
  {
    assert SkipTrivia(s, 22) == 22;
    assert Lex(s, 22) == Lexed(ArrayEnd, 23);
  }

  lemma NestedArraysStep14(s: string)
    requires s == "[[tr" + "ue]," + " []," + " [fa" + "lse," + " []," + " [nu" + "ll]]" + ", nu" + "ll]"
    ensures ParseValue(s, 21, 2, false, false) == Parsed(List([]), 23)
  {
    assert s[21] == '[';
    ListAt(s, 21, 2, false);
    NestedArraysStep13(s);
  }

  lemma NestedArraysStep15(s: string)
    requires s == "[[tr" + "ue]," + " []," + " [fa" + "lse," + " []," + " [nu" + "ll]]" + ", nu" + "ll]"
    ensures SkipTrivia(s, 24) == 25
  {
    assert SkipTrivia(s, 25) == 25;
  }

  lemma NestedArraysStep16(s: string)
    requires s == "[[tr" + "ue]," + " []," + " [fa" + "lse," + " []," + " [nu" + "ll]]" + ", nu" + "ll]"
    ensures Lex(s, 26) == Lexed(NullToken, 30)
  {
    NullAt(s, 26);
  }

  lemma NestedArraysStep17(s: string)
    requires s == "[[tr" + "ue]," + " []," + " [fa" + "lse," + " []," + " [nu" + "ll]]" + ", nu" + "ll]"
    ensures ParseValue(s, 26, 3, false, false) == Parsed(Null, 30)
  {
    assert SkipTrivia(s, 26) == 26;
    NestedArraysStep16(s);
  }

  lemma NestedArraysStep18(s: string)
    requires s == "[[tr" + "ue]," + " []," + " [fa" + "lse," + " []," + " [nu" + "ll]]" + ", nu" + "ll]"
    ensures ParseElements(s, 26, 3, [], false) == Parsed(List([Null]), 31)
  {
    assert [] + [Null] == [Null];
    assert SkipTrivia(s, 30) == 30;
    assert Lex(s, 30) == Lexed(ArrayEnd, 31);
    NestedArraysStep17(s);
  }

  lemma NestedArraysStep19(s: string)
    requires s == "[[tr" + "ue]," + " []," + " [fa" + "lse," + " []," + " [nu" + "ll]]" + ", nu" + "ll]"
    ensures ParseArray(s, 26, 3, false) == Parsed(List([Null]), 31)
  {
    assert SkipTrivia(s, 26) == 26;
    NestedArraysStep16(s);
    NestedArraysStep18(s);
  }

  lemma NestedArraysStep20(s: string)
    requires s == "[[tr" + "ue]," + " []," + " [fa" + "lse," + " []," + " [nu" + "ll]]" + ", nu" + "ll]"
    ensures ParseValue(s, 25, 2, false, false) == Parsed(List([Null]), 31)
  {
    assert s[25] == '[';
    ListAt(s, 25, 2, false);
    NestedArraysStep19(s);
  }

  lemma NestedArraysStep21(s: string)
    requires s == "[[tr" + "ue]," + " []," + " [fa" + "lse," + " []," + " [nu" + "ll]]" + ", nu" + "ll]"
    ensures ParseElements(s, 25, 2, [Bool(false), List([])], false) == Parsed(List([Bool(false), List([]), List([Null])]), 32)
  {
    assert [Bool(false), List([])] + [List([Null])] == [Bool(false), List([]), List([Null])];
    assert SkipTrivia(s, 31) == 31;
    assert Lex(s, 31) == Lexed(ArrayEnd, 32);
    NestedArraysStep20(s);
  }

  lemma NestedArraysStep22(s: string)
    requires s == "[[tr" + "ue]," + " []," + " [fa" + "lse," + " []," + " [nu" + "ll]]" + ", nu" + "ll]"
    ensures [Bool(false)] + [List([])] == [Bool(false), List([])] && SkipTrivia(s, 23) == 23 && Lex(s, 23) == Lexed(ListSeparator, 24) && SkipTrivia(s, 24) == 25 && Lex(s, 25) == Lexed(ArrayBegin, 26)
  {
    assert [Bool(false)] + [List([])] == [Bool(false), List([])];
    assert SkipTrivia(s, 23) == 23;
    assert Lex(s, 23) == Lexed(ListSeparator, 24);
    NestedArraysStep15(s);
    assert Lex(s, 25) == Lexed(ArrayBegin, 26);
  }

  lemma NestedArraysStep23(s: string)
    requires s == "[[tr" + "ue]," + " []," + " [fa" + "lse," + " []," + " [nu" + "ll]]" + ", nu" + "ll]"
    ensures ParseElements(s, 21, 2, [Bool(false)], false) == Parsed(List([Bool(false), List([]), List([Null])]), 32)
  {
    NestedArraysStep22(s);
    NestedArraysStep14(s);
    NestedArraysStep21(s);
  }

  lemma NestedArraysStep24(s: string)
    requires s == "[[tr" + "ue]," + " []," + " [fa" + "lse," + " []," + " [nu" + "ll]]" + ", nu" + "ll]"
    ensures [] + [Bool(false)] == [Bool(false)] && SkipTrivia(s, 19) == 19 && Lex(s, 19) == Lexed(ListSeparator, 20) && SkipTrivia(s, 20) == 21 && Lex(s, 21) == Lexed(ArrayBegin, 22)
  {
    assert [] + [Bool(false)] == [Bool(false)];
    assert SkipTrivia(s, 19) == 19;
    assert Lex(s, 19) == Lexed(ListSeparator, 20);
    NestedArraysStep12(s);
    assert Lex(s, 21) == Lexed(ArrayBegin, 22);
  }

  lemma NestedArraysStep25(s: string)
    requires s == "[[tr" + "ue]," + " []," + " [fa" + "lse," + " []," + " [nu" + "ll]]" + ", nu" + "ll]"
    ensures ParseElements(s, 14, 2, [], false) == Parsed(List([Bool(false), List([]), List([Null])]), 32)
  {
    NestedArraysStep24(s);
    NestedArraysStep11(s);
    NestedArraysStep23(s);
  }

  lemma NestedArraysStep26(s: string)
    requires s == "[[tr" + "ue]," + " []," + " [fa" + "lse," + " []," + " [nu" + "ll]]" + ", nu" + "ll]"
    ensures ParseArray(s, 14, 2, false) == Parsed(List([Bool(false), List([]), List([Null])]), 32)
  {
    assert SkipTrivia(s, 14) == 14;
    NestedArraysStep10(s);
    NestedArraysStep25(s);
  }

  lemma NestedArraysStep27(s: string)
    requires s == "[[tr" + "ue]," + " []," + " [fa" + "lse," + " []," + " [nu" + "ll]]" + ", nu" + "ll]"
    ensures ParseValue(s, 13, 1, false, false) == Parsed(List([Bool(false), List([]), List([Null])]), 32)
  {
    assert s[13] == '[';
    ListAt(s, 13, 1, false);
    NestedArraysStep26(s);
  }

  lemma NestedArraysStep28(s: string)
    requires s == "[[tr" + "ue]," + " []," + " [fa" + "lse," + " []," + " [nu" + "ll]]" + ", nu" + "ll]"
    ensures SkipTrivia(s, 33) == 34
  {
    assert SkipTrivia(s, 34) == 34;
  }

  lemma NestedArraysStep29(s: string)
    requires s == "[[tr" + "ue]," + " []," + " [fa" + "lse," + " []," + " [nu" + "ll]]" + ", nu" + "ll]"
    ensures Lex(s, 34) == Lexed(NullToken, 38)
  {
    NullAt(s, 34);
  }

  lemma NestedArraysStep30(s: string)
    requires s == "[[tr" + "ue]," + " []," + " [fa" + "lse," + " []," + " [nu" + "ll]]" + ", nu" + "ll]"
    ensures ParseValue(s, 34, 1, false, false) == Parsed(Null, 38)
  {
    assert SkipTrivia(s, 34) == 34;
    NestedArraysStep29(s);
  }

  lemma NestedArraysStep31(s: string)
    requires s == "[[tr" + "ue]," + " []," + " [fa" + "lse," + " []," + " [nu" + "ll]]" + ", nu" + "ll]"
    ensures ParseElements(s, 34, 1, [List([Bool(true)]), List([]), List([Bool(false), List([]), List([Null])])], false) == Parsed(List([List([Bool(true)]), List([]), List([Bool(false), List([]), List([Null])]), Null]), 39)
  {
    assert [List([Bool(true)]), List([]), List([Bool(false), List([]), List([Null])])] + [Null] == [List([Bool(true)]), List([]), List([Bool(false), List([]), List([Null])]), Null];
    assert SkipTrivia(s, 38) == 38;
    assert Lex(s, 38) == Lexed(ArrayEnd, 39);
    NestedArraysStep30(s);
  }

  lemma NestedArraysStep32(s: string)
    requires s == "[[tr" + "ue]," + " []," + " [fa" + "lse," + " []," + " [nu" + "ll]]" + ", nu" + "ll]"
    ensures [List([Bool(true)]), List([])] + [List([Bool(false), List([]), List([Null])])] == [List([Bool(true)]), List([]), List([Bool(false), List([]), List([Null])])] && SkipTrivia(s, 32) == 32 && Lex(s, 32) == Lexed(ListSeparator, 33) && SkipTrivia(s, 33) == 34 && Lex(s, 34) == Lexed(NullToken, 38)
  {
    assert [List([Bool(true)]), List([])] + [List([Bool(false), List([]), List([Null])])] == [List([Bool(true)]), List([]), List([Bool(false), List([]), List([Null])])];
    assert SkipTrivia(s, 32) == 32;
    assert Lex(s, 32) == Lexed(ListSeparator, 33);
    NestedArraysStep28(s);
    NestedArraysStep29(s);
  }

  lemma NestedArraysStep33(s: string)
    requires s == "[[tr" + "ue]," + " []," + " [fa" + "lse," + " []," + " [nu" + "ll]]" + ", nu" + "ll]"
    ensures ParseElements(s, 13, 1, [List([Bool(true)]), List([])], false) == Parsed(List([List([Bool(true)]), List([]), List([Bool(false), List([]), List([Null])]), Null]), 39)
  {
    NestedArraysStep32(s);
    NestedArraysStep27(s);
    NestedArraysStep31(s);
  }

  lemma NestedArraysStep34(s: string)
    requires s == "[[tr" + "ue]," + " []," + " [fa" + "lse," + " []," + " [nu" + "ll]]" + ", nu" + "ll]"
    ensures [List([Bool(true)])] + [List([])] == [List([Bool(true)]), List([])] && SkipTrivia(s, 11) == 11 && Lex(s, 11) == Lexed(ListSeparator, 12) && SkipTrivia(s, 12) == 13 && Lex(s, 13) == Lexed(ArrayBegin, 14)
  {
    assert [List([Bool(true)])] + [List([])] == [List([Bool(true)]), List([])];
    assert SkipTrivia(s, 11) == 11;
    assert Lex(s, 11) == Lexed(ListSeparator, 12);
    NestedArraysStep9(s);
    assert Lex(s, 13) == Lexed(ArrayBegin, 14);
  }

  lemma NestedArraysStep35(s: string)
    requires s == "[[tr" + "ue]," + " []," + " [fa" + "lse," + " []," + " [nu" + "ll]]" + ", nu" + "ll]"
    ensures ParseElements(s, 9, 1, [List([Bool(true)])], false) == Parsed(List([List([Bool(true)]), List([]), List([Bool(false), List([]), List([Null])]), Null]), 39)
  {
    NestedArraysStep34(s);
    NestedArraysStep8(s);
    NestedArraysStep33(s);
  }

  lemma NestedArraysStep36(s: string)
    requires s == "[[tr" + "ue]," + " []," + " [fa" + "lse," + " []," + " [nu" + "ll]]" + ", nu" + "ll]"
    ensures [] + [List([Bool(true)])] == [List([Bool(true)])] && SkipTrivia(s, 7) == 7 && Lex(s, 7) == Lexed(ListSeparator, 8) && SkipTrivia(s, 8) == 9 && Lex(s, 9) == Lexed(ArrayBegin, 10)
  {
    assert [] + [List([Bool(true)])] == [List([Bool(true)])];
    assert SkipTrivia(s, 7) == 7;
    assert Lex(s, 7) == Lexed(ListSeparator, 8);
    NestedArraysStep6(s);
    assert Lex(s, 9) == Lexed(ArrayBegin, 10);
  }

  lemma NestedArraysStep37(s: string)
    requires s == "[[tr" + "ue]," + " []," + " [fa" + "lse," + " []," + " [nu" + "ll]]" + ", nu" + "ll]"
    ensures ParseElements(s, 1, 1, [], false) == Parsed(List([List([Bool(true)]), List([]), List([Bool(false), List([]), List([Null])]), Null]), 39)
  {
    NestedArraysStep36(s);
    NestedArraysStep5(s);
    NestedArraysStep35(s);
  }

  lemma NestedArraysStep38(s: string)
    requires s == "[[tr" + "ue]," + " []," + " [fa" + "lse," + " []," + " [nu" + "ll]]" + ", nu" + "ll]"
    ensures ParseArray(s, 1, 1, false) == Parsed(List([List([Bool(true)]), List([]), List([Bool(false), List([]), List([Null])]), Null]), 39)
  {
    assert SkipTrivia(s, 1) == 1;
    assert Lex(s, 1) == Lexed(ArrayBegin, 2);
    NestedArraysStep37(s);
  }

  lemma NestedArraysStep39(s: string)
    requires s == "[[tr" + "ue]," + " []," + " [fa" + "lse," + " []," + " [nu" + "ll]]" + ", nu" + "ll]"
    ensures ParseValue(s, 0, 0, true, false) == Parsed(List([List([Bool(true)]), List([]), List([Bool(false), List([]), List([Null])]), Null]), 39)
  {
    RootList(s, true, false);
    NestedArraysStep38(s);
  }

  /** The same nested lists with trailing commas at every level, allowed. */
  lemma NestedArraysTrailing(s: string)
    requires s == "[[tr" + "ue]," + " []," + " [fa" + "lse," + " []," + " [nu" + "ll, " + "] , " + "], n" + "ull," + "]"
    ensures Read(s, true) == Some(List([List([Bool(true)]), List([]), List([Bool(false), List([]), List([Null])]), Null]))
  {
    assert SkipTrivia(s, 45) == 45;
    assert Lex(s, 45) == Lexed(EndOfInput, 45);
    NestedArraysTrailingStep42(s);
  }

  lemma NestedArraysTrailingStep1(s: string)
    requires s == "[[tr" + "ue]," + " []," + " [fa" + "lse," + " []," + " [nu" + "ll, " + "] , " + "], n" + "ull," + "]"
    ensures Lex(s, 2) == Lexed(TrueToken, 6)
  {
    TrueAt(s, 2);
  }

  lemma NestedArraysTrailingStep2(s: string)
    requires s == "[[tr" + "ue]," + " []," + " [fa" + "lse," + " []," + " [nu" + "ll, " + "] , " + "], n" + "ull," + "]"
    ensures ParseValue(s, 2, 2, false, true) == Parsed(Bool(true), 6)
  {
    assert SkipTrivia(s, 2) == 2;
    NestedArraysTrailingStep1(s);
  }

  lemma NestedArraysTrailingStep3(s: string)
    requires s == "[[tr" + "ue]," + " []," + " [fa" + "lse," + " []," + " [nu" + "ll, " + "] , " + "], n" + "ull," + "]"
    ensures ParseElements(s, 2, 2, [], true) == Parsed(List([Bool(true)]), 7)
  {
    assert [] + [Bool(true)] == [Bool(true)];
    assert SkipTrivia(s, 6) == 6;
    assert Lex(s, 6) == Lexed(ArrayEnd, 7);
    NestedArraysTrailingStep2(s);
  }

  lemma NestedArraysTrailingStep4(s: string)
    requires s == "[[tr" + "ue]," + " []," + " [fa" + "lse," + " []," + " [nu" + "ll, " + "] , " + "], n" + "ull," + "]"
    ensures ParseArray(s, 2, 2, true) == Parsed(List([Bool(true)]), 7)
  {
    assert SkipTrivia(s, 2) == 2;
    NestedArraysTrailingStep1(s);
    NestedArraysTrailingStep3(s);
  }

  lemma NestedArraysTrailingStep5(s: string)
    requires s == "[[tr" + "ue]," + " []," + " [fa" + "lse," + " []," + " [nu" + "ll, " + "] , " + "], n" + "ull," + "]"
    ensures ParseValue(s, 1, 1, false, true) == Parsed(List([Bool(true)]), 7)
  {
    assert s[1] == '[';
    ListAt(s, 1, 1, true);
    NestedArraysTrailingStep4(s);
  }

  lemma NestedArraysTrailingStep6(s: string)
    requires s == "[[tr" + "ue]," + " []," + " [fa" + "lse," + " []," + " [nu" + "ll, " + "] , " + "], n" + "ull," + "]"
    ensures SkipTrivia(s, 8) == 9
  {
    assert SkipTrivia(s, 9) == 9;
  }

  lemma NestedArraysTrailingStep7(s: string)
    requires s == "[[tr" + "ue]," + " []," + " [fa" + "lse," + " []," + " [nu" + "ll, " + "] , " + "], n" + "ull," + "]"
    ensures ParseArray(s, 10, 2, true) == Parsed(List([]), 11)
  {
    assert SkipTrivia(s, 10) == 10;
    assert Lex(s, 10) == Lexed(ArrayEnd, 11);
  }

  lemma NestedArraysTrailingStep8(s: string)
    requires s == "[[tr" + "ue]," + " []," + " [fa" + "lse," + " []," + " [nu" + "ll, " + "] , " + "], n" + "ull," + "]"
    ensures ParseValue(s, 9, 1, false, true) == Parsed(List([]), 11)
  {
    assert s[9] == '[';
    ListAt(s, 9, 1, true);
    NestedArraysTrailingStep7(s);
  }

  lemma NestedArraysTrailingStep9(s: string)
    requires s == "[[tr" + "ue]," + " []," + " [fa" + "lse," + " []," + " [nu" + "ll, " + "] , " + "], n" + "ull," + "]"
    ensures SkipTrivia(s, 12) == 13
  {
    assert SkipTrivia(s, 13) == 13;
  }

  lemma NestedArraysTrailingStep10(s: string)
    requires s == "[[tr" + "ue]," + " []," + " [fa" + "lse," + " []," + " [nu" + "ll, " + "] , " + "], n" + "ull," + "]"
    ensures Lex(s, 14) == Lexed(FalseToken, 19)
  {
    FalseAt(s, 14);
  }

  lemma NestedArraysTrailingStep11(s: string)
    requires s == "[[tr" + "ue]," + " []," + " [fa" + "lse," + " []," + " [nu" + "ll, " + "] , " + "], n" + "ull," + "]"
    ensures ParseValue(s, 14, 2, false, true) == Parsed(Bool(false), 19)
  {
    assert SkipTrivia(s, 14) == 14;
    NestedArraysTrailingStep10(s);
  }

  lemma NestedArraysTrailingStep12(s: string)
    requires s == "[[tr" + "ue]," + " []," + " [fa" + "lse," + " []," + " [nu" + "ll, " + "] , " + "], n" + "ull," + "]"
    ensures SkipTrivia(s, 20) == 21
  {
    assert SkipTrivia(s, 21) == 21;
  }

  lemma NestedArraysTrailingStep13(s: string)
    requires s == "[[tr" + "ue]," + " []," + " [fa" + "lse," + " []," + " [nu" + "ll, " + "] , " + "], n" + "ull," + "]"
    ensures ParseArray(s, 22, 3, true) == Parsed(List([]), 23)
  {
    assert SkipTrivia(s, 22) == 22;
    assert Lex(s, 22) == Lexed(ArrayEnd, 23);
  }

  lemma NestedArraysTrailingStep14(s: string)
    requires s == "[[tr" + "ue]," + " []," + " [fa" + "lse," + " []," + " [nu" + "ll, " + "] , " + "], n" + "ull," + "]"
    ensures ParseValue(s, 21, 2, false, true) == Parsed(List([]), 23)
  {
    assert s[21] == '[';
    ListAt(s, 21, 2, true);
    NestedArraysTrailingStep13(s);
  }

  lemma NestedArraysTrailingStep15(s: string)
    requires s == "[[tr" + "ue]," + " []," + " [fa" + "lse," + " []," + " [nu" + "ll, " + "] , " + "], n" + "ull," + "]"
    ensures SkipTrivia(s, 24) == 25
  {
    assert SkipTrivia(s, 25) == 25;
  }

  lemma NestedArraysTrailingStep16(s: string)
    requires s == "[[tr" + "ue]," + " []," + " [fa" + "lse," + " []," + " [nu" + "ll, " + "] , " + "], n" + "ull," + "]"
    ensures Lex(s, 26) == Lexed(NullToken, 30)
  {
    NullAt(s, 26);
  }

  lemma NestedArraysTrailingStep17(s: string)
    requires s == "[[tr" + "ue]," + " []," + " [fa" + "lse," + " []," + " [nu" + "ll, " + "] , " + "], n" + "ull," + "]"
    ensures ParseValue(s, 26, 3, false, true) == Parsed(Null, 30)
  {
    assert SkipTrivia(s, 26) == 26;
    NestedArraysTrailingStep16(s);
  }

  lemma NestedArraysTrailingStep18(s: string)
    requires s == "[[tr" + "ue]," + " []," + " [fa" + "lse," + " []," + " [nu" + "ll, " + "] , " + "], n" + "ull," + "]"
    ensures SkipTrivia(s, 31) == 32
  {
    assert SkipTrivia(s, 32) == 32;
  }

  lemma NestedArraysTrailingStep19(s: string)
    requires s == "[[tr" + "ue]," + " []," + " [fa" + "lse," + " []," + " [nu" + "ll, " + "] , " + "], n" + "ull," + "]"
    ensures ParseElements(s, 26, 3, [], true) == Parsed(List([Null]), 33)
  {
    NestedArraysTrailingStep17(s);
    assert s[30] == ',';
    assert SkipTrivia(s, 30) == 30;
    assert Lex(s, 30) == Lexed(ListSeparator, 31);
    NestedArraysTrailingStep18(s);
    assert s[32] == ']';
    assert Lex(s, 32) == Lexed(ArrayEnd, 33);
    TrailingCommaCloses(s, 26, 3, [], Null, 30, 32);
    assert [] + [Null] == [Null];
  }

  lemma NestedArraysTrailingStep20(s: string)
    requires s == "[[tr" + "ue]," + " []," + " [fa" + "lse," + " []," + " [nu" + "ll, " + "] , " + "], n" + "ull," + "]"
    ensures ParseArray(s, 26, 3, true) == Parsed(List([Null]), 33)
  {
    assert SkipTrivia(s, 26) == 26;
    NestedArraysTrailingStep16(s);
    NestedArraysTrailingStep19(s);
  }

  lemma NestedArraysTrailingStep21(s: string)
    requires s == "[[tr" + "ue]," + " []," + " [fa" + "lse," + " []," + " [nu" + "ll, " + "] , " + "], n" + "ull," + "]"
    ensures ParseValue(s, 25, 2, false, true) == Parsed(List([Null]), 33)
  {
    assert s[25] == '[';
    ListAt(s, 25, 2, true);
    NestedArraysTrailingStep20(s);
  }

  lemma NestedArraysTrailingStep22(s: string)
    requires s == "[[tr" + "ue]," + " []," + " [fa" + "lse," + " []," + " [nu" + "ll, " + "] , " + "], n" + "ull," + "]"
    ensures SkipTrivia(s, 33) == 34
  {
    assert SkipTrivia(s, 34) == 34;
  }

  lemma NestedArraysTrailingStep23(s: string)
    requires s == "[[tr" + "ue]," + " []," + " [fa" + "lse," + " []," + " [nu" + "ll, " + "] , " + "], n" + "ull," + "]"
    ensures SkipTrivia(s, 35) == 36
  {
    assert SkipTrivia(s, 36) == 36;
  }

  lemma NestedArraysTrailingStep24(s: string)
    requires s == "[[tr" + "ue]," + " []," + " [fa" + "lse," + " []," + " [nu" + "ll, " + "] , " + "], n" + "ull," + "]"
    ensures ParseElements(s, 25, 2, [Bool(false), List([])], true) == Parsed(List([Bool(false), List([]), List([Null])]), 37)
  {
    NestedArraysTrailingStep21(s);
    NestedArraysTrailingStep22(s);
    assert s[34] == ',';
    assert Lex(s, 34) == Lexed(ListSeparator, 35);
    NestedArraysTrailingStep23(s);
    assert s[36] == ']';
    assert Lex(s, 36) == Lexed(ArrayEnd, 37);
    TrailingCommaCloses(s, 25, 2, [Bool(false), List([])], List([Null]), 33, 36);
    assert [Bool(false), List([])] + [List([Null])] == [Bool(false), List([]), List([Null])];
  }

  lemma NestedArraysTrailingStep25(s: string)
    requires s == "[[tr" + "ue]," + " []," + " [fa" + "lse," + " []," + " [nu" + "ll, " + "] , " + "], n" + "ull," + "]"
    ensures [Bool(false)] + [List([])] == [Bool(false), List([])] && SkipTrivia(s, 23) == 23 && Lex(s, 23) == Lexed(ListSeparator, 24) && SkipTrivia(s, 24) == 25 && Lex(s, 25) == Lexed(ArrayBegin, 26)
  {
    assert [Bool(false)] + [List([])] == [Bool(false), List([])];
    assert SkipTrivia(s, 23) == 23;
    assert Lex(s, 23) == Lexed(ListSeparator, 24);
    NestedArraysTrailingStep15(s);
    assert Lex(s, 25) == Lexed(ArrayBegin, 26);
  }

  lemma NestedArraysTrailingStep26(s: string)
    requires s == "[[tr" + "ue]," + " []," + " [fa" + "lse," + " []," + " [nu" + "ll, " + "] , " + "], n" + "ull," + "]"
    ensures ParseElements(s, 21, 2, [Bool(false)], true) == Parsed(List([Bool(false), List([]), List([Null])]), 37)
  {
    NestedArraysTrailingStep25(s);
    NestedArraysTrailingStep14(s);
    NestedArraysTrailingStep24(s);
  }

  lemma NestedArraysTrailingStep27(s: string)
    requires s == "[[tr" + "ue]," + " []," + " [fa" + "lse," + " []," + " [nu" + "ll, " + "] , " + "], n" + "ull," + "]"
    ensures [] + [Bool(false)] == [Bool(false)] && SkipTrivia(s, 19) == 19 && Lex(s, 19) == Lexed(ListSeparator, 20) && SkipTrivia(s, 20) == 21 && Lex(s, 21) == Lexed(ArrayBegin, 22)
  {
    assert [] + [Bool(false)] == [Bool(false)];
    assert SkipTrivia(s, 19) == 19;
    assert Lex(s, 19) == Lexed(ListSeparator, 20);
    NestedArraysTrailingStep12(s);
    assert Lex(s, 21) == Lexed(ArrayBegin, 22);
  }

  lemma NestedArraysTrailingStep28(s: string)
    requires s == "[[tr" + "ue]," + " []," + " [fa" + "lse," + " []," + " [nu" + "ll, " + "] , " + "], n" + "ull," + "]"
    ensures ParseElements(s, 14, 2, [], true) == Parsed(List([Bool(false), List([]), List([Null])]), 37)
  {
    NestedArraysTrailingStep27(s);
    NestedArraysTrailingStep11(s);
    NestedArraysTrailingStep26(s);
  }

  lemma NestedArraysTrailingStep29(s: string)
    requires s == "[[tr" + "ue]," + " []," + " [fa" + "lse," + " []," + " [nu" + "ll, " + "] , " + "], n" + "ull," + "]"
    ensures ParseArray(s, 14, 2, true) == Parsed(List([Bool(false), List([]), List([Null])]), 37)
  {
    assert SkipTrivia(s, 14) == 14;
    NestedArraysTrailingStep10(s);
    NestedArraysTrailingStep28(s);
  }

  lemma NestedArraysTrailingStep30(s: string)
    requires s == "[[tr" + "ue]," + " []," + " [fa" + "lse," + " []," + " [nu" + "ll, " + "] , " + "], n" + "ull," + "]"
    ensures ParseValue(s, 13, 1, false, true) == Parsed(List([Bool(false), List([]), List([Null])]), 37)
  {
    assert s[13] == '[';
    ListAt(s, 13, 1, true);
    NestedArraysTrailingStep29(s);
  }

  lemma NestedArraysTrailingStep31(s: string)
    requires s == "[[tr" + "ue]," + " []," + " [fa" + "lse," + " []," + " [nu" + "ll, " + "] , " + "], n" + "ull," + "]"
    ensures SkipTrivia(s, 38) == 39
  {
    assert SkipTrivia(s, 39) == 39;
  }

  lemma NestedArraysTrailingStep32(s: string)
    requires s == "[[tr" + "ue]," + " []," + " [fa" + "lse," + " []," + " [nu" + "ll, " + "] , " + "], n" + "ull," + "]"
    ensures Lex(s, 39) == Lexed(NullToken, 43)
  {
    NullAt(s, 39);
  }

  lemma NestedArraysTrailingStep33(s: string)
    requires s == "[[tr" + "ue]," + " []," + " [fa" + "lse," + " []," + " [nu" + "ll, " + "] , " + "], n" + "ull," + "]"
    ensures ParseValue(s, 39, 1, false, true) == Parsed(Null, 43)
  {
    assert SkipTrivia(s, 39) == 39;
    NestedArraysTrailingStep32(s);
  }

  lemma NestedArraysTrailingStep34(s: string)
    requires s == "[[tr" + "ue]," + " []," + " [fa" + "lse," + " []," + " [nu" + "ll, " + "] , " + "], n" + "ull," + "]"
    ensures ParseElements(s, 39, 1, [List([Bool(true)]), List([]), List([Bool(false), List([]), List([Null])])], true) == Parsed(List([List([Bool(true)]), List([]), List([Bool(false), List([]), List([Null])]), Null]), 45)
  {
    assert [List([Bool(true)]), List([]), List([Bool(false), List([]), List([Null])])] + [Null] == [List([Bool(true)]), List([]), List([Bool(false), List([]), List([Null])]), Null];
    assert SkipTrivia(s, 43) == 43;
    assert Lex(s, 43) == Lexed(ListSeparator, 44);
    assert SkipTrivia(s, 44) == 44;
    assert Lex(s, 44) == Lexed(ArrayEnd, 45);
    NestedArraysTrailingStep33(s);
  }

  lemma NestedArraysTrailingStep35(s: string)
    requires s == "[[tr" + "ue]," + " []," + " [fa" + "lse," + " []," + " [nu" + "ll, " + "] , " + "], n" + "ull," + "]"
    ensures [List([Bool(true)]), List([])] + [List([Bool(false), List([]), List([Null])])] == [List([Bool(true)]), List([]), List([Bool(false), List([]), List([Null])])] && SkipTrivia(s, 37) == 37 && Lex(s, 37) == Lexed(ListSeparator, 38) && SkipTrivia(s, 38) == 39 && Lex(s, 39) == Lexed(NullToken, 43)
  {
    assert [List([Bool(true)]), List([])] + [List([Bool(false), List([]), List([Null])])] == [List([Bool(true)]), List([]), List([Bool(false), List([]), List([Null])])];
    assert SkipTrivia(s, 37) == 37;
    assert Lex(s, 37) == Lexed(ListSeparator, 38);
    NestedArraysTrailingStep31(s);
    NestedArraysTrailingStep32(s);
  }

  lemma NestedArraysTrailingStep36(s: string)
    requires s == "[[tr" + "ue]," + " []," + " [fa" + "lse," + " []," + " [nu" + "ll, " + "] , " + "], n" + "ull," + "]"
    ensures ParseElements(s, 13, 1, [List([Bool(true)]), List([])], true) == Parsed(List([List([Bool(true)]), List([]), List([Bool(false), List([]), List([Null])]), Null]), 45)
  {
    NestedArraysTrailingStep35(s);
    NestedArraysTrailingStep30(s);
    NestedArraysTrailingStep34(s);
  }

  lemma NestedArraysTrailingStep37(s: string)
    requires s == "[[tr" + "ue]," + " []," + " [fa" + "lse," + " []," + " [nu" + "ll, " + "] , " + "], n" + "ull," + "]"
    ensures [List([Bool(true)])] + [List([])] == [List([Bool(true)]), List([])] && SkipTrivia(s, 11) == 11 && Lex(s, 11) == Lexed(ListSeparator, 12) && SkipTrivia(s, 12) == 13 && Lex(s, 13) == Lexed(ArrayBegin, 14)
  {
    assert [List([Bool(true)])] + [List([])] == [List([Bool(true)]), List([])];
    assert SkipTrivia(s, 11) == 11;
    assert Lex(s, 11) == Lexed(ListSeparator, 12);
    NestedArraysTrailingStep9(s);
    assert Lex(s, 13) == Lexed(ArrayBegin, 14);
  }

  lemma NestedArraysTrailingStep38(s: string)
    requires s == "[[tr" + "ue]," + " []," + " [fa" + "lse," + " []," + " [nu" + "ll, " + "] , " + "], n" + "ull," + "]"
    ensures ParseElements(s, 9, 1, [List([Bool(true)])], true) == Parsed(List([List([Bool(true)]), List([]), List([Bool(false), List([]), List([Null])]), Null]), 45)
  {
    NestedArraysTrailingStep37(s);
    NestedArraysTrailingStep8(s);
    NestedArraysTrailingStep36(s);
  }

  lemma NestedArraysTrailingStep39(s: string)
    requires s == "[[tr" + "ue]," + " []," + " [fa" + "lse," + " []," + " [nu" + "ll, " + "] , " + "], n" + "ull," + "]"
    ensures [] + [List([Bool(true)])] == [List([Bool(true)])] && SkipTrivia(s, 7) == 7 && Lex(s, 7) == Lexed(ListSeparator, 8) && SkipTrivia(s, 8) == 9 && Lex(s, 9) == Lexed(ArrayBegin, 10)
  {
    assert [] + [List([Bool(true)])] == [List([Bool(true)])];
    assert SkipTrivia(s, 7) == 7;
    assert Lex(s, 7) == Lexed(ListSeparator, 8);
    NestedArraysTrailingStep6(s);
    assert Lex(s, 9) == Lexed(ArrayBegin, 10);
  }

  lemma NestedArraysTrailingStep40(s: string)
    requires s == "[[tr" + "ue]," + " []," + " [fa" + "lse," + " []," + " [nu" + "ll, " + "] , " + "], n" + "ull," + "]"
    ensures ParseElements(s, 1, 1, [], true) == Parsed(List([List([Bool(true)]), List([]), List([Bool(false), List([]), List([Null])]), Null]), 45)
  {
    NestedArraysTrailingStep39(s);
    NestedArraysTrailingStep5(s);
    NestedArraysTrailingStep38(s);
  }

  lemma NestedArraysTrailingStep41(s: string)
    requires s == "[[tr" + "ue]," + " []," + " [fa" + "lse," + " []," + " [nu" + "ll, " + "] , " + "], n" + "ull," + "]"
    ensures ParseArray(s, 1, 1, true) == Parsed(List([List([Bool(true)]), List([]), List([Bool(false), List([]), List([Null])]), Null]), 45)
  {
    assert SkipTrivia(s, 1) == 1;
    assert Lex(s, 1) == Lexed(ArrayBegin, 2);
    NestedArraysTrailingStep40(s);
  }

  lemma NestedArraysTrailingStep42(s: string)
    requires s == "[[tr" + "ue]," + " []," + " [fa" + "lse," + " []," + " [nu" + "ll, " + "] , " + "], n" + "ull," + "]"
    ensures ParseValue(s, 0, 0, true, true) == Parsed(List([List([Bool(true)]), List([]), List([Bool(false), List([]), List([Null])]), Null]), 45)
  {
    RootList(s, true, true);
    NestedArraysTrailingStep41(s);
  }

  /** Nested lists without the outer closing bracket are refused. */
  lemma NestedArraysNoClose(s: string)
    requires s == "[[tr" + "ue]," + " []," + " [fa" + "lse," + " []," + " [nu" + "ll]]" + ", nu" + "ll"
    ensures Read(s, false) == None
  {
    NestedArraysNoCloseStep42(s);
    NestedArraysNoCloseStep45(s);
    NestedArraysNoCloseStep48(s);
    NestedArraysNoCloseStep51(s);
    NestedArraysNoCloseStep54(s);
    NestedArraysNoCloseStep57(s);
    NestedArraysNoCloseStep60(s);
    NestedArraysNoCloseStep61(s);
    NestedArraysNoCloseStep39(s);
  }

  lemma NestedArraysNoCloseStep1(s: string)
    requires s == "[[tr" + "ue]," + " []," + " [fa" + "lse," + " []," + " [nu" + "ll]]" + ", nu" + "ll"
    ensures Lex(s, 2) == Lexed(TrueToken, 6)
  {
    TrueAt(s, 2);
  }

  lemma NestedArraysNoCloseStep2(s: string)
    requires s == "[[tr" + "ue]," + " []," + " [fa" + "lse," + " []," + " [nu" + "ll]]" + ", nu" + "ll"
    ensures ParseValue(s, 2, 2, false, false) == Parsed(Bool(true), 6)
  {
    assert SkipTrivia(s, 2) == 2;
    NestedArraysNoCloseStep1(s);
  }

  lemma NestedArraysNoCloseStep3(s: string)
    requires s == "[[tr" + "ue]," + " []," + " [fa" + "lse," + " []," + " [nu" + "ll]]" + ", nu" + "ll"
    ensures ParseElements(s, 2, 2, [], false) == Parsed(List([Bool(true)]), 7)
  {
    assert [] + [Bool(true)] == [Bool(true)];
    assert SkipTrivia(s, 6) == 6;
    assert Lex(s, 6) == Lexed(ArrayEnd, 7);
    NestedArraysNoCloseStep2(s);
  }

  lemma NestedArraysNoCloseStep4(s: string)
    requires s == "[[tr" + "ue]," + " []," + " [fa" + "lse," + " []," + " [nu" + "ll]]" + ", nu" + "ll"
    ensures ParseArray(s, 2, 2, false) == Parsed(List([Bool(true)]), 7)
  {
    assert SkipTrivia(s, 2) == 2;
    NestedArraysNoCloseStep1(s);
    NestedArraysNoCloseStep3(s);
  }

  lemma NestedArraysNoCloseStep5(s: string)
    requires s == "[[tr" + "ue]," + " []," + " [fa" + "lse," + " []," + " [nu" + "ll]]" + ", nu" + "ll"
    ensures ParseValue(s, 1, 1, false, false) == Parsed(List([Bool(true)]), 7)
  {
    assert s[1] == '[';
    ListAt(s, 1, 1, false);
    NestedArraysNoCloseStep4(s);
  }

  lemma NestedArraysNoCloseStep6(s: string)
    requires s == "[[tr" + "ue]," + " []," + " [fa" + "lse," + " []," + " [nu" + "ll]]" + ", nu" + "ll"
    ensures SkipTrivia(s, 8) == 9
  {
    assert SkipTrivia(s, 9) == 9;
  }

  lemma NestedArraysNoCloseStep7(s: string)
    requires s == "[[tr" + "ue]," + " []," + " [fa" + "lse," + " []," + " [nu" + "ll]]" + ", nu" + "ll"
    ensures ParseArray(s, 10, 2, false) == Parsed(List([]), 11)
  {
    assert SkipTrivia(s, 10) == 10;
    assert Lex(s, 10) == Lexed(ArrayEnd, 11);
  }

  lemma NestedArraysNoCloseStep8(s: string)
    requires s == "[[tr" + "ue]," + " []," + " [fa" + "lse," + " []," + " [nu" + "ll]]" + ", nu" + "ll"
    ensures ParseValue(s, 9, 1, false, false) == Parsed(List([]), 11)
  {
    assert s[9] == '[';
    ListAt(s, 9, 1, false);
    NestedArraysNoCloseStep7(s);
  }

  lemma NestedArraysNoCloseStep9(s: string)
    requires s == "[[tr" + "ue]," + " []," + " [fa" + "lse," + " []," + " [nu" + "ll]]" + ", nu" + "ll"
    ensures SkipTrivia(s, 12) == 13
  {
    assert SkipTrivia(s, 13) == 13;
  }

  lemma NestedArraysNoCloseStep10(s: string)
    requires s == "[[tr" + "ue]," + " []," + " [fa" + "lse," + " []," + " [nu" + "ll]]" + ", nu" + "ll"
    ensures Lex(s, 14) == Lexed(FalseToken, 19)
  {
    FalseAt(s, 14);
  }

  lemma NestedArraysNoCloseStep11(s: string)
    requires s == "[[tr" + "ue]," + " []," + " [fa" + "lse," + " []," + " [nu" + "ll]]" + ", nu" + "ll"
    ensures ParseValue(s, 14, 2, false, false) == Parsed(Bool(false), 19)
  {
    assert SkipTrivia(s, 14) == 14;
    NestedArraysNoCloseStep10(s);
  }

  lemma NestedArraysNoCloseStep12(s: string)
    requires s == "[[tr" + "ue]," + " []," + " [fa" + "lse," + " []," + " [nu" + "ll]]" + ", nu" + "ll"
    ensures SkipTrivia(s, 20) == 21
  {
    assert SkipTrivia(s, 21) == 21;
  }

  lemma NestedArraysNoCloseStep13(s: string)
    requires s == "[[tr" + "ue]," + " []," + " [fa" + "lse," + " []," + " [nu" + "ll]]" + ", nu" + "ll"
    ensures ParseArray(s, 22, 3, false) == Parsed(List([]), 23)
  {
    assert SkipTrivia(s, 22) == 22;
    assert Lex(s, 22) == Lexed(ArrayEnd, 23);
  }

  lemma NestedArraysNoCloseStep14(s: string)
    requires s == "[[tr" + "ue]," + " []," + " [fa" + "lse," + " []," + " [nu" + "ll]]" + ", nu" + "ll"
    ensures ParseValue(s, 21, 2, false, false) == Parsed(List([]), 23)
  {
    assert s[21] == '[';
    ListAt(s, 21, 2, false);
    NestedArraysNoCloseStep13(s);
  }

  lemma NestedArraysNoCloseStep15(s: string)
    requires s == "[[tr" + "ue]," + " []," + " [fa" + "lse," + " []," + " [nu" + "ll]]" + ", nu" + "ll"
    ensures SkipTrivia(s, 24) == 25
  {
    assert SkipTrivia(s, 25) == 25;
  }

  lemma NestedArraysNoCloseStep16(s: string)
    requires s == "[[tr" + "ue]," + " []," + " [fa" + "lse," + " []," + " [nu" + "ll]]" + ", nu" + "ll"
    ensures Lex(s, 26) == Lexed(NullToken, 30)
  {
    NullAt(s, 26);
  }

  lemma NestedArraysNoCloseStep17(s: string)
    requires s == "[[tr" + "ue]," + " []," + " [fa" + "lse," + " []," + " [nu" + "ll]]" + ", nu" + "ll"
    ensures ParseValue(s, 26, 3, false, false) == Parsed(Null, 30)
  {
    assert SkipTrivia(s, 26) == 26;
    NestedArraysNoCloseStep16(s);
  }

  lemma NestedArraysNoCloseStep18(s: string)
    requires s == "[[tr" + "ue]," + " []," + " [fa" + "lse," + " []," + " [nu" + "ll]]" + ", nu" + "ll"
    ensures ParseElements(s, 26, 3, [], false) == Parsed(List([Null]), 31)
  {
    assert [] + [Null] == [Null];
    assert SkipTrivia(s, 30) == 30;
    assert Lex(s, 30) == Lexed(ArrayEnd, 31);
    NestedArraysNoCloseStep17(s);
  }

  lemma NestedArraysNoCloseStep19(s: string)
    requires s == "[[tr" + "ue]," + " []," + " [fa" + "lse," + " []," + " [nu" + "ll]]" + ", nu" + "ll"
    ensures ParseArray(s, 26, 3, false) == Parsed(List([Null]), 31)
  {
    assert SkipTrivia(s, 26) == 26;
    NestedArraysNoCloseStep16(s);
    NestedArraysNoCloseStep18(s);
  }

  lemma NestedArraysNoCloseStep20(s: string)
    requires s == "[[tr" + "ue]," + " []," + " [fa" + "lse," + " []," + " [nu" + "ll]]" + ", nu" + "ll"
    ensures ParseValue(s, 25, 2, false, false) == Parsed(List([Null]), 31)
  {
    assert s[25] == '[';
    ListAt(s, 25, 2, false);
    NestedArraysNoCloseStep19(s);
  }

  lemma NestedArraysNoCloseStep21(s: string)
    requires s == "[[tr" + "ue]," + " []," + " [fa" + "lse," + " []," + " [nu" + "ll]]" + ", nu" + "ll"
    ensures ParseElements(s, 25, 2, [Bool(false), List([])], false) == Parsed(List([Bool(false), List([]), List([Null])]), 32)
  {
    assert [Bool(false), List([])] + [List([Null])] == [Bool(false), List([]), List([Null])];
    assert SkipTrivia(s, 31) == 31;
    assert Lex(s, 31) == Lexed(ArrayEnd, 32);
    NestedArraysNoCloseStep20(s);
  }

  lemma NestedArraysNoCloseStep22(s: string)
    requires s == "[[tr" + "ue]," + " []," + " [fa" + "lse," + " []," + " [nu" + "ll]]" + ", nu" + "ll"
    ensures [Bool(false)] + [List([])] == [Bool(false), List([])] && SkipTrivia(s, 23) == 23 && Lex(s, 23) == Lexed(ListSeparator, 24) && SkipTrivia(s, 24) == 25 && Lex(s, 25) == Lexed(ArrayBegin, 26)
  {
    assert [Bool(false)] + [List([])] == [Bool(false), List([])];
    assert SkipTrivia(s, 23) == 23;
    assert Lex(s, 23) == Lexed(ListSeparator, 24);
    NestedArraysNoCloseStep15(s);
    assert Lex(s, 25) == Lexed(ArrayBegin, 26);
  }

  lemma NestedArraysNoCloseStep23(s: string)
    requires s == "[[tr" + "ue]," + " []," + " [fa" + "lse," + " []," + " [nu" + "ll]]" + ", nu" + "ll"
    ensures ParseElements(s, 21, 2, [Bool(false)], false) == Parsed(List([Bool(false), List([]), List([Null])]), 32)
  {
    NestedArraysNoCloseStep22(s);
    NestedArraysNoCloseStep14(s);
    NestedArraysNoCloseStep21(s);
  }

  lemma NestedArraysNoCloseStep24(s: string)
    requires s == "[[tr" + "ue]," + " []," + " [fa" + "lse," + " []," + " [nu" + "ll]]" + ", nu" + "ll"
    ensures [] + [Bool(false)] == [Bool(false)] && SkipTrivia(s, 19) == 19 && Lex(s, 19) == Lexed(ListSeparator, 20) && SkipTrivia(s, 20) == 21 && Lex(s, 21) == Lexed(ArrayBegin, 22)
  {
    assert [] + [Bool(false)] == [Bool(false)];
    assert SkipTrivia(s, 19) == 19;
    assert Lex(s, 19) == Lexed(ListSeparator, 20);
    NestedArraysNoCloseStep12(s);
    assert Lex(s, 21) == Lexed(ArrayBegin, 22);
  }

  lemma NestedArraysNoCloseStep25(s: string)
    requires s == "[[tr" + "ue]," + " []," + " [fa" + "lse," + " []," + " [nu" + "ll]]" + ", nu" + "ll"
    ensures ParseElements(s, 14, 2, [], false) == Parsed(List([Bool(false), List([]), List([Null])]), 32)
  {
    NestedArraysNoCloseStep24(s);
    NestedArraysNoCloseStep11(s);
    NestedArraysNoCloseStep23(s);
  }

  lemma NestedArraysNoCloseStep26(s: string)
    requires s == "[[tr" + "ue]," + " []," + " [fa" + "lse," + " []," + " [nu" + "ll]]" + ", nu" + "ll"
    ensures ParseArray(s, 14, 2, false) == Parsed(List([Bool(false), List([]), List([Null])]), 32)
  {
    assert SkipTrivia(s, 14) == 14;
    NestedArraysNoCloseStep10(s);
    NestedArraysNoCloseStep25(s);
  }

  lemma NestedArraysNoCloseStep27(s: string)
    requires s == "[[tr" + "ue]," + " []," + " [fa" + "lse," + " []," + " [nu" + "ll]]" + ", nu" + "ll"
    ensures ParseValue(s, 13, 1, false, false) == Parsed(List([Bool(false), List([]), List([Null])]), 32)
  {
    assert s[13] == '[';
    ListAt(s, 13, 1, false);
    NestedArraysNoCloseStep26(s);
  }

  lemma NestedArraysNoCloseStep28(s: string)
    requires s == "[[tr" + "ue]," + " []," + " [fa" + "lse," + " []," + " [nu" + "ll]]" + ", nu" + "ll"
    ensures SkipTrivia(s, 33) == 34
  {
    assert SkipTrivia(s, 34) == 34;
  }

  lemma NestedArraysNoCloseStep29(s: string)
    requires s == "[[tr" + "ue]," + " []," + " [fa" + "lse," + " []," + " [nu" + "ll]]" + ", nu" + "ll"
    ensures Lex(s, 34) == Lexed(NullToken, 38)
  {
    NullAt(s, 34);
  }

  lemma NestedArraysNoCloseStep30(s: string)
    requires s == "[[tr" + "ue]," + " []," + " [fa" + "lse," + " []," + " [nu" + "ll]]" + ", nu" + "ll"
    ensures ParseValue(s, 34, 1, false, false) == Parsed(Null, 38)
  {
    assert SkipTrivia(s, 34) == 34;
    NestedArraysNoCloseStep29(s);
  }

  lemma NestedArraysNoCloseStep31(s: string)
    requires s == "[[tr" + "ue]," + " []," + " [fa" + "lse," + " []," + " [nu" + "ll]]" + ", nu" + "ll"
    ensures ParseElements(s, 34, 1, [List([Bool(true)]), List([]), List([Bool(false), List([]), List([Null])])], false) == Failed(SyntaxError, 38)
  {
    assert [List([Bool(true)]), List([]), List([Bool(false), List([]), List([Null])])] + [Null] == [List([Bool(true)]), List([]), List([Bool(false), List([]), List([Null])]), Null];
    assert SkipTrivia(s, 38) == 38;
    assert Lex(s, 38) == Lexed(EndOfInput, 38);
    NestedArraysNoCloseStep30(s);
  }

  lemma NestedArraysNoCloseStep32(s: string)
    requires s == "[[tr" + "ue]," + " []," + " [fa" + "lse," + " []," + " [nu" + "ll]]" + ", nu" + "ll"
    ensures [List([Bool(true)]), List([])] + [List([Bool(false), List([]), List([Null])])] == [List([Bool(true)]), List([]), List([Bool(false), List([]), List([Null])])] && SkipTrivia(s, 32) == 32 && Lex(s, 32) == Lexed(ListSeparator, 33) && SkipTrivia(s, 33) == 34 && Lex(s, 34) == Lexed(NullToken, 38)
  {
    assert [List([Bool(true)]), List([])] + [List([Bool(false), List([]), List([Null])])] == [List([Bool(true)]), List([]), List([Bool(false), List([]), List([Null])])];
    assert SkipTrivia(s, 32) == 32;
    assert Lex(s, 32) == Lexed(ListSeparator, 33);
    NestedArraysNoCloseStep28(s);
    NestedArraysNoCloseStep29(s);
  }

  lemma NestedArraysNoCloseStep33(s: string)
    requires s == "[[tr" + "ue]," + " []," + " [fa" + "lse," + " []," + " [nu" + "ll]]" + ", nu" + "ll"
    ensures ParseElements(s, 13, 1, [List([Bool(true)]), List([])], false) == Failed(SyntaxError, 38)
  {
    NestedArraysNoCloseStep32(s);
    NestedArraysNoCloseStep27(s);
    NestedArraysNoCloseStep31(s);
  }

  lemma NestedArraysNoCloseStep34(s: string)
    requires s == "[[tr" + "ue]," + " []," + " [fa" + "lse," + " []," + " [nu" + "ll]]" + ", nu" + "ll"
    ensures [List([Bool(true)])] + [List([])] == [List([Bool(true)]), List([])] && SkipTrivia(s, 11) == 11 && Lex(s, 11) == Lexed(ListSeparator, 12) && SkipTrivia(s, 12) == 13 && Lex(s, 13) == Lexed(ArrayBegin, 14)
  {
    assert [List([Bool(true)])] + [List([])] == [List([Bool(true)]), List([])];
    assert SkipTrivia(s, 11) == 11;
    assert Lex(s, 11) == Lexed(ListSeparator, 12);
    NestedArraysNoCloseStep9(s);
    assert Lex(s, 13) == Lexed(ArrayBegin, 14);
  }

  lemma NestedArraysNoCloseStep35(s: string)
    requires s == "[[tr" + "ue]," + " []," + " [fa" + "lse," + " []," + " [nu" + "ll]]" + ", nu" + "ll"
    ensures ParseElements(s, 9, 1, [List([Bool(true)])], false) == Failed(SyntaxError, 38)
  {
    NestedArraysNoCloseStep34(s);
    NestedArraysNoCloseStep8(s);
    NestedArraysNoCloseStep33(s);
  }

  lemma NestedArraysNoCloseStep36(s: string)
    requires s == "[[tr" + "ue]," + " []," + " [fa" + "lse," + " []," + " [nu" + "ll]]" + ", nu" + "ll"
    ensures [] + [List([Bool(true)])] == [List([Bool(true)])] && SkipTrivia(s, 7) == 7 && Lex(s, 7) == Lexed(ListSeparator, 8) && SkipTrivia(s, 8) == 9 && Lex(s, 9) == Lexed(ArrayBegin, 10)
  {
    assert [] + [List([Bool(true)])] == [List([Bool(true)])];
    assert SkipTrivia(s, 7) == 7;
    assert Lex(s, 7) == Lexed(ListSeparator, 8);
    NestedArraysNoCloseStep6(s);
    assert Lex(s, 9) == Lexed(ArrayBegin, 10);
  }

  lemma NestedArraysNoCloseStep37(s: string)
    requires s == "[[tr" + "ue]," + " []," + " [fa" + "lse," + " []," + " [nu" + "ll]]" + ", nu" + "ll"
    ensures ParseElements(s, 1, 1, [], false) == Failed(SyntaxError, 38)
  {
    NestedArraysNoCloseStep36(s);
    NestedArraysNoCloseStep5(s);
    NestedArraysNoCloseStep35(s);
  }

  lemma NestedArraysNoCloseStep38(s: string)
    requires s == "[[tr" + "ue]," + " []," + " [fa" + "lse," + " []," + " [nu" + "ll]]" + ", nu" + "ll"
    ensures ParseArray(s, 1, 1, false) == Failed(SyntaxError, 38)
  {
    assert SkipTrivia(s, 1) == 1;
    assert Lex(s, 1) == Lexed(ArrayBegin, 2);
    NestedArraysNoCloseStep37(s);
  }

  lemma NestedArraysNoCloseStep39(s: string)
    requires s == "[[tr" + "ue]," + " []," + " [fa" + "lse," + " []," + " [nu" + "ll]]" + ", nu" + "ll"
    ensures ParseValue(s, 0, 0, true, false) == Failed(SyntaxError, 38)
  {
    RootList(s, true, false);
    NestedArraysNoCloseStep38(s);
  }

  lemma NestedArraysNoCloseStep40(s: string)
    requires s == "[[tr" + "ue]," + " []," + " [fa" + "lse," + " []," + " [nu" + "ll]]" + ", nu" + "ll"
    ensures LineColumn(s[..1]) == (1, 2) && s[..2][..1] == s[..1] && LineColumn(s[..2]) == (1, 3) && s[..3][..2] == s[..2] && LineColumn(s[..3]) == (1, 4)
  {
    assert LineColumn(s[..1]) == (1, 2);
    assert s[..2][..1] == s[..1];
    assert LineColumn(s[..2]) == (1, 3);
    assert s[..3][..2] == s[..2];
    assert LineColumn(s[..3]) == (1, 4);
  }

  lemma NestedArraysNoCloseStep41(s: string)
    requires s == "[[tr" + "ue]," + " []," + " [fa" + "lse," + " []," + " [nu" + "ll]]" + ", nu" + "ll"
    ensures s[..4][..3] == s[..3] && LineColumn(s[..4]) == (1, 5) && s[..5][..4] == s[..4]
  {
    NestedArraysNoCloseStep40(s);
    assert s[..4][..3] == s[..3];
    assert LineColumn(s[..4]) == (1, 5);
    assert s[..5][..4] == s[..4];
  }

  lemma NestedArraysNoCloseStep42(s: string)
    requires s == "[[tr" + "ue]," + " []," + " [fa" + "lse," + " []," + " [nu" + "ll]]" + ", nu" + "ll"
    ensures LineColumn(s[..5]) == (1, 6)
  {
    NestedArraysNoCloseStep40(s);
    NestedArraysNoCloseStep41(s);
  }

  lemma NestedArraysNoCloseStep43(s: string)
    requires s == "[[tr" + "ue]," + " []," + " [fa" + "lse," + " []," + " [nu" + "ll]]" + ", nu" + "ll"
    ensures LineColumn(s[..5]) == (1, 6) && s[..6][..5] == s[..5] && LineColumn(s[..6]) == (1, 7) && s[..7][..6] == s[..6] && LineColumn(s[..7]) == (1, 8)
  {
    NestedArraysNoCloseStep42(s);
    assert s[..6][..5] == s[..5];
    assert LineColumn(s[..6]) == (1, 7);
    assert s[..7][..6] == s[..6];
    assert LineColumn(s[..7]) == (1, 8);
  }

  lemma NestedArraysNoCloseStep44(s: string)
    requires s == "[[tr" + "ue]," + " []," + " [fa" + "lse," + " []," + " [nu" + "ll]]" + ", nu" + "ll"
    ensures s[..8][..7] == s[..7] && LineColumn(s[..8]) == (1, 9) && s[..9][..8] == s[..8] && LineColumn(s[..9]) == (1, 10) && s[..10][..9] == s[..9]
  {
    NestedArraysNoCloseStep43(s);
    assert s[..8][..7] == s[..7];
    assert LineColumn(s[..8]) == (1, 9);
    assert s[..9][..8] == s[..8];
    assert LineColumn(s[..9]) == (1, 10);
    assert s[..10][..9] == s[..9];
  }

  lemma NestedArraysNoCloseStep45(s: string)
    requires s == "[[tr" + "ue]," + " []," + " [fa" + "lse," + " []," + " [nu" + "ll]]" + ", nu" + "ll"
    ensures LineColumn(s[..10]) == (1, 11)
  {
    NestedArraysNoCloseStep43(s);
    NestedArraysNoCloseStep44(s);
  }

  lemma NestedArraysNoCloseStep46(s: string)
    requires s == "[[tr" + "ue]," + " []," + " [fa" + "lse," + " []," + " [nu" + "ll]]" + ", nu" + "ll"
    ensures LineColumn(s[..10]) == (1, 11) && s[..11][..10] == s[..10] && LineColumn(s[..11]) == (1, 12) && s[..12][..11] == s[..11] && LineColumn(s[..12]) == (1, 13)
  {
    NestedArraysNoCloseStep45(s);
    assert s[..11][..10] == s[..10];
    assert LineColumn(s[..11]) == (1, 12);
    assert s[..12][..11] == s[..11];
    assert LineColumn(s[..12]) == (1, 13);
  }

  lemma NestedArraysNoCloseStep47(s: string)
    requires s == "[[tr" + "ue]," + " []," + " [fa" + "lse," + " []," + " [nu" + "ll]]" + ", nu" + "ll"
    ensures s[..13][..12] == s[..12] && LineColumn(s[..13]) == (1, 14) && s[..14][..13] == s[..13] && LineColumn(s[..14]) == (1, 15) && s[..15][..14] == s[..14]
  {
    NestedArraysNoCloseStep46(s);
    assert s[..13][..12] == s[..12];
    assert LineColumn(s[..13]) == (1, 14);
    assert s[..14][..13] == s[..13];
    assert LineColumn(s[..14]) == (1, 15);
    assert s[..15][..14] == s[..14];
  }

  lemma NestedArraysNoCloseStep48(s: string)
    requires s == "[[tr" + "ue]," + " []," + " [fa" + "lse," + " []," + " [nu" + "ll]]" + ", nu" + "ll"
    ensures LineColumn(s[..15]) == (1, 16)
  {
    NestedArraysNoCloseStep46(s);
    NestedArraysNoCloseStep47(s);
  }

  lemma NestedArraysNoCloseStep49(s: string)
    requires s == "[[tr" + "ue]," + " []," + " [fa" + "lse," + " []," + " [nu" + "ll]]" + ", nu" + "ll"
    ensures LineColumn(s[..15]) == (1, 16) && s[..16][..15] == s[..15] && LineColumn(s[..16]) == (1, 17) && s[..17][..16] == s[..16] && LineColumn(s[..17]) == (1, 18)
  {
    NestedArraysNoCloseStep48(s);
    assert s[..16][..15] == s[..15];
    assert LineColumn(s[..16]) == (1, 17);
    assert s[..17][..16] == s[..16];
    assert LineColumn(s[..17]) == (1, 18);
  }

  lemma NestedArraysNoCloseStep50(s: string)
    requires s == "[[tr" + "ue]," + " []," + " [fa" + "lse," + " []," + " [nu" + "ll]]" + ", nu" + "ll"
    ensures s[..18][..17] == s[..17] && LineColumn(s[..18]) == (1, 19) && s[..19][..18] == s[..18] && LineColumn(s[..19]) == (1, 20) && s[..20][..19] == s[..19]
  {
    NestedArraysNoCloseStep49(s);
    assert s[..18][..17] == s[..17];
    assert LineColumn(s[..18]) == (1, 19);
    assert s[..19][..18] == s[..18];
    assert LineColumn(s[..19]) == (1, 20);
    assert s[..20][..19] == s[..19];
  }

  lemma NestedArraysNoCloseStep51(s: string)
    requires s == "[[tr" + "ue]," + " []," + " [fa" + "lse," + " []," + " [nu" + "ll]]" + ", nu" + "ll"
    ensures LineColumn(s[..20]) == (1, 21)
  {
    NestedArraysNoCloseStep49(s);
    NestedArraysNoCloseStep50(s);
  }

  lemma NestedArraysNoCloseStep52(s: string)
    requires s == "[[tr" + "ue]," + " []," + " [fa" + "lse," + " []," + " [nu" + "ll]]" + ", nu" + "ll"
    ensures LineColumn(s[..20]) == (1, 21) && s[..21][..20] == s[..20] && LineColumn(s[..21]) == (1, 22) && s[..22][..21] == s[..21] && LineColumn(s[..22]) == (1, 23)
  {
    NestedArraysNoCloseStep51(s);
    assert s[..21][..20] == s[..20];
    assert LineColumn(s[..21]) == (1, 22);
    assert s[..22][..21] == s[..21];
    assert LineColumn(s[..22]) == (1, 23);
  }

  lemma NestedArraysNoCloseStep53(s: string)
    requires s == "[[tr" + "ue]," + " []," + " [fa" + "lse," + " []," + " [nu" + "ll]]" + ", nu" + "ll"
    ensures s[..23][..22] == s[..22] && LineColumn(s[..23]) == (1, 24) && s[..24][..23] == s[..23] && LineColumn(s[..24]) == (1, 25) && s[..25][..24] == s[..24]
  {
    NestedArraysNoCloseStep52(s);
    assert s[..23][..22] == s[..22];
    assert LineColumn(s[..23]) == (1, 24);
    assert s[..24][..23] == s[..23];
    assert LineColumn(s[..24]) == (1, 25);
    assert s[..25][..24] == s[..24];
  }

  lemma NestedArraysNoCloseStep54(s: string)
    requires s == "[[tr" + "ue]," + " []," + " [fa" + "lse," + " []," + " [nu" + "ll]]" + ", nu" + "ll"
    ensures LineColumn(s[..25]) == (1, 26)
  {
    NestedArraysNoCloseStep52(s);
    NestedArraysNoCloseStep53(s);
  }

  lemma NestedArraysNoCloseStep55(s: string)
    requires s == "[[tr" + "ue]," + " []," + " [fa" + "lse," + " []," + " [nu" + "ll]]" + ", nu" + "ll"
    ensures LineColumn(s[..25]) == (1, 26) && s[..26][..25] == s[..25] && LineColumn(s[..26]) == (1, 27) && s[..27][..26] == s[..26] && LineColumn(s[..27]) == (1, 28)
  {
    NestedArraysNoCloseStep54(s);
    assert s[..26][..25] == s[..25];
    assert LineColumn(s[..26]) == (1, 27);
    assert s[..27][..26] == s[..26];
    assert LineColumn(s[..27]) == (1, 28);
  }

  lemma NestedArraysNoCloseStep56(s: string)
    requires s == "[[tr" + "ue]," + " []," + " [fa" + "lse," + " []," + " [nu" + "ll]]" + ", nu" + "ll"
    ensures s[..28][..27] == s[..27] && LineColumn(s[..28]) == (1, 29) && s[..29][..28] == s[..28] && LineColumn(s[..29]) == (1, 30) && s[..30][..29] == s[..29]
  {
    NestedArraysNoCloseStep55(s);
    assert s[..28][..27] == s[..27];
    assert LineColumn(s[..28]) == (1, 29);
    assert s[..29][..28] == s[..28];
    assert LineColumn(s[..29]) == (1, 30);
    assert s[..30][..29] == s[..29];
  }

  lemma NestedArraysNoCloseStep57(s: string)
    requires s == "[[tr" + "ue]," + " []," + " [fa" + "lse," + " []," + " [nu" + "ll]]" + ", nu" + "ll"
    ensures LineColumn(s[..30]) == (1, 31)
  {
    NestedArraysNoCloseStep55(s);
    NestedArraysNoCloseStep56(s);
  }

  lemma NestedArraysNoCloseStep58(s: string)
    requires s == "[[tr" + "ue]," + " []," + " [fa" + "lse," + " []," + " [nu" + "ll]]" + ", nu" + "ll"
    ensures LineColumn(s[..30]) == (1, 31) && s[..31][..30] == s[..30] && LineColumn(s[..31]) == (1, 32) && s[..32][..31] == s[..31] && LineColumn(s[..32]) == (1, 33)
  {
    NestedArraysNoCloseStep57(s);
    assert s[..31][..30] == s[..30];
    assert LineColumn(s[..31]) == (1, 32);
    assert s[..32][..31] == s[..31];
    assert LineColumn(s[..32]) == (1, 33);
  }

  lemma NestedArraysNoCloseStep59(s: string)
    requires s == "[[tr" + "ue]," + " []," + " [fa" + "lse," + " []," + " [nu" + "ll]]" + ", nu" + "ll"
    ensures s[..33][..32] == s[..32] && LineColumn(s[..33]) == (1, 34) && s[..34][..33] == s[..33] && LineColumn(s[..34]) == (1, 35) && s[..35][..34] == s[..34]
  {
    NestedArraysNoCloseStep58(s);
    assert s[..33][..32] == s[..32];
    assert LineColumn(s[..33]) == (1, 34);
    assert s[..34][..33] == s[..33];
    assert LineColumn(s[..34]) == (1, 35);
    assert s[..35][..34] == s[..34];
  }

  lemma NestedArraysNoCloseStep60(s: string)
    requires s == "[[tr" + "ue]," + " []," + " [fa" + "lse," + " []," + " [nu" + "ll]]" + ", nu" + "ll"
    ensures LineColumn(s[..35]) == (1, 36)
  {
    NestedArraysNoCloseStep58(s);
    NestedArraysNoCloseStep59(s);
  }

  lemma NestedArraysNoCloseStep61(s: string)
    requires s == "[[tr" + "ue]," + " []," + " [fa" + "lse," + " []," + " [nu" + "ll]]" + ", nu" + "ll"
    ensures LineColumn(s[..38]) == (1, 39)
  {
    NestedArraysNoCloseStep60(s);
    assert s[..36][..35] == s[..35];
    assert LineColumn(s[..36]) == (1, 37);
    assert s[..37][..36] == s[..36];
    assert LineColumn(s[..37]) == (1, 38);
    assert s[..38][..37] == s[..37];
  }

  /** A dictionary of a double, a null and a key written with a hex escape. */
  lemma MixedObject(s: string)
    requires s == "{\"nu" + "mber" + "\":9." + "8765" + "4321" + ", \"n" + "ull\"" + ":nul" + "l , " + "\"\\x5" + "3\" :" + " \"st" + "r\" }"
    ensures Read(s, false) == Some(Dict(map[[110, 117, 109, 98, 101, 114] := Double("9.87654321"), [110, 117, 108, 108] := Null, [83] := Str([115, 116, 114])]))
  {
    assert SkipTrivia(s, 52) == 52;
    assert Lex(s, 52) == Lexed(EndOfInput, 52);
    MixedObjectStep47(s);
  }

  lemma MixedObjectStep1(s: string)
    requires s == "{\"nu" + "mber" + "\":9." + "8765" + "4321" + ", \"n" + "ull\"" + ":nul" + "l , " + "\"\\x5" + "3\" :" + " \"st" + "r\" }"
    ensures LexString(s, 1, 5, [110, 117, 109]) == Lexed(StringToken([110, 117, 109, 98, 101, 114]), 9)
  {
    assert [110, 117, 109] + [98] == [110, 117, 109, 98];
    assert [110, 117, 109, 98] + [101] == [110, 117, 109, 98, 101];
    assert [110, 117, 109, 98, 101] + [114] == [110, 117, 109, 98, 101, 114];
    assert LexString(s, 1, 8, [110, 117, 109, 98, 101, 114]) == Lexed(StringToken([110, 117, 109, 98, 101, 114]), 9);
    assert LexString(s, 1, 7, [110, 117, 109, 98, 101]) == Lexed(StringToken([110, 117, 109, 98, 101, 114]), 9);
    assert LexString(s, 1, 6, [110, 117, 109, 98]) == Lexed(StringToken([110, 117, 109, 98, 101, 114]), 9);
  }

  lemma MixedObjectStep2(s: string)
    requires s == "{\"nu" + "mber" + "\":9." + "8765" + "4321" + ", \"n" + "ull\"" + ":nul" + "l , " + "\"\\x5" + "3\" :" + " \"st" + "r\" }"
    ensures [] + [110] == [110] && [110] + [117] == [110, 117] && [110, 117] + [109] == [110, 117, 109] && LexString(s, 1, 5, [110, 117, 109]) == Lexed(StringToken([110, 117, 109, 98, 101, 114]), 9) && LexString(s, 1, 4, [110, 117]) == Lexed(StringToken([110, 117, 109, 98, 101, 114]), 9)
  {
    assert [] + [110] == [110];
    assert [110] + [117] == [110, 117];
    assert [110, 117] + [109] == [110, 117, 109];
    MixedObjectStep1(s);
    assert LexString(s, 1, 4, [110, 117]) == Lexed(StringToken([110, 117, 109, 98, 101, 114]), 9);
  }

  lemma MixedObjectStep3(s: string)
    requires s == "{\"nu" + "mber" + "\":9." + "8765" + "4321" + ", \"n" + "ull\"" + ":nul" + "l , " + "\"\\x5" + "3\" :" + " \"st" + "r\" }"
    ensures LexString(s, 1, 3, [110]) == Lexed(StringToken([110, 117, 109, 98, 101, 114]), 9) && LexString(s, 1, 2, []) == Lexed(StringToken([110, 117, 109, 98, 101, 114]), 9)
  {
    MixedObjectStep2(s);
    assert LexString(s, 1, 3, [110]) == Lexed(StringToken([110, 117, 109, 98, 101, 114]), 9);
    assert LexString(s, 1, 2, []) == Lexed(StringToken([110, 117, 109, 98, 101, 114]), 9);
  }

  lemma MixedObjectStep4(s: string)
    requires s == "{\"nu" + "mber" + "\":9." + "8765" + "4321" + ", \"n" + "ull\"" + ":nul" + "l , " + "\"\\x5" + "3\" :" + " \"st" + "r\" }"
    ensures Lex(s, 1) == Lexed(StringToken([110, 117, 109, 98, 101, 114]), 9)
  {
    MixedObjectStep2(s);
    MixedObjectStep3(s);
  }

  lemma MixedObjectStep5(s: string)
    requires s == "{\"nu" + "mber" + "\":9." + "8765" + "4321" + ", \"n" + "ull\"" + ":nul" + "l , " + "\"\\x5" + "3\" :" + " \"st" + "r\" }"
    ensures [] + [110] == [110] && [110] + [117] == [110, 117] && [110, 117] + [109] == [110, 117, 109] && LexString(s, 1, 5, [110, 117, 109]) == Lexed(StringToken([110, 117, 109, 98, 101, 114]), 9) && LexString(s, 1, 4, [110, 117]) == Lexed(StringToken([110, 117, 109, 98, 101, 114]), 9)
  {
    assert [] + [110] == [110];
    assert [110] + [117] == [110, 117];
    assert [110, 117] + [109] == [110, 117, 109];
    MixedObjectStep1(s);
    assert LexString(s, 1, 4, [110, 117]) == Lexed(StringToken([110, 117, 109, 98, 101, 114]), 9);
  }

  lemma MixedObjectStep6(s: string)
    requires s == "{\"nu" + "mber" + "\":9." + "8765" + "4321" + ", \"n" + "ull\"" + ":nul" + "l , " + "\"\\x5" + "3\" :" + " \"st" + "r\" }"
    ensures LexString(s, 1, 3, [110]) == Lexed(StringToken([110, 117, 109, 98, 101, 114]), 9) && LexString(s, 1, 2, []) == Lexed(StringToken([110, 117, 109, 98, 101, 114]), 9)
  {
    MixedObjectStep5(s);
    assert LexString(s, 1, 3, [110]) == Lexed(StringToken([110, 117, 109, 98, 101, 114]), 9);
    assert LexString(s, 1, 2, []) == Lexed(StringToken([110, 117, 109, 98, 101, 114]), 9);
  }

  lemma MixedObjectStep7(s: string)
    requires s == "{\"nu" + "mber" + "\":9." + "8765" + "4321" + ", \"n" + "ull\"" + ":nul" + "l , " + "\"\\x5" + "3\" :" + " \"st" + "r\" }"
    ensures DigitRunEnd(s, 10) == 11
  {
    assert DigitRunEnd(s, 11) == 11;
  }

  lemma MixedObjectStep8(s: string)
    requires s == "{\"nu" + "mber" + "\":9." + "8765" + "4321" + ", \"n" + "ull\"" + ":nul" + "l , " + "\"\\x5" + "3\" :" + " \"st" + "r\" }"
    ensures DigitRunEnd(s, 20) == 20
  {
  }

  lemma MixedObjectStep9(s: string)
    requires s == "{\"nu" + "mber" + "\":9." + "8765" + "4321" + ", \"n" + "ull\"" + ":nul" + "l , " + "\"\\x5" + "3\" :" + " \"st" + "r\" }"
    ensures DigitRunEnd(s, 15) == 20
  {
    MixedObjectStep8(s);
    assert DigitRunEnd(s, 19) == 20;
    assert DigitRunEnd(s, 18) == 20;
    assert DigitRunEnd(s, 17) == 20;
    assert DigitRunEnd(s, 16) == 20;
  }

  lemma MixedObjectStep10(s: string)
    requires s == "{\"nu" + "mber" + "\":9." + "8765" + "4321" + ", \"n" + "ull\"" + ":nul" + "l , " + "\"\\x5" + "3\" :" + " \"st" + "r\" }"
    ensures DigitRunEnd(s, 10) == 11 && DigitRunEnd(s, 15) == 20 && DigitRunEnd(s, 14) == 20 && DigitRunEnd(s, 13) == 20 && DigitRunEnd(s, 12) == 20
  {
    MixedObjectStep7(s);
    MixedObjectStep9(s);
    assert DigitRunEnd(s, 14) == 20;
    assert DigitRunEnd(s, 13) == 20;
    assert DigitRunEnd(s, 12) == 20;
  }

  lemma MixedObjectStep11(s: string)
    requires s == "{\"nu" + "mber" + "\":9." + "8765" + "4321" + ", \"n" + "ull\"" + ":nul" + "l , " + "\"\\x5" + "3\" :" + " \"st" + "r\" }"
    ensures ExponentEnd(s, 20) == Some(20) && s[10..20] == "9.87654321" && LexNumber(s, 10) == Lexed(NumberToken("9.87654321"), 20)
  {
    assert s[10..20] == "9.87654321";
    assert s[20] == ',';
    MixedObjectStep10(s);
    assert ExponentEnd(s, 20) == Some(20);
    assert LexNumber(s, 10) == Lexed(NumberToken("9.87654321"), 20);
  }

  lemma MixedObjectStep12(s: string)
    requires s == "{\"nu" + "mber" + "\":9." + "8765" + "4321" + ", \"n" + "ull\"" + ":nul" + "l , " + "\"\\x5" + "3\" :" + " \"st" + "r\" }"
    ensures Lex(s, 10) == Lexed(NumberToken("9.87654321"), 20)
  {
    MixedObjectStep10(s);
    MixedObjectStep11(s);
  }

  lemma MixedObjectStep13(s: string)
    requires s == "{\"nu" + "mber" + "\":9." + "8765" + "4321" + ", \"n" + "ull\"" + ":nul" + "l , " + "\"\\x5" + "3\" :" + " \"st" + "r\" }"
    ensures ParseValue(s, 10, 1, false, false) == Parsed(Double("9.87654321"), 20)
  {
    assert s[10] == '9';
    assert SkipTrivia(s, 10) == 10;
    MixedObjectStep12(s);
    NumberValueAt(s, 10, 1, false, "9.87654321", 20);
    MixedFractionIsDouble();
  }

  lemma MixedObjectStep14(s: string)
    requires s == "{\"nu" + "mber" + "\":9." + "8765" + "4321" + ", \"n" + "ull\"" + ":nul" + "l , " + "\"\\x5" + "3\" :" + " \"st" + "r\" }"
    ensures SkipTrivia(s, 21) == 22
  {
    assert SkipTrivia(s, 22) == 22;
  }

  lemma MixedObjectStep15(s: string)
    requires s == "{\"nu" + "mber" + "\":9." + "8765" + "4321" + ", \"n" + "ull\"" + ":nul" + "l , " + "\"\\x5" + "3\" :" + " \"st" + "r\" }"
    ensures LexString(s, 22, 26, [110, 117, 108]) == Lexed(StringToken([110, 117, 108, 108]), 28)
  {
    assert [110, 117, 108] + [108] == [110, 117, 108, 108];
    assert LexString(s, 22, 27, [110, 117, 108, 108]) == Lexed(StringToken([110, 117, 108, 108]), 28);
  }

  lemma MixedObjectStep16(s: string)
    requires s == "{\"nu" + "mber" + "\":9." + "8765" + "4321" + ", \"n" + "ull\"" + ":nul" + "l , " + "\"\\x5" + "3\" :" + " \"st" + "r\" }"
    ensures [] + [110] == [110] && [110] + [117] == [110, 117] && [110, 117] + [108] == [110, 117, 108] && LexString(s, 22, 26, [110, 117, 108]) == Lexed(StringToken([110, 117, 108, 108]), 28) && LexString(s, 22, 25, [110, 117]) == Lexed(StringToken([110, 117, 108, 108]), 28)
  {
    assert [] + [110] == [110];
    assert [110] + [117] == [110, 117];
    assert [110, 117] + [108] == [110, 117, 108];
    MixedObjectStep15(s);
    assert LexString(s, 22, 25, [110, 117]) == Lexed(StringToken([110, 117, 108, 108]), 28);
  }

  lemma MixedObjectStep17(s: string)
    requires s == "{\"nu" + "mber" + "\":9." + "8765" + "4321" + ", \"n" + "ull\"" + ":nul" + "l , " + "\"\\x5" + "3\" :" + " \"st" + "r\" }"
    ensures LexString(s, 22, 24, [110]) == Lexed(StringToken([110, 117, 108, 108]), 28) && LexString(s, 22, 23, []) == Lexed(StringToken([110, 117, 108, 108]), 28)
  {
    MixedObjectStep16(s);
    assert LexString(s, 22, 24, [110]) == Lexed(StringToken([110, 117, 108, 108]), 28);
    assert LexString(s, 22, 23, []) == Lexed(StringToken([110, 117, 108, 108]), 28);
  }

  lemma MixedObjectStep18(s: string)
    requires s == "{\"nu" + "mber" + "\":9." + "8765" + "4321" + ", \"n" + "ull\"" + ":nul" + "l , " + "\"\\x5" + "3\" :" + " \"st" + "r\" }"
    ensures Lex(s, 22) == Lexed(StringToken([110, 117, 108, 108]), 28)
  {
    MixedObjectStep16(s);
    MixedObjectStep17(s);
  }

  lemma MixedObjectStep19(s: string)
    requires s == "{\"nu" + "mber" + "\":9." + "8765" + "4321" + ", \"n" + "ull\"" + ":nul" + "l , " + "\"\\x5" + "3\" :" + " \"st" + "r\" }"
    ensures [] + [110] == [110] && [110] + [117] == [110, 117] && [110, 117] + [108] == [110, 117, 108] && LexString(s, 22, 26, [110, 117, 108]) == Lexed(StringToken([110, 117, 108, 108]), 28) && LexString(s, 22, 25, [110, 117]) == Lexed(StringToken([110, 117, 108, 108]), 28)
  {
    assert [] + [110] == [110];
    assert [110] + [117] == [110, 117];
    assert [110, 117] + [108] == [110, 117, 108];
    MixedObjectStep15(s);
    assert LexString(s, 22, 25, [110, 117]) == Lexed(StringToken([110, 117, 108, 108]), 28);
  }

  lemma MixedObjectStep20(s: string)
    requires s == "{\"nu" + "mber" + "\":9." + "8765" + "4321" + ", \"n" + "ull\"" + ":nul" + "l , " + "\"\\x5" + "3\" :" + " \"st" + "r\" }"
    ensures LexString(s, 22, 24, [110]) == Lexed(StringToken([110, 117, 108, 108]), 28) && LexString(s, 22, 23, []) == Lexed(StringToken([110, 117, 108, 108]), 28)
  {
    MixedObjectStep19(s);
    assert LexString(s, 22, 24, [110]) == Lexed(StringToken([110, 117, 108, 108]), 28);
    assert LexString(s, 22, 23, []) == Lexed(StringToken([110, 117, 108, 108]), 28);
  }

  lemma MixedObjectStep21(s: string)
    requires s == "{\"nu" + "mber" + "\":9." + "8765" + "4321" + ", \"n" + "ull\"" + ":nul" + "l , " + "\"\\x5" + "3\" :" + " \"st" + "r\" }"
    ensures Lex(s, 29) == Lexed(NullToken, 33)
  {
    NullAt(s, 29);
  }

  lemma MixedObjectStep22(s: string)
    requires s == "{\"nu" + "mber" + "\":9." + "8765" + "4321" + ", \"n" + "ull\"" + ":nul" + "l , " + "\"\\x5" + "3\" :" + " \"st" + "r\" }"
    ensures ParseValue(s, 29, 1, false, false) == Parsed(Null, 33)
  {
    assert SkipTrivia(s, 29) == 29;
    MixedObjectStep21(s);
  }

  lemma MixedObjectStep23(s: string)
    requires s == "{\"nu" + "mber" + "\":9." + "8765" + "4321" + ", \"n" + "ull\"" + ":nul" + "l , " + "\"\\x5" + "3\" :" + " \"st" + "r\" }"
    ensures SkipTrivia(s, 33) == 34
  {
    assert SkipTrivia(s, 34) == 34;
  }

  lemma MixedObjectStep24(s: string)
    requires s == "{\"nu" + "mber" + "\":9." + "8765" + "4321" + ", \"n" + "ull\"" + ":nul" + "l , " + "\"\\x5" + "3\" :" + " \"st" + "r\" }"
    ensures SkipTrivia(s, 35) == 36
  {
    assert SkipTrivia(s, 36) == 36;
  }

  lemma MixedObjectStep25(s: string)
    requires s == "{\"nu" + "mber" + "\":9." + "8765" + "4321" + ", \"n" + "ull\"" + ":nul" + "l , " + "\"\\x5" + "3\" :" + " \"st" + "r\" }"
    ensures IsHexDigit(At(s, 39)) && IsHexDigit(At(s, 40)) && HexRun(s, 39, 2) && HexNumber(s, 39, 1) == 5 && HexNumber(s, 39, 2) == 83
  {
    assert IsHexDigit(At(s, 39));
    assert IsHexDigit(At(s, 40));
    assert HexRun(s, 39, 2);
    assert HexNumber(s, 39, 1) == 5;
    assert HexNumber(s, 39, 2) == 83;
  }

  lemma MixedObjectStep26(s: string)
    requires s == "{\"nu" + "mber" + "\":9." + "8765" + "4321" + ", \"n" + "ull\"" + ":nul" + "l , " + "\"\\x5" + "3\" :" + " \"st" + "r\" }"
    ensures [] + [83] == [83] && LexString(s, 36, 41, [83]) == Lexed(StringToken([83]), 42) && LexString(s, 36, 37, []) == Lexed(StringToken([83]), 42)
  {
    MixedObjectStep25(s);
    assert [] + [83] == [83];
    assert LexString(s, 36, 41, [83]) == Lexed(StringToken([83]), 42);
    assert LexString(s, 36, 37, []) == Lexed(StringToken([83]), 42);
  }

  lemma MixedObjectStep27(s: string)
    requires s == "{\"nu" + "mber" + "\":9." + "8765" + "4321" + ", \"n" + "ull\"" + ":nul" + "l , " + "\"\\x5" + "3\" :" + " \"st" + "r\" }"
    ensures Lex(s, 36) == Lexed(StringToken([83]), 42)
  {
    MixedObjectStep25(s);
    MixedObjectStep26(s);
  }

  lemma MixedObjectStep28(s: string)
    requires s == "{\"nu" + "mber" + "\":9." + "8765" + "4321" + ", \"n" + "ull\"" + ":nul" + "l , " + "\"\\x5" + "3\" :" + " \"st" + "r\" }"
    ensures IsHexDigit(At(s, 39)) && IsHexDigit(At(s, 40)) && HexRun(s, 39, 2) && HexNumber(s, 39, 1) == 5 && HexNumber(s, 39, 2) == 83
  {
    assert IsHexDigit(At(s, 39));
    assert IsHexDigit(At(s, 40));
    assert HexRun(s, 39, 2);
    assert HexNumber(s, 39, 1) == 5;
    assert HexNumber(s, 39, 2) == 83;
  }

  lemma MixedObjectStep29(s: string)
    requires s == "{\"nu" + "mber" + "\":9." + "8765" + "4321" + ", \"n" + "ull\"" + ":nul" + "l , " + "\"\\x5" + "3\" :" + " \"st" + "r\" }"
    ensures [] + [83] == [83] && LexString(s, 36, 41, [83]) == Lexed(StringToken([83]), 42) && LexString(s, 36, 37, []) == Lexed(StringToken([83]), 42)
  {
    MixedObjectStep28(s);
    assert [] + [83] == [83];
    assert LexString(s, 36, 41, [83]) == Lexed(StringToken([83]), 42);
    assert LexString(s, 36, 37, []) == Lexed(StringToken([83]), 42);
  }

  lemma MixedObjectStep30(s: string)
    requires s == "{\"nu" + "mber" + "\":9." + "8765" + "4321" + ", \"n" + "ull\"" + ":nul" + "l , " + "\"\\x5" + "3\" :" + " \"st" + "r\" }"
    ensures SkipTrivia(s, 42) == 43
  {
    assert SkipTrivia(s, 43) == 43;
  }

  lemma MixedObjectStep31(s: string)
    requires s == "{\"nu" + "mber" + "\":9." + "8765" + "4321" + ", \"n" + "ull\"" + ":nul" + "l , " + "\"\\x5" + "3\" :" + " \"st" + "r\" }"
    ensures SkipTrivia(s, 44) == 45
  {
    assert SkipTrivia(s, 45) == 45;
  }

  lemma MixedObjectStep32(s: string)
    requires s == "{\"nu" + "mber" + "\":9." + "8765" + "4321" + ", \"n" + "ull\"" + ":nul" + "l , " + "\"\\x5" + "3\" :" + " \"st" + "r\" }"
    ensures LexString(s, 45, 49, [115, 116, 114]) == Lexed(StringToken([115, 116, 114]), 50)
  {
  }

  lemma MixedObjectStep33(s: string)
    requires s == "{\"nu" + "mber" + "\":9." + "8765" + "4321" + ", \"n" + "ull\"" + ":nul" + "l , " + "\"\\x5" + "3\" :" + " \"st" + "r\" }"
    ensures [] + [115] == [115] && [115] + [116] == [115, 116] && [115, 116] + [114] == [115, 116, 114] && LexString(s, 45, 49, [115, 116, 114]) == Lexed(StringToken([115, 116, 114]), 50) && LexString(s, 45, 48, [115, 116]) == Lexed(StringToken([115, 116, 114]), 50)
  {
    assert [] + [115] == [115];
    assert [115] + [116] == [115, 116];
    assert [115, 116] + [114] == [115, 116, 114];
    MixedObjectStep32(s);
    assert LexString(s, 45, 48, [115, 116]) == Lexed(StringToken([115, 116, 114]), 50);
  }

  lemma MixedObjectStep34(s: string)
    requires s == "{\"nu" + "mber" + "\":9." + "8765" + "4321" + ", \"n" + "ull\"" + ":nul" + "l , " + "\"\\x5" + "3\" :" + " \"st" + "r\" }"
    ensures LexString(s, 45, 47, [115]) == Lexed(StringToken([115, 116, 114]), 50) && LexString(s, 45, 46, []) == Lexed(StringToken([115, 116, 114]), 50)
  {
    MixedObjectStep33(s);
    assert LexString(s, 45, 47, [115]) == Lexed(StringToken([115, 116, 114]), 50);
    assert LexString(s, 45, 46, []) == Lexed(StringToken([115, 116, 114]), 50);
  }

  lemma MixedObjectStep35(s: string)
    requires s == "{\"nu" + "mber" + "\":9." + "8765" + "4321" + ", \"n" + "ull\"" + ":nul" + "l , " + "\"\\x5" + "3\" :" + " \"st" + "r\" }"
    ensures Lex(s, 45) == Lexed(StringToken([115, 116, 114]), 50)
  {
    MixedObjectStep33(s);
    MixedObjectStep34(s);
  }

  lemma MixedObjectStep36(s: string)
    requires s == "{\"nu" + "mber" + "\":9." + "8765" + "4321" + ", \"n" + "ull\"" + ":nul" + "l , " + "\"\\x5" + "3\" :" + " \"st" + "r\" }"
    ensures ParseValue(s, 45, 1, false, false) == Parsed(Str([115, 116, 114]), 50)
  {
    assert SkipTrivia(s, 45) == 45;
    MixedObjectStep35(s);
  }

  lemma MixedObjectStep37(s: string)
    requires s == "{\"nu" + "mber" + "\":9." + "8765" + "4321" + ", \"n" + "ull\"" + ":nul" + "l , " + "\"\\x5" + "3\" :" + " \"st" + "r\" }"
    ensures SkipTrivia(s, 50) == 51
  {
    assert SkipTrivia(s, 51) == 51;
  }

  lemma MixedObjectStep38(s: string)
    requires s == "{\"nu" + "mber" + "\":9." + "8765" + "4321" + ", \"n" + "ull\"" + ":nul" + "l , " + "\"\\x5" + "3\" :" + " \"st" + "r\" }"
    ensures ParseMemberValue(s, 45, 1, map[[110, 117, 109, 98, 101, 114] := Double("9.87654321"), [110, 117, 108, 108] := Null], [83], false) == Parsed(Dict(map[[110, 117, 109, 98, 101, 114] := Double("9.87654321"), [110, 117, 108, 108] := Null, [83] := Str([115, 116, 114])]), 52)
  {
    assert map[[110, 117, 109, 98, 101, 114] := Double("9.87654321"), [110, 117, 108, 108] := Null][[83] := Str([115, 116, 114])] == map[[110, 117, 109, 98, 101, 114] := Double("9.87654321"), [110, 117, 108, 108] := Null, [83] := Str([115, 116, 114])];
    MixedObjectStep37(s);
    assert Lex(s, 51) == Lexed(ObjectEnd, 52);
    MixedObjectStep36(s);
  }

  lemma MixedObjectStep39(s: string)
    requires s == "{\"nu" + "mber" + "\":9." + "8765" + "4321" + ", \"n" + "ull\"" + ":nul" + "l , " + "\"\\x5" + "3\" :" + " \"st" + "r\" }"
    ensures ParseMembers(s, 36, 1, map[[110, 117, 109, 98, 101, 114] := Double("9.87654321"), [110, 117, 108, 108] := Null], false) == Parsed(Dict(map[[110, 117, 109, 98, 101, 114] := Double("9.87654321"), [110, 117, 108, 108] := Null, [83] := Str([115, 116, 114])]), 52)
  {
    MixedObjectStep27(s);
    MixedObjectStep30(s);
    assert Lex(s, 43) == Lexed(PairSeparator, 44);
    MixedObjectStep31(s);
    MixedObjectStep38(s);
  }

  lemma MixedObjectStep40(s: string)
    requires s == "{\"nu" + "mber" + "\":9." + "8765" + "4321" + ", \"n" + "ull\"" + ":nul" + "l , " + "\"\\x5" + "3\" :" + " \"st" + "r\" }"
    ensures map[[110, 117, 109, 98, 101, 114] := Double("9.87654321")][[110, 117, 108, 108] := Null] == map[[110, 117, 109, 98, 101, 114] := Double("9.87654321"), [110, 117, 108, 108] := Null] && SkipTrivia(s, 33) == 34 && Lex(s, 34) == Lexed(ListSeparator, 35) && SkipTrivia(s, 35) == 36 && Lex(s, 36) == Lexed(StringToken([83]), 42)
  {
    assert map[[110, 117, 109, 98, 101, 114] := Double("9.87654321")][[110, 117, 108, 108] := Null] == map[[110, 117, 109, 98, 101, 114] := Double("9.87654321"), [110, 117, 108, 108] := Null];
    MixedObjectStep23(s);
    assert Lex(s, 34) == Lexed(ListSeparator, 35);
    MixedObjectStep24(s);
    MixedObjectStep27(s);
  }

  lemma MixedObjectStep41(s: string)
    requires s == "{\"nu" + "mber" + "\":9." + "8765" + "4321" + ", \"n" + "ull\"" + ":nul" + "l , " + "\"\\x5" + "3\" :" + " \"st" + "r\" }"
    ensures ParseMemberValue(s, 29, 1, map[[110, 117, 109, 98, 101, 114] := Double("9.87654321")], [110, 117, 108, 108], false) == Parsed(Dict(map[[110, 117, 109, 98, 101, 114] := Double("9.87654321"), [110, 117, 108, 108] := Null, [83] := Str([115, 116, 114])]), 52)
  {
    MixedObjectStep40(s);
    MixedObjectStep22(s);
    MixedObjectStep39(s);
  }

  lemma MixedObjectStep42(s: string)
    requires s == "{\"nu" + "mber" + "\":9." + "8765" + "4321" + ", \"n" + "ull\"" + ":nul" + "l , " + "\"\\x5" + "3\" :" + " \"st" + "r\" }"
    ensures ParseMembers(s, 22, 1, map[[110, 117, 109, 98, 101, 114] := Double("9.87654321")], false) == Parsed(Dict(map[[110, 117, 109, 98, 101, 114] := Double("9.87654321"), [110, 117, 108, 108] := Null, [83] := Str([115, 116, 114])]), 52)
  {
    MixedObjectStep18(s);
    assert SkipTrivia(s, 28) == 28;
    assert Lex(s, 28) == Lexed(PairSeparator, 29);
    assert SkipTrivia(s, 29) == 29;
    MixedObjectStep41(s);
  }

  lemma MixedObjectStep43(s: string)
    requires s == "{\"nu" + "mber" + "\":9." + "8765" + "4321" + ", \"n" + "ull\"" + ":nul" + "l , " + "\"\\x5" + "3\" :" + " \"st" + "r\" }"
    ensures map[][[110, 117, 109, 98, 101, 114] := Double("9.87654321")] == map[[110, 117, 109, 98, 101, 114] := Double("9.87654321")] && SkipTrivia(s, 20) == 20 && Lex(s, 20) == Lexed(ListSeparator, 21) && SkipTrivia(s, 21) == 22 && Lex(s, 22) == Lexed(StringToken([110, 117, 108, 108]), 28)
  {
    assert map[][[110, 117, 109, 98, 101, 114] := Double("9.87654321")] == map[[110, 117, 109, 98, 101, 114] := Double("9.87654321")];
    assert SkipTrivia(s, 20) == 20;
    assert Lex(s, 20) == Lexed(ListSeparator, 21);
    MixedObjectStep14(s);
    MixedObjectStep18(s);
  }

  lemma MixedObjectStep44(s: string)
    requires s == "{\"nu" + "mber" + "\":9." + "8765" + "4321" + ", \"n" + "ull\"" + ":nul" + "l , " + "\"\\x5" + "3\" :" + " \"st" + "r\" }"
    ensures ParseMemberValue(s, 10, 1, map[], [110, 117, 109, 98, 101, 114], false) == Parsed(Dict(map[[110, 117, 109, 98, 101, 114] := Double("9.87654321"), [110, 117, 108, 108] := Null, [83] := Str([115, 116, 114])]), 52)
  {
    MixedObjectStep43(s);
    MixedObjectStep13(s);
    MixedObjectStep42(s);
  }

  lemma MixedObjectStep45(s: string)
    requires s == "{\"nu" + "mber" + "\":9." + "8765" + "4321" + ", \"n" + "ull\"" + ":nul" + "l , " + "\"\\x5" + "3\" :" + " \"st" + "r\" }"
    ensures ParseMembers(s, 1, 1, map[], false) == Parsed(Dict(map[[110, 117, 109, 98, 101, 114] := Double("9.87654321"), [110, 117, 108, 108] := Null, [83] := Str([115, 116, 114])]), 52)
  {
    MixedObjectStep4(s);
    assert SkipTrivia(s, 9) == 9;
    assert Lex(s, 9) == Lexed(PairSeparator, 10);
    assert SkipTrivia(s, 10) == 10;
    MixedObjectStep44(s);
  }

  lemma MixedObjectStep46(s: string)
    requires s == "{\"nu" + "mber" + "\":9." + "8765" + "4321" + ", \"n" + "ull\"" + ":nul" + "l , " + "\"\\x5" + "3\" :" + " \"st" + "r\" }"
    ensures ParseObject(s, 1, 1, false) == Parsed(Dict(map[[110, 117, 109, 98, 101, 114] := Double("9.87654321"), [110, 117, 108, 108] := Null, [83] := Str([115, 116, 114])]), 52)
  {
    assert SkipTrivia(s, 1) == 1;
    MixedObjectStep4(s);
    MixedObjectStep45(s);
  }

  lemma MixedObjectStep47(s: string)
    requires s == "{\"nu" + "mber" + "\":9." + "8765" + "4321" + ", \"n" + "ull\"" + ":nul" + "l , " + "\"\\x5" + "3\" :" + " \"st" + "r\" }"
    ensures ParseValue(s, 0, 0, true, false) == Parsed(Dict(map[[110, 117, 109, 98, 101, 114] := Double("9.87654321"), [110, 117, 108, 108] := Null, [83] := Str([115, 116, 114])]), 52)
  {
    RootDict(s, true, false);
    MixedObjectStep46(s);
  }

  /** The same dictionary with a trailing comma, allowed. */
  lemma MixedObjectTrailing(s: string)
    requires s == "{\"nu" + "mber" + "\":9." + "8765" + "4321" + ", \"n" + "ull\"" + ":nul" + "l , " + "\"\\x5" + "3\" :" + " \"st" + "r\", " + "}"
    ensures Read(s, true) == Some(Dict(map[[110, 117, 109, 98, 101, 114] := Double("9.87654321"), [110, 117, 108, 108] := Null, [83] := Str([115, 116, 114])]))
  {
    assert SkipTrivia(s, 53) == 53;
    assert Lex(s, 53) == Lexed(EndOfInput, 53);
    MixedObjectTrailingStep47(s);
  }

  lemma MixedObjectTrailingStep1(s: string)
    requires s == "{\"nu" + "mber" + "\":9." + "8765" + "4321" + ", \"n" + "ull\"" + ":nul" + "l , " + "\"\\x5" + "3\" :" + " \"st" + "r\", " + "}"
    ensures LexString(s, 1, 5, [110, 117, 109]) == Lexed(StringToken([110, 117, 109, 98, 101, 114]), 9)
  {
    assert [110, 117, 109] + [98] == [110, 117, 109, 98];
    assert [110, 117, 109, 98] + [101] == [110, 117, 109, 98, 101];
    assert [110, 117, 109, 98, 101] + [114] == [110, 117, 109, 98, 101, 114];
    assert LexString(s, 1, 8, [110, 117, 109, 98, 101, 114]) == Lexed(StringToken([110, 117, 109, 98, 101, 114]), 9);
    assert LexString(s, 1, 7, [110, 117, 109, 98, 101]) == Lexed(StringToken([110, 117, 109, 98, 101, 114]), 9);
    assert LexString(s, 1, 6, [110, 117, 109, 98]) == Lexed(StringToken([110, 117, 109, 98, 101, 114]), 9);
  }

  lemma MixedObjectTrailingStep2(s: string)
    requires s == "{\"nu" + "mber" + "\":9." + "8765" + "4321" + ", \"n" + "ull\"" + ":nul" + "l , " + "\"\\x5" + "3\" :" + " \"st" + "r\", " + "}"
    ensures [] + [110] == [110] && [110] + [117] == [110, 117] && [110, 117] + [109] == [110, 117, 109] && LexString(s, 1, 5, [110, 117, 109]) == Lexed(StringToken([110, 117, 109, 98, 101, 114]), 9) && LexString(s, 1, 4, [110, 117]) == Lexed(StringToken([110, 117, 109, 98, 101, 114]), 9)
  {
    assert [] + [110] == [110];
    assert [110] + [117] == [110, 117];
    assert [110, 117] + [109] == [110, 117, 109];
    MixedObjectTrailingStep1(s);
    assert LexString(s, 1, 4, [110, 117]) == Lexed(StringToken([110, 117, 109, 98, 101, 114]), 9);
  }

  lemma MixedObjectTrailingStep3(s: string)
    requires s == "{\"nu" + "mber" + "\":9." + "8765" + "4321" + ", \"n" + "ull\"" + ":nul" + "l , " + "\"\\x5" + "3\" :" + " \"st" + "r\", " + "}"
    ensures LexString(s, 1, 3, [110]) == Lexed(StringToken([110, 117, 109, 98, 101, 114]), 9) && LexString(s, 1, 2, []) == Lexed(StringToken([110, 117, 109, 98, 101, 114]), 9)
  {
    MixedObjectTrailingStep2(s);
    assert LexString(s, 1, 3, [110]) == Lexed(StringToken([110, 117, 109, 98, 101, 114]), 9);
    assert LexString(s, 1, 2, []) == Lexed(StringToken([110, 117, 109, 98, 101, 114]), 9);
  }

  lemma MixedObjectTrailingStep4(s: string)
    requires s == "{\"nu" + "mber" + "\":9." + "8765" + "4321" + ", \"n" + "ull\"" + ":nul" + "l , " + "\"\\x5" + "3\" :" + " \"st" + "r\", " + "}"
    ensures Lex(s, 1) == Lexed(StringToken([110, 117, 109, 98, 101, 114]), 9)
  {
    MixedObjectTrailingStep2(s);
    MixedObjectTrailingStep3(s);
  }

  lemma MixedObjectTrailingStep5(s: string)
    requires s == "{\"nu" + "mber" + "\":9." + "8765" + "4321" + ", \"n" + "ull\"" + ":nul" + "l , " + "\"\\x5" + "3\" :" + " \"st" + "r\", " + "}"
    ensures [] + [110] == [110] && [110] + [117] == [110, 117] && [110, 117] + [109] == [110, 117, 109] && LexString(s, 1, 5, [110, 117, 109]) == Lexed(StringToken([110, 117, 109, 98, 101, 114]), 9) && LexString(s, 1, 4, [110, 117]) == Lexed(StringToken([110, 117, 109, 98, 101, 114]), 9)
  {
    assert [] + [110] == [110];
    assert [110] + [117] == [110, 117];
    assert [110, 117] + [109] == [110, 117, 109];
    MixedObjectTrailingStep1(s);
    assert LexString(s, 1, 4, [110, 117]) == Lexed(StringToken([110, 117, 109, 98, 101, 114]), 9);
  }

  lemma MixedObjectTrailingStep6(s: string)
    requires s == "{\"nu" + "mber" + "\":9." + "8765" + "4321" + ", \"n" + "ull\"" + ":nul" + "l , " + "\"\\x5" + "3\" :" + " \"st" + "r\", " + "}"
    ensures LexString(s, 1, 3, [110]) == Lexed(StringToken([110, 117, 109, 98, 101, 114]), 9) && LexString(s, 1, 2, []) == Lexed(StringToken([110, 117, 109, 98, 101, 114]), 9)
  {
    MixedObjectTrailingStep5(s);
    assert LexString(s, 1, 3, [110]) == Lexed(StringToken([110, 117, 109, 98, 101, 114]), 9);
    assert LexString(s, 1, 2, []) == Lexed(StringToken([110, 117, 109, 98, 101, 114]), 9);
  }

  lemma MixedObjectTrailingStep7(s: string)
    requires s == "{\"nu" + "mber" + "\":9." + "8765" + "4321" + ", \"n" + "ull\"" + ":nul" + "l , " + "\"\\x5" + "3\" :" + " \"st" + "r\", " + "}"
    ensures DigitRunEnd(s, 10) == 11
  {
    assert DigitRunEnd(s, 11) == 11;
  }

  lemma MixedObjectTrailingStep8(s: string)
    requires s == "{\"nu" + "mber" + "\":9." + "8765" + "4321" + ", \"n" + "ull\"" + ":nul" + "l , " + "\"\\x5" + "3\" :" + " \"st" + "r\", " + "}"
    ensures DigitRunEnd(s, 20) == 20
  {
  }

  lemma MixedObjectTrailingStep9(s: string)
    requires s == "{\"nu" + "mber" + "\":9." + "8765" + "4321" + ", \"n" + "ull\"" + ":nul" + "l , " + "\"\\x5" + "3\" :" + " \"st" + "r\", " + "}"
    ensures DigitRunEnd(s, 15) == 20
  {
    MixedObjectTrailingStep8(s);
    assert DigitRunEnd(s, 19) == 20;
    assert DigitRunEnd(s, 18) == 20;
    assert DigitRunEnd(s, 17) == 20;
    assert DigitRunEnd(s, 16) == 20;
  }

  lemma MixedObjectTrailingStep10(s: string)
    requires s == "{\"nu" + "mber" + "\":9." + "8765" + "4321" + ", \"n" + "ull\"" + ":nul" + "l , " + "\"\\x5" + "3\" :" + " \"st" + "r\", " + "}"
    ensures DigitRunEnd(s, 10) == 11 && DigitRunEnd(s, 15) == 20 && DigitRunEnd(s, 14) == 20 && DigitRunEnd(s, 13) == 20 && DigitRunEnd(s, 12) == 20
  {
    MixedObjectTrailingStep7(s);
    MixedObjectTrailingStep9(s);
    assert DigitRunEnd(s, 14) == 20;
    assert DigitRunEnd(s, 13) == 20;
    assert DigitRunEnd(s, 12) == 20;
  }

  lemma MixedObjectTrailingStep11(s: string)
    requires s == "{\"nu" + "mber" + "\":9." + "8765" + "4321" + ", \"n" + "ull\"" + ":nul" + "l , " + "\"\\x5" + "3\" :" + " \"st" + "r\", " + "}"
    ensures ExponentEnd(s, 20) == Some(20) && s[10..20] == "9.87654321" && LexNumber(s, 10) == Lexed(NumberToken("9.87654321"), 20)
  {
    assert s[10..20] == "9.87654321";
    assert s[20] == ',';
    MixedObjectTrailingStep10(s);
    assert ExponentEnd(s, 20) == Some(20);
    assert LexNumber(s, 10) == Lexed(NumberToken("9.87654321"), 20);
  }

  lemma MixedObjectTrailingStep12(s: string)
    requires s == "{\"nu" + "mber" + "\":9." + "8765" + "4321" + ", \"n" + "ull\"" + ":nul" + "l , " + "\"\\x5" + "3\" :" + " \"st" + "r\", " + "}"
    ensures Lex(s, 10) == Lexed(NumberToken("9.87654321"), 20)
  {
    MixedObjectTrailingStep10(s);
    MixedObjectTrailingStep11(s);
  }

  lemma MixedObjectTrailingStep13(s: string)
    requires s == "{\"nu" + "mber" + "\":9." + "8765" + "4321" + ", \"n" + "ull\"" + ":nul" + "l , " + "\"\\x5" + "3\" :" + " \"st" + "r\", " + "}"
    ensures ParseValue(s, 10, 1, false, true) == Parsed(Double("9.87654321"), 20)
  {
    assert s[10] == '9';
    assert SkipTrivia(s, 10) == 10;
    MixedObjectTrailingStep12(s);
    NumberValueAt(s, 10, 1, true, "9.87654321", 20);
    MixedFractionIsDouble();
  }

  lemma MixedObjectTrailingStep14(s: string)
    requires s == "{\"nu" + "mber" + "\":9." + "8765" + "4321" + ", \"n" + "ull\"" + ":nul" + "l , " + "\"\\x5" + "3\" :" + " \"st" + "r\", " + "}"
    ensures SkipTrivia(s, 21) == 22
  {
    assert SkipTrivia(s, 22) == 22;
  }

  lemma MixedObjectTrailingStep15(s: string)
    requires s == "{\"nu" + "mber" + "\":9." + "8765" + "4321" + ", \"n" + "ull\"" + ":nul" + "l , " + "\"\\x5" + "3\" :" + " \"st" + "r\", " + "}"
    ensures LexString(s, 22, 26, [110, 117, 108]) == Lexed(StringToken([110, 117, 108, 108]), 28)
  {
    assert [110, 117, 108] + [108] == [110, 117, 108, 108];
    assert LexString(s, 22, 27, [110, 117, 108, 108]) == Lexed(StringToken([110, 117, 108, 108]), 28);
  }

  lemma MixedObjectTrailingStep16(s: string)
    requires s == "{\"nu" + "mber" + "\":9." + "8765" + "4321" + ", \"n" + "ull\"" + ":nul" + "l , " + "\"\\x5" + "3\" :" + " \"st" + "r\", " + "}"
    ensures [] + [110] == [110] && [110] + [117] == [110, 117] && [110, 117] + [108] == [110, 117, 108] && LexString(s, 22, 26, [110, 117, 108]) == Lexed(StringToken([110, 117, 108, 108]), 28) && LexString(s, 22, 25, [110, 117]) == Lexed(StringToken([110, 117, 108, 108]), 28)
  {
    assert [] + [110] == [110];
    assert [110] + [117] == [110, 117];
    assert [110, 117] + [108] == [110, 117, 108];
    MixedObjectTrailingStep15(s);
    assert LexString(s, 22, 25, [110, 117]) == Lexed(StringToken([110, 117, 108, 108]), 28);
  }

  lemma MixedObjectTrailingStep17(s: string)
    requires s == "{\"nu" + "mber" + "\":9." + "8765" + "4321" + ", \"n" + "ull\"" + ":nul" + "l , " + "\"\\x5" + "3\" :" + " \"st" + "r\", " + "}"
    ensures LexString(s, 22, 24, [110]) == Lexed(StringToken([110, 117, 108, 108]), 28) && LexString(s, 22, 23, []) == Lexed(StringToken([110, 117, 108, 108]), 28)
  {
    MixedObjectTrailingStep16(s);
    assert LexString(s, 22, 24, [110]) == Lexed(StringToken([110, 117, 108, 108]), 28);
    assert LexString(s, 22, 23, []) == Lexed(StringToken([110, 117, 108, 108]), 28);
  }

  lemma MixedObjectTrailingStep18(s: string)
    requires s == "{\"nu" + "mber" + "\":9." + "8765" + "4321" + ", \"n" + "ull\"" + ":nul" + "l , " + "\"\\x5" + "3\" :" + " \"st" + "r\", " + "}"
    ensures Lex(s, 22) == Lexed(StringToken([110, 117, 108, 108]), 28)
  {
    MixedObjectTrailingStep16(s);
    MixedObjectTrailingStep17(s);
  }

  lemma MixedObjectTrailingStep19(s: string)
    requires s == "{\"nu" + "mber" + "\":9." + "8765" + "4321" + ", \"n" + "ull\"" + ":nul" + "l , " + "\"\\x5" + "3\" :" + " \"st" + "r\", " + "}"
    ensures [] + [110] == [110] && [110] + [117] == [110, 117] && [110, 117] + [108] == [110, 117, 108] && LexString(s, 22, 26, [110, 117, 108]) == Lexed(StringToken([110, 117, 108, 108]), 28) && LexString(s, 22, 25, [110, 117]) == Lexed(StringToken([110, 117, 108, 108]), 28)
  {
    assert [] + [110] == [110];
    assert [110] + [117] == [110, 117];
    assert [110, 117] + [108] == [110, 117, 108];
    MixedObjectTrailingStep15(s);
    assert LexString(s, 22, 25, [110, 117]) == Lexed(StringToken([110, 117, 108, 108]), 28);
  }

  lemma MixedObjectTrailingStep20(s: string)
    requires s == "{\"nu" + "mber" + "\":9." + "8765" + "4321" + ", \"n" + "ull\"" + ":nul" + "l , " + "\"\\x5" + "3\" :" + " \"st" + "r\", " + "}"
    ensures LexString(s, 22, 24, [110]) == Lexed(StringToken([110, 117, 108, 108]), 28) && LexString(s, 22, 23, []) == Lexed(StringToken([110, 117, 108, 108]), 28)
  {
    MixedObjectTrailingStep19(s);
    assert LexString(s, 22, 24, [110]) == Lexed(StringToken([110, 117, 108, 108]), 28);
    assert LexString(s, 22, 23, []) == Lexed(StringToken([110, 117, 108, 108]), 28);
  }

  lemma MixedObjectTrailingStep21(s: string)
    requires s == "{\"nu" + "mber" + "\":9." + "8765" + "4321" + ", \"n" + "ull\"" + ":nul" + "l , " + "\"\\x5" + "3\" :" + " \"st" + "r\", " + "}"
    ensures Lex(s, 29) == Lexed(NullToken, 33)
  {
    NullAt(s, 29);
  }

  lemma MixedObjectTrailingStep22(s: string)
    requires s == "{\"nu" + "mber" + "\":9." + "8765" + "4321" + ", \"n" + "ull\"" + ":nul" + "l , " + "\"\\x5" + "3\" :" + " \"st" + "r\", " + "}"
    ensures ParseValue(s, 29, 1, false, true) == Parsed(Null, 33)
  {
    assert SkipTrivia(s, 29) == 29;
    MixedObjectTrailingStep21(s);
  }

  lemma MixedObjectTrailingStep23(s: string)
    requires s == "{\"nu" + "mber" + "\":9." + "8765" + "4321" + ", \"n" + "ull\"" + ":nul" + "l , " + "\"\\x5" + "3\" :" + " \"st" + "r\", " + "}"
    ensures SkipTrivia(s, 33) == 34
  {
    assert SkipTrivia(s, 34) == 34;
  }

  lemma MixedObjectTrailingStep24(s: string)
    requires s == "{\"nu" + "mber" + "\":9." + "8765" + "4321" + ", \"n" + "ull\"" + ":nul" + "l , " + "\"\\x5" + "3\" :" + " \"st" + "r\", " + "}"
    ensures SkipTrivia(s, 35) == 36
  {
    assert SkipTrivia(s, 36) == 36;
  }

  lemma MixedObjectTrailingStep25(s: string)
    requires s == "{\"nu" + "mber" + "\":9." + "8765" + "4321" + ", \"n" + "ull\"" + ":nul" + "l , " + "\"\\x5" + "3\" :" + " \"st" + "r\", " + "}"
    ensures IsHexDigit(At(s, 39)) && IsHexDigit(At(s, 40)) && HexRun(s, 39, 2) && HexNumber(s, 39, 1) == 5 && HexNumber(s, 39, 2) == 83
  {
    assert IsHexDigit(At(s, 39));
    assert IsHexDigit(At(s, 40));
    assert HexRun(s, 39, 2);
    assert HexNumber(s, 39, 1) == 5;
    assert HexNumber(s, 39, 2) == 83;
  }

  lemma MixedObjectTrailingStep26(s: string)
    requires s == "{\"nu" + "mber" + "\":9." + "8765" + "4321" + ", \"n" + "ull\"" + ":nul" + "l , " + "\"\\x5" + "3\" :" + " \"st" + "r\", " + "}"
    ensures [] + [83] == [83] && LexString(s, 36, 41, [83]) == Lexed(StringToken([83]), 42) && LexString(s, 36, 37, []) == Lexed(StringToken([83]), 42)
  {
    MixedObjectTrailingStep25(s);
    assert [] + [83] == [83];
    assert LexString(s, 36, 41, [83]) == Lexed(StringToken([83]), 42);
    assert LexString(s, 36, 37, []) == Lexed(StringToken([83]), 42);
  }

  lemma MixedObjectTrailingStep27(s: string)
    requires s == "{\"nu" + "mber" + "\":9." + "8765" + "4321" + ", \"n" + "ull\"" + ":nul" + "l , " + "\"\\x5" + "3\" :" + " \"st" + "r\", " + "}"
    ensures Lex(s, 36) == Lexed(StringToken([83]), 42)
  {
    MixedObjectTrailingStep25(s);
    MixedObjectTrailingStep26(s);
  }

  lemma MixedObjectTrailingStep28(s: string)
    requires s == "{\"nu" + "mber" + "\":9." + "8765" + "4321" + ", \"n" + "ull\"" + ":nul" + "l , " + "\"\\x5" + "3\" :" + " \"st" + "r\", " + "}"
    ensures IsHexDigit(At(s, 39)) && IsHexDigit(At(s, 40)) && HexRun(s, 39, 2) && HexNumber(s, 39, 1) == 5 && HexNumber(s, 39, 2) == 83
  {
    assert IsHexDigit(At(s, 39));
    assert IsHexDigit(At(s, 40));
    assert HexRun(s, 39, 2);
    assert HexNumber(s, 39, 1) == 5;
    assert HexNumber(s, 39, 2) == 83;
  }

  lemma MixedObjectTrailingStep29(s: string)
    requires s == "{\"nu" + "mber" + "\":9." + "8765" + "4321" + ", \"n" + "ull\"" + ":nul" + "l , " + "\"\\x5" + "3\" :" + " \"st" + "r\", " + "}"
    ensures [] + [83] == [83] && LexString(s, 36, 41, [83]) == Lexed(StringToken([83]), 42) && LexString(s, 36, 37, []) == Lexed(StringToken([83]), 42)
  {
    MixedObjectTrailingStep28(s);
    assert [] + [83] == [83];
    assert LexString(s, 36, 41, [83]) == Lexed(StringToken([83]), 42);
    assert LexString(s, 36, 37, []) == Lexed(StringToken([83]), 42);
  }

  lemma MixedObjectTrailingStep30(s: string)
    requires s == "{\"nu" + "mber" + "\":9." + "8765" + "4321" + ", \"n" + "ull\"" + ":nul" + "l , " + "\"\\x5" + "3\" :" + " \"st" + "r\", " + "}"
    ensures SkipTrivia(s, 42) == 43
  {
    assert SkipTrivia(s, 43) == 43;
  }

  lemma MixedObjectTrailingStep31(s: string)
    requires s == "{\"nu" + "mber" + "\":9." + "8765" + "4321" + ", \"n" + "ull\"" + ":nul" + "l , " + "\"\\x5" + "3\" :" + " \"st" + "r\", " + "}"
    ensures SkipTrivia(s, 44) == 45
  {
    assert SkipTrivia(s, 45) == 45;
  }

  lemma MixedObjectTrailingStep32(s: string)
    requires s == "{\"nu" + "mber" + "\":9." + "8765" + "4321" + ", \"n" + "ull\"" + ":nul" + "l , " + "\"\\x5" + "3\" :" + " \"st" + "r\", " + "}"
    ensures LexString(s, 45, 49, [115, 116, 114]) == Lexed(StringToken([115, 116, 114]), 50)
  {
  }

  lemma MixedObjectTrailingStep33(s: string)
    requires s == "{\"nu" + "mber" + "\":9." + "8765" + "4321" + ", \"n" + "ull\"" + ":nul" + "l , " + "\"\\x5" + "3\" :" + " \"st" + "r\", " + "}"
    ensures [] + [115] == [115] && [115] + [116] == [115, 116] && [115, 116] + [114] == [115, 116, 114] && LexString(s, 45, 49, [115, 116, 114]) == Lexed(StringToken([115, 116, 114]), 50) && LexString(s, 45, 48, [115, 116]) == Lexed(StringToken([115, 116, 114]), 50)
  {
    assert [] + [115] == [115];
    assert [115] + [116] == [115, 116];
    assert [115, 116] + [114] == [115, 116, 114];
    MixedObjectTrailingStep32(s);
    assert LexString(s, 45, 48, [115, 116]) == Lexed(StringToken([115, 116, 114]), 50);
  }

  lemma MixedObjectTrailingStep34(s: string)
    requires s == "{\"nu" + "mber" + "\":9." + "8765" + "4321" + ", \"n" + "ull\"" + ":nul" + "l , " + "\"\\x5" + "3\" :" + " \"st" + "r\", " + "}"
    ensures LexString(s, 45, 47, [115]) == Lexed(StringToken([115, 116, 114]), 50) && LexString(s, 45, 46, []) == Lexed(StringToken([115, 116, 114]), 50)
  {
    MixedObjectTrailingStep33(s);
    assert LexString(s, 45, 47, [115]) == Lexed(StringToken([115, 116, 114]), 50);
    assert LexString(s, 45, 46, []) == Lexed(StringToken([115, 116, 114]), 50);
  }

  lemma MixedObjectTrailingStep35(s: string)
    requires s == "{\"nu" + "mber" + "\":9." + "8765" + "4321" + ", \"n" + "ull\"" + ":nul" + "l , " + "\"\\x5" + "3\" :" + " \"st" + "r\", " + "}"
    ensures Lex(s, 45) == Lexed(StringToken([115, 116, 114]), 50)
  {
    MixedObjectTrailingStep33(s);
    MixedObjectTrailingStep34(s);
  }

  lemma MixedObjectTrailingStep36(s: string)
    requires s == "{\"nu" + "mber" + "\":9." + "8765" + "4321" + ", \"n" + "ull\"" + ":nul" + "l , " + "\"\\x5" + "3\" :" + " \"st" + "r\", " + "}"
    ensures ParseValue(s, 45, 1, false, true) == Parsed(Str([115, 116, 114]), 50)
  {
    assert SkipTrivia(s, 45) == 45;
    MixedObjectTrailingStep35(s);
  }

  lemma MixedObjectTrailingStep37(s: string)
    requires s == "{\"nu" + "mber" + "\":9." + "8765" + "4321" + ", \"n" + "ull\"" + ":nul" + "l , " + "\"\\x5" + "3\" :" + " \"st" + "r\", " + "}"
    ensures SkipTrivia(s, 51) == 52
  {
    assert SkipTrivia(s, 52) == 52;
  }

  lemma MixedObjectTrailingStep38(s: string)
    requires s == "{\"nu" + "mber" + "\":9." + "8765" + "4321" + ", \"n" + "ull\"" + ":nul" + "l , " + "\"\\x5" + "3\" :" + " \"st" + "r\", " + "}"
    ensures ParseMemberValue(s, 45, 1, map[[110, 117, 109, 98, 101, 114] := Double("9.87654321"), [110, 117, 108, 108] := Null], [83], true) == Parsed(Dict(map[[110, 117, 109, 98, 101, 114] := Double("9.87654321"), [110, 117, 108, 108] := Null, [83] := Str([115, 116, 114])]), 53)
  {
    assert map[[110, 117, 109, 98, 101, 114] := Double("9.87654321"), [110, 117, 108, 108] := Null][[83] := Str([115, 116, 114])] == map[[110, 117, 109, 98, 101, 114] := Double("9.87654321"), [110, 117, 108, 108] := Null, [83] := Str([115, 116, 114])];
    assert SkipTrivia(s, 50) == 50;
    assert s[50] == ',';
    assert Lex(s, 50) == Lexed(ListSeparator, 51);
    MixedObjectTrailingStep37(s);
    assert s[52] == '}';
    assert Lex(s, 52) == Lexed(ObjectEnd, 53);
    MixedObjectTrailingStep36(s);
    MemberTrailingCommaCloses(s, 45, 1, map[[110, 117, 109, 98, 101, 114] := Double("9.87654321"), [110, 117, 108, 108] := Null], [83], Str([115, 116, 114]), 50, 50, 52);
  }

  lemma MixedObjectTrailingStep39(s: string)
    requires s == "{\"nu" + "mber" + "\":9." + "8765" + "4321" + ", \"n" + "ull\"" + ":nul" + "l , " + "\"\\x5" + "3\" :" + " \"st" + "r\", " + "}"
    ensures ParseMembers(s, 36, 1, map[[110, 117, 109, 98, 101, 114] := Double("9.87654321"), [110, 117, 108, 108] := Null], true) == Parsed(Dict(map[[110, 117, 109, 98, 101, 114] := Double("9.87654321"), [110, 117, 108, 108] := Null, [83] := Str([115, 116, 114])]), 53)
  {
    MixedObjectTrailingStep27(s);
    MixedObjectTrailingStep30(s);
    assert Lex(s, 43) == Lexed(PairSeparator, 44);
    MixedObjectTrailingStep31(s);
    MixedObjectTrailingStep38(s);
  }

  lemma MixedObjectTrailingStep40(s: string)
    requires s == "{\"nu" + "mber" + "\":9." + "8765" + "4321" + ", \"n" + "ull\"" + ":nul" + "l , " + "\"\\x5" + "3\" :" + " \"st" + "r\", " + "}"
    ensures map[[110, 117, 109, 98, 101, 114] := Double("9.87654321")][[110, 117, 108, 108] := Null] == map[[110, 117, 109, 98, 101, 114] := Double("9.87654321"), [110, 117, 108, 108] := Null] && SkipTrivia(s, 33) == 34 && Lex(s, 34) == Lexed(ListSeparator, 35) && SkipTrivia(s, 35) == 36 && Lex(s, 36) == Lexed(StringToken([83]), 42)
  {
    assert map[[110, 117, 109, 98, 101, 114] := Double("9.87654321")][[110, 117, 108, 108] := Null] == map[[110, 117, 109, 98, 101, 114] := Double("9.87654321"), [110, 117, 108, 108] := Null];
    MixedObjectTrailingStep23(s);
    assert Lex(s, 34) == Lexed(ListSeparator, 35);
    MixedObjectTrailingStep24(s);
    MixedObjectTrailingStep27(s);
  }

  lemma MixedObjectTrailingStep41(s: string)
    requires s == "{\"nu" + "mber" + "\":9." + "8765" + "4321" + ", \"n" + "ull\"" + ":nul" + "l , " + "\"\\x5" + "3\" :" + " \"st" + "r\", " + "}"
    ensures ParseMemberValue(s, 29, 1, map[[110, 117, 109, 98, 101, 114] := Double("9.87654321")], [110, 117, 108, 108], true) == Parsed(Dict(map[[110, 117, 109, 98, 101, 114] := Double("9.87654321"), [110, 117, 108, 108] := Null, [83] := Str([115, 116, 114])]), 53)
  {
    MixedObjectTrailingStep40(s);
    MixedObjectTrailingStep22(s);
    MixedObjectTrailingStep39(s);
  }

  lemma MixedObjectTrailingStep42(s: string)
    requires s == "{\"nu" + "mber" + "\":9." + "8765" + "4321" + ", \"n" + "ull\"" + ":nul" + "l , " + "\"\\x5" + "3\" :" + " \"st" + "r\", " + "}"
    ensures ParseMembers(s, 22, 1, map[[110, 117, 109, 98, 101, 114] := Double("9.87654321")], true) == Parsed(Dict(map[[110, 117, 109, 98, 101, 114] := Double("9.87654321"), [110, 117, 108, 108] := Null, [83] := Str([115, 116, 114])]), 53)
  {
    MixedObjectTrailingStep18(s);
    assert SkipTrivia(s, 28) == 28;
    assert Lex(s, 28) == Lexed(PairSeparator, 29);
    assert SkipTrivia(s, 29) == 29;
    MixedObjectTrailingStep41(s);
  }

  lemma MixedObjectTrailingStep43(s: string)
    requires s == "{\"nu" + "mber" + "\":9." + "8765" + "4321" + ", \"n" + "ull\"" + ":nul" + "l , " + "\"\\x5" + "3\" :" + " \"st" + "r\", " + "}"
    ensures map[][[110, 117, 109, 98, 101, 114] := Double("9.87654321")] == map[[110, 117, 109, 98, 101, 114] := Double("9.87654321")] && SkipTrivia(s, 20) == 20 && Lex(s, 20) == Lexed(ListSeparator, 21) && SkipTrivia(s, 21) == 22 && Lex(s, 22) == Lexed(StringToken([110, 117, 108, 108]), 28)
  {
    assert map[][[110, 117, 109, 98, 101, 114] := Double("9.87654321")] == map[[110, 117, 109, 98, 101, 114] := Double("9.87654321")];
    assert SkipTrivia(s, 20) == 20;
    assert Lex(s, 20) == Lexed(ListSeparator, 21);
    MixedObjectTrailingStep14(s);
    MixedObjectTrailingStep18(s);
  }

  lemma MixedObjectTrailingStep44(s: string)
    requires s == "{\"nu" + "mber" + "\":9." + "8765" + "4321" + ", \"n" + "ull\"" + ":nul" + "l , " + "\"\\x5" + "3\" :" + " \"st" + "r\", " + "}"
    ensures ParseMemberValue(s, 10, 1, map[], [110, 117, 109, 98, 101, 114], true) == Parsed(Dict(map[[110, 117, 109, 98, 101, 114] := Double("9.87654321"), [110, 117, 108, 108] := Null, [83] := Str([115, 116, 114])]), 53)
  {
    MixedObjectTrailingStep43(s);
    MixedObjectTrailingStep13(s);
    MixedObjectTrailingStep42(s);
  }

  lemma MixedObjectTrailingStep45(s: string)
    requires s == "{\"nu" + "mber" + "\":9." + "8765" + "4321" + ", \"n" + "ull\"" + ":nul" + "l , " + "\"\\x5" + "3\" :" + " \"st" + "r\", " + "}"
    ensures ParseMembers(s, 1, 1, map[], true) == Parsed(Dict(map[[110, 117, 109, 98, 101, 114] := Double("9.87654321"), [110, 117, 108, 108] := Null, [83] := Str([115, 116, 114])]), 53)
  {
    MixedObjectTrailingStep4(s);
    assert SkipTrivia(s, 9) == 9;
    assert Lex(s, 9) == Lexed(PairSeparator, 10);
    assert SkipTrivia(s, 10) == 10;
    MixedObjectTrailingStep44(s);
  }

  lemma MixedObjectTrailingStep46(s: string)
    requires s == "{\"nu" + "mber" + "\":9." + "8765" + "4321" + ", \"n" + "ull\"" + ":nul" + "l , " + "\"\\x5" + "3\" :" + " \"st" + "r\", " + "}"
    ensures ParseObject(s, 1, 1, true) == Parsed(Dict(map[[110, 117, 109, 98, 101, 114] := Double("9.87654321"), [110, 117, 108, 108] := Null, [83] := Str([115, 116, 114])]), 53)
  {
    assert SkipTrivia(s, 1) == 1;
    MixedObjectTrailingStep4(s);
    MixedObjectTrailingStep45(s);
  }

  lemma MixedObjectTrailingStep47(s: string)
    requires s == "{\"nu" + "mber" + "\":9." + "8765" + "4321" + ", \"n" + "ull\"" + ":nul" + "l , " + "\"\\x5" + "3\" :" + " \"st" + "r\", " + "}"
    ensures ParseValue(s, 0, 0, true, true) == Parsed(Dict(map[[110, 117, 109, 98, 101, 114] := Double("9.87654321"), [110, 117, 108, 108] := Null, [83] := Str([115, 116, 114])]), 53)
  {
    RootDict(s, true, true);
    MixedObjectTrailingStep46(s);
  }

  /** The same dictionary over lines ending in a line feed. */
  lemma MixedObjectNewlines(s: string)
    requires s == "{\n  " + "\"num" + "ber\"" + ":9.8" + "7654" + "321," + "\n  \"" + "null" + "\":nu" + "ll,\n" + "  \"\\" + "x53\"" + ":\"st" + "r\",\n" + "}\n"
    ensures Read(s, true) == Some(Dict(map[[110, 117, 109, 98, 101, 114] := Double("9.87654321"), [110, 117, 108, 108] := Null, [83] := Str([115, 116, 114])]))
  {
    MixedObjectNewlinesStep49(s);
    assert Lex(s, 58) == Lexed(EndOfInput, 58);
    MixedObjectNewlinesStep48(s);
  }

  lemma MixedObjectNewlinesStep1(s: string)
    requires s == "{\n  " + "\"num" + "ber\"" + ":9.8" + "7654" + "321," + "\n  \"" + "null" + "\":nu" + "ll,\n" + "  \"\\" + "x53\"" + ":\"st" + "r\",\n" + "}\n"
    ensures SkipTrivia(s, 3) == 4
  {
    assert SkipTrivia(s, 4) == 4;
  }

  lemma MixedObjectNewlinesStep2(s: string)
    requires s == "{\n  " + "\"num" + "ber\"" + ":9.8" + "7654" + "321," + "\n  \"" + "null" + "\":nu" + "ll,\n" + "  \"\\" + "x53\"" + ":\"st" + "r\",\n" + "}\n"
    ensures SkipTrivia(s, 2) == 4
  {
    MixedObjectNewlinesStep1(s);
  }

  lemma MixedObjectNewlinesStep3(s: string)
    requires s == "{\n  " + "\"num" + "ber\"" + ":9.8" + "7654" + "321," + "\n  \"" + "null" + "\":nu" + "ll,\n" + "  \"\\" + "x53\"" + ":\"st" + "r\",\n" + "}\n"
    ensures SkipTrivia(s, 1) == 4
  {
    MixedObjectNewlinesStep2(s);
  }

  lemma MixedObjectNewlinesStep4(s: string)
    requires s == "{\n  " + "\"num" + "ber\"" + ":9.8" + "7654" + "321," + "\n  \"" + "null" + "\":nu" + "ll,\n" + "  \"\\" + "x53\"" + ":\"st" + "r\",\n" + "}\n"
    ensures LexString(s, 4, 8, [110, 117, 109]) == Lexed(StringToken([110, 117, 109, 98, 101, 114]), 12)
  {
    assert [110, 117, 109] + [98] == [110, 117, 109, 98];
    assert [110, 117, 109, 98] + [101] == [110, 117, 109, 98, 101];
    assert [110, 117, 109, 98, 101] + [114] == [110, 117, 109, 98, 101, 114];
    assert LexString(s, 4, 11, [110, 117, 109, 98, 101, 114]) == Lexed(StringToken([110, 117, 109, 98, 101, 114]), 12);
    assert LexString(s, 4, 10, [110, 117, 109, 98, 101]) == Lexed(StringToken([110, 117, 109, 98, 101, 114]), 12);
    assert LexString(s, 4, 9, [110, 117, 109, 98]) == Lexed(StringToken([110, 117, 109, 98, 101, 114]), 12);
  }

  lemma MixedObjectNewlinesStep5(s: string)
    requires s == "{\n  " + "\"num" + "ber\"" + ":9.8" + "7654" + "321," + "\n  \"" + "null" + "\":nu" + "ll,\n" + "  \"\\" + "x53\"" + ":\"st" + "r\",\n" + "}\n"
    ensures [] + [110] == [110] && [110] + [117] == [110, 117] && [110, 117] + [109] == [110, 117, 109] && LexString(s, 4, 8, [110, 117, 109]) == Lexed(StringToken([110, 117, 109, 98, 101, 114]), 12) && LexString(s, 4, 7, [110, 117]) == Lexed(StringToken([110, 117, 109, 98, 101, 114]), 12)
  {
    assert [] + [110] == [110];
    assert [110] + [117] == [110, 117];
    assert [110, 117] + [109] == [110, 117, 109];
    MixedObjectNewlinesStep4(s);
    assert LexString(s, 4, 7, [110, 117]) == Lexed(StringToken([110, 117, 109, 98, 101, 114]), 12);
  }

  lemma MixedObjectNewlinesStep6(s: string)
    requires s == "{\n  " + "\"num" + "ber\"" + ":9.8" + "7654" + "321," + "\n  \"" + "null" + "\":nu" + "ll,\n" + "  \"\\" + "x53\"" + ":\"st" + "r\",\n" + "}\n"
    ensures LexString(s, 4, 6, [110]) == Lexed(StringToken([110, 117, 109, 98, 101, 114]), 12) && LexString(s, 4, 5, []) == Lexed(StringToken([110, 117, 109, 98, 101, 114]), 12)
  {
    MixedObjectNewlinesStep5(s);
    assert LexString(s, 4, 6, [110]) == Lexed(StringToken([110, 117, 109, 98, 101, 114]), 12);
    assert LexString(s, 4, 5, []) == Lexed(StringToken([110, 117, 109, 98, 101, 114]), 12);
  }

  lemma MixedObjectNewlinesStep7(s: string)
    requires s == "{\n  " + "\"num" + "ber\"" + ":9.8" + "7654" + "321," + "\n  \"" + "null" + "\":nu" + "ll,\n" + "  \"\\" + "x53\"" + ":\"st" + "r\",\n" + "}\n"
    ensures Lex(s, 4) == Lexed(StringToken([110, 117, 109, 98, 101, 114]), 12)
  {
    MixedObjectNewlinesStep5(s);
    MixedObjectNewlinesStep6(s);
  }

  lemma MixedObjectNewlinesStep8(s: string)
    requires s == "{\n  " + "\"num" + "ber\"" + ":9.8" + "7654" + "321," + "\n  \"" + "null" + "\":nu" + "ll,\n" + "  \"\\" + "x53\"" + ":\"st" + "r\",\n" + "}\n"
    ensures [] + [110] == [110] && [110] + [117] == [110, 117] && [110, 117] + [109] == [110, 117, 109] && LexString(s, 4, 8, [110, 117, 109]) == Lexed(StringToken([110, 117, 109, 98, 101, 114]), 12) && LexString(s, 4, 7, [110, 117]) == Lexed(StringToken([110, 117, 109, 98, 101, 114]), 12)
  {
    assert [] + [110] == [110];
    assert [110] + [117] == [110, 117];
    assert [110, 117] + [109] == [110, 117, 109];
    MixedObjectNewlinesStep4(s);
    assert LexString(s, 4, 7, [110, 117]) == Lexed(StringToken([110, 117, 109, 98, 101, 114]), 12);
  }

  lemma MixedObjectNewlinesStep9(s: string)
    requires s == "{\n  " + "\"num" + "ber\"" + ":9.8" + "7654" + "321," + "\n  \"" + "null" + "\":nu" + "ll,\n" + "  \"\\" + "x53\"" + ":\"st" + "r\",\n" + "}\n"
    ensures LexString(s, 4, 6, [110]) == Lexed(StringToken([110, 117, 109, 98, 101, 114]), 12) && LexString(s, 4, 5, []) == Lexed(StringToken([110, 117, 109, 98, 101, 114]), 12)
  {
    MixedObjectNewlinesStep8(s);
    assert LexString(s, 4, 6, [110]) == Lexed(StringToken([110, 117, 109, 98, 101, 114]), 12);
    assert LexString(s, 4, 5, []) == Lexed(StringToken([110, 117, 109, 98, 101, 114]), 12);
  }

  lemma MixedObjectNewlinesStep10(s: string)
    requires s == "{\n  " + "\"num" + "ber\"" + ":9.8" + "7654" + "321," + "\n  \"" + "null" + "\":nu" + "ll,\n" + "  \"\\" + "x53\"" + ":\"st" + "r\",\n" + "}\n"
    ensures DigitRunEnd(s, 20) == 23
  {
    assert DigitRunEnd(s, 23) == 23;
    assert DigitRunEnd(s, 22) == 23;
    assert DigitRunEnd(s, 21) == 23;
  }

  lemma MixedObjectNewlinesStep11(s: string)
    requires s == "{\n  " + "\"num" + "ber\"" + ":9.8" + "7654" + "321," + "\n  \"" + "null" + "\":nu" + "ll,\n" + "  \"\\" + "x53\"" + ":\"st" + "r\",\n" + "}\n"
    ensures DigitRunEnd(s, 15) == 23
  {
    MixedObjectNewlinesStep10(s);
    assert DigitRunEnd(s, 19) == 23;
    assert DigitRunEnd(s, 18) == 23;
    assert DigitRunEnd(s, 17) == 23;
    assert DigitRunEnd(s, 16) == 23;
  }

  lemma MixedObjectNewlinesStep12(s: string)
    requires s == "{\n  " + "\"num" + "ber\"" + ":9.8" + "7654" + "321," + "\n  \"" + "null" + "\":nu" + "ll,\n" + "  \"\\" + "x53\"" + ":\"st" + "r\",\n" + "}\n"
    ensures Lex(s, 13) == Lexed(NumberToken("9.87654321"), 23)
  {
    assert s[13..23] == "9.87654321";
    assert s[23] == ',';
    assert DigitRunEnd(s, 14) == 14;
    assert DigitRunEnd(s, 13) == 14;
    MixedObjectNewlinesStep11(s);
    assert ExponentEnd(s, 23) == Some(23);
    assert LexNumber(s, 13) == Lexed(NumberToken("9.87654321"), 23);
  }

  lemma MixedObjectNewlinesStep13(s: string)
    requires s == "{\n  " + "\"num" + "ber\"" + ":9.8" + "7654" + "321," + "\n  \"" + "null" + "\":nu" + "ll,\n" + "  \"\\" + "x53\"" + ":\"st" + "r\",\n" + "}\n"
    ensures ParseValue(s, 13, 1, false, true) == Parsed(Double("9.87654321"), 23)
  {
    assert s[13] == '9';
    assert SkipTrivia(s, 13) == 13;
    MixedObjectNewlinesStep12(s);
    NumberValueAt(s, 13, 1, true, "9.87654321", 23);
    MixedFractionIsDouble();
  }

  lemma MixedObjectNewlinesStep14(s: string)
    requires s == "{\n  " + "\"num" + "ber\"" + ":9.8" + "7654" + "321," + "\n  \"" + "null" + "\":nu" + "ll,\n" + "  \"\\" + "x53\"" + ":\"st" + "r\",\n" + "}\n"
    ensures SkipTrivia(s, 26) == 27
  {
    assert SkipTrivia(s, 27) == 27;
  }

  lemma MixedObjectNewlinesStep15(s: string)
    requires s == "{\n  " + "\"num" + "ber\"" + ":9.8" + "7654" + "321," + "\n  \"" + "null" + "\":nu" + "ll,\n" + "  \"\\" + "x53\"" + ":\"st" + "r\",\n" + "}\n"
    ensures SkipTrivia(s, 25) == 27
  {
    MixedObjectNewlinesStep14(s);
  }

  lemma MixedObjectNewlinesStep16(s: string)
    requires s == "{\n  " + "\"num" + "ber\"" + ":9.8" + "7654" + "321," + "\n  \"" + "null" + "\":nu" + "ll,\n" + "  \"\\" + "x53\"" + ":\"st" + "r\",\n" + "}\n"
    ensures SkipTrivia(s, 24) == 27
  {
    MixedObjectNewlinesStep15(s);
  }

  lemma MixedObjectNewlinesStep17(s: string)
    requires s == "{\n  " + "\"num" + "ber\"" + ":9.8" + "7654" + "321," + "\n  \"" + "null" + "\":nu" + "ll,\n" + "  \"\\" + "x53\"" + ":\"st" + "r\",\n" + "}\n"
    ensures LexString(s, 27, 31, [110, 117, 108]) == Lexed(StringToken([110, 117, 108, 108]), 33)
  {
    assert [110, 117, 108] + [108] == [110, 117, 108, 108];
    assert LexString(s, 27, 32, [110, 117, 108, 108]) == Lexed(StringToken([110, 117, 108, 108]), 33);
  }

  lemma MixedObjectNewlinesStep18(s: string)
    requires s == "{\n  " + "\"num" + "ber\"" + ":9.8" + "7654" + "321," + "\n  \"" + "null" + "\":nu" + "ll,\n" + "  \"\\" + "x53\"" + ":\"st" + "r\",\n" + "}\n"
    ensures [] + [110] == [110] && [110] + [117] == [110, 117] && [110, 117] + [108] == [110, 117, 108] && LexString(s, 27, 31, [110, 117, 108]) == Lexed(StringToken([110, 117, 108, 108]), 33) && LexString(s, 27, 30, [110, 117]) == Lexed(StringToken([110, 117, 108, 108]), 33)
  {
    assert [] + [110] == [110];
    assert [110] + [117] == [110, 117];
    assert [110, 117] + [108] == [110, 117, 108];
    MixedObjectNewlinesStep17(s);
    assert LexString(s, 27, 30, [110, 117]) == Lexed(StringToken([110, 117, 108, 108]), 33);
  }

  lemma MixedObjectNewlinesStep19(s: string)
    requires s == "{\n  " + "\"num" + "ber\"" + ":9.8" + "7654" + "321," + "\n  \"" + "null" + "\":nu" + "ll,\n" + "  \"\\" + "x53\"" + ":\"st" + "r\",\n" + "}\n"
    ensures LexString(s, 27, 29, [110]) == Lexed(StringToken([110, 117, 108, 108]), 33) && LexString(s, 27, 28, []) == Lexed(StringToken([110, 117, 108, 108]), 33)
  {
    MixedObjectNewlinesStep18(s);
    assert LexString(s, 27, 29, [110]) == Lexed(StringToken([110, 117, 108, 108]), 33);
    assert LexString(s, 27, 28, []) == Lexed(StringToken([110, 117, 108, 108]), 33);
  }

  lemma MixedObjectNewlinesStep20(s: string)
    requires s == "{\n  " + "\"num" + "ber\"" + ":9.8" + "7654" + "321," + "\n  \"" + "null" + "\":nu" + "ll,\n" + "  \"\\" + "x53\"" + ":\"st" + "r\",\n" + "}\n"
    ensures Lex(s, 27) == Lexed(StringToken([110, 117, 108, 108]), 33)
  {
    MixedObjectNewlinesStep18(s);
    MixedObjectNewlinesStep19(s);
  }

  lemma MixedObjectNewlinesStep21(s: string)
    requires s == "{\n  " + "\"num" + "ber\"" + ":9.8" + "7654" + "321," + "\n  \"" + "null" + "\":nu" + "ll,\n" + "  \"\\" + "x53\"" + ":\"st" + "r\",\n" + "}\n"
    ensures [] + [110] == [110] && [110] + [117] == [110, 117] && [110, 117] + [108] == [110, 117, 108] && LexString(s, 27, 31, [110, 117, 108]) == Lexed(StringToken([110, 117, 108, 108]), 33) && LexString(s, 27, 30, [110, 117]) == Lexed(StringToken([110, 117, 108, 108]), 33)
  {
    assert [] + [110] == [110];
    assert [110] + [117] == [110, 117];
    assert [110, 117] + [108] == [110, 117, 108];
    MixedObjectNewlinesStep17(s);
    assert LexString(s, 27, 30, [110, 117]) == Lexed(StringToken([110, 117, 108, 108]), 33);
  }

  lemma MixedObjectNewlinesStep22(s: string)
    requires s == "{\n  " + "\"num" + "ber\"" + ":9.8" + "7654" + "321," + "\n  \"" + "null" + "\":nu" + "ll,\n" + "  \"\\" + "x53\"" + ":\"st" + "r\",\n" + "}\n"
    ensures LexString(s, 27, 29, [110]) == Lexed(StringToken([110, 117, 108, 108]), 33) && LexString(s, 27, 28, []) == Lexed(StringToken([110, 117, 108, 108]), 33)
  {
    MixedObjectNewlinesStep21(s);
    assert LexString(s, 27, 29, [110]) == Lexed(StringToken([110, 117, 108, 108]), 33);
    assert LexString(s, 27, 28, []) == Lexed(StringToken([110, 117, 108, 108]), 33);
  }

  lemma MixedObjectNewlinesStep23(s: string)
    requires s == "{\n  " + "\"num" + "ber\"" + ":9.8" + "7654" + "321," + "\n  \"" + "null" + "\":nu" + "ll,\n" + "  \"\\" + "x53\"" + ":\"st" + "r\",\n" + "}\n"
    ensures Lex(s, 34) == Lexed(NullToken, 38)
  {
    NullAt(s, 34);
  }

  lemma MixedObjectNewlinesStep24(s: string)
    requires s == "{\n  " + "\"num" + "ber\"" + ":9.8" + "7654" + "321," + "\n  \"" + "null" + "\":nu" + "ll,\n" + "  \"\\" + "x53\"" + ":\"st" + "r\",\n" + "}\n"
    ensures ParseValue(s, 34, 1, false, true) == Parsed(Null, 38)
  {
    assert SkipTrivia(s, 34) == 34;
    MixedObjectNewlinesStep23(s);
  }

  lemma MixedObjectNewlinesStep25(s: string)
    requires s == "{\n  " + "\"num" + "ber\"" + ":9.8" + "7654" + "321," + "\n  \"" + "null" + "\":nu" + "ll,\n" + "  \"\\" + "x53\"" + ":\"st" + "r\",\n" + "}\n"
    ensures SkipTrivia(s, 41) == 42
  {
    assert SkipTrivia(s, 42) == 42;
  }

  lemma MixedObjectNewlinesStep26(s: string)
    requires s == "{\n  " + "\"num" + "ber\"" + ":9.8" + "7654" + "321," + "\n  \"" + "null" + "\":nu" + "ll,\n" + "  \"\\" + "x53\"" + ":\"st" + "r\",\n" + "}\n"
    ensures SkipTrivia(s, 40) == 42
  {
    MixedObjectNewlinesStep25(s);
  }

  lemma MixedObjectNewlinesStep27(s: string)
    requires s == "{\n  " + "\"num" + "ber\"" + ":9.8" + "7654" + "321," + "\n  \"" + "null" + "\":nu" + "ll,\n" + "  \"\\" + "x53\"" + ":\"st" + "r\",\n" + "}\n"
    ensures SkipTrivia(s, 39) == 42
  {
    MixedObjectNewlinesStep26(s);
  }

  lemma MixedObjectNewlinesStep28(s: string)
    requires s == "{\n  " + "\"num" + "ber\"" + ":9.8" + "7654" + "321," + "\n  \"" + "null" + "\":nu" + "ll,\n" + "  \"\\" + "x53\"" + ":\"st" + "r\",\n" + "}\n"
    ensures IsHexDigit(At(s, 45)) && IsHexDigit(At(s, 46)) && HexRun(s, 45, 2) && HexNumber(s, 45, 1) == 5 && HexNumber(s, 45, 2) == 83
  {
    assert IsHexDigit(At(s, 45));
    assert IsHexDigit(At(s, 46));
    assert HexRun(s, 45, 2);
    assert HexNumber(s, 45, 1) == 5;
    assert HexNumber(s, 45, 2) == 83;
  }

  lemma MixedObjectNewlinesStep29(s: string)
    requires s == "{\n  " + "\"num" + "ber\"" + ":9.8" + "7654" + "321," + "\n  \"" + "null" + "\":nu" + "ll,\n" + "  \"\\" + "x53\"" + ":\"st" + "r\",\n" + "}\n"
    ensures [] + [83] == [83] && LexString(s, 42, 47, [83]) == Lexed(StringToken([83]), 48) && LexString(s, 42, 43, []) == Lexed(StringToken([83]), 48)
  {
    MixedObjectNewlinesStep28(s);
    assert [] + [83] == [83];
    assert LexString(s, 42, 47, [83]) == Lexed(StringToken([83]), 48);
    assert LexString(s, 42, 43, []) == Lexed(StringToken([83]), 48);
  }

  lemma MixedObjectNewlinesStep30(s: string)
    requires s == "{\n  " + "\"num" + "ber\"" + ":9.8" + "7654" + "321," + "\n  \"" + "null" + "\":nu" + "ll,\n" + "  \"\\" + "x53\"" + ":\"st" + "r\",\n" + "}\n"
    ensures Lex(s, 42) == Lexed(StringToken([83]), 48)
  {
    MixedObjectNewlinesStep28(s);
    MixedObjectNewlinesStep29(s);
  }

  lemma MixedObjectNewlinesStep31(s: string)
    requires s == "{\n  " + "\"num" + "ber\"" + ":9.8" + "7654" + "321," + "\n  \"" + "null" + "\":nu" + "ll,\n" + "  \"\\" + "x53\"" + ":\"st" + "r\",\n" + "}\n"
    ensures IsHexDigit(At(s, 45)) && IsHexDigit(At(s, 46)) && HexRun(s, 45, 2) && HexNumber(s, 45, 1) == 5 && HexNumber(s, 45, 2) == 83
  {
    assert IsHexDigit(At(s, 45));
    assert IsHexDigit(At(s, 46));
    assert HexRun(s, 45, 2);
    assert HexNumber(s, 45, 1) == 5;
    assert HexNumber(s, 45, 2) == 83;
  }

  lemma MixedObjectNewlinesStep32(s: string)
    requires s == "{\n  " + "\"num" + "ber\"" + ":9.8" + "7654" + "321," + "\n  \"" + "null" + "\":nu" + "ll,\n" + "  \"\\" + "x53\"" + ":\"st" + "r\",\n" + "}\n"
    ensures [] + [83] == [83] && LexString(s, 42, 47, [83]) == Lexed(StringToken([83]), 48) && LexString(s, 42, 43, []) == Lexed(StringToken([83]), 48)
  {
    MixedObjectNewlinesStep31(s);
    assert [] + [83] == [83];
    assert LexString(s, 42, 47, [83]) == Lexed(StringToken([83]), 48);
    assert LexString(s, 42, 43, []) == Lexed(StringToken([83]), 48);
  }

  lemma MixedObjectNewlinesStep33(s: string)
    requires s == "{\n  " + "\"num" + "ber\"" + ":9.8" + "7654" + "321," + "\n  \"" + "null" + "\":nu" + "ll,\n" + "  \"\\" + "x53\"" + ":\"st" + "r\",\n" + "}\n"
    ensures LexString(s, 49, 53, [115, 116, 114]) == Lexed(StringToken([115, 116, 114]), 54)
  {
  }

  lemma MixedObjectNewlinesStep34(s: string)
    requires s == "{\n  " + "\"num" + "ber\"" + ":9.8" + "7654" + "321," + "\n  \"" + "null" + "\":nu" + "ll,\n" + "  \"\\" + "x53\"" + ":\"st" + "r\",\n" + "}\n"
    ensures [] + [115] == [115] && [115] + [116] == [115, 116] && [115, 116] + [114] == [115, 116, 114] && LexString(s, 49, 53, [115, 116, 114]) == Lexed(StringToken([115, 116, 114]), 54) && LexString(s, 49, 52, [115, 116]) == Lexed(StringToken([115, 116, 114]), 54)
  {
    assert [] + [115] == [115];
    assert [115] + [116] == [115, 116];
    assert [115, 116] + [114] == [115, 116, 114];
    MixedObjectNewlinesStep33(s);
    assert LexString(s, 49, 52, [115, 116]) == Lexed(StringToken([115, 116, 114]), 54);
  }

  lemma MixedObjectNewlinesStep35(s: string)
    requires s == "{\n  " + "\"num" + "ber\"" + ":9.8" + "7654" + "321," + "\n  \"" + "null" + "\":nu" + "ll,\n" + "  \"\\" + "x53\"" + ":\"st" + "r\",\n" + "}\n"
    ensures LexString(s, 49, 51, [115]) == Lexed(StringToken([115, 116, 114]), 54) && LexString(s, 49, 50, []) == Lexed(StringToken([115, 116, 114]), 54)
  {
    MixedObjectNewlinesStep34(s);
    assert LexString(s, 49, 51, [115]) == Lexed(StringToken([115, 116, 114]), 54);
    assert LexString(s, 49, 50, []) == Lexed(StringToken([115, 116, 114]), 54);
  }

  lemma MixedObjectNewlinesStep36(s: string)
    requires s == "{\n  " + "\"num" + "ber\"" + ":9.8" + "7654" + "321," + "\n  \"" + "null" + "\":nu" + "ll,\n" + "  \"\\" + "x53\"" + ":\"st" + "r\",\n" + "}\n"
    ensures Lex(s, 49) == Lexed(StringToken([115, 116, 114]), 54)
  {
    MixedObjectNewlinesStep34(s);
    MixedObjectNewlinesStep35(s);
  }

  lemma MixedObjectNewlinesStep37(s: string)
    requires s == "{\n  " + "\"num" + "ber\"" + ":9.8" + "7654" + "321," + "\n  \"" + "null" + "\":nu" + "ll,\n" + "  \"\\" + "x53\"" + ":\"st" + "r\",\n" + "}\n"
    ensures ParseValue(s, 49, 1, false, true) == Parsed(Str([115, 116, 114]), 54)
  {
    assert SkipTrivia(s, 49) == 49;
    MixedObjectNewlinesStep36(s);
  }

  lemma MixedObjectNewlinesStep38(s: string)
    requires s == "{\n  " + "\"num" + "ber\"" + ":9.8" + "7654" + "321," + "\n  \"" + "null" + "\":nu" + "ll,\n" + "  \"\\" + "x53\"" + ":\"st" + "r\",\n" + "}\n"
    ensures SkipTrivia(s, 55) == 56
  {
    assert SkipTrivia(s, 56) == 56;
  }

  lemma MixedObjectNewlinesStep39(s: string)
    requires s == "{\n  " + "\"num" + "ber\"" + ":9.8" + "7654" + "321," + "\n  \"" + "null" + "\":nu" + "ll,\n" + "  \"\\" + "x53\"" + ":\"st" + "r\",\n" + "}\n"
    ensures ParseMemberValue(s, 49, 1, map[[110, 117, 109, 98, 101, 114] := Double("9.87654321"), [110, 117, 108, 108] := Null], [83], true) == Parsed(Dict(map[[110, 117, 109, 98, 101, 114] := Double("9.87654321"), [110, 117, 108, 108] := Null, [83] := Str([115, 116, 114])]), 57)
  {
    assert map[[110, 117, 109, 98, 101, 114] := Double("9.87654321"), [110, 117, 108, 108] := Null][[83] := Str([115, 116, 114])] == map[[110, 117, 109, 98, 101, 114] := Double("9.87654321"), [110, 117, 108, 108] := Null, [83] := Str([115, 116, 114])];
    assert SkipTrivia(s, 54) == 54;
    assert s[54] == ',';
    assert Lex(s, 54) == Lexed(ListSeparator, 55);
    MixedObjectNewlinesStep38(s);
    assert s[56] == '}';
    assert Lex(s, 56) == Lexed(ObjectEnd, 57);
    MixedObjectNewlinesStep37(s);
    MemberTrailingCommaCloses(s, 49, 1, map[[110, 117, 109, 98, 101, 114] := Double("9.87654321"), [110, 117, 108, 108] := Null], [83], Str([115, 116, 114]), 54, 54, 56);
  }

  lemma MixedObjectNewlinesStep40(s: string)
    requires s == "{\n  " + "\"num" + "ber\"" + ":9.8" + "7654" + "321," + "\n  \"" + "null" + "\":nu" + "ll,\n" + "  \"\\" + "x53\"" + ":\"st" + "r\",\n" + "}\n"
    ensures ParseMembers(s, 42, 1, map[[110, 117, 109, 98, 101, 114] := Double("9.87654321"), [110, 117, 108, 108] := Null], true) == Parsed(Dict(map[[110, 117, 109, 98, 101, 114] := Double("9.87654321"), [110, 117, 108, 108] := Null, [83] := Str([115, 116, 114])]), 57)
  {
    MixedObjectNewlinesStep30(s);
    assert SkipTrivia(s, 48) == 48;
    assert Lex(s, 48) == Lexed(PairSeparator, 49);
    assert SkipTrivia(s, 49) == 49;
    MixedObjectNewlinesStep39(s);
  }

  lemma MixedObjectNewlinesStep41(s: string)
    requires s == "{\n  " + "\"num" + "ber\"" + ":9.8" + "7654" + "321," + "\n  \"" + "null" + "\":nu" + "ll,\n" + "  \"\\" + "x53\"" + ":\"st" + "r\",\n" + "}\n"
    ensures map[[110, 117, 109, 98, 101, 114] := Double("9.87654321")][[110, 117, 108, 108] := Null] == map[[110, 117, 109, 98, 101, 114] := Double("9.87654321"), [110, 117, 108, 108] := Null] && SkipTrivia(s, 38) == 38 && Lex(s, 38) == Lexed(ListSeparator, 39) && SkipTrivia(s, 39) == 42 && Lex(s, 42) == Lexed(StringToken([83]), 48)
  {
    assert map[[110, 117, 109, 98, 101, 114] := Double("9.87654321")][[110, 117, 108, 108] := Null] == map[[110, 117, 109, 98, 101, 114] := Double("9.87654321"), [110, 117, 108, 108] := Null];
    assert SkipTrivia(s, 38) == 38;
    assert Lex(s, 38) == Lexed(ListSeparator, 39);
    MixedObjectNewlinesStep27(s);
    MixedObjectNewlinesStep30(s);
  }

  lemma MixedObjectNewlinesStep42(s: string)
    requires s == "{\n  " + "\"num" + "ber\"" + ":9.8" + "7654" + "321," + "\n  \"" + "null" + "\":nu" + "ll,\n" + "  \"\\" + "x53\"" + ":\"st" + "r\",\n" + "}\n"
    ensures ParseMemberValue(s, 34, 1, map[[110, 117, 109, 98, 101, 114] := Double("9.87654321")], [110, 117, 108, 108], true) == Parsed(Dict(map[[110, 117, 109, 98, 101, 114] := Double("9.87654321"), [110, 117, 108, 108] := Null, [83] := Str([115, 116, 114])]), 57)
  {
    MixedObjectNewlinesStep41(s);
    MixedObjectNewlinesStep24(s);
    MixedObjectNewlinesStep40(s);
  }

  lemma MixedObjectNewlinesStep43(s: string)
    requires s == "{\n  " + "\"num" + "ber\"" + ":9.8" + "7654" + "321," + "\n  \"" + "null" + "\":nu" + "ll,\n" + "  \"\\" + "x53\"" + ":\"st" + "r\",\n" + "}\n"
    ensures ParseMembers(s, 27, 1, map[[110, 117, 109, 98, 101, 114] := Double("9.87654321")], true) == Parsed(Dict(map[[110, 117, 109, 98, 101, 114] := Double("9.87654321"), [110, 117, 108, 108] := Null, [83] := Str([115, 116, 114])]), 57)
  {
    MixedObjectNewlinesStep20(s);
    assert SkipTrivia(s, 33) == 33;
    assert Lex(s, 33) == Lexed(PairSeparator, 34);
    assert SkipTrivia(s, 34) == 34;
    MixedObjectNewlinesStep42(s);
  }

  lemma MixedObjectNewlinesStep44(s: string)
    requires s == "{\n  " + "\"num" + "ber\"" + ":9.8" + "7654" + "321," + "\n  \"" + "null" + "\":nu" + "ll,\n" + "  \"\\" + "x53\"" + ":\"st" + "r\",\n" + "}\n"
    ensures map[][[110, 117, 109, 98, 101, 114] := Double("9.87654321")] == map[[110, 117, 109, 98, 101, 114] := Double("9.87654321")] && SkipTrivia(s, 23) == 23 && Lex(s, 23) == Lexed(ListSeparator, 24) && SkipTrivia(s, 24) == 27 && Lex(s, 27) == Lexed(StringToken([110, 117, 108, 108]), 33)
  {
    assert map[][[110, 117, 109, 98, 101, 114] := Double("9.87654321")] == map[[110, 117, 109, 98, 101, 114] := Double("9.87654321")];
    assert SkipTrivia(s, 23) == 23;
    assert Lex(s, 23) == Lexed(ListSeparator, 24);
    MixedObjectNewlinesStep16(s);
    MixedObjectNewlinesStep20(s);
  }

  lemma MixedObjectNewlinesStep45(s: string)
    requires s == "{\n  " + "\"num" + "ber\"" + ":9.8" + "7654" + "321," + "\n  \"" + "null" + "\":nu" + "ll,\n" + "  \"\\" + "x53\"" + ":\"st" + "r\",\n" + "}\n"
    ensures ParseMemberValue(s, 13, 1, map[], [110, 117, 109, 98, 101, 114], true) == Parsed(Dict(map[[110, 117, 109, 98, 101, 114] := Double("9.87654321"), [110, 117, 108, 108] := Null, [83] := Str([115, 116, 114])]), 57)
  {
    MixedObjectNewlinesStep44(s);
    MixedObjectNewlinesStep13(s);
    MixedObjectNewlinesStep43(s);
  }

  lemma MixedObjectNewlinesStep46(s: string)
    requires s == "{\n  " + "\"num" + "ber\"" + ":9.8" + "7654" + "321," + "\n  \"" + "null" + "\":nu" + "ll,\n" + "  \"\\" + "x53\"" + ":\"st" + "r\",\n" + "}\n"
    ensures ParseMembers(s, 4, 1, map[], true) == Parsed(Dict(map[[110, 117, 109, 98, 101, 114] := Double("9.87654321"), [110, 117, 108, 108] := Null, [83] := Str([115, 116, 114])]), 57)
  {
    MixedObjectNewlinesStep7(s);
    assert SkipTrivia(s, 12) == 12;
    assert Lex(s, 12) == Lexed(PairSeparator, 13);
    assert SkipTrivia(s, 13) == 13;
    MixedObjectNewlinesStep45(s);
  }

  lemma MixedObjectNewlinesStep47(s: string)
    requires s == "{\n  " + "\"num" + "ber\"" + ":9.8" + "7654" + "321," + "\n  \"" + "null" + "\":nu" + "ll,\n" + "  \"\\" + "x53\"" + ":\"st" + "r\",\n" + "}\n"
    ensures ParseObject(s, 1, 1, true) == Parsed(Dict(map[[110, 117, 109, 98, 101, 114] := Double("9.87654321"), [110, 117, 108, 108] := Null, [83] := Str([115, 116, 114])]), 57)
  {
    MixedObjectNewlinesStep3(s);
    MixedObjectNewlinesStep7(s);
    MixedObjectNewlinesStep46(s);
  }

  lemma MixedObjectNewlinesStep48(s: string)
    requires s == "{\n  " + "\"num" + "ber\"" + ":9.8" + "7654" + "321," + "\n  \"" + "null" + "\":nu" + "ll,\n" + "  \"\\" + "x53\"" + ":\"st" + "r\",\n" + "}\n"
    ensures ParseValue(s, 0, 0, true, true) == Parsed(Dict(map[[110, 117, 109, 98, 101, 114] := Double("9.87654321"), [110, 117, 108, 108] := Null, [83] := Str([115, 116, 114])]), 57)
  {
    RootDict(s, true, true);
    MixedObjectNewlinesStep47(s);
  }

  lemma MixedObjectNewlinesStep49(s: string)
    requires s == "{\n  " + "\"num" + "ber\"" + ":9.8" + "7654" + "321," + "\n  \"" + "null" + "\":nu" + "ll,\n" + "  \"\\" + "x53\"" + ":\"st" + "r\",\n" + "}\n"
    ensures SkipTrivia(s, 57) == 58
  {
    assert SkipTrivia(s, 58) == 58;
  }

  /** The same dictionary over lines ending in a carriage return and a line feed. */
  lemma MixedObjectCrlf(s: string)
    requires s == "{\r\n " + " \"nu" + "mber" + "\":9." + "8765" + "4321" + ",\r\n " + " \"nu" + "ll\":" + "null" + ",\r\n " + " \"\\x" + "53\":" + "\"str" + "\",\r\n" + "}\r\n"
    ensures Read(s, true) == Some(Dict(map[[110, 117, 109, 98, 101, 114] := Double("9.87654321"), [110, 117, 108, 108] := Null, [83] := Str([115, 116, 114])]))
  {
    MixedObjectCrlfStep56(s);
    assert Lex(s, 63) == Lexed(EndOfInput, 63);
    MixedObjectCrlfStep54(s);
  }

  lemma MixedObjectCrlfStep1(s: string)
    requires s == "{\r\n " + " \"nu" + "mber" + "\":9." + "8765" + "4321" + ",\r\n " + " \"nu" + "ll\":" + "null" + ",\r\n " + " \"\\x" + "53\":" + "\"str" + "\",\r\n" + "}\r\n"
    ensures SkipTrivia(s, 4) == 5
  {
    assert SkipTrivia(s, 5) == 5;
  }

  lemma MixedObjectCrlfStep2(s: string)
    requires s == "{\r\n " + " \"nu" + "mber" + "\":9." + "8765" + "4321" + ",\r\n " + " \"nu" + "ll\":" + "null" + ",\r\n " + " \"\\x" + "53\":" + "\"str" + "\",\r\n" + "}\r\n"
    ensures SkipTrivia(s, 3) == 5
  {
    MixedObjectCrlfStep1(s);
  }

  lemma MixedObjectCrlfStep3(s: string)
    requires s == "{\r\n " + " \"nu" + "mber" + "\":9." + "8765" + "4321" + ",\r\n " + " \"nu" + "ll\":" + "null" + ",\r\n " + " \"\\x" + "53\":" + "\"str" + "\",\r\n" + "}\r\n"
    ensures SkipTrivia(s, 2) == 5
  {
    MixedObjectCrlfStep2(s);
  }

  lemma MixedObjectCrlfStep4(s: string)
    requires s == "{\r\n " + " \"nu" + "mber" + "\":9." + "8765" + "4321" + ",\r\n " + " \"nu" + "ll\":" + "null" + ",\r\n " + " \"\\x" + "53\":" + "\"str" + "\",\r\n" + "}\r\n"
    ensures SkipTrivia(s, 1) == 5
  {
    MixedObjectCrlfStep3(s);
  }

  lemma MixedObjectCrlfStep5(s: string)
    requires s == "{\r\n " + " \"nu" + "mber" + "\":9." + "8765" + "4321" + ",\r\n " + " \"nu" + "ll\":" + "null" + ",\r\n " + " \"\\x" + "53\":" + "\"str" + "\",\r\n" + "}\r\n"
    ensures LexString(s, 5, 9, [110, 117, 109]) == Lexed(StringToken([110, 117, 109, 98, 101, 114]), 13)
  {
    assert [110, 117, 109] + [98] == [110, 117, 109, 98];
    assert [110, 117, 109, 98] + [101] == [110, 117, 109, 98, 101];
    assert [110, 117, 109, 98, 101] + [114] == [110, 117, 109, 98, 101, 114];
    assert LexString(s, 5, 12, [110, 117, 109, 98, 101, 114]) == Lexed(StringToken([110, 117, 109, 98, 101, 114]), 13);
    assert LexString(s, 5, 11, [110, 117, 109, 98, 101]) == Lexed(StringToken([110, 117, 109, 98, 101, 114]), 13);
    assert LexString(s, 5, 10, [110, 117, 109, 98]) == Lexed(StringToken([110, 117, 109, 98, 101, 114]), 13);
  }

  lemma MixedObjectCrlfStep6(s: string)
    requires s == "{\r\n " + " \"nu" + "mber" + "\":9." + "8765" + "4321" + ",\r\n " + " \"nu" + "ll\":" + "null" + ",\r\n " + " \"\\x" + "53\":" + "\"str" + "\",\r\n" + "}\r\n"
    ensures [] + [110] == [110] && [110] + [117] == [110, 117] && [110, 117] + [109] == [110, 117, 109] && LexString(s, 5, 9, [110, 117, 109]) == Lexed(StringToken([110, 117, 109, 98, 101, 114]), 13) && LexString(s, 5, 8, [110, 117]) == Lexed(StringToken([110, 117, 109, 98, 101, 114]), 13)
  {
    assert [] + [110] == [110];
    assert [110] + [117] == [110, 117];
    assert [110, 117] + [109] == [110, 117, 109];
    MixedObjectCrlfStep5(s);
    assert LexString(s, 5, 8, [110, 117]) == Lexed(StringToken([110, 117, 109, 98, 101, 114]), 13);
  }

  lemma MixedObjectCrlfStep7(s: string)
    requires s == "{\r\n " + " \"nu" + "mber" + "\":9." + "8765" + "4321" + ",\r\n " + " \"nu" + "ll\":" + "null" + ",\r\n " + " \"\\x" + "53\":" + "\"str" + "\",\r\n" + "}\r\n"
    ensures LexString(s, 5, 7, [110]) == Lexed(StringToken([110, 117, 109, 98, 101, 114]), 13) && LexString(s, 5, 6, []) == Lexed(StringToken([110, 117, 109, 98, 101, 114]), 13)
  {
    MixedObjectCrlfStep6(s);
    assert LexString(s, 5, 7, [110]) == Lexed(StringToken([110, 117, 109, 98, 101, 114]), 13);
    assert LexString(s, 5, 6, []) == Lexed(StringToken([110, 117, 109, 98, 101, 114]), 13);
  }

  lemma MixedObjectCrlfStep8(s: string)
    requires s == "{\r\n " + " \"nu" + "mber" + "\":9." + "8765" + "4321" + ",\r\n " + " \"nu" + "ll\":" + "null" + ",\r\n " + " \"\\x" + "53\":" + "\"str" + "\",\r\n" + "}\r\n"
    ensures Lex(s, 5) == Lexed(StringToken([110, 117, 109, 98, 101, 114]), 13)
  {
    MixedObjectCrlfStep6(s);
    MixedObjectCrlfStep7(s);
  }

  lemma MixedObjectCrlfStep9(s: string)
    requires s == "{\r\n " + " \"nu" + "mber" + "\":9." + "8765" + "4321" + ",\r\n " + " \"nu" + "ll\":" + "null" + ",\r\n " + " \"\\x" + "53\":" + "\"str" + "\",\r\n" + "}\r\n"
    ensures [] + [110] == [110] && [110] + [117] == [110, 117] && [110, 117] + [109] == [110, 117, 109] && LexString(s, 5, 9, [110, 117, 109]) == Lexed(StringToken([110, 117, 109, 98, 101, 114]), 13) && LexString(s, 5, 8, [110, 117]) == Lexed(StringToken([110, 117, 109, 98, 101, 114]), 13)
  {
    assert [] + [110] == [110];
    assert [110] + [117] == [110, 117];
    assert [110, 117] + [109] == [110, 117, 109];
    MixedObjectCrlfStep5(s);
    assert LexString(s, 5, 8, [110, 117]) == Lexed(StringToken([110, 117, 109, 98, 101, 114]), 13);
  }

  lemma MixedObjectCrlfStep10(s: string)
    requires s == "{\r\n " + " \"nu" + "mber" + "\":9." + "8765" + "4321" + ",\r\n " + " \"nu" + "ll\":" + "null" + ",\r\n " + " \"\\x" + "53\":" + "\"str" + "\",\r\n" + "}\r\n"
    ensures LexString(s, 5, 7, [110]) == Lexed(StringToken([110, 117, 109, 98, 101, 114]), 13) && LexString(s, 5, 6, []) == Lexed(StringToken([110, 117, 109, 98, 101, 114]), 13)
  {
    MixedObjectCrlfStep9(s);
    assert LexString(s, 5, 7, [110]) == Lexed(StringToken([110, 117, 109, 98, 101, 114]), 13);
    assert LexString(s, 5, 6, []) == Lexed(StringToken([110, 117, 109, 98, 101, 114]), 13);
  }

  lemma MixedObjectCrlfStep11(s: string)
    requires s == "{\r\n " + " \"nu" + "mber" + "\":9." + "8765" + "4321" + ",\r\n " + " \"nu" + "ll\":" + "null" + ",\r\n " + " \"\\x" + "53\":" + "\"str" + "\",\r\n" + "}\r\n"
    ensures DigitRunEnd(s, 15) == 15
  {
  }

  lemma MixedObjectCrlfStep12(s: string)
    requires s == "{\r\n " + " \"nu" + "mber" + "\":9." + "8765" + "4321" + ",\r\n " + " \"nu" + "ll\":" + "null" + ",\r\n " + " \"\\x" + "53\":" + "\"str" + "\",\r\n" + "}\r\n"
    ensures DigitRunEnd(s, 20) == 24
  {
    assert DigitRunEnd(s, 24) == 24;
    assert DigitRunEnd(s, 23) == 24;
    assert DigitRunEnd(s, 22) == 24;
    assert DigitRunEnd(s, 21) == 24;
  }

  lemma MixedObjectCrlfStep13(s: string)
    requires s == "{\r\n " + " \"nu" + "mber" + "\":9." + "8765" + "4321" + ",\r\n " + " \"nu" + "ll\":" + "null" + ",\r\n " + " \"\\x" + "53\":" + "\"str" + "\",\r\n" + "}\r\n"
    ensures DigitRunEnd(s, 15) == 15 && DigitRunEnd(s, 14) == 15 && DigitRunEnd(s, 20) == 24 && DigitRunEnd(s, 19) == 24 && DigitRunEnd(s, 18) == 24
  {
    MixedObjectCrlfStep11(s);
    assert DigitRunEnd(s, 14) == 15;
    MixedObjectCrlfStep12(s);
    assert DigitRunEnd(s, 19) == 24;
    assert DigitRunEnd(s, 18) == 24;
  }

  lemma MixedObjectCrlfStep14(s: string)
    requires s == "{\r\n " + " \"nu" + "mber" + "\":9." + "8765" + "4321" + ",\r\n " + " \"nu" + "ll\":" + "null" + ",\r\n " + " \"\\x" + "53\":" + "\"str" + "\",\r\n" + "}\r\n"
    ensures DigitRunEnd(s, 17) == 24 && DigitRunEnd(s, 16) == 24 && ExponentEnd(s, 24) == Some(24) && s[14..24] == "9.87654321" && LexNumber(s, 14) == Lexed(NumberToken("9.87654321"), 24)
  {
    assert s[14..24] == "9.87654321";
    assert s[24] == ',';
    MixedObjectCrlfStep13(s);
    assert DigitRunEnd(s, 17) == 24;
    assert DigitRunEnd(s, 16) == 24;
    assert ExponentEnd(s, 24) == Some(24);
    assert LexNumber(s, 14) == Lexed(NumberToken("9.87654321"), 24);
  }

  lemma MixedObjectCrlfStep15(s: string)
    requires s == "{\r\n " + " \"nu" + "mber" + "\":9." + "8765" + "4321" + ",\r\n " + " \"nu" + "ll\":" + "null" + ",\r\n " + " \"\\x" + "53\":" + "\"str" + "\",\r\n" + "}\r\n"
    ensures Lex(s, 14) == Lexed(NumberToken("9.87654321"), 24)
  {
    MixedObjectCrlfStep13(s);
    MixedObjectCrlfStep14(s);
  }

  lemma MixedObjectCrlfStep16(s: string)
    requires s == "{\r\n " + " \"nu" + "mber" + "\":9." + "8765" + "4321" + ",\r\n " + " \"nu" + "ll\":" + "null" + ",\r\n " + " \"\\x" + "53\":" + "\"str" + "\",\r\n" + "}\r\n"
    ensures ParseValue(s, 14, 1, false, true) == Parsed(Double("9.87654321"), 24)
  {
    assert s[14] == '9';
    assert SkipTrivia(s, 14) == 14;
    MixedObjectCrlfStep15(s);
    NumberValueAt(s, 14, 1, true, "9.87654321", 24);
    MixedFractionIsDouble();
  }

  lemma MixedObjectCrlfStep17(s: string)
    requires s == "{\r\n " + " \"nu" + "mber" + "\":9." + "8765" + "4321" + ",\r\n " + " \"nu" + "ll\":" + "null" + ",\r\n " + " \"\\x" + "53\":" + "\"str" + "\",\r\n" + "}\r\n"
    ensures SkipTrivia(s, 28) == 29
  {
    assert SkipTrivia(s, 29) == 29;
  }

  lemma MixedObjectCrlfStep18(s: string)
    requires s == "{\r\n " + " \"nu" + "mber" + "\":9." + "8765" + "4321" + ",\r\n " + " \"nu" + "ll\":" + "null" + ",\r\n " + " \"\\x" + "53\":" + "\"str" + "\",\r\n" + "}\r\n"
    ensures SkipTrivia(s, 27) == 29
  {
    MixedObjectCrlfStep17(s);
  }

  lemma MixedObjectCrlfStep19(s: string)
    requires s == "{\r\n " + " \"nu" + "mber" + "\":9." + "8765" + "4321" + ",\r\n " + " \"nu" + "ll\":" + "null" + ",\r\n " + " \"\\x" + "53\":" + "\"str" + "\",\r\n" + "}\r\n"
    ensures SkipTrivia(s, 26) == 29
  {
    MixedObjectCrlfStep18(s);
  }

  lemma MixedObjectCrlfStep20(s: string)
    requires s == "{\r\n " + " \"nu" + "mber" + "\":9." + "8765" + "4321" + ",\r\n " + " \"nu" + "ll\":" + "null" + ",\r\n " + " \"\\x" + "53\":" + "\"str" + "\",\r\n" + "}\r\n"
    ensures SkipTrivia(s, 25) == 29
  {
    MixedObjectCrlfStep19(s);
  }

  lemma MixedObjectCrlfStep21(s: string)
    requires s == "{\r\n " + " \"nu" + "mber" + "\":9." + "8765" + "4321" + ",\r\n " + " \"nu" + "ll\":" + "null" + ",\r\n " + " \"\\x" + "53\":" + "\"str" + "\",\r\n" + "}\r\n"
    ensures LexString(s, 29, 33, [110, 117, 108]) == Lexed(StringToken([110, 117, 108, 108]), 35)
  {
    assert [110, 117, 108] + [108] == [110, 117, 108, 108];
    assert LexString(s, 29, 34, [110, 117, 108, 108]) == Lexed(StringToken([110, 117, 108, 108]), 35);
  }

  lemma MixedObjectCrlfStep22(s: string)
    requires s == "{\r\n " + " \"nu" + "mber" + "\":9." + "8765" + "4321" + ",\r\n " + " \"nu" + "ll\":" + "null" + ",\r\n " + " \"\\x" + "53\":" + "\"str" + "\",\r\n" + "}\r\n"
    ensures [] + [110] == [110] && [110] + [117] == [110, 117] && [110, 117] + [108] == [110, 117, 108] && LexString(s, 29, 33, [110, 117, 108]) == Lexed(StringToken([110, 117, 108, 108]), 35) && LexString(s, 29, 32, [110, 117]) == Lexed(StringToken([110, 117, 108, 108]), 35)
  {
    assert [] + [110] == [110];
    assert [110] + [117] == [110, 117];
    assert [110, 117] + [108] == [110, 117, 108];
    MixedObjectCrlfStep21(s);
    assert LexString(s, 29, 32, [110, 117]) == Lexed(StringToken([110, 117, 108, 108]), 35);
  }

  lemma MixedObjectCrlfStep23(s: string)
    requires s == "{\r\n " + " \"nu" + "mber" + "\":9." + "8765" + "4321" + ",\r\n " + " \"nu" + "ll\":" + "null" + ",\r\n " + " \"\\x" + "53\":" + "\"str" + "\",\r\n" + "}\r\n"
    ensures LexString(s, 29, 31, [110]) == Lexed(StringToken([110, 117, 108, 108]), 35) && LexString(s, 29, 30, []) == Lexed(StringToken([110, 117, 108, 108]), 35)
  {
    MixedObjectCrlfStep22(s);
    assert LexString(s, 29, 31, [110]) == Lexed(StringToken([110, 117, 108, 108]), 35);
    assert LexString(s, 29, 30, []) == Lexed(StringToken([110, 117, 108, 108]), 35);
  }

  lemma MixedObjectCrlfStep24(s: string)
    requires s == "{\r\n " + " \"nu" + "mber" + "\":9." + "8765" + "4321" + ",\r\n " + " \"nu" + "ll\":" + "null" + ",\r\n " + " \"\\x" + "53\":" + "\"str" + "\",\r\n" + "}\r\n"
    ensures Lex(s, 29) == Lexed(StringToken([110, 117, 108, 108]), 35)
  {
    MixedObjectCrlfStep22(s);
    MixedObjectCrlfStep23(s);
  }

  lemma MixedObjectCrlfStep25(s: string)
    requires s == "{\r\n " + " \"nu" + "mber" + "\":9." + "8765" + "4321" + ",\r\n " + " \"nu" + "ll\":" + "null" + ",\r\n " + " \"\\x" + "53\":" + "\"str" + "\",\r\n" + "}\r\n"
    ensures [] + [110] == [110] && [110] + [117] == [110, 117] && [110, 117] + [108] == [110, 117, 108] && LexString(s, 29, 33, [110, 117, 108]) == Lexed(StringToken([110, 117, 108, 108]), 35) && LexString(s, 29, 32, [110, 117]) == Lexed(StringToken([110, 117, 108, 108]), 35)
  {
    assert [] + [110] == [110];
    assert [110] + [117] == [110, 117];
    assert [110, 117] + [108] == [110, 117, 108];
    MixedObjectCrlfStep21(s);
    assert LexString(s, 29, 32, [110, 117]) == Lexed(StringToken([110, 117, 108, 108]), 35);
  }

  lemma MixedObjectCrlfStep26(s: string)
    requires s == "{\r\n " + " \"nu" + "mber" + "\":9." + "8765" + "4321" + ",\r\n " + " \"nu" + "ll\":" + "null" + ",\r\n " + " \"\\x" + "53\":" + "\"str" + "\",\r\n" + "}\r\n"
    ensures LexString(s, 29, 31, [110]) == Lexed(StringToken([110, 117, 108, 108]), 35) && LexString(s, 29, 30, []) == Lexed(StringToken([110, 117, 108, 108]), 35)
  {
    MixedObjectCrlfStep25(s);
    assert LexString(s, 29, 31, [110]) == Lexed(StringToken([110, 117, 108, 108]), 35);
    assert LexString(s, 29, 30, []) == Lexed(StringToken([110, 117, 108, 108]), 35);
  }

  lemma MixedObjectCrlfStep27(s: string)
    requires s == "{\r\n " + " \"nu" + "mber" + "\":9." + "8765" + "4321" + ",\r\n " + " \"nu" + "ll\":" + "null" + ",\r\n " + " \"\\x" + "53\":" + "\"str" + "\",\r\n" + "}\r\n"
    ensures Lex(s, 36) == Lexed(NullToken, 40)
  {
    NullAt(s, 36);
  }

  lemma MixedObjectCrlfStep28(s: string)
    requires s == "{\r\n " + " \"nu" + "mber" + "\":9." + "8765" + "4321" + ",\r\n " + " \"nu" + "ll\":" + "null" + ",\r\n " + " \"\\x" + "53\":" + "\"str" + "\",\r\n" + "}\r\n"
    ensures ParseValue(s, 36, 1, false, true) == Parsed(Null, 40)
  {
    assert SkipTrivia(s, 36) == 36;
    MixedObjectCrlfStep27(s);
  }

  lemma MixedObjectCrlfStep29(s: string)
    requires s == "{\r\n " + " \"nu" + "mber" + "\":9." + "8765" + "4321" + ",\r\n " + " \"nu" + "ll\":" + "null" + ",\r\n " + " \"\\x" + "53\":" + "\"str" + "\",\r\n" + "}\r\n"
    ensures SkipTrivia(s, 44) == 45
  {
    assert SkipTrivia(s, 45) == 45;
  }

  lemma MixedObjectCrlfStep30(s: string)
    requires s == "{\r\n " + " \"nu" + "mber" + "\":9." + "8765" + "4321" + ",\r\n " + " \"nu" + "ll\":" + "null" + ",\r\n " + " \"\\x" + "53\":" + "\"str" + "\",\r\n" + "}\r\n"
    ensures SkipTrivia(s, 43) == 45
  {
    MixedObjectCrlfStep29(s);
  }

  lemma MixedObjectCrlfStep31(s: string)
    requires s == "{\r\n " + " \"nu" + "mber" + "\":9." + "8765" + "4321" + ",\r\n " + " \"nu" + "ll\":" + "null" + ",\r\n " + " \"\\x" + "53\":" + "\"str" + "\",\r\n" + "}\r\n"
    ensures SkipTrivia(s, 42) == 45
  {
    MixedObjectCrlfStep30(s);
  }

  lemma MixedObjectCrlfStep32(s: string)
    requires s == "{\r\n " + " \"nu" + "mber" + "\":9." + "8765" + "4321" + ",\r\n " + " \"nu" + "ll\":" + "null" + ",\r\n " + " \"\\x" + "53\":" + "\"str" + "\",\r\n" + "}\r\n"
    ensures SkipTrivia(s, 41) == 45
  {
    MixedObjectCrlfStep31(s);
  }

  lemma MixedObjectCrlfStep33(s: string)
    requires s == "{\r\n " + " \"nu" + "mber" + "\":9." + "8765" + "4321" + ",\r\n " + " \"nu" + "ll\":" + "null" + ",\r\n " + " \"\\x" + "53\":" + "\"str" + "\",\r\n" + "}\r\n"
    ensures IsHexDigit(At(s, 48)) && IsHexDigit(At(s, 49)) && HexRun(s, 48, 2) && HexNumber(s, 48, 1) == 5 && HexNumber(s, 48, 2) == 83
  {
    assert IsHexDigit(At(s, 48));
    assert IsHexDigit(At(s, 49));
    assert HexRun(s, 48, 2);
    assert HexNumber(s, 48, 1) == 5;
    assert HexNumber(s, 48, 2) == 83;
  }

  lemma MixedObjectCrlfStep34(s: string)
    requires s == "{\r\n " + " \"nu" + "mber" + "\":9." + "8765" + "4321" + ",\r\n " + " \"nu" + "ll\":" + "null" + ",\r\n " + " \"\\x" + "53\":" + "\"str" + "\",\r\n" + "}\r\n"
    ensures [] + [83] == [83] && LexString(s, 45, 50, [83]) == Lexed(StringToken([83]), 51) && LexString(s, 45, 46, []) == Lexed(StringToken([83]), 51)
  {
    MixedObjectCrlfStep33(s);
    assert [] + [83] == [83];
    assert LexString(s, 45, 50, [83]) == Lexed(StringToken([83]), 51);
    assert LexString(s, 45, 46, []) == Lexed(StringToken([83]), 51);
  }

  lemma MixedObjectCrlfStep35(s: string)
    requires s == "{\r\n " + " \"nu" + "mber" + "\":9." + "8765" + "4321" + ",\r\n " + " \"nu" + "ll\":" + "null" + ",\r\n " + " \"\\x" + "53\":" + "\"str" + "\",\r\n" + "}\r\n"
    ensures Lex(s, 45) == Lexed(StringToken([83]), 51)
  {
    MixedObjectCrlfStep33(s);
    MixedObjectCrlfStep34(s);
  }

  lemma MixedObjectCrlfStep36(s: string)
    requires s == "{\r\n " + " \"nu" + "mber" + "\":9." + "8765" + "4321" + ",\r\n " + " \"nu" + "ll\":" + "null" + ",\r\n " + " \"\\x" + "53\":" + "\"str" + "\",\r\n" + "}\r\n"
    ensures IsHexDigit(At(s, 48)) && IsHexDigit(At(s, 49)) && HexRun(s, 48, 2) && HexNumber(s, 48, 1) == 5 && HexNumber(s, 48, 2) == 83
  {
    assert IsHexDigit(At(s, 48));
    assert IsHexDigit(At(s, 49));
    assert HexRun(s, 48, 2);
    assert HexNumber(s, 48, 1) == 5;
    assert HexNumber(s, 48, 2) == 83;
  }

  lemma MixedObjectCrlfStep37(s: string)
    requires s == "{\r\n " + " \"nu" + "mber" + "\":9." + "8765" + "4321" + ",\r\n " + " \"nu" + "ll\":" + "null" + ",\r\n " + " \"\\x" + "53\":" + "\"str" + "\",\r\n" + "}\r\n"
    ensures [] + [83] == [83] && LexString(s, 45, 50, [83]) == Lexed(StringToken([83]), 51) && LexString(s, 45, 46, []) == Lexed(StringToken([83]), 51)
  {
    MixedObjectCrlfStep36(s);
    assert [] + [83] == [83];
    assert LexString(s, 45, 50, [83]) == Lexed(StringToken([83]), 51);
    assert LexString(s, 45, 46, []) == Lexed(StringToken([83]), 51);
  }

  lemma MixedObjectCrlfStep38(s: string)
    requires s == "{\r\n " + " \"nu" + "mber" + "\":9." + "8765" + "4321" + ",\r\n " + " \"nu" + "ll\":" + "null" + ",\r\n " + " \"\\x" + "53\":" + "\"str" + "\",\r\n" + "}\r\n"
    ensures LexString(s, 52, 56, [115, 116, 114]) == Lexed(StringToken([115, 116, 114]), 57)
  {
  }

  lemma MixedObjectCrlfStep39(s: string)
    requires s == "{\r\n " + " \"nu" + "mber" + "\":9." + "8765" + "4321" + ",\r\n " + " \"nu" + "ll\":" + "null" + ",\r\n " + " \"\\x" + "53\":" + "\"str" + "\",\r\n" + "}\r\n"
    ensures [] + [115] == [115] && [115] + [116] == [115, 116] && [115, 116] + [114] == [115, 116, 114] && LexString(s, 52, 56, [115, 116, 114]) == Lexed(StringToken([115, 116, 114]), 57) && LexString(s, 52, 55, [115, 116]) == Lexed(StringToken([115, 116, 114]), 57)
  {
    assert [] + [115] == [115];
    assert [115] + [116] == [115, 116];
    assert [115, 116] + [114] == [115, 116, 114];
    MixedObjectCrlfStep38(s);
    assert LexString(s, 52, 55, [115, 116]) == Lexed(StringToken([115, 116, 114]), 57);
  }

  lemma MixedObjectCrlfStep40(s: string)
    requires s == "{\r\n " + " \"nu" + "mber" + "\":9." + "8765" + "4321" + ",\r\n " + " \"nu" + "ll\":" + "null" + ",\r\n " + " \"\\x" + "53\":" + "\"str" + "\",\r\n" + "}\r\n"
    ensures LexString(s, 52, 54, [115]) == Lexed(StringToken([115, 116, 114]), 57) && LexString(s, 52, 53, []) == Lexed(StringToken([115, 116, 114]), 57)
  {
    MixedObjectCrlfStep39(s);
    assert LexString(s, 52, 54, [115]) == Lexed(StringToken([115, 116, 114]), 57);
    assert LexString(s, 52, 53, []) == Lexed(StringToken([115, 116, 114]), 57);
  }

  lemma MixedObjectCrlfStep41(s: string)
    requires s == "{\r\n " + " \"nu" + "mber" + "\":9." + "8765" + "4321" + ",\r\n " + " \"nu" + "ll\":" + "null" + ",\r\n " + " \"\\x" + "53\":" + "\"str" + "\",\r\n" + "}\r\n"
    ensures Lex(s, 52) == Lexed(StringToken([115, 116, 114]), 57)
  {
    MixedObjectCrlfStep39(s);
    MixedObjectCrlfStep40(s);
  }

  lemma MixedObjectCrlfStep42(s: string)
    requires s == "{\r\n " + " \"nu" + "mber" + "\":9." + "8765" + "4321" + ",\r\n " + " \"nu" + "ll\":" + "null" + ",\r\n " + " \"\\x" + "53\":" + "\"str" + "\",\r\n" + "}\r\n"
    ensures ParseValue(s, 52, 1, false, true) == Parsed(Str([115, 116, 114]), 57)
  {
    assert SkipTrivia(s, 52) == 52;
    MixedObjectCrlfStep41(s);
  }

  lemma MixedObjectCrlfStep43(s: string)
    requires s == "{\r\n " + " \"nu" + "mber" + "\":9." + "8765" + "4321" + ",\r\n " + " \"nu" + "ll\":" + "null" + ",\r\n " + " \"\\x" + "53\":" + "\"str" + "\",\r\n" + "}\r\n"
    ensures SkipTrivia(s, 59) == 60
  {
    assert SkipTrivia(s, 60) == 60;
  }

  lemma MixedObjectCrlfStep44(s: string)
    requires s == "{\r\n " + " \"nu" + "mber" + "\":9." + "8765" + "4321" + ",\r\n " + " \"nu" + "ll\":" + "null" + ",\r\n " + " \"\\x" + "53\":" + "\"str" + "\",\r\n" + "}\r\n"
    ensures SkipTrivia(s, 58) == 60
  {
    MixedObjectCrlfStep43(s);
  }

  lemma MixedObjectCrlfStep45(s: string)
    requires s == "{\r\n " + " \"nu" + "mber" + "\":9." + "8765" + "4321" + ",\r\n " + " \"nu" + "ll\":" + "null" + ",\r\n " + " \"\\x" + "53\":" + "\"str" + "\",\r\n" + "}\r\n"
    ensures ParseMemberValue(s, 52, 1, map[[110, 117, 109, 98, 101, 114] := Double("9.87654321"), [110, 117, 108, 108] := Null], [83], true) == Parsed(Dict(map[[110, 117, 109, 98, 101, 114] := Double("9.87654321"), [110, 117, 108, 108] := Null, [83] := Str([115, 116, 114])]), 61)
  {
    assert map[[110, 117, 109, 98, 101, 114] := Double("9.87654321"), [110, 117, 108, 108] := Null][[83] := Str([115, 116, 114])] == map[[110, 117, 109, 98, 101, 114] := Double("9.87654321"), [110, 117, 108, 108] := Null, [83] := Str([115, 116, 114])];
    assert SkipTrivia(s, 57) == 57;
    assert s[57] == ',';
    assert Lex(s, 57) == Lexed(ListSeparator, 58);
    MixedObjectCrlfStep44(s);
    assert s[60] == '}';
    assert Lex(s, 60) == Lexed(ObjectEnd, 61);
    MixedObjectCrlfStep42(s);
    MemberTrailingCommaCloses(s, 52, 1, map[[110, 117, 109, 98, 101, 114] := Double("9.87654321"), [110, 117, 108, 108] := Null], [83], Str([115, 116, 114]), 57, 57, 60);
  }

  lemma MixedObjectCrlfStep46(s: string)
    requires s == "{\r\n " + " \"nu" + "mber" + "\":9." + "8765" + "4321" + ",\r\n " + " \"nu" + "ll\":" + "null" + ",\r\n " + " \"\\x" + "53\":" + "\"str" + "\",\r\n" + "}\r\n"
    ensures ParseMembers(s, 45, 1, map[[110, 117, 109, 98, 101, 114] := Double("9.87654321"), [110, 117, 108, 108] := Null], true) == Parsed(Dict(map[[110, 117, 109, 98, 101, 114] := Double("9.87654321"), [110, 117, 108, 108] := Null, [83] := Str([115, 116, 114])]), 61)
  {
    MixedObjectCrlfStep35(s);
    assert SkipTrivia(s, 51) == 51;
    assert Lex(s, 51) == Lexed(PairSeparator, 52);
    assert SkipTrivia(s, 52) == 52;
    MixedObjectCrlfStep45(s);
  }

  lemma MixedObjectCrlfStep47(s: string)
    requires s == "{\r\n " + " \"nu" + "mber" + "\":9." + "8765" + "4321" + ",\r\n " + " \"nu" + "ll\":" + "null" + ",\r\n " + " \"\\x" + "53\":" + "\"str" + "\",\r\n" + "}\r\n"
    ensures map[[110, 117, 109, 98, 101, 114] := Double("9.87654321")][[110, 117, 108, 108] := Null] == map[[110, 117, 109, 98, 101, 114] := Double("9.87654321"), [110, 117, 108, 108] := Null] && SkipTrivia(s, 40) == 40 && Lex(s, 40) == Lexed(ListSeparator, 41) && SkipTrivia(s, 41) == 45 && Lex(s, 45) == Lexed(StringToken([83]), 51)
  {
    assert map[[110, 117, 109, 98, 101, 114] := Double("9.87654321")][[110, 117, 108, 108] := Null] == map[[110, 117, 109, 98, 101, 114] := Double("9.87654321"), [110, 117, 108, 108] := Null];
    assert SkipTrivia(s, 40) == 40;
    assert Lex(s, 40) == Lexed(ListSeparator, 41);
    MixedObjectCrlfStep32(s);
    MixedObjectCrlfStep35(s);
  }

  lemma MixedObjectCrlfStep48(s: string)
    requires s == "{\r\n " + " \"nu" + "mber" + "\":9." + "8765" + "4321" + ",\r\n " + " \"nu" + "ll\":" + "null" + ",\r\n " + " \"\\x" + "53\":" + "\"str" + "\",\r\n" + "}\r\n"
    ensures ParseMemberValue(s, 36, 1, map[[110, 117, 109, 98, 101, 114] := Double("9.87654321")], [110, 117, 108, 108], true) == Parsed(Dict(map[[110, 117, 109, 98, 101, 114] := Double("9.87654321"), [110, 117, 108, 108] := Null, [83] := Str([115, 116, 114])]), 61)
  {
    MixedObjectCrlfStep47(s);
    MixedObjectCrlfStep28(s);
    MixedObjectCrlfStep46(s);
  }

  lemma MixedObjectCrlfStep49(s: string)
    requires s == "{\r\n " + " \"nu" + "mber" + "\":9." + "8765" + "4321" + ",\r\n " + " \"nu" + "ll\":" + "null" + ",\r\n " + " \"\\x" + "53\":" + "\"str" + "\",\r\n" + "}\r\n"
    ensures ParseMembers(s, 29, 1, map[[110, 117, 109, 98, 101, 114] := Double("9.87654321")], true) == Parsed(Dict(map[[110, 117, 109, 98, 101, 114] := Double("9.87654321"), [110, 117, 108, 108] := Null, [83] := Str([115, 116, 114])]), 61)
  {
    MixedObjectCrlfStep24(s);
    assert SkipTrivia(s, 35) == 35;
    assert Lex(s, 35) == Lexed(PairSeparator, 36);
    assert SkipTrivia(s, 36) == 36;
    MixedObjectCrlfStep48(s);
  }

  lemma MixedObjectCrlfStep50(s: string)
    requires s == "{\r\n " + " \"nu" + "mber" + "\":9." + "8765" + "4321" + ",\r\n " + " \"nu" + "ll\":" + "null" + ",\r\n " + " \"\\x" + "53\":" + "\"str" + "\",\r\n" + "}\r\n"
    ensures map[][[110, 117, 109, 98, 101, 114] := Double("9.87654321")] == map[[110, 117, 109, 98, 101, 114] := Double("9.87654321")] && SkipTrivia(s, 24) == 24 && Lex(s, 24) == Lexed(ListSeparator, 25) && SkipTrivia(s, 25) == 29 && Lex(s, 29) == Lexed(StringToken([110, 117, 108, 108]), 35)
  {
    assert map[][[110, 117, 109, 98, 101, 114] := Double("9.87654321")] == map[[110, 117, 109, 98, 101, 114] := Double("9.87654321")];
    assert SkipTrivia(s, 24) == 24;
    assert Lex(s, 24) == Lexed(ListSeparator, 25);
    MixedObjectCrlfStep20(s);
    MixedObjectCrlfStep24(s);
  }

  lemma MixedObjectCrlfStep51(s: string)
    requires s == "{\r\n " + " \"nu" + "mber" + "\":9." + "8765" + "4321" + ",\r\n " + " \"nu" + "ll\":" + "null" + ",\r\n " + " \"\\x" + "53\":" + "\"str" + "\",\r\n" + "}\r\n"
    ensures ParseMemberValue(s, 14, 1, map[], [110, 117, 109, 98, 101, 114], true) == Parsed(Dict(map[[110, 117, 109, 98, 101, 114] := Double("9.87654321"), [110, 117, 108, 108] := Null, [83] := Str([115, 116, 114])]), 61)
  {
    MixedObjectCrlfStep50(s);
    MixedObjectCrlfStep16(s);
    MixedObjectCrlfStep49(s);
  }

  lemma MixedObjectCrlfStep52(s: string)
    requires s == "{\r\n " + " \"nu" + "mber" + "\":9." + "8765" + "4321" + ",\r\n " + " \"nu" + "ll\":" + "null" + ",\r\n " + " \"\\x" + "53\":" + "\"str" + "\",\r\n" + "}\r\n"
    ensures ParseMembers(s, 5, 1, map[], true) == Parsed(Dict(map[[110, 117, 109, 98, 101, 114] := Double("9.87654321"), [110, 117, 108, 108] := Null, [83] := Str([115, 116, 114])]), 61)
  {
    MixedObjectCrlfStep8(s);
    assert SkipTrivia(s, 13) == 13;
    assert Lex(s, 13) == Lexed(PairSeparator, 14);
    assert SkipTrivia(s, 14) == 14;
    MixedObjectCrlfStep51(s);
  }

  lemma MixedObjectCrlfStep53(s: string)
    requires s == "{\r\n " + " \"nu" + "mber" + "\":9." + "8765" + "4321" + ",\r\n " + " \"nu" + "ll\":" + "null" + ",\r\n " + " \"\\x" + "53\":" + "\"str" + "\",\r\n" + "}\r\n"
    ensures ParseObject(s, 1, 1, true) == Parsed(Dict(map[[110, 117, 109, 98, 101, 114] := Double("9.87654321"), [110, 117, 108, 108] := Null, [83] := Str([115, 116, 114])]), 61)
  {
    MixedObjectCrlfStep4(s);
    MixedObjectCrlfStep8(s);
    MixedObjectCrlfStep52(s);
  }

  lemma MixedObjectCrlfStep54(s: string)
    requires s == "{\r\n " + " \"nu" + "mber" + "\":9." + "8765" + "4321" + ",\r\n " + " \"nu" + "ll\":" + "null" + ",\r\n " + " \"\\x" + "53\":" + "\"str" + "\",\r\n" + "}\r\n"
    ensures ParseValue(s, 0, 0, true, true) == Parsed(Dict(map[[110, 117, 109, 98, 101, 114] := Double("9.87654321"), [110, 117, 108, 108] := Null, [83] := Str([115, 116, 114])]), 61)
  {
    RootDict(s, true, true);
    MixedObjectCrlfStep53(s);
  }

  lemma MixedObjectCrlfStep55(s: string)
    requires s == "{\r\n " + " \"nu" + "mber" + "\":9." + "8765" + "4321" + ",\r\n " + " \"nu" + "ll\":" + "null" + ",\r\n " + " \"\\x" + "53\":" + "\"str" + "\",\r\n" + "}\r\n"
    ensures SkipTrivia(s, 62) == 63
  {
    assert SkipTrivia(s, 63) == 63;
  }

  lemma MixedObjectCrlfStep56(s: string)
    requires s == "{\r\n " + " \"nu" + "mber" + "\":9." + "8765" + "4321" + ",\r\n " + " \"nu" + "ll\":" + "null" + ",\r\n " + " \"\\x" + "53\":" + "\"str" + "\",\r\n" + "}\r\n"
    ensures SkipTrivia(s, 61) == 63
  {
    MixedObjectCrlfStep55(s);
  }

  /** Dictionaries nested in a dictionary, with a list inside. */
  lemma NestedObject(s: string)
    requires s == "{\"in" + "ner\"" + ":{\"a" + "rray" + "\":[t" + "rue]" + "},\"f" + "alse" + "\":fa" + "lse," + "\"d\":" + "{}}"
    ensures Read(s, false) == Some(Dict(map[[105, 110, 110, 101, 114] := Dict(map[[97, 114, 114, 97, 121] := List([Bool(true)])]), [102, 97, 108, 115, 101] := Bool(false), [100] := Dict(map[])]))
  {
    assert SkipTrivia(s, 47) == 47;
    assert Lex(s, 47) == Lexed(EndOfInput, 47);
    NestedObjectStep42(s);
  }

  lemma NestedObjectStep1(s: string)
    requires s == "{\"in" + "ner\"" + ":{\"a" + "rray" + "\":[t" + "rue]" + "},\"f" + "alse" + "\":fa" + "lse," + "\"d\":" + "{}}"
    ensures LexString(s, 1, 5, [105, 110, 110]) == Lexed(StringToken([105, 110, 110, 101, 114]), 8)
  {
    assert [105, 110, 110] + [101] == [105, 110, 110, 101];
    assert [105, 110, 110, 101] + [114] == [105, 110, 110, 101, 114];
    assert LexString(s, 1, 7, [105, 110, 110, 101, 114]) == Lexed(StringToken([105, 110, 110, 101, 114]), 8);
    assert LexString(s, 1, 6, [105, 110, 110, 101]) == Lexed(StringToken([105, 110, 110, 101, 114]), 8);
  }

  lemma NestedObjectStep2(s: string)
    requires s == "{\"in" + "ner\"" + ":{\"a" + "rray" + "\":[t" + "rue]" + "},\"f" + "alse" + "\":fa" + "lse," + "\"d\":" + "{}}"
    ensures [] + [105] == [105] && [105] + [110] == [105, 110] && [105, 110] + [110] == [105, 110, 110] && LexString(s, 1, 5, [105, 110, 110]) == Lexed(StringToken([105, 110, 110, 101, 114]), 8) && LexString(s, 1, 4, [105, 110]) == Lexed(StringToken([105, 110, 110, 101, 114]), 8)
  {
    assert [] + [105] == [105];
    assert [105] + [110] == [105, 110];
    assert [105, 110] + [110] == [105, 110, 110];
    NestedObjectStep1(s);
    assert LexString(s, 1, 4, [105, 110]) == Lexed(StringToken([105, 110, 110, 101, 114]), 8);
  }

  lemma NestedObjectStep3(s: string)
    requires s == "{\"in" + "ner\"" + ":{\"a" + "rray" + "\":[t" + "rue]" + "},\"f" + "alse" + "\":fa" + "lse," + "\"d\":" + "{}}"
    ensures LexString(s, 1, 3, [105]) == Lexed(StringToken([105, 110, 110, 101, 114]), 8) && LexString(s, 1, 2, []) == Lexed(StringToken([105, 110, 110, 101, 114]), 8)
  {
    NestedObjectStep2(s);
    assert LexString(s, 1, 3, [105]) == Lexed(StringToken([105, 110, 110, 101, 114]), 8);
    assert LexString(s, 1, 2, []) == Lexed(StringToken([105, 110, 110, 101, 114]), 8);
  }

  lemma NestedObjectStep4(s: string)
    requires s == "{\"in" + "ner\"" + ":{\"a" + "rray" + "\":[t" + "rue]" + "},\"f" + "alse" + "\":fa" + "lse," + "\"d\":" + "{}}"
    ensures Lex(s, 1) == Lexed(StringToken([105, 110, 110, 101, 114]), 8)
  {
    NestedObjectStep2(s);
    NestedObjectStep3(s);
  }

  lemma NestedObjectStep5(s: string)
    requires s == "{\"in" + "ner\"" + ":{\"a" + "rray" + "\":[t" + "rue]" + "},\"f" + "alse" + "\":fa" + "lse," + "\"d\":" + "{}}"
    ensures [] + [105] == [105] && [105] + [110] == [105, 110] && [105, 110] + [110] == [105, 110, 110] && LexString(s, 1, 5, [105, 110, 110]) == Lexed(StringToken([105, 110, 110, 101, 114]), 8) && LexString(s, 1, 4, [105, 110]) == Lexed(StringToken([105, 110, 110, 101, 114]), 8)
  {
    assert [] + [105] == [105];
    assert [105] + [110] == [105, 110];
    assert [105, 110] + [110] == [105, 110, 110];
    NestedObjectStep1(s);
    assert LexString(s, 1, 4, [105, 110]) == Lexed(StringToken([105, 110, 110, 101, 114]), 8);
  }

  lemma NestedObjectStep6(s: string)
    requires s == "{\"in" + "ner\"" + ":{\"a" + "rray" + "\":[t" + "rue]" + "},\"f" + "alse" + "\":fa" + "lse," + "\"d\":" + "{}}"
    ensures LexString(s, 1, 3, [105]) == Lexed(StringToken([105, 110, 110, 101, 114]), 8) && LexString(s, 1, 2, []) == Lexed(StringToken([105, 110, 110, 101, 114]), 8)
  {
    NestedObjectStep5(s);
    assert LexString(s, 1, 3, [105]) == Lexed(StringToken([105, 110, 110, 101, 114]), 8);
    assert LexString(s, 1, 2, []) == Lexed(StringToken([105, 110, 110, 101, 114]), 8);
  }

  lemma NestedObjectStep7(s: string)
    requires s == "{\"in" + "ner\"" + ":{\"a" + "rray" + "\":[t" + "rue]" + "},\"f" + "alse" + "\":fa" + "lse," + "\"d\":" + "{}}"
    ensures LexString(s, 10, 14, [97, 114, 114]) == Lexed(StringToken([97, 114, 114, 97, 121]), 17)
  {
    assert [97, 114, 114] + [97] == [97, 114, 114, 97];
    assert [97, 114, 114, 97] + [121] == [97, 114, 114, 97, 121];
    assert LexString(s, 10, 16, [97, 114, 114, 97, 121]) == Lexed(StringToken([97, 114, 114, 97, 121]), 17);
    assert LexString(s, 10, 15, [97, 114, 114, 97]) == Lexed(StringToken([97, 114, 114, 97, 121]), 17);
  }

  lemma NestedObjectStep8(s: string)
    requires s == "{\"in" + "ner\"" + ":{\"a" + "rray" + "\":[t" + "rue]" + "},\"f" + "alse" + "\":fa" + "lse," + "\"d\":" + "{}}"
    ensures [] + [97] == [97] && [97] + [114] == [97, 114] && [97, 114] + [114] == [97, 114, 114] && LexString(s, 10, 14, [97, 114, 114]) == Lexed(StringToken([97, 114, 114, 97, 121]), 17) && LexString(s, 10, 13, [97, 114]) == Lexed(StringToken([97, 114, 114, 97, 121]), 17)
  {
    assert [] + [97] == [97];
    assert [97] + [114] == [97, 114];
    assert [97, 114] + [114] == [97, 114, 114];
    NestedObjectStep7(s);
    assert LexString(s, 10, 13, [97, 114]) == Lexed(StringToken([97, 114, 114, 97, 121]), 17);
  }

  lemma NestedObjectStep9(s: string)
    requires s == "{\"in" + "ner\"" + ":{\"a" + "rray" + "\":[t" + "rue]" + "},\"f" + "alse" + "\":fa" + "lse," + "\"d\":" + "{}}"
    ensures LexString(s, 10, 12, [97]) == Lexed(StringToken([97, 114, 114, 97, 121]), 17) && LexString(s, 10, 11, []) == Lexed(StringToken([97, 114, 114, 97, 121]), 17)
  {
    NestedObjectStep8(s);
    assert LexString(s, 10, 12, [97]) == Lexed(StringToken([97, 114, 114, 97, 121]), 17);
    assert LexString(s, 10, 11, []) == Lexed(StringToken([97, 114, 114, 97, 121]), 17);
  }

  lemma NestedObjectStep10(s: string)
    requires s == "{\"in" + "ner\"" + ":{\"a" + "rray" + "\":[t" + "rue]" + "},\"f" + "alse" + "\":fa" + "lse," + "\"d\":" + "{}}"
    ensures Lex(s, 10) == Lexed(StringToken([97, 114, 114, 97, 121]), 17)
  {
    NestedObjectStep8(s);
    NestedObjectStep9(s);
  }

  lemma NestedObjectStep11(s: string)
    requires s == "{\"in" + "ner\"" + ":{\"a" + "rray" + "\":[t" + "rue]" + "},\"f" + "alse" + "\":fa" + "lse," + "\"d\":" + "{}}"
    ensures [] + [97] == [97] && [97] + [114] == [97, 114] && [97, 114] + [114] == [97, 114, 114] && LexString(s, 10, 14, [97, 114, 114]) == Lexed(StringToken([97, 114, 114, 97, 121]), 17) && LexString(s, 10, 13, [97, 114]) == Lexed(StringToken([97, 114, 114, 97, 121]), 17)
  {
    assert [] + [97] == [97];
    assert [97] + [114] == [97, 114];
    assert [97, 114] + [114] == [97, 114, 114];
    NestedObjectStep7(s);
    assert LexString(s, 10, 13, [97, 114]) == Lexed(StringToken([97, 114, 114, 97, 121]), 17);
  }

  lemma NestedObjectStep12(s: string)
    requires s == "{\"in" + "ner\"" + ":{\"a" + "rray" + "\":[t" + "rue]" + "},\"f" + "alse" + "\":fa" + "lse," + "\"d\":" + "{}}"
    ensures LexString(s, 10, 12, [97]) == Lexed(StringToken([97, 114, 114, 97, 121]), 17) && LexString(s, 10, 11, []) == Lexed(StringToken([97, 114, 114, 97, 121]), 17)
  {
    NestedObjectStep11(s);
    assert LexString(s, 10, 12, [97]) == Lexed(StringToken([97, 114, 114, 97, 121]), 17);
    assert LexString(s, 10, 11, []) == Lexed(StringToken([97, 114, 114, 97, 121]), 17);
  }

  lemma NestedObjectStep13(s: string)
    requires s == "{\"in" + "ner\"" + ":{\"a" + "rray" + "\":[t" + "rue]" + "},\"f" + "alse" + "\":fa" + "lse," + "\"d\":" + "{}}"
    ensures Lex(s, 19) == Lexed(TrueToken, 23)
  {
    TrueAt(s, 19);
  }

  lemma NestedObjectStep14(s: string)
    requires s == "{\"in" + "ner\"" + ":{\"a" + "rray" + "\":[t" + "rue]" + "},\"f" + "alse" + "\":fa" + "lse," + "\"d\":" + "{}}"
    ensures ParseValue(s, 19, 3, false, false) == Parsed(Bool(true), 23)
  {
    assert SkipTrivia(s, 19) == 19;
    NestedObjectStep13(s);
  }

  lemma NestedObjectStep15(s: string)
    requires s == "{\"in" + "ner\"" + ":{\"a" + "rray" + "\":[t" + "rue]" + "},\"f" + "alse" + "\":fa" + "lse," + "\"d\":" + "{}}"
    ensures ParseElements(s, 19, 3, [], false) == Parsed(List([Bool(true)]), 24)
  {
    assert [] + [Bool(true)] == [Bool(true)];
    assert SkipTrivia(s, 23) == 23;
    assert Lex(s, 23) == Lexed(ArrayEnd, 24);
    NestedObjectStep14(s);
  }

  lemma NestedObjectStep16(s: string)
    requires s == "{\"in" + "ner\"" + ":{\"a" + "rray" + "\":[t" + "rue]" + "},\"f" + "alse" + "\":fa" + "lse," + "\"d\":" + "{}}"
    ensures ParseArray(s, 19, 3, false) == Parsed(List([Bool(true)]), 24)
  {
    assert SkipTrivia(s, 19) == 19;
    NestedObjectStep13(s);
    NestedObjectStep15(s);
  }

  lemma NestedObjectStep17(s: string)
    requires s == "{\"in" + "ner\"" + ":{\"a" + "rray" + "\":[t" + "rue]" + "},\"f" + "alse" + "\":fa" + "lse," + "\"d\":" + "{}}"
    ensures ParseValue(s, 18, 2, false, false) == Parsed(List([Bool(true)]), 24)
  {
    assert s[18] == '[';
    ListAt(s, 18, 2, false);
    NestedObjectStep16(s);
  }

  lemma NestedObjectStep18(s: string)
    requires s == "{\"in" + "ner\"" + ":{\"a" + "rray" + "\":[t" + "rue]" + "},\"f" + "alse" + "\":fa" + "lse," + "\"d\":" + "{}}"
    ensures ParseMemberValue(s, 18, 2, map[], [97, 114, 114, 97, 121], false) == Parsed(Dict(map[[97, 114, 114, 97, 121] := List([Bool(true)])]), 25)
  {
    assert map[][[97, 114, 114, 97, 121] := List([Bool(true)])] == map[[97, 114, 114, 97, 121] := List([Bool(true)])];
    assert SkipTrivia(s, 24) == 24;
    assert Lex(s, 24) == Lexed(ObjectEnd, 25);
    NestedObjectStep17(s);
  }

  lemma NestedObjectStep19(s: string)
    requires s == "{\"in" + "ner\"" + ":{\"a" + "rray" + "\":[t" + "rue]" + "},\"f" + "alse" + "\":fa" + "lse," + "\"d\":" + "{}}"
    ensures ParseMembers(s, 10, 2, map[], false) == Parsed(Dict(map[[97, 114, 114, 97, 121] := List([Bool(true)])]), 25)
  {
    NestedObjectStep10(s);
    assert SkipTrivia(s, 17) == 17;
    assert Lex(s, 17) == Lexed(PairSeparator, 18);
    assert SkipTrivia(s, 18) == 18;
    NestedObjectStep18(s);
  }

  lemma NestedObjectStep20(s: string)
    requires s == "{\"in" + "ner\"" + ":{\"a" + "rray" + "\":[t" + "rue]" + "},\"f" + "alse" + "\":fa" + "lse," + "\"d\":" + "{}}"
    ensures ParseObject(s, 10, 2, false) == Parsed(Dict(map[[97, 114, 114, 97, 121] := List([Bool(true)])]), 25)
  {
    assert SkipTrivia(s, 10) == 10;
    NestedObjectStep10(s);
    NestedObjectStep19(s);
  }

  lemma NestedObjectStep21(s: string)
    requires s == "{\"in" + "ner\"" + ":{\"a" + "rray" + "\":[t" + "rue]" + "},\"f" + "alse" + "\":fa" + "lse," + "\"d\":" + "{}}"
    ensures ParseValue(s, 9, 1, false, false) == Parsed(Dict(map[[97, 114, 114, 97, 121] := List([Bool(true)])]), 25)
  {
    NestedObjectStep20(s);
    assert s[9] == '{';
    DictAt(s, 9, 1, false);
  }

  lemma NestedObjectStep22(s: string)
    requires s == "{\"in" + "ner\"" + ":{\"a" + "rray" + "\":[t" + "rue]" + "},\"f" + "alse" + "\":fa" + "lse," + "\"d\":" + "{}}"
    ensures LexString(s, 26, 30, [102, 97, 108]) == Lexed(StringToken([102, 97, 108, 115, 101]), 33)
  {
    assert [102, 97, 108] + [115] == [102, 97, 108, 115];
    assert [102, 97, 108, 115] + [101] == [102, 97, 108, 115, 101];
    assert LexString(s, 26, 32, [102, 97, 108, 115, 101]) == Lexed(StringToken([102, 97, 108, 115, 101]), 33);
    assert LexString(s, 26, 31, [102, 97, 108, 115]) == Lexed(StringToken([102, 97, 108, 115, 101]), 33);
  }

  lemma NestedObjectStep23(s: string)
    requires s == "{\"in" + "ner\"" + ":{\"a" + "rray" + "\":[t" + "rue]" + "},\"f" + "alse" + "\":fa" + "lse," + "\"d\":" + "{}}"
    ensures [] + [102] == [102] && [102] + [97] == [102, 97] && [102, 97] + [108] == [102, 97, 108] && LexString(s, 26, 30, [102, 97, 108]) == Lexed(StringToken([102, 97, 108, 115, 101]), 33) && LexString(s, 26, 29, [102, 97]) == Lexed(StringToken([102, 97, 108, 115, 101]), 33)
  {
    assert [] + [102] == [102];
    assert [102] + [97] == [102, 97];
    assert [102, 97] + [108] == [102, 97, 108];
    NestedObjectStep22(s);
    assert LexString(s, 26, 29, [102, 97]) == Lexed(StringToken([102, 97, 108, 115, 101]), 33);
  }

  lemma NestedObjectStep24(s: string)
    requires s == "{\"in" + "ner\"" + ":{\"a" + "rray" + "\":[t" + "rue]" + "},\"f" + "alse" + "\":fa" + "lse," + "\"d\":" + "{}}"
    ensures LexString(s, 26, 28, [102]) == Lexed(StringToken([102, 97, 108, 115, 101]), 33) && LexString(s, 26, 27, []) == Lexed(StringToken([102, 97, 108, 115, 101]), 33)
  {
    NestedObjectStep23(s);
    assert LexString(s, 26, 28, [102]) == Lexed(StringToken([102, 97, 108, 115, 101]), 33);
    assert LexString(s, 26, 27, []) == Lexed(StringToken([102, 97, 108, 115, 101]), 33);
  }

  lemma NestedObjectStep25(s: string)
    requires s == "{\"in" + "ner\"" + ":{\"a" + "rray" + "\":[t" + "rue]" + "},\"f" + "alse" + "\":fa" + "lse," + "\"d\":" + "{}}"
    ensures Lex(s, 26) == Lexed(StringToken([102, 97, 108, 115, 101]), 33)
  {
    NestedObjectStep23(s);
    NestedObjectStep24(s);
  }

  lemma NestedObjectStep26(s: string)
    requires s == "{\"in" + "ner\"" + ":{\"a" + "rray" + "\":[t" + "rue]" + "},\"f" + "alse" + "\":fa" + "lse," + "\"d\":" + "{}}"
    ensures [] + [102] == [102] && [102] + [97] == [102, 97] && [102, 97] + [108] == [102, 97, 108] && LexString(s, 26, 30, [102, 97, 108]) == Lexed(StringToken([102, 97, 108, 115, 101]), 33) && LexString(s, 26, 29, [102, 97]) == Lexed(StringToken([102, 97, 108, 115, 101]), 33)
  {
    assert [] + [102] == [102];
    assert [102] + [97] == [102, 97];
    assert [102, 97] + [108] == [102, 97, 108];
    NestedObjectStep22(s);
    assert LexString(s, 26, 29, [102, 97]) == Lexed(StringToken([102, 97, 108, 115, 101]), 33);
  }

  lemma NestedObjectStep27(s: string)
    requires s == "{\"in" + "ner\"" + ":{\"a" + "rray" + "\":[t" + "rue]" + "},\"f" + "alse" + "\":fa" + "lse," + "\"d\":" + "{}}"
    ensures LexString(s, 26, 28, [102]) == Lexed(StringToken([102, 97, 108, 115, 101]), 33) && LexString(s, 26, 27, []) == Lexed(StringToken([102, 97, 108, 115, 101]), 33)
  {
    NestedObjectStep26(s);
    assert LexString(s, 26, 28, [102]) == Lexed(StringToken([102, 97, 108, 115, 101]), 33);
    assert LexString(s, 26, 27, []) == Lexed(StringToken([102, 97, 108, 115, 101]), 33);
  }

  lemma NestedObjectStep28(s: string)
    requires s == "{\"in" + "ner\"" + ":{\"a" + "rray" + "\":[t" + "rue]" + "},\"f" + "alse" + "\":fa" + "lse," + "\"d\":" + "{}}"
    ensures Lex(s, 34) == Lexed(FalseToken, 39)
  {
    FalseAt(s, 34);
  }

  lemma NestedObjectStep29(s: string)
    requires s == "{\"in" + "ner\"" + ":{\"a" + "rray" + "\":[t" + "rue]" + "},\"f" + "alse" + "\":fa" + "lse," + "\"d\":" + "{}}"
    ensures ParseValue(s, 34, 1, false, false) == Parsed(Bool(false), 39)
  {
    assert SkipTrivia(s, 34) == 34;
    NestedObjectStep28(s);
  }

  lemma NestedObjectStep30(s: string)
    requires s == "{\"in" + "ner\"" + ":{\"a" + "rray" + "\":[t" + "rue]" + "},\"f" + "alse" + "\":fa" + "lse," + "\"d\":" + "{}}"
    ensures Lex(s, 40) == Lexed(StringToken([100]), 43)
  {
    assert [] + [100] == [100];
    assert LexString(s, 40, 42, [100]) == Lexed(StringToken([100]), 43);
    assert LexString(s, 40, 41, []) == Lexed(StringToken([100]), 43);
  }

  lemma NestedObjectStep31(s: string)
    requires s == "{\"in" + "ner\"" + ":{\"a" + "rray" + "\":[t" + "rue]" + "},\"f" + "alse" + "\":fa" + "lse," + "\"d\":" + "{}}"
    ensures ParseObject(s, 45, 2, false) == Parsed(Dict(map[]), 46)
  {
    assert SkipTrivia(s, 45) == 45;
    assert Lex(s, 45) == Lexed(ObjectEnd, 46);
  }

  lemma NestedObjectStep32(s: string)
    requires s == "{\"in" + "ner\"" + ":{\"a" + "rray" + "\":[t" + "rue]" + "},\"f" + "alse" + "\":fa" + "lse," + "\"d\":" + "{}}"
    ensures ParseValue(s, 44, 1, false, false) == Parsed(Dict(map[]), 46)
  {
    assert s[44] == '{';
    DictAt(s, 44, 1, false);
    NestedObjectStep31(s);
  }

  lemma NestedObjectStep33(s: string)
    requires s == "{\"in" + "ner\"" + ":{\"a" + "rray" + "\":[t" + "rue]" + "},\"f" + "alse" + "\":fa" + "lse," + "\"d\":" + "{}}"
    ensures ParseMemberValue(s, 44, 1, map[[105, 110, 110, 101, 114] := Dict(map[[97, 114, 114, 97, 121] := List([Bool(true)])]), [102, 97, 108, 115, 101] := Bool(false)], [100], false) == Parsed(Dict(map[[105, 110, 110, 101, 114] := Dict(map[[97, 114, 114, 97, 121] := List([Bool(true)])]), [102, 97, 108, 115, 101] := Bool(false), [100] := Dict(map[])]), 47)
  {
    assert map[[105, 110, 110, 101, 114] := Dict(map[[97, 114, 114, 97, 121] := List([Bool(true)])]), [102, 97, 108, 115, 101] := Bool(false)][[100] := Dict(map[])] == map[[105, 110, 110, 101, 114] := Dict(map[[97, 114, 114, 97, 121] := List([Bool(true)])]), [102, 97, 108, 115, 101] := Bool(false), [100] := Dict(map[])];
    assert SkipTrivia(s, 46) == 46;
    assert Lex(s, 46) == Lexed(ObjectEnd, 47);
    NestedObjectStep32(s);
  }

  lemma NestedObjectStep34(s: string)
    requires s == "{\"in" + "ner\"" + ":{\"a" + "rray" + "\":[t" + "rue]" + "},\"f" + "alse" + "\":fa" + "lse," + "\"d\":" + "{}}"
    ensures ParseMembers(s, 40, 1, map[[105, 110, 110, 101, 114] := Dict(map[[97, 114, 114, 97, 121] := List([Bool(true)])]), [102, 97, 108, 115, 101] := Bool(false)], false) == Parsed(Dict(map[[105, 110, 110, 101, 114] := Dict(map[[97, 114, 114, 97, 121] := List([Bool(true)])]), [102, 97, 108, 115, 101] := Bool(false), [100] := Dict(map[])]), 47)
  {
    NestedObjectStep30(s);
    assert SkipTrivia(s, 43) == 43;
    assert Lex(s, 43) == Lexed(PairSeparator, 44);
    assert SkipTrivia(s, 44) == 44;
    NestedObjectStep33(s);
  }

  lemma NestedObjectStep35(s: string)
    requires s == "{\"in" + "ner\"" + ":{\"a" + "rray" + "\":[t" + "rue]" + "},\"f" + "alse" + "\":fa" + "lse," + "\"d\":" + "{}}"
    ensures map[[105, 110, 110, 101, 114] := Dict(map[[97, 114, 114, 97, 121] := List([Bool(true)])])][[102, 97, 108, 115, 101] := Bool(false)] == map[[105, 110, 110, 101, 114] := Dict(map[[97, 114, 114, 97, 121] := List([Bool(true)])]), [102, 97, 108, 115, 101] := Bool(false)] && SkipTrivia(s, 39) == 39 && Lex(s, 39) == Lexed(ListSeparator, 40) && SkipTrivia(s, 40) == 40 && Lex(s, 40) == Lexed(StringToken([100]), 43)
  {
    assert map[[105, 110, 110, 101, 114] := Dict(map[[97, 114, 114, 97, 121] := List([Bool(true)])])][[102, 97, 108, 115, 101] := Bool(false)] == map[[105, 110, 110, 101, 114] := Dict(map[[97, 114, 114, 97, 121] := List([Bool(true)])]), [102, 97, 108, 115, 101] := Bool(false)];
    assert SkipTrivia(s, 39) == 39;
    assert Lex(s, 39) == Lexed(ListSeparator, 40);
    assert SkipTrivia(s, 40) == 40;
    NestedObjectStep30(s);
  }

  lemma NestedObjectStep36(s: string)
    requires s == "{\"in" + "ner\"" + ":{\"a" + "rray" + "\":[t" + "rue]" + "},\"f" + "alse" + "\":fa" + "lse," + "\"d\":" + "{}}"
    ensures ParseMemberValue(s, 34, 1, map[[105, 110, 110, 101, 114] := Dict(map[[97, 114, 114, 97, 121] := List([Bool(true)])])], [102, 97, 108, 115, 101], false) == Parsed(Dict(map[[105, 110, 110, 101, 114] := Dict(map[[97, 114, 114, 97, 121] := List([Bool(true)])]), [102, 97, 108, 115, 101] := Bool(false), [100] := Dict(map[])]), 47)
  {
    NestedObjectStep35(s);
    NestedObjectStep29(s);
    NestedObjectStep34(s);
  }

  lemma NestedObjectStep37(s: string)
    requires s == "{\"in" + "ner\"" + ":{\"a" + "rray" + "\":[t" + "rue]" + "},\"f" + "alse" + "\":fa" + "lse," + "\"d\":" + "{}}"
    ensures ParseMembers(s, 26, 1, map[[105, 110, 110, 101, 114] := Dict(map[[97, 114, 114, 97, 121] := List([Bool(true)])])], false) == Parsed(Dict(map[[105, 110, 110, 101, 114] := Dict(map[[97, 114, 114, 97, 121] := List([Bool(true)])]), [102, 97, 108, 115, 101] := Bool(false), [100] := Dict(map[])]), 47)
  {
    NestedObjectStep25(s);
    assert SkipTrivia(s, 33) == 33;
    assert Lex(s, 33) == Lexed(PairSeparator, 34);
    assert SkipTrivia(s, 34) == 34;
    NestedObjectStep36(s);
  }

  lemma NestedObjectStep38(s: string)
    requires s == "{\"in" + "ner\"" + ":{\"a" + "rray" + "\":[t" + "rue]" + "},\"f" + "alse" + "\":fa" + "lse," + "\"d\":" + "{}}"
    ensures map[][[105, 110, 110, 101, 114] := Dict(map[[97, 114, 114, 97, 121] := List([Bool(true)])])] == map[[105, 110, 110, 101, 114] := Dict(map[[97, 114, 114, 97, 121] := List([Bool(true)])])] && SkipTrivia(s, 25) == 25 && Lex(s, 25) == Lexed(ListSeparator, 26) && SkipTrivia(s, 26) == 26 && Lex(s, 26) == Lexed(StringToken([102, 97, 108, 115, 101]), 33)
  {
    assert map[][[105, 110, 110, 101, 114] := Dict(map[[97, 114, 114, 97, 121] := List([Bool(true)])])] == map[[105, 110, 110, 101, 114] := Dict(map[[97, 114, 114, 97, 121] := List([Bool(true)])])];
    assert SkipTrivia(s, 25) == 25;
    assert Lex(s, 25) == Lexed(ListSeparator, 26);
    assert SkipTrivia(s, 26) == 26;
    NestedObjectStep25(s);
  }

  lemma NestedObjectStep39(s: string)
    requires s == "{\"in" + "ner\"" + ":{\"a" + "rray" + "\":[t" + "rue]" + "},\"f" + "alse" + "\":fa" + "lse," + "\"d\":" + "{}}"
    ensures ParseMemberValue(s, 9, 1, map[], [105, 110, 110, 101, 114], false) == Parsed(Dict(map[[105, 110, 110, 101, 114] := Dict(map[[97, 114, 114, 97, 121] := List([Bool(true)])]), [102, 97, 108, 115, 101] := Bool(false), [100] := Dict(map[])]), 47)
  {
    NestedObjectStep38(s);
    NestedObjectStep21(s);
    NestedObjectStep37(s);
  }

  lemma NestedObjectStep40(s: string)
    requires s == "{\"in" + "ner\"" + ":{\"a" + "rray" + "\":[t" + "rue]" + "},\"f" + "alse" + "\":fa" + "lse," + "\"d\":" + "{}}"
    ensures ParseMembers(s, 1, 1, map[], false) == Parsed(Dict(map[[105, 110, 110, 101, 114] := Dict(map[[97, 114, 114, 97, 121] := List([Bool(true)])]), [102, 97, 108, 115, 101] := Bool(false), [100] := Dict(map[])]), 47)
  {
    NestedObjectStep4(s);
    assert SkipTrivia(s, 8) == 8;
    assert Lex(s, 8) == Lexed(PairSeparator, 9);
    assert SkipTrivia(s, 9) == 9;
    NestedObjectStep39(s);
  }

  lemma NestedObjectStep41(s: string)
    requires s == "{\"in" + "ner\"" + ":{\"a" + "rray" + "\":[t" + "rue]" + "},\"f" + "alse" + "\":fa" + "lse," + "\"d\":" + "{}}"
    ensures ParseObject(s, 1, 1, false) == Parsed(Dict(map[[105, 110, 110, 101, 114] := Dict(map[[97, 114, 114, 97, 121] := List([Bool(true)])]), [102, 97, 108, 115, 101] := Bool(false), [100] := Dict(map[])]), 47)
  {
    assert SkipTrivia(s, 1) == 1;
    NestedObjectStep4(s);
    NestedObjectStep40(s);
  }

  lemma NestedObjectStep42(s: string)
    requires s == "{\"in" + "ner\"" + ":{\"a" + "rray" + "\":[t" + "rue]" + "},\"f" + "alse" + "\":fa" + "lse," + "\"d\":" + "{}}"
    ensures ParseValue(s, 0, 0, true, false) == Parsed(Dict(map[[105, 110, 110, 101, 114] := Dict(map[[97, 114, 114, 97, 121] := List([Bool(true)])]), [102, 97, 108, 115, 101] := Bool(false), [100] := Dict(map[])]), 47)
  {
    RootDict(s, true, false);
    NestedObjectStep41(s);
  }

  /** The same nested dictionaries with trailing commas, allowed. */
  lemma NestedObjectTrailing(s: string)
    requires s == "{\"in" + "ner\"" + ": {\"" + "arra" + "y\":[" + "true" + "] , " + "},\"f" + "alse" + "\":fa" + "lse," + "\"d\":" + "{},}"
    ensures Read(s, true) == Some(Dict(map[[105, 110, 110, 101, 114] := Dict(map[[97, 114, 114, 97, 121] := List([Bool(true)])]), [102, 97, 108, 115, 101] := Bool(false), [100] := Dict(map[])]))
  {
    assert SkipTrivia(s, 52) == 52;
    assert Lex(s, 52) == Lexed(EndOfInput, 52);
    NestedObjectTrailingStep45(s);
  }

  lemma NestedObjectTrailingStep1(s: string)
    requires s == "{\"in" + "ner\"" + ": {\"" + "arra" + "y\":[" + "true" + "] , " + "},\"f" + "alse" + "\":fa" + "lse," + "\"d\":" + "{},}"
    ensures LexString(s, 1, 5, [105, 110, 110]) == Lexed(StringToken([105, 110, 110, 101, 114]), 8)
  {
    assert [105, 110, 110] + [101] == [105, 110, 110, 101];
    assert [105, 110, 110, 101] + [114] == [105, 110, 110, 101, 114];
    assert LexString(s, 1, 7, [105, 110, 110, 101, 114]) == Lexed(StringToken([105, 110, 110, 101, 114]), 8);
    assert LexString(s, 1, 6, [105, 110, 110, 101]) == Lexed(StringToken([105, 110, 110, 101, 114]), 8);
  }

  lemma NestedObjectTrailingStep2(s: string)
    requires s == "{\"in" + "ner\"" + ": {\"" + "arra" + "y\":[" + "true" + "] , " + "},\"f" + "alse" + "\":fa" + "lse," + "\"d\":" + "{},}"
    ensures [] + [105] == [105] && [105] + [110] == [105, 110] && [105, 110] + [110] == [105, 110, 110] && LexString(s, 1, 5, [105, 110, 110]) == Lexed(StringToken([105, 110, 110, 101, 114]), 8) && LexString(s, 1, 4, [105, 110]) == Lexed(StringToken([105, 110, 110, 101, 114]), 8)
  {
    assert [] + [105] == [105];
    assert [105] + [110] == [105, 110];
    assert [105, 110] + [110] == [105, 110, 110];
    NestedObjectTrailingStep1(s);
    assert LexString(s, 1, 4, [105, 110]) == Lexed(StringToken([105, 110, 110, 101, 114]), 8);
  }

  lemma NestedObjectTrailingStep3(s: string)
    requires s == "{\"in" + "ner\"" + ": {\"" + "arra" + "y\":[" + "true" + "] , " + "},\"f" + "alse" + "\":fa" + "lse," + "\"d\":" + "{},}"
    ensures LexString(s, 1, 3, [105]) == Lexed(StringToken([105, 110, 110, 101, 114]), 8) && LexString(s, 1, 2, []) == Lexed(StringToken([105, 110, 110, 101, 114]), 8)
  {
    NestedObjectTrailingStep2(s);
    assert LexString(s, 1, 3, [105]) == Lexed(StringToken([105, 110, 110, 101, 114]), 8);
    assert LexString(s, 1, 2, []) == Lexed(StringToken([105, 110, 110, 101, 114]), 8);
  }

  lemma NestedObjectTrailingStep4(s: string)
    requires s == "{\"in" + "ner\"" + ": {\"" + "arra" + "y\":[" + "true" + "] , " + "},\"f" + "alse" + "\":fa" + "lse," + "\"d\":" + "{},}"
    ensures Lex(s, 1) == Lexed(StringToken([105, 110, 110, 101, 114]), 8)
  {
    NestedObjectTrailingStep2(s);
    NestedObjectTrailingStep3(s);
  }

  lemma NestedObjectTrailingStep5(s: string)
    requires s == "{\"in" + "ner\"" + ": {\"" + "arra" + "y\":[" + "true" + "] , " + "},\"f" + "alse" + "\":fa" + "lse," + "\"d\":" + "{},}"
    ensures [] + [105] == [105] && [105] + [110] == [105, 110] && [105, 110] + [110] == [105, 110, 110] && LexString(s, 1, 5, [105, 110, 110]) == Lexed(StringToken([105, 110, 110, 101, 114]), 8) && LexString(s, 1, 4, [105, 110]) == Lexed(StringToken([105, 110, 110, 101, 114]), 8)
  {
    assert [] + [105] == [105];
    assert [105] + [110] == [105, 110];
    assert [105, 110] + [110] == [105, 110, 110];
    NestedObjectTrailingStep1(s);
    assert LexString(s, 1, 4, [105, 110]) == Lexed(StringToken([105, 110, 110, 101, 114]), 8);
  }

  lemma NestedObjectTrailingStep6(s: string)
    requires s == "{\"in" + "ner\"" + ": {\"" + "arra" + "y\":[" + "true" + "] , " + "},\"f" + "alse" + "\":fa" + "lse," + "\"d\":" + "{},}"
    ensures LexString(s, 1, 3, [105]) == Lexed(StringToken([105, 110, 110, 101, 114]), 8) && LexString(s, 1, 2, []) == Lexed(StringToken([105, 110, 110, 101, 114]), 8)
  {
    NestedObjectTrailingStep5(s);
    assert LexString(s, 1, 3, [105]) == Lexed(StringToken([105, 110, 110, 101, 114]), 8);
    assert LexString(s, 1, 2, []) == Lexed(StringToken([105, 110, 110, 101, 114]), 8);
  }

  lemma NestedObjectTrailingStep7(s: string)
    requires s == "{\"in" + "ner\"" + ": {\"" + "arra" + "y\":[" + "true" + "] , " + "},\"f" + "alse" + "\":fa" + "lse," + "\"d\":" + "{},}"
    ensures SkipTrivia(s, 9) == 10
  {
    assert SkipTrivia(s, 10) == 10;
  }

  lemma NestedObjectTrailingStep8(s: string)
    requires s == "{\"in" + "ner\"" + ": {\"" + "arra" + "y\":[" + "true" + "] , " + "},\"f" + "alse" + "\":fa" + "lse," + "\"d\":" + "{},}"
    ensures LexString(s, 11, 15, [97, 114, 114]) == Lexed(StringToken([97, 114, 114, 97, 121]), 18)
  {
    assert [97, 114, 114] + [97] == [97, 114, 114, 97];
    assert [97, 114, 114, 97] + [121] == [97, 114, 114, 97, 121];
    assert LexString(s, 11, 17, [97, 114, 114, 97, 121]) == Lexed(StringToken([97, 114, 114, 97, 121]), 18);
    assert LexString(s, 11, 16, [97, 114, 114, 97]) == Lexed(StringToken([97, 114, 114, 97, 121]), 18);
  }

  lemma NestedObjectTrailingStep9(s: string)
    requires s == "{\"in" + "ner\"" + ": {\"" + "arra" + "y\":[" + "true" + "] , " + "},\"f" + "alse" + "\":fa" + "lse," + "\"d\":" + "{},}"
    ensures [] + [97] == [97] && [97] + [114] == [97, 114] && [97, 114] + [114] == [97, 114, 114] && LexString(s, 11, 15, [97, 114, 114]) == Lexed(StringToken([97, 114, 114, 97, 121]), 18) && LexString(s, 11, 14, [97, 114]) == Lexed(StringToken([97, 114, 114, 97, 121]), 18)
  {
    assert [] + [97] == [97];
    assert [97] + [114] == [97, 114];
    assert [97, 114] + [114] == [97, 114, 114];
    NestedObjectTrailingStep8(s);
    assert LexString(s, 11, 14, [97, 114]) == Lexed(StringToken([97, 114, 114, 97, 121]), 18);
  }

  lemma NestedObjectTrailingStep10(s: string)
    requires s == "{\"in" + "ner\"" + ": {\"" + "arra" + "y\":[" + "true" + "] , " + "},\"f" + "alse" + "\":fa" + "lse," + "\"d\":" + "{},}"
    ensures LexString(s, 11, 13, [97]) == Lexed(StringToken([97, 114, 114, 97, 121]), 18) && LexString(s, 11, 12, []) == Lexed(StringToken([97, 114, 114, 97, 121]), 18)
  {
    NestedObjectTrailingStep9(s);
    assert LexString(s, 11, 13, [97]) == Lexed(StringToken([97, 114, 114, 97, 121]), 18);
    assert LexString(s, 11, 12, []) == Lexed(StringToken([97, 114, 114, 97, 121]), 18);
  }

  lemma NestedObjectTrailingStep11(s: string)
    requires s == "{\"in" + "ner\"" + ": {\"" + "arra" + "y\":[" + "true" + "] , " + "},\"f" + "alse" + "\":fa" + "lse," + "\"d\":" + "{},}"
    ensures Lex(s, 11) == Lexed(StringToken([97, 114, 114, 97, 121]), 18)
  {
    NestedObjectTrailingStep9(s);
    NestedObjectTrailingStep10(s);
  }

  lemma NestedObjectTrailingStep12(s: string)
    requires s == "{\"in" + "ner\"" + ": {\"" + "arra" + "y\":[" + "true" + "] , " + "},\"f" + "alse" + "\":fa" + "lse," + "\"d\":" + "{},}"
    ensures [] + [97] == [97] && [97] + [114] == [97, 114] && [97, 114] + [114] == [97, 114, 114] && LexString(s, 11, 15, [97, 114, 114]) == Lexed(StringToken([97, 114, 114, 97, 121]), 18) && LexString(s, 11, 14, [97, 114]) == Lexed(StringToken([97, 114, 114, 97, 121]), 18)
  {
    assert [] + [97] == [97];
    assert [97] + [114] == [97, 114];
    assert [97, 114] + [114] == [97, 114, 114];
    NestedObjectTrailingStep8(s);
    assert LexString(s, 11, 14, [97, 114]) == Lexed(StringToken([97, 114, 114, 97, 121]), 18);
  }

  lemma NestedObjectTrailingStep13(s: string)
    requires s == "{\"in" + "ner\"" + ": {\"" + "arra" + "y\":[" + "true" + "] , " + "},\"f" + "alse" + "\":fa" + "lse," + "\"d\":" + "{},}"
    ensures LexString(s, 11, 13, [97]) == Lexed(StringToken([97, 114, 114, 97, 121]), 18) && LexString(s, 11, 12, []) == Lexed(StringToken([97, 114, 114, 97, 121]), 18)
  {
    NestedObjectTrailingStep12(s);
    assert LexString(s, 11, 13, [97]) == Lexed(StringToken([97, 114, 114, 97, 121]), 18);
    assert LexString(s, 11, 12, []) == Lexed(StringToken([97, 114, 114, 97, 121]), 18);
  }

  lemma NestedObjectTrailingStep14(s: string)
    requires s == "{\"in" + "ner\"" + ": {\"" + "arra" + "y\":[" + "true" + "] , " + "},\"f" + "alse" + "\":fa" + "lse," + "\"d\":" + "{},}"
    ensures Lex(s, 20) == Lexed(TrueToken, 24)
  {
    TrueAt(s, 20);
  }

  lemma NestedObjectTrailingStep15(s: string)
    requires s == "{\"in" + "ner\"" + ": {\"" + "arra" + "y\":[" + "true" + "] , " + "},\"f" + "alse" + "\":fa" + "lse," + "\"d\":" + "{},}"
    ensures ParseValue(s, 20, 3, false, true) == Parsed(Bool(true), 24)
  {
    assert SkipTrivia(s, 20) == 20;
    NestedObjectTrailingStep14(s);
  }

  lemma NestedObjectTrailingStep16(s: string)
    requires s == "{\"in" + "ner\"" + ": {\"" + "arra" + "y\":[" + "true" + "] , " + "},\"f" + "alse" + "\":fa" + "lse," + "\"d\":" + "{},}"
    ensures ParseElements(s, 20, 3, [], true) == Parsed(List([Bool(true)]), 25)
  {
    assert [] + [Bool(true)] == [Bool(true)];
    assert SkipTrivia(s, 24) == 24;
    assert Lex(s, 24) == Lexed(ArrayEnd, 25);
    NestedObjectTrailingStep15(s);
  }

  lemma NestedObjectTrailingStep17(s: string)
    requires s == "{\"in" + "ner\"" + ": {\"" + "arra" + "y\":[" + "true" + "] , " + "},\"f" + "alse" + "\":fa" + "lse," + "\"d\":" + "{},}"
    ensures ParseArray(s, 20, 3, true) == Parsed(List([Bool(true)]), 25)
  {
    assert SkipTrivia(s, 20) == 20;
    NestedObjectTrailingStep14(s);
    NestedObjectTrailingStep16(s);
  }

  lemma NestedObjectTrailingStep18(s: string)
    requires s == "{\"in" + "ner\"" + ": {\"" + "arra" + "y\":[" + "true" + "] , " + "},\"f" + "alse" + "\":fa" + "lse," + "\"d\":" + "{},}"
    ensures ParseValue(s, 19, 2, false, true) == Parsed(List([Bool(true)]), 25)
  {
    assert s[19] == '[';
    ListAt(s, 19, 2, true);
    NestedObjectTrailingStep17(s);
  }

  lemma NestedObjectTrailingStep19(s: string)
    requires s == "{\"in" + "ner\"" + ": {\"" + "arra" + "y\":[" + "true" + "] , " + "},\"f" + "alse" + "\":fa" + "lse," + "\"d\":" + "{},}"
    ensures SkipTrivia(s, 25) == 26
  {
    assert SkipTrivia(s, 26) == 26;
  }

  lemma NestedObjectTrailingStep20(s: string)
    requires s == "{\"in" + "ner\"" + ": {\"" + "arra" + "y\":[" + "true" + "] , " + "},\"f" + "alse" + "\":fa" + "lse," + "\"d\":" + "{},}"
    ensures SkipTrivia(s, 27) == 28
  {
    assert SkipTrivia(s, 28) == 28;
  }

  lemma NestedObjectTrailingStep21(s: string)
    requires s == "{\"in" + "ner\"" + ": {\"" + "arra" + "y\":[" + "true" + "] , " + "},\"f" + "alse" + "\":fa" + "lse," + "\"d\":" + "{},}"
    ensures ParseMemberValue(s, 19, 2, map[], [97, 114, 114, 97, 121], true) == Parsed(Dict(map[[97, 114, 114, 97, 121] := List([Bool(true)])]), 29)
  {
    assert map[][[97, 114, 114, 97, 121] := List([Bool(true)])] == map[[97, 114, 114, 97, 121] := List([Bool(true)])];
    NestedObjectTrailingStep19(s);
    assert s[26] == ',';
    assert Lex(s, 26) == Lexed(ListSeparator, 27);
    NestedObjectTrailingStep20(s);
    assert s[28] == '}';
    assert Lex(s, 28) == Lexed(ObjectEnd, 29);
    NestedObjectTrailingStep18(s);
    MemberTrailingCommaCloses(s, 19, 2, map[], [97, 114, 114, 97, 121], List([Bool(true)]), 25, 26, 28);
  }

  lemma NestedObjectTrailingStep22(s: string)
    requires s == "{\"in" + "ner\"" + ": {\"" + "arra" + "y\":[" + "true" + "] , " + "},\"f" + "alse" + "\":fa" + "lse," + "\"d\":" + "{},}"
    ensures ParseMembers(s, 11, 2, map[], true) == Parsed(Dict(map[[97, 114, 114, 97, 121] := List([Bool(true)])]), 29)
  {
    NestedObjectTrailingStep11(s);
    assert SkipTrivia(s, 18) == 18;
    assert Lex(s, 18) == Lexed(PairSeparator, 19);
    assert SkipTrivia(s, 19) == 19;
    NestedObjectTrailingStep21(s);
  }

  lemma NestedObjectTrailingStep23(s: string)
    requires s == "{\"in" + "ner\"" + ": {\"" + "arra" + "y\":[" + "true" + "] , " + "},\"f" + "alse" + "\":fa" + "lse," + "\"d\":" + "{},}"
    ensures ParseObject(s, 11, 2, true) == Parsed(Dict(map[[97, 114, 114, 97, 121] := List([Bool(true)])]), 29)
  {
    assert SkipTrivia(s, 11) == 11;
    NestedObjectTrailingStep11(s);
    NestedObjectTrailingStep22(s);
  }

  lemma NestedObjectTrailingStep24(s: string)
    requires s == "{\"in" + "ner\"" + ": {\"" + "arra" + "y\":[" + "true" + "] , " + "},\"f" + "alse" + "\":fa" + "lse," + "\"d\":" + "{},}"
    ensures ParseValue(s, 10, 1, false, true) == Parsed(Dict(map[[97, 114, 114, 97, 121] := List([Bool(true)])]), 29)
  {
    assert s[10] == '{';
    DictAt(s, 10, 1, true);
    NestedObjectTrailingStep23(s);
  }

  lemma NestedObjectTrailingStep25(s: string)
    requires s == "{\"in" + "ner\"" + ": {\"" + "arra" + "y\":[" + "true" + "] , " + "},\"f" + "alse" + "\":fa" + "lse," + "\"d\":" + "{},}"
    ensures LexString(s, 30, 34, [102, 97, 108]) == Lexed(StringToken([102, 97, 108, 115, 101]), 37)
  {
    assert [102, 97, 108] + [115] == [102, 97, 108, 115];
    assert [102, 97, 108, 115] + [101] == [102, 97, 108, 115, 101];
    assert LexString(s, 30, 36, [102, 97, 108, 115, 101]) == Lexed(StringToken([102, 97, 108, 115, 101]), 37);
    assert LexString(s, 30, 35, [102, 97, 108, 115]) == Lexed(StringToken([102, 97, 108, 115, 101]), 37);
  }

  lemma NestedObjectTrailingStep26(s: string)
    requires s == "{\"in" + "ner\"" + ": {\"" + "arra" + "y\":[" + "true" + "] , " + "},\"f" + "alse" + "\":fa" + "lse," + "\"d\":" + "{},}"
    ensures [] + [102] == [102] && [102] + [97] == [102, 97] && [102, 97] + [108] == [102, 97, 108] && LexString(s, 30, 34, [102, 97, 108]) == Lexed(StringToken([102, 97, 108, 115, 101]), 37) && LexString(s, 30, 33, [102, 97]) == Lexed(StringToken([102, 97, 108, 115, 101]), 37)
  {
    assert [] + [102] == [102];
    assert [102] + [97] == [102, 97];
    assert [102, 97] + [108] == [102, 97, 108];
    NestedObjectTrailingStep25(s);
    assert LexString(s, 30, 33, [102, 97]) == Lexed(StringToken([102, 97, 108, 115, 101]), 37);
  }

  lemma NestedObjectTrailingStep27(s: string)
    requires s == "{\"in" + "ner\"" + ": {\"" + "arra" + "y\":[" + "true" + "] , " + "},\"f" + "alse" + "\":fa" + "lse," + "\"d\":" + "{},}"
    ensures LexString(s, 30, 32, [102]) == Lexed(StringToken([102, 97, 108, 115, 101]), 37) && LexString(s, 30, 31, []) == Lexed(StringToken([102, 97, 108, 115, 101]), 37)
  {
    NestedObjectTrailingStep26(s);
    assert LexString(s, 30, 32, [102]) == Lexed(StringToken([102, 97, 108, 115, 101]), 37);
    assert LexString(s, 30, 31, []) == Lexed(StringToken([102, 97, 108, 115, 101]), 37);
  }

  lemma NestedObjectTrailingStep28(s: string)
    requires s == "{\"in" + "ner\"" + ": {\"" + "arra" + "y\":[" + "true" + "] , " + "},\"f" + "alse" + "\":fa" + "lse," + "\"d\":" + "{},}"
    ensures Lex(s, 30) == Lexed(StringToken([102, 97, 108, 115, 101]), 37)
  {
    NestedObjectTrailingStep26(s);
    NestedObjectTrailingStep27(s);
  }

  lemma NestedObjectTrailingStep29(s: string)
    requires s == "{\"in" + "ner\"" + ": {\"" + "arra" + "y\":[" + "true" + "] , " + "},\"f" + "alse" + "\":fa" + "lse," + "\"d\":" + "{},}"
    ensures [] + [102] == [102] && [102] + [97] == [102, 97] && [102, 97] + [108] == [102, 97, 108] && LexString(s, 30, 34, [102, 97, 108]) == Lexed(StringToken([102, 97, 108, 115, 101]), 37) && LexString(s, 30, 33, [102, 97]) == Lexed(StringToken([102, 97, 108, 115, 101]), 37)
  {
    assert [] + [102] == [102];
    assert [102] + [97] == [102, 97];
    assert [102, 97] + [108] == [102, 97, 108];
    NestedObjectTrailingStep25(s);
    assert LexString(s, 30, 33, [102, 97]) == Lexed(StringToken([102, 97, 108, 115, 101]), 37);
  }

  lemma NestedObjectTrailingStep30(s: string)
    requires s == "{\"in" + "ner\"" + ": {\"" + "arra" + "y\":[" + "true" + "] , " + "},\"f" + "alse" + "\":fa" + "lse," + "\"d\":" + "{},}"
    ensures LexString(s, 30, 32, [102]) == Lexed(StringToken([102, 97, 108, 115, 101]), 37) && LexString(s, 30, 31, []) == Lexed(StringToken([102, 97, 108, 115, 101]), 37)
  {
    NestedObjectTrailingStep29(s);
    assert LexString(s, 30, 32, [102]) == Lexed(StringToken([102, 97, 108, 115, 101]), 37);
    assert LexString(s, 30, 31, []) == Lexed(StringToken([102, 97, 108, 115, 101]), 37);
  }

  lemma NestedObjectTrailingStep31(s: string)
    requires s == "{\"in" + "ner\"" + ": {\"" + "arra" + "y\":[" + "true" + "] , " + "},\"f" + "alse" + "\":fa" + "lse," + "\"d\":" + "{},}"
    ensures Lex(s, 38) == Lexed(FalseToken, 43)
  {
    FalseAt(s, 38);
  }

  lemma NestedObjectTrailingStep32(s: string)
    requires s == "{\"in" + "ner\"" + ": {\"" + "arra" + "y\":[" + "true" + "] , " + "},\"f" + "alse" + "\":fa" + "lse," + "\"d\":" + "{},}"
    ensures ParseValue(s, 38, 1, false, true) == Parsed(Bool(false), 43)
  {
    assert SkipTrivia(s, 38) == 38;
    NestedObjectTrailingStep31(s);
  }

  lemma NestedObjectTrailingStep33(s: string)
    requires s == "{\"in" + "ner\"" + ": {\"" + "arra" + "y\":[" + "true" + "] , " + "},\"f" + "alse" + "\":fa" + "lse," + "\"d\":" + "{},}"
    ensures Lex(s, 44) == Lexed(StringToken([100]), 47)
  {
    assert [] + [100] == [100];
    assert LexString(s, 44, 46, [100]) == Lexed(StringToken([100]), 47);
    assert LexString(s, 44, 45, []) == Lexed(StringToken([100]), 47);
  }

  lemma NestedObjectTrailingStep34(s: string)
    requires s == "{\"in" + "ner\"" + ": {\"" + "arra" + "y\":[" + "true" + "] , " + "},\"f" + "alse" + "\":fa" + "lse," + "\"d\":" + "{},}"
    ensures ParseObject(s, 49, 2, true) == Parsed(Dict(map[]), 50)
  {
    assert SkipTrivia(s, 49) == 49;
    assert Lex(s, 49) == Lexed(ObjectEnd, 50);
  }

  lemma NestedObjectTrailingStep35(s: string)
    requires s == "{\"in" + "ner\"" + ": {\"" + "arra" + "y\":[" + "true" + "] , " + "},\"f" + "alse" + "\":fa" + "lse," + "\"d\":" + "{},}"
    ensures ParseValue(s, 48, 1, false, true) == Parsed(Dict(map[]), 50)
  {
    assert s[48] == '{';
    DictAt(s, 48, 1, true);
    NestedObjectTrailingStep34(s);
  }

  lemma NestedObjectTrailingStep36(s: string)
    requires s == "{\"in" + "ner\"" + ": {\"" + "arra" + "y\":[" + "true" + "] , " + "},\"f" + "alse" + "\":fa" + "lse," + "\"d\":" + "{},}"
    ensures ParseMemberValue(s, 48, 1, map[[105, 110, 110, 101, 114] := Dict(map[[97, 114, 114, 97, 121] := List([Bool(true)])]), [102, 97, 108, 115, 101] := Bool(false)], [100], true) == Parsed(Dict(map[[105, 110, 110, 101, 114] := Dict(map[[97, 114, 114, 97, 121] := List([Bool(true)])]), [102, 97, 108, 115, 101] := Bool(false), [100] := Dict(map[])]), 52)
  {
    assert map[[105, 110, 110, 101, 114] := Dict(map[[97, 114, 114, 97, 121] := List([Bool(true)])]), [102, 97, 108, 115, 101] := Bool(false)][[100] := Dict(map[])] == map[[105, 110, 110, 101, 114] := Dict(map[[97, 114, 114, 97, 121] := List([Bool(true)])]), [102, 97, 108, 115, 101] := Bool(false), [100] := Dict(map[])];
    assert SkipTrivia(s, 50) == 50;
    assert s[50] == ',';
    assert Lex(s, 50) == Lexed(ListSeparator, 51);
    assert SkipTrivia(s, 51) == 51;
    assert s[51] == '}';
    assert Lex(s, 51) == Lexed(ObjectEnd, 52);
    NestedObjectTrailingStep35(s);
    MemberTrailingCommaCloses(s, 48, 1, map[[105, 110, 110, 101, 114] := Dict(map[[97, 114, 114, 97, 121] := List([Bool(true)])]), [102, 97, 108, 115, 101] := Bool(false)], [100], Dict(map[]), 50, 50, 51);
  }

  lemma NestedObjectTrailingStep37(s: string)
    requires s == "{\"in" + "ner\"" + ": {\"" + "arra" + "y\":[" + "true" + "] , " + "},\"f" + "alse" + "\":fa" + "lse," + "\"d\":" + "{},}"
    ensures ParseMembers(s, 44, 1, map[[105, 110, 110, 101, 114] := Dict(map[[97, 114, 114, 97, 121] := List([Bool(true)])]), [102, 97, 108, 115, 101] := Bool(false)], true) == Parsed(Dict(map[[105, 110, 110, 101, 114] := Dict(map[[97, 114, 114, 97, 121] := List([Bool(true)])]), [102, 97, 108, 115, 101] := Bool(false), [100] := Dict(map[])]), 52)
  {
    NestedObjectTrailingStep33(s);
    assert SkipTrivia(s, 47) == 47;
    assert Lex(s, 47) == Lexed(PairSeparator, 48);
    assert SkipTrivia(s, 48) == 48;
    NestedObjectTrailingStep36(s);
  }

  lemma NestedObjectTrailingStep38(s: string)
    requires s == "{\"in" + "ner\"" + ": {\"" + "arra" + "y\":[" + "true" + "] , " + "},\"f" + "alse" + "\":fa" + "lse," + "\"d\":" + "{},}"
    ensures map[[105, 110, 110, 101, 114] := Dict(map[[97, 114, 114, 97, 121] := List([Bool(true)])])][[102, 97, 108, 115, 101] := Bool(false)] == map[[105, 110, 110, 101, 114] := Dict(map[[97, 114, 114, 97, 121] := List([Bool(true)])]), [102, 97, 108, 115, 101] := Bool(false)] && SkipTrivia(s, 43) == 43 && Lex(s, 43) == Lexed(ListSeparator, 44) && SkipTrivia(s, 44) == 44 && Lex(s, 44) == Lexed(StringToken([100]), 47)
  {
    assert map[[105, 110, 110, 101, 114] := Dict(map[[97, 114, 114, 97, 121] := List([Bool(true)])])][[102, 97, 108, 115, 101] := Bool(false)] == map[[105, 110, 110, 101, 114] := Dict(map[[97, 114, 114, 97, 121] := List([Bool(true)])]), [102, 97, 108, 115, 101] := Bool(false)];
    assert SkipTrivia(s, 43) == 43;
    assert Lex(s, 43) == Lexed(ListSeparator, 44);
    assert SkipTrivia(s, 44) == 44;
    NestedObjectTrailingStep33(s);
  }

  lemma NestedObjectTrailingStep39(s: string)
    requires s == "{\"in" + "ner\"" + ": {\"" + "arra" + "y\":[" + "true" + "] , " + "},\"f" + "alse" + "\":fa" + "lse," + "\"d\":" + "{},}"
    ensures ParseMemberValue(s, 38, 1, map[[105, 110, 110, 101, 114] := Dict(map[[97, 114, 114, 97, 121] := List([Bool(true)])])], [102, 97, 108, 115, 101], true) == Parsed(Dict(map[[105, 110, 110, 101, 114] := Dict(map[[97, 114, 114, 97, 121] := List([Bool(true)])]), [102, 97, 108, 115, 101] := Bool(false), [100] := Dict(map[])]), 52)
  {
    NestedObjectTrailingStep38(s);
    NestedObjectTrailingStep32(s);
    NestedObjectTrailingStep37(s);
  }

  lemma NestedObjectTrailingStep40(s: string)
    requires s == "{\"in" + "ner\"" + ": {\"" + "arra" + "y\":[" + "true" + "] , " + "},\"f" + "alse" + "\":fa" + "lse," + "\"d\":" + "{},}"
    ensures ParseMembers(s, 30, 1, map[[105, 110, 110, 101, 114] := Dict(map[[97, 114, 114, 97, 121] := List([Bool(true)])])], true) == Parsed(Dict(map[[105, 110, 110, 101, 114] := Dict(map[[97, 114, 114, 97, 121] := List([Bool(true)])]), [102, 97, 108, 115, 101] := Bool(false), [100] := Dict(map[])]), 52)
  {
    NestedObjectTrailingStep28(s);
    assert SkipTrivia(s, 37) == 37;
    assert Lex(s, 37) == Lexed(PairSeparator, 38);
    assert SkipTrivia(s, 38) == 38;
    NestedObjectTrailingStep39(s);
  }

  lemma NestedObjectTrailingStep41(s: string)
    requires s == "{\"in" + "ner\"" + ": {\"" + "arra" + "y\":[" + "true" + "] , " + "},\"f" + "alse" + "\":fa" + "lse," + "\"d\":" + "{},}"
    ensures map[][[105, 110, 110, 101, 114] := Dict(map[[97, 114, 114, 97, 121] := List([Bool(true)])])] == map[[105, 110, 110, 101, 114] := Dict(map[[97, 114, 114, 97, 121] := List([Bool(true)])])] && SkipTrivia(s, 29) == 29 && Lex(s, 29) == Lexed(ListSeparator, 30) && SkipTrivia(s, 30) == 30 && Lex(s, 30) == Lexed(StringToken([102, 97, 108, 115, 101]), 37)
  {
    assert map[][[105, 110, 110, 101, 114] := Dict(map[[97, 114, 114, 97, 121] := List([Bool(true)])])] == map[[105, 110, 110, 101, 114] := Dict(map[[97, 114, 114, 97, 121] := List([Bool(true)])])];
    assert SkipTrivia(s, 29) == 29;
    assert Lex(s, 29) == Lexed(ListSeparator, 30);
    assert SkipTrivia(s, 30) == 30;
    NestedObjectTrailingStep28(s);
  }

  lemma NestedObjectTrailingStep42(s: string)
    requires s == "{\"in" + "ner\"" + ": {\"" + "arra" + "y\":[" + "true" + "] , " + "},\"f" + "alse" + "\":fa" + "lse," + "\"d\":" + "{},}"
    ensures ParseMemberValue(s, 10, 1, map[], [105, 110, 110, 101, 114], true) == Parsed(Dict(map[[105, 110, 110, 101, 114] := Dict(map[[97, 114, 114, 97, 121] := List([Bool(true)])]), [102, 97, 108, 115, 101] := Bool(false), [100] := Dict(map[])]), 52)
  {
    NestedObjectTrailingStep41(s);
    NestedObjectTrailingStep24(s);
    NestedObjectTrailingStep40(s);
  }

  lemma NestedObjectTrailingStep43(s: string)
    requires s == "{\"in" + "ner\"" + ": {\"" + "arra" + "y\":[" + "true" + "] , " + "},\"f" + "alse" + "\":fa" + "lse," + "\"d\":" + "{},}"
    ensures ParseMembers(s, 1, 1, map[], true) == Parsed(Dict(map[[105, 110, 110, 101, 114] := Dict(map[[97, 114, 114, 97, 121] := List([Bool(true)])]), [102, 97, 108, 115, 101] := Bool(false), [100] := Dict(map[])]), 52)
  {
    NestedObjectTrailingStep4(s);
    assert SkipTrivia(s, 8) == 8;
    assert Lex(s, 8) == Lexed(PairSeparator, 9);
    NestedObjectTrailingStep7(s);
    NestedObjectTrailingStep42(s);
  }

  lemma NestedObjectTrailingStep44(s: string)
    requires s == "{\"in" + "ner\"" + ": {\"" + "arra" + "y\":[" + "true" + "] , " + "},\"f" + "alse" + "\":fa" + "lse," + "\"d\":" + "{},}"
    ensures ParseObject(s, 1, 1, true) == Parsed(Dict(map[[105, 110, 110, 101, 114] := Dict(map[[97, 114, 114, 97, 121] := List([Bool(true)])]), [102, 97, 108, 115, 101] := Bool(false), [100] := Dict(map[])]), 52)
  {
    assert SkipTrivia(s, 1) == 1;
    NestedObjectTrailingStep4(s);
    NestedObjectTrailingStep43(s);
  }

  lemma NestedObjectTrailingStep45(s: string)
    requires s == "{\"in" + "ner\"" + ": {\"" + "arra" + "y\":[" + "true" + "] , " + "},\"f" + "alse" + "\":fa" + "lse," + "\"d\":" + "{},}"
    ensures ParseValue(s, 0, 0, true, true) == Parsed(Dict(map[[105, 110, 110, 101, 114] := Dict(map[[97, 114, 114, 97, 121] := List([Bool(true)])]), [102, 97, 108, 115, 101] := Bool(false), [100] := Dict(map[])]), 52)
  {
    RootDict(s, true, true);
    NestedObjectTrailingStep44(s);
  }

  /** Keys with periods are plain keys, nested dictionary included. */
  lemma PeriodKeys(s: string)
    requires s == "{\"a." + "b\":3" + ",\"c\"" + ":2,\"" + "d.e." + "f\":{" + "\"g.h" + ".i.j" + "\":1}" + "}"
    ensures Read(s, false) == Some(Dict(map[[97, 46, 98] := Integer(3), [99] := Integer(2), [100, 46, 101, 46, 102] := Dict(map[[103, 46, 104, 46, 105, 46, 106] := Integer(1)])]))
  {
    assert SkipTrivia(s, 37) == 37;
    assert Lex(s, 37) == Lexed(EndOfInput, 37);
    PeriodKeysStep48(s);
  }

  lemma PeriodKeysStep1(s: string)
    requires s == "{\"a." + "b\":3" + ",\"c\"" + ":2,\"" + "d.e." + "f\":{" + "\"g.h" + ".i.j" + "\":1}" + "}"
    ensures LexString(s, 1, 5, [97, 46, 98]) == Lexed(StringToken([97, 46, 98]), 6)
  {
  }

  lemma PeriodKeysStep2(s: string)
    requires s == "{\"a." + "b\":3" + ",\"c\"" + ":2,\"" + "d.e." + "f\":{" + "\"g.h" + ".i.j" + "\":1}" + "}"
    ensures [] + [97] == [97] && [97] + [46] == [97, 46] && [97, 46] + [98] == [97, 46, 98] && LexString(s, 1, 5, [97, 46, 98]) == Lexed(StringToken([97, 46, 98]), 6) && LexString(s, 1, 4, [97, 46]) == Lexed(StringToken([97, 46, 98]), 6)
  {
    assert [] + [97] == [97];
    assert [97] + [46] == [97, 46];
    assert [97, 46] + [98] == [97, 46, 98];
    PeriodKeysStep1(s);
    assert LexString(s, 1, 4, [97, 46]) == Lexed(StringToken([97, 46, 98]), 6);
  }

  lemma PeriodKeysStep3(s: string)
    requires s == "{\"a." + "b\":3" + ",\"c\"" + ":2,\"" + "d.e." + "f\":{" + "\"g.h" + ".i.j" + "\":1}" + "}"
    ensures LexString(s, 1, 3, [97]) == Lexed(StringToken([97, 46, 98]), 6) && LexString(s, 1, 2, []) == Lexed(StringToken([97, 46, 98]), 6)
  {
    PeriodKeysStep2(s);
    assert LexString(s, 1, 3, [97]) == Lexed(StringToken([97, 46, 98]), 6);
    assert LexString(s, 1, 2, []) == Lexed(StringToken([97, 46, 98]), 6);
  }

  lemma PeriodKeysStep4(s: string)
    requires s == "{\"a." + "b\":3" + ",\"c\"" + ":2,\"" + "d.e." + "f\":{" + "\"g.h" + ".i.j" + "\":1}" + "}"
    ensures Lex(s, 1) == Lexed(StringToken([97, 46, 98]), 6)
  {
    PeriodKeysStep2(s);
    PeriodKeysStep3(s);
  }

  lemma PeriodKeysStep5(s: string)
    requires s == "{\"a." + "b\":3" + ",\"c\"" + ":2,\"" + "d.e." + "f\":{" + "\"g.h" + ".i.j" + "\":1}" + "}"
    ensures [] + [97] == [97] && [97] + [46] == [97, 46] && [97, 46] + [98] == [97, 46, 98] && LexString(s, 1, 5, [97, 46, 98]) == Lexed(StringToken([97, 46, 98]), 6) && LexString(s, 1, 4, [97, 46]) == Lexed(StringToken([97, 46, 98]), 6)
  {
    assert [] + [97] == [97];
    assert [97] + [46] == [97, 46];
    assert [97, 46] + [98] == [97, 46, 98];
    PeriodKeysStep1(s);
    assert LexString(s, 1, 4, [97, 46]) == Lexed(StringToken([97, 46, 98]), 6);
  }

  lemma PeriodKeysStep6(s: string)
    requires s == "{\"a." + "b\":3" + ",\"c\"" + ":2,\"" + "d.e." + "f\":{" + "\"g.h" + ".i.j" + "\":1}" + "}"
    ensures LexString(s, 1, 3, [97]) == Lexed(StringToken([97, 46, 98]), 6) && LexString(s, 1, 2, []) == Lexed(StringToken([97, 46, 98]), 6)
  {
    PeriodKeysStep5(s);
    assert LexString(s, 1, 3, [97]) == Lexed(StringToken([97, 46, 98]), 6);
    assert LexString(s, 1, 2, []) == Lexed(StringToken([97, 46, 98]), 6);
  }

  lemma PeriodKeysStep7(s: string)
    requires s == "{\"a." + "b\":3" + ",\"c\"" + ":2,\"" + "d.e." + "f\":{" + "\"g.h" + ".i.j" + "\":1}" + "}"
    ensures Lex(s, 7) == Lexed(NumberToken("3"), 8)
  {
    assert DigitRunEnd(s, 8) == 8;
    assert DigitRunEnd(s, 7) == 8;
    assert ExponentEnd(s, 8) == Some(8);
    assert s[7..8] == "3";
    assert LexNumber(s, 7) == Lexed(NumberToken("3"), 8);
  }

  lemma PeriodKeysStep8(s: string)
    requires s == "{\"a." + "b\":3" + ",\"c\"" + ":2,\"" + "d.e." + "f\":{" + "\"g.h" + ".i.j" + "\":1}" + "}"
    ensures DigitsValue("3") == 3
  {
  }

  lemma PeriodKeysStep9(s: string)
    requires s == "{\"a." + "b\":3" + ",\"c\"" + ":2,\"" + "d.e." + "f\":{" + "\"g.h" + ".i.j" + "\":1}" + "}"
    ensures ParseValue(s, 7, 1, false, false) == Parsed(Integer(3), 8)
  {
    assert SkipTrivia(s, 7) == 7;
    PeriodKeysStep7(s);
    PeriodKeysStep8(s);
    assert DecodeNumber("3") == Integer(3);
  }

  lemma PeriodKeysStep10(s: string)
    requires s == "{\"a." + "b\":3" + ",\"c\"" + ":2,\"" + "d.e." + "f\":{" + "\"g.h" + ".i.j" + "\":1}" + "}"
    ensures Lex(s, 9) == Lexed(StringToken([99]), 12)
  {
    assert [] + [99] == [99];
    assert LexString(s, 9, 11, [99]) == Lexed(StringToken([99]), 12);
    assert LexString(s, 9, 10, []) == Lexed(StringToken([99]), 12);
  }

  lemma PeriodKeysStep11(s: string)
    requires s == "{\"a." + "b\":3" + ",\"c\"" + ":2,\"" + "d.e." + "f\":{" + "\"g.h" + ".i.j" + "\":1}" + "}"
    ensures Lex(s, 13) == Lexed(NumberToken("2"), 14)
  {
    assert DigitRunEnd(s, 14) == 14;
    assert DigitRunEnd(s, 13) == 14;
    assert ExponentEnd(s, 14) == Some(14);
    assert s[13..14] == "2";
    assert LexNumber(s, 13) == Lexed(NumberToken("2"), 14);
  }

  lemma PeriodKeysStep12(s: string)
    requires s == "{\"a." + "b\":3" + ",\"c\"" + ":2,\"" + "d.e." + "f\":{" + "\"g.h" + ".i.j" + "\":1}" + "}"
    ensures DigitsValue("2") == 2
  {
  }

  lemma PeriodKeysStep13(s: string)
    requires s == "{\"a." + "b\":3" + ",\"c\"" + ":2,\"" + "d.e." + "f\":{" + "\"g.h" + ".i.j" + "\":1}" + "}"
    ensures ParseValue(s, 13, 1, false, false) == Parsed(Integer(2), 14)
  {
    assert SkipTrivia(s, 13) == 13;
    PeriodKeysStep11(s);
    PeriodKeysStep12(s);
    assert DecodeNumber("2") == Integer(2);
  }

  lemma PeriodKeysStep14(s: string)
    requires s == "{\"a." + "b\":3" + ",\"c\"" + ":2,\"" + "d.e." + "f\":{" + "\"g.h" + ".i.j" + "\":1}" + "}"
    ensures LexString(s, 15, 19, [100, 46, 101]) == Lexed(StringToken([100, 46, 101, 46, 102]), 22)
  {
    assert [100, 46, 101] + [46] == [100, 46, 101, 46];
    assert [100, 46, 101, 46] + [102] == [100, 46, 101, 46, 102];
    assert LexString(s, 15, 21, [100, 46, 101, 46, 102]) == Lexed(StringToken([100, 46, 101, 46, 102]), 22);
    assert LexString(s, 15, 20, [100, 46, 101, 46]) == Lexed(StringToken([100, 46, 101, 46, 102]), 22);
  }

  lemma PeriodKeysStep15(s: string)
    requires s == "{\"a." + "b\":3" + ",\"c\"" + ":2,\"" + "d.e." + "f\":{" + "\"g.h" + ".i.j" + "\":1}" + "}"
    ensures [] + [100] == [100] && [100] + [46] == [100, 46] && [100, 46] + [101] == [100, 46, 101] && LexString(s, 15, 19, [100, 46, 101]) == Lexed(StringToken([100, 46, 101, 46, 102]), 22) && LexString(s, 15, 18, [100, 46]) == Lexed(StringToken([100, 46, 101, 46, 102]), 22)
  {
    assert [] + [100] == [100];
    assert [100] + [46] == [100, 46];
    assert [100, 46] + [101] == [100, 46, 101];
    PeriodKeysStep14(s);
    assert LexString(s, 15, 18, [100, 46]) == Lexed(StringToken([100, 46, 101, 46, 102]), 22);
  }

  lemma PeriodKeysStep16(s: string)
    requires s == "{\"a." + "b\":3" + ",\"c\"" + ":2,\"" + "d.e." + "f\":{" + "\"g.h" + ".i.j" + "\":1}" + "}"
    ensures LexString(s, 15, 17, [100]) == Lexed(StringToken([100, 46, 101, 46, 102]), 22) && LexString(s, 15, 16, []) == Lexed(StringToken([100, 46, 101, 46, 102]), 22)
  {
    PeriodKeysStep15(s);
    assert LexString(s, 15, 17, [100]) == Lexed(StringToken([100, 46, 101, 46, 102]), 22);
    assert LexString(s, 15, 16, []) == Lexed(StringToken([100, 46, 101, 46, 102]), 22);
  }

  lemma PeriodKeysStep17(s: string)
    requires s == "{\"a." + "b\":3" + ",\"c\"" + ":2,\"" + "d.e." + "f\":{" + "\"g.h" + ".i.j" + "\":1}" + "}"
    ensures Lex(s, 15) == Lexed(StringToken([100, 46, 101, 46, 102]), 22)
  {
    PeriodKeysStep15(s);
    PeriodKeysStep16(s);
  }

  lemma PeriodKeysStep18(s: string)
    requires s == "{\"a." + "b\":3" + ",\"c\"" + ":2,\"" + "d.e." + "f\":{" + "\"g.h" + ".i.j" + "\":1}" + "}"
    ensures [] + [100] == [100] && [100] + [46] == [100, 46] && [100, 46] + [101] == [100, 46, 101] && LexString(s, 15, 19, [100, 46, 101]) == Lexed(StringToken([100, 46, 101, 46, 102]), 22) && LexString(s, 15, 18, [100, 46]) == Lexed(StringToken([100, 46, 101, 46, 102]), 22)
  {
    assert [] + [100] == [100];
    assert [100] + [46] == [100, 46];
    assert [100, 46] + [101] == [100, 46, 101];
    PeriodKeysStep14(s);
    assert LexString(s, 15, 18, [100, 46]) == Lexed(StringToken([100, 46, 101, 46, 102]), 22);
  }

  lemma PeriodKeysStep19(s: string)
    requires s == "{\"a." + "b\":3" + ",\"c\"" + ":2,\"" + "d.e." + "f\":{" + "\"g.h" + ".i.j" + "\":1}" + "}"
    ensures LexString(s, 15, 17, [100]) == Lexed(StringToken([100, 46, 101, 46, 102]), 22) && LexString(s, 15, 16, []) == Lexed(StringToken([100, 46, 101, 46, 102]), 22)
  {
    PeriodKeysStep18(s);
    assert LexString(s, 15, 17, [100]) == Lexed(StringToken([100, 46, 101, 46, 102]), 22);
    assert LexString(s, 15, 16, []) == Lexed(StringToken([100, 46, 101, 46, 102]), 22);
  }

  lemma PeriodKeysStep20(s: string)
    requires s == "{\"a." + "b\":3" + ",\"c\"" + ":2,\"" + "d.e." + "f\":{" + "\"g.h" + ".i.j" + "\":1}" + "}"
    ensures LexString(s, 24, 32, [103, 46, 104, 46, 105, 46, 106]) == Lexed(StringToken([103, 46, 104, 46, 105, 46, 106]), 33)
  {
  }

  lemma PeriodKeysStep21(s: string)
    requires s == "{\"a." + "b\":3" + ",\"c\"" + ":2,\"" + "d.e." + "f\":{" + "\"g.h" + ".i.j" + "\":1}" + "}"
    ensures [103, 46, 104] + [46] == [103, 46, 104, 46] && [103, 46, 104, 46] + [105] == [103, 46, 104, 46, 105] && [103, 46, 104, 46, 105] + [46] == [103, 46, 104, 46, 105, 46] && [103, 46, 104, 46, 105, 46] + [106] == [103, 46, 104, 46, 105, 46, 106] && LexString(s, 24, 32, [103, 46, 104, 46, 105, 46, 106]) == Lexed(StringToken([103, 46, 104, 46, 105, 46, 106]), 33)
  {
    assert [103, 46, 104] + [46] == [103, 46, 104, 46];
    assert [103, 46, 104, 46] + [105] == [103, 46, 104, 46, 105];
    assert [103, 46, 104, 46, 105] + [46] == [103, 46, 104, 46, 105, 46];
    assert [103, 46, 104, 46, 105, 46] + [106] == [103, 46, 104, 46, 105, 46, 106];
    PeriodKeysStep20(s);
  }

  lemma PeriodKeysStep22(s: string)
    requires s == "{\"a." + "b\":3" + ",\"c\"" + ":2,\"" + "d.e." + "f\":{" + "\"g.h" + ".i.j" + "\":1}" + "}"
    ensures LexString(s, 24, 31, [103, 46, 104, 46, 105, 46]) == Lexed(StringToken([103, 46, 104, 46, 105, 46, 106]), 33) && LexString(s, 24, 30, [103, 46, 104, 46, 105]) == Lexed(StringToken([103, 46, 104, 46, 105, 46, 106]), 33) && LexString(s, 24, 29, [103, 46, 104, 46]) == Lexed(StringToken([103, 46, 104, 46, 105, 46, 106]), 33)
  {
    PeriodKeysStep21(s);
    assert LexString(s, 24, 31, [103, 46, 104, 46, 105, 46]) == Lexed(StringToken([103, 46, 104, 46, 105, 46, 106]), 33);
    assert LexString(s, 24, 30, [103, 46, 104, 46, 105]) == Lexed(StringToken([103, 46, 104, 46, 105, 46, 106]), 33);
    assert LexString(s, 24, 29, [103, 46, 104, 46]) == Lexed(StringToken([103, 46, 104, 46, 105, 46, 106]), 33);
  }

  lemma PeriodKeysStep23(s: string)
    requires s == "{\"a." + "b\":3" + ",\"c\"" + ":2,\"" + "d.e." + "f\":{" + "\"g.h" + ".i.j" + "\":1}" + "}"
    ensures LexString(s, 24, 28, [103, 46, 104]) == Lexed(StringToken([103, 46, 104, 46, 105, 46, 106]), 33)
  {
    PeriodKeysStep21(s);
    PeriodKeysStep22(s);
  }

  lemma PeriodKeysStep24(s: string)
    requires s == "{\"a." + "b\":3" + ",\"c\"" + ":2,\"" + "d.e." + "f\":{" + "\"g.h" + ".i.j" + "\":1}" + "}"
    ensures [] + [103] == [103] && [103] + [46] == [103, 46] && [103, 46] + [104] == [103, 46, 104] && LexString(s, 24, 28, [103, 46, 104]) == Lexed(StringToken([103, 46, 104, 46, 105, 46, 106]), 33) && LexString(s, 24, 27, [103, 46]) == Lexed(StringToken([103, 46, 104, 46, 105, 46, 106]), 33)
  {
    assert [] + [103] == [103];
    assert [103] + [46] == [103, 46];
    assert [103, 46] + [104] == [103, 46, 104];
    PeriodKeysStep23(s);
    assert LexString(s, 24, 27, [103, 46]) == Lexed(StringToken([103, 46, 104, 46, 105, 46, 106]), 33);
  }

  lemma PeriodKeysStep25(s: string)
    requires s == "{\"a." + "b\":3" + ",\"c\"" + ":2,\"" + "d.e." + "f\":{" + "\"g.h" + ".i.j" + "\":1}" + "}"
    ensures LexString(s, 24, 26, [103]) == Lexed(StringToken([103, 46, 104, 46, 105, 46, 106]), 33) && LexString(s, 24, 25, []) == Lexed(StringToken([103, 46, 104, 46, 105, 46, 106]), 33)
  {
    PeriodKeysStep24(s);
    assert LexString(s, 24, 26, [103]) == Lexed(StringToken([103, 46, 104, 46, 105, 46, 106]), 33);
    assert LexString(s, 24, 25, []) == Lexed(StringToken([103, 46, 104, 46, 105, 46, 106]), 33);
  }

  lemma PeriodKeysStep26(s: string)
    requires s == "{\"a." + "b\":3" + ",\"c\"" + ":2,\"" + "d.e." + "f\":{" + "\"g.h" + ".i.j" + "\":1}" + "}"
    ensures Lex(s, 24) == Lexed(StringToken([103, 46, 104, 46, 105, 46, 106]), 33)
  {
    PeriodKeysStep24(s);
    PeriodKeysStep25(s);
  }

  lemma PeriodKeysStep27(s: string)
    requires s == "{\"a." + "b\":3" + ",\"c\"" + ":2,\"" + "d.e." + "f\":{" + "\"g.h" + ".i.j" + "\":1}" + "}"
    ensures [103, 46, 104] + [46] == [103, 46, 104, 46] && [103, 46, 104, 46] + [105] == [103, 46, 104, 46, 105] && [103, 46, 104, 46, 105] + [46] == [103, 46, 104, 46, 105, 46] && [103, 46, 104, 46, 105, 46] + [106] == [103, 46, 104, 46, 105, 46, 106] && LexString(s, 24, 32, [103, 46, 104, 46, 105, 46, 106]) == Lexed(StringToken([103, 46, 104, 46, 105, 46, 106]), 33)
  {
    assert [103, 46, 104] + [46] == [103, 46, 104, 46];
    assert [103, 46, 104, 46] + [105] == [103, 46, 104, 46, 105];
    assert [103, 46, 104, 46, 105] + [46] == [103, 46, 104, 46, 105, 46];
    assert [103, 46, 104, 46, 105, 46] + [106] == [103, 46, 104, 46, 105, 46, 106];
    PeriodKeysStep20(s);
  }

  lemma PeriodKeysStep28(s: string)
    requires s == "{\"a." + "b\":3" + ",\"c\"" + ":2,\"" + "d.e." + "f\":{" + "\"g.h" + ".i.j" + "\":1}" + "}"
    ensures LexString(s, 24, 31, [103, 46, 104, 46, 105, 46]) == Lexed(StringToken([103, 46, 104, 46, 105, 46, 106]), 33) && LexString(s, 24, 30, [103, 46, 104, 46, 105]) == Lexed(StringToken([103, 46, 104, 46, 105, 46, 106]), 33) && LexString(s, 24, 29, [103, 46, 104, 46]) == Lexed(StringToken([103, 46, 104, 46, 105, 46, 106]), 33)
  {
    PeriodKeysStep27(s);
    assert LexString(s, 24, 31, [103, 46, 104, 46, 105, 46]) == Lexed(StringToken([103, 46, 104, 46, 105, 46, 106]), 33);
    assert LexString(s, 24, 30, [103, 46, 104, 46, 105]) == Lexed(StringToken([103, 46, 104, 46, 105, 46, 106]), 33);
    assert LexString(s, 24, 29, [103, 46, 104, 46]) == Lexed(StringToken([103, 46, 104, 46, 105, 46, 106]), 33);
  }

  lemma PeriodKeysStep29(s: string)
    requires s == "{\"a." + "b\":3" + ",\"c\"" + ":2,\"" + "d.e." + "f\":{" + "\"g.h" + ".i.j" + "\":1}" + "}"
    ensures [] + [103] == [103] && [103] + [46] == [103, 46] && [103, 46] + [104] == [103, 46, 104] && LexString(s, 24, 28, [103, 46, 104]) == Lexed(StringToken([103, 46, 104, 46, 105, 46, 106]), 33) && LexString(s, 24, 27, [103, 46]) == Lexed(StringToken([103, 46, 104, 46, 105, 46, 106]), 33)
  {
    assert [] + [103] == [103];
    assert [103] + [46] == [103, 46];
    assert [103, 46] + [104] == [103, 46, 104];
    PeriodKeysStep23(s);
    assert LexString(s, 24, 27, [103, 46]) == Lexed(StringToken([103, 46, 104, 46, 105, 46, 106]), 33);
  }

  lemma PeriodKeysStep30(s: string)
    requires s == "{\"a." + "b\":3" + ",\"c\"" + ":2,\"" + "d.e." + "f\":{" + "\"g.h" + ".i.j" + "\":1}" + "}"
    ensures LexString(s, 24, 26, [103]) == Lexed(StringToken([103, 46, 104, 46, 105, 46, 106]), 33) && LexString(s, 24, 25, []) == Lexed(StringToken([103, 46, 104, 46, 105, 46, 106]), 33)
  {
    PeriodKeysStep29(s);
    assert LexString(s, 24, 26, [103]) == Lexed(StringToken([103, 46, 104, 46, 105, 46, 106]), 33);
    assert LexString(s, 24, 25, []) == Lexed(StringToken([103, 46, 104, 46, 105, 46, 106]), 33);
  }

  lemma PeriodKeysStep31(s: string)
    requires s == "{\"a." + "b\":3" + ",\"c\"" + ":2,\"" + "d.e." + "f\":{" + "\"g.h" + ".i.j" + "\":1}" + "}"
    ensures DigitRunEnd(s, 35) == 35
  {
  }

  lemma PeriodKeysStep32(s: string)
    requires s == "{\"a." + "b\":3" + ",\"c\"" + ":2,\"" + "d.e." + "f\":{" + "\"g.h" + ".i.j" + "\":1}" + "}"
    ensures Lex(s, 34) == Lexed(NumberToken("1"), 35)
  {
    PeriodKeysStep31(s);
    assert DigitRunEnd(s, 34) == 35;
    assert ExponentEnd(s, 35) == Some(35);
    assert s[34..35] == "1";
    assert LexNumber(s, 34) == Lexed(NumberToken("1"), 35);
  }

  lemma PeriodKeysStep33(s: string)
    requires s == "{\"a." + "b\":3" + ",\"c\"" + ":2,\"" + "d.e." + "f\":{" + "\"g.h" + ".i.j" + "\":1}" + "}"
    ensures DigitsValue("1") == 1
  {
  }

  lemma PeriodKeysStep34(s: string)
    requires s == "{\"a." + "b\":3" + ",\"c\"" + ":2,\"" + "d.e." + "f\":{" + "\"g.h" + ".i.j" + "\":1}" + "}"
    ensures ParseValue(s, 34, 2, false, false) == Parsed(Integer(1), 35)
  {
    assert SkipTrivia(s, 34) == 34;
    PeriodKeysStep32(s);
    PeriodKeysStep33(s);
    assert DecodeNumber("1") == Integer(1);
  }

  lemma PeriodKeysStep35(s: string)
    requires s == "{\"a." + "b\":3" + ",\"c\"" + ":2,\"" + "d.e." + "f\":{" + "\"g.h" + ".i.j" + "\":1}" + "}"
    ensures ParseMemberValue(s, 34, 2, map[], [103, 46, 104, 46, 105, 46, 106], false) == Parsed(Dict(map[[103, 46, 104, 46, 105, 46, 106] := Integer(1)]), 36)
  {
    assert map[][[103, 46, 104, 46, 105, 46, 106] := Integer(1)] == map[[103, 46, 104, 46, 105, 46, 106] := Integer(1)];
    assert SkipTrivia(s, 35) == 35;
    assert Lex(s, 35) == Lexed(ObjectEnd, 36);
    PeriodKeysStep34(s);
  }

  lemma PeriodKeysStep36(s: string)
    requires s == "{\"a." + "b\":3" + ",\"c\"" + ":2,\"" + "d.e." + "f\":{" + "\"g.h" + ".i.j" + "\":1}" + "}"
    ensures ParseMembers(s, 24, 2, map[], false) == Parsed(Dict(map[[103, 46, 104, 46, 105, 46, 106] := Integer(1)]), 36)
  {
    PeriodKeysStep26(s);
    assert SkipTrivia(s, 33) == 33;
    assert Lex(s, 33) == Lexed(PairSeparator, 34);
    assert SkipTrivia(s, 34) == 34;
    PeriodKeysStep35(s);
  }

  lemma PeriodKeysStep37(s: string)
    requires s == "{\"a." + "b\":3" + ",\"c\"" + ":2,\"" + "d.e." + "f\":{" + "\"g.h" + ".i.j" + "\":1}" + "}"
    ensures ParseObject(s, 24, 2, false) == Parsed(Dict(map[[103, 46, 104, 46, 105, 46, 106] := Integer(1)]), 36)
  {
    assert SkipTrivia(s, 24) == 24;
    PeriodKeysStep26(s);
    PeriodKeysStep36(s);
  }

  lemma PeriodKeysStep38(s: string)
    requires s == "{\"a." + "b\":3" + ",\"c\"" + ":2,\"" + "d.e." + "f\":{" + "\"g.h" + ".i.j" + "\":1}" + "}"
    ensures ParseValue(s, 23, 1, false, false) == Parsed(Dict(map[[103, 46, 104, 46, 105, 46, 106] := Integer(1)]), 36)
  {
    assert s[23] == '{';
    DictAt(s, 23, 1, false);
    PeriodKeysStep37(s);
  }

  lemma PeriodKeysStep39(s: string)
    requires s == "{\"a." + "b\":3" + ",\"c\"" + ":2,\"" + "d.e." + "f\":{" + "\"g.h" + ".i.j" + "\":1}" + "}"
    ensures ParseMemberValue(s, 23, 1, map[[97, 46, 98] := Integer(3), [99] := Integer(2)], [100, 46, 101, 46, 102], false) == Parsed(Dict(map[[97, 46, 98] := Integer(3), [99] := Integer(2), [100, 46, 101, 46, 102] := Dict(map[[103, 46, 104, 46, 105, 46, 106] := Integer(1)])]), 37)
  {
    assert map[[97, 46, 98] := Integer(3), [99] := Integer(2)][[100, 46, 101, 46, 102] := Dict(map[[103, 46, 104, 46, 105, 46, 106] := Integer(1)])] == map[[97, 46, 98] := Integer(3), [99] := Integer(2), [100, 46, 101, 46, 102] := Dict(map[[103, 46, 104, 46, 105, 46, 106] := Integer(1)])];
    assert SkipTrivia(s, 36) == 36;
    assert Lex(s, 36) == Lexed(ObjectEnd, 37);
    PeriodKeysStep38(s);
  }

  lemma PeriodKeysStep40(s: string)
    requires s == "{\"a." + "b\":3" + ",\"c\"" + ":2,\"" + "d.e." + "f\":{" + "\"g.h" + ".i.j" + "\":1}" + "}"
    ensures ParseMembers(s, 15, 1, map[[97, 46, 98] := Integer(3), [99] := Integer(2)], false) == Parsed(Dict(map[[97, 46, 98] := Integer(3), [99] := Integer(2), [100, 46, 101, 46, 102] := Dict(map[[103, 46, 104, 46, 105, 46, 106] := Integer(1)])]), 37)
  {
    PeriodKeysStep17(s);
    assert SkipTrivia(s, 22) == 22;
    assert Lex(s, 22) == Lexed(PairSeparator, 23);
    assert SkipTrivia(s, 23) == 23;
    PeriodKeysStep39(s);
  }

  lemma PeriodKeysStep41(s: string)
    requires s == "{\"a." + "b\":3" + ",\"c\"" + ":2,\"" + "d.e." + "f\":{" + "\"g.h" + ".i.j" + "\":1}" + "}"
    ensures map[[97, 46, 98] := Integer(3)][[99] := Integer(2)] == map[[97, 46, 98] := Integer(3), [99] := Integer(2)] && SkipTrivia(s, 14) == 14 && Lex(s, 14) == Lexed(ListSeparator, 15) && SkipTrivia(s, 15) == 15 && Lex(s, 15) == Lexed(StringToken([100, 46, 101, 46, 102]), 22)
  {
    assert map[[97, 46, 98] := Integer(3)][[99] := Integer(2)] == map[[97, 46, 98] := Integer(3), [99] := Integer(2)];
    assert SkipTrivia(s, 14) == 14;
    assert Lex(s, 14) == Lexed(ListSeparator, 15);
    assert SkipTrivia(s, 15) == 15;
    PeriodKeysStep17(s);
  }

  lemma PeriodKeysStep42(s: string)
    requires s == "{\"a." + "b\":3" + ",\"c\"" + ":2,\"" + "d.e." + "f\":{" + "\"g.h" + ".i.j" + "\":1}" + "}"
    ensures ParseMemberValue(s, 13, 1, map[[97, 46, 98] := Integer(3)], [99], false) == Parsed(Dict(map[[97, 46, 98] := Integer(3), [99] := Integer(2), [100, 46, 101, 46, 102] := Dict(map[[103, 46, 104, 46, 105, 46, 106] := Integer(1)])]), 37)
  {
    PeriodKeysStep41(s);
    PeriodKeysStep13(s);
    PeriodKeysStep40(s);
  }

  lemma PeriodKeysStep43(s: string)
    requires s == "{\"a." + "b\":3" + ",\"c\"" + ":2,\"" + "d.e." + "f\":{" + "\"g.h" + ".i.j" + "\":1}" + "}"
    ensures ParseMembers(s, 9, 1, map[[97, 46, 98] := Integer(3)], false) == Parsed(Dict(map[[97, 46, 98] := Integer(3), [99] := Integer(2), [100, 46, 101, 46, 102] := Dict(map[[103, 46, 104, 46, 105, 46, 106] := Integer(1)])]), 37)
  {
    PeriodKeysStep10(s);
    assert SkipTrivia(s, 12) == 12;
    assert Lex(s, 12) == Lexed(PairSeparator, 13);
    assert SkipTrivia(s, 13) == 13;
    PeriodKeysStep42(s);
  }

  lemma PeriodKeysStep44(s: string)
    requires s == "{\"a." + "b\":3" + ",\"c\"" + ":2,\"" + "d.e." + "f\":{" + "\"g.h" + ".i.j" + "\":1}" + "}"
    ensures map[][[97, 46, 98] := Integer(3)] == map[[97, 46, 98] := Integer(3)] && SkipTrivia(s, 8) == 8 && Lex(s, 8) == Lexed(ListSeparator, 9) && SkipTrivia(s, 9) == 9 && Lex(s, 9) == Lexed(StringToken([99]), 12)
  {
    assert map[][[97, 46, 98] := Integer(3)] == map[[97, 46, 98] := Integer(3)];
    assert SkipTrivia(s, 8) == 8;
    assert Lex(s, 8) == Lexed(ListSeparator, 9);
    assert SkipTrivia(s, 9) == 9;
    PeriodKeysStep10(s);
  }

  lemma PeriodKeysStep45(s: string)
    requires s == "{\"a." + "b\":3" + ",\"c\"" + ":2,\"" + "d.e." + "f\":{" + "\"g.h" + ".i.j" + "\":1}" + "}"
    ensures ParseMemberValue(s, 7, 1, map[], [97, 46, 98], false) == Parsed(Dict(map[[97, 46, 98] := Integer(3), [99] := Integer(2), [100, 46, 101, 46, 102] := Dict(map[[103, 46, 104, 46, 105, 46, 106] := Integer(1)])]), 37)
  {
    PeriodKeysStep44(s);
    PeriodKeysStep9(s);
    PeriodKeysStep43(s);
  }

  lemma PeriodKeysStep46(s: string)
    requires s == "{\"a." + "b\":3" + ",\"c\"" + ":2,\"" + "d.e." + "f\":{" + "\"g.h" + ".i.j" + "\":1}" + "}"
    ensures ParseMembers(s, 1, 1, map[], false) == Parsed(Dict(map[[97, 46, 98] := Integer(3), [99] := Integer(2), [100, 46, 101, 46, 102] := Dict(map[[103, 46, 104, 46, 105, 46, 106] := Integer(1)])]), 37)
  {
    PeriodKeysStep4(s);
    assert SkipTrivia(s, 6) == 6;
    assert Lex(s, 6) == Lexed(PairSeparator, 7);
    assert SkipTrivia(s, 7) == 7;
    PeriodKeysStep45(s);
  }

  lemma PeriodKeysStep47(s: string)
    requires s == "{\"a." + "b\":3" + ",\"c\"" + ":2,\"" + "d.e." + "f\":{" + "\"g.h" + ".i.j" + "\":1}" + "}"
    ensures ParseObject(s, 1, 1, false) == Parsed(Dict(map[[97, 46, 98] := Integer(3), [99] := Integer(2), [100, 46, 101, 46, 102] := Dict(map[[103, 46, 104, 46, 105, 46, 106] := Integer(1)])]), 37)
  {
    assert SkipTrivia(s, 1) == 1;
    PeriodKeysStep4(s);
    PeriodKeysStep46(s);
  }

  lemma PeriodKeysStep48(s: string)
    requires s == "{\"a." + "b\":3" + ",\"c\"" + ":2,\"" + "d.e." + "f\":{" + "\"g.h" + ".i.j" + "\":1}" + "}"
    ensures ParseValue(s, 0, 0, true, false) == Parsed(Dict(map[[97, 46, 98] := Integer(3), [99] := Integer(2), [100, 46, 101, 46, 102] := Dict(map[[103, 46, 104, 46, 105, 46, 106] := Integer(1)])]), 37)
  {
    RootDict(s, true, false);
    PeriodKeysStep47(s);
  }

  // ---------------------------------------------------------------------------
  // Inputs compared with each other, and inputs too large to write out

  /** The list with a trailing comma, allowed, equals the list without one. */
  lemma ArrayTrailingCommaMatches(a: string, b: string)
    requires a == "[tru" + "e, f" + "alse" + ", nu" + "ll]"
    requires b == "[tru" + "e, f" + "alse" + ", nu" + "ll, " + "]"
    ensures Read(a, false).Some? && |Read(a, false).value.items| == 3
    ensures Read(b, true) == Read(a, false)
  {
    ArrayBasic(a);
    ArrayBasicTrailing(b);
  }

  /** The nested lists with trailing commas at every level, allowed, equal the nested lists without them. */
  lemma NestedArraysTrailingMatches(a: string, b: string)
    requires a == "[[tr" + "ue]," + " []," + " [fa" + "lse," + " []," + " [nu" + "ll]]" + ", nu" + "ll]"
    requires b == "[[tr" + "ue]," + " []," + " [fa" + "lse," + " []," + " [nu" + "ll, " + "] , " + "], n" + "ull," + "]"
    ensures Read(a, false).Some? && |Read(a, false).value.items| == 4
    ensures Read(b, true) == Read(a, false)
  {
    NestedArrays(a);
    NestedArraysTrailing(b);
  }

  /**
   * The dictionary of a double, a null and the key `S` reads the same with a
   * trailing comma and spread over lines ending in a line feed or in a
   * carriage return and a line feed.
   */
  lemma MixedObjectVariantsMatch(a: string, b: string, c: string, d: string)
    requires a == "{\"nu" + "mber" + "\":9." + "8765" + "4321" + ", \"n" + "ull\"" + ":nul" + "l , " + "\"\\x5" + "3\" :" + " \"st" + "r\" }"
    requires b == "{\"nu" + "mber" + "\":9." + "8765" + "4321" + ", \"n" + "ull\"" + ":nul" + "l , " + "\"\\x5" + "3\" :" + " \"st" + "r\", " + "}"
    requires c == "{\n  " + "\"num" + "ber\"" + ":9.8" + "7654" + "321," + "\n  \"" + "null" + "\":nu" + "ll,\n" + "  \"\\" + "x53\"" + ":\"st" + "r\",\n" + "}\n"
    requires d == "{\r\n " + " \"nu" + "mber" + "\":9." + "8765" + "4321" + ",\r\n " + " \"nu" + "ll\":" + "null" + ",\r\n " + " \"\\x" + "53\":" + "\"str" + "\",\r\n" + "}\r\n"
    ensures Read(a, false).Some? && Read(a, false).value.Dict?
    ensures [83] in Read(a, false).value.entries && Read(a, false).value.entries[[83]] == Str([115, 116, 114])
    ensures Read(b, true) == Read(a, false)
    ensures Read(c, true) == Read(a, false)
    ensures Read(d, true) == Read(a, false)
  {
    MixedObject(a);
    MixedObjectTrailing(b);
    MixedObjectNewlines(c);
    MixedObjectCrlf(d);
  }

  /** The nested dictionaries with trailing commas, allowed, equal the nested dictionaries without them. */
  lemma NestedObjectTrailingMatches(a: string, b: string)
    requires a == "{\"in" + "ner\"" + ":{\"a" + "rray" + "\":[t" + "rue]" + "},\"f" + "alse" + "\":fa" + "lse," + "\"d\":" + "{}}"
    requires b == "{\"in" + "ner\"" + ": {\"" + "arra" + "y\":[" + "true" + "] , " + "},\"f" + "alse" + "\":fa" + "lse," + "\"d\":" + "{},}"
    ensures Read(a, false).Some? && Read(a, false).value.Dict?
    ensures Read(b, true) == Read(a, false)
  {
    NestedObject(a);
    NestedObjectTrailing(b);
  }

  /** A successful read leaves the caller's error code and message as they were. */
  lemma SuccessLeavesDiagnostics(s: string, code: int, message: Option<ParseError>)
    requires s == "[42]"
    ensures ReadAndReturnError(s, false, code, message) == Report(Some(List([Integer(42)])), code, message)
  {
    SuccessKeepsCode(s);
  }

  /** A million `[` followed by a million `]` is refused for nesting too deep. */
  lemma MillionBracketsRefused(s: string)
    requires s == seq(1000000, _ => '[') + seq(1000000, _ => ']')
    ensures Read(s, false).None?
    ensures JsonToValue(s, true, false) == Err(ParseError(TooMuchNesting, 1, StackLimit + 1))
  {
    TooDeepIsRefused(s, true, false);
  }

  /** 101 nested lists: the diagnostic names too much nesting at line 1, column 101. */
  lemma NestedListsError(s: string)
    requires s == seq(101, _ => '[') + seq(101, _ => ']')
    ensures ReadAndReturnError(s, false, NoError, None)
         == Report(None, ErrorCode(TooMuchNesting), Some(ParseError(TooMuchNesting, 1, 101)))
  {
    TooDeepIsRefused(s, true, false);
  }

  /** Five thousand and one adjacent empty lists are read as a list of that length. */
  lemma FiveThousandSiblings(n: nat)
    requires n == 5000
    ensures Read(SiblingLists(n), false) == Some(List(Empties(n + 1)))
    ensures |Empties(n + 1)| == 5001
  {
    SiblingListsRead(n, false);
  }
}
