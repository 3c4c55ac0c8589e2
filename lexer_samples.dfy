/** Inputs of the repository's test table, lexed in full. Each `…StepK`
    lemma is one call of `Yield` (the runes it reads and the rule that
    applies), each `…ChunkK` joins a few of them, and `…Tokens` states the
    whole stream: kinds, payloads and positions, ending with EOF.

    Each input string is written as a concatenation of short pieces. The
    pieces join to exactly the string of the test table; they are split so
    that the verifier can take the string apart one piece at a time instead
    of unfolding one long literal. */
module LexingSamples {
  import opened Tokens
  import opened Lexing
  import opened LexingFacts

  /** data_test.go:25-26: a single-quoted string. */
  const SingleQuoted: string := "destination " + "== 'Saturn'"

  lemma SingleQuotedStep0()
    ensures LexFrom(SingleQuoted, LexState(0, 0)) == [LexerToken(IDENT, Text("destination"), 0)] + LexFrom(SingleQuoted, LexState(11, 11))
  {
    assert Scan(SingleQuoted, LexState(0, 0)) == Step(LexerToken(IDENT, Text("destination"), 0), LexState(11, 11)) by {
      assert |SingleQuoted| == 23 && SingleQuoted[0] == 'd' && SingleQuoted[1] == 'e' && SingleQuoted[2] == 's' && SingleQuoted[3] == 't' && SingleQuoted[4] == 'i' && SingleQuoted[5] == 'n' && SingleQuoted[6] == 'a' && SingleQuoted[7] == 't' && SingleQuoted[8] == 'i' && SingleQuoted[9] == 'o' && SingleQuoted[10] == 'n' && SingleQuoted[11] == ' ';
      IdentRule(SingleQuoted, 0, 0, 11);
      assert SingleQuoted[0..11] == "destination";
    }
    LexFromCons(SingleQuoted, LexState(0, 0));
  }

  lemma SingleQuotedStep1()
    ensures LexFrom(SingleQuoted, LexState(11, 11)) == [Simple(EQUAL, 11)] + LexFrom(SingleQuoted, LexState(14, 13))
  {
    assert Scan(SingleQuoted, LexState(11, 11)) == Step(Simple(EQUAL, 11), LexState(14, 13)) by {
      assert |SingleQuoted| == 23 && SingleQuoted[11] == ' ' && SingleQuoted[12] == '=' && SingleQuoted[13] == '=' && SingleQuoted[14] == ' ';
      SkipsWhitespace(SingleQuoted, 11, 11, 12);
    }
    LexFromCons(SingleQuoted, LexState(11, 11));
  }

  lemma SingleQuotedStep2()
    ensures LexFrom(SingleQuoted, LexState(14, 13)) == [LexerToken(STRING, Text("Saturn"), 13)] + LexFrom(SingleQuoted, LexState(23, 21))
  {
    assert Scan(SingleQuoted, LexState(14, 13)) == Step(LexerToken(STRING, Text("Saturn"), 13), LexState(23, 21)) by {
      assert |SingleQuoted| == 23 && SingleQuoted[14] == ' ' && SingleQuoted[15] == '\'' && SingleQuoted[16] == 'S' && SingleQuoted[17] == 'a' && SingleQuoted[18] == 't' && SingleQuoted[19] == 'u' && SingleQuoted[20] == 'r' && SingleQuoted[21] == 'n' && SingleQuoted[22] == '\'';
      SkipsWhitespace(SingleQuoted, 14, 13, 15);
      StringRule(SingleQuoted, 15, 13, 22);
      assert SingleQuoted[16..22] == "Saturn";
    }
    LexFromCons(SingleQuoted, LexState(14, 13));
  }

  lemma SingleQuotedStep3()
    ensures LexFrom(SingleQuoted, LexState(23, 21)) == [Simple(EOF, 21)]
  {
    assert |SingleQuoted| == 23;
  }

  lemma SingleQuotedTokens()
    ensures Lex(SingleQuoted) == [
      LexerToken(IDENT, Text("destination"), 0),
      Simple(EQUAL, 11),
      LexerToken(STRING, Text("Saturn"), 13),
      Simple(EOF, 21)]
  {
    SingleQuotedStep0();
    SingleQuotedStep1();
    SingleQuotedStep2();
    SingleQuotedStep3();
  }

  /** data_test.go:34-35: `true` is an identifier. */
  const Boolean: string := "arrived == t" + "rue"

  lemma BooleanStep0()
    ensures LexFrom(Boolean, LexState(0, 0)) == [LexerToken(IDENT, Text("arrived"), 0)] + LexFrom(Boolean, LexState(7, 7))
  {
    assert Scan(Boolean, LexState(0, 0)) == Step(LexerToken(IDENT, Text("arrived"), 0), LexState(7, 7)) by {
      assert |Boolean| == 15 && Boolean[0] == 'a' && Boolean[1] == 'r' && Boolean[2] == 'r' && Boolean[3] == 'i' && Boolean[4] == 'v' && Boolean[5] == 'e' && Boolean[6] == 'd' && Boolean[7] == ' ';
      IdentRule(Boolean, 0, 0, 7);
      assert Boolean[0..7] == "arrived";
    }
    LexFromCons(Boolean, LexState(0, 0));
  }

  lemma BooleanStep1()
    ensures LexFrom(Boolean, LexState(7, 7)) == [Simple(EQUAL, 7)] + LexFrom(Boolean, LexState(10, 9))
  {
    assert Scan(Boolean, LexState(7, 7)) == Step(Simple(EQUAL, 7), LexState(10, 9)) by {
      assert |Boolean| == 15 && Boolean[7] == ' ' && Boolean[8] == '=' && Boolean[9] == '=' && Boolean[10] == ' ';
      SkipsWhitespace(Boolean, 7, 7, 8);
    }
    LexFromCons(Boolean, LexState(7, 7));
  }

  lemma BooleanStep2()
    ensures LexFrom(Boolean, LexState(10, 9)) == [LexerToken(IDENT, Text("true"), 9)] + LexFrom(Boolean, LexState(15, 13))
  {
    assert Scan(Boolean, LexState(10, 9)) == Step(LexerToken(IDENT, Text("true"), 9), LexState(15, 13)) by {
      assert |Boolean| == 15 && Boolean[10] == ' ' && Boolean[11] == 't' && Boolean[12] == 'r' && Boolean[13] == 'u' && Boolean[14] == 'e';
      SkipsWhitespace(Boolean, 10, 9, 11);
      IdentRule(Boolean, 11, 9, 15);
      assert Boolean[11..15] == "true";
    }
    LexFromCons(Boolean, LexState(10, 9));
  }

  lemma BooleanStep3()
    ensures LexFrom(Boolean, LexState(15, 13)) == [Simple(EOF, 13)]
  {
    assert |Boolean| == 15;
  }

  lemma BooleanTokens()
    ensures Lex(Boolean) == [
      LexerToken(IDENT, Text("arrived"), 0),
      Simple(EQUAL, 7),
      LexerToken(IDENT, Text("true"), 9),
      Simple(EOF, 13)]
  {
    BooleanStep0();
    BooleanStep1();
    BooleanStep2();
    BooleanStep3();
  }

  /** data_test.go:84-85: a number with a second dot is ILLEGAL. */
  const SecondDot: string := "destination " + "== \"Saturn\" " + "&& speed > 2" + "80.32. && sp" + "eed < 1000"

  lemma SecondDotStep0()
    ensures LexFrom(SecondDot, LexState(0, 0)) == [LexerToken(IDENT, Text("destination"), 0)] + LexFrom(SecondDot, LexState(11, 11))
  {
    assert Scan(SecondDot, LexState(0, 0)) == Step(LexerToken(IDENT, Text("destination"), 0), LexState(11, 11)) by {
      assert |SecondDot| == 58 && SecondDot[0] == 'd' && SecondDot[1] == 'e' && SecondDot[2] == 's' && SecondDot[3] == 't' && SecondDot[4] == 'i' && SecondDot[5] == 'n' && SecondDot[6] == 'a' && SecondDot[7] == 't' && SecondDot[8] == 'i' && SecondDot[9] == 'o' && SecondDot[10] == 'n' && SecondDot[11] == ' ';
      IdentRule(SecondDot, 0, 0, 11);
      assert SecondDot[0..11] == "destination";
    }
    LexFromCons(SecondDot, LexState(0, 0));
  }

  lemma SecondDotStep1()
    ensures LexFrom(SecondDot, LexState(11, 11)) == [Simple(EQUAL, 11)] + LexFrom(SecondDot, LexState(14, 13))
  {
    assert Scan(SecondDot, LexState(11, 11)) == Step(Simple(EQUAL, 11), LexState(14, 13)) by {
      assert |SecondDot| == 58 && SecondDot[11] == ' ' && SecondDot[12] == '=' && SecondDot[13] == '=' && SecondDot[14] == ' ';
      SkipsWhitespace(SecondDot, 11, 11, 12);
    }
    LexFromCons(SecondDot, LexState(11, 11));
  }

  lemma SecondDotStep2()
    ensures LexFrom(SecondDot, LexState(14, 13)) == [LexerToken(STRING, Text("Saturn"), 13)] + LexFrom(SecondDot, LexState(23, 21))
  {
    assert Scan(SecondDot, LexState(14, 13)) == Step(LexerToken(STRING, Text("Saturn"), 13), LexState(23, 21)) by {
      assert |SecondDot| == 58 && SecondDot[14] == ' ' && SecondDot[15] == '"' && SecondDot[16] == 'S' && SecondDot[17] == 'a' && SecondDot[18] == 't' && SecondDot[19] == 'u' && SecondDot[20] == 'r' && SecondDot[21] == 'n' && SecondDot[22] == '"' && SecondDot[23] == ' ';
      SkipsWhitespace(SecondDot, 14, 13, 15);
      StringRule(SecondDot, 15, 13, 22);
      assert SecondDot[16..22] == "Saturn";
    }
    LexFromCons(SecondDot, LexState(14, 13));
  }

  lemma SecondDotStep3()
    ensures LexFrom(SecondDot, LexState(23, 21)) == [Simple(AND, 21)] + LexFrom(SecondDot, LexState(26, 23))
  {
    assert Scan(SecondDot, LexState(23, 21)) == Step(Simple(AND, 21), LexState(26, 23)) by {
      assert |SecondDot| == 58 && SecondDot[23] == ' ' && SecondDot[24] == '&' && SecondDot[25] == '&' && SecondDot[26] == ' ';
      SkipsWhitespace(SecondDot, 23, 21, 24);
    }
    LexFromCons(SecondDot, LexState(23, 21));
  }

  lemma SecondDotStep4()
    ensures LexFrom(SecondDot, LexState(26, 23)) == [LexerToken(IDENT, Text("speed"), 23)] + LexFrom(SecondDot, LexState(32, 28))
  {
    assert Scan(SecondDot, LexState(26, 23)) == Step(LexerToken(IDENT, Text("speed"), 23), LexState(32, 28)) by {
      assert |SecondDot| == 58 && SecondDot[26] == ' ' && SecondDot[27] == 's' && SecondDot[28] == 'p' && SecondDot[29] == 'e' && SecondDot[30] == 'e' && SecondDot[31] == 'd' && SecondDot[32] == ' ';
      SkipsWhitespace(SecondDot, 26, 23, 27);
      IdentRule(SecondDot, 27, 23, 32);
      assert SecondDot[27..32] == "speed";
    }
    LexFromCons(SecondDot, LexState(26, 23));
  }

  lemma SecondDotStep5()
    ensures LexFrom(SecondDot, LexState(32, 28)) == [Simple(GREATER, 28)] + LexFrom(SecondDot, LexState(35, 30))
  {
    assert Scan(SecondDot, LexState(32, 28)) == Step(Simple(GREATER, 28), LexState(35, 30)) by {
      assert |SecondDot| == 58 && SecondDot[32] == ' ' && SecondDot[33] == '>' && SecondDot[34] == ' ' && SecondDot[35] == '2';
      SkipsWhitespace(SecondDot, 32, 28, 33);
    }
    LexFromCons(SecondDot, LexState(32, 28));
  }

  lemma SecondDotStep6()
    ensures LexFrom(SecondDot, LexState(35, 30)) == [LexerToken(ILLEGAL, IntValue(0), 30)] + LexFrom(SecondDot, LexState(42, 37))
  {
    assert Scan(SecondDot, LexState(35, 30)) == Step(LexerToken(ILLEGAL, IntValue(0), 30), LexState(42, 37)) by {
      assert |SecondDot| == 58 && SecondDot[35] == '2' && SecondDot[36] == '8' && SecondDot[37] == '0' && SecondDot[38] == '.' && SecondDot[39] == '3' && SecondDot[40] == '2' && SecondDot[41] == '.' && SecondDot[42] == ' ';
      SecondDotRule(SecondDot, 35, 30, 38, 41);
    }
    LexFromCons(SecondDot, LexState(35, 30));
  }

  lemma SecondDotStep7()
    ensures LexFrom(SecondDot, LexState(42, 37)) == [Simple(AND, 37)] + LexFrom(SecondDot, LexState(45, 39))
  {
    assert Scan(SecondDot, LexState(42, 37)) == Step(Simple(AND, 37), LexState(45, 39)) by {
      assert |SecondDot| == 58 && SecondDot[42] == ' ' && SecondDot[43] == '&' && SecondDot[44] == '&' && SecondDot[45] == ' ';
      SkipsWhitespace(SecondDot, 42, 37, 43);
    }
    LexFromCons(SecondDot, LexState(42, 37));
  }

  lemma SecondDotStep8()
    ensures LexFrom(SecondDot, LexState(45, 39)) == [LexerToken(IDENT, Text("speed"), 39)] + LexFrom(SecondDot, LexState(51, 44))
  {
    assert Scan(SecondDot, LexState(45, 39)) == Step(LexerToken(IDENT, Text("speed"), 39), LexState(51, 44)) by {
      assert |SecondDot| == 58 && SecondDot[45] == ' ' && SecondDot[46] == 's' && SecondDot[47] == 'p' && SecondDot[48] == 'e' && SecondDot[49] == 'e' && SecondDot[50] == 'd' && SecondDot[51] == ' ';
      SkipsWhitespace(SecondDot, 45, 39, 46);
      IdentRule(SecondDot, 46, 39, 51);
      assert SecondDot[46..51] == "speed";
    }
    LexFromCons(SecondDot, LexState(45, 39));
  }

  lemma SecondDotStep9()
    ensures LexFrom(SecondDot, LexState(51, 44)) == [Simple(LESS, 44)] + LexFrom(SecondDot, LexState(54, 46))
  {
    assert Scan(SecondDot, LexState(51, 44)) == Step(Simple(LESS, 44), LexState(54, 46)) by {
      assert |SecondDot| == 58 && SecondDot[51] == ' ' && SecondDot[52] == '<' && SecondDot[53] == ' ' && SecondDot[54] == '1';
      SkipsWhitespace(SecondDot, 51, 44, 52);
    }
    LexFromCons(SecondDot, LexState(51, 44));
  }

  lemma SecondDotValue10()
    ensures AllDigits(SecondDot[54..58]) && DecimalValue(SecondDot[54..58]) == 1000
  {
    assert |SecondDot| == 58 && SecondDot[54] == '1' && SecondDot[55] == '0' && SecondDot[56] == '0' && SecondDot[57] == '0';
    assert SecondDot[54..55][..0] == SecondDot[54..54];
    assert DecimalValue(SecondDot[54..55]) == 1;
    assert SecondDot[54..56][..1] == SecondDot[54..55];
    assert DecimalValue(SecondDot[54..56]) == 10;
    assert SecondDot[54..57][..2] == SecondDot[54..56];
    assert DecimalValue(SecondDot[54..57]) == 100;
    assert SecondDot[54..58][..3] == SecondDot[54..57];
  }

  lemma SecondDotStep10()
    ensures LexFrom(SecondDot, LexState(54, 46)) == [LexerToken(INTEGER, IntValue(1000), 46)] + LexFrom(SecondDot, LexState(58, 50))
  {
    assert Scan(SecondDot, LexState(54, 46)) == Step(LexerToken(INTEGER, IntValue(1000), 46), LexState(58, 50)) by {
      assert |SecondDot| == 58 && SecondDot[54] == '1' && SecondDot[55] == '0' && SecondDot[56] == '0' && SecondDot[57] == '0';
      IntegerRule(SecondDot, 54, 46, 58);
      SecondDotValue10();
    }
    LexFromCons(SecondDot, LexState(54, 46));
  }

  lemma SecondDotStep11()
    ensures LexFrom(SecondDot, LexState(58, 50)) == [Simple(EOF, 50)]
  {
    assert |SecondDot| == 58;
  }

  lemma SecondDotChunk9()
    ensures LexFrom(SecondDot, LexState(51, 44)) == [Simple(LESS, 44), LexerToken(INTEGER, IntValue(1000), 46), Simple(EOF, 50)]
  {
    SecondDotStep9(); SecondDotStep10(); SecondDotStep11();
  }

  lemma SecondDotChunk6()
    ensures LexFrom(SecondDot, LexState(35, 30)) == [LexerToken(ILLEGAL, IntValue(0), 30), Simple(AND, 37), LexerToken(IDENT, Text("speed"), 39)] + LexFrom(SecondDot, LexState(51, 44))
  {
    SecondDotStep6(); SecondDotStep7(); SecondDotStep8();
  }

  lemma SecondDotChunk3()
    ensures LexFrom(SecondDot, LexState(23, 21)) == [Simple(AND, 21), LexerToken(IDENT, Text("speed"), 23), Simple(GREATER, 28)] + LexFrom(SecondDot, LexState(35, 30))
  {
    SecondDotStep3(); SecondDotStep4(); SecondDotStep5();
  }

  lemma SecondDotChunk0()
    ensures LexFrom(SecondDot, LexState(0, 0)) == [LexerToken(IDENT, Text("destination"), 0), Simple(EQUAL, 11), LexerToken(STRING, Text("Saturn"), 13)] + LexFrom(SecondDot, LexState(23, 21))
  {
    SecondDotStep0(); SecondDotStep1(); SecondDotStep2();
  }

  lemma SecondDotTokens()
    ensures Lex(SecondDot) == [
      LexerToken(IDENT, Text("destination"), 0),
      Simple(EQUAL, 11),
      LexerToken(STRING, Text("Saturn"), 13),
      Simple(AND, 21),
      LexerToken(IDENT, Text("speed"), 23),
      Simple(GREATER, 28),
      LexerToken(ILLEGAL, IntValue(0), 30),
      Simple(AND, 37),
      LexerToken(IDENT, Text("speed"), 39),
      Simple(LESS, 44),
      LexerToken(INTEGER, IntValue(1000), 46),
      Simple(EOF, 50)]
  {
    SecondDotChunk0();
    SecondDotChunk3();
    SecondDotChunk6();
    SecondDotChunk9();
  }

  /** data_test.go:94-95. */
  const LeadingEqual: string := "== \"Io\""

  lemma LeadingEqualStep0()
    ensures LexFrom(LeadingEqual, LexState(0, 0)) == [Simple(EQUAL, 0)] + LexFrom(LeadingEqual, LexState(2, 2))
  {
    assert Scan(LeadingEqual, LexState(0, 0)) == Step(Simple(EQUAL, 0), LexState(2, 2)) by {
      assert |LeadingEqual| == 7 && LeadingEqual[0] == '=' && LeadingEqual[1] == '=' && LeadingEqual[2] == ' ';
    }
    LexFromCons(LeadingEqual, LexState(0, 0));
  }

  lemma LeadingEqualStep1()
    ensures LexFrom(LeadingEqual, LexState(2, 2)) == [LexerToken(STRING, Text("Io"), 2)] + LexFrom(LeadingEqual, LexState(7, 6))
  {
    assert Scan(LeadingEqual, LexState(2, 2)) == Step(LexerToken(STRING, Text("Io"), 2), LexState(7, 6)) by {
      assert |LeadingEqual| == 7 && LeadingEqual[2] == ' ' && LeadingEqual[3] == '"' && LeadingEqual[4] == 'I' && LeadingEqual[5] == 'o' && LeadingEqual[6] == '"';
      SkipsWhitespace(LeadingEqual, 2, 2, 3);
      StringRule(LeadingEqual, 3, 2, 6);
      assert LeadingEqual[4..6] == "Io";
    }
    LexFromCons(LeadingEqual, LexState(2, 2));
  }

  lemma LeadingEqualStep2()
    ensures LexFrom(LeadingEqual, LexState(7, 6)) == [Simple(EOF, 6)]
  {
    assert |LeadingEqual| == 7;
  }

  lemma LeadingEqualTokens()
    ensures Lex(LeadingEqual) == [
      Simple(EQUAL, 0),
      LexerToken(STRING, Text("Io"), 2),
      Simple(EOF, 6)]
  {
    LeadingEqualStep0();
    LeadingEqualStep1();
    LeadingEqualStep2();
  }

  /** data_test.go:100-101. */
  const LeadingNotEqual: string := "!= speed)("

  lemma LeadingNotEqualStep0()
    ensures LexFrom(LeadingNotEqual, LexState(0, 0)) == [Simple(NOT_EQUAL, 0)] + LexFrom(LeadingNotEqual, LexState(2, 2))
  {
    assert Scan(LeadingNotEqual, LexState(0, 0)) == Step(Simple(NOT_EQUAL, 0), LexState(2, 2)) by {
      assert |LeadingNotEqual| == 10 && LeadingNotEqual[0] == '!' && LeadingNotEqual[1] == '=' && LeadingNotEqual[2] == ' ';
    }
    LexFromCons(LeadingNotEqual, LexState(0, 0));
  }

  lemma LeadingNotEqualStep1()
    ensures LexFrom(LeadingNotEqual, LexState(2, 2)) == [LexerToken(IDENT, Text("speed"), 2)] + LexFrom(LeadingNotEqual, LexState(8, 7))
  {
    assert Scan(LeadingNotEqual, LexState(2, 2)) == Step(LexerToken(IDENT, Text("speed"), 2), LexState(8, 7)) by {
      assert |LeadingNotEqual| == 10 && LeadingNotEqual[2] == ' ' && LeadingNotEqual[3] == 's' && LeadingNotEqual[4] == 'p' && LeadingNotEqual[5] == 'e' && LeadingNotEqual[6] == 'e' && LeadingNotEqual[7] == 'd' && LeadingNotEqual[8] == ')';
      SkipsWhitespace(LeadingNotEqual, 2, 2, 3);
      IdentRule(LeadingNotEqual, 3, 2, 8);
      assert LeadingNotEqual[3..8] == "speed";
    }
    LexFromCons(LeadingNotEqual, LexState(2, 2));
  }

  lemma LeadingNotEqualStep2()
    ensures LexFrom(LeadingNotEqual, LexState(8, 7)) == [Simple(CLOSE, 7)] + LexFrom(LeadingNotEqual, LexState(9, 8))
  {
    assert Scan(LeadingNotEqual, LexState(8, 7)) == Step(Simple(CLOSE, 7), LexState(9, 8)) by {
      assert |LeadingNotEqual| == 10 && LeadingNotEqual[8] == ')' && LeadingNotEqual[9] == '(';
    }
    LexFromCons(LeadingNotEqual, LexState(8, 7));
  }

  lemma LeadingNotEqualStep3()
    ensures LexFrom(LeadingNotEqual, LexState(9, 8)) == [Simple(OPEN, 8)] + LexFrom(LeadingNotEqual, LexState(10, 9))
  {
    assert Scan(LeadingNotEqual, LexState(9, 8)) == Step(Simple(OPEN, 8), LexState(10, 9)) by {
      assert |LeadingNotEqual| == 10 && LeadingNotEqual[9] == '(';
    }
    LexFromCons(LeadingNotEqual, LexState(9, 8));
  }

  lemma LeadingNotEqualStep4()
    ensures LexFrom(LeadingNotEqual, LexState(10, 9)) == [Simple(EOF, 9)]
  {
    assert |LeadingNotEqual| == 10;
  }

  lemma LeadingNotEqualTokens()
    ensures Lex(LeadingNotEqual) == [
      Simple(NOT_EQUAL, 0),
      LexerToken(IDENT, Text("speed"), 2),
      Simple(CLOSE, 7),
      Simple(OPEN, 8),
      Simple(EOF, 9)]
  {
    LeadingNotEqualStep0();
    LeadingNotEqualStep1();
    LeadingNotEqualStep2();
    LeadingNotEqualStep3();
    LeadingNotEqualStep4();
  }

  /** data_test.go:112-113: operators, brackets and a NOT pushed back before `)`. */
  const Mixed: string := "239869235 >=" + " speed && (>" + " < || !))"

  lemma MixedValue0()
    ensures AllDigits(Mixed[0..9]) && DecimalValue(Mixed[0..9]) == 239869235
  {
    assert |Mixed| == 33 && Mixed[0] == '2' && Mixed[1] == '3' && Mixed[2] == '9' && Mixed[3] == '8' && Mixed[4] == '6' && Mixed[5] == '9' && Mixed[6] == '2' && Mixed[7] == '3' && Mixed[8] == '5';
    assert Mixed[0..1][..0] == Mixed[0..0];
    assert DecimalValue(Mixed[0..1]) == 2;
    assert Mixed[0..2][..1] == Mixed[0..1];
    assert DecimalValue(Mixed[0..2]) == 23;
    assert Mixed[0..3][..2] == Mixed[0..2];
    assert DecimalValue(Mixed[0..3]) == 239;
    assert Mixed[0..4][..3] == Mixed[0..3];
    assert DecimalValue(Mixed[0..4]) == 2398;
    assert Mixed[0..5][..4] == Mixed[0..4];
    assert DecimalValue(Mixed[0..5]) == 23986;
    assert Mixed[0..6][..5] == Mixed[0..5];
    assert DecimalValue(Mixed[0..6]) == 239869;
    assert Mixed[0..7][..6] == Mixed[0..6];
    assert DecimalValue(Mixed[0..7]) == 2398692;
    assert Mixed[0..8][..7] == Mixed[0..7];
    assert DecimalValue(Mixed[0..8]) == 23986923;
    assert Mixed[0..9][..8] == Mixed[0..8];
  }

  lemma MixedStep0()
    ensures LexFrom(Mixed, LexState(0, 0)) == [LexerToken(INTEGER, IntValue(239869235), 0)] + LexFrom(Mixed, LexState(9, 9))
  {
    assert Scan(Mixed, LexState(0, 0)) == Step(LexerToken(INTEGER, IntValue(239869235), 0), LexState(9, 9)) by {
      assert |Mixed| == 33 && Mixed[0] == '2' && Mixed[1] == '3' && Mixed[2] == '9' && Mixed[3] == '8' && Mixed[4] == '6' && Mixed[5] == '9' && Mixed[6] == '2' && Mixed[7] == '3' && Mixed[8] == '5' && Mixed[9] == ' ';
      IntegerRule(Mixed, 0, 0, 9);
      MixedValue0();
    }
    LexFromCons(Mixed, LexState(0, 0));
  }

  lemma MixedStep1()
    ensures LexFrom(Mixed, LexState(9, 9)) == [Simple(GREATER_OR_EQUAL, 9)] + LexFrom(Mixed, LexState(12, 11))
  {
    assert Scan(Mixed, LexState(9, 9)) == Step(Simple(GREATER_OR_EQUAL, 9), LexState(12, 11)) by {
      assert |Mixed| == 33 && Mixed[9] == ' ' && Mixed[10] == '>' && Mixed[11] == '=' && Mixed[12] == ' ';
      SkipsWhitespace(Mixed, 9, 9, 10);
    }
    LexFromCons(Mixed, LexState(9, 9));
  }

  lemma MixedStep2()
    ensures LexFrom(Mixed, LexState(12, 11)) == [LexerToken(IDENT, Text("speed"), 11)] + LexFrom(Mixed, LexState(18, 16))
  {
    assert Scan(Mixed, LexState(12, 11)) == Step(LexerToken(IDENT, Text("speed"), 11), LexState(18, 16)) by {
      assert |Mixed| == 33 && Mixed[12] == ' ' && Mixed[13] == 's' && Mixed[14] == 'p' && Mixed[15] == 'e' && Mixed[16] == 'e' && Mixed[17] == 'd' && Mixed[18] == ' ';
      SkipsWhitespace(Mixed, 12, 11, 13);
      IdentRule(Mixed, 13, 11, 18);
      assert Mixed[13..18] == "speed";
    }
    LexFromCons(Mixed, LexState(12, 11));
  }

  lemma MixedStep3()
    ensures LexFrom(Mixed, LexState(18, 16)) == [Simple(AND, 16)] + LexFrom(Mixed, LexState(21, 18))
  {
    assert Scan(Mixed, LexState(18, 16)) == Step(Simple(AND, 16), LexState(21, 18)) by {
      assert |Mixed| == 33 && Mixed[18] == ' ' && Mixed[19] == '&' && Mixed[20] == '&' && Mixed[21] == ' ';
      SkipsWhitespace(Mixed, 18, 16, 19);
    }
    LexFromCons(Mixed, LexState(18, 16));
  }

  lemma MixedStep4()
    ensures LexFrom(Mixed, LexState(21, 18)) == [Simple(OPEN, 18)] + LexFrom(Mixed, LexState(23, 19))
  {
    assert Scan(Mixed, LexState(21, 18)) == Step(Simple(OPEN, 18), LexState(23, 19)) by {
      assert |Mixed| == 33 && Mixed[21] == ' ' && Mixed[22] == '(' && Mixed[23] == '>';
      SkipsWhitespace(Mixed, 21, 18, 22);
    }
    LexFromCons(Mixed, LexState(21, 18));
  }

  lemma MixedStep5()
    ensures LexFrom(Mixed, LexState(23, 19)) == [Simple(GREATER, 19)] + LexFrom(Mixed, LexState(25, 21))
  {
    assert Scan(Mixed, LexState(23, 19)) == Step(Simple(GREATER, 19), LexState(25, 21)) by {
      assert |Mixed| == 33 && Mixed[23] == '>' && Mixed[24] == ' ' && Mixed[25] == '<';
    }
    LexFromCons(Mixed, LexState(23, 19));
  }

  lemma MixedStep6()
    ensures LexFrom(Mixed, LexState(25, 21)) == [Simple(LESS, 21)] + LexFrom(Mixed, LexState(27, 23))
  {
    assert Scan(Mixed, LexState(25, 21)) == Step(Simple(LESS, 21), LexState(27, 23)) by {
      assert |Mixed| == 33 && Mixed[25] == '<' && Mixed[26] == ' ' && Mixed[27] == '|';
    }
    LexFromCons(Mixed, LexState(25, 21));
  }

  lemma MixedStep7()
    ensures LexFrom(Mixed, LexState(27, 23)) == [Simple(OR, 23)] + LexFrom(Mixed, LexState(29, 25))
  {
    assert Scan(Mixed, LexState(27, 23)) == Step(Simple(OR, 23), LexState(29, 25)) by {
      assert |Mixed| == 33 && Mixed[27] == '|' && Mixed[28] == '|' && Mixed[29] == ' ';
    }
    LexFromCons(Mixed, LexState(27, 23));
  }

  lemma MixedStep8()
    ensures LexFrom(Mixed, LexState(29, 25)) == [Simple(NOT, 25)] + LexFrom(Mixed, LexState(31, 26))
  {
    assert Scan(Mixed, LexState(29, 25)) == Step(Simple(NOT, 25), LexState(31, 26)) by {
      assert |Mixed| == 33 && Mixed[29] == ' ' && Mixed[30] == '!' && Mixed[31] == ')';
      SkipsWhitespace(Mixed, 29, 25, 30);
    }
    LexFromCons(Mixed, LexState(29, 25));
  }

  lemma MixedStep9()
    ensures LexFrom(Mixed, LexState(31, 26)) == [Simple(CLOSE, 26)] + LexFrom(Mixed, LexState(32, 27))
  {
    assert Scan(Mixed, LexState(31, 26)) == Step(Simple(CLOSE, 26), LexState(32, 27)) by {
      assert |Mixed| == 33 && Mixed[31] == ')' && Mixed[32] == ')';
    }
    LexFromCons(Mixed, LexState(31, 26));
  }

  lemma MixedStep10()
    ensures LexFrom(Mixed, LexState(32, 27)) == [Simple(CLOSE, 27)] + LexFrom(Mixed, LexState(33, 28))
  {
    assert Scan(Mixed, LexState(32, 27)) == Step(Simple(CLOSE, 27), LexState(33, 28)) by {
      assert |Mixed| == 33 && Mixed[32] == ')';
    }
    LexFromCons(Mixed, LexState(32, 27));
  }

  lemma MixedStep11()
    ensures LexFrom(Mixed, LexState(33, 28)) == [Simple(EOF, 28)]
  {
    assert |Mixed| == 33;
  }

  lemma MixedChunk9()
    ensures LexFrom(Mixed, LexState(31, 26)) == [Simple(CLOSE, 26), Simple(CLOSE, 27), Simple(EOF, 28)]
  {
    MixedStep9(); MixedStep10(); MixedStep11();
  }

  lemma MixedChunk6()
    ensures LexFrom(Mixed, LexState(25, 21)) == [Simple(LESS, 21), Simple(OR, 23), Simple(NOT, 25)] + LexFrom(Mixed, LexState(31, 26))
  {
    MixedStep6(); MixedStep7(); MixedStep8();
  }

  lemma MixedChunk3()
    ensures LexFrom(Mixed, LexState(18, 16)) == [Simple(AND, 16), Simple(OPEN, 18), Simple(GREATER, 19)] + LexFrom(Mixed, LexState(25, 21))
  {
    MixedStep3(); MixedStep4(); MixedStep5();
  }

  lemma MixedChunk0()
    ensures LexFrom(Mixed, LexState(0, 0)) == [LexerToken(INTEGER, IntValue(239869235), 0), Simple(GREATER_OR_EQUAL, 9), LexerToken(IDENT, Text("speed"), 11)] + LexFrom(Mixed, LexState(18, 16))
  {
    MixedStep0(); MixedStep1(); MixedStep2();
  }

  lemma MixedTokens()
    ensures Lex(Mixed) == [
      LexerToken(INTEGER, IntValue(239869235), 0),
      Simple(GREATER_OR_EQUAL, 9),
      LexerToken(IDENT, Text("speed"), 11),
      Simple(AND, 16),
      Simple(OPEN, 18),
      Simple(GREATER, 19),
      Simple(LESS, 21),
      Simple(OR, 23),
      Simple(NOT, 25),
      Simple(CLOSE, 26),
      Simple(CLOSE, 27),
      Simple(EOF, 28)]
  {
    MixedChunk0();
    MixedChunk3();
    MixedChunk6();
    MixedChunk9();
  }

}
