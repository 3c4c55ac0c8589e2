/** The inputs of the repository's test table, parsed: the lexed streams of
    `LexingSamples` fed to `Parse`. Two of them give a tree; the other four
    are syntax errors, each for its own reason. */
module ParsingSamples {
  import opened Tokens
  import opened Ast
  import opened Lexing
  import opened LexingSamples
  import opened Parsing
  import opened ParsingFacts

  /** `destination == 'Saturn'` is one comparison of an identifier with a
      string. */
  lemma SingleQuotedParse()
    ensures IsStream(Lex(SingleQuoted))
    ensures Parse(Lex(SingleQuoted))
      == Success(BinaryExpression(LiteralExpression(LiteralIdent(IDENT, 0)), Operator(EQUAL, 11),
                                  LiteralExpression(LiteralString("Saturn", 13))))
  {
    SingleQuotedTokens();
    var toks := Lex(SingleQuoted);
    assert At(toks, 2) == toks[2] && At(toks, 3) == toks[3];
    assert ParseSuffix(toks, 2) == Ok(LiteralExpression(LiteralString("Saturn", 13)), 2);
    assert At(toks, 0) == toks[0] && At(toks, 1) == toks[1];
    var e := BinaryExpression(LiteralExpression(LiteralIdent(IDENT, 0)), Operator(EQUAL, 11),
                              LiteralExpression(LiteralString("Saturn", 13)));
    assert ParseSuffix(toks, 0) == Ok(e, 2);
    assert ParseExpression(toks, 0) == Ok(e, 2);
  }

  /** `arrived == true`: `true` is an identifier like any other, and the tree
      keeps the kind of each literal token, not its name. */
  lemma BooleanParse()
    ensures IsStream(Lex(Boolean))
    ensures Parse(Lex(Boolean))
      == Success(BinaryExpression(LiteralExpression(LiteralIdent(IDENT, 0)), Operator(EQUAL, 7),
                                  LiteralExpression(LiteralIdent(IDENT, 9))))
  {
    BooleanTokens();
    var toks := Lex(Boolean);
    assert At(toks, 2) == toks[2] && At(toks, 3) == toks[3];
    assert ParseSuffix(toks, 2) == Ok(LiteralExpression(LiteralIdent(IDENT, 9)), 2);
    assert At(toks, 0) == toks[0] && At(toks, 1) == toks[1];
    var e := BinaryExpression(LiteralExpression(LiteralIdent(IDENT, 0)), Operator(EQUAL, 7),
                              LiteralExpression(LiteralIdent(IDENT, 9)));
    assert ParseSuffix(toks, 0) == Ok(e, 2);
    assert ParseExpression(toks, 0) == Ok(e, 2);
  }

  /** `280.32.` lexes as ILLEGAL, and an ILLEGAL token in operand position is
      a syntax error however deep in the chain it sits. */
  lemma SecondDotParse()
    ensures IsStream(Lex(SecondDot))
    ensures Parse(Lex(SecondDot)) == Failure(InvalidSyntax)
  {
    SecondDotTokens();
    var toks := Lex(SecondDot);
    assert At(toks, 6) == toks[6];
    assert ParseSuffix(toks, 6) == Err(InvalidSyntax);
    assert At(toks, 4) == toks[4] && At(toks, 5) == toks[5];
    assert ParseSuffix(toks, 4) == Err(InvalidSyntax);
    assert At(toks, 2) == toks[2] && At(toks, 3) == toks[3];
    assert ParseSuffix(toks, 2) == Err(InvalidSyntax);
    assert At(toks, 0) == toks[0] && At(toks, 1) == toks[1];
    assert ParseSuffix(toks, 0) == Err(InvalidSyntax);
    assert ParseExpression(toks, 0) == Err(InvalidSyntax);
  }

  /** An expression cannot start with `==`. */
  lemma LeadingEqualParse()
    ensures IsStream(Lex(LeadingEqual))
    ensures Parse(Lex(LeadingEqual)) == Failure(InvalidSyntax)
  {
    LeadingEqualTokens();
    BadStart(Lex(LeadingEqual), 0);
  }

  /** An expression cannot start with `!=` either: only `!` is unary. */
  lemma LeadingNotEqualParse()
    ensures IsStream(Lex(LeadingNotEqual))
    ensures Parse(Lex(LeadingNotEqual)) == Failure(InvalidSyntax)
  {
    LeadingNotEqualTokens();
    BadStart(Lex(LeadingNotEqual), 0);
  }

  /** `239869235 >= speed && (…`: a parenthesis on the right of a binary
      operator is a syntax error, whatever follows it. */
  lemma MixedParse()
    ensures IsStream(Lex(Mixed))
    ensures Parse(Lex(Mixed)) == Failure(InvalidSyntax)
  {
    MixedShape();
    ChainIntoGroup(Lex(Mixed));
  }

  /** The first five kinds of that stream, which decide its parse. */
  lemma MixedShape()
    ensures var toks := Lex(Mixed);
      IsStream(toks) && 4 < |toks|
      && toks[0].token == INTEGER && toks[1].token == GREATER_OR_EQUAL
      && toks[2].token == IDENT && toks[3].token == AND && toks[4].token == OPEN
  {
    MixedTokens();
  }

  /** A stream that starts `literal op literal op (` is a syntax error. */
  lemma ChainIntoGroup(toks: seq<LexerToken>)
    requires IsStream(toks) && 4 < |toks|
    requires IsLiteral(toks[0].token) && IsBinaryOperator(toks[1].token)
    requires IsLiteral(toks[2].token) && IsBinaryOperator(toks[3].token) && toks[4].token == OPEN
    ensures Parse(toks) == Failure(InvalidSyntax)
  {
    assert At(toks, 2) == toks[2] && At(toks, 3) == toks[3] && At(toks, 4) == toks[4];
    NoGroupOnTheRight(toks, 2);
    assert ParseSuffix(toks, 2) == Err(InvalidSyntax);
    assert At(toks, 0) == toks[0] && At(toks, 1) == toks[1];
    assert ParseSuffix(toks, 0) == Err(InvalidSyntax);
  }
}
