/** What the parser accepts and what it builds. `Unparse` spells a tree as
    the tokens it was parsed from; the parser builds a tree from the tokens
    at index i exactly when they spell that tree and the token after it
    cannot extend it (`ParseIff`). The rest follows the grammar as
    parser.go has it: right-nested chains of binary operators with a
    literal on the left, NOT over a whole expression, a grouping closed
    right after its inner expression, and nothing after the expression
    looked at. */
module ParsingFacts {
  import opened Tokens
  import opened Ast
  import opened Lexing
  import opened LexingFacts
  import opened Parsing

  // ---------------------------------------------------------------------
  // Spelling a tree as tokens.

  /** The token a literal node is made from. The tree does not keep an
      identifier's text, so any IDENT or FLOAT payload will do. */
  function TokenOf(l: Literal): (t: LexerToken)
    ensures t.position == l.position
  {
    match l
    case LiteralInteger(n, p) => LexerToken(INTEGER, IntValue(n), p)
    case LiteralString(text, p) => LexerToken(STRING, Text(text), p)
    case LiteralIdent(kind, p) => LexerToken(kind, Text(""), p)
  }

  /** The tokens a tree is parsed from, in order. */
  function Unparse(e: Expression): (ts: seq<LexerToken>)
    ensures 0 < |ts|
  {
    match e
    case LiteralExpression(l) => [TokenOf(l)]
    case UnaryExpression(operand, p) => [Simple(NOT, p)] + Unparse(operand)
    case BinaryExpression(left, op, right) => Unparse(left) + [Simple(op.token, op.position)] + Unparse(right)
    case GroupingExpression(open, inner, close) => [Simple(OPEN, open)] + Unparse(inner) + [Simple(CLOSE, close)]
  }

  /** Tokens the parser cannot tell apart: the same kind and position, and
      the same payload where the parser reads one. */
  predicate Same(t: LexerToken, u: LexerToken) {
    t.token == u.token && t.position == u.position
    && (t.token == INTEGER || t.token == STRING ==> t.value == u.value)
  }

  /** From index i the stream holds tokens the same as those of u. */
  predicate Reads(toks: seq<LexerToken>, i: nat, u: seq<LexerToken>) {
    i + |u| <= |toks| && forall k :: 0 <= k < |u| ==> Same(toks[i + k], u[k])
  }

  /** From index i the stream holds the tokens of e, and at least one more. */
  predicate Spelled(toks: seq<LexerToken>, i: nat, e: Expression) {
    i + |Unparse(e)| < |toks| && Reads(toks, i, Unparse(e))
  }

  /** Reading a concatenation is reading its parts one after the other. */
  lemma ReadsConcat(toks: seq<LexerToken>, i: nat, a: seq<LexerToken>, b: seq<LexerToken>)
    ensures Reads(toks, i, a + b) <==> Reads(toks, i, a) && Reads(toks, i + |a|, b)
  {
    var u := a + b;
    if Reads(toks, i, a) && Reads(toks, i + |a|, b) {
      forall k | 0 <= k < |u| ensures Same(toks[i + k], u[k]) {
        if |a| <= k {
          assert Same(toks[i + |a| + (k - |a|)], b[k - |a|]);
        }
      }
    }
    if Reads(toks, i, u) {
      forall k | 0 <= k < |b| ensures Same(toks[i + |a| + k], b[k]) {
        assert Same(toks[i + (|a| + k)], u[|a| + k]);
      }
      forall k | 0 <= k < |a| ensures Same(toks[i + k], a[k]) {
        assert Same(toks[i + k], u[k]);
      }
    }
  }

  /** Whether the last token of e is a literal: then a binary operator after
      it would be taken as part of e. */
  predicate EndsInLiteral(e: Expression) {
    match e
    case LiteralExpression(_) => true
    case UnaryExpression(operand, _) => EndsInLiteral(operand)
    case BinaryExpression(_, _, right) => EndsInLiteral(right)
    case GroupingExpression(_, _, _) => false
  }

  /** The token after the spelling of e at index i does not extend e. */
  predicate Closed(toks: seq<LexerToken>, i: nat, e: Expression)
    requires IsStream(toks)
  {
    EndsInLiteral(e) ==> !IsBinaryOperator(At(toks, i + |Unparse(e)|).token)
  }

  /** None of the tokens of a tree the parser can build is EOF, and a tree
      that is not a grouping does not start with a bracket. */
  lemma {:induction false} UnparsedTokens(e: Expression)
    requires IsExpr(e)
    ensures forall k :: 0 <= k < |Unparse(e)| ==> Unparse(e)[k].token != EOF
    ensures !e.GroupingExpression? ==> Unparse(e)[0].token != OPEN
    decreases e
  {
    match e
    case LiteralExpression(_) =>
    case UnaryExpression(operand, _) =>
      UnparsedTokens(operand);
      forall k | 1 <= k < |Unparse(e)| ensures Unparse(e)[k] == Unparse(operand)[k - 1] { }
    case BinaryExpression(left, op, right) =>
      SuffixIsExpr(right);
      UnparsedTokens(right);
      forall k | 2 <= k < |Unparse(e)| ensures Unparse(e)[k] == Unparse(right)[k - 2] { }
    case GroupingExpression(_, inner, _) =>
      UnparsedTokens(inner);
      forall k | 1 <= k < |Unparse(e)| - 1 ensures Unparse(e)[k] == Unparse(inner)[k - 1] { }
  }

  /** A suffix expression is an expression, and not a grouping. */
  lemma SuffixIsExpr(e: Expression)
    requires IsSuffix(e)
    ensures IsExpr(e) && !e.GroupingExpression?
  {
  }

  /** A token spelling a literal node is read back as that node. */
  lemma LiteralRead(t: LexerToken, l: Literal)
    requires IsLiteralNode(l) && Same(t, TokenOf(l))
    ensures IsLiteral(t.token) && PayloadFits(t) && LiteralOf(t) == l
  {
  }

  /** The node made from a literal token is spelled by that token. */
  lemma LiteralWritten(t: LexerToken)
    requires IsLiteral(t.token) && PayloadFits(t)
    ensures Same(t, TokenOf(LiteralOf(t)))
  {
  }

  // ---------------------------------------------------------------------
  // Spellings of a node in terms of its children.

  lemma SpelledLiteral(toks: seq<LexerToken>, i: nat, l: Literal)
    ensures Spelled(toks, i, LiteralExpression(l)) <==> i + 1 < |toks| && Same(toks[i], TokenOf(l))
  {
    assert Unparse(LiteralExpression(l))[0] == TokenOf(l);
  }

  lemma SpelledUnary(toks: seq<LexerToken>, i: nat, e: Expression)
    requires IsStream(toks) && e.UnaryExpression?
    ensures Spelled(toks, i, e)
      <==> i < |toks| && Same(toks[i], Simple(NOT, e.position)) && Spelled(toks, i + 1, e.operand)
    ensures Closed(toks, i, e) <==> Closed(toks, i + 1, e.operand)
  {
    var head := [Simple(NOT, e.position)];
    ReadsConcat(toks, i, head, Unparse(e.operand));
    assert Reads(toks, i, head) <==> i < |toks| && Same(toks[i], head[0]);
  }

  lemma SpelledBinary(toks: seq<LexerToken>, i: nat, e: Expression)
    requires IsStream(toks) && e.BinaryExpression? && e.left.LiteralExpression?
    ensures Spelled(toks, i, e)
      <==> (i + 1 < |toks| && Same(toks[i], TokenOf(e.left.literal))
            && Same(toks[i + 1], Simple(e.operator.token, e.operator.position)) && Spelled(toks, i + 2, e.right))
    ensures Closed(toks, i, e) <==> Closed(toks, i + 2, e.right)
  {
    var head := [TokenOf(e.left.literal), Simple(e.operator.token, e.operator.position)];
    assert Unparse(e.left) == [head[0]];
    assert Unparse(e) == head + Unparse(e.right);
    ReadsConcat(toks, i, head, Unparse(e.right));
    assert Reads(toks, i, head) <==> i + 1 < |toks| && Same(toks[i], head[0]) && Same(toks[i + 1], head[1]);
  }

  lemma SpelledGrouping(toks: seq<LexerToken>, i: nat, e: Expression)
    requires IsStream(toks) && e.GroupingExpression?
    ensures Spelled(toks, i, e)
      <==> (i < |toks| && Same(toks[i], Simple(OPEN, e.openPosition)) && Spelled(toks, i + 1, e.inner)
            && i + 2 + |Unparse(e.inner)| < |toks|
            && Same(toks[i + 1 + |Unparse(e.inner)|], Simple(CLOSE, e.closePosition)))
    ensures Closed(toks, i, e)
  {
    var open, v, close := [Simple(OPEN, e.openPosition)], Unparse(e.inner), [Simple(CLOSE, e.closePosition)];
    assert Unparse(e) == open + v + close;
    ReadsConcat(toks, i, open + v, close);
    ReadsConcat(toks, i, open, v);
    assert Reads(toks, i, open) <==> i < |toks| && Same(toks[i], open[0]);
    var n := i + 1 + |v|;
    assert Reads(toks, n, close) <==> n < |toks| && Same(toks[n], close[0]);
  }

  // ---------------------------------------------------------------------
  // The parser reads back what `Unparse` spells.

  /** `expression` at a spelling of e builds e and stops on its last token. */
  lemma {:induction false} ParsesUnparsed(toks: seq<LexerToken>, i: nat, e: Expression)
    requires IsStream(toks) && IsExpr(e) && Spelled(toks, i, e) && Closed(toks, i, e)
    ensures ParseExpression(toks, i) == Ok(e, i + |Unparse(e)| - 1)
    decreases e, 1
  {
    UnparsedTokens(e);
    if e.GroupingExpression? {
      SpelledGrouping(toks, i, e);
      UnparsedTokens(e.inner);
      assert Same(toks[i + 1], Unparse(e.inner)[0]);
      ParsesUnparsed(toks, i + 1, e.inner);
    } else {
      assert Same(toks[i], Unparse(e)[0]);
      SuffixParsesUnparsed(toks, i, e);
    }
  }

  /** `suffixExpression` at a spelling of e builds e and stops on its last
      token. */
  lemma {:induction false} SuffixParsesUnparsed(toks: seq<LexerToken>, i: nat, e: Expression)
    requires IsStream(toks) && IsSuffix(e) && Spelled(toks, i, e) && Closed(toks, i, e)
    ensures ParseSuffix(toks, i) == Ok(e, i + |Unparse(e)| - 1)
    decreases e, 0
  {
    match e
    case LiteralExpression(l) =>
      SpelledLiteral(toks, i, l);
      LiteralRead(toks[i], l);
    case UnaryExpression(operand, _) =>
      SpelledUnary(toks, i, e);
      UnparsedTokens(operand);
      assert Same(toks[i + 1], Unparse(operand)[0]);
      ParsesUnparsed(toks, i + 1, operand);
    case BinaryExpression(left, op, right) =>
      SpelledBinary(toks, i, e);
      LiteralRead(toks[i], left.literal);
      SuffixIsExpr(right);
      UnparsedTokens(right);
      assert Same(toks[i + 2], Unparse(right)[0]);
      SuffixParsesUnparsed(toks, i + 2, right);
  }

  // ---------------------------------------------------------------------
  // What the parser builds is spelled by the tokens it read.

  /** A tree `expression` builds is spelled by the tokens from i to the last
      one it used, and the token after them does not extend it. */
  lemma {:induction false} UnparsesParsed(toks: seq<LexerToken>, i: nat)
    requires IsStream(toks) && ParseExpression(toks, i).Ok?
    ensures var r := ParseExpression(toks, i);
      r.last + 1 == i + |Unparse(r.expr)| && Spelled(toks, i, r.expr) && Closed(toks, i, r.expr)
    decreases |toks| - i, 1
  {
    if At(toks, i).token == OPEN {
      UnparsesParsed(toks, i + 1);
      SpelledGrouping(toks, i, ParseExpression(toks, i).expr);
    } else {
      SuffixUnparsesParsed(toks, i);
    }
  }

  /** The same for `suffixExpression`. */
  lemma {:induction false} SuffixUnparsesParsed(toks: seq<LexerToken>, i: nat)
    requires IsStream(toks) && ParseSuffix(toks, i).Ok?
    ensures var r := ParseSuffix(toks, i);
      r.last + 1 == i + |Unparse(r.expr)| && Spelled(toks, i, r.expr) && Closed(toks, i, r.expr)
    decreases |toks| - i, 0
  {
    var t := At(toks, i);
    var e := ParseSuffix(toks, i).expr;
    if IsLiteral(t.token) {
      LiteralWritten(t);
      if IsBinaryOperator(At(toks, i + 1).token) {
        SuffixUnparsesParsed(toks, i + 2);
        SpelledBinary(toks, i, e);
      } else {
        SpelledLiteral(toks, i, LiteralOf(t));
      }
    } else {
      UnparsesParsed(toks, i + 1);
      SpelledUnary(toks, i, e);
    }
  }

  lemma SpelledCopy(toks: seq<LexerToken>, other: seq<LexerToken>, i: nat, e: Expression)
    requires Spelled(toks, i, e) && i + |Unparse(e)| < |other|
    requires forall k :: i <= k < i + |Unparse(e)| ==> other[k] == toks[k]
    ensures Spelled(other, i, e)
  {
    var u := Unparse(e);
    forall k | 0 <= k < |u| ensures Same(other[i + k], u[k]) {
      assert Same(toks[i + k], u[k]);
    }
  }

  lemma ClosedBy(toks: seq<LexerToken>, i: nat, e: Expression, n: nat)
    requires IsStream(toks) && n == i + |Unparse(e)| < |toks|
    requires EndsInLiteral(e) ==> !IsBinaryOperator(toks[n].token)
    ensures Closed(toks, i, e)
  {
    assert At(toks, n) == toks[n];
  }

  /** The grammar in one statement: `expression` at index i builds e and
      stops at j exactly when e is a tree it can build, the tokens from i to
      j spell e, and the token after them does not extend e. */
  lemma ParseIff(toks: seq<LexerToken>, i: nat, e: Expression, j: nat)
    requires IsStream(toks)
    ensures ParseExpression(toks, i) == Ok(e, j)
      <==> IsExpr(e) && j + 1 == i + |Unparse(e)| && Spelled(toks, i, e) && Closed(toks, i, e)
  {
    if ParseExpression(toks, i) == Ok(e, j) {
      UnparsesParsed(toks, i);
    }
    if IsExpr(e) && j + 1 == i + |Unparse(e)| && Spelled(toks, i, e) && Closed(toks, i, e) {
      ParsesUnparsed(toks, i, e);
    }
  }

  /** Tokens after the expression are never looked at: any stream that
      agrees on the tokens the parser used, and whose next token does not
      extend the tree, parses the same. So `(x) && y` gives just the
      grouping. */
  lemma TrailingIgnored(toks: seq<LexerToken>, other: seq<LexerToken>, i: nat)
    requires IsStream(toks) && IsStream(other) && ParseExpression(toks, i).Ok?
    requires var r := ParseExpression(toks, i);
      r.last + 1 < |other| && (forall k :: i <= k <= r.last ==> other[k] == toks[k])
      && (EndsInLiteral(r.expr) ==> !IsBinaryOperator(other[r.last + 1].token))
    ensures ParseExpression(other, i) == ParseExpression(toks, i)
  {
    var r := ParseExpression(toks, i);
    UnparsesParsed(toks, i);
    SpelledCopy(toks, other, i, r.expr);
    ClosedBy(other, i, r.expr, r.last + 1);
    ParsesUnparsed(other, i, r.expr);
  }

  // ---------------------------------------------------------------------
  // The shapes of the trees.

  /** A chain of binary operators is nested to the right, whatever the
      operators: `a op1 b op2 c` is a op1 (b op2 c). */
  lemma RightNested(toks: seq<LexerToken>, i: nat)
    requires IsStream(toks) && i + 5 < |toks|
    requires IsLiteral(toks[i].token) && IsLiteral(toks[i + 2].token) && IsLiteral(toks[i + 4].token)
    requires IsBinaryOperator(toks[i + 1].token) && IsBinaryOperator(toks[i + 3].token)
    requires !IsBinaryOperator(toks[i + 5].token)
    ensures var op1, op2 := toks[i + 1], toks[i + 3];
      ParseExpression(toks, i)
      == Ok(BinaryExpression(LiteralExpression(LiteralOf(toks[i])), Operator(op1.token, op1.position),
              BinaryExpression(LiteralExpression(LiteralOf(toks[i + 2])), Operator(op2.token, op2.position),
                LiteralExpression(LiteralOf(toks[i + 4])))), i + 4)
  {
    var a, b, c := LiteralExpression(LiteralOf(toks[i])), LiteralExpression(LiteralOf(toks[i + 2])), LiteralExpression(LiteralOf(toks[i + 4]));
    var op1, op2 := toks[i + 1], toks[i + 3];
    assert At(toks, i + 4) == toks[i + 4] && At(toks, i + 5) == toks[i + 5];
    assert ParseSuffix(toks, i + 4) == Ok(c, i + 4);
    assert At(toks, i + 2) == toks[i + 2] && At(toks, i + 3) == toks[i + 3];
    assert ParseSuffix(toks, i + 2) == Ok(BinaryExpression(b, Operator(op2.token, op2.position), c), i + 4);
    assert At(toks, i) == toks[i] && At(toks, i + 1) == toks[i + 1];
  }

  /** NOT takes a whole expression, so `!a == b` is not(a == b). */
  lemma NotTakesExpression(toks: seq<LexerToken>, i: nat)
    requires IsStream(toks) && i + 4 < |toks|
    requires toks[i].token == NOT && IsLiteral(toks[i + 1].token) && toks[i + 2].token == EQUAL
    requires IsLiteral(toks[i + 3].token) && !IsBinaryOperator(toks[i + 4].token)
    ensures ParseExpression(toks, i)
      == Ok(UnaryExpression(BinaryExpression(LiteralExpression(LiteralOf(toks[i + 1])), Operator(EQUAL, toks[i + 2].position),
              LiteralExpression(LiteralOf(toks[i + 3]))), toks[i].position), i + 3)
  {
    var a, b := LiteralExpression(LiteralOf(toks[i + 1])), LiteralExpression(LiteralOf(toks[i + 3]));
    assert At(toks, i + 3) == toks[i + 3] && At(toks, i + 4) == toks[i + 4];
    assert ParseSuffix(toks, i + 3) == Ok(b, i + 3);
    assert At(toks, i + 1) == toks[i + 1] && At(toks, i + 2) == toks[i + 2];
    assert ParseSuffix(toks, i + 1) == Ok(BinaryExpression(a, Operator(EQUAL, toks[i + 2].position), b), i + 3);
    assert ParseExpression(toks, i + 1) == ParseSuffix(toks, i + 1);
    assert At(toks, i) == toks[i];
  }

  // ---------------------------------------------------------------------
  // Errors.

  /** A first token that is not a literal, NOT or a bracket is a syntax
      error (so are `== "Io"` and `!= speed)(`). */
  lemma BadStart(toks: seq<LexerToken>, i: nat)
    requires IsStream(toks)
    requires var t := At(toks, i).token; !IsLiteral(t) && !IsUnaryOperator(t) && t != OPEN
    ensures ParseExpression(toks, i) == Err(InvalidSyntax)
    ensures i == 0 && toks[0].token != EOF ==> Parse(toks) == Failure(InvalidSyntax)
  {
  }

  /** A binary operator at the end of the input is a syntax error. */
  lemma OperatorAtEnd(toks: seq<LexerToken>, i: nat)
    requires IsStream(toks) && IsLiteral(At(toks, i).token)
    requires IsBinaryOperator(At(toks, i + 1).token) && At(toks, i + 2).token == EOF
    ensures ParseExpression(toks, i) == Err(InvalidSyntax)
  {
  }

  /** The right side of a binary operator cannot be a grouping. */
  lemma NoGroupOnTheRight(toks: seq<LexerToken>, i: nat)
    requires IsStream(toks) && IsLiteral(At(toks, i).token)
    requires IsBinaryOperator(At(toks, i + 1).token) && At(toks, i + 2).token == OPEN
    ensures ParseExpression(toks, i) == Err(InvalidSyntax)
  {
    assert ParseSuffix(toks, i + 2) == Err(InvalidSyntax);
  }

  /** A bracket must be closed right after the expression inside it; any
      other token there, EOF included, is a syntax error. */
  lemma GroupNeedsClose(toks: seq<LexerToken>, i: nat, inner: Expression)
    requires IsStream(toks) && At(toks, i).token == OPEN
    requires IsExpr(inner) && Spelled(toks, i + 1, inner) && Closed(toks, i + 1, inner)
    requires At(toks, i + 1 + |Unparse(inner)|).token != CLOSE
    ensures ParseExpression(toks, i) == Err(InvalidSyntax)
  {
    UnparsedTokens(inner);
    assert Same(toks[i + 1], Unparse(inner)[0]);
    ParsesUnparsed(toks, i + 1, inner);
  }

  /** Input with no token in it, blanks only, leaves `newAST` with EOF. */
  lemma BlankInput(s: string)
    requires forall j :: 0 <= j < |s| ==> IsSpace(s[j])
    ensures IsStream(Lex(s)) && Parse(Lex(s)) == Failure(EndOfInput)
  {
    OnlyWhitespaceLeft(s, 0, 0);
    LexedIsStream(s, LexState(0, 0));
  }

  /** A lone `=` lexes to EOF, so it too ends with EOF rather than a syntax
      error. */
  lemma LoneEqual()
    ensures IsStream(Lex("=")) && Parse(Lex("=")) == Failure(EndOfInput)
  {
    assert Scan("=", LexState(0, 0)) == Step(Simple(EOF, 0), LexState(1, 2));
    LexedIsStream("=", LexState(0, 0));
  }
}
