/** The recursive-descent parser (parser.go).

    `ParseExpression` and `ParseSuffix` say what `expression` and
    `suffixExpression` do, on the token stream the lexer produces, from the
    index of the token that is `current` when they are called; the class
    `AST` below does the same with a lexer object and the `current`/`peek`
    fields, and its methods are proved to agree with them. */
module Parsing {
  import opened Tokens
  import opened Ast
  import opened Lexing

  /** `ErrInvalidSyntax`, and the `io.EOF` that `newAST` passes on when the
      input holds no token at all. */
  datatype ParseError = InvalidSyntax | EndOfInput

  /** What parsing from one token gives: the tree and the index of the last
      token it used (`current` when the parse function returns). */
  datatype Parsed = Ok(expr: Expression, last: nat) | Err(error: ParseError)

  datatype Result<T> = Success(value: T) | Failure(error: ParseError)

  datatype Option<T> = None | Some(value: T)

  /** The payloads the parser takes out of a token: an INTEGER's value and
      a STRING's text. */
  predicate PayloadFits(t: LexerToken) {
    (t.token == INTEGER ==> t.value.IntValue?) && (t.token == STRING ==> t.value.Text?)
  }

  /** A token stream as the lexer yields it: it ends with EOF, and every
      INTEGER and STRING carries the payload the parser expects. */
  predicate IsStream(toks: seq<LexerToken>) {
    0 < |toks| && toks[|toks| - 1].token == EOF
    && forall k :: 0 <= k < |toks| ==> PayloadFits(toks[k])
  }

  /** The token at index i; past the end the lexer keeps returning EOF. */
  function At(toks: seq<LexerToken>, i: nat): (t: LexerToken)
    requires IsStream(toks)
    ensures PayloadFits(t)
    ensures i >= |toks| - 1 ==> t.token == EOF
  {
    if i < |toks| then toks[i] else toks[|toks| - 1]
  }

  // ---------------------------------------------------------------------
  // The trees the parser can build.

  /** A literal node as the parser makes it: the default case of the switch
      turns IDENT and FLOAT tokens into `LiteralIdent`. */
  predicate IsLiteralNode(l: Literal) {
    l.LiteralIdent? ==> l.token == IDENT || l.token == FLOAT
  }

  /** What `suffixExpression` returns: a literal; NOT and any expression; or
      a literal, a binary operator and another such tree. Never a grouping. */
  predicate IsSuffix(e: Expression)
    decreases e, 0
  {
    match e
    case LiteralExpression(l) => IsLiteralNode(l)
    case UnaryExpression(operand, _) => IsExpr(operand)
    case BinaryExpression(left, op, right) =>
      left.LiteralExpression? && IsLiteralNode(left.literal) && IsBinaryOperator(op.token) && IsSuffix(right)
    case GroupingExpression(_, _, _) => false
  }

  /** What `expression` returns: a grouping of an expression, or a suffix. */
  predicate IsExpr(e: Expression)
    decreases e, 1
  {
    if e.GroupingExpression? then IsExpr(e.inner) else IsSuffix(e)
  }

  /** The node a literal token becomes. */
  function LiteralOf(t: LexerToken): (l: Literal)
    requires IsLiteral(t.token) && PayloadFits(t)
    ensures IsLiteralNode(l) && l.position == t.position
  {
    if t.token == INTEGER then LiteralInteger(t.value.integer, t.position)
    else if t.token == STRING then LiteralString(t.value.text, t.position)
    else LiteralIdent(t.token, t.position)
  }

  // ---------------------------------------------------------------------
  // The parse functions.

  /** `expression` with `current` at index i: a bracket starts a grouping,
      which must be closed right after its inner expression; anything else
      is a suffix expression. */
  function ParseExpression(toks: seq<LexerToken>, i: nat): (r: Parsed)
    requires IsStream(toks)
    ensures r.Ok? ==> i <= r.last < |toks| - 1 && IsExpr(r.expr)
    ensures r.Err? ==> r.error == InvalidSyntax
    decreases |toks| - i, 1
  {
    var t := At(toks, i);
    if t.token == OPEN then
      if At(toks, i + 1).token == EOF then Err(InvalidSyntax)
      else match ParseExpression(toks, i + 1)
        case Err(error) => Err(error)
        case Ok(inner, j) =>
          var close := At(toks, j + 1);
          if close.token == EOF || close.token != CLOSE then Err(InvalidSyntax)
          else Ok(GroupingExpression(t.position, inner, close.position), j + 1)
    else ParseSuffix(toks, i)
  }

  /** `suffixExpression` with `current` at index i. After a literal, a binary
      operator in `peek` is consumed and the right side is another suffix
      expression (the first `next` lands on the operator and cannot see
      EOF); NOT takes a whole expression; any other token is an error. */
  function ParseSuffix(toks: seq<LexerToken>, i: nat): (r: Parsed)
    requires IsStream(toks)
    ensures r.Ok? ==> i <= r.last < |toks| - 1 && IsSuffix(r.expr)
    ensures r.Err? ==> r.error == InvalidSyntax
    decreases |toks| - i, 0
  {
    var t := At(toks, i);
    if IsLiteral(t.token) then
      var left := LiteralExpression(LiteralOf(t));
      var peek := At(toks, i + 1);
      if IsBinaryOperator(peek.token) then
        if At(toks, i + 2).token == EOF then Err(InvalidSyntax)
        else match ParseSuffix(toks, i + 2)
          case Err(error) => Err(error)
          case Ok(right, j) => Ok(BinaryExpression(left, Operator(peek.token, peek.position), right), j)
      else Ok(left, i)
    else if IsUnaryOperator(t.token) then
      if At(toks, i + 1).token == EOF then Err(InvalidSyntax)
      else match ParseExpression(toks, i + 1)
        case Err(error) => Err(error)
        case Ok(operand, j) => Ok(UnaryExpression(operand, t.position), j)
    else Err(InvalidSyntax)
  }

  /** `newAST`: the two calls of `next` make the first token `current`; if
      it is EOF the parse ends with EndOfInput, otherwise with the outcome of
      `expression`. Tokens after the expression are not looked at. */
  function Parse(toks: seq<LexerToken>): (r: Result<Expression>)
    requires IsStream(toks)
    ensures r.Failure? && r.error == EndOfInput <==> toks[0].token == EOF
    ensures r.Success? ==> IsExpr(r.value)
  {
    if toks[0].token == EOF then Failure(EndOfInput) else Outcome(ParseExpression(toks, 0))
  }

  /** What `expression` and `suffixExpression` return: the tree or the error. */
  function Outcome(p: Parsed): (r: Result<Expression>)
    ensures r.Success? <==> p.Ok?
    ensures p.Ok? ==> r.value == p.expr
    ensures p.Err? ==> r.error == p.error
  {
    match p
    case Ok(e, _) => Success(e)
    case Err(error) => Failure(error)
  }

  // ---------------------------------------------------------------------
  // The lexer yields such streams.

  /** A token of one `Yield` carries the payload its kind calls for. */
  lemma {:induction false} ScanPayload(s: string, st: LexState)
    requires st.cursor <= |s|
    ensures PayloadFits(Scan(s, st).tok)
    decreases |s| - st.cursor
  {
    if st.cursor < |s| && IsSpace(s[st.cursor]) {
      ScanPayload(s, LexState(st.cursor + 1, st.position));
    }
  }

  /** The tokens the lexer yields from any state form a stream. */
  lemma {:induction false} LexedIsStream(s: string, st: LexState)
    requires st.cursor <= |s|
    ensures IsStream(LexFrom(s, st))
    decreases |s| - st.cursor
  {
    var step := Scan(s, st);
    ScanPayload(s, st);
    if step.tok.token != EOF {
      LexedIsStream(s, step.next);
      var rest := LexFrom(s, step.next);
      assert LexFrom(s, st) == [step.tok] + rest;
      forall k | 0 <= k < |rest| + 1 ensures PayloadFits(([step.tok] + rest)[k]) {
        if 0 < k { assert ([step.tok] + rest)[k] == rest[k - 1]; }
      }
    }
  }

  /** The lexer, in state st, yields exactly `rest`, up to the first EOF. */
  ghost predicate Pending(s: string, st: LexState, rest: seq<LexerToken>)
    decreases |rest|
  {
    st.cursor <= |s| && 0 < |rest| && Scan(s, st).tok == rest[0]
    && (rest[0].token == EOF ==> |rest| == 1)
    && (rest[0].token != EOF ==> Pending(s, Scan(s, st).next, rest[1..]))
  }

  /** `Pending` holds of the tokens `LexFrom` lists, and of them only. */
  lemma {:induction false} PendingLexed(s: string, st: LexState, rest: seq<LexerToken>)
    requires st.cursor <= |s|
    ensures Pending(s, st, rest) <==> rest == LexFrom(s, st)
    decreases |s| - st.cursor
  {
    var step := Scan(s, st);
    if step.tok.token != EOF && 0 < |rest| {
      PendingLexed(s, step.next, rest[1..]);
      assert rest == [rest[0]] + rest[1..];
    }
  }

  /** One call of `Yield` takes the first pending token. */
  lemma PendingNext(s: string, st: LexState, toks: seq<LexerToken>, k: nat)
    requires k < |toks| && Pending(s, st, toks[k..])
    ensures Scan(s, st).tok == toks[k]
    ensures toks[k].token == EOF ==> k == |toks| - 1 && Scan(s, st).next.cursor == |s|
    ensures toks[k].token != EOF ==> k + 1 < |toks| && Pending(s, Scan(s, st).next, toks[k + 1..])
  {
    assert toks[k..][1..] == toks[k + 1..];
  }

  // ---------------------------------------------------------------------
  // The parser object.

  /** The dummy token `newAST` puts in `current` and `peek` before the first
      call of `next`; it has no payload and no position. */
  const Dummy := LexerToken(OPEN, Text(""), 0)

  /** A token the parser has pulled stands for the one at the same index of
      the stream: the same token, or EOF again once the stream is used up
      (an EOF the lexer repeats may carry another position). */
  predicate Agrees(t: LexerToken, u: LexerToken) {
    t.token == u.token && (t.token != EOF ==> t == u)
  }

  class AST {
    var program: Option<Ast.Expression>
    const lexer: Lexer
    var current: LexerToken
    var peek: LexerToken
    /** The tokens the lexer yields from the state it was in when the parser
        was made. */
    ghost const toks: seq<LexerToken>
    /** How many tokens `next` has pulled from the lexer so far. */
    ghost var pulled: nat

    /** The lexer has yielded the first `pulled` tokens of `toks`, the
        stream it was about to yield when the parser was made. (The pending
        tokens are stated for every k that equals `pulled`, so that a proof
        meets the lexer's definition only where it names `toks[k..]`.) */
    ghost predicate Synced()
      reads this, lexer
    {
      lexer.Valid() && IsStream(toks)
      && (forall k :: k == pulled < |toks| ==> Pending(lexer.input, lexer.State(), toks[k..]))
      && (pulled >= |toks| ==> lexer.cursor == |lexer.input|)
    }

    /** `peek` is the last token pulled and `current` the one before. */
    ghost predicate Valid()
      reads this, lexer
    {
      Synced()
      && (1 <= pulled ==> Agrees(peek, At(toks, pulled - 1)))
      && (2 <= pulled ==> Agrees(current, At(toks, pulled - 2)))
    }

    /** The struct literal in `newAST`. */
    constructor (lexer: Lexer)
      requires lexer.Valid()
      ensures Valid() && this.lexer == lexer && pulled == 0
      ensures toks == LexFrom(lexer.input, lexer.State())
      ensures current == Dummy && peek == Dummy && program == None
    {
      this.lexer := lexer;
      toks := LexFrom(lexer.input, lexer.State());
      current, peek := Dummy, Dummy;
      program := None;
      pulled := 0;
      new;
      LexedIsStream(lexer.input, lexer.State());
      PendingLexed(lexer.input, lexer.State(), toks);
    }

    /** `next`: `peek` moves to `current` and the lexer yields the new
        `peek`; the result says whether `current` is now EOF. */
    method Next() returns (eof: bool)
      requires Valid()
      modifies this, lexer
      ensures Valid() && pulled == old(pulled) + 1
      ensures current == old(peek) && program == old(program)
      ensures eof == (current.token == EOF)
    {
      ghost var st := lexer.State();
      ghost var k := pulled;
      assert 1 <= k ==> Agrees(peek, At(toks, k - 1));
      current := peek;
      peek := lexer.Yield();
      pulled := pulled + 1;
      if k < |toks| {
        PendingNext(lexer.input, st, toks, k);
        assert peek == At(toks, k);
      } else {
        assert lexer.cursor == |lexer.input| && peek.token == EOF;
      }
      eof := current.token == EOF;
    }

    /** `expression`, with `current` at index `pulled - 2` of the stream. On
        success, `current` is the last token of the expression. */
    method Expression() returns (r: Result<Ast.Expression>)
      requires Valid() && 2 <= pulled
      modifies this, lexer
      ensures Valid() && program == old(program)
      ensures r == Outcome(ParseExpression(toks, old(pulled) - 2))
      ensures r.Success? ==> pulled - 2 == ParseExpression(toks, old(pulled) - 2).last
      decreases |toks| + 2 - pulled, 1
    {
      ghost var i: nat := pulled - 2;
      if current.token == OPEN {
        assert current == At(toks, i);
        var position := current.position;
        var eof := Next();
        if eof {
          return Failure(InvalidSyntax);
        }
        ghost var sub := ParseExpression(toks, i + 1);
        var inner := Expression();
        if inner.Failure? {
          return inner;
        }
        ghost var j: nat := pulled - 2;
        assert sub == Ok(inner.value, j);
        eof := Next();
        if eof {
          assert At(toks, j + 1).token == EOF;
          return Failure(InvalidSyntax);
        }
        assert current == At(toks, j + 1);
        if current.token != CLOSE {
          return Failure(InvalidSyntax);
        }
        return Success(GroupingExpression(position, inner.value, current.position));
      }
      r := SuffixExpression();
    }

    /** `suffixExpression`, with `current` at index `pulled - 2`. */
    method SuffixExpression() returns (r: Result<Ast.Expression>)
      requires Valid() && 2 <= pulled
      modifies this, lexer
      ensures Valid() && program == old(program)
      ensures r == Outcome(ParseSuffix(toks, old(pulled) - 2))
      ensures r.Success? ==> pulled - 2 == ParseSuffix(toks, old(pulled) - 2).last
      decreases |toks| + 2 - pulled, 0
    {
      ghost var i: nat := pulled - 2;
      if IsLiteral(current.token) {
        assert current == At(toks, i);
        var prefix := LiteralExpression(LiteralOf(current));
        if IsBinaryOperator(peek.token) {
          assert peek == At(toks, i + 1);
          var operator := Operator(peek.token, peek.position);
          var eof := Next();
          // `current` is now the operator, so this `next` cannot see EOF.
          assert !eof;
          eof := Next();
          if eof {
            return Failure(InvalidSyntax);
          }
          assert At(toks, i + 2).token != EOF;
          var right := SuffixExpression();
          if right.Failure? {
            return right;
          }
          assert ParseSuffix(toks, i) == Ok(BinaryExpression(prefix, operator, right.value), pulled - 2);
          return Success(BinaryExpression(prefix, operator, right.value));
        }
        return Success(prefix);
      }
      if IsUnaryOperator(current.token) {
        assert current == At(toks, i);
        var position := current.position;
        var eof := Next();
        if eof {
          return Failure(InvalidSyntax);
        }
        var operand := Expression();
        if operand.Failure? {
          return operand;
        }
        return Success(UnaryExpression(operand.value, position));
      }
      return Failure(InvalidSyntax);
    }
  }

  /** The tree of an outcome, if any. */
  function ProgramOf(r: Result<Ast.Expression>): (p: Option<Ast.Expression>)
    ensures p.Some? <==> r.Success?
    ensures r.Success? ==> p.value == r.value
  {
    if r.Success? then Some(r.value) else None
  }

  /** The error of an outcome, if any. */
  function ErrorOf(r: Result<Ast.Expression>): (e: Option<ParseError>)
    ensures e.Some? <==> r.Failure?
    ensures r.Failure? ==> e.value == r.error
  {
    if r.Failure? then Some(r.error) else None
  }

  /** `newAST`: no parser when the input holds no token; otherwise the
      parser, whose program is the parsed expression, or none if parsing
      failed. The outcome is `Parse` of the lexer's tokens. */
  method NewAST(lexer: Lexer) returns (ast: AST?, err: Option<ParseError>)
    requires lexer.Valid()
    modifies lexer
    ensures var toks := LexFrom(lexer.input, old(lexer.State()));
      IsStream(toks)
      && err == ErrorOf(Parse(toks))
      && (ast == null <==> Parse(toks) == Failure(EndOfInput))
      && (ast != null ==> ast.program == ProgramOf(Parse(toks)))
  {
    LexedIsStream(lexer.input, lexer.State());
    var a := new AST(lexer);
    var eof := a.Next();
    // `current` is the dummy OPEN token, so the first `next` cannot fail.
    assert !eof;
    eof := a.Next();
    if eof {
      return null, Some(EndOfInput);
    }
    var r := a.Expression();
    assert r == Parse(a.toks);
    a.program := ProgramOf(r);
    ast := a;
    err := ErrorOf(r);
  }
}
