/** The lexer of the filter language (lexer.go).

    The input reader is a string with a cursor. `Scan` says what one call
    of `Yield` does, in terms of maximal runs of characters; the class
    `Lexer` below does it one rune at a time, as the source does, and its
    methods are proved to agree with `Scan`. */
module Lexing {
  import opened Tokens

  // ---------------------------------------------------------------------
  // Character classes. They agree with Go's unicode.IsSpace, IsDigit and
  // IsLetter on the Latin-1 range (code points below 256).

  predicate IsSpace(c: char) {
    var n := c as int;
    n == 0x20 || (0x09 <= n <= 0x0D) || n == 0x85 || n == 0xA0
  }

  predicate IsDigit(c: char) {
    '0' <= c <= '9'
  }

  predicate IsLetter(c: char) {
    var n := c as int;
    ('A' <= c <= 'Z') || ('a' <= c <= 'z') || n == 0xAA || n == 0xB5 || n == 0xBA
    || (0xC0 <= n <= 0xD6) || (0xD8 <= n <= 0xF6) || (0xF8 <= n <= 0xFF)
  }

  /** Characters that continue an identifier: letters, `_` and `.`. */
  predicate IsIdentChar(c: char) {
    IsLetter(c) || c == '_' || c == '.'
  }

  /** Either quote closes a string, whichever one opened it. */
  predicate IsQuote(c: char) {
    c == '"' || c == '\''
  }

  predicate NotQuote(c: char) {
    !IsQuote(c)
  }

  // ---------------------------------------------------------------------
  // Tokens as the lexer yields them.

  /** The payload of a token: the decimal value of an INTEGER, the text of a
      STRING or IDENT (and the name of an operator), the digits of a FLOAT
      (its conversion to a 64-bit float is not modelled). */
  datatype Value = IntValue(integer: int) | Text(text: string) | FloatText(digits: string)

  /** One token record: kind, payload and the position at which it starts. */
  datatype LexerToken = LexerToken(token: Token, value: Value, position: int)

  /** The lexer's state between two calls of `Yield`. */
  datatype LexState = LexState(cursor: nat, position: int)

  /** One call of `Yield`: the token and the state after it. */
  datatype Step = Step(tok: LexerToken, next: LexState)

  /** A token whose payload is its kind's name (operators, EOF, ILLEGAL). */
  function Simple(t: Token, position: int): LexerToken {
    LexerToken(t, Text(Name(t)), position)
  }

  /** The end of the maximal run of `inRun` characters of `s` from `i`. */
  function RunEnd(s: string, i: nat, inRun: char -> bool): (e: nat)
    requires i <= |s|
    ensures i <= e <= |s|
    ensures forall j :: i <= j < e ==> inRun(s[j])
    ensures e < |s| ==> !inRun(s[e])
    decreases |s| - i
  {
    if i < |s| && inRun(s[i]) then RunEnd(s, i + 1, inRun) else i
  }

  predicate AllDigits(s: string) {
    forall j :: 0 <= j < |s| ==> IsDigit(s[j])
  }

  /** `big.Int.SetString(s, 10)` on a run of ASCII digits: the decimal value. */
  function DecimalValue(s: string): (n: nat)
    requires AllDigits(s)
  {
    if s == [] then 0 else 10 * DecimalValue(s[..|s| - 1]) + (s[|s| - 1] as int - '0' as int)
  }

  /** The token a sub-recogniser finds and the cursor after it. */
  datatype Lexeme = Lexeme(token: Token, value: Value, end: nat)

  /** A number starting at `c0`: a run of digits, optionally a dot and a
      second run of digits; a dot right after that is ILLEGAL and is consumed. */
  function ScanNumber(s: string, c0: nat): (r: Lexeme)
    requires c0 < |s| && IsDigit(s[c0])
  {
    var d1 := RunEnd(s, c0, IsDigit);
    if d1 < |s| && s[d1] == '.' then
      var d2 := RunEnd(s, d1 + 1, IsDigit);
      if d2 < |s| && s[d2] == '.' then Lexeme(ILLEGAL, IntValue(0), d2 + 1)
      else Lexeme(FLOAT, FloatText(s[c0..d2]), d2)
    else
      assert AllDigits(s[c0..d1]) by {
        forall j | 0 <= j < d1 - c0 ensures IsDigit(s[c0..d1][j]) { assert s[c0..d1][j] == s[c0 + j]; }
      }
      Lexeme(INTEGER, IntValue(DecimalValue(s[c0..d1])), d1)
  }

  /** `RunEnd` is characterised by its run: if every character in [i, e)
      is in the run and the one at e (if any) is not, the run ends at e. */
  lemma {:induction false} RunEndIs(s: string, i: nat, e: nat, inRun: char -> bool)
    requires i <= e <= |s|
    requires forall j :: i <= j < e ==> inRun(s[j])
    requires e == |s| || !inRun(s[e])
    ensures RunEnd(s, i, inRun) == e
    decreases e - i
  {
    if i < e {
      RunEndIs(s, i + 1, e, inRun);
    }
  }

  /** A run of digits from c0 to e, not followed by a dot, is an INTEGER. */
  lemma IntegerEndsAt(s: string, c0: nat, e: nat)
    requires c0 < e <= |s|
    requires forall j :: c0 <= j < e ==> IsDigit(s[j])
    requires e == |s| || (!IsDigit(s[e]) && s[e] != '.')
    ensures AllDigits(s[c0..e])
    ensures ScanNumber(s, c0) == Lexeme(INTEGER, IntValue(DecimalValue(s[c0..e])), e)
  {
    RunEndIs(s, c0, e, IsDigit);
    assert forall j :: 0 <= j < e - c0 ==> s[c0..e][j] == s[c0 + j];
  }

  /** Digits, one dot at d, digits up to e, and no second dot: a FLOAT. */
  lemma FloatEndsAt(s: string, c0: nat, d: nat, e: nat)
    requires c0 < d < e <= |s| && s[d] == '.'
    requires forall j :: c0 <= j < d ==> IsDigit(s[j])
    requires forall j :: d < j < e ==> IsDigit(s[j])
    requires e == |s| || (!IsDigit(s[e]) && s[e] != '.')
    ensures ScanNumber(s, c0) == Lexeme(FLOAT, FloatText(s[c0..e]), e)
  {
    RunEndIs(s, c0, d, IsDigit);
    RunEndIs(s, d + 1, e, IsDigit);
  }

  /** Digits, one dot at d, digits, and a second dot at e: ILLEGAL. */
  lemma SecondDotAt(s: string, c0: nat, d: nat, e: nat)
    requires c0 < d < e < |s| && s[d] == '.' && s[e] == '.'
    requires forall j :: c0 <= j < d ==> IsDigit(s[j])
    requires forall j :: d < j < e ==> IsDigit(s[j])
    ensures ScanNumber(s, c0) == Lexeme(ILLEGAL, IntValue(0), e + 1)
  {
    RunEndIs(s, c0, d, IsDigit);
    RunEndIs(s, d + 1, e, IsDigit);
  }

  /** The two-rune operators `==`, `&&` and `||`: the first rune has been
      read at k - 1; ok is the kind when the second rune matches. */
  function ScanPair(s: string, k: nat, p: int, second: char, ok: Token): (r: Step)
    requires 0 < k <= |s|
  {
    if k == |s| then Step(Simple(EOF, p), LexState(k, p + 2))
    else if s[k] == second then Step(Simple(ok, p), LexState(k + 1, p + 2))
    else Step(Simple(ILLEGAL, p), LexState(k + 1, p + 2))
  }

  /** `>` and `<`: followed by `=` or by a space (which is consumed). */
  function ScanComparison(s: string, k: nat, p: int, strict: Token, orEqual: Token): (r: Step)
    requires 0 < k <= |s|
  {
    if k == |s| then Step(Simple(EOF, p), LexState(k, p + 2))
    else if s[k] == '=' then Step(Simple(orEqual, p), LexState(k + 1, p + 2))
    else if IsSpace(s[k]) then Step(Simple(strict, p), LexState(k + 1, p + 2))
    else Step(Simple(ILLEGAL, p), LexState(k + 1, p + 2))
  }

  /** `!`: NOT_EQUAL with a following `=`; otherwise NOT, and the following
      rune is pushed back. */
  function ScanExclamation(s: string, k: nat, p: int): (r: Step)
    requires 0 < k <= |s|
  {
    if k == |s| then Step(Simple(EOF, p), LexState(k, p + 2))
    else if s[k] == '=' then Step(Simple(NOT_EQUAL, p), LexState(k + 1, p + 2))
    else Step(Simple(NOT, p), LexState(k, p + 1))
  }

  /** A string after its opening quote at k - 1: everything up to the next
      quote of either kind, or to the end of input. */
  function ScanString(s: string, k: nat, p: int): (r: Step)
    requires 0 < k <= |s|
  {
    var e := RunEnd(s, k, NotQuote);
    var tok := LexerToken(STRING, Text(s[k..e]), p);
    if e < |s| then Step(tok, LexState(e + 1, p + (e - k) + 2))
    else Step(tok, LexState(e, p + (e - k) + 2))
  }

  /** A number starting at c0, as `ScanNumber` finds it. */
  function NumberStep(s: string, c0: nat, p: int): (r: Step)
    requires c0 < |s| && IsDigit(s[c0])
  {
    var n := ScanNumber(s, c0);
    Step(LexerToken(n.token, n.value, p), LexState(n.end, p + (n.end - c0)))
  }

  /** An identifier starting with the letter at c0. */
  function IdentStep(s: string, c0: nat, p: int): (r: Step)
    requires c0 <= |s|
  {
    var e := RunEnd(s, c0, IsIdentChar);
    Step(LexerToken(IDENT, Text(s[c0..e]), p), LexState(e, p + (e - c0)))
  }

  /** The token started by the rune at c0, which is not whitespace; `p` is
      the position counter at that rune. The cases are those of the switch
      in `Yield`, in its order. */
  function ScanRune(s: string, c0: nat, p: int): (r: Step)
    requires c0 < |s| && !IsSpace(s[c0])
    ensures c0 < r.next.cursor <= |s|
    ensures r.tok.position == p
    ensures IsKind(r.tok.token)
    ensures r.tok.token == EOF ==> r.next.cursor == |s|
  {
    var c, k := s[c0], c0 + 1;
    if c == '=' then ScanPair(s, k, p, '=', EQUAL)
    else if c == '!' then ScanExclamation(s, k, p)
    else if c == '>' then ScanComparison(s, k, p, GREATER, GREATER_OR_EQUAL)
    else if c == '<' then ScanComparison(s, k, p, LESS, LESS_OR_EQUAL)
    else if c == '&' then ScanPair(s, k, p, '&', AND)
    else if c == '|' then ScanPair(s, k, p, '|', OR)
    else if IsQuote(c) then ScanString(s, k, p)
    else if c == '(' then Step(Simple(OPEN, p), LexState(k, p + 1))
    else if c == ')' then Step(Simple(CLOSE, p), LexState(k, p + 1))
    else if IsDigit(c) then NumberStep(s, c0, p)
    else if IsLetter(c) then IdentStep(s, c0, p)
    else Step(Simple(ILLEGAL, p), LexState(k, p + 1))
  }

  /** One call of `Yield` from state `st`: EOF at the end of the input;
      whitespace is skipped without moving the position counter (none of the
      runes the switch names is whitespace, so testing it first changes
      nothing). */
  function Scan(s: string, st: LexState): (r: Step)
    requires st.cursor <= |s|
    ensures r.next.cursor <= |s|
    ensures r.tok.position == st.position
    ensures IsKind(r.tok.token)
    ensures r.tok.token == EOF ==> r.next.cursor == |s|
    ensures r.tok.token != EOF ==> st.cursor < r.next.cursor
    decreases |s| - st.cursor
  {
    if st.cursor == |s| then Step(Simple(EOF, st.position), st)
    else if IsSpace(s[st.cursor]) then Scan(s, LexState(st.cursor + 1, st.position))
    else ScanRune(s, st.cursor, st.position)
  }

  /** The tokens `Yield` returns from state `st` up to and including the
      first EOF. Every other token consumes input, so the list is finite. */
  function LexFrom(s: string, st: LexState): (ts: seq<LexerToken>)
    requires st.cursor <= |s|
    ensures 0 < |ts| <= |s| - st.cursor + 1
    ensures ts[|ts| - 1].token == EOF
    ensures forall i :: 0 <= i < |ts| - 1 ==> ts[i].token != EOF
    decreases |s| - st.cursor
  {
    var step := Scan(s, st);
    if step.tok.token == EOF then [step.tok] else [step.tok] + LexFrom(s, step.next)
  }

  /** The tokens of a whole input, from a fresh lexer. */
  function Lex(s: string): seq<LexerToken> {
    LexFrom(s, LexState(0, 0))
  }

  // ---------------------------------------------------------------------
  // The lexer object: `position` and a reader over `input`.

  class Lexer {
    const input: string
    /** The reader's offset into `input`. */
    var cursor: nat
    /** Whether the reader can push back its last rune: true exactly after a
        successful ReadRune, as in bufio.Reader. */
    var unreadable: bool
    var position: int

    ghost predicate Valid()
      reads this`cursor, this`unreadable
    {
      cursor <= |input| && (unreadable ==> 0 < cursor)
    }

    function State(): LexState
      reads this
      requires Valid()
    {
      LexState(cursor, position)
    }

    /** `newLexer`. */
    constructor (input: string)
      ensures Valid() && this.input == input
      ensures cursor == 0 && position == 0 && !unreadable
    {
      this.input := input;
      cursor := 0;
      position := 0;
      unreadable := false;
    }

    /** bufio's ReadRune: the rune under the cursor, or failure at the end. */
    method ReadRune() returns (r: char, ok: bool)
      requires Valid()
      modifies this`cursor, this`unreadable
      ensures Valid()
      ensures ok == (old(cursor) < |input|) && unreadable == ok
      ensures ok ==> r == input[old(cursor)] && cursor == old(cursor) + 1
      ensures !ok ==> cursor == old(cursor)
    {
      if cursor < |input| {
        r, ok := input[cursor], true;
        cursor := cursor + 1;
      } else {
        r, ok := ' ', false;
      }
      unreadable := ok;
    }

    /** bufio's UnreadRune: steps back over the last rune read, and fails
        unless the previous operation was a successful ReadRune. */
    method UnreadRune() returns (ok: bool)
      requires Valid()
      modifies this`cursor, this`unreadable
      ensures Valid() && !unreadable
      ensures ok == old(unreadable)
      ensures cursor == if ok then old(cursor) - 1 else old(cursor)
    {
      ok := unreadable;
      if ok {
        cursor := cursor - 1;
      }
      unreadable := false;
    }

    /** `backup`: steps the position counter back in every case, and the
        reader back when it can; EOF signals that the reader could not. */
    method Backup() returns (t: Token)
      requires Valid()
      modifies this
      ensures Valid() && !unreadable && position == old(position) - 1
      ensures t == if old(unreadable) then -1 else EOF
      ensures cursor == if old(unreadable) then old(cursor) - 1 else old(cursor)
    {
      position := position - 1;
      var ok := UnreadRune();
      if !ok {
        return EOF;
      }
      return -1;
    }

    /** `lexEqual`, after a `=`. */
    method LexEqual() returns (t: Token)
      requires Valid() && 0 < cursor
      modifies this
      ensures Valid()
      ensures ScanPair(input, old(cursor), old(position), '=', EQUAL) == Step(Simple(t, old(position)), LexState(cursor, position + 1))
    {
      position := position + 1;
      var r, ok := ReadRune();
      if !ok {
        return EOF;
      }
      if r != '=' {
        return ILLEGAL;
      }
      return EQUAL;
    }

    /** `lexExclamation`, after a `!`: a rune other than `=` is pushed back. */
    method LexExclamation() returns (t: Token)
      requires Valid() && 0 < cursor
      modifies this
      ensures Valid()
      ensures ScanExclamation(input, old(cursor), old(position)) == Step(Simple(t, old(position)), LexState(cursor, position + 1))
    {
      position := position + 1;
      var r, ok := ReadRune();
      if !ok {
        return EOF;
      }
      if r == '=' {
        return NOT_EQUAL;
      }
      var b := Backup();
      if b == EOF {
        assert false;
      }
      return NOT;
    }

    /** `lexGreater`, after a `>`. */
    method LexGreater() returns (t: Token)
      requires Valid() && 0 < cursor
      modifies this
      ensures Valid()
      ensures ScanComparison(input, old(cursor), old(position), GREATER, GREATER_OR_EQUAL) == Step(Simple(t, old(position)), LexState(cursor, position + 1))
    {
      position := position + 1;
      var r, ok := ReadRune();
      if !ok {
        return EOF;
      }
      if r == '=' {
        return GREATER_OR_EQUAL;
      }
      if IsSpace(r) {
        return GREATER;
      }
      return ILLEGAL;
    }

    /** `lexLess`, after a `<`. */
    method LexLess() returns (t: Token)
      requires Valid() && 0 < cursor
      modifies this
      ensures Valid()
      ensures ScanComparison(input, old(cursor), old(position), LESS, LESS_OR_EQUAL) == Step(Simple(t, old(position)), LexState(cursor, position + 1))
    {
      position := position + 1;
      var r, ok := ReadRune();
      if !ok {
        return EOF;
      }
      if r == '=' {
        return LESS_OR_EQUAL;
      }
      if IsSpace(r) {
        return LESS;
      }
      return ILLEGAL;
    }

    /** `lexAnd`, after a `&`. */
    method LexAnd() returns (t: Token)
      requires Valid() && 0 < cursor
      modifies this
      ensures Valid()
      ensures ScanPair(input, old(cursor), old(position), '&', AND) == Step(Simple(t, old(position)), LexState(cursor, position + 1))
    {
      position := position + 1;
      var r, ok := ReadRune();
      if !ok {
        return EOF;
      }
      if r != '&' {
        return ILLEGAL;
      }
      return AND;
    }

    /** `lexOr`, after a `|`. */
    method LexOr() returns (t: Token)
      requires Valid() && 0 < cursor
      modifies this
      ensures Valid()
      ensures ScanPair(input, old(cursor), old(position), '|', OR) == Step(Simple(t, old(position)), LexState(cursor, position + 1))
    {
      position := position + 1;
      var r, ok := ReadRune();
      if !ok {
        return EOF;
      }
      if r != '|' {
        return ILLEGAL;
      }
      return OR;
    }

    /** The end of `lexNumber`, once the rune after the number has been
        read or the read has failed: push back and convert `literal`. The
        source has this block twice, once for each way the number can end. */
    method EndNumber(dotFound: bool, literal: string, ghost c0: nat, ghost dot: nat) returns (t: Token, v: Value)
      requires Valid()
      requires var e := if unreadable then cursor - 1 else cursor;
        && c0 < e && literal == input[c0..e]
        && (unreadable ==> !IsDigit(input[e]) && input[e] != '.')
        && (!unreadable ==> e == |input|)
        && (!dotFound ==> forall j :: c0 <= j < e ==> IsDigit(input[j]))
        && (dotFound ==> c0 < dot < e && input[dot] == '.')
        && (dotFound ==> forall j :: c0 <= j < dot ==> IsDigit(input[j]))
        && (dotFound ==> forall j :: dot < j < e ==> IsDigit(input[j]))
      modifies this
      ensures Valid() && position == old(position) - 1
      ensures cursor == if old(unreadable) then old(cursor) - 1 else old(cursor)
      ensures ScanNumber(input, c0) == Lexeme(t, v, cursor)
    {
      var _ := Backup();
      if dotFound {
        FloatEndsAt(input, c0, dot, cursor);
        return FLOAT, FloatText(literal);
      } else {
        IntegerEndsAt(input, c0, cursor);
        return INTEGER, IntValue(DecimalValue(literal));
      }
    }

    /** `lexNumber`, with the first digit pushed back: reads digits and at
        most one dot into `literal`, toggling `dotFound`. */
    method LexNumber() returns (t: Token, v: Value)
      requires Valid() && cursor < |input| && IsDigit(input[cursor])
      modifies this
      ensures Valid()
      ensures NumberStep(input, old(cursor), old(position) + 1) == Step(LexerToken(t, v, old(position) + 1), LexState(cursor, position + 1))
    {
      ghost var c0 := cursor;
      ghost var dot: nat := c0;
      var dotFound := false;
      var literal := "";
      while true
        invariant Valid() && c0 <= cursor <= |input|
        invariant literal == input[c0..cursor]
        invariant position == old(position) + (cursor - c0)
        invariant !dotFound ==> forall j :: c0 <= j < cursor ==> IsDigit(input[j])
        invariant dotFound ==> c0 < dot < cursor && input[dot] == '.'
        invariant dotFound ==> forall j :: c0 <= j < dot ==> IsDigit(input[j])
        invariant dotFound ==> forall j :: dot < j < cursor ==> IsDigit(input[j])
        decreases |input| - cursor
      {
        position := position + 1;
        var r, ok := ReadRune();
        if !ok {
          t, v := EndNumber(dotFound, literal, c0, dot);
          return;
        }
        if !IsDigit(r) {
          if r == '.' {
            if dotFound {
              SecondDotAt(input, c0, dot, cursor - 1);
              return ILLEGAL, IntValue(0);
            }
            dotFound := true;
            dot := cursor - 1;
            assert input[c0..cursor] == input[c0..cursor - 1] + ".";
            literal := literal + ".";
            continue;
          }
          t, v := EndNumber(dotFound, literal, c0, dot);
          return;
        }
        assert input[c0..cursor] == input[c0..cursor - 1] + [r];
        literal := literal + [r];
      }
    }

    /** `lexString`, after the opening quote: reads up to either quote or the
        end of input; the closing quote is consumed, not kept. */
    method LexString() returns (t: Token, v: string)
      requires Valid() && 0 < cursor
      modifies this
      ensures Valid()
      ensures ScanString(input, old(cursor), old(position)) == Step(LexerToken(t, Text(v), old(position)), LexState(cursor, position + 1))
    {
      ghost var k := cursor;
      var literal := "";
      while true
        invariant Valid() && k <= cursor <= |input|
        invariant literal == input[k..cursor]
        invariant position == old(position) + (cursor - k)
        invariant forall j :: k <= j < cursor ==> NotQuote(input[j])
        decreases |input| - cursor
      {
        position := position + 1;
        var r, ok := ReadRune();
        if !ok || r == '"' || r == '\'' {
          RunEndIs(input, k, if ok then cursor - 1 else cursor, NotQuote);
          return STRING, literal;
        }
        assert input[k..cursor] == input[k..cursor - 1] + [r];
        literal := literal + [r];
      }
    }

    /** `lexIdent`, with the first letter pushed back: reads letters, `_`
        and `.` into `s`; the rune that ends it is pushed back. */
    method LexIdent() returns (t: Token, v: string)
      requires Valid()
      modifies this
      ensures Valid()
      ensures IdentStep(input, old(cursor), old(position) + 1) == Step(LexerToken(t, Text(v), old(position) + 1), LexState(cursor, position + 1))
    {
      ghost var c0 := cursor;
      var s := "";
      while true
        invariant Valid() && c0 <= cursor <= |input|
        invariant s == input[c0..cursor]
        invariant position == old(position) + (cursor - c0)
        invariant forall j :: c0 <= j < cursor ==> IsIdentChar(input[j])
        decreases |input| - cursor
      {
        position := position + 1;
        var r, ok := ReadRune();
        if !ok || (!IsLetter(r) && r != '_' && r != '.') {
          RunEndIs(input, c0, if ok then cursor - 1 else cursor, IsIdentChar);
          var _ := Backup();
          break;
        }
        assert input[c0..cursor] == input[c0..cursor - 1] + [r];
        s := s + [r];
      }
      return IDENT, s;
    }

    /** The switch of `Yield` for a rune `r` that is not whitespace, just
        read at cursor - 1; `position` is still the position of `r`. The
        kind and payload of the token, with the position counter left one
        short of its final value (Yield adds it). */
    method LexRune(r: char) returns (token: Token, value: Value)
      requires Valid() && 0 < cursor && r == input[cursor - 1] && !IsSpace(r) && unreadable
      modifies this
      ensures Valid()
      ensures ScanRune(input, old(cursor) - 1, old(position))
           == Step(LexerToken(token, value, old(position)), LexState(cursor, position + 1))
    {
      if r == '=' {
        token := LexEqual();
        value := Text(Name(token));
      } else if r == '!' {
        token := LexExclamation();
        value := Text(Name(token));
      } else if r == '>' {
        token := LexGreater();
        value := Text(Name(token));
      } else if r == '<' {
        token := LexLess();
        value := Text(Name(token));
      } else if r == '&' {
        token := LexAnd();
        value := Text(Name(token));
      } else if r == '|' {
        token := LexOr();
        value := Text(Name(token));
      } else if r == '"' || r == '\'' {
        var text;
        token, text := LexString();
        value := Text(text);
      } else if r == '(' {
        token := OPEN;
        value := Text(Name(OPEN));
      } else if r == ')' {
        token := CLOSE;
        value := Text(Name(CLOSE));
      } else if IsDigit(r) {
        var b := Backup();
        if b == EOF {
          assert false;
        }
        token, value := LexNumber();
      } else if IsLetter(r) {
        var b := Backup();
        if b == EOF {
          assert false;
        }
        var text;
        token, text := LexIdent();
        value := Text(text);
      } else {
        token := ILLEGAL;
        value := Text(Name(ILLEGAL));
      }
    }

    /** `Yield`: the next token, exactly as `Scan` describes it. At the end
        of the input it returns EOF and changes nothing; whitespace is
        skipped by calling itself again. */
    method Yield() returns (tok: LexerToken)
      requires Valid()
      modifies this
      ensures Valid()
      ensures Step(tok, State()) == Scan(input, old(State()))
      decreases |input| - cursor
    {
      var r, ok := ReadRune();
      if !ok {
        return Simple(EOF, position);
      }
      if IsSpace(r) {
        tok := Yield();
        return;
      }
      var start := position;
      var token, value := LexRune(r);
      position := position + 1;
      tok := LexerToken(token, value, start);
    }
  }
}
