/** What one call of `Yield` does, rule by rule, stated on `Scan` (which the
    class `Lexing.Lexer` is proved to follow), and what follows for the
    whole token stream. Each rule lemma takes the state whose cursor is at
    the first rune of the token. */
module LexingFacts {
  import opened Tokens
  import opened Lexing

  // ---------------------------------------------------------------------
  // Whitespace and the end of input.

  /** Whitespace in front of a token is skipped and does not move the
      position counter. */
  lemma {:induction false} SkipsWhitespace(s: string, c: nat, p: int, e: nat)
    requires c <= e <= |s|
    requires forall j :: c <= j < e ==> IsSpace(s[j])
    ensures Scan(s, LexState(c, p)) == Scan(s, LexState(e, p))
    decreases e - c
  {
    if c < e {
      SkipsWhitespace(s, c + 1, p, e);
    }
  }

  /** With only whitespace left, `Yield` returns EOF at the unchanged
      position and leaves the reader at the end; from there every further
      call returns the same EOF and leaves the state as it is. */
  lemma OnlyWhitespaceLeft(s: string, c: nat, p: int)
    requires c <= |s|
    requires forall j :: c <= j < |s| ==> IsSpace(s[j])
    ensures Scan(s, LexState(c, p)) == Step(Simple(EOF, p), LexState(|s|, p))
    ensures Scan(s, LexState(|s|, p)) == Step(Simple(EOF, p), LexState(|s|, p))
    ensures LexFrom(s, LexState(c, p)) == [Simple(EOF, p)]
  {
    SkipsWhitespace(s, c, p, |s|);
  }

  /** At a rune that is not whitespace, `Yield` dispatches on that rune. */
  lemma ScanAtRune(s: string, c: nat, p: int)
    requires c < |s| && !IsSpace(s[c])
    ensures Scan(s, LexState(c, p)) == ScanRune(s, c, p)
  {
  }

  /** The token stream is the first token followed by the stream from the
      state after it. */
  lemma LexFromCons(s: string, st: LexState)
    requires st.cursor <= |s| && Scan(s, st).tok.token != EOF
    ensures LexFrom(s, st) == [Scan(s, st).tok] + LexFrom(s, Scan(s, st).next)
  {
  }

  // ---------------------------------------------------------------------
  // Operators. `c` is the index of the operator's first rune.

  /** `==` is EQUAL; `=` and any other rune is ILLEGAL and consumes that
      rune; `=` at the end of the input gives EOF. */
  lemma EqualRule(s: string, c: nat, p: int)
    requires c < |s| && s[c] == '='
    ensures c + 1 == |s| ==> Scan(s, LexState(c, p)) == Step(Simple(EOF, p), LexState(|s|, p + 2))
    ensures c + 1 < |s| && s[c + 1] == '=' ==> Scan(s, LexState(c, p)) == Step(Simple(EQUAL, p), LexState(c + 2, p + 2))
    ensures c + 1 < |s| && s[c + 1] != '=' ==> Scan(s, LexState(c, p)) == Step(Simple(ILLEGAL, p), LexState(c + 2, p + 2))
  {
  }

  /** `!=` is NOT_EQUAL; `!` and any other rune is NOT, and that rune is
      pushed back so that it starts the next token. */
  lemma ExclamationRule(s: string, c: nat, p: int)
    requires c < |s| && s[c] == '!'
    ensures c + 1 == |s| ==> Scan(s, LexState(c, p)) == Step(Simple(EOF, p), LexState(|s|, p + 2))
    ensures c + 1 < |s| && s[c + 1] == '=' ==> Scan(s, LexState(c, p)) == Step(Simple(NOT_EQUAL, p), LexState(c + 2, p + 2))
    ensures c + 1 < |s| && s[c + 1] != '=' ==> Scan(s, LexState(c, p)) == Step(Simple(NOT, p), LexState(c + 1, p + 1))
  {
  }

  /** The strict and non-strict comparison that `>` or `<` starts. */
  function Strict(c: char): Token {
    if c == '>' then GREATER else LESS
  }

  function OrEqual(c: char): Token {
    if c == '>' then GREATER_OR_EQUAL else LESS_OR_EQUAL
  }

  /** `>=`/`<=` are the non-strict comparisons; `>`/`<` need whitespace
      after them, which they consume; anything else after them is ILLEGAL. */
  lemma ComparisonRule(s: string, c: nat, p: int)
    requires c < |s| && (s[c] == '>' || s[c] == '<')
    ensures c + 1 == |s| ==> Scan(s, LexState(c, p)) == Step(Simple(EOF, p), LexState(|s|, p + 2))
    ensures c + 1 < |s| && s[c + 1] == '=' ==> Scan(s, LexState(c, p)) == Step(Simple(OrEqual(s[c]), p), LexState(c + 2, p + 2))
    ensures c + 1 < |s| && IsSpace(s[c + 1]) ==> Scan(s, LexState(c, p)) == Step(Simple(Strict(s[c]), p), LexState(c + 2, p + 2))
    ensures c + 1 < |s| && s[c + 1] != '=' && !IsSpace(s[c + 1]) ==> Scan(s, LexState(c, p)) == Step(Simple(ILLEGAL, p), LexState(c + 2, p + 2))
  {
  }

  /** The boolean operator that a doubled `&` or `|` spells. */
  function Doubled(c: char): Token {
    if c == '&' then AND else OR
  }

  /** `&&` is AND and `||` is OR; a single `&` or `|` followed by another
      rune is ILLEGAL and consumes that rune. */
  lemma BooleanRule(s: string, c: nat, p: int)
    requires c < |s| && (s[c] == '&' || s[c] == '|')
    ensures c + 1 == |s| ==> Scan(s, LexState(c, p)) == Step(Simple(EOF, p), LexState(|s|, p + 2))
    ensures c + 1 < |s| && s[c + 1] == s[c] ==> Scan(s, LexState(c, p)) == Step(Simple(Doubled(s[c]), p), LexState(c + 2, p + 2))
    ensures c + 1 < |s| && s[c + 1] != s[c] ==> Scan(s, LexState(c, p)) == Step(Simple(ILLEGAL, p), LexState(c + 2, p + 2))
  {
  }

  /** Brackets are one-rune tokens. */
  lemma BracketRule(s: string, c: nat, p: int)
    requires c < |s| && (s[c] == '(' || s[c] == ')')
    ensures Scan(s, LexState(c, p)) == Step(Simple(if s[c] == '(' then OPEN else CLOSE, p), LexState(c + 1, p + 1))
  {
  }

  // ---------------------------------------------------------------------
  // Numbers.

  /** A maximal run of digits from c to e, not followed by a dot, is an
      INTEGER whose payload is the decimal value of the run. */
  lemma IntegerRule(s: string, c: nat, p: int, e: nat)
    requires c < e <= |s|
    requires forall j :: c <= j < e ==> IsDigit(s[j])
    requires e == |s| || (!IsDigit(s[e]) && s[e] != '.')
    ensures AllDigits(s[c..e])
    ensures Scan(s, LexState(c, p)) == Step(LexerToken(INTEGER, IntValue(DecimalValue(s[c..e])), p), LexState(e, p + (e - c)))
  {
    IntegerEndsAt(s, c, e);
    ScanAtRune(s, c, p);
    assert ScanRune(s, c, p) == NumberStep(s, c, p);
  }

  /** Digits, one dot at d and a maximal run of digits up to e, with no
      second dot: a FLOAT whose payload is the text from c to e. */
  lemma FloatRule(s: string, c: nat, p: int, d: nat, e: nat)
    requires c < d < e <= |s| && s[d] == '.'
    requires forall j :: c <= j < d ==> IsDigit(s[j])
    requires forall j :: d < j < e ==> IsDigit(s[j])
    requires e == |s| || (!IsDigit(s[e]) && s[e] != '.')
    ensures Scan(s, LexState(c, p)) == Step(LexerToken(FLOAT, FloatText(s[c..e]), p), LexState(e, p + (e - c)))
  {
    FloatEndsAt(s, c, d, e);
  }

  /** A second dot in a number makes it ILLEGAL; that dot is consumed. */
  lemma SecondDotRule(s: string, c: nat, p: int, d: nat, e: nat)
    requires c < d < e < |s| && s[d] == '.' && s[e] == '.'
    requires forall j :: c <= j < d ==> IsDigit(s[j])
    requires forall j :: d < j < e ==> IsDigit(s[j])
    ensures Scan(s, LexState(c, p)) == Step(LexerToken(ILLEGAL, IntValue(0), p), LexState(e + 1, p + (e + 1 - c)))
  {
    SecondDotAt(s, c, d, e);
  }

  /** The decimal numeral of n, as a string of ASCII digits. */
  function Numeral(n: nat): (s: string)
    ensures 0 < |s| && AllDigits(s)
  {
    if n < 10 then ['0' + n as char] else Numeral(n / 10) + ['0' + (n % 10) as char]
  }

  /** The INTEGER payload of a numeral is the number it spells. */
  lemma {:induction false} NumeralValue(n: nat)
    ensures DecimalValue(Numeral(n)) == n
  {
    var s := Numeral(n);
    if n >= 10 {
      assert s[..|s| - 1] == Numeral(n / 10);
      NumeralValue(n / 10);
    }
  }

  /** So a numeral on its own lexes to that number, then EOF. */
  lemma LexNumeral(n: nat)
    ensures Lex(Numeral(n)) == [LexerToken(INTEGER, IntValue(n), 0), Simple(EOF, |Numeral(n)|)]
  {
    var s := Numeral(n);
    IntegerRule(s, 0, 0, |s|);
    assert s[0..|s|] == s;
    NumeralValue(n);
    OnlyWhitespaceLeft(s, |s|, |s|);
  }

  // ---------------------------------------------------------------------
  // Strings and identifiers.

  /** A string runs from its opening quote at c to the next quote of either
      kind at e, or to the end of the input; the payload is what lies
      between, without quotes; the closing quote, if any, is consumed, and
      an unterminated string is still a STRING. */
  lemma StringRule(s: string, c: nat, p: int, e: nat)
    requires c < e <= |s| && IsQuote(s[c])
    requires forall j :: c < j < e ==> !IsQuote(s[j])
    requires e == |s| || IsQuote(s[e])
    ensures Scan(s, LexState(c, p)).tok == LexerToken(STRING, Text(s[c + 1..e]), p)
    ensures forall ch :: ch in s[c + 1..e] ==> !IsQuote(ch)
    ensures e < |s| ==> Scan(s, LexState(c, p)).next == LexState(e + 1, p + (e - c) + 1)
    ensures e == |s| ==> Scan(s, LexState(c, p)).next == LexState(|s|, p + (e - c) + 1)
  {
    RunEndIs(s, c + 1, e, NotQuote);
    ScanAtRune(s, c, p);
    assert ScanRune(s, c, p) == ScanString(s, c + 1, p);
  }

  /** An identifier starts with a letter at c and runs over letters, `_`
      and `.` up to e; a digit or any other rune ends it. */
  lemma IdentRule(s: string, c: nat, p: int, e: nat)
    requires c < e <= |s| && IsLetter(s[c])
    requires forall j :: c <= j < e ==> IsIdentChar(s[j])
    requires e == |s| || !IsIdentChar(s[e])
    ensures Scan(s, LexState(c, p)) == Step(LexerToken(IDENT, Text(s[c..e]), p), LexState(e, p + (e - c)))
  {
    RunEndIs(s, c, e, IsIdentChar);
    ScanAtRune(s, c, p);
    assert ScanRune(s, c, p) == IdentStep(s, c, p);
  }

  /** `_` cannot start an identifier: it is ILLEGAL on its own. */
  lemma UnderscoreRule(s: string, c: nat, p: int)
    requires c < |s| && s[c] == '_'
    ensures Scan(s, LexState(c, p)) == Step(Simple(ILLEGAL, p), LexState(c + 1, p + 1))
  {
    ScanAtRune(s, c, p);
  }

  /** The characters of a run are all in the run's class. */
  lemma RunChars(s: string, i: nat, e: nat, inRun: char -> bool)
    requires i <= e <= |s|
    requires forall j :: i <= j < e ==> inRun(s[j])
    ensures forall ch :: ch in s[i..e] ==> inRun(ch)
  {
    forall ch | ch in s[i..e]
      ensures inRun(ch)
    {
      var j :| 0 <= j < e - i && s[i..e][j] == ch;
      assert s[i + j] == ch;
    }
  }

  /** The payload of an identifier never holds a digit or a quote. */
  lemma IdentPayload(s: string, c: nat, p: int)
    requires c < |s| && IsLetter(s[c])
    ensures Scan(s, LexState(c, p)).tok.token == IDENT
    ensures Scan(s, LexState(c, p)).tok.value.Text?
    ensures forall ch :: ch in Scan(s, LexState(c, p)).tok.value.text ==> IsIdentChar(ch) && !IsDigit(ch) && !IsQuote(ch)
  {
    var e := RunEnd(s, c, IsIdentChar);
    ScanAtRune(s, c, p);
    assert ScanRune(s, c, p) == IdentStep(s, c, p);
    RunChars(s, c, e, IsIdentChar);
  }
}
