# boule: the filter-expression front end, in Dafny

boule evaluates boolean filter expressions such as
`destination == 'Saturn' && speed > 280` against a set of identifiers. This
project models its front end and proves properties of it:

- **Tokens** (`tokens.dfy`, module `Tokens`). The seventeen token kinds, their
  name table, and the range tests `Valid`, `Literal`, `BinaryOperator`,
  `BooleanOperator`, `UnaryOperator` and `Group`. A kind is an integer, as
  `type Token int` is, so the range comparisons are kept as written.
- **Lexer** (`lexer.dfy`, module `Lexing`). A class `Lexer` over the input
  string, with a rune cursor and the `position` counter. `Yield`, `backup` and
  every `lexX` method follow `lexer.go` step by step, loops included. Each one
  is proved against a pure specification: `Scan` (one `Yield`) and `LexFrom`
  (the token stream up to EOF). `lexer_facts.dfy` (module `LexingFacts`)
  states the lexing rules on `Scan`, one lemma per kind of rune.
  `lexer_samples.dfy` (module `LexingSamples`) lexes the inputs of the
  repository's test table in full.
- **Syntax tree** (`ast.dfy`, module `Ast`). One datatype for the four
  expression forms (literal, unary NOT, binary, grouping). A second datatype
  holds the three literal forms (integer, string, ident).
- **Parser** (`parser.dfy`, module `Parsing`). A class `AST` with `current`
  and `peek`, pulling tokens from a `Lexer`. `newAST`, `next`, `expression`
  and `suffixExpression` are methods that follow `parser.go`. Each is proved
  equal to a pure parser, `ParseExpression`/`ParseSuffix`/`Parse`, over the
  token stream `LexFrom` gives. `parser_facts.dfy` (module `ParsingFacts`)
  proves what that parser accepts and builds:
  - `Unparse` spells a tree back as tokens;
  - parsing is exactly reading such a spelling, both ways;
  - binary chains nest to the right;
  - the error cases;
  - trailing tokens are ignored.

  `parser_samples.dfy` (module `ParsingSamples`) parses the test-table inputs.
- **Identifier input** (`prefixtree.dfy`, module `Prefixtree`). `Tree.Add`
  checks the arguments before they reach the trie:
  - it dispatches on the number of arguments;
  - a (key, value) pair needs a string key;
  - a map must be a `map[string]interface{}`;
  - values must be of one of the fourteen accepted predeclared types; a
    defined type such as `type Celsius float64` is refused, whatever its
    underlying type, because a Go type switch matches the exact type.

  The trie itself is represented by the log of `add(key, value)` calls it
  receives. Go visits a map in an unspecified order, so the map-mode loop
  takes that order as a parameter. Every property is proved for every such
  order.

Where the code and its comments disagree, the model follows the code:

- The grammar comment at `ast.go:3-13` says
  `unary -> NOT suffixExpression`, but `suffixExpression` calls `expression`
  after a NOT (`parser.go:149`), so `!(a)` is accepted.
- The same comment says `binary -> suffixExpression operator suffixExpression`,
  but the left side of a binary operator can only be a single literal token
  (`parser.go:90-136`).
- The comment lists INTEGER, STRING and IDENT as the literals. FLOAT is a
  literal kind too (`token.go:74-76`), and the parser turns a FLOAT token
  into a `LiteralIdent` node (`parser.go:104-108`).

Token positions are the values of the lexer's `position` counter, as
the code computes them. This counter is not a rune index: whitespace does not
advance it, and `backup` counts it down.

## Model

| member | source | states |
|---|---|---|
| Tokens.Name | token.go:33-65 | `String` is non-empty exactly on the seventeen kinds; EQUAL is named `==` and AND `&&` |
| Tokens.IsValid | token.go:67-72 | among the kinds, valid exactly when neither EOF nor ILLEGAL; nothing below EOF is valid |
| Tokens.IsLiteral | token.go:74-76 | true exactly for INTEGER, FLOAT, STRING and IDENT |
| Tokens.IsBinaryOperator | token.go:78-80 | true exactly for the six comparisons, AND and OR |
| Tokens.IsBooleanOperator | token.go:82-84 | true exactly for AND and OR, and implies a binary operator |
| Tokens.IsUnaryOperator | token.go:86-88 | true exactly for NOT |
| Tokens.IsGroup | token.go:90-92 | among the kinds, true exactly for OPEN and CLOSE |
| Tokens.Partition | token.go:5-31 | every kind is in exactly one of: EOF/ILLEGAL, literal, binary, unary, group |
| Tokens.NameInjective | token.go:33-61 | no two kinds share a name |
| Lexing.ScanRune | lexer.go:46-114 | one token from a non-space rune consumes at least that rune, keeps the position it started at, and is EOF only at the end of input |
| Lexing.Scan | lexer.go:35-119 | one `Yield`: EOF exactly at the end of input, otherwise at least one rune consumed; the token carries the starting position |
| Lexing.LexFrom | lexer.go:35-119 | calling `Yield` until EOF ends: the stream is non-empty, has EOF last and only last, and has at most one token per rune plus EOF |
| Lexing.IntegerEndsAt | lexer.go:237-258 | a maximal digit run with no dot is INTEGER with the decimal value of the digits |
| Lexing.FloatEndsAt | lexer.go:261-276 | digits, one dot, digits: FLOAT with the text of the numeral |
| Lexing.SecondDotAt | lexer.go:262-265 | a second dot gives ILLEGAL and is consumed |
| Lexing.Lexer.constructor | lexer.go:26-31 | `newLexer`: cursor and position at 0 |
| Lexing.Lexer.ReadRune | lexer.go:41-44 | reads the rune at the cursor, or fails at the end of input; a read that fails makes the next unread fail |
| Lexing.Lexer.UnreadRune | lexer.go:123-125 | steps the cursor back exactly when the last read succeeded |
| Lexing.Lexer.Backup | lexer.go:121-127 | counts the position down, and returns EOF when the unread fails, -1 otherwise |
| Lexing.Lexer.LexEqual | lexer.go:129-143 | agrees with the `=` rule of `Scan`: `==`, an ILLEGAL pair, or EOF at the end |
| Lexing.Lexer.LexExclamation | lexer.go:145-163 | agrees with the `!` rule: `!=`, or NOT with the next rune pushed back |
| Lexing.Lexer.LexGreater | lexer.go:165-183 | agrees with the `>` rule: `>=`, `>` before whitespace, ILLEGAL otherwise |
| Lexing.Lexer.LexLess | lexer.go:185-203 | agrees with the `<` rule: `<=`, `<` before whitespace, ILLEGAL otherwise |
| Lexing.Lexer.LexAnd | lexer.go:205-219 | agrees with the `&` rule: `&&`, ILLEGAL otherwise |
| Lexing.Lexer.LexOr | lexer.go:221-235 | agrees with the `\|` rule: `\|\|`, ILLEGAL otherwise |
| Lexing.Lexer.EndNumber | lexer.go:244-258 | the end of a number: backs up and yields what `ScanNumber` gives for the digits read |
| Lexing.Lexer.LexNumber | lexer.go:237-288 | the digit loop agrees with the number rule of `Scan` |
| Lexing.Lexer.LexString | lexer.go:290-302 | the string loop agrees with the string rule: text up to the next quote of either kind or the end |
| Lexing.Lexer.LexIdent | lexer.go:304-319 | the identifier loop agrees with the identifier rule: letters, `_` and `.` |
| Lexing.Lexer.LexRune | lexer.go:46-114 | the dispatch on the rune just read agrees with `ScanRune` |
| Lexing.Lexer.Yield | lexer.go:35-119 | a call of `Yield` returns `Scan`'s token and moves the lexer to `Scan`'s next state |
| LexingFacts.SkipsWhitespace | lexer.go:91-93 | whitespace before a token changes neither the token nor the position |
| LexingFacts.OnlyWhitespaceLeft | lexer.go:41-44 | with only whitespace left, every `Yield` is EOF at the unchanged position |
| LexingFacts.ScanAtRune | lexer.go:46-114 | at a non-space rune, `Yield` dispatches on that rune |
| LexingFacts.LexFromCons | lexer.go:35-119 | the stream is the first token followed by the stream from the next state |
| LexingFacts.EqualRule | lexer.go:129-143 | `==` is EQUAL; `=` and another rune is ILLEGAL, both consumed; `=` at the end is EOF |
| LexingFacts.ExclamationRule | lexer.go:145-163 | `!=` is NOT_EQUAL; `!` and another rune is NOT, and that rune is read again |
| LexingFacts.ComparisonRule | lexer.go:165-203 | `>`/`<` then `=` is non-strict; then whitespace, strict; then anything else, ILLEGAL |
| LexingFacts.BooleanRule | lexer.go:205-235 | `&&` is AND, `\|\|` is OR; a single `&`/`\|` and another rune is ILLEGAL |
| LexingFacts.BracketRule | lexer.go:81-89 | `(` and `)` are one-rune OPEN and CLOSE |
| LexingFacts.IntegerRule | lexer.go:237-288 | a maximal digit run is INTEGER with the value of its digits |
| LexingFacts.FloatRule | lexer.go:237-288 | a run with one dot is FLOAT |
| LexingFacts.SecondDotRule | lexer.go:262-265 | a second dot makes the number ILLEGAL |
| LexingFacts.Numeral | lexer.go:253-257 | the decimal spelling of a number is a non-empty digit string |
| LexingFacts.NumeralValue | lexer.go:253-257 | the INTEGER payload of a numeral is the number it spells |
| LexingFacts.LexNumeral | lexer.go:237-288 | a numeral alone lexes to that INTEGER, then EOF |
| LexingFacts.StringRule | lexer.go:290-302 | a string runs to the next `"` or `'` or the end; its text holds no quote |
| LexingFacts.IdentRule | lexer.go:102-113 | an identifier starts with a letter and runs over letters, `_` and `.` |
| LexingFacts.UnderscoreRule | lexer.go:109-113 | `_` cannot start a token: it is ILLEGAL on its own |
| LexingFacts.IdentPayload | lexer.go:304-319 | an identifier's text holds no digit and no quote |
| LexingSamples.SingleQuotedTokens | data_test.go:25-26 | `destination == 'Saturn'` lexes to IDENT, EQUAL, STRING, with payloads and positions |
| LexingSamples.BooleanTokens | data_test.go:34-35 | `arrived == true` lexes to IDENT, EQUAL, IDENT |
| LexingSamples.SecondDotTokens | data_test.go:84-85 | `280.32.` lexes as ILLEGAL inside the longer input, the rest as listed |
| LexingSamples.LeadingEqualTokens | data_test.go:94-95 | `== "Io"` lexes to EQUAL, STRING |
| LexingSamples.LeadingNotEqualTokens | data_test.go:100-101 | `!= speed)(` lexes to NOT_EQUAL, IDENT, CLOSE, OPEN |
| LexingSamples.MixedTokens | data_test.go:112-113 | `239869235 >= speed && (> < \|\| !))` lexes to the eleven listed kinds |
| Parsing.At | lexer.go:41-44 | a token of the stream, with EOF from the last token on: after EOF, `Yield` keeps returning EOF |
| Parsing.LiteralOf | parser.go:92-109 | a literal token becomes a literal node at the token's position |
| Parsing.ParseExpression | parser.go:53-85 | a tree is a well-formed expression that stops before the final EOF; every failure is a syntax error |
| Parsing.ParseSuffix | parser.go:87-161 | the same for `suffixExpression`: a literal, a literal-operator chain, or a NOT |
| Parsing.Parse | parser.go:17-39 | EndOfInput exactly for an input with no token; any tree is a well-formed expression |
| Parsing.ScanPayload | lexer.go:237-319 | INTEGER tokens carry an integer payload and STRING tokens a text |
| Parsing.LexedIsStream | lexer.go:35-119 | what the lexer yields is a stream the parser accepts: EOF last, fitting payloads |
| Parsing.PendingLexed | lexer.go:35-119 | the tokens still to come are exactly `LexFrom` of the lexer's state |
| Parsing.AST.constructor | parser.go:19-27 | both `current` and `peek` start as OPEN placeholders |
| Parsing.AST.Next | parser.go:41-51 | `peek` moves to `current`, the next lexed token becomes `peek`; EOF in `current` is reported |
| Parsing.AST.Expression | parser.go:53-85 | the method returns what `ParseExpression` gives at `current`, and leaves `current` on the last token used |
| Parsing.AST.SuffixExpression | parser.go:87-161 | the method returns what `ParseSuffix` gives at `current`, and leaves `current` on the last token used |
| Parsing.NewAST | parser.go:17-39 | no AST exactly for an input with no token; otherwise the program and error of `Parse` on the whole lexed input |
| ParsingFacts.Unparse | ast.go:17-54 | the tokens that spell a tree, never empty |
| ParsingFacts.UnparsedTokens | parser.go:53-161 | a spelling holds no EOF, and only a grouping's spelling starts with OPEN |
| ParsingFacts.LiteralRead | parser.go:90-109 | a token that spells a literal node makes that very node |
| ParsingFacts.LiteralWritten | parser.go:90-109 | the node made from a literal token is spelled by that token |
| ParsingFacts.ParsesUnparsed | parser.go:53-85 | `expression` at a spelling of a tree builds that tree and stops on its last token |
| ParsingFacts.SuffixParsesUnparsed | parser.go:87-161 | the same for `suffixExpression` |
| ParsingFacts.UnparsesParsed | parser.go:53-85 | the tree `expression` builds is spelled by the tokens it used, and the next token does not extend it |
| ParsingFacts.SuffixUnparsesParsed | parser.go:87-161 | the same for `suffixExpression` |
| ParsingFacts.ParseIff | parser.go:53-161 | parsing succeeds with a tree exactly when the tokens spell that tree and the next one does not extend it |
| ParsingFacts.TrailingIgnored | parser.go:37-38 | changing tokens after the ones used, without extending the tree, does not change the parse: `(x) && y` gives the grouping |
| ParsingFacts.RightNested | parser.go:111-136 | `a op1 b op2 c` is `a op1 (b op2 c)` whatever the operators |
| ParsingFacts.NotTakesExpression | parser.go:141-157 | `! a == b` is NOT applied to `a == b` |
| ParsingFacts.BadStart | parser.go:160 | a token that is not a literal, NOT or OPEN cannot start an expression |
| ParsingFacts.OperatorAtEnd | parser.go:118-124 | a binary operator with nothing after it is a syntax error |
| ParsingFacts.NoGroupOnTheRight | parser.go:126-129 | a bracket on the right of a binary operator is a syntax error |
| ParsingFacts.GroupNeedsClose | parser.go:69-75 | a grouping whose inner expression is not followed by CLOSE is a syntax error |
| ParsingFacts.BlankInput | parser.go:33-35 | a blank input gives EndOfInput |
| ParsingFacts.LoneEqual | lexer.go:129-136 | a lone `=` lexes to EOF, so it too gives EndOfInput |
| ParsingSamples.SingleQuotedParse | data_test.go:25-31 | `destination == 'Saturn'` parses to one comparison of IDENT and a string |
| ParsingSamples.BooleanParse | data_test.go:34-40 | `arrived == true` parses to one comparison of two IDENT nodes |
| ParsingSamples.SecondDotParse | data_test.go:84-91 | the ILLEGAL `280.32.` makes the input a syntax error |
| ParsingSamples.LeadingEqualParse | data_test.go:94-97 | `== "Io"` is a syntax error |
| ParsingSamples.LeadingNotEqualParse | data_test.go:100-103 | `!= speed)(` is a syntax error |
| ParsingSamples.MixedParse | data_test.go:112-115 | the bracket after `&&` makes the input a syntax error |
| ParsingSamples.MixedShape | data_test.go:112-113 | that input lexes to a stream starting INTEGER, `>=`, IDENT, `&&`, `(` |
| ParsingSamples.ChainIntoGroup | parser.go:111-136 | a stream starting `literal op literal op (` is a syntax error |
| Prefixtree.Tree.constructor | internal/prefixtree/input_test.go:14 | a new tree has received no `add` call |
| Prefixtree.Tree.Insert | internal/prefixtree/input.go:22 | one `add(key, value)` call is recorded |
| Prefixtree.Tree.Add | internal/prefixtree/input.go:10-49 | makes exactly the `add` calls of `AddOutcome`, in its order, and returns its error |
| Prefixtree.Tree.AddMap | internal/prefixtree/input.go:19-29 | the map-mode loop makes exactly the `add` calls of `MapMode` and returns its error |
| Prefixtree.MapModeAt | internal/prefixtree/input.go:20-26 | one turn of the loop: a supported value is added and the loop goes on; any other value stops it with an error naming that value |
| Prefixtree.InvalidArity | internal/prefixtree/input.go:48 | any arity but one or two is an error and adds nothing |
| Prefixtree.KeyMustBeString | internal/prefixtree/input.go:33-36 | a pair with a non-string key is an error and adds nothing |
| Prefixtree.PairMode | internal/prefixtree/input.go:38-44 | a pair with an accepted value is added once with nil; any other value is an error and adds nothing |
| Prefixtree.DefinedTypesRefused | internal/prefixtree/input.go:14-44 | a value or key of a defined type is refused in map mode and in (key, value) mode, whatever its underlying type |
| Prefixtree.NotAStringMap | internal/prefixtree/input.go:14-17 | one argument that is not a `map[string]interface{}` is an error and adds nothing |
| Prefixtree.MapModeAddsEntries | internal/prefixtree/input.go:19-29 | map mode adds the entries in visiting order up to the first unsupported value, which the error names; nil means every entry was visited |
| Prefixtree.MapModeFrom | internal/prefixtree/input.go:19-27 | the same, from any point of the visiting order |
| Prefixtree.MapModeNilIff | internal/prefixtree/input.go:19-29 | map mode returns nil exactly when every value is of an accepted type |
| Prefixtree.MapModeAddsEachOnce | internal/prefixtree/input.go:19-29 | after nil, every entry was added exactly once and nothing else was |
| Prefixtree.MapModeNotAtomic | internal/prefixtree/input.go:19-26 | for every map and visiting order, on an error the entries visited before the unsupported value stay added, in order, and the error names that value |
| Prefixtree.NotAtomicSample | internal/prefixtree/input.go:19-26 | an example: with a slice visited second, the first entry stays added |
| Prefixtree.PairSamples | internal/prefixtree/input_test.go:12-34 | `Add("some_key", 380)` adds it; `Add(3, 380)` and three arguments are errors |
| Prefixtree.MapSample | internal/prefixtree/input_test.go:39-48 | the map of `road` and `number` is added whole, in any visiting order |
| Prefixtree.NestedSamples | internal/prefixtree/input_test.go:65-77 | a map holding a slice or a `map[string]int` is refused, in any visiting order; so is one holding a `map[string]interface{}` |

## Left out

- Interpret, Resolve and Analyze (ast.go:28-90): their bodies are empty, there is nothing to model.
- `strconv.ParseFloat` (lexer.go:247-250, 272-275): FLOAT keeps the numeral as text. The ILLEGAL result for a numeral too large for a float64 is not modelled.
- `big.Int.SetString` (lexer.go:253-257): modelled as the decimal value of the digits, as an unbounded `int`. In Go, `unicode.IsDigit` (lexer.go:261) also accepts non-ASCII decimal digits such as U+0660, which `SetString` and `ParseFloat` reject, so the ILLEGAL branches at lexer.go:254-256 and 279-281 can be reached. In the model they cannot: its digits are the ASCII ones, because the character classes are modelled below code point 256 (see below), where every digit is ASCII.
- INTEGER payload type: the lexer yields a `*big.Int`, but `parser.go:96` asserts the payload is an `int`, which in Go would panic. The model gives both sides the same integer payload. The parser's precondition `IsStream` requires INTEGER and STRING tokens to carry the payload the parser expects.
- `unicode.IsSpace`, `IsDigit` and `IsLetter` (lexer.go:92-102, 261, 310): modelled on code points below 256 only, where they agree with Go. Other characters count as none of the three.
- `bufio.Reader` internals: the reader is a cursor over the string. The one behaviour of the reader the lexer depends on is kept: an unread after a failed read fails (lexer.go:123-125).
- Lexing.Lexer.LexIdent: does not require a letter at the cursor; `Yield` is the only caller and checks it (lexer.go:102-107).
- The trie behind `add`, and `Find` (internal/prefixtree): their code is not part of this model. A tree is the log of the `add` calls it receives.
- Struct arguments (internal/prefixtree/input_test.go:80-197): `input.go` has no code that flattens structs. A struct falls into the not-a-map error, which `NotAStringMap` covers.
- Go's random map iteration order: taken as a parameter `order` that lists each key once. Every map-mode lemma holds for every such order.
- The error messages of `Add`: each `fmt.Errorf` is one constructor of `AddError`; the text is not modelled, but the offending value is kept.
- The evaluator, `main.go` and `cmd/main.go`: not part of the front end; the demo entry points only print and panic.
