/** The expression tree built by the parser (ast.go). Each Go node struct
    becomes one constructor; positions are the lexer's position counter. */
module Ast {
  import opened Tokens

  /** `LiteralInteger`, `LiteralString` and `LiteralIdent`. An identifier
      node keeps only the token kind and the position, not its text; a FLOAT
      token also becomes a `LiteralIdent` with kind FLOAT. */
  datatype Literal =
    | LiteralInteger(integer: int, position: int)
    | LiteralString(text: string, position: int)
    | LiteralIdent(token: Token, position: int)

  /** `Operator`: the operator's kind and the position of its token. */
  datatype Operator = Operator(token: Token, position: int)

  /** `LiteralExpression`, `UnaryExpression` (wrapping `UnaryNot`),
      `BinaryExpression` (wrapping `Binary`) and `GroupingExpression`
      (wrapping `Grouping`, with both bracket positions). */
  datatype Expression =
    | LiteralExpression(literal: Literal)
    | UnaryExpression(operand: Expression, position: int)
    | BinaryExpression(left: Expression, operator: Operator, right: Expression)
    | GroupingExpression(openPosition: int, inner: Expression, closePosition: int)
}
