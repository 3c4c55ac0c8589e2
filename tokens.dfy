/** The token kinds of the filter language and their classification
    predicates (token.go). A token kind is an integer, exactly as in the
    source, so that the range comparisons that classify kinds can be kept
    as they are written. */
module Tokens {

  newtype Token = int

  const EOF: Token := 0
  const ILLEGAL: Token := 1
  // literal
  const INTEGER: Token := 2
  const FLOAT: Token := 3
  const STRING: Token := 4
  const IDENT: Token := 5
  // binary operator
  const EQUAL: Token := 6
  const NOT_EQUAL: Token := 7
  const GREATER: Token := 8
  const GREATER_OR_EQUAL: Token := 9
  const LESS: Token := 10
  const LESS_OR_EQUAL: Token := 11
  const AND: Token := 12
  const OR: Token := 13
  // unary operator
  const NOT: Token := 14
  // group
  const OPEN: Token := 15
  const CLOSE: Token := 16

  /** The seventeen declared kinds. */
  predicate IsKind(t: Token) {
    EOF <= t <= CLOSE
  }

  /** The name table `tokens`. */
  const Names: map<Token, string> := map[
    EOF := "EOF", ILLEGAL := "ILLEGAL",
    INTEGER := "INTEGER", FLOAT := "FLOAT", STRING := "STRING", IDENT := "IDENT",
    EQUAL := "==", NOT_EQUAL := "!=", GREATER := ">", GREATER_OR_EQUAL := ">=",
    LESS := "<", LESS_OR_EQUAL := "<=",
    AND := "&&", OR := "||",
    NOT := "!",
    OPEN := "(", CLOSE := ")"]

  /** `Token.String`: a lookup in the name table; a kind outside the table
      gets the empty string, as a Go map lookup of a missing key does. */
  function Name(t: Token): (s: string)
    ensures IsKind(t) <==> s != ""
    ensures t == EQUAL ==> s == "=="
    ensures t == AND ==> s == "&&"
  {
    if t in Names then Names[t] else ""
  }

  /** `Token.Valid`: every kind is valid except EOF and ILLEGAL (and any
      integer below them). */
  predicate IsValid(t: Token)
    ensures IsKind(t) ==> (IsValid(t) <==> t != EOF && t != ILLEGAL)
    ensures t < EOF ==> !IsValid(t)
  {
    !(t < 2)
  }

  /** `Token.Literal`. */
  predicate IsLiteral(t: Token)
    ensures IsLiteral(t) <==> t == INTEGER || t == FLOAT || t == STRING || t == IDENT
  {
    t > 1 && t < 6
  }

  /** `Token.BinaryOperator`: the six comparisons and the two connectives. */
  predicate IsBinaryOperator(t: Token)
    ensures IsBinaryOperator(t) <==>
      t == EQUAL || t == NOT_EQUAL || t == GREATER || t == GREATER_OR_EQUAL ||
      t == LESS || t == LESS_OR_EQUAL || t == AND || t == OR
  {
    t > 5 && t < 14
  }

  /** `Token.BooleanOperator`. */
  predicate IsBooleanOperator(t: Token)
    ensures IsBooleanOperator(t) <==> t == AND || t == OR
    ensures IsBooleanOperator(t) ==> IsBinaryOperator(t)
  {
    t > 11 && t < 14
  }

  /** `Token.UnaryOperator`. */
  predicate IsUnaryOperator(t: Token)
    ensures IsUnaryOperator(t) <==> t == NOT
  {
    t == 14
  }

  /** `Token.Group`: true for OPEN and CLOSE among the declared kinds; the
      source's comparison `t > 14` also holds for every integer above CLOSE. */
  predicate IsGroup(t: Token)
    ensures IsKind(t) ==> (IsGroup(t) <==> t == OPEN || t == CLOSE)
  {
    t > 14
  }

  /** The classes are pairwise disjoint, and together with EOF and ILLEGAL
      they cover every declared kind exactly once. */
  lemma Partition(t: Token)
    requires IsKind(t)
    ensures (if t == EOF || t == ILLEGAL then 1 else 0) + (if IsLiteral(t) then 1 else 0)
          + (if IsBinaryOperator(t) then 1 else 0) + (if IsUnaryOperator(t) then 1 else 0)
          + (if IsGroup(t) then 1 else 0) == 1
  {
  }

  /** No two declared kinds share a name. */
  lemma NameInjective(t: Token, u: Token)
    requires IsKind(t) && IsKind(u) && t != u
    ensures Name(t) != Name(u)
  {
  }
}
