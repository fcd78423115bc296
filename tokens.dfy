/**
 * The translator's token format that the compiler consumes: every token is a
 * single-key array `array(TYPE => payload)`, here a closed datatype.
 */
module Tokens {
  import opened Types

  /** Payload of a TYPE_VALUE token: a column reference. */
  datatype ValueInfo = ValueInfo(table: string, expression: string, ty: OutputType, hasZero: bool)

  /** Payload of a TYPE_JOIN token: one edge of the join graph. */
  datatype JoinInfo = JoinInfo(tableB: string, expression: string, isContextual: bool)

  datatype Token =
    | Function(name: string, arguments: seq<Argument>)   // TYPE_FUNCTION {function, arguments}
    | Value(info: ValueInfo)                              // TYPE_VALUE
    | Parameter(name: string)                             // TYPE_PARAMETER
    | Join(join: JoinInfo)                                // TYPE_JOIN
    | Table(table: string, id: string, hasZero: bool)     // TYPE_TABLE
    | List(pairs: seq<Assignment>)                        // TYPE_LIST

  /** One argument of a function token: a token sequence of its own (an "arrayToken"). */
  datatype Argument = Argument(tokens: seq<Token>)

  /** One `{property, value}` pair of a TYPE_LIST token. */
  datatype Assignment = Assignment(property: seq<Token>, value: seq<Token>)

  /** A request: the ordered list of top-level tokens. */
  type Request = seq<Token>

  /** The compiler's exception codes that the model raises. */
  datatype CompilerError = UnknownRequestType | NoFilterArguments | BadFilterExpression

  /** A function token with the given name. */
  predicate IsFunction(t: Token, name: string)
  {
    t.Function? && t.name == name
  }
}
