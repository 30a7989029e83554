/** The prefix S-expression printer for expressions (src/ast_printable.rs). */
module AstPrintable {
  import opened Tokens
  import opened Exprs

  const UnknownLiteral := "Error: Unknown literal type!"

  /** How a literal token prints: number text, quoted string, bare identifier, EndOfFile. */
  function PrintLiteral(t: Token, numberText: Number -> string): (r: string)
    ensures t.kind.Str? ==> r == "\"" + t.kind.text + "\""
    ensures t.kind.Identifier? ==> r == t.kind.name
    ensures t.kind.EndOfFile? ==> r == "EndOfFile"
    ensures !t.kind.Number? && !t.kind.Str? && !t.kind.Identifier? && !t.kind.EndOfFile?
            ==> r == UnknownLiteral
  {
    match t.kind
    case Number(n) => numberText(n)
    case Str(text) => "\"" + text + "\""
    case Identifier(ident) => ident
    case EndOfFile => "EndOfFile"
    case _ => UnknownLiteral
  }

  /**
   * `print`: operators and groupings print in prefix form between parentheses. The
   * Variable node, which this printer has no arm for, prints its token's lexeme.
   */
  function Print(e: Expr, numberText: Number -> string): (r: string)
    ensures e.Binary? ==>
              r == "(" + e.operator.lexeme + " " + Print(e.left, numberText) + " " + Print(e.right, numberText) + ")"
    ensures e.Grouping? ==> r == "(group " + Print(e.expression, numberText) + ")"
    ensures e.Conditional? ==>
              r == "(if " + Print(e.condition, numberText) + " " + Print(e.consequent, numberText)
                   + " else " + Print(e.alternative, numberText) + ")"
    ensures e.Unary? ==> r == "(" + e.operator.lexeme + " " + Print(e.right, numberText) + ")"
    ensures e.Literal? ==> r == PrintLiteral(e.value, numberText)
    ensures e.Variable? ==> r == e.token.lexeme
  {
    match e
    case Binary(left, operator, right) =>
      "(" + operator.lexeme + " " + Print(left, numberText) + " " + Print(right, numberText) + ")"
    case Grouping(expression) => "(group " + Print(expression, numberText) + ")"
    case Literal(value) => PrintLiteral(value, numberText)
    case Conditional(condition, consequent, alternative) =>
      "(if " + Print(condition, numberText) + " " + Print(consequent, numberText)
      + " else " + Print(alternative, numberText) + ")"
    case Unary(operator, right) => "(" + operator.lexeme + " " + Print(right, numberText) + ")"
    case Variable(token) => token.lexeme
  }
}
