/**
 * The older prefix printer (src/ast_printer.rs). It was written for an expression type
 * without the Conditional node, and it treats an EndOfFile literal as unknown.
 */
module AstPrinter {
  import opened Tokens
  import opened Exprs
  import AstPrintable

  /** How a literal token prints: number text, quoted string, bare identifier. */
  function PrintLiteral(t: Token, numberText: Number -> string): (r: string)
    ensures t.kind.Str? ==> r == "\"" + t.kind.text + "\""
    ensures t.kind.Identifier? ==> r == t.kind.name
    ensures !t.kind.Number? && !t.kind.Str? && !t.kind.Identifier? ==> r == AstPrintable.UnknownLiteral
  {
    match t.kind
    case Number(n) => numberText(n)
    case Str(text) => "\"" + text + "\""
    case Identifier(ident) => ident
    case _ => AstPrintable.UnknownLiteral
  }

  /** `print` for expressions without Conditional nodes; Variable prints its lexeme. */
  function Print(e: Expr, numberText: Number -> string): (r: string)
    requires NoConditional(e)
    ensures e.Binary? ==>
              r == "(" + e.operator.lexeme + " " + Print(e.left, numberText) + " " + Print(e.right, numberText) + ")"
    ensures e.Grouping? ==> r == "(group " + Print(e.expression, numberText) + ")"
    ensures e.Unary? ==> r == "(" + e.operator.lexeme + " " + Print(e.right, numberText) + ")"
    ensures e.Literal? ==> r == PrintLiteral(e.value, numberText)
    ensures e.Variable? ==> r == e.token.lexeme
  {
    match e
    case Binary(left, operator, right) =>
      "(" + operator.lexeme + " " + Print(left, numberText) + " " + Print(right, numberText) + ")"
    case Grouping(expression) => "(group " + Print(expression, numberText) + ")"
    case Literal(value) => PrintLiteral(value, numberText)
    case Unary(operator, right) => "(" + operator.lexeme + " " + Print(right, numberText) + ")"
    case Variable(token) => token.lexeme
  }

  /**
   * The two printers agree on every expression both handle alike: no Conditional node
   * and no EndOfFile literal.
   */
  lemma {:induction false} PrintersAgree(e: Expr, numberText: Number -> string)
    requires NoConditional(e) && NoEndOfFileLiteral(e)
    ensures Print(e, numberText) == AstPrintable.Print(e, numberText)
  {
    match e
    case Binary(left, _, right) =>
      PrintersAgree(left, numberText);
      PrintersAgree(right, numberText);
    case Grouping(inner) =>
      PrintersAgree(inner, numberText);
    case Unary(_, right) =>
      PrintersAgree(right, numberText);
    case Literal(_) =>
    case Variable(_) =>
  }

  /** The printers differ on an EndOfFile literal: the older one calls it unknown. */
  lemma EndOfFileLiteralDiffers(t: Token, numberText: Number -> string)
    requires t.kind == EndOfFile
    ensures Print(Literal(t), numberText) == AstPrintable.UnknownLiteral
    ensures AstPrintable.Print(Literal(t), numberText) == "EndOfFile"
  {
  }
}
