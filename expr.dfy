/** The expression tree (src/expr.rs), with the Variable node the parser builds. */
module Exprs {
  import opened Tokens

  /**
   * A closed set of expression nodes. Children are owned values, so every expression
   * is a finite tree and structural recursion over it terminates.
   */
  datatype Expr =
    | Binary(left: Expr, operator: Token, right: Expr)
    | Conditional(condition: Expr, consequent: Expr, alternative: Expr)
    | Grouping(expression: Expr)
    | Literal(value: Token)
    | Unary(operator: Token, right: Expr)
    | Variable(token: Token)

  /** No node of `e` is a Conditional. */
  predicate NoConditional(e: Expr) {
    match e
    case Binary(l, _, r) => NoConditional(l) && NoConditional(r)
    case Conditional(_, _, _) => false
    case Grouping(g) => NoConditional(g)
    case Literal(_) => true
    case Unary(_, r) => NoConditional(r)
    case Variable(_) => true
  }

  /** No Literal node of `e` holds the end-of-file token kind. */
  predicate NoEndOfFileLiteral(e: Expr) {
    match e
    case Binary(l, _, r) => NoEndOfFileLiteral(l) && NoEndOfFileLiteral(r)
    case Conditional(c, t, f) => NoEndOfFileLiteral(c) && NoEndOfFileLiteral(t) && NoEndOfFileLiteral(f)
    case Grouping(g) => NoEndOfFileLiteral(g)
    case Literal(t) => t.kind != EndOfFile
    case Unary(_, r) => NoEndOfFileLiteral(r)
    case Variable(_) => true
  }
}
