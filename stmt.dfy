/** Statements and their evaluation (src/stmt.rs). */
module Stmts {
  import opened Wrappers
  import opened Exprs
  import opened LoxValues
  import opened Errors
  import Interpreter

  /** Three statement forms; a variable declaration always carries an initializer. */
  datatype Stmt =
    | Expression(expr: Expr)
    | Print(expr: Expr)
    | Var(name: string, initializer: Expr)
  {
    /** The one expression every statement form evaluates. */
    function Subject(): Expr {
      match this
      case Expression(e) => e
      case Print(e) => e
      case Var(_, e) => e
    }
  }

  /** The result of evaluating one statement and the lines it writes to standard output. */
  datatype Effect = Effect(result: Result<LoxValue, RuntimeError>, output: seq<string>)

  /**
   * `interpret`: every form evaluates its expression and returns that result; Print
   * also writes the value's display text and a newline, unless evaluation failed.
   * The Display of a value is a parameter. Var binds nothing.
   */
  function Execute(s: Stmt, display: LoxValue -> string): (r: Effect)
    ensures r.result == Interpreter.Interpret(s.Subject())
    ensures r.output == (if s.Print? && r.result.Ok? then [display(r.result.value) + "\n"] else [])
  {
    match s
    case Expression(e) => Effect(Interpreter.Interpret(e), [])
    case Print(e) =>
      var value := Interpreter.Interpret(e);
      if value.Err? then Effect(value, [])
      else Effect(Ok(value.value), [display(value.value) + "\n"])
    case Var(_, e) => Effect(Interpreter.Interpret(e), [])
  }

  /**
   * The three forms agree on their result for the same expression; they differ only in
   * Print writing exactly one line, and evaluation of a statement never fails.
   */
  lemma FormsAgree(e: Expr, name: string, display: LoxValue -> string)
    ensures Execute(Print(e), display).result == Execute(Expression(e), display).result
                                            == Execute(Var(name, e), display).result
    ensures Execute(Print(e), display).result.Ok?
    ensures Execute(Print(e), display).output == [display(Execute(Print(e), display).result.value) + "\n"]
    ensures Execute(Expression(e), display).output == Execute(Var(name, e), display).output == []
  {
  }
}
