/** The literal-only evaluator for expressions (src/interpretable.rs). */
module Interpreter {
  import opened Wrappers
  import opened Tokens
  import opened Exprs
  import opened LoxValues
  import opened Errors

  /** The value a literal token of kind `k` denotes; kinds without one give Nil. */
  function LiteralValue(k: TokenType): (v: LoxValue)
    ensures k.Number? <==> v.Number?
    ensures k.Number? ==> v.n == k.number
    ensures k.Str? <==> v.Str?
    ensures k.Str? ==> v.s == k.text
    ensures v.Bool? <==> k == True || k == False
    ensures v.Bool? ==> (v.b <==> k == True)
    ensures v.Nil? <==> !(k.Number? || k.Str? || k == True || k == False)
  {
    match k
    case Number(n) => LoxValue.Number(n)
    case Str(s) => LoxValue.Str(s)
    case True => Bool(true)
    case False => Bool(false)
    case EndOfFile => LoxValue.Nil
    case _ => LoxValue.Nil
  }

  /**
   * `interpret`: a Literal node evaluates its token's kind; every other node evaluates
   * to Nil. Evaluation never fails.
   */
  function Interpret(e: Expr): (r: Result<LoxValue, RuntimeError>)
    ensures r.Ok?
    ensures !e.Literal? ==> r.value == LoxValue.Nil
  {
    match e
    case Literal(t) => Ok(LiteralValue(t.kind))
    case _ => Ok(LoxValue.Nil)
  }

  /** The literal kind that denotes a value: the inverse of LiteralValue. */
  function KindOf(v: LoxValue): (k: TokenType)
    ensures LiteralValue(k) == v
  {
    match v
    case Number(n) => TokenType.Number(n)
    case Str(s) => TokenType.Str(s)
    case Bool(b) => if b then True else False
    case Nil => TokenType.Nil
  }

  /**
   * Round trip: every value is what a literal of its kind evaluates to, whatever the
   * lexeme and line; and a literal evaluating to a non-Nil value has exactly that kind.
   */
  lemma LiteralRoundTrip(v: LoxValue, t: Token)
    ensures Interpret(Literal(Token(KindOf(v), t.lexeme, t.line))) == Ok(v)
    ensures Interpret(Literal(t)).value != LoxValue.Nil ==> KindOf(Interpret(Literal(t)).value) == t.kind
  {
  }

  /** Exactly the number, string, true and false literals evaluate to a non-Nil value. */
  lemma NilExactlyWhenNoLiteralValue(e: Expr)
    ensures Interpret(e).value != LoxValue.Nil <==>
            e.Literal? && (e.value.kind.Number? || e.value.kind.Str? || e.value.kind == True || e.value.kind == False)
  {
  }
}
