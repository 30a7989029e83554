/** Runtime values (src/lox_value.rs) and their derived equality. */
module LoxValues {
  import Tokens

  datatype LoxValue = Number(n: Tokens.Number) | Str(s: string) | Bool(b: bool) | Nil

  /**
   * The derived PartialEq, written out arm by arm: equal variants compare their
   * payloads, different variants are never equal.
   */
  predicate ValueEq(a: LoxValue, b: LoxValue): (r: bool)
    ensures r ==> (a.Number? <==> b.Number?) && (a.Str? <==> b.Str?) && (a.Bool? <==> b.Bool?)
    ensures a.Str? && b.Str? ==> (r <==> a.s == b.s)
    ensures a.Bool? && b.Bool? ==> (r <==> a.b == b.b)
    ensures a.Number? && b.Number? ==> (r <==> a.n == b.n)
  {
    match (a, b)
    case (Number(x), Number(y)) => x == y
    case (Str(x), Str(y)) => x == y
    case (Bool(x), Bool(y)) => x == y
    case (Nil, Nil) => true
    case _ => false
  }

  /** The derived equality is exactly structural equality of values. */
  lemma ValueEqIsEquality(a: LoxValue, b: LoxValue)
    ensures ValueEq(a, b) <==> a == b
  {
  }

  /** Nil equals Nil, and values of different variants never compare equal. */
  lemma ValueEqCases(a: LoxValue, b: LoxValue)
    ensures ValueEq(Nil, Nil)
    ensures ValueEq(a, b) ==> (a.Number? <==> b.Number?) && (a.Str? <==> b.Str?)
                              && (a.Bool? <==> b.Bool?) && (a.Nil? <==> b.Nil?)
  {
  }

  /** The derived equality is an equivalence relation. */
  lemma ValueEqEquivalence(a: LoxValue, b: LoxValue, c: LoxValue)
    ensures ValueEq(a, a)
    ensures ValueEq(a, b) ==> ValueEq(b, a)
    ensures ValueEq(a, b) && ValueEq(b, c) ==> ValueEq(a, c)
  {
  }
}
