/** The flat variable environment (src/environment.rs). */
module Environments {
  import opened Wrappers
  import opened Tokens
  import opened Errors

  datatype EnvironmentValue = Number(n: Tokens.Number) | Str(s: string) | Boolean(b: bool)

  datatype EnvironmentError = UndefinedVariable

  /** The lookup `get` performs: the binding of `name`, or UndefinedVariable. */
  function Lookup(values: map<string, EnvironmentValue>, name: string): (r: Result<EnvironmentValue, EnvironmentError>)
    ensures r.Ok? <==> name in values
    ensures r.Ok? ==> r.value == values[name]
    ensures r.Err? ==> r.error == UndefinedVariable
  {
    if name in values then Ok(values[name]) else Err(UndefinedVariable)
  }

  /** The message `get` reports for an undefined name. */
  function UndefinedMessage(name: string): string {
    "Undefined variable " + name
  }

  class Environment {
    var values: map<string, EnvironmentValue>

    /** `new`: no bindings. */
    constructor ()
      ensures values == map[]
    {
      values := map[];
    }

    /** `define`: bind `name` to `value`, replacing any earlier binding of it. */
    method Define(name: string, value: EnvironmentValue)
      modifies this
      ensures values == old(values)[name := value]
    {
      values := values[name := value];
    }

    /**
     * `get`: look the token's lexeme up; the line matters only for the report made
     * when the name is undefined, which sets the error flag.
     */
    method Get(name: Token, diagnostics: Diagnostics) returns (r: Result<EnvironmentValue, EnvironmentError>)
      requires diagnostics.Valid()
      modifies diagnostics
      ensures diagnostics.Valid()
      ensures r == Lookup(values, name.lexeme)
      ensures r.Ok? ==> diagnostics.reports == old(diagnostics.reports)
      ensures r.Err? ==> diagnostics.HadError()
                         && diagnostics.reports == old(diagnostics.reports) + [Report(name.line, "", UndefinedMessage(name.lexeme))]
    {
      if name.lexeme in values {
        return Ok(values[name.lexeme]);
      }
      diagnostics.Error(name.line, UndefinedMessage(name.lexeme));
      return Err(UndefinedVariable);
    }
  }

  /** After defining `name`, looking it up yields the defined value, old binding or not. */
  lemma DefineThenLookup(values: map<string, EnvironmentValue>, name: string, v: EnvironmentValue)
    ensures Lookup(values[name := v], name) == Ok(v)
  {
  }

  /** Defining `name` leaves the lookup of every other name as it was. */
  lemma DefineKeepsOthers(values: map<string, EnvironmentValue>, name: string, other: string, v: EnvironmentValue)
    requires other != name
    ensures Lookup(values[name := v], other) == Lookup(values, other)
  {
  }

  /** A client run: define, overwrite, then read both names back. */
  method DefineOverwriteGet(x: Token, y: Token, a: EnvironmentValue, b: EnvironmentValue, diagnostics: Diagnostics)
    returns (rx: Result<EnvironmentValue, EnvironmentError>, ry: Result<EnvironmentValue, EnvironmentError>)
    requires x.lexeme != y.lexeme && diagnostics.Valid()
    modifies diagnostics
    ensures rx == Ok(b)
    ensures ry == Err(UndefinedVariable) && diagnostics.HadError()
  {
    var env := new Environment();
    env.Define(x.lexeme, a);
    env.Define(x.lexeme, b);
    rx := env.Get(x, diagnostics);
    ry := env.Get(y, diagnostics);
  }
}
