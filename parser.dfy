/**
 * The recursive-descent parser (src/parser.rs).
 *
 * The parser object holds the token list and a cursor. Each parsing method is proved
 * equal to a function over (tokens, cursor, fuel) that returns the result and the new
 * cursor; the lemmas at the end state the parser's properties about those functions.
 *
 * `primary` on `(` calls `expression` without consuming the `(`, so that path re-enters
 * itself at the same cursor and never returns. Every nested entry into `expression`
 * (the branches of `?:` and the inside of a group) therefore spends one unit of `fuel`,
 * and running out yields OutOfFuel, which stands for "the parser does not return".
 */
module Parsing {
  import Wrappers
  import opened Tokens
  import opened Exprs
  import Stmts
  import opened Errors

  /** A syntax error: the message and the line it is reported on. */
  datatype ParseError = ParseError(message: string, line: nat)

  /** What a parsing routine returns: a value, a syntax error, or no answer within the fuel. */
  datatype Res<T> = Ok(value: T) | Err(error: ParseError) | OutOfFuel
  {
    /** A failure passed on unchanged to a caller of another result type. */
    function Forward<U>(): (r: Res<U>)
      requires !Ok?
      ensures r.Err? == Err? && (Err? ==> r.error == error)
    {
      if Err? then Err(error) else OutOfFuel
    }
  }

  /** A routine's result together with the cursor it leaves behind. */
  datatype Step<T> = Step(res: Res<T>, pos: nat)

  const MissingIdentifier := "Unexpected token: Expected identifier after keyword 'var'"
  const MissingEqual := "Unexpexted token: Expected '=' after variable identifier"
  const MissingVarSemicolon := "Expected ';' after variable declaration"

  /** The message for a token that cannot start an operand. */
  function UnexpectedTokenMessage(t: Token): string {
    // The kinds that reach this message carry no number, so the renderer is unused.
    "Unexpected token: " + ToString(t, _ => "") + "."
  }

  // ---------------------------------------------------------------------------
  // The cursor

  /** A token list the parser can run on: non-empty and closed by an end-of-file token. */
  predicate WellFormed(toks: seq<Token>) {
    |toks| > 0 && toks[|toks| - 1].kind == EndOfFile
  }

  predicate InRange(toks: seq<Token>, pos: nat) {
    WellFormed(toks) && pos < |toks|
  }

  predicate AtEnd(toks: seq<Token>, pos: nat)
    requires InRange(toks, pos)
  {
    toks[pos].kind == EndOfFile
  }

  /** The token before the cursor, or the first token when the cursor is at 0. */
  function PreviousAt(toks: seq<Token>, pos: nat): Token
    requires InRange(toks, pos)
  {
    if pos == 0 then toks[0] else toks[pos - 1]
  }

  /** Where `advance` leaves the cursor: one further, except on the end-of-file token. */
  function AdvancePos(toks: seq<Token>, pos: nat): (p: nat)
    requires InRange(toks, pos)
    ensures InRange(toks, p) && pos <= p <= pos + 1
    ensures p == pos <==> AtEnd(toks, pos)
  {
    if AtEnd(toks, pos) then pos else pos + 1
  }

  /** `check`: never true at the end; otherwise the current kind equals `k`, payload included. */
  predicate CheckAt(toks: seq<Token>, pos: nat, k: TokenType)
    requires InRange(toks, pos)
  {
    !AtEnd(toks, pos) && toks[pos].kind == k
  }

  /** `match_tokens` succeeds: not at the end and the current kind is one of `kinds`. */
  predicate Matches(toks: seq<Token>, pos: nat, kinds: seq<TokenType>)
    requires InRange(toks, pos)
  {
    !AtEnd(toks, pos) && toks[pos].kind in kinds
  }

  /** The message of a failed `consume`. */
  function ConsumeMessage(message: string): string {
    "Unexpected token: " + message + "."
  }

  /** `consume`: step over a `k`, or fail where the cursor is with the previous token's line. */
  function ConsumeF(toks: seq<Token>, pos: nat, k: TokenType, message: string): (r: Step<()>)
    requires InRange(toks, pos)
    ensures InRange(toks, r.pos)
    ensures r.res.Ok? <==> CheckAt(toks, pos, k)
    ensures r.res.Ok? ==> r.pos == pos + 1
    ensures !r.res.Ok? ==> r.pos == pos
                           && r.res == Err(ParseError(ConsumeMessage(message), PreviousAt(toks, pos).line))
  {
    if CheckAt(toks, pos, k) then Step(Ok(()), pos + 1)
    else Step(Err(ParseError(ConsumeMessage(message), PreviousAt(toks, pos).line)), pos)
  }

  // ---------------------------------------------------------------------------
  // Expressions

  /** The four binary precedence levels, which share one left-folding routine. */
  datatype Level = EqualityLevel | ComparisonLevel | TermLevel | FactorLevel

  function Operators(lv: Level): seq<TokenType> {
    match lv
    case EqualityLevel => [BangEqual, EqualEqual]
    case ComparisonLevel => [Greater, GreaterEqual, Less, LessEqual]
    case TermLevel => [Minus, Plus]
    case FactorLevel => [Slash, Star]
  }

  /** Height of a level above `unary`, used to order the mutually recursive routines. */
  function Rank(lv: Level): nat {
    match lv
    case EqualityLevel => 4
    case ComparisonLevel => 3
    case TermLevel => 2
    case FactorLevel => 1
  }

  /** `expression`. */
  function ExpressionF(toks: seq<Token>, pos: nat, fuel: nat): (r: Step<Expr>)
    requires InRange(toks, pos)
    ensures InRange(toks, r.pos) && pos <= r.pos
    decreases fuel, 21, 0
  {
    ConditionalF(toks, pos, fuel)
  }

  /**
   * `conditional`: an equality, then optionally `?` expression `:` expression. The
   * equality's error surfaces only after the branches parse; a `?` branch without `:`
   * is parsed and then dropped.
   */
  function ConditionalF(toks: seq<Token>, pos: nat, fuel: nat): (r: Step<Expr>)
    requires InRange(toks, pos)
    ensures InRange(toks, r.pos) && pos <= r.pos
    decreases fuel, 20, 0
  {
    var eq := BinaryF(toks, pos, EqualityLevel, fuel);
    if eq.res.OutOfFuel? || !Matches(toks, eq.pos, [QuestionMark]) then eq
    else if fuel == 0 then Step(OutOfFuel, eq.pos + 1)
    else
      var consequent := ExpressionF(toks, eq.pos + 1, fuel - 1);
      if !consequent.res.Ok? then consequent
      else if !Matches(toks, consequent.pos, [Colon]) then Step(eq.res, consequent.pos)
      else
        var alternative := ExpressionF(toks, consequent.pos + 1, fuel - 1);
        if !alternative.res.Ok? then alternative
        else if eq.res.Err? then Step(eq.res, alternative.pos)
        else Step(Ok(Conditional(eq.res.value, consequent.res.value, alternative.res.value)), alternative.pos)
  }

  /** `parse_binary` at one level: an operand, then the left fold over the level's operators. */
  function BinaryF(toks: seq<Token>, pos: nat, lv: Level, fuel: nat): (r: Step<Expr>)
    requires InRange(toks, pos)
    ensures InRange(toks, r.pos) && pos <= r.pos
    decreases fuel, 4 * Rank(lv) + 2, 0
  {
    var first := OperandF(toks, pos, lv, fuel);
    if !first.res.Ok? then first else FoldF(toks, first.pos, lv, first.res.value, fuel)
  }

  /** The routine a level passes to `parse_binary` for its operands. */
  function OperandF(toks: seq<Token>, pos: nat, lv: Level, fuel: nat): (r: Step<Expr>)
    requires InRange(toks, pos)
    ensures InRange(toks, r.pos) && pos <= r.pos
    decreases fuel, 4 * Rank(lv), 0
  {
    match lv
    case EqualityLevel => BinaryF(toks, pos, ComparisonLevel, fuel)
    case ComparisonLevel => BinaryF(toks, pos, TermLevel, fuel)
    case TermLevel => BinaryF(toks, pos, FactorLevel, fuel)
    case FactorLevel => UnaryF(toks, pos, fuel)
  }

  /** The loop of `parse_binary`: while an operator matches, `left op right` becomes the new left. */
  function FoldF(toks: seq<Token>, pos: nat, lv: Level, left: Expr, fuel: nat): (r: Step<Expr>)
    requires InRange(toks, pos)
    ensures InRange(toks, r.pos) && pos <= r.pos
    decreases fuel, 4 * Rank(lv) + 1, |toks| - pos
  {
    if !Matches(toks, pos, Operators(lv)) then Step(Ok(left), pos)
    else
      var right := OperandF(toks, pos + 1, lv, fuel);
      if !right.res.Ok? then right
      else FoldF(toks, right.pos, lv, Binary(left, toks[pos], right.res.value), fuel)
  }

  /** `unary`: prefix `!` and `-` nest to the right; anything else is a primary. */
  function UnaryF(toks: seq<Token>, pos: nat, fuel: nat): (r: Step<Expr>)
    requires InRange(toks, pos)
    ensures InRange(toks, r.pos) && pos <= r.pos
    decreases fuel, 2, |toks| - pos
  {
    if toks[pos].kind == Bang || toks[pos].kind == Minus then
      var right := UnaryF(toks, pos + 1, fuel);
      if !right.res.Ok? then right else Step(Ok(Unary(toks[pos], right.res.value)), right.pos)
    else PrimaryF(toks, pos, fuel)
  }

  /**
   * `primary`. Literal keywords, numbers and strings are consumed; end-of-file becomes
   * a literal without being consumed; an identifier becomes a Variable holding the
   * PREVIOUS token, also without being consumed; `(` re-enters `expression` at the same
   * cursor; any other token is an error on its own line.
   */
  function PrimaryF(toks: seq<Token>, pos: nat, fuel: nat): (r: Step<Expr>)
    requires InRange(toks, pos)
    ensures InRange(toks, r.pos) && pos <= r.pos
    decreases fuel, 1, 0
  {
    var t := toks[pos];
    match t.kind
    case False => Step(Ok(Literal(t)), pos + 1)
    case True => Step(Ok(Literal(t)), pos + 1)
    case Number(_) => Step(Ok(Literal(t)), pos + 1)
    case Str(_) => Step(Ok(Literal(t)), pos + 1)
    case LeftParen =>
      if fuel == 0 then Step(OutOfFuel, pos)
      else
        var inner := ExpressionF(toks, pos, fuel - 1);
        if !inner.res.Ok? then inner
        else
          var close := ConsumeF(toks, inner.pos, RightParen, "Expect ')' after expression.");
          if close.res.Err? then Step(Err(close.res.error), close.pos)
          else Step(Ok(Grouping(inner.res.value)), close.pos)
    case Nil => Step(Ok(Literal(t)), pos + 1)
    case EndOfFile => Step(Ok(Literal(t)), pos)
    case Identifier(_) => Step(Ok(Variable(PreviousAt(toks, pos))), pos)
    case _ => Step(Err(ParseError(UnexpectedTokenMessage(t), t.line)), pos)
  }

  // ---------------------------------------------------------------------------
  // Statements

  /** `declaration`; a statement that parses always ends just after a `;`. */
  function DeclarationF(toks: seq<Token>, pos: nat, fuel: nat): (r: Step<Stmts.Stmt>)
    requires InRange(toks, pos)
    ensures InRange(toks, r.pos) && pos <= r.pos
    ensures r.res.Ok? ==> pos < r.pos && toks[r.pos - 1].kind == Semicolon
  {
    if Matches(toks, pos, [TokenType.Var]) then VarDeclarationF(toks, pos + 1, fuel)
    else StatementF(toks, pos, fuel)
  }

  /**
   * `var_declaration`, after `var`: an identifier, `=`, an expression and `;`, in that
   * order. A missing identifier or `=` is an error on the previous token's line.
   */
  function VarDeclarationF(toks: seq<Token>, pos: nat, fuel: nat): (r: Step<Stmts.Stmt>)
    requires InRange(toks, pos)
    ensures InRange(toks, r.pos) && pos <= r.pos
    ensures r.res.Ok? ==> r.res.value.Var? && pos + 2 < r.pos
                          && toks[pos].kind == Identifier(r.res.value.name)
                          && toks[pos + 1].kind == Equal && toks[r.pos - 1].kind == Semicolon
    ensures !toks[pos].kind.Identifier? ==>
              r == Step(Err(ParseError(MissingIdentifier, PreviousAt(toks, pos).line)), pos)
    ensures toks[pos].kind.Identifier? && toks[pos + 1].kind != Equal ==>
              r == Step(Err(ParseError(MissingEqual, toks[pos].line)), pos + 1)
    ensures r.res.Ok? ==> var init := ExpressionF(toks, pos + 2, fuel);
                          init.res == Ok(r.res.value.initializer) && r.pos == init.pos + 1
    ensures toks[pos].kind.Identifier? && toks[pos + 1].kind == Equal ==>
              var init := ExpressionF(toks, pos + 2, fuel);
              (!init.res.Ok? ==> r == Step(init.res.Forward(), init.pos))
              && (init.res.Ok? && toks[init.pos].kind != Semicolon ==>
                    r == Step(Err(ParseError(ConsumeMessage(MissingVarSemicolon), PreviousAt(toks, init.pos).line)), init.pos))
  {
    match toks[pos].kind
    case Identifier(name) =>
      if !Matches(toks, pos + 1, [Equal]) then Step(Err(ParseError(MissingEqual, PreviousAt(toks, pos + 1).line)), pos + 1)
      else
        var init := ExpressionF(toks, pos + 2, fuel);
        if !init.res.Ok? then Step(init.res.Forward(), init.pos)
        else
          var semi := ConsumeF(toks, init.pos, Semicolon, MissingVarSemicolon);
          if semi.res.Err? then Step(Err(semi.res.error), semi.pos)
          else Step(Ok(Stmts.Var(name, init.res.value)), semi.pos)
    case _ => Step(Err(ParseError(MissingIdentifier, PreviousAt(toks, pos).line)), pos)
  }

  /** `statement`. */
  function StatementF(toks: seq<Token>, pos: nat, fuel: nat): (r: Step<Stmts.Stmt>)
    requires InRange(toks, pos)
    ensures InRange(toks, r.pos) && pos <= r.pos
  {
    if Matches(toks, pos, [TokenType.Print]) then PrintStatementF(toks, pos + 1, fuel)
    else ExpressionStatementF(toks, pos, fuel)
  }

  /**
   * The shared shape of `print_statement` and `expression_statement`: an expression
   * and `;`. A missing `;` is reported before an error inside the expression.
   */
  function TerminatedF(toks: seq<Token>, pos: nat, fuel: nat, message: string): (r: Step<Expr>)
    requires InRange(toks, pos)
    ensures InRange(toks, r.pos) && pos <= r.pos
    ensures r.res.Ok? ==> pos < r.pos && toks[r.pos - 1].kind == Semicolon
  {
    var value := ExpressionF(toks, pos, fuel);
    if value.res.OutOfFuel? then value
    else
      var semi := ConsumeF(toks, value.pos, Semicolon, message);
      if semi.res.Err? then Step(Err(semi.res.error), semi.pos)
      else Step(value.res, semi.pos)
  }

  /** `print_statement`, after `print`. */
  function PrintStatementF(toks: seq<Token>, pos: nat, fuel: nat): (r: Step<Stmts.Stmt>)
    requires InRange(toks, pos)
    ensures InRange(toks, r.pos) && pos <= r.pos
  {
    var e := TerminatedF(toks, pos, fuel, "Expect ';' after value");
    if e.res.Ok? then Step(Ok(Stmts.Print(e.res.value)), e.pos) else Step(e.res.Forward(), e.pos)
  }

  /** `expression_statement`. */
  function ExpressionStatementF(toks: seq<Token>, pos: nat, fuel: nat): (r: Step<Stmts.Stmt>)
    requires InRange(toks, pos)
    ensures InRange(toks, r.pos) && pos <= r.pos
  {
    var e := TerminatedF(toks, pos, fuel, "Expect ';' after expression");
    if e.res.Ok? then Step(Ok(Stmts.Expression(e.res.value)), e.pos) else Step(e.res.Forward(), e.pos)
  }

  // ---------------------------------------------------------------------------
  // Recovery and the top-level loop

  /** The keywords `synchronize` treats as the start of a new statement. */
  predicate StartsStatement(k: TokenType) {
    k == Class || k == Fun || k == TokenType.Var || k == For || k == If
    || k == While || k == TokenType.Print || k == Return
  }

  /** A place where `synchronize` stops: the end, just after `;`, or before a statement keyword. */
  predicate SyncStop(toks: seq<Token>, pos: nat)
    requires InRange(toks, pos)
  {
    AtEnd(toks, pos) || PreviousAt(toks, pos).kind == Semicolon || StartsStatement(toks[pos].kind)
  }

  /** The loop of `synchronize`. */
  function SyncLoop(toks: seq<Token>, pos: nat): (p: nat)
    requires InRange(toks, pos)
    ensures InRange(toks, p) && pos <= p && SyncStop(toks, p)
    decreases |toks| - pos
  {
    if SyncStop(toks, pos) then pos else SyncLoop(toks, pos + 1)
  }

  /** `synchronize`: advance once, then skip to the next stopping place. */
  function SyncF(toks: seq<Token>, pos: nat): (p: nat)
    requires InRange(toks, pos)
    ensures InRange(toks, p) && pos <= p
  {
    SyncLoop(toks, AdvancePos(toks, pos))
  }

  /** What `parse` produces: the statements, the first error if any, the cursor, and divergence. */
  datatype ParseRun = ParseRun(statements: seq<Stmts.Stmt>, error: Wrappers.Option<ParseError>, pos: nat, outOfFuel: bool)

  /**
   * `parse`: declarations until the end of input. The first error stops the loop after
   * recovery, keeping the statements parsed before it.
   */
  function ParseF(toks: seq<Token>, pos: nat, fuel: nat): (r: ParseRun)
    requires InRange(toks, pos)
    ensures InRange(toks, r.pos) && pos <= r.pos
    ensures !(r.error.Some? && r.outOfFuel)
    ensures r.error.None? && !r.outOfFuel ==> AtEnd(toks, r.pos)
    ensures r.error.Some? ==> SyncStop(toks, r.pos)
    decreases |toks| - pos
  {
    if AtEnd(toks, pos) then ParseRun([], Wrappers.None, pos, false)
    else
      var d := DeclarationF(toks, pos, fuel);
      match d.res
      case Ok(s) =>
        var rest := ParseF(toks, d.pos, fuel);
        ParseRun([s] + rest.statements, rest.error, rest.pos, rest.outOfFuel)
      case Err(e) => ParseRun([], Wrappers.Some(e), SyncF(toks, d.pos), false)
      case OutOfFuel => ParseRun([], Wrappers.None, d.pos, true)
  }

  /** The statements `before` followed by a run's own. */
  function Prepend(before: seq<Stmts.Stmt>, run: ParseRun): ParseRun {
    run.(statements := before + run.statements)
  }

  lemma PrependTwice(a: seq<Stmts.Stmt>, b: seq<Stmts.Stmt>, run: ParseRun)
    ensures Prepend(a, Prepend(b, run)) == Prepend(a + b, run)
  {
    assert a + (b + run.statements) == (a + b) + run.statements;
  }

  /** One turn of the loop of `parse`, in terms of the declaration parsed at `pos`. */
  lemma ParseUnfold(toks: seq<Token>, pos: nat, fuel: nat)
    requires InRange(toks, pos) && !AtEnd(toks, pos)
    ensures var d := DeclarationF(toks, pos, fuel);
            ParseF(toks, pos, fuel) == match d.res
              case Ok(s) => Prepend([s], ParseF(toks, d.pos, fuel))
              case Err(e) => ParseRun([], Wrappers.Some(e), SyncF(toks, d.pos), false)
              case OutOfFuel => ParseRun([], Wrappers.None, d.pos, true)
  {
  }

  // ---------------------------------------------------------------------------
  // The parser object

  class Parser {
    const tokens: seq<Token>
    var current: nat

    ghost predicate Valid()
      reads this
    {
      InRange(tokens, current)
    }

    /** `new`: the cursor starts on the first token. */
    constructor (tokens: seq<Token>)
      requires WellFormed(tokens)
      ensures Valid() && this.tokens == tokens && current == 0
    {
      this.tokens := tokens;
      current := 0;
    }

    /**
     * `parse`: the statements before the first error (always `Some`); the first error
     * is reported and followed by recovery. `outOfFuel` says the source would not return.
     */
    method Parse(diagnostics: Diagnostics, fuel: nat) returns (r: Wrappers.Option<seq<Stmts.Stmt>>, outOfFuel: bool)
      requires Valid() && diagnostics.Valid()
      modifies this, diagnostics
      ensures Valid() && diagnostics.Valid()
      ensures var run := ParseF(tokens, old(current), fuel);
              r == Wrappers.Some(run.statements) && outOfFuel == run.outOfFuel && current == run.pos
              && (run.error.Some? ==> diagnostics.reports == old(diagnostics.reports)
                                        + [Report(run.error.value.line, "", run.error.value.message)])
              && (run.error.None? ==> diagnostics.reports == old(diagnostics.reports))
    {
      ghost var start := current;
      var statements: seq<Stmts.Stmt> := [];
      while !IsAtEnd()
        invariant Valid() && diagnostics.Valid()
        invariant diagnostics.reports == old(diagnostics.reports)
        invariant ParseF(tokens, start, fuel) == Prepend(statements, ParseF(tokens, current, fuel))
        decreases |tokens| - current
      {
        ghost var before := current;
        var d := Declaration(fuel);
        ParseUnfold(tokens, before, fuel);
        match d
        case Ok(s) =>
          PrependTwice(statements, [s], ParseF(tokens, current, fuel));
          statements := statements + [s];
        case Err(e) =>
          diagnostics.Error(e.line, e.message);
          Synchronize();
          assert statements + [] == statements;
          return Wrappers.Some(statements), false;
        case OutOfFuel =>
          assert statements + [] == statements;
          return Wrappers.Some(statements), true;
      }
      assert statements + [] == statements;
      return Wrappers.Some(statements), false;
    }

    /** `declaration`. */
    method Declaration(fuel: nat) returns (r: Res<Stmts.Stmt>)
      requires Valid()
      modifies this
      ensures Valid() && Step(r, current) == DeclarationF(tokens, old(current), fuel)
    {
      var isVar := MatchTokens([TokenType.Var]);
      if isVar {
        r := VarDeclaration(fuel);
      } else {
        r := Statement(fuel);
      }
    }

    /** `var_declaration`. */
    method VarDeclaration(fuel: nat) returns (r: Res<Stmts.Stmt>)
      requires Valid()
      modifies this
      ensures Valid() && Step(r, current) == VarDeclarationF(tokens, old(current), fuel)
    {
      var t := Peek();
      if !t.kind.Identifier? {
        return Err(ParseError(MissingIdentifier, Previous().line));
      }
      var name := t.kind.name;
      var _ := Advance();
      var isEqual := MatchTokens([Equal]);
      if !isEqual {
        return Err(ParseError(MissingEqual, Previous().line));
      }
      var init := Expression(fuel);
      match init
      case Ok(initializer) =>
        var semi := Consume(Semicolon, MissingVarSemicolon);
        if semi.Err? {
          return Err(semi.error);
        }
        return Ok(Stmts.Var(name, initializer));
      case Err(e) => return Err(e);
      case OutOfFuel => return OutOfFuel;
    }

    /** `statement`. */
    method Statement(fuel: nat) returns (r: Res<Stmts.Stmt>)
      requires Valid()
      modifies this
      ensures Valid() && Step(r, current) == StatementF(tokens, old(current), fuel)
    {
      var isPrint := MatchTokens([TokenType.Print]);
      if isPrint {
        r := PrintStatement(fuel);
      } else {
        r := ExpressionStatement(fuel);
      }
    }

    /** `print_statement`. */
    method PrintStatement(fuel: nat) returns (r: Res<Stmts.Stmt>)
      requires Valid()
      modifies this
      ensures Valid() && Step(r, current) == PrintStatementF(tokens, old(current), fuel)
    {
      var value := Expression(fuel);
      if value.OutOfFuel? {
        return OutOfFuel;
      }
      var semi := Consume(Semicolon, "Expect ';' after value");
      if semi.Err? {
        return Err(semi.error);
      }
      if value.Err? {
        return Err(value.error);
      }
      return Ok(Stmts.Print(value.value));
    }

    /** `expression_statement`. */
    method ExpressionStatement(fuel: nat) returns (r: Res<Stmts.Stmt>)
      requires Valid()
      modifies this
      ensures Valid() && Step(r, current) == ExpressionStatementF(tokens, old(current), fuel)
    {
      var expression := Expression(fuel);
      if expression.OutOfFuel? {
        return OutOfFuel;
      }
      var semi := Consume(Semicolon, "Expect ';' after expression");
      if semi.Err? {
        return Err(semi.error);
      }
      if expression.Err? {
        return Err(expression.error);
      }
      return Ok(Stmts.Expression(expression.value));
    }

    /** `expression`. */
    method Expression(fuel: nat) returns (r: Res<Expr>)
      requires Valid()
      modifies this
      ensures Valid() && Step(r, current) == ExpressionF(tokens, old(current), fuel)
      decreases fuel, 21, 0
    {
      r := Conditional(fuel);
    }

    /** `parse_binary`: one operand, then fold while the next token is one of the level's operators. */
    method ParseBinary(lv: Level, fuel: nat) returns (r: Res<Expr>)
      requires Valid()
      modifies this
      ensures Valid() && Step(r, current) == BinaryF(tokens, old(current), lv, fuel)
      decreases fuel, 4 * Rank(lv) + 2, 0
    {
      var first := Operand(lv, fuel);
      if !first.Ok? {
        return first;
      }
      ghost var target := FoldF(tokens, current, lv, first.value, fuel);
      var expr := first.value;
      var matched := MatchTokens(Operators(lv));
      while matched
        invariant Valid()
        invariant matched ==> 1 <= current && Matches(tokens, current - 1, Operators(lv))
                              && target == FoldF(tokens, current - 1, lv, expr, fuel)
        invariant !matched ==> target == Step(Ok(expr), current)
        decreases |tokens| - current + (if matched then 1 else 0)
      {
        var operator := Previous();
        var right := Operand(lv, fuel);
        if !right.Ok? {
          return right;
        }
        expr := Binary(expr, operator, right.value);
        matched := MatchTokens(Operators(lv));
      }
      return Ok(expr);
    }

    /** The operand routine each level hands to `parse_binary`. */
    method Operand(lv: Level, fuel: nat) returns (r: Res<Expr>)
      requires Valid()
      modifies this
      ensures Valid() && Step(r, current) == OperandF(tokens, old(current), lv, fuel)
      decreases fuel, 4 * Rank(lv), 0
    {
      match lv
      case EqualityLevel => r := Comparison(fuel);
      case ComparisonLevel => r := Term(fuel);
      case TermLevel => r := Factor(fuel);
      case FactorLevel => r := Unary(fuel);
    }

    /** `conditional`. */
    method Conditional(fuel: nat) returns (r: Res<Expr>)
      requires Valid()
      modifies this
      ensures Valid() && Step(r, current) == ConditionalF(tokens, old(current), fuel)
      decreases fuel, 20, 0
    {
      var equalityExpr := Equality(fuel);
      if equalityExpr.OutOfFuel? {
        return equalityExpr;
      }
      var isQuestion := MatchTokens([QuestionMark]);
      if isQuestion {
        if fuel == 0 {
          return OutOfFuel;
        }
        var consequent := Expression(fuel - 1);
        if !consequent.Ok? {
          return consequent;
        }
        var isColon := MatchTokens([Colon]);
        if isColon {
          var alternative := Expression(fuel - 1);
          if !alternative.Ok? {
            return alternative;
          }
          if equalityExpr.Err? {
            return equalityExpr;
          }
          return Ok(Exprs.Conditional(equalityExpr.value, consequent.value, alternative.value));
        }
      }
      return equalityExpr;
    }

    /** `equality`. */
    method Equality(fuel: nat) returns (r: Res<Expr>)
      requires Valid()
      modifies this
      ensures Valid() && Step(r, current) == BinaryF(tokens, old(current), EqualityLevel, fuel)
      decreases fuel, 4 * Rank(EqualityLevel) + 3, 0
    {
      r := ParseBinary(EqualityLevel, fuel);
    }

    /** `comparison`. */
    method Comparison(fuel: nat) returns (r: Res<Expr>)
      requires Valid()
      modifies this
      ensures Valid() && Step(r, current) == BinaryF(tokens, old(current), ComparisonLevel, fuel)
      decreases fuel, 4 * Rank(ComparisonLevel) + 3, 0
    {
      r := ParseBinary(ComparisonLevel, fuel);
    }

    /** `term`. */
    method Term(fuel: nat) returns (r: Res<Expr>)
      requires Valid()
      modifies this
      ensures Valid() && Step(r, current) == BinaryF(tokens, old(current), TermLevel, fuel)
      decreases fuel, 4 * Rank(TermLevel) + 3, 0
    {
      r := ParseBinary(TermLevel, fuel);
    }

    /** `factor`. */
    method Factor(fuel: nat) returns (r: Res<Expr>)
      requires Valid()
      modifies this
      ensures Valid() && Step(r, current) == BinaryF(tokens, old(current), FactorLevel, fuel)
      decreases fuel, 4 * Rank(FactorLevel) + 3, 0
    {
      r := ParseBinary(FactorLevel, fuel);
    }

    /** `unary`. */
    method Unary(fuel: nat) returns (r: Res<Expr>)
      requires Valid()
      modifies this
      ensures Valid() && Step(r, current) == UnaryF(tokens, old(current), fuel)
      decreases fuel, 2, |tokens| - current
    {
      var k := Peek().kind;
      if k == Bang || k == Minus {
        var _ := Advance();
        var operator := Previous();
        var right := Unary(fuel);
        if !right.Ok? {
          return right;
        }
        return Ok(Exprs.Unary(operator, right.value));
      }
      r := Primary(fuel);
    }

    /** `primary`. */
    method Primary(fuel: nat) returns (r: Res<Expr>)
      requires Valid()
      modifies this
      ensures Valid() && Step(r, current) == PrimaryF(tokens, old(current), fuel)
      decreases fuel, 1, 0
    {
      var t := Peek();
      match t.kind
      case False =>
        var _ := Advance();
        r := Ok(Literal(Previous()));
      case True =>
        var _ := Advance();
        r := Ok(Literal(Previous()));
      case Number(_) =>
        var _ := Advance();
        r := Ok(Literal(Previous()));
      case Str(_) =>
        var _ := Advance();
        r := Ok(Literal(Previous()));
      case LeftParen =>
        if fuel == 0 {
          return OutOfFuel;
        }
        var expr := Expression(fuel - 1);
        if !expr.Ok? {
          return expr;
        }
        var close := Consume(RightParen, "Expect ')' after expression.");
        if close.Err? {
          return Err(close.error);
        }
        r := Ok(Grouping(expr.value));
      case Nil =>
        var _ := Advance();
        r := Ok(Literal(Previous()));
      case EndOfFile =>
        r := Ok(Literal(Peek()));
      case Identifier(_) =>
        r := Ok(Variable(Previous()));
      case _ =>
        r := Err(ParseError(UnexpectedTokenMessage(t), Peek().line));
    }

    /** `consume`. */
    method Consume(k: TokenType, message: string) returns (r: Res<()>)
      requires Valid()
      modifies this
      ensures Valid() && Step(r, current) == ConsumeF(tokens, old(current), k, message)
    {
      if Check(k) {
        var _ := Advance();
        return Ok(());
      }
      return Err(ParseError(ConsumeMessage(message), Previous().line));
    }

    /** `match_tokens`: try each kind in turn; on the first that checks, advance once. */
    method MatchTokens(kinds: seq<TokenType>) returns (b: bool)
      requires Valid()
      modifies this
      ensures Valid()
      ensures b == Matches(tokens, old(current), kinds)
      ensures current == if b then old(current) + 1 else old(current)
    {
      for i := 0 to |kinds|
        invariant current == old(current)
        invariant forall j | 0 <= j < i :: !Check(kinds[j])
      {
        if Check(kinds[i]) {
          var _ := Advance();
          return true;
        }
      }
      return false;
    }

    /**
     * `check`: true exactly when the current token is not the end and has kind `k`;
     * a token that checks always has a successor, so advancing over it moves the cursor.
     */
    predicate Check(k: TokenType): (b: bool)
      reads this
      requires Valid()
      ensures b <==> !AtEnd(tokens, current) && tokens[current].kind == k
      ensures b ==> current + 1 < |tokens|
    {
      if IsAtEnd() then false else Peek().kind == k
    }

    /** `advance`: step forward unless on the end-of-file token; return the previous token. */
    method Advance() returns (t: Token)
      requires Valid()
      modifies this
      ensures Valid() && current == AdvancePos(tokens, old(current))
      ensures t == PreviousAt(tokens, current)
    {
      if !IsAtEnd() {
        current := current + 1;
      }
      return Previous();
    }

    /** `peek`: the token under the cursor; one that is not end-of-file has a successor. */
    function Peek(): (t: Token)
      reads this
      requires Valid()
      ensures t == tokens[current]
      ensures t.kind != EndOfFile ==> current + 1 < |tokens|
    {
      tokens[current]
    }

    /** `previous`: the token before the cursor, or the first token at the start. */
    function Previous(): (t: Token)
      reads this
      requires Valid()
      ensures t == PreviousAt(tokens, current)
      ensures current > 0 ==> t == tokens[current - 1]
      ensures current == 0 ==> t == tokens[0]
    {
      if current == 0 then tokens[0] else tokens[current - 1]
    }

    /** `is_at_end`: the cursor is on an end-of-file token; otherwise tokens remain after it. */
    predicate IsAtEnd(): (b: bool)
      reads this
      requires Valid()
      ensures b <==> AtEnd(tokens, current)
      ensures !b ==> current + 1 < |tokens|
    {
      Peek().kind == EndOfFile
    }

    /** `synchronize`: advance once, then stop after `;`, before a statement keyword, or at the end. */
    method Synchronize()
      requires Valid()
      modifies this
      ensures Valid() && current == SyncF(tokens, old(current))
    {
      var _ := Advance();
      while !IsAtEnd()
        invariant Valid() && SyncF(tokens, old(current)) == SyncLoop(tokens, current)
        decreases |tokens| - current
      {
        if Previous().kind == Semicolon {
          return;
        }
        if StartsStatement(Peek().kind) {
          return;
        }
        var _ := Advance();
      }
    }
  }
}
