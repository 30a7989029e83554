/** Properties of the parser, stated about the functions its methods are proved equal to. */
module ParserProperties {
  import Wrappers
  import opened Tokens
  import opened Exprs
  import Stmts
  import opened Parsing

  /** Kinds `primary` turns into a literal and consumes. */
  predicate Atom(k: TokenType) {
    k.Number? || k.Str? || k == True || k == False || k == Nil
  }

  /** Kinds that end an operand at every binary level and do not open a `?:`. */
  predicate EndsExpression(k: TokenType) {
    k == Semicolon || k == EndOfFile || k == RightParen || k == Colon
  }

  /** Kinds no binary level folds over. */
  predicate NoBinaryOperator(k: TokenType) {
    k !in [BangEqual, EqualEqual, Greater, GreaterEqual, Less, LessEqual, Minus, Plus, Slash, Star]
  }

  /** Kinds no binary level folds over and that do not open a `?:`. */
  predicate NoOperator(k: TokenType) {
    NoBinaryOperator(k) && k != QuestionMark
  }

  /** An atom is consumed by `primary` (and so by `unary`) as a literal of itself. */
  lemma PrimaryAtom(toks: seq<Token>, pos: nat, fuel: nat)
    requires InRange(toks, pos) && Atom(toks[pos].kind)
    ensures UnaryF(toks, pos, fuel) == PrimaryF(toks, pos, fuel) == Step(Ok(Literal(toks[pos])), pos + 1)
  {
    match toks[pos].kind
    case Number(_) =>
    case Str(_) =>
    case True =>
    case False =>
    case Nil =>
  }

  /**
   * A unary parse followed by a token that no level folds over is, at every binary
   * level, the whole result.
   */
  lemma {:induction false} UnaryIsOperand(toks: seq<Token>, pos: nat, lv: Level, fuel: nat, e: Expr, q: nat)
    requires InRange(toks, pos) && UnaryF(toks, pos, fuel) == Step(Ok(e), q)
    requires NoBinaryOperator(toks[q].kind)
    ensures OperandF(toks, pos, lv, fuel) == Step(Ok(e), q)
    ensures BinaryF(toks, pos, lv, fuel) == Step(Ok(e), q)
    decreases Rank(lv)
  {
    match lv
    case FactorLevel =>
    case TermLevel => UnaryIsOperand(toks, pos, FactorLevel, fuel, e, q);
    case ComparisonLevel => UnaryIsOperand(toks, pos, TermLevel, fuel, e, q);
    case EqualityLevel => UnaryIsOperand(toks, pos, ComparisonLevel, fuel, e, q);
    assert !Matches(toks, q, Operators(lv));
  }

  /** ... and then it is the whole expression, as no `?` follows. */
  lemma UnaryIsExpression(toks: seq<Token>, pos: nat, fuel: nat, e: Expr, q: nat)
    requires InRange(toks, pos) && UnaryF(toks, pos, fuel) == Step(Ok(e), q)
    requires NoOperator(toks[q].kind)
    ensures ExpressionF(toks, pos, fuel) == Step(Ok(e), q)
  {
    UnaryIsOperand(toks, pos, EqualityLevel, fuel, e, q);
    assert !Matches(toks, q, [QuestionMark]);
  }

  /** An atom followed by something that ends an expression is a whole expression. */
  lemma AtomExpression(toks: seq<Token>, pos: nat, fuel: nat)
    requires InRange(toks, pos) && Atom(toks[pos].kind) && EndsExpression(toks[pos + 1].kind)
    ensures ExpressionF(toks, pos, fuel) == Step(Ok(Literal(toks[pos])), pos + 1)
  {
    PrimaryAtom(toks, pos, fuel);
    UnaryIsExpression(toks, pos, fuel, Literal(toks[pos]), pos + 1);
  }

  /** An atom is the operand of the term level when neither `*` nor `/` follows it. */
  lemma TermOperandAtom(toks: seq<Token>, pos: nat, fuel: nat)
    requires InRange(toks, pos) && Atom(toks[pos].kind)
    requires toks[pos + 1].kind != Slash && toks[pos + 1].kind != Star
    ensures OperandF(toks, pos, TermLevel, fuel) == Step(Ok(Literal(toks[pos])), pos + 1)
  {
    PrimaryAtom(toks, pos, fuel);
    var a := Literal(toks[pos]);
    assert OperandF(toks, pos, FactorLevel, fuel) == Step(Ok(a), pos + 1);
    assert !Matches(toks, pos + 1, Operators(FactorLevel));
    assert FoldF(toks, pos + 1, FactorLevel, a, fuel) == Step(Ok(a), pos + 1);
  }

  /** A term-level parse that stops before a token ending the expression is the whole expression. */
  lemma TermIsExpression(toks: seq<Token>, pos: nat, fuel: nat, e: Expr, q: nat)
    requires InRange(toks, pos) && BinaryF(toks, pos, TermLevel, fuel) == Step(Ok(e), q)
    requires EndsExpression(toks[q].kind)
    ensures ExpressionF(toks, pos, fuel) == Step(Ok(e), q)
  {
    assert !Matches(toks, q, Operators(ComparisonLevel));
    assert BinaryF(toks, pos, ComparisonLevel, fuel) == Step(Ok(e), q);
    assert !Matches(toks, q, Operators(EqualityLevel));
    assert BinaryF(toks, pos, EqualityLevel, fuel) == Step(Ok(e), q);
    assert !Matches(toks, q, [QuestionMark]);
  }

  /**
   * Left associativity: `a - b - c` (any mix of `-` and `+`, atoms as operands) parses
   * as `(a - b) - c`, consuming the five tokens.
   */
  lemma MinusChainIsLeftAssociative(toks: seq<Token>, pos: nat, fuel: nat)
    requires InRange(toks, pos + 5)
    requires Atom(toks[pos].kind) && Atom(toks[pos + 2].kind) && Atom(toks[pos + 4].kind)
    requires toks[pos + 1].kind in [Minus, Plus] && toks[pos + 3].kind in [Minus, Plus]
    requires EndsExpression(toks[pos + 5].kind)
    ensures ExpressionF(toks, pos, fuel)
            == Step(Ok(Binary(Binary(Literal(toks[pos]), toks[pos + 1], Literal(toks[pos + 2])),
                              toks[pos + 3], Literal(toks[pos + 4]))), pos + 5)
  {
    var a, b, c := Literal(toks[pos]), Literal(toks[pos + 2]), Literal(toks[pos + 4]);
    TermOperandAtom(toks, pos, fuel);
    TermOperandAtom(toks, pos + 2, fuel);
    TermOperandAtom(toks, pos + 4, fuel);
    var ab := Binary(a, toks[pos + 1], b);
    var abc := Binary(ab, toks[pos + 3], c);
    assert FoldF(toks, pos + 5, TermLevel, abc, fuel) == Step(Ok(abc), pos + 5);
    assert FoldF(toks, pos + 3, TermLevel, ab, fuel) == Step(Ok(abc), pos + 5);
    assert FoldF(toks, pos + 1, TermLevel, a, fuel) == Step(Ok(abc), pos + 5);
    assert BinaryF(toks, pos, TermLevel, fuel) == Step(Ok(abc), pos + 5);
    TermIsExpression(toks, pos, fuel, abc, pos + 5);
  }

  /** `a ? b : e` with atoms a, b and an expression e that parses to `alt` ending at `q`. */
  lemma ConditionalShape(toks: seq<Token>, pos: nat, fuel: nat, alt: Expr, q: nat)
    requires InRange(toks, pos + 4) && fuel > 0
    requires Atom(toks[pos].kind) && Atom(toks[pos + 2].kind)
    requires toks[pos + 1].kind == QuestionMark && toks[pos + 3].kind == Colon
    requires ExpressionF(toks, pos + 4, fuel - 1) == Step(Ok(alt), q)
    ensures ExpressionF(toks, pos, fuel)
            == Step(Ok(Conditional(Literal(toks[pos]), Literal(toks[pos + 2]), alt)), q)
  {
    PrimaryAtom(toks, pos, fuel);
    UnaryIsOperand(toks, pos, EqualityLevel, fuel, Literal(toks[pos]), pos + 1);
    AtomExpression(toks, pos + 2, fuel - 1);
    ColonBuildsConditional(toks, pos, fuel);
  }

  /** The `?` `:` branch of `conditional` when all three parts parse: a Conditional node. */
  lemma ColonBuildsConditional(toks: seq<Token>, pos: nat, fuel: nat)
    requires InRange(toks, pos) && fuel > 0
    requires var eq := BinaryF(toks, pos, EqualityLevel, fuel);
             eq.res.Ok? && Matches(toks, eq.pos, [QuestionMark])
             && var c := ExpressionF(toks, eq.pos + 1, fuel - 1);
                c.res.Ok? && Matches(toks, c.pos, [Colon])
                && ExpressionF(toks, c.pos + 1, fuel - 1).res.Ok?
    ensures var eq := BinaryF(toks, pos, EqualityLevel, fuel);
            var c := ExpressionF(toks, eq.pos + 1, fuel - 1);
            var a := ExpressionF(toks, c.pos + 1, fuel - 1);
            ConditionalF(toks, pos, fuel) == Step(Ok(Conditional(eq.res.value, c.res.value, a.res.value)), a.pos)
  {
    var eq := BinaryF(toks, pos, EqualityLevel, fuel);
    var c := ExpressionF(toks, eq.pos + 1, fuel - 1);
    var a := ExpressionF(toks, c.pos + 1, fuel - 1);
    assert !eq.res.OutOfFuel? && Matches(toks, eq.pos, [QuestionMark]) && fuel != 0;
    assert c.res.Ok? && Matches(toks, c.pos, [Colon]) && a.res.Ok? && !eq.res.Err?;
  }

  /**
   * The conditional nests to the right: `a ? b : c ? d : e` parses with the second
   * conditional as the alternative of the first. It needs two levels of fuel.
   */
  lemma ConditionalIsRightNested(toks: seq<Token>, pos: nat, fuel: nat)
    requires InRange(toks, pos + 9) && fuel >= 2
    requires Atom(toks[pos].kind) && Atom(toks[pos + 2].kind) && Atom(toks[pos + 4].kind)
    requires Atom(toks[pos + 6].kind) && Atom(toks[pos + 8].kind)
    requires toks[pos + 1].kind == QuestionMark && toks[pos + 5].kind == QuestionMark
    requires toks[pos + 3].kind == Colon && toks[pos + 7].kind == Colon
    requires EndsExpression(toks[pos + 9].kind)
    ensures ExpressionF(toks, pos, fuel)
            == Step(Ok(Conditional(Literal(toks[pos]), Literal(toks[pos + 2]),
                                   Conditional(Literal(toks[pos + 4]), Literal(toks[pos + 6]), Literal(toks[pos + 8])))),
                    pos + 9)
  {
    AtomExpression(toks, pos + 8, fuel - 2);
    ConditionalShape(toks, pos + 4, fuel - 1, Literal(toks[pos + 8]), pos + 9);
    ConditionalShape(toks, pos, fuel,
      Conditional(Literal(toks[pos + 4]), Literal(toks[pos + 6]), Literal(toks[pos + 8])), pos + 9);
  }

  /**
   * `a ? b` with no `:` yields just `a`: the consequent is parsed (its tokens are
   * consumed) and then dropped.
   */
  lemma ConditionalWithoutColonDropsConsequent(toks: seq<Token>, pos: nat, fuel: nat)
    requires InRange(toks, pos + 3) && fuel > 0
    requires Atom(toks[pos].kind) && toks[pos + 1].kind == QuestionMark && Atom(toks[pos + 2].kind)
    requires EndsExpression(toks[pos + 3].kind) && toks[pos + 3].kind != Colon
    ensures ExpressionF(toks, pos, fuel) == Step(Ok(Literal(toks[pos])), pos + 3)
  {
    var a := Literal(toks[pos]);
    PrimaryAtom(toks, pos, fuel);
    UnaryIsOperand(toks, pos, EqualityLevel, fuel, a, pos + 1);
    AtomExpression(toks, pos + 2, fuel - 1);
    NoColonKeepsCondition(toks, pos, fuel);
  }

  /** The `?` branch of `conditional` without a `:`: the equality's result, after the consequent. */
  lemma NoColonKeepsCondition(toks: seq<Token>, pos: nat, fuel: nat)
    requires InRange(toks, pos) && fuel > 0
    requires var eq := BinaryF(toks, pos, EqualityLevel, fuel);
             !eq.res.OutOfFuel? && Matches(toks, eq.pos, [QuestionMark])
             && var c := ExpressionF(toks, eq.pos + 1, fuel - 1);
                c.res.Ok? && !Matches(toks, c.pos, [Colon])
    ensures var eq := BinaryF(toks, pos, EqualityLevel, fuel);
            ConditionalF(toks, pos, fuel) == Step(eq.res, ExpressionF(toks, eq.pos + 1, fuel - 1).pos)
  {
  }

  /** Once `primary` gives no answer at `pos`, no binary level does either. */
  lemma {:induction false} PrimaryDivergenceSpreads(toks: seq<Token>, pos: nat, lv: Level, fuel: nat)
    requires InRange(toks, pos) && toks[pos].kind == LeftParen && PrimaryF(toks, pos, fuel).res.OutOfFuel?
    ensures OperandF(toks, pos, lv, fuel).res.OutOfFuel? && BinaryF(toks, pos, lv, fuel).res.OutOfFuel?
    decreases Rank(lv)
  {
    match lv
    case FactorLevel =>
    case TermLevel => PrimaryDivergenceSpreads(toks, pos, FactorLevel, fuel);
    case ComparisonLevel => PrimaryDivergenceSpreads(toks, pos, TermLevel, fuel);
    case EqualityLevel => PrimaryDivergenceSpreads(toks, pos, ComparisonLevel, fuel);
  }

  /**
   * An operand position holding `(` never returns, whatever the fuel: `primary`
   * re-enters `expression` without consuming the `(`.
   */
  lemma {:induction false} LeftParenDiverges(toks: seq<Token>, pos: nat, fuel: nat)
    requires InRange(toks, pos) && toks[pos].kind == LeftParen
    ensures PrimaryF(toks, pos, fuel).res.OutOfFuel?
    ensures ExpressionF(toks, pos, fuel).res.OutOfFuel?
  {
    if fuel > 0 {
      LeftParenDiverges(toks, pos, fuel - 1);
    }
    PrimaryDivergenceSpreads(toks, pos, EqualityLevel, fuel);
  }

  /** `primary` on an identifier: a Variable of the previous token, cursor unmoved. */
  lemma PrimaryIdentifier(toks: seq<Token>, pos: nat, fuel: nat)
    requires InRange(toks, pos) && toks[pos].kind.Identifier?
    ensures UnaryF(toks, pos, fuel) == PrimaryF(toks, pos, fuel) == Step(Ok(Variable(PreviousAt(toks, pos))), pos)
  {
  }

  /** A declaration not starting with `var` or `print` is an expression statement. */
  lemma DeclarationIsExpressionStatement(toks: seq<Token>, pos: nat, fuel: nat)
    requires InRange(toks, pos) && toks[pos].kind != TokenType.Var && toks[pos].kind != TokenType.Print
    ensures DeclarationF(toks, pos, fuel) == ExpressionStatementF(toks, pos, fuel)
  {
    assert !Matches(toks, pos, [TokenType.Var]) && !Matches(toks, pos, [TokenType.Print]);
  }

  /** An expression statement whose expression is not followed by `;` fails there. */
  lemma MissingSemicolon(toks: seq<Token>, pos: nat, fuel: nat, e: Expr, q: nat)
    requires InRange(toks, pos) && ExpressionF(toks, pos, fuel) == Step(Ok(e), q)
    requires toks[q].kind != Semicolon
    ensures ExpressionStatementF(toks, pos, fuel)
            == Step(Err(ParseError(ConsumeMessage("Expect ';' after expression"), PreviousAt(toks, q).line)), q)
  {
    var err := ParseError(ConsumeMessage("Expect ';' after expression"), PreviousAt(toks, q).line);
    assert TerminatedF(toks, pos, fuel, "Expect ';' after expression") == Step(Err(err), q);
  }

  /**
   * An identifier is never consumed: the expression statement `x;` fails on the `;`
   * check, with the cursor still on `x`.
   */
  lemma IdentifierStatementFails(toks: seq<Token>, pos: nat, fuel: nat)
    requires InRange(toks, pos + 1) && toks[pos].kind.Identifier? && toks[pos + 1].kind == Semicolon
    ensures DeclarationF(toks, pos, fuel)
            == Step(Err(ParseError(ConsumeMessage("Expect ';' after expression"), PreviousAt(toks, pos).line)), pos)
  {
    var v := Variable(PreviousAt(toks, pos));
    PrimaryIdentifier(toks, pos, fuel);
    UnaryIsExpression(toks, pos, fuel, v, pos);
    DeclarationIsExpressionStatement(toks, pos, fuel);
    MissingSemicolon(toks, pos, fuel, v, pos);
  }

  /**
   * `synchronize` advances at least once (unless already at the end) and stops at the
   * first place that is the end, follows a `;`, or starts a statement.
   */
  lemma {:induction false} SynchronizeStopsAtFirstBoundary(toks: seq<Token>, pos: nat)
    requires InRange(toks, pos)
    ensures var p := SyncF(toks, pos);
            SyncStop(toks, p)
            && (AtEnd(toks, pos) ==> p == pos)
            && (!AtEnd(toks, pos) ==> pos < p && forall q | pos < q < p :: !SyncStop(toks, q))
  {
    var start := AdvancePos(toks, pos);
    forall q | start <= q < SyncLoop(toks, start)
      ensures !SyncStop(toks, q)
    {
      SyncLoopSkips(toks, start, q);
    }
  }

  /** The loop of `synchronize` passes over no stopping place before the one it returns. */
  lemma {:induction false} SyncLoopSkips(toks: seq<Token>, pos: nat, q: nat)
    requires InRange(toks, pos) && pos <= q < SyncLoop(toks, pos)
    ensures !SyncStop(toks, q)
    decreases q - pos
  {
    assert !SyncStop(toks, pos);
    if pos < q {
      SyncLoopSkips(toks, pos + 1, q);
    }
  }

  /**
   * `parse` keeps the statements before the first error: a run of successful
   * declarations `ss`, at the cursors `ps`, followed by a failing one yields exactly
   * those statements and that error, with the cursor at the recovery point.
   */
  lemma {:induction false} ParseKeepsPrefixBeforeError(toks: seq<Token>, ps: seq<nat>, ss: seq<Stmts.Stmt>,
                                                       e: ParseError, q: nat, fuel: nat)
    requires |ps| == |ss| + 1
    requires forall i | 0 <= i < |ps| :: InRange(toks, ps[i]) && !AtEnd(toks, ps[i])
    requires forall i | 0 <= i < |ss| :: DeclarationF(toks, ps[i], fuel) == Step(Ok(ss[i]), ps[i + 1])
    requires DeclarationF(toks, ps[|ss|], fuel) == Step(Err(e), q)
    ensures ParseF(toks, ps[0], fuel) == ParseRun(ss, Wrappers.Some(e), SyncF(toks, q), false)
    decreases |ss|
  {
    ParseUnfold(toks, ps[0], fuel);
    if ss != [] {
      var ps', ss' := ps[1..], ss[1..];
      ParseKeepsPrefixBeforeError(toks, ps', ss', e, q, fuel);
      assert [ss[0]] + ss' == ss;
    }
  }

  // ---------------------------------------------------------------------------
  // Fuel: an answer found with some fuel is the answer with any larger fuel

  /** `expression` gives the same answer with more fuel once it gives one at all. */
  lemma {:induction false} ExpressionFuel(toks: seq<Token>, pos: nat, f: nat, g: nat)
    requires InRange(toks, pos) && f <= g && !ExpressionF(toks, pos, f).res.OutOfFuel?
    ensures ExpressionF(toks, pos, g) == ExpressionF(toks, pos, f)
    decreases f, 21, 0
  {
    ConditionalFuel(toks, pos, f, g);
  }

  lemma {:induction false} ConditionalFuel(toks: seq<Token>, pos: nat, f: nat, g: nat)
    requires InRange(toks, pos) && f <= g && !ConditionalF(toks, pos, f).res.OutOfFuel?
    ensures ConditionalF(toks, pos, g) == ConditionalF(toks, pos, f)
    decreases f, 20, 0
  {
    var eq := BinaryF(toks, pos, EqualityLevel, f);
    BinaryFuel(toks, pos, EqualityLevel, f, g);
    if Matches(toks, eq.pos, [QuestionMark]) {
      var c := ExpressionF(toks, eq.pos + 1, f - 1);
      ExpressionFuel(toks, eq.pos + 1, f - 1, g - 1);
      if c.res.Ok? && Matches(toks, c.pos, [Colon]) {
        ExpressionFuel(toks, c.pos + 1, f - 1, g - 1);
      }
    }
  }

  lemma {:induction false} BinaryFuel(toks: seq<Token>, pos: nat, lv: Level, f: nat, g: nat)
    requires InRange(toks, pos) && f <= g && !BinaryF(toks, pos, lv, f).res.OutOfFuel?
    ensures BinaryF(toks, pos, lv, g) == BinaryF(toks, pos, lv, f)
    decreases f, 4 * Rank(lv) + 2, 0
  {
    var first := OperandF(toks, pos, lv, f);
    OperandFuel(toks, pos, lv, f, g);
    if first.res.Ok? {
      FoldFuel(toks, first.pos, lv, first.res.value, f, g);
    }
  }

  lemma {:induction false} OperandFuel(toks: seq<Token>, pos: nat, lv: Level, f: nat, g: nat)
    requires InRange(toks, pos) && f <= g && !OperandF(toks, pos, lv, f).res.OutOfFuel?
    ensures OperandF(toks, pos, lv, g) == OperandF(toks, pos, lv, f)
    decreases f, 4 * Rank(lv), 0
  {
    match lv
    case EqualityLevel => BinaryFuel(toks, pos, ComparisonLevel, f, g);
    case ComparisonLevel => BinaryFuel(toks, pos, TermLevel, f, g);
    case TermLevel => BinaryFuel(toks, pos, FactorLevel, f, g);
    case FactorLevel => UnaryFuel(toks, pos, f, g);
  }

  lemma {:induction false} FoldFuel(toks: seq<Token>, pos: nat, lv: Level, left: Expr, f: nat, g: nat)
    requires InRange(toks, pos) && f <= g && !FoldF(toks, pos, lv, left, f).res.OutOfFuel?
    ensures FoldF(toks, pos, lv, left, g) == FoldF(toks, pos, lv, left, f)
    decreases f, 4 * Rank(lv) + 1, |toks| - pos
  {
    if Matches(toks, pos, Operators(lv)) {
      var right := OperandF(toks, pos + 1, lv, f);
      OperandFuel(toks, pos + 1, lv, f, g);
      if right.res.Ok? {
        FoldFuel(toks, right.pos, lv, Binary(left, toks[pos], right.res.value), f, g);
      }
    }
  }

  lemma {:induction false} UnaryFuel(toks: seq<Token>, pos: nat, f: nat, g: nat)
    requires InRange(toks, pos) && f <= g && !UnaryF(toks, pos, f).res.OutOfFuel?
    ensures UnaryF(toks, pos, g) == UnaryF(toks, pos, f)
    decreases f, 2, |toks| - pos
  {
    if toks[pos].kind == Bang || toks[pos].kind == Minus {
      UnaryFuel(toks, pos + 1, f, g);
    } else {
      PrimaryFuel(toks, pos, f, g);
    }
  }

  lemma {:induction false} PrimaryFuel(toks: seq<Token>, pos: nat, f: nat, g: nat)
    requires InRange(toks, pos) && f <= g && !PrimaryF(toks, pos, f).res.OutOfFuel?
    ensures PrimaryF(toks, pos, g) == PrimaryF(toks, pos, f)
    decreases f, 1, 0
  {
    if toks[pos].kind == LeftParen {
      ExpressionFuel(toks, pos, f - 1, g - 1);
    }
  }

  /** A statement ended by `;` gives the same answer with more fuel once it gives one. */
  lemma TerminatedFuel(toks: seq<Token>, pos: nat, f: nat, g: nat, message: string)
    requires InRange(toks, pos) && f <= g && !TerminatedF(toks, pos, f, message).res.OutOfFuel?
    ensures TerminatedF(toks, pos, g, message) == TerminatedF(toks, pos, f, message)
  {
    ExpressionFuel(toks, pos, f, g);
  }

  /** `declaration` gives the same answer with more fuel once it gives one at all. */
  lemma DeclarationFuel(toks: seq<Token>, pos: nat, f: nat, g: nat)
    requires InRange(toks, pos) && f <= g && !DeclarationF(toks, pos, f).res.OutOfFuel?
    ensures DeclarationF(toks, pos, g) == DeclarationF(toks, pos, f)
  {
    if Matches(toks, pos, [TokenType.Var]) {
      if toks[pos + 1].kind.Identifier? && toks[pos + 2].kind == Equal {
        ExpressionFuel(toks, pos + 3, f, g);
      }
    } else if Matches(toks, pos, [TokenType.Print]) {
      TerminatedFuel(toks, pos + 1, f, g, "Expect ';' after value");
    } else {
      TerminatedFuel(toks, pos, f, g, "Expect ';' after expression");
    }
  }

  /**
   * `parse` gives the same run with more fuel once it runs out of none: running out
   * with some fuel may mean only that the fuel was too small, while a run that ends
   * is the run of the code.
   */
  lemma {:induction false} ParseFuel(toks: seq<Token>, pos: nat, f: nat, g: nat)
    requires InRange(toks, pos) && f <= g && !ParseF(toks, pos, f).outOfFuel
    ensures ParseF(toks, pos, g) == ParseF(toks, pos, f)
    decreases |toks| - pos
  {
    if !AtEnd(toks, pos) {
      var d := DeclarationF(toks, pos, f);
      ParseUnfold(toks, pos, f);
      ParseUnfold(toks, pos, g);
      DeclarationFuel(toks, pos, f, g);
      if d.res.Ok? {
        ParseFuel(toks, d.pos, f, g);
      }
    }
  }

  /** With fuel 0 the nested conditional `a ? b : c` gives no answer; with fuel 1 it does. */
  lemma ConditionalNeedsFuel(toks: seq<Token>, pos: nat)
    requires InRange(toks, pos + 5)
    requires Atom(toks[pos].kind) && Atom(toks[pos + 2].kind) && Atom(toks[pos + 4].kind)
    requires toks[pos + 1].kind == QuestionMark && toks[pos + 3].kind == Colon
    requires EndsExpression(toks[pos + 5].kind)
    ensures ExpressionF(toks, pos, 0).res.OutOfFuel?
    ensures ExpressionF(toks, pos, 1)
            == Step(Ok(Conditional(Literal(toks[pos]), Literal(toks[pos + 2]), Literal(toks[pos + 4]))), pos + 5)
  {
    PrimaryAtom(toks, pos, 0);
    UnaryIsOperand(toks, pos, EqualityLevel, 0, Literal(toks[pos]), pos + 1);
    AtomExpression(toks, pos + 4, 0);
    ConditionalShape(toks, pos, 1, Literal(toks[pos + 4]), pos + 5);
  }

  // ---------------------------------------------------------------------------
  // End of input and prefix operators in operand position

  /** `primary` on end-of-file: a literal of that token, the cursor unmoved. */
  lemma PrimaryEndOfFile(toks: seq<Token>, pos: nat, fuel: nat)
    requires InRange(toks, pos) && AtEnd(toks, pos)
    ensures UnaryF(toks, pos, fuel) == PrimaryF(toks, pos, fuel) == Step(Ok(Literal(toks[pos])), pos)
  {
  }

  /** Prefix operators nest to the right: `- ! a` parses as `Unary(-, Unary(!, a))`. */
  lemma {:induction false} UnaryNestsRight(toks: seq<Token>, pos: nat, fuel: nat)
    requires InRange(toks, pos + 2) && Atom(toks[pos + 2].kind)
    requires toks[pos].kind in [Bang, Minus] && toks[pos + 1].kind in [Bang, Minus]
    ensures UnaryF(toks, pos, fuel)
            == Step(Ok(Unary(toks[pos], Unary(toks[pos + 1], Literal(toks[pos + 2])))), pos + 3)
  {
    PrimaryAtom(toks, pos + 2, fuel);
    assert UnaryF(toks, pos + 1, fuel) == Step(Ok(Unary(toks[pos + 1], Literal(toks[pos + 2]))), pos + 3);
  }
}
