# Lox front end in Dafny

This project models the front end of a Lox interpreter written in Rust:
- the single-character scanner;
- the token, expression, statement and value types;
- the recursive-descent parser with panic-mode recovery;
- the two prefix printers of expressions;
- the literal-only evaluator and the statement evaluator;
- the flat variable environment;
- the sticky "had error" flag.

It proves properties of each of these.

Each Rust file is one Dafny module:

| Rust file | Dafny module | form |
|---|---|---|
| src/token.rs | `Tokens` (tokens.dfy) | datatypes and functions |
| src/expr.rs | `Exprs` (expr.dfy) | datatype |
| src/lox_value.rs | `LoxValues` (lox_value.dfy) | datatype and its equality |
| src/errors.rs | `Errors` (errors.dfy) | class `Diagnostics` |
| src/ast_printable.rs | `AstPrintable` (ast_printable.dfy) | functions |
| src/ast_printer.rs | `AstPrinter` (ast_printer.dfy) | functions |
| src/interpretable.rs | `Interpreter` (interpretable.dfy) | functions |
| src/stmt.rs | `Stmts` (stmt.dfy) | datatype and function |
| src/environment.rs | `Environments` (environment.dfy) | class `Environment` |
| src/scanner.rs | `Scanning` (scanner.dfy) | class `Scanner` |
| src/parser.rs | `Parsing` (parser.dfy), `ParserProperties` (parser_properties.dfy) | class `Parser` and specification functions |

`Wrappers` (wrappers.dfy) holds `Option` and `Result`.

## How the model is built

- **Scanner and parser are classes.** Each keeps the fields the Rust struct updates in place. The scanner keeps `tokens`, `start`, `current` and `line`. The parser keeps the token list and the `current` cursor.
- **Each method is proved against a pure function.** Every parser method is proved equal to a function of the token list, the old cursor and the fuel. That function returns the result and the new cursor. For example, `Parser.Primary` ensures `Step(r, current) == PrimaryF(tokens, old(current), fuel)`. The parser's properties are lemmas about these functions, in `ParserProperties`.
- **The scanner is proved against `Tokenize`.** `Scanner.ScanTokens` is proved against `Tokenize`, which gives the tokens a stretch of source yields. The token count, token shape and lexeme properties are lemmas about `Tokenize`.
- **Fuel stands for non-termination.** `primary` on `(` calls `expression` without consuming the `(`, so it re-enters itself at the same cursor and never returns (src/parser.rs:221-222). This is modelled as written:
  - Every nested entry into `expression` spends one unit of `fuel`. The nested entries are the two branches of `?:` and the inside of a group.
  - Running out of fuel yields `OutOfFuel`. `OutOfFuel` for every amount of fuel means the Rust code does not return. `OutOfFuel` for one amount may only mean that the fuel was too small: `ParserProperties.ConditionalNeedsFuel` shows `a ? b : c` running out with fuel 0 and parsing with fuel 1.
  - An answer other than `OutOfFuel` is the code's answer: `ParserProperties.ExpressionFuel` and `ParserProperties.ParseFuel` prove that any larger fuel gives the same answer.
  - `ParserProperties.LeftParenDiverges` proves that an operand position holding `(` yields `OutOfFuel` for every amount of fuel.
- **The error flag is an object.** The process-wide `HAD_ERROR` static becomes a `Diagnostics` object. The parser's `Parse` and the environment's `Get` receive it as a parameter. Besides the flag, it records every report as a line, a location and a message.
- **Numbers are an abstract payload.** An `f64` payload is the type `Number` (`real`). It is only copied and compared. Where the code turns a number into text, that rendering is a parameter `numberText`.

### Where the code does not do what the grammar and panic-mode recovery intend

The model follows the code in each of these places:

- `parse` stops at the first syntax error (src/parser.rs:28-32). It reports the error, runs `synchronize`, breaks out of the loop, and returns the statements parsed before the error. Panic-mode recovery is meant to let later malformed statements be parsed and reported too, but the `break` prevents that. `ParserProperties.ParseKeepsPrefixBeforeError` states what the code does.
- The scanner recognises only the ten punctuation marks `( ) { } , . - + ; *`. Every other character is skipped with no token and no error report. Nothing in it advances `line`.
- `primary` differs from the grammar in three places:
  - It turns an identifier into a Variable holding the previous token, without consuming the identifier.
  - It turns the end-of-file token into a literal without consuming it.
  - It never consumes `(`.
- `conditional` parses the branches before it reports an error in its condition. When a `?` branch has no `:`, the branch is parsed and then dropped.
- The modelled source files come from different revisions of the program and do not fit together exactly. The model reconciles them as follows:
  - The scanner's upper-case kind names and four-argument `Token::new` (src/scanner.rs:30-35) are mapped onto the kinds and the three-field token of src/token.rs.
  - The printers and the evaluator match on the literal token's kind, because `Expr::Literal` holds a whole token.
  - `Expr` gains the `Variable` node that the parser builds.
  - `TokenType` gains `QuestionMark` and `Colon`, which the parser matches but src/token.rs does not declare.
  - The expression evaluator returns a `Result` that is always `Ok`, because src/stmt.rs uses it as a `Result`.
- The message for an unexpected token in `primary` formats the token with `{}` (src/parser.rs:245). `Token` implements `ToString` but not `Display` (src/token.rs:30), so that line would not compile as written. It is modelled with `Tokens.ToString`, the text `to_string` gives.

## Model

| member | source | states |
|---|---|---|
| Tokens.ToString | src/token.rs:30-34 | the rendering is longer than the lexeme and ends with one space followed by the lexeme |
| Tokens.ToStringPayloadFree | src/token.rs:30-34 | for a kind with no payload, the rendering is exactly the variant name, a space and the lexeme, whatever the number formatting |
| Tokens.ToStringDeterminesLexeme | src/token.rs:30-34 | two tokens of the same kind render alike if and only if their lexemes are equal |
| Tokens.KindEqualityIsStructural | src/token.rs:36-64 | kind equality includes the payload: `Identifier(a) == Identifier(b)` exactly when `a == b`; `Identifier(a) != Str(a)`; neither equals `EndOfFile` |
| LoxValues.ValueEq | src/lox_value.rs:1-7 | equal values have the same variant; two strings, two booleans or two numbers are equal exactly when their payloads are |
| LoxValues.ValueEqIsEquality | src/lox_value.rs:1-7 | the derived equality holds exactly for structurally equal values |
| LoxValues.ValueEqCases | src/lox_value.rs:1-7 | `Nil == Nil`, and values of different variants are never equal |
| LoxValues.ValueEqEquivalence | src/lox_value.rs:1-7 | the derived equality is reflexive, symmetric and transitive |
| Errors.Diagnostics.constructor | src/errors.rs:3 | the flag starts false and nothing is reported |
| Errors.Diagnostics.HadError | src/errors.rs:5-8 | returns the flag and changes nothing; the flag is set exactly when something has been reported |
| Errors.Diagnostics.Error | src/errors.rs:10-12 | afterwards the flag is set and exactly one report with an empty location has been appended |
| Errors.Diagnostics.ReportAt | src/errors.rs:14-17 | appends the report, sets the flag, and keeps "flag set if and only if something was reported" |
| AstPrintable.PrintLiteral | src/ast_printable.rs:19-25 | a string literal prints quoted, an identifier prints bare, end-of-file prints `EndOfFile`, and any other non-number kind prints the unknown-literal message |
| AstPrintable.Print | src/ast_printable.rs:9-40 | Binary prints as `(op left right)` with the operator's lexeme, Grouping as `(group inner)`, Conditional as `(if cond conseq else alt)`, Unary as `(op operand)`, a literal as PrintLiteral gives, a Variable as its token's lexeme |
| AstPrinter.PrintLiteral | src/ast_printer.rs:19-24 | a string literal prints quoted, an identifier prints bare, and every kind other than number, string and identifier (end-of-file included) prints the unknown-literal message |
| AstPrinter.Print | src/ast_printer.rs:9-27 | on expressions without Conditional nodes: Binary prints as `(op left right)` with the operator's lexeme, Grouping as `(group inner)`, Unary as `(op operand)`, a literal as this printer's PrintLiteral gives, a Variable as its token's lexeme |
| AstPrinter.PrintersAgree | src/ast_printer.rs:9-27 | the older printer and the newer one give the same text for every expression with no Conditional node and no end-of-file literal |
| AstPrinter.EndOfFileLiteralDiffers | src/ast_printer.rs:23 | on an end-of-file literal the older printer prints the unknown-literal message where the newer one prints `EndOfFile` |
| Interpreter.LiteralValue | src/interpretable.rs:10-17 | number and string kinds give the number and string values with the same payload; `true` and `false` give the matching booleans; every other kind gives Nil |
| Interpreter.Interpret | src/interpretable.rs:8-20 | evaluation never fails, and every non-literal node evaluates to Nil |
| Interpreter.KindOf | src/interpretable.rs:10-17 | every value is what a literal of the returned kind evaluates to |
| Interpreter.LiteralRoundTrip | src/interpretable.rs:10-17 | a literal of `KindOf(v)` evaluates to `v` whatever its lexeme and line, and a literal with a non-Nil value has exactly the kind `KindOf` gives back |
| Interpreter.NilExactlyWhenNoLiteralValue | src/interpretable.rs:8-20 | an expression evaluates to a non-Nil value if and only if it is a number, string, true or false literal |
| Stmts.Execute | src/stmt.rs:10-23 | every statement returns its expression's result; Print writes exactly one line (the value's text and a newline) when evaluation succeeds and nothing otherwise; the other forms write nothing |
| Stmts.FormsAgree | src/stmt.rs:10-23 | the three forms return the same result for the same expression; only Print writes, exactly one line; evaluation of a statement never fails |
| Environments.Lookup | src/environment.rs:30-38 | lookup succeeds if and only if the name is bound, returns the bound value, and otherwise fails with UndefinedVariable |
| Environments.Environment.constructor | src/environment.rs:21-25 | a new environment has no bindings |
| Environments.Environment.Define | src/environment.rs:26-28 | the name is bound to the value, any earlier binding replaced, and every other binding unchanged |
| Environments.Environment.Get | src/environment.rs:30-38 | the result depends only on the token's lexeme; the bindings are not changed; on an undefined name one report with the token's line and `Undefined variable <name>` is made and the flag is set |
| Environments.DefineThenLookup | src/environment.rs:26-33 | after defining a name, looking it up yields the defined value, whether or not it was bound before |
| Environments.DefineKeepsOthers | src/environment.rs:27 | defining a name leaves the lookup of every other name as it was |
| Environments.DefineOverwriteGet | src/environment.rs:21-38 | define, redefine, get: the second value is read back, and an undefined name fails and sets the flag |
| Scanning.TokenizeAppend | src/scanner.rs:24-28 | scanning two stretches of source one after the other gives the tokens of each, in order |
| Scanning.TokenizeStep | src/scanner.rs:25-28 | scanning one more character appends exactly that character's tokens |
| Scanning.TokenizeShape | src/scanner.rs:47-58 | every scanned token has one recognised punctuation character as its lexeme and that character's kind, lies on the scanning line, and is not end-of-file |
| Scanning.TokenizeCount | src/scanner.rs:47-58 | the number of tokens is the number of punctuation characters in the source |
| Scanning.LexemesReconstruct | src/scanner.rs:73-77 | joining the lexemes gives back the punctuation characters of the source in source order; every other character is skipped |
| Scanning.Punctuation | src/scanner.rs:47-58 | keeps only the ten recognised punctuation marks, each taken from the text, so it is no longer than the text |
| Scanning.Scanner.constructor | src/scanner.rs:14-22 | nothing is scanned yet, the cursor is at 0 and the line is 1 |
| Scanning.Scanner.IsAtEnd | src/scanner.rs:40-42 | true exactly when every character of the source has been consumed |
| Scanning.Scanner.ScanTokens | src/scanner.rs:24-38 | the cursor ends at the end of the source, the line is unchanged, and the token list grows by the tokens of the unscanned source followed by one end-of-file token with an empty lexeme |
| Scanning.Scanner.ScanToken | src/scanner.rs:44-60 | the cursor moves by exactly one character, and that character's tokens are appended |
| Scanning.Scanner.Advance | src/scanner.rs:62-67 | returns the current character and moves the cursor by one |
| Scanning.Scanner.AddBasicToken | src/scanner.rs:69-71 | appends one token of the kind, with the text from `start` to `current` as its lexeme |
| Scanning.Scanner.AddToken | src/scanner.rs:73-77 | appends one token of the kind, with the text from `start` to `current` as its lexeme |
| Scanning.Scan | src/scanner.rs:24-38 | a fresh scan returns one token per punctuation character, with their lexemes spelling the punctuation, then exactly one end-of-file token, the last; every token is on line 1 |
| Parsing.AdvancePos | src/parser.rs:281-286 | the cursor moves by at most one, stays in the list, and stays put exactly on the end-of-file token |
| Parsing.ConsumeF | src/parser.rs:251-261 | succeeds exactly when the current token has the kind and is not the end; then the cursor moves by one; otherwise the cursor stays and the error carries the message and the previous token's line |
| Parsing.ExpressionF | src/parser.rs:107-109 | the cursor never moves back and stays within the token list |
| Parsing.ConditionalF | src/parser.rs:131-149 | the cursor never moves back and stays within the token list |
| Parsing.BinaryF | src/parser.rs:111-129 | the cursor never moves back and stays within the token list |
| Parsing.OperandF | src/parser.rs:151-176 | the cursor never moves back and stays within the token list |
| Parsing.FoldF | src/parser.rs:118-126 | the cursor never moves back and stays within the token list |
| Parsing.UnaryF | src/parser.rs:178-191 | the cursor never moves back and stays within the token list |
| Parsing.PrimaryF | src/parser.rs:193-249 | the cursor never moves back and stays within the token list |
| Parsing.DeclarationF | src/parser.rs:38-44 | a declaration that parses consumes at least one token and ends just after a `;` |
| Parsing.VarDeclarationF | src/parser.rs:46-76 | a parsed declaration is identifier, `=`, expression, `;` in order and binds the identifier's name; a missing identifier fails on the previous token's line without moving; a missing `=` fails on the identifier's line after it; the initializer is the expression parsed after `=`, and the cursor ends just past the `;` that follows it; an initializer that fails passes its failure on; a parsed initializer not followed by `;` fails with the missing-`;` message on the previous token's line |
| Parsing.StatementF | src/parser.rs:78-84 | the cursor never moves back and stays within the token list |
| Parsing.TerminatedF | src/parser.rs:86-101 | a statement that parses ends just after a `;` |
| Parsing.PrintStatementF | src/parser.rs:86-93 | the cursor never moves back and stays within the token list |
| Parsing.ExpressionStatementF | src/parser.rs:95-101 | the cursor never moves back and stays within the token list |
| Parsing.SyncLoop | src/parser.rs:307-325 | stops at a place that is the end, just after a `;`, or before a statement keyword |
| Parsing.SyncF | src/parser.rs:304-325 | the cursor never moves back and stays within the token list |
| Parsing.ParseF | src/parser.rs:23-36 | a run without error or divergence ends at end-of-file; a run with an error ends at a recovery point; an error and divergence never occur together |
| Parsing.Parser.constructor | src/parser.rs:19-21 | the cursor starts on the first token |
| Parsing.Parser.Parse | src/parser.rs:23-36 | returns `Some` of the statements `ParseF` gives; the first error, if any, is reported exactly once with its line and message; otherwise nothing is reported |
| Parsing.Parser.Declaration | src/parser.rs:38-44 | result and new cursor are those of `DeclarationF` |
| Parsing.Parser.VarDeclaration | src/parser.rs:46-76 | result and new cursor are those of `VarDeclarationF` |
| Parsing.Parser.Statement | src/parser.rs:78-84 | result and new cursor are those of `StatementF` |
| Parsing.Parser.PrintStatement | src/parser.rs:86-93 | result and new cursor are those of `PrintStatementF` |
| Parsing.Parser.ExpressionStatement | src/parser.rs:95-101 | result and new cursor are those of `ExpressionStatementF` |
| Parsing.Parser.Expression | src/parser.rs:107-109 | result and new cursor are those of `ExpressionF` |
| Parsing.Parser.ParseBinary | src/parser.rs:111-129 | the loop's result and new cursor are those of `BinaryF`, an operand followed by the left fold |
| Parsing.Parser.Operand | src/parser.rs:151-176 | result and new cursor are those of the level's operand routine |
| Parsing.Parser.Conditional | src/parser.rs:131-149 | result and new cursor are those of `ConditionalF` |
| Parsing.Parser.Equality | src/parser.rs:151-156 | result and new cursor are those of the equality level |
| Parsing.Parser.Comparison | src/parser.rs:158-168 | result and new cursor are those of the comparison level |
| Parsing.Parser.Term | src/parser.rs:170-172 | result and new cursor are those of the term level |
| Parsing.Parser.Factor | src/parser.rs:174-176 | result and new cursor are those of the factor level |
| Parsing.Parser.Unary | src/parser.rs:178-191 | result and new cursor are those of `UnaryF` |
| Parsing.Parser.Primary | src/parser.rs:193-249 | result and new cursor are those of `PrimaryF` |
| Parsing.Parser.Consume | src/parser.rs:251-261 | result and new cursor are those of `ConsumeF` |
| Parsing.Parser.MatchTokens | src/parser.rs:263-271 | returns true exactly when not at the end and the current kind is one of the given kinds; then the cursor moves by one, otherwise it stays |
| Parsing.Parser.Advance | src/parser.rs:281-286 | the cursor moves as `AdvancePos` says, and the result is the token before the new cursor |
| Parsing.Parser.Check | src/parser.rs:273-279 | true exactly when the current token is not end-of-file and has the given kind; a token that checks always has a successor |
| Parsing.Parser.Peek | src/parser.rs:288-290 | the token under the cursor; one that is not end-of-file has a successor |
| Parsing.Parser.Previous | src/parser.rs:292-298 | the token before the cursor, or the first token when the cursor is at the start |
| Parsing.Parser.IsAtEnd | src/parser.rs:300-302 | true exactly when the cursor is on an end-of-file token; otherwise a token remains after the cursor |
| Parsing.Parser.Synchronize | src/parser.rs:304-325 | the new cursor is the one `SyncF` gives |
| ParserProperties.PrimaryAtom | src/parser.rs:193-234 | a number, string, true, false or nil token is consumed as a literal of itself |
| ParserProperties.UnaryIsOperand | src/parser.rs:111-129 | a unary parse followed by a token that no level folds over is the whole result at every binary level |
| ParserProperties.UnaryIsExpression | src/parser.rs:131-149 | such a parse, with no `?` after it, is the whole expression |
| ParserProperties.AtomExpression | src/parser.rs:193-234 | an atom followed by `;`, `)`, `:` or end-of-file is a whole expression of one token |
| ParserProperties.TermOperandAtom | src/parser.rs:174-176 | an atom not followed by `*` or `/` is a whole operand of the term level |
| ParserProperties.TermIsExpression | src/parser.rs:131-168 | a term-level parse that stops before a token ending the expression is the whole expression |
| ParserProperties.MinusChainIsLeftAssociative | src/parser.rs:111-129 | `a - b - c` (any mix of `-` and `+`) parses as `Binary(Binary(a, op1, b), op2, c)` and consumes the five tokens |
| ParserProperties.ConditionalShape | src/parser.rs:131-149 | `a ? b : e` parses as a Conditional with `e`'s parse as the alternative |
| ParserProperties.ColonBuildsConditional | src/parser.rs:137-144 | when condition, consequent and alternative all parse, the result is the Conditional of the three and the cursor is after the alternative |
| ParserProperties.NoColonKeepsCondition | src/parser.rs:134-148 | when the consequent parses and no `:` follows, the result is the condition's own result and the cursor is after the consequent |
| ParserProperties.ConditionalIsRightNested | src/parser.rs:131-149 | `a ? b : c ? d : e` parses with the second conditional as the alternative of the first |
| ParserProperties.ConditionalWithoutColonDropsConsequent | src/parser.rs:131-149 | `a ? b` without `:` parses as just `a`, with `b`'s token consumed |
| ParserProperties.PrimaryDivergenceSpreads | src/parser.rs:151-191 | when `primary` does not return on a `(`, no binary level returns either |
| ParserProperties.LeftParenDiverges | src/parser.rs:221-222 | an operand position holding `(` does not return, whatever the fuel |
| ParserProperties.PrimaryIdentifier | src/parser.rs:240-242 | an identifier yields a Variable of the previous token, and the cursor does not move |
| ParserProperties.DeclarationIsExpressionStatement | src/parser.rs:38-44 | a declaration not starting with `var` or `print` is parsed as an expression statement |
| ParserProperties.MissingSemicolon | src/parser.rs:95-101 | an expression not followed by `;` fails with the missing-`;` message on the previous token's line, the cursor where the expression ended |
| ParserProperties.IdentifierStatementFails | src/parser.rs:240-242 | `x;` fails with the missing-`;` message and the cursor still on `x`, because the identifier is never consumed |
| ParserProperties.SynchronizeStopsAtFirstBoundary | src/parser.rs:304-325 | `synchronize` advances at least once unless at end-of-file, and stops at the first place that is the end, just after a `;`, or before a statement keyword |
| ParserProperties.SyncLoopSkips | src/parser.rs:307-325 | the recovery loop passes over no stopping place before the one it returns |
| ParserProperties.ExpressionFuel | src/parser.rs:107-109 | once `expression` gives an answer other than OutOfFuel, every larger fuel gives the same answer |
| ParserProperties.ConditionalFuel | src/parser.rs:131-149 | the same for `conditional` |
| ParserProperties.BinaryFuel | src/parser.rs:111-129 | the same for each binary level |
| ParserProperties.OperandFuel | src/parser.rs:151-176 | the same for each level's operand routine |
| ParserProperties.FoldFuel | src/parser.rs:118-126 | the same for the left fold |
| ParserProperties.UnaryFuel | src/parser.rs:178-191 | the same for `unary` |
| ParserProperties.PrimaryFuel | src/parser.rs:193-249 | the same for `primary` |
| ParserProperties.TerminatedFuel | src/parser.rs:86-101 | the same for an expression followed by `;` |
| ParserProperties.DeclarationFuel | src/parser.rs:38-76 | the same for `declaration` |
| ParserProperties.ParseFuel | src/parser.rs:23-36 | a `parse` run that does not run out of fuel is the same run at every larger fuel, so it is the code's run |
| ParserProperties.ConditionalNeedsFuel | src/parser.rs:131-149 | `a ? b : c` runs out with fuel 0 and parses to the Conditional with fuel 1, so one OutOfFuel does not mean the code diverges |
| ParserProperties.PrimaryEndOfFile | src/parser.rs:236-238 | on end-of-file, `primary` (and `unary`) give a literal of that token without moving the cursor |
| ParserProperties.UnaryNestsRight | src/parser.rs:178-191 | two prefix operators before an atom parse as `Unary(op1, Unary(op2, atom))` over three tokens |
| ParserProperties.ParseKeepsPrefixBeforeError | src/parser.rs:23-36 | any number of successful declarations followed by a failing one gives exactly those statements in order, that error, and the recovery point after it, and nothing after it |

## Left out

- src/main.rs, src/runner.rs, src/run.rs, src/run_file.rs, src/run_prompt.rs: argument handling, file reading, the read loop and exit codes are input/output glue and are not part of this model.
- Scanning.Scanner.Advance: the debug line it prints is not modelled.
- Scanning.Scanner.Advance: the difference between byte length and character indexing is not modelled. Source text is a sequence of characters and is assumed to be ASCII.
- Errors.Diagnostics.ReportAt: the console formatting of the report is not modelled. The report is kept as a line, a location and a message.
- Errors.Diagnostics.ReportAt: the `Relaxed` memory ordering of the atomic flag is not modelled. Nothing runs concurrently.
- `f64` semantics are not modelled: NaN, negative zero and arithmetic. Numbers are `real` and are compared by numeric equality.
- AstPrintable.PrintLiteral: the display of a number is the parameter `numberText`. The same holds for AstPrinter.PrintLiteral and for Tokens.ToString on number kinds.
- Tokens.ToString: Rust's `Debug` escaping of string payloads is modelled only for `"`, `\`, newline, carriage return and tab. Other control and non-ASCII characters are not modelled.
- Stmts.Execute: the display of a value written by Print is the parameter `display`. It is not defined in the modelled files. Output is a sequence of written lines.
- Errors.RuntimeError: its definition is not part of this model. It is kept as a message and a line, and nothing creates one.
- Environments.Environment: hash-map internals and iteration order are not modelled. The bindings are a `map`.
- `expression_list` (src/parser.rs:103-105) is not modelled. Nothing calls it.
- Parsing.Parser.Parse: `fuel` bounds the nesting of `expression` calls, so `outOfFuel` may be set on input the code parses, when the fuel is smaller than the nesting of `?:` branches. Only `outOfFuel` at every fuel means the code does not return, as on the `(` path in `primary`. A run that does not run out is the code's run (ParserProperties.ParseFuel). No bound on the fuel that suffices for every input without `(` is proved.
- AstPrintable.Print: the Rust printer has no arm for the Variable node, so it prints the token's lexeme here. The same holds for AstPrinter.Print.
- AstPrinter.Print: it requires an expression without Conditional nodes, because that printer predates the Conditional node and has no arm for it.
- Stmts.Execute: a `var` statement evaluates its initializer and binds nothing, as in the code. The environment is not connected to statement evaluation.
- Token getters `lexeme`, `type_info` and `line` are the datatype's field destructors. A token has no update operation, so it is immutable.
