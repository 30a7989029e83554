/** Tokens: the closed set of token kinds and the immutable token record (src/token.rs). */
module Tokens {

  /** The f64 payload of a number token, compared by numeric equality (NaN is not modelled). */
  type Number = real

  /** Token kinds; literal-bearing kinds carry their payload in the tag. */
  datatype TokenType =
    // Single-character tokens
    | LeftParen | RightParen | LeftBrace | RightBrace | Comma | Dot
    | Minus | Plus | Semicolon | Slash | Star
    // One or two character tokens
    | Bang | BangEqual | Equal | EqualEqual
    | Greater | GreaterEqual | Less | LessEqual
    // Literals
    | Identifier(name: string) | Str(text: string) | Number(number: Number)
    // Ternary punctuation, which the parser matches
    | QuestionMark | Colon
    // Keywords
    | And | Class | Else | False | Fun | For | If | Nil | Or
    | Print | Return | Super | This | True | Var | While
    | EndOfFile
  {
    /** True for the kinds whose tag carries no payload. */
    predicate PayloadFree() {
      !Identifier? && !Str? && !Number?
    }
  }

  /**
   * A token: its kind, the text it was scanned from and its line. The datatype has no
   * updaters in the model's API, so a token is immutable once built; the destructors
   * `kind`, `lexeme` and `line` are the getters `type_info`, `lexeme` and `line`.
   */
  datatype Token = Token(kind: TokenType, lexeme: string, line: nat)

  /** The variant name of a kind, as derived Debug writes it before any payload. */
  function KindName(k: TokenType): string {
    match k
    case LeftParen => "LeftParen"
    case RightParen => "RightParen"
    case LeftBrace => "LeftBrace"
    case RightBrace => "RightBrace"
    case Comma => "Comma"
    case Dot => "Dot"
    case Minus => "Minus"
    case Plus => "Plus"
    case Semicolon => "Semicolon"
    case Slash => "Slash"
    case Star => "Star"
    case Bang => "Bang"
    case BangEqual => "BangEqual"
    case Equal => "Equal"
    case EqualEqual => "EqualEqual"
    case Greater => "Greater"
    case GreaterEqual => "GreaterEqual"
    case Less => "Less"
    case LessEqual => "LessEqual"
    case Identifier(_) => "Identifier"
    case Str(_) => "Str"
    case Number(_) => "Number"
    case QuestionMark => "QuestionMark"
    case Colon => "Colon"
    case And => "And"
    case Class => "Class"
    case Else => "Else"
    case False => "False"
    case Fun => "Fun"
    case For => "For"
    case If => "If"
    case Nil => "Nil"
    case Or => "Or"
    case Print => "Print"
    case Return => "Return"
    case Super => "Super"
    case This => "This"
    case True => "True"
    case Var => "Var"
    case While => "While"
    case EndOfFile => "EndOfFile"
  }

  /** Debug rendering of one character inside a quoted string. */
  function EscapeChar(c: char): string {
    if c == '"' then "\\\""
    else if c == '\\' then "\\\\"
    else if c == '\n' then "\\n"
    else if c == '\r' then "\\r"
    else if c == '\t' then "\\t"
    else [c]
  }

  /** Debug rendering of a string payload: the escaped text between double quotes. */
  function QuotedDebug(s: string): string {
    "\"" + EscapeBody(s) + "\""
  }

  function EscapeBody(s: string): string {
    if s == [] then "" else EscapeBody(s[..|s| - 1]) + EscapeChar(s[|s| - 1])
  }

  /** Derived Debug of a kind; the f64 rendering of a number payload is a parameter. */
  function DebugKind(k: TokenType, numberText: Number -> string): string {
    match k
    case Identifier(s) => KindName(k) + "(" + QuotedDebug(s) + ")"
    case Str(s) => KindName(k) + "(" + QuotedDebug(s) + ")"
    case Number(n) => KindName(k) + "(" + numberText(n) + ")"
    case _ => KindName(k)
  }

  /** `to_string`: the kind's Debug text, one space, then the lexeme. */
  function ToString(t: Token, numberText: Number -> string): (r: string)
    ensures |r| > |t.lexeme|
    ensures r[|r| - |t.lexeme|..] == t.lexeme && r[|r| - |t.lexeme| - 1] == ' '
  {
    DebugKind(t.kind, numberText) + " " + t.lexeme
  }

  /**
   * For a payload-free kind the rendering ignores the number formatter and is exactly
   * the variant name, a space and the lexeme.
   */
  lemma ToStringPayloadFree(t: Token, f: Number -> string, g: Number -> string)
    requires t.kind.PayloadFree()
    ensures ToString(t, f) == ToString(t, g) == KindName(t.kind) + " " + t.lexeme
  {
  }

  /** Two tokens of the same kind render alike exactly when their lexemes are equal. */
  lemma ToStringDeterminesLexeme(t: Token, u: Token, f: Number -> string)
    requires t.kind == u.kind
    ensures ToString(t, f) == ToString(u, f) <==> t.lexeme == u.lexeme
  {
    if ToString(t, f) == ToString(u, f) {
      var p := DebugKind(t.kind, f) + " ";
      assert ToString(t, f) == p + t.lexeme && ToString(u, f) == p + u.lexeme;
      assert t.lexeme == (p + t.lexeme)[|p|..];
      assert u.lexeme == (p + u.lexeme)[|p|..];
    }
  }

  /** Kind equality includes payloads: equal tags with different payloads differ. */
  lemma KindEqualityIsStructural(a: string, b: string)
    ensures Identifier(a) == Identifier(b) <==> a == b
    ensures Identifier(a) != Str(a)
    ensures Identifier(a) != EndOfFile && Str(a) != EndOfFile
  {
  }
}
