/**
 * The scanner (src/scanner.rs). This version recognises only single-character
 * punctuation, skips every other character and ends with one end-of-file token.
 * Source text is modelled as a sequence of ASCII characters.
 */
module Scanning {
  import opened Wrappers
  import opened Tokens

  /** The kind a character scans to, if it is one of the ten recognised punctuation marks. */
  function PunctuationKind(c: char): Option<TokenType> {
    match c
    case '(' => Some(LeftParen)
    case ')' => Some(RightParen)
    case '{' => Some(LeftBrace)
    case '}' => Some(RightBrace)
    case ',' => Some(Comma)
    case '.' => Some(Dot)
    case '-' => Some(Minus)
    case '+' => Some(Plus)
    case ';' => Some(Semicolon)
    case '*' => Some(Star)
    case _ => None
  }

  /** The tokens one character yields at `line`: one for punctuation, none otherwise. */
  function TokensOf(c: char, line: nat): seq<Token> {
    match PunctuationKind(c)
    case Some(k) => [Token(k, [c], line)]
    case None => []
  }

  /** The tokens a stretch of source yields, before the end-of-file token. */
  function Tokenize(s: string, line: nat): seq<Token> {
    if s == [] then [] else Tokenize(s[..|s| - 1], line) + TokensOf(s[|s| - 1], line)
  }

  /** The end-of-file token that closes every scan. */
  function EofToken(line: nat): Token {
    Token(EndOfFile, "", line)
  }

  /** The characters of `s` that are punctuation, in order. */
  function Punctuation(s: string): (r: string)
    ensures |r| <= |s|
    ensures forall i | 0 <= i < |r| :: PunctuationKind(r[i]).Some?
    ensures multiset(r) <= multiset(s)
  {
    if s == [] then []
    else
      assert s == s[..|s| - 1] + [s[|s| - 1]];
      Punctuation(s[..|s| - 1]) + (if PunctuationKind(s[|s| - 1]).Some? then [s[|s| - 1]] else [])
  }

  /** The lexemes of a token sequence, joined. */
  function Lexemes(ts: seq<Token>): string {
    if ts == [] then [] else Lexemes(ts[..|ts| - 1]) + ts[|ts| - 1].lexeme
  }

  /** Tokenizing distributes over concatenation of source text. */
  lemma {:induction false} TokenizeAppend(a: string, b: string, line: nat)
    ensures Tokenize(a + b, line) == Tokenize(a, line) + Tokenize(b, line)
    decreases |b|
  {
    if b == [] {
      assert a + b == a;
    } else {
      var b' := b[..|b| - 1];
      assert (a + b)[..|a + b| - 1] == a + b';
      TokenizeAppend(a, b', line);
    }
  }

  /** Scanning one more character of a stretch appends that character's tokens. */
  lemma TokenizeStep(source: string, from: nat, upto: nat, line: nat)
    requires from < upto <= |source|
    ensures Tokenize(source[from..upto], line) == Tokenize(source[from..upto - 1], line) + TokensOf(source[upto - 1], line)
  {
    assert source[from..upto][..upto - from - 1] == source[from..upto - 1];
  }

  /**
   * Every scanned token is one punctuation character: its lexeme is that character,
   * its kind the character's kind, its line `line`; none is an end-of-file token.
   */
  lemma {:induction false} TokenizeShape(s: string, line: nat)
    ensures forall t | t in Tokenize(s, line) ::
              |t.lexeme| == 1 && PunctuationKind(t.lexeme[0]) == Some(t.kind)
              && t.line == line && t.kind != EndOfFile
  {
    if s != [] {
      TokenizeShape(s[..|s| - 1], line);
    }
  }

  /** The token count is the number of punctuation characters. */
  lemma {:induction false} TokenizeCount(s: string, line: nat)
    ensures |Tokenize(s, line)| == |Punctuation(s)|
  {
    if s != [] {
      TokenizeCount(s[..|s| - 1], line);
    }
  }

  /** Joining the lexemes gives back the punctuation of the source, in source order. */
  lemma {:induction false} LexemesReconstruct(s: string, line: nat)
    ensures Lexemes(Tokenize(s, line)) == Punctuation(s)
  {
    if s != [] {
      var s' := s[..|s| - 1];
      LexemesReconstruct(s', line);
      LexemesAppend(Tokenize(s', line), TokensOf(s[|s| - 1], line));
    }
  }

  lemma {:induction false} LexemesAppend(a: seq<Token>, b: seq<Token>)
    ensures Lexemes(a + b) == Lexemes(a) + Lexemes(b)
    decreases |b|
  {
    if b == [] {
      assert a + b == a;
    } else {
      assert (a + b)[..|a + b| - 1] == a + b[..|b| - 1];
      LexemesAppend(a, b[..|b| - 1]);
    }
  }

  class Scanner {
    const source: string
    var tokens: seq<Token>
    /** First character of the lexeme being scanned. */
    var start: nat
    /** Character being scanned. */
    var current: nat
    /** Line being scanned; nothing in this version increments it. */
    var line: nat

    ghost predicate Valid()
      reads this
    {
      start <= current <= |source|
    }

    /** `new`: nothing scanned yet, on line 1. */
    constructor (source: string)
      ensures Valid()
      ensures this.source == source && tokens == [] && start == 0 && current == 0 && line == 1
    {
      this.source := source;
      tokens := [];
      start := 0;
      current := 0;
      line := 1;
    }

    /** `is_at_end`: every character of the source has been consumed. */
    predicate IsAtEnd(): (b: bool)
      reads this
      ensures Valid() ==> (b <==> current == |source|)
    {
      current >= |source|
    }

    /**
     * `scan_tokens`: scan the rest of the source, then push one end-of-file token with
     * an empty lexeme; the result is the whole token list.
     */
    method ScanTokens() returns (r: seq<Token>)
      requires Valid()
      modifies this
      ensures Valid() && current == |source| && line == old(line)
      ensures tokens == old(tokens) + Tokenize(source[old(current)..], line) + [EofToken(line)]
      ensures r == tokens
    {
      ghost var from := current;
      while !IsAtEnd()
        invariant Valid() && from <= current && line == old(line)
        invariant tokens == old(tokens) + Tokenize(source[from..current], line)
        decreases |source| - current
      {
        start := current;
        ScanToken();
        TokenizeStep(source, from, current, line);
      }
      assert source[from..current] == source[from..];
      tokens := tokens + [EofToken(line)];
      return tokens;
    }

    /** `scan_token`: consume one character and push its token, if it has one. */
    method ScanToken()
      requires Valid() && !IsAtEnd() && start == current
      modifies this
      ensures Valid() && current == old(current) + 1 && start == old(start) && line == old(line)
      ensures tokens == old(tokens) + TokensOf(source[old(current)], line)
    {
      var c := Advance();
      assert source[start..current] == [c];
      match c {
        case '(' => AddBasicToken(LeftParen);
        case ')' => AddBasicToken(RightParen);
        case '{' => AddBasicToken(LeftBrace);
        case '}' => AddBasicToken(RightBrace);
        case ',' => AddBasicToken(Comma);
        case '.' => AddBasicToken(Dot);
        case '-' => AddBasicToken(Minus);
        case '+' => AddBasicToken(Plus);
        case ';' => AddBasicToken(Semicolon);
        case '*' => AddBasicToken(Star);
        case _ =>
      }
    }

    /** `advance`: return the current character and step past it. */
    method Advance() returns (c: char)
      requires Valid() && !IsAtEnd()
      modifies this`current
      ensures c == source[old(current)] && current == old(current) + 1
    {
      c := source[current];
      current := current + 1;
    }

    /** `add_basic_token`: a token with no literal payload. */
    method AddBasicToken(which: TokenType)
      requires Valid()
      modifies this`tokens
      ensures tokens == old(tokens) + [Token(which, source[start..current], line)]
    {
      AddToken(which);
    }

    /** `add_token`: push a token whose lexeme is the text from `start` to `current`. */
    method AddToken(which: TokenType)
      requires Valid()
      modifies this`tokens
      ensures tokens == old(tokens) + [Token(which, source[start..current], line)]
    {
      var text := source[start..current];
      tokens := tokens + [Token(which, text, line)];
    }
  }

  /**
   * A whole scan of `source` on a fresh scanner: the punctuation tokens, all on line 1,
   * followed by exactly one end-of-file token.
   */
  method Scan(source: string) returns (r: seq<Token>)
    ensures r == Tokenize(source, 1) + [EofToken(1)]
    ensures |r| == |Punctuation(source)| + 1
    ensures Lexemes(r[..|r| - 1]) == Punctuation(source)
    ensures forall i | 0 <= i < |r| :: r[i].line == 1 && (r[i].kind == EndOfFile <==> i == |r| - 1)
  {
    var scanner := new Scanner(source);
    r := scanner.ScanTokens();
    assert source[0..] == source;
    TokenizeCount(source, 1);
    LexemesReconstruct(source, 1);
    TokenizeShape(source, 1);
    assert r[..|r| - 1] == Tokenize(source, 1);
    forall i | 0 <= i < |r| - 1
      ensures r[i].line == 1 && r[i].kind != EndOfFile
    {
      assert r[i] in Tokenize(source, 1);
    }
  }
}
