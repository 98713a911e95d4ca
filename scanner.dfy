/**
 * The Lox lexical scanner (lox-interpreter/src/scanner.rs).
 *
 * The scanner makes one left-to-right pass over the source text. Each step
 * records where the current lexeme starts, classifies the next character and
 * either emits one token, emits nothing (layout, comments) or aborts the whole
 * scan. When the input is exhausted one `Eof` token is appended.
 *
 * The model has two halves: `LexToken` and `ScanFrom` are a pure
 * specification of what a scan produces, and the class `Scanner` is the
 * imperative scanner with its `start`, `current` and `line` cursors, whose
 * methods are proved to behave as the specification says.
 */
module LoxScanner {
  import opened Support
  import opened Tokens

  /** Why a scan aborted. The scanner has no recovery: the first error ends the scan. */
  datatype ScanError = UnrecognizedCharacter(c: char) | UnterminatedString

  /** What one scan step produced: at most one token, then the cursor and line counter after it. */
  datatype Step = Step(token: Option<Token>, next: nat, line: nat)

  /**
   * The scanner compares character positions with the byte length of the
   * source, and slices lexemes by byte offsets. The two agree on ASCII text,
   * the only input this model speaks about.
   */
  predicate IsAscii(s: string) {
    forall i :: 0 <= i < |s| ==> s[i] as int < 128
  }

  /** The number of newline characters in `s[i..j]`. */
  function Newlines(s: string, i: nat, j: nat): nat
    requires i <= j <= |s|
    decreases j - i
  {
    if i == j then 0 else Newlines(s, i, j - 1) + if s[j - 1] == '\n' then 1 else 0
  }

  predicate IsPunctuation(c: char) {
    || c == '(' || c == ')' || c == '{' || c == '}' || c == ','
    || c == '.' || c == '-' || c == '+' || c == ';' || c == '*'
  }

  /** The characters a scan step knows what to do with. */
  predicate Recognized(c: char) {
    || IsPunctuation(c) || IsOperatorPrefix(c)
    || c == '/' || c == ' ' || c == '\r' || c == '\t' || c == '\n' || c == '"'
  }

  /** The token kind each punctuation character stands for. */
  function PunctuationKind(c: char): TokenType
    requires IsPunctuation(c)
  {
    if c == '(' then LeftParen
    else if c == ')' then RightParen
    else if c == '{' then LeftBrace
    else if c == '}' then RightBrace
    else if c == ',' then Comma
    else if c == '.' then Dot
    else if c == '-' then Minus
    else if c == '+' then Plus
    else if c == ';' then Semicolon
    else Star
  }

  /** The one-character operators that have a two-character form ending in `=`. */
  predicate IsOperatorPrefix(c: char) {
    c == '!' || c == '=' || c == '<' || c == '>'
  }

  function OneCharKind(c: char): TokenType
    requires IsOperatorPrefix(c)
  {
    if c == '!' then Bang else if c == '=' then Equal else if c == '<' then Less else Greater
  }

  function TwoCharKind(c: char): TokenType
    requires IsOperatorPrefix(c)
  {
    if c == '!' then BangEqual else if c == '=' then EqualEqual else if c == '<' then LessEqual else GreaterEqual
  }

  /** The first position at or after `i` that holds `ch`, or `|s|` when there is none. */
  function Find(s: string, i: nat, ch: char): (j: nat)
    requires i <= |s|
    ensures i <= j <= |s|
    ensures j < |s| ==> s[j] == ch
    ensures forall k :: i <= k < j ==> s[k] != ch
    decreases |s| - i
  {
    if i == |s| || s[i] == ch then i else Find(s, i + 1, ch)
  }

  /** One-character lookahead: the character after `start` exists and is `expected`. */
  predicate Follows(s: string, start: nat, expected: char) {
    start + 1 < |s| && s[start + 1] == expected
  }

  /** A step that emits the `width` characters at `start` as one token of kind `kind`. */
  function Emit(s: string, start: nat, width: nat, line: nat, kind: TokenType): Result<Step, ScanError>
    requires start + width <= |s|
  {
    Success(Step(Some(Token(kind, s[start..start + width], line)), start + width, line))
  }

  /** A `//` comment: everything up to, not including, the next newline or the end. */
  function CommentStep(s: string, start: nat, line: nat): (r: Result<Step, ScanError>)
    requires start + 1 < |s| && s[start] == '/' && s[start + 1] == '/'
    ensures r.Success? && r.value.token == None && r.value.line == line
    ensures start + 2 <= r.value.next <= |s|
    ensures r.value.next < |s| ==> s[r.value.next] == '\n'
    ensures forall k :: start + 2 <= k < r.value.next ==> s[k] != '\n'
  {
    Success(Step(None, Find(s, start + 2, '\n'), line))
  }

  /**
   * A string literal opened at `start`: the payload runs to the next quote
   * and may span lines; the token carries the line counter after the literal.
   */
  function LexString(s: string, start: nat, line: nat): (r: Result<Step, ScanError>)
    requires start < |s| && s[start] == '"'
    ensures r.Success? ==> start < r.value.next <= |s|
  {
    var j := Find(s, start + 1, '"');
    if j == |s| then
      Failure(UnterminatedString)
    else
      var after := line + Newlines(s, start + 1, j);
      Success(Step(Some(Token(String(s[start + 1..j]), s[start..j + 1], after)), j + 1, after))
  }

  /** The step `LexString` takes when the literal closes at `closing`. */
  lemma TerminatedString(s: string, start: nat, line: nat, closing: nat, after: nat)
    requires start < closing < |s| && s[start] == '"'
    requires closing == Find(s, start + 1, '"')
    requires after == line + Newlines(s, start + 1, closing)
    ensures LexString(s, start, line)
            == Success(Step(Some(Token(String(s[start + 1..closing]), s[start..closing + 1], after)), closing + 1, after))
  {
  }

  /**
   * One scan step starting at `start` with line counter `line`: the token (if
   * any) recognised there, and the cursor and line counter after it.
   */
  function LexToken(s: string, start: nat, line: nat): (r: Result<Step, ScanError>)
    requires start < |s|
    ensures r.Success? ==> start < r.value.next <= |s|
  {
    match s[start]
    case '(' => Emit(s, start, 1, line, LeftParen)
    case ')' => Emit(s, start, 1, line, RightParen)
    case '{' => Emit(s, start, 1, line, LeftBrace)
    case '}' => Emit(s, start, 1, line, RightBrace)
    case ',' => Emit(s, start, 1, line, Comma)
    case '.' => Emit(s, start, 1, line, Dot)
    case '-' => Emit(s, start, 1, line, Minus)
    case '+' => Emit(s, start, 1, line, Plus)
    case ';' => Emit(s, start, 1, line, Semicolon)
    case '*' => Emit(s, start, 1, line, Star)
    case '!' => if Follows(s, start, '=') then Emit(s, start, 2, line, BangEqual) else Emit(s, start, 1, line, Bang)
    case '=' => if Follows(s, start, '=') then Emit(s, start, 2, line, EqualEqual) else Emit(s, start, 1, line, Equal)
    case '<' => if Follows(s, start, '=') then Emit(s, start, 2, line, LessEqual) else Emit(s, start, 1, line, Less)
    case '>' => if Follows(s, start, '=') then Emit(s, start, 2, line, GreaterEqual) else Emit(s, start, 1, line, Greater)
    case '/' => if Follows(s, start, '/') then CommentStep(s, start, line) else Emit(s, start, 1, line, Slash)
    case ' ' => Success(Step(None, start + 1, line))
    case '\r' => Success(Step(None, start + 1, line))
    case '\t' => Success(Step(None, start + 1, line))
    case '\n' => Success(Step(None, start + 1, line + 1))
    case '"' => LexString(s, start, line)
    case _ => Failure(UnrecognizedCharacter(s[start]))
  }

  /** The tokens a step emitted, as a sequence of zero or one tokens. */
  function Emitted(t: Option<Token>): seq<Token> {
    match t
    case None => []
    case Some(tok) => [tok]
  }

  /** Puts `ts` in front of a successful token list; a failure stays a failure. */
  function Prepend(ts: seq<Token>, r: Result<seq<Token>, ScanError>): Result<seq<Token>, ScanError> {
    match r
    case Success(rest) => Success(ts + rest)
    case Failure(e) => Failure(e)
  }

  lemma PrependNothing(r: Result<seq<Token>, ScanError>)
    ensures Prepend([], r) == r
  {
    if r.Success? {
      assert [] + r.value == r.value;
    }
  }

  lemma PrependTwice(a: seq<Token>, b: seq<Token>, r: Result<seq<Token>, ScanError>)
    ensures Prepend(a + b, r) == Prepend(a, Prepend(b, r))
  {
    if r.Success? {
      assert (a + b) + r.value == a + (b + r.value);
    }
  }

  /**
   * The outcome of scanning `s` from position `current` with line counter
   * `line`: every token up to the end, then `Eof`, or the first error.
   */
  function ScanFrom(s: string, current: nat, line: nat): (r: Result<seq<Token>, ScanError>)
    requires current <= |s|
    ensures r.Success? ==> r.value != []
    decreases |s| - current
  {
    if current == |s| then
      Success([Token(Eof, "", line)])
    else
      match LexToken(s, current, line)
      case Failure(e) => Failure(e)
      case Success(step) => Prepend(Emitted(step.token), ScanFrom(s, step.next, step.line))
  }

  /** The outcome of scanning a whole source text, starting on line 1. */
  function Scan(s: string): (r: Result<seq<Token>, ScanError>)
    ensures r.Success? ==> r.value != []
  {
    ScanFrom(s, 0, 1)
  }

  /** The object-level view of the scan: `start`, `current` and `line` cursors and the tokens so far. */
  class Scanner {
    const source: string
    var tokens: seq<Token>
    var start: nat
    var current: nat
    var line: nat

    ghost predicate Valid()
      reads this
    {
      start <= current <= |source| && 1 <= line
    }

    /** The scanner's state after a step agrees with `lexed`, the specified outcome of that step. */
    ghost predicate Took(lexed: Result<Step, ScanError>, outcome: Outcome<ScanError>, before: seq<Token>)
      reads this
    {
      match lexed
      case Failure(e) => outcome == Fail(e)
      case Success(step) =>
        && outcome == Pass
        && Valid()
        && current == step.next
        && line == step.line
        && tokens == before + Emitted(step.token)
    }

    constructor (source: string)
      ensures Valid()
      ensures this.source == source && tokens == [] && start == 0 && current == 0 && line == 1
    {
      this.source := source;
      tokens := [];
      start := 0;
      current := 0;
      line := 1;
    }

    /**
     * Scans from the current position to the end and appends `Eof`. The
     * result is the token list the specification gives, after the tokens
     * already collected, or the first error.
     */
    method ScanTokens() returns (r: Result<seq<Token>, ScanError>)
      requires Valid() && IsAscii(source)
      modifies this
      ensures r == Prepend(old(tokens), ScanFrom(source, old(current), old(line)))
      ensures r.Success? ==> Valid() && tokens == r.value && current == |source|
      ensures r.Success? ==> |tokens| > 0 && tokens[|tokens| - 1] == Token(Eof, "", line)
    {
      ghost var before, from, fromLine := tokens, current, line;
      PrependNothing(ScanFrom(source, from, fromLine));
      assert tokens[|before|..] == [];
      while !IsAtEnd()
        invariant Valid()
        invariant |before| <= |tokens| && tokens[..|before|] == before
        invariant Prepend(tokens[|before|..], ScanFrom(source, current, line)) == ScanFrom(source, from, fromLine)
        decreases |source| - current
      {
        ghost var here, hereLine, sofar := current, line, tokens;
        start := current;
        var outcome := ScanToken();
        if outcome.Fail? {
          assert ScanFrom(source, here, hereLine) == Failure(outcome.error);
          assert ScanFrom(source, from, fromLine) == Failure(outcome.error);
          return Failure(outcome.error);
        }
        ghost var step := LexToken(source, here, hereLine).value;
        assert tokens[|before|..] == sofar[|before|..] + Emitted(step.token);
        PrependTwice(sofar[|before|..], Emitted(step.token), ScanFrom(source, current, line));
      }
      ghost var rest := tokens[|before|..];
      assert tokens == before + rest;
      assert ScanFrom(source, from, fromLine) == Success(rest + [Token(Eof, "", line)]);
      tokens := tokens + [Token(Eof, "", line)];
      r := Success(tokens);
      assert tokens == before + (rest + [Token(Eof, "", line)]);
    }

    function IsAtEnd(): (atEnd: bool)
      reads this
      requires Valid()
      ensures atEnd <==> current == |source|
    {
      current >= |source|
    }

    /** Scans one token (or layout, or comment) starting at `current`. */
    method ScanToken() returns (outcome: Outcome<ScanError>)
      requires Valid() && start == current < |source|
      modifies this
      ensures start == old(start)
      ensures Took(LexToken(source, start, old(line)), outcome, old(tokens))
    {
      outcome := Pass;
      var c := Advance();
      assert source[start..current] == [c];
      match c
      case '(' => AddToken(LeftParen);
      case ')' => AddToken(RightParen);
      case '{' => AddToken(LeftBrace);
      case '}' => AddToken(RightBrace);
      case ',' => AddToken(Comma);
      case '.' => AddToken(Dot);
      case '-' => AddToken(Minus);
      case '+' => AddToken(Plus);
      case ';' => AddToken(Semicolon);
      case '*' => AddToken(Star);
      case '!' =>
        var matched := MatchChar('=');
        if matched { AddToken(BangEqual); } else { AddToken(Bang); }
      case '=' =>
        var matched := MatchChar('=');
        if matched { AddToken(EqualEqual); } else { AddToken(Equal); }
      case '<' =>
        var matched := MatchChar('=');
        if matched { AddToken(LessEqual); } else { AddToken(Less); }
      case '>' =>
        var matched := MatchChar('=');
        if matched { AddToken(GreaterEqual); } else { AddToken(Greater); }
      case '/' =>
        var matched := MatchChar('/');
        if matched {
          SkipComment();
        } else {
          AddToken(Slash);
        }
      case ' ' =>
      case '\r' =>
      case '\t' =>
      case '\n' => line := line + 1;
      case '"' => outcome := StringLiteral();
      case _ => outcome := Fail(UnrecognizedCharacter(c));
    }

    /** Consumes the rest of a `//` comment, up to and not including the next newline. */
    method SkipComment()
      requires Valid() && current == start + 2 && source[start] == '/' && source[start + 1] == '/'
      modifies this`current
      ensures Valid() && current == Find(source, start + 2, '\n')
    {
      while Peek() != '\n' && !IsAtEnd()
        invariant Valid() && start + 2 <= current <= Find(source, start + 2, '\n')
        decreases |source| - current
      {
        var c := Advance();
      }
    }

    /** Consumes the next character only if it exists and is `expected`. */
    method MatchChar(expected: char) returns (matched: bool)
      requires Valid()
      modifies this`current
      ensures Valid()
      ensures matched <==> old(current) < |source| && source[old(current)] == expected
      ensures current == if matched then old(current) + 1 else old(current)
    {
      if IsAtEnd() {
        return false;
      }
      if source[current] != expected {
        return false;
      }
      current := current + 1;
      matched := true;
    }

    /** The next character without consuming it; NUL at end of input. */
    function Peek(): (c: char)
      reads this
      requires Valid()
      ensures current < |source| ==> c == source[current]
      ensures current == |source| ==> c == '\0'
    {
      if IsAtEnd() then '\0' else source[current]
    }

    /**
     * Scans the rest of a string literal whose opening quote is at `start`:
     * counts the newlines inside it and emits a `String` token whose payload
     * is the text between the quotes.
     */
    method StringLiteral() returns (outcome: Outcome<ScanError>)
      requires Valid() && current == start + 1 && source[start] == '"'
      modifies this`current, this`line, this`tokens
      ensures Took(LexString(source, start, old(line)), outcome, old(tokens))
    {
      SkipStringBody();
      ghost var closing := current;
      if IsAtEnd() {
        assert LexString(source, start, old(line)) == Failure(UnterminatedString);
        return Fail(UnterminatedString);
      }
      var c := Advance();
      var value := source[start + 1..current - 1];
      AddToken(String(value));
      outcome := Pass;
      TerminatedString(source, start, old(line), closing, line);
    }

    /** Consumes the payload of a string literal, counting the newlines in it. */
    method SkipStringBody()
      requires Valid() && current == start + 1 && source[start] == '"'
      modifies this`current, this`line
      ensures Valid() && current == Find(source, start + 1, '"')
      ensures line == old(line) + Newlines(source, start + 1, current)
    {
      while Peek() != '"' && !IsAtEnd()
        invariant Valid() && start + 1 <= current <= Find(source, start + 1, '"')
        invariant line == old(line) + Newlines(source, start + 1, current)
        decreases |source| - current
      {
        if Peek() == '\n' {
          line := line + 1;
        }
        var c := Advance();
      }
    }

    /** Consumes and returns the next character. */
    method Advance() returns (c: char)
      requires Valid() && current < |source|
      modifies this`current
      ensures Valid() && current == old(current) + 1 && c == source[old(current)]
    {
      current := current + 1;
      c := source[current - 1];
    }

    /** Appends a token of kind `kind` whose lexeme is `source[start..current]`. */
    method AddToken(kind: TokenType)
      requires Valid()
      modifies this`tokens
      ensures tokens == old(tokens) + [Token(kind, source[start..current], line)]
    {
      var text := source[start..current];
      tokens := tokens + [Token(kind, text, line)];
    }
  }

  /** Scanning a source text with a fresh scanner yields exactly `Scan(source)`. */
  method ScanSource(source: string) returns (r: Result<seq<Token>, ScanError>)
    requires IsAscii(source)
    ensures r == Scan(source)
  {
    var scanner := new Scanner(source);
    r := scanner.ScanTokens();
    PrependNothing(Scan(source));
  }
}
