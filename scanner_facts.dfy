/**
 * Properties of the Lox scanner's specification (`LoxScanner.LexToken`,
 * `LoxScanner.ScanFrom`): what a single step does for each kind of
 * character, and what every completed scan looks like.
 */
module LoxScannerFacts {
  import opened Support
  import opened Tokens
  import opened LoxScanner

  /** Newline counts add up over adjacent stretches of text. */
  lemma {:induction false} NewlinesSplit(s: string, i: nat, m: nat, j: nat)
    requires i <= m <= j <= |s|
    ensures Newlines(s, i, j) == Newlines(s, i, m) + Newlines(s, m, j)
    decreases j - m
  {
    if m < j {
      NewlinesSplit(s, i, m, j - 1);
    }
  }

  /** A stretch of text without newline characters counts zero newlines. */
  lemma {:induction false} NoNewlineChars(s: string, i: nat, j: nat)
    requires i <= j <= |s|
    requires forall k :: i <= k < j ==> s[k] != '\n'
    ensures Newlines(s, i, j) == 0
    decreases j - i
  {
    if i < j {
      NoNewlineChars(s, i, j - 1);
    }
  }

  /** The quotes around a string literal contribute no newline. */
  lemma QuotedNewlines(s: string, start: nat, j: nat)
    requires start < j < |s| && s[start] == '"' && s[j] == '"'
    ensures Newlines(s, start, j + 1) == Newlines(s, start + 1, j)
  {
    NewlinesSplit(s, start, start + 1, j + 1);
    NewlinesSplit(s, start + 1, j, j + 1);
  }

  /**
   * Every successful step advances the cursor, keeps the line counter equal
   * to the number of newlines it stepped over, and emits at most one token:
   * never `Eof`, with the consumed text as its lexeme and the line counter
   * after the step as its line.
   */
  lemma LexTokenStep(s: string, start: nat, line: nat)
    requires start < |s|
    ensures var r := LexToken(s, start, line);
      r.Success? ==>
        && start < r.value.next <= |s|
        && r.value.line == line + Newlines(s, start, r.value.next)
        && (r.value.token.Some? ==>
              && r.value.token.value.kind != Eof
              && r.value.token.value.lexeme == s[start..r.value.next]
              && r.value.token.value.line == r.value.line)
  {
    var r := LexToken(s, start, line);
    if r.Success? {
      var next := r.value.next;
      assert Newlines(s, start, start + 1) == if s[start] == '\n' then 1 else 0;
      if s[start] == '"' {
        var j := Find(s, start + 1, '"');
        QuotedNewlines(s, start, j);
      } else if s[start] == '/' && Follows(s, start, '/') {
        NoNewlineChars(s, start, next);
      } else if next == start + 2 {
        NoNewlineChars(s, start, next);
      }
    }
  }

  /**
   * A step fails exactly on a character outside the scanner's alphabet, or
   * on a quote that is never closed; the error says which.
   */
  lemma LexTokenFails(s: string, start: nat, line: nat)
    requires start < |s|
    ensures LexToken(s, start, line).Failure? <==>
      !Recognized(s[start]) || (s[start] == '"' && forall k :: start < k < |s| ==> s[k] != '"')
    ensures !Recognized(s[start]) ==> LexToken(s, start, line) == Failure(UnrecognizedCharacter(s[start]))
    ensures s[start] == '"' && (forall k :: start < k < |s| ==> s[k] != '"') ==>
      LexToken(s, start, line) == Failure(UnterminatedString)
  {
    if s[start] == '"' {
      var j := Find(s, start + 1, '"');
      if j < |s| {
        assert start < j < |s| && s[j] == '"';
      }
    }
  }

  /** A punctuation character is always a one-character token of its own kind. */
  lemma PunctuationStep(s: string, start: nat, line: nat)
    requires start < |s| && IsPunctuation(s[start])
    ensures LexToken(s, start, line)
            == Success(Step(Some(Token(PunctuationKind(s[start]), [s[start]], line)), start + 1, line))
  {
    assert s[start..start + 1] == [s[start]];
  }

  /**
   * `!`, `=`, `<` and `>` take the two-character form exactly when the next
   * character exists and is `=`; otherwise they stand alone.
   */
  lemma OperatorStep(s: string, start: nat, line: nat)
    requires start < |s| && IsOperatorPrefix(s[start])
    ensures start + 1 < |s| && s[start + 1] == '=' ==>
      LexToken(s, start, line)
      == Success(Step(Some(Token(TwoCharKind(s[start]), [s[start], '='], line)), start + 2, line))
    ensures !(start + 1 < |s| && s[start + 1] == '=') ==>
      LexToken(s, start, line)
      == Success(Step(Some(Token(OneCharKind(s[start]), [s[start]], line)), start + 1, line))
  {
    assert s[start..start + 1] == [s[start]];
    if start + 1 < |s| && s[start + 1] == '=' {
      assert s[start..start + 2] == [s[start], '='];
    }
  }

  /**
   * `//` starts a comment that emits nothing and stops just before the next
   * newline (or at the end); a lone `/` is the `Slash` token.
   */
  lemma SlashStep(s: string, start: nat, line: nat)
    requires start < |s| && s[start] == '/'
    ensures start + 1 < |s| && s[start + 1] == '/' ==>
      var r := LexToken(s, start, line);
      && r.Success? && r.value.token == None && r.value.line == line
      && start + 2 <= r.value.next <= |s|
      && (r.value.next < |s| ==> s[r.value.next] == '\n')
      && (forall k :: start + 2 <= k < r.value.next ==> s[k] != '\n')
    ensures !(start + 1 < |s| && s[start + 1] == '/') ==>
      LexToken(s, start, line) == Success(Step(Some(Token(Slash, "/", line)), start + 1, line))
  {
    assert s[start..start + 1] == [s[start]];
  }

  /** Blanks are skipped; a newline is skipped and bumps the line counter. */
  lemma LayoutStep(s: string, start: nat, line: nat)
    requires start < |s| && (s[start] == ' ' || s[start] == '\r' || s[start] == '\t' || s[start] == '\n')
    ensures LexToken(s, start, line)
            == Success(Step(None, start + 1, if s[start] == '\n' then line + 1 else line))
  {
  }

  /**
   * A quote closed at `closing` (the first quote after it) makes one
   * `String` token: the payload is the text between the quotes, the lexeme
   * includes both quotes, and newlines inside the literal are counted before
   * the token's line is taken.
   */
  lemma StringStep(s: string, start: nat, line: nat, closing: nat)
    requires start < closing < |s| && s[start] == '"' && s[closing] == '"'
    requires forall k :: start < k < closing ==> s[k] != '"'
    ensures var after := line + Newlines(s, start + 1, closing);
      LexToken(s, start, line)
      == Success(Step(Some(Token(String(s[start + 1..closing]), s[start..closing + 1], after)), closing + 1, after))
  {
    FindFirst(s, start + 1, '"', closing);
    TerminatedString(s, start, line, closing, line + Newlines(s, start + 1, closing));
  }

  /** `Find` stops at the first occurrence. */
  lemma {:induction false} FindFirst(s: string, i: nat, ch: char, j: nat)
    requires i <= j < |s| && s[j] == ch
    requires forall k :: i <= k < j ==> s[k] != ch
    ensures Find(s, i, ch) == j
    decreases j - i
  {
    if i < j {
      FindFirst(s, i + 1, ch, j);
    }
  }

  /**
   * A completed scan ends with exactly one `Eof` token, whose line is the
   * starting line plus the number of newlines in the rest of the text.
   */
  lemma {:induction false} EofTerminates(s: string, c: nat, l: nat)
    requires c <= |s|
    ensures ScanFrom(s, c, l).Success? ==>
      var ts := ScanFrom(s, c, l).value;
      && |ts| >= 1
      && ts[|ts| - 1] == Token(Eof, "", l + Newlines(s, c, |s|))
      && forall k :: 0 <= k < |ts| - 1 ==> ts[k].kind != Eof
    decreases |s| - c
  {
    if c < |s| && ScanFrom(s, c, l).Success? {
      var step := LexToken(s, c, l).value;
      LexTokenStep(s, c, l);
      EofTerminates(s, step.next, step.line);
      NewlinesSplit(s, c, step.next, |s|);
      var ts := ScanFrom(s, c, l).value;
      var rest := ScanFrom(s, step.next, step.line).value;
      var e := Emitted(step.token);
      assert ts == e + rest;
      forall k | 0 <= k < |ts| - 1
        ensures ts[k].kind != Eof
      {
        if k >= |e| {
          assert ts[k] == rest[k - |e|];
        }
      }
    }
  }

  /** A whole source text scans to tokens whose final `Eof` sits on line 1 plus the newline count. */
  lemma ScanEndsWithEof(s: string)
    ensures Scan(s).Success? ==>
      |Scan(s).value| >= 1 && Scan(s).value[|Scan(s).value| - 1] == Token(Eof, "", 1 + Newlines(s, 0, |s|))
  {
    EofTerminates(s, 0, 1);
  }

  /**
   * Token `t` could have come from the text `s` scanned from `c` on line
   * `l`: its lexeme is a non-empty slice of the text at or after `c`, and its
   * line is `l` plus the newlines up to the slice's end.
   */
  ghost predicate SliceOf(t: Token, s: string, c: nat, l: nat) {
    exists i: nat, j: nat :: c <= i < j <= |s| && t.lexeme == s[i..j] && t.line == l + Newlines(s, c, j)
  }

  /** Every token of a completed scan, except the final `Eof`, is a slice of the source. */
  lemma {:induction false} TokensAreSlices(s: string, c: nat, l: nat)
    requires c <= |s|
    ensures ScanFrom(s, c, l).Success? ==>
      forall k :: 0 <= k < |ScanFrom(s, c, l).value| - 1 ==> SliceOf(ScanFrom(s, c, l).value[k], s, c, l)
    decreases |s| - c
  {
    if c < |s| && ScanFrom(s, c, l).Success? {
      var step := LexToken(s, c, l).value;
      LexTokenStep(s, c, l);
      TokensAreSlices(s, step.next, step.line);
      var ts := ScanFrom(s, c, l).value;
      var rest := ScanFrom(s, step.next, step.line).value;
      var e := Emitted(step.token);
      assert ts == e + rest;
      forall k | 0 <= k < |ts| - 1
        ensures SliceOf(ts[k], s, c, l)
      {
        if k < |e| {
          assert ts[k] == step.token.value;
          assert ts[k].lexeme == s[c..step.next];
          assert Newlines(s, c, step.next) == step.line - l;
        } else {
          var t := rest[k - |e|];
          assert ts[k] == t;
          assert SliceOf(t, s, step.next, step.line);
          var i: nat, j: nat :| step.next <= i < j <= |s| && t.lexeme == s[i..j] && t.line == step.line + Newlines(s, step.next, j);
          NewlinesSplit(s, c, step.next, j);
          assert c <= i < j <= |s| && t.lexeme == s[i..j] && t.line == l + Newlines(s, c, j);
        }
      }
    }
  }

  /** Text made only of punctuation scans to one token per character, then `Eof`. */
  lemma {:induction false} PunctuationScan(s: string, c: nat, l: nat)
    requires c <= |s|
    requires forall k :: c <= k < |s| ==> IsPunctuation(s[k])
    ensures ScanFrom(s, c, l).Success?
    ensures var ts := ScanFrom(s, c, l).value;
      && |ts| == |s| - c + 1
      && ts[|s| - c] == Token(Eof, "", l)
      && forall k :: 0 <= k < |s| - c ==> ts[k] == Token(PunctuationKind(s[c + k]), [s[c + k]], l)
    decreases |s| - c
  {
    if c < |s| {
      PunctuationStep(s, c, l);
      PunctuationScan(s, c + 1, l);
      var ts := ScanFrom(s, c, l).value;
      var rest := ScanFrom(s, c + 1, l).value;
      assert ts == [Token(PunctuationKind(s[c]), [s[c]], l)] + rest;
      forall k | 0 <= k < |s| - c
        ensures ts[k] == Token(PunctuationKind(s[c + k]), [s[c + k]], l)
      {
        if k > 0 {
          assert ts[k] == rest[k - 1];
          assert c + 1 + (k - 1) == c + k;
        }
      }
    }
  }

  /** A scan that reaches an error anywhere produces no tokens at all. */
  lemma {:induction false} ErrorAborts(s: string, c: nat, l: nat, at: nat, atLine: nat)
    requires c <= at < |s|
    requires LexToken(s, at, atLine).Failure?
    requires ReachedFrom(s, c, l, at, atLine)
    ensures ScanFrom(s, c, l) == Failure(LexToken(s, at, atLine).error)
    decreases at - c
  {
    if c < at {
      var step := LexToken(s, c, l).value;
      ErrorAborts(s, step.next, step.line, at, atLine);
    }
  }

  /**
   * Scanning from (`c`, `l`) reaches a step at `at` with line counter
   * `atLine`: every step before it succeeds and the steps chain up to it.
   */
  ghost predicate ReachedFrom(s: string, c: nat, l: nat, at: nat, atLine: nat)
    requires c <= at <= |s|
    decreases at - c
  {
    if c == at then l == atLine
    else
      && LexToken(s, c, l).Success?
      && LexToken(s, c, l).value.next <= at
      && ReachedFrom(s, LexToken(s, c, l).value.next, LexToken(s, c, l).value.line, at, atLine)
  }

  /** The empty program scans to a single `Eof` on line 1. */
  lemma ScanEmpty()
    ensures Scan("") == Success([Token(Eof, "", 1)])
  {
  }

  /** A comment line emits nothing; the newline after it moves `Eof` to line 2. */
  lemma ScanCommentLine()
    ensures Scan("// c\n") == Success([Token(Eof, "", 2)])
  {
    var s := "// c\n";
    assert Find(s, 2, '\n') == 4;
    assert LexToken(s, 0, 1) == Success(Step(None, 4, 1));
    assert LexToken(s, 4, 1) == Success(Step(None, 5, 2));
    assert ScanFrom(s, 4, 1) == Prepend([], ScanFrom(s, 5, 2));
    PrependNothing(ScanFrom(s, 5, 2));
    assert ScanFrom(s, 0, 1) == Prepend([], ScanFrom(s, 4, 1));
    PrependNothing(ScanFrom(s, 4, 1));
  }

  /** A string literal spanning two lines yields one token carrying the line where it closes. */
  lemma ScanMultilineString()
    ensures Scan("\"a\nb\"") == Success([Token(String("a\nb"), "\"a\nb\"", 2), Token(Eof, "", 2)])
  {
    var s := "\"a\nb\"";
    var literal := Token(String("a\nb"), s, 2);
    assert Newlines(s, 1, 2) == 0;
    assert Newlines(s, 1, 3) == 1;
    assert Newlines(s, 1, 4) == 1;
    assert Find(s, 1, '"') == 4;
    assert s[1..4] == "a\nb" && s[0..5] == s;
    assert LexToken(s, 0, 1) == Success(Step(Some(literal), 5, 2));
    assert ScanFrom(s, 0, 1) == Prepend([literal], ScanFrom(s, 5, 2));
    assert [literal] + [Token(Eof, "", 2)] == [literal, Token(Eof, "", 2)];
  }

  /** `!=` is one token; a lone `=` before the end stays `Equal`. */
  lemma ScanOperators()
    ensures Scan("!= =") == Success([Token(BangEqual, "!=", 1), Token(Equal, "=", 1), Token(Eof, "", 1)])
  {
    var s := "!= =";
    var eof := Token(Eof, "", 1);
    assert s[3..4] == "=" && s[0..2] == "!=";
    assert ScanFrom(s, 3, 1) == Prepend([Token(Equal, "=", 1)], ScanFrom(s, 4, 1));
    assert [Token(Equal, "=", 1)] + [eof] == [Token(Equal, "=", 1), eof];
    PrependNothing(ScanFrom(s, 3, 1));
    assert ScanFrom(s, 2, 1) == Success([Token(Equal, "=", 1), eof]);
    assert ScanFrom(s, 0, 1) == Prepend([Token(BangEqual, "!=", 1)], ScanFrom(s, 2, 1));
    assert [Token(BangEqual, "!=", 1)] + [Token(Equal, "=", 1), eof]
        == [Token(BangEqual, "!=", 1), Token(Equal, "=", 1), eof];
  }

  /** A character outside the alphabet aborts the scan with that character. */
  lemma ScanUnknownCharacter()
    ensures Scan("(@)") == Failure(UnrecognizedCharacter('@'))
  {
    var s := "(@)";
    PunctuationStep(s, 0, 1);
    LexTokenFails(s, 1, 1);
  }

  /** A string literal that never closes aborts the scan. */
  lemma ScanUnterminatedString()
    ensures Scan("\"open") == Failure(UnterminatedString)
  {
    var s := "\"open";
    LexTokenFails(s, 0, 1);
  }
}
