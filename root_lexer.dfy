/**
 * `Lexer.get_next_token` and `Lexer.tokenize` of lexer.py: tokens are produced one call at a
 * time. Indentation is measured when the column is 1 (counting spaces only), only the first
 * DEDENT of a multi-level dedent is returned, and after the text runs out each call closes
 * one level until EOF.
 */
module RootLexer {
  import opened Wrappers
  import opened Text
  import opened Tokens
  import opened Indentation
  import opened LexerBase

  /** The space-counting loop at column 1: only ' ' counts, one each. */
  method CountSpaces(lx: Lexer) returns (width: nat)
    requires lx.Valid()
    modifies lx
    ensures lx.Valid() && lx.line == old(lx.line) && lx.indentStack == old(lx.indentStack)
    ensures lx.pos == SpaceRunEnd(lx.text, old(lx.pos)) && width == lx.pos - old(lx.pos)
  {
    width := 0;
    ghost var start := lx.pos;
    while lx.current == Some(' ')
      invariant lx.Valid() && lx.line == old(lx.line) && lx.indentStack == old(lx.indentStack)
      invariant start <= lx.pos <= SpaceRunEnd(lx.text, start) && width == lx.pos - start
      decreases |lx.text| - lx.pos
    {
      width := width + 1;
      lx.Advance();
    }
  }

  /** How a call changed the depth of the indentation stack, by the kind of token it returned. */
  predicate DepthMatches(k: TokenKind, before: nat, after: nat)
  {
    (k == Indent ==> after == before + 1) &&
    (k == Dedent ==> after < before) &&
    (k != Indent && k != Dedent ==> after == before)
  }

  /**
   * The token a line start measured from `at` returns: the first of the layout tokens its
   * indentation step produces (for a dedent of several levels, the only one returned), with
   * the stack the step leaves behind.
   */
  ghost predicate FirstLayout(text: string, at: nat, before: seq<int>, after: seq<int>, line: int, t: Token)
    requires IsStack(before) && at <= |text|
  {
    var w := SpaceRunEnd(text, at) - at;
    match Step(before, w)
    case None => false
    case Some((st, c)) => st == after && c != Stay && |LayoutTokens(c, w, line)| > 0 && t == LayoutTokens(c, w, line)[0]
  }

  /**
   * A dedent of several levels at once: the stack loses them all, but the call returns a
   * single DEDENT, at column 1 of the measured line; the other DEDENTs are never produced.
   */
  lemma OnlyFirstDedent(text: string, at: nat, before: seq<int>, after: seq<int>, line: int, t: Token)
    requires IsStack(before) && at <= |text|
    requires FirstLayout(text, at, before, after, line, t) && |after| < |before|
    ensures t == Token(Dedent, NoValue, line, 1)
    ensures Step(before, SpaceRunEnd(text, at) - at) == Some((after, Pop(|before| - |after|)))
  {
  }

  /**
   * The column-1 part of `get_next_token`: spaces are counted and the indentation processed;
   * the first layout token it produced is returned, or None when the line keeps its level.
   */
  method LineStart(lx: Lexer) returns (r: Option<Result<Token, LexError>>)
    requires lx.Valid() && lx.current.Some? && lx.current.value != '\n'
    modifies lx
    ensures lx.Valid() && lx.line == old(lx.line) && lx.pos == SpaceRunEnd(lx.text, old(lx.pos))
    ensures var w := lx.pos - old(lx.pos);
      match Step(old(lx.indentStack), w)
      case None => r == Some(Err(InconsistentIndentation(lx.line)))
      case Some((st, c)) => lx.indentStack == st && (c == Stay <==> r.None?) && (r.Some? ==> r.value.Ok?)
    ensures r.Some? && r.value.Ok? ==>
      FirstLayout(lx.text, old(lx.pos), old(lx.indentStack), lx.indentStack, lx.line, r.value.value)
    ensures r.Some? && r.value.Ok? ==>
      (r.value.value.kind == Indent || r.value.value.kind == Dedent) &&
      DepthMatches(r.value.value.kind, |old(lx.indentStack)|, |lx.indentStack|) &&
      (lx.pos > old(lx.pos) || |lx.indentStack| < |old(lx.indentStack)|)
  {
    var stack := lx.indentStack;
    var width := CountSpaces(lx);
    var layout := lx.ProcessIndentation(width);
    if layout.Err? {
      return Some(Err(layout.error));
    }
    StepKeepsStack(stack, width);
    DepthChange(stack, width);
    if |layout.value| > 0 {
      return Some(Ok(layout.value[0]));
    }
    return None;
  }

  /**
   * Which token a call of `get_next_token` returns, case by case. The deciding step begins at
   * `at`, in column `atColumn`, with the stack `before`; the call leaves the position `pos`,
   * the line `line`, the column `column` and the stack `after`. When `measured`, the line
   * starting at `at` was measured: the result is its first layout token, the inconsistent
   * dedent error, or (spaces up to the end of the text) the missing-character error. Otherwise,
   * at the end of the text one open level is closed with a DEDENT, and EOF follows once none
   * is left; a newline run gives one NEWLINE; any other character starts the scanned token.
   */
  ghost predicate Returned(text: string, before: seq<int>, at: nat, atColumn: int, measured: bool,
                           r: Result<Token, LexError>, pos: nat, line: int, column: int, after: seq<int>)
    requires IsStack(before)
  {
    if measured then
      at < |text| && text[at] != '\n' && pos == SpaceRunEnd(text, at) &&
      var w := pos - at;
      match r
      case Ok(t) => FirstLayout(text, at, before, after, line, t)
      case Err(x) =>
        (Step(before, w).None? && x == InconsistentIndentation(line)) ||
        (Step(before, w) == Some((before, Stay)) && after == before && pos == |text| &&
         x == NoCurrentCharacter(line, column))
    else if at >= |text| then
      at == pos == |text| &&
      if Top(before) > 0 then r == Ok(Token(Dedent, NoValue, line, column)) && after == before[..|before| - 1]
      else r == Ok(Token(Eof, NoValue, line, column)) && after == before
    else if text[at] == '\n' then
      r == Ok(Token(Newline, TextValue("\n"), line - 1, column)) && pos == NewlineRunEnd(text, at) && after == before
    else
      after == before &&
      match ScanToken(Root, text, at, line, atColumn)
      case Ok((t, e)) => r == Ok(t) && pos == e
      case Err(x) => r == Err(x)
  }

  /**
   * Every returned token moves the stack depth as its kind says, EOF comes only at the end of
   * the text with the stack back at [0], and any other token moves forward or closes a level.
   */
  lemma ReturnedProgress(text: string, before: seq<int>, at: nat, atColumn: int, measured: bool,
                         r: Result<Token, LexError>, pos: nat, line: int, column: int, after: seq<int>, start: nat)
    requires IsStack(before) && start <= at
    requires Returned(text, before, at, atColumn, measured, r, pos, line, column, after)
    ensures r.Ok? ==> DepthMatches(r.value.kind, |before|, |after|)
    ensures r.Ok? && r.value.kind == Eof ==> pos == |text| && after == [0]
    ensures r.Ok? && r.value.kind != Eof ==> pos > start || (pos == start && |after| < |before|)
  {
    if measured && r.Ok? {
      var w := pos - at;
      StepKeepsStack(before, w);
      DepthChange(before, w);
    }
  }

  /**
   * The part of `get_next_token` after the column-1 check, for one character: blanks and a
   * comment are skipped (and the call goes on), a newline run or a token ends the call.
   */
  method Scan(lx: Lexer) returns (r: Result<Token, LexError>, done: bool)
    requires lx.Valid() && lx.current.Some?
    modifies lx
    ensures lx.Valid()
    ensures done ==>
      Returned(lx.text, old(lx.indentStack), old(lx.pos), old(lx.column), false, r, lx.pos, lx.line, lx.column, lx.indentStack)
    ensures !done ==> lx.pos > old(lx.pos) && lx.indentStack == old(lx.indentStack) && lx.line == old(lx.line)
  {
    var c := lx.current.value;
    if IsBlank(c) {
      lx.SkipWhitespace();
      return Ok(Token(Eof, NoValue, lx.line, lx.column)), false;
    }
    if c == '/' && lx.Peek() == Some('/') {
      lx.SkipComment();
      return Ok(Token(Eof, NoValue, lx.line, lx.column)), false;
    }
    if c == '\n' {
      lx.ConsumeNewlines(0);
      return Ok(Token(Newline, TextValue("\n"), lx.line - 1, lx.column)), true;
    }
    r := lx.LexToken(Root);
    done := true;
  }

  /** One pass of the `get_next_token` loop: the column-1 measurement, then Scan. */
  method Decide(lx: Lexer) returns (r: Result<Token, LexError>, ghost at: nat, ghost atColumn: int, ghost measured: bool, done: bool)
    requires lx.Valid() && lx.current.Some?
    modifies lx
    ensures lx.Valid()
    ensures done ==> old(lx.pos) <= at
    ensures done ==> Returned(lx.text, old(lx.indentStack), at, atColumn, measured, r, lx.pos, lx.line, lx.column, lx.indentStack)
    ensures !done ==> lx.pos > old(lx.pos) && lx.indentStack == old(lx.indentStack) && lx.line == old(lx.line)
  {
    at, atColumn, measured := lx.pos, lx.column, false;
    if lx.column == 1 && lx.current.value != '\n' {
      var layout := LineStart(lx);
      if layout.Some? {
        return layout.value, at, atColumn, true, true;
      }
      if lx.current.None? {
        return Err(NoCurrentCharacter(lx.line, lx.column)), at, atColumn, true, true;
      }
      at, atColumn := lx.pos, lx.column;
    }
    r, done := Scan(lx);
  }

  /** The end of the text: one DEDENT per call while a level is open, then EOF. */
  method Exhausted(lx: Lexer) returns (r: Result<Token, LexError>)
    requires lx.Valid() && lx.current.None?
    modifies lx
    ensures lx.Valid() && lx.pos == old(lx.pos) && lx.line == old(lx.line) && lx.column == old(lx.column)
    ensures Returned(lx.text, old(lx.indentStack), lx.pos, lx.column, false, r, lx.pos, lx.line, lx.column, lx.indentStack)
  {
    if Top(lx.indentStack) > 0 {
      lx.indentStack := lx.indentStack[..|lx.indentStack| - 1];
      return Ok(Token(Dedent, NoValue, lx.line, lx.column));
    }
    return Ok(Token(Eof, NoValue, lx.line, lx.column));
  }

  /**
   * `get_next_token`: blanks and comments are skipped up to `at`, where the deciding step
   * begins in column `atColumn`; the token returned is the case of Returned that applies.
   */
  method GetNextToken(lx: Lexer) returns (r: Result<Token, LexError>, ghost at: nat, ghost atColumn: int, ghost measured: bool)
    requires lx.Valid()
    modifies lx
    ensures lx.Valid() && old(lx.pos) <= at
    ensures Returned(lx.text, old(lx.indentStack), at, atColumn, measured, r, lx.pos, lx.line, lx.column, lx.indentStack)
    ensures r.Ok? ==> DepthMatches(r.value.kind, |old(lx.indentStack)|, |lx.indentStack|)
    ensures r.Ok? && r.value.kind == Eof ==> lx.pos == |lx.text| && lx.indentStack == [0]
    ensures r.Ok? && r.value.kind != Eof ==>
      lx.pos > old(lx.pos) || (lx.pos == old(lx.pos) && |lx.indentStack| < |old(lx.indentStack)|)
  {
    while lx.current.Some?
      invariant lx.Valid() && lx.pos >= old(lx.pos) && lx.indentStack == old(lx.indentStack)
      decreases |lx.text| - lx.pos
    {
      var done;
      r, at, atColumn, measured, done := Decide(lx);
      if done {
        ReturnedProgress(lx.text, old(lx.indentStack), at, atColumn, measured, r, lx.pos, lx.line, lx.column, lx.indentStack, old(lx.pos));
        return;
      }
    }
    at, atColumn, measured := lx.pos, lx.column, false;
    r := Exhausted(lx);
    ReturnedProgress(lx.text, old(lx.indentStack), at, atColumn, measured, r, lx.pos, lx.line, lx.column, lx.indentStack, old(lx.pos));
  }

  /** INDENTs in `ts` cover its DEDENTs plus the levels still open below the top one. */
  predicate Covers(ts: seq<Token>, depth: nat)
  {
    Count(ts, Indent) >= Count(ts, Dedent) + depth - 1
  }

  /** One more token keeps INDENTs covering DEDENTs plus the open levels. */
  lemma CountKeepsDepth(ts: seq<Token>, t: Token, before: nat, after: nat)
    requires Covers(ts, before)
    requires DepthMatches(t.kind, before, after)
    ensures Covers(ts + [t], after)
  {
    CountPush(ts, t);
  }

  /** One call of `get_next_token` inside `tokenize`, with what it does to the token stream so far. */
  method Pull(lx: Lexer, ghost tokens: seq<Token>) returns (r: Result<Token, LexError>)
    requires lx.Valid() && Covers(tokens, |lx.indentStack|)
    modifies lx
    ensures lx.Valid()
    ensures r.Ok? ==> Covers(tokens + [r.value], |lx.indentStack|)
    ensures r.Ok? && r.value.kind == Eof ==> lx.pos == |lx.text| && lx.indentStack == [0]
    ensures r.Ok? && r.value.kind != Eof ==>
      lx.pos > old(lx.pos) || (lx.pos == old(lx.pos) && |lx.indentStack| < |old(lx.indentStack)|)
  {
    var before := |lx.indentStack|;
    ghost var at, atColumn, measured;
    r, at, atColumn, measured := GetNextToken(lx);
    if r.Ok? {
      var after := |lx.indentStack|;
      CountKeepsDepth(tokens, r.value, before, after);
    }
  }

  method Tokenize(lx: Lexer) returns (r: Result<seq<Token>, LexError>)
    requires lx.Valid() && lx.indentStack == [0]
    modifies lx
    ensures r.Ok? ==> EndsWithSingleEof(r.value) && Count(r.value, Dedent) <= Count(r.value, Indent)
  {
    var tokens: seq<Token> := [];
    var next := Pull(lx, tokens);
    if next.Err? {
      return Err(next.error);
    }
    var t := next.value;
    NoEofPush(tokens, t);
    while t.kind != Eof
      invariant lx.Valid()
      invariant NoEof(tokens)
      invariant Covers(tokens + [t], |lx.indentStack|)
      decreases |lx.text| - lx.pos, |lx.indentStack| + (if t.kind == Eof then 0 else 1)
    {
      NoEofPush(tokens, t);
      tokens := tokens + [t];
      next := Pull(lx, tokens);
      if next.Err? {
        return Err(next.error);
      }
      t := next.value;
      NoEofPush(tokens, t);
    }
    return Ok(tokens + [t]);
  }
}
