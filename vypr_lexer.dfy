/**
 * `Lexer.tokenize` of src/vypr/lexer.py: one pass over the text with a local indentation
 * stack. Indentation is measured only when a line begins with a blank (tab counts 4), all
 * open levels are closed at the end, a NEWLINE is added before EOF when the last token is
 * not one, and the list closes with a single EOF. The loop body's indentation step and the
 * closing steps after the loop are separate methods here.
 */
module VyprLexer {
  import opened Wrappers
  import opened Text
  import opened Tokens
  import opened Indentation
  import opened LexerBase

  /** Every INDENT is the first token or comes right after a NEWLINE. */
  predicate IndentsFollowNewlines(ts: seq<Token>)
  {
    forall i :: 0 < i < |ts| && ts[i].kind == Indent ==> ts[i - 1].kind == Newline
  }

  /** INDENT and DEDENT never appear inside a line: each follows a NEWLINE or another DEDENT. */
  predicate LayoutAtLineStarts(ts: seq<Token>)
  {
    forall i :: 0 < i < |ts| && (ts[i].kind == Indent || ts[i].kind == Dedent) ==>
      ts[i - 1].kind == Newline || ts[i - 1].kind == Dedent
  }

  /** The closing part of the list: only DEDENTs, a NEWLINE and the EOF. */
  predicate OnlyClosingFrom(ts: seq<Token>, k: nat)
  {
    forall i :: k <= i < |ts| ==> ts[i].kind == Dedent || ts[i].kind == Newline || ts[i].kind == Eof
  }


  /** What the tokenize loop keeps true of the tokens so far and the local stack. */
  predicate Balanced(tokens: seq<Token>, stack: seq<int>)
  {
    IsStack(stack) && Count(tokens, Indent) == Count(tokens, Dedent) + |stack| - 1 &&
    NoEof(tokens) && IndentsFollowNewlines(tokens)
  }

  /** Appending a token that is not layout keeps the loop's facts (a NEWLINE also starts a line). */
  lemma PushPlain(tokens: seq<Token>, stack: seq<int>, t: Token)
    requires Balanced(tokens, stack) && LayoutAtLineStarts(tokens)
    requires IsTextKind(t.kind) || t.kind == Newline
    ensures Balanced(tokens + [t], stack) && LayoutAtLineStarts(tokens + [t])
  {
    CountPush(tokens, t);
  }

  lemma PushIndent(tokens: seq<Token>, stack: seq<int>, t: Token, width: int)
    requires Balanced(tokens, stack) && LayoutAtLineStarts(tokens) && AtLineStart(tokens)
    requires t.kind == Indent && width > Top(stack)
    ensures Balanced(tokens + [t], stack + [width]) && LayoutAtLineStarts(tokens + [t])
  {
    CountPush(tokens, t);
  }

  /** A DEDENT that pops one level keeps the balance; layout placement is kept when it follows a NEWLINE or DEDENT. */
  lemma PushDedent(tokens: seq<Token>, stack: seq<int>, t: Token)
    requires Balanced(tokens, stack) && |stack| > 1 && t.kind == Dedent
    ensures Balanced(tokens + [t], stack[..|stack| - 1])
    ensures (LayoutAtLineStarts(tokens) && |tokens| > 0 &&
      (tokens[|tokens| - 1].kind == Newline || tokens[|tokens| - 1].kind == Dedent)) ==>
      LayoutAtLineStarts(tokens + [t])
  {
    CountPush(tokens, t);
  }

  predicate AtLineStart(tokens: seq<Token>)
  {
    |tokens| == 0 || tokens[|tokens| - 1].kind == Newline
  }

  /** The blank-counting loop at the start of a line: a tab counts 4, any other blank 1. */
  method MeasureIndent(lx: Lexer) returns (width: nat)
    requires lx.Valid()
    modifies lx
    ensures lx.Valid() && lx.line == old(lx.line) && lx.indentStack == old(lx.indentStack)
    ensures lx.pos == BlankRunEnd(lx.text, old(lx.pos)) && width == BlankWidth(lx.text[old(lx.pos)..lx.pos])
    ensures old(lx.current).Some? && IsBlank(old(lx.current).value) ==> lx.pos > old(lx.pos)
  {
    width := 0;
    ghost var start := lx.pos;
    while lx.current.Some? && IsBlank(lx.current.value)
      invariant lx.Valid() && lx.line == old(lx.line) && lx.indentStack == old(lx.indentStack)
      invariant start <= lx.pos <= BlankRunEnd(lx.text, start)
      invariant width == BlankWidth(lx.text[start..lx.pos])
      decreases |lx.text| - lx.pos
    {
      assert lx.text[start..lx.pos + 1][..lx.pos - start] == lx.text[start..lx.pos];
      width := width + (if lx.current.value == '\t' then 4 else 1);
      lx.Advance();
    }
  }

  /** k DEDENTs after a NEWLINE, for a stack k levels lower, keep the loop's facts. */
  lemma AppendDedents(tokens: seq<Token>, stack: seq<int>, st: seq<int>, k: nat, lineNum: int)
    requires Balanced(tokens, stack) && LayoutAtLineStarts(tokens) && AtLineStart(tokens)
    requires IsStack(st) && |st| + k == |stack|
    ensures Balanced(tokens + DedentRun(k, lineNum, 1), st) && LayoutAtLineStarts(tokens + DedentRun(k, lineNum, 1))
  {
    var lay := DedentRun(k, lineNum, 1);
    var ts := tokens + lay;
    CountAppend(tokens, lay, Indent);
    CountAppend(tokens, lay, Dedent);
    DedentRunCounts(k, lineNum, 1, Indent);
    DedentRunCounts(k, lineNum, 1, Dedent);
    DedentRunCounts(k, lineNum, 1, Eof);
    assert forall i :: |tokens| <= i < |ts| ==> ts[i].kind == Dedent;
    assert forall i :: 0 <= i < |tokens| ==> ts[i] == tokens[i];
  }

  /** The layout tokens of a successful step keep the loop's facts. */
  lemma StepKeepsBalance(tokens: seq<Token>, stack: seq<int>, width: nat, lineNum: int)
    requires Balanced(tokens, stack) && LayoutAtLineStarts(tokens) && AtLineStart(tokens)
    requires Step(stack, width).Some?
    ensures var (st, c) := Step(stack, width).value; var ts := tokens + LayoutTokens(c, width, lineNum);
      Balanced(ts, st) && LayoutAtLineStarts(ts)
  {
    var (st, c) := Step(stack, width).value;
    StepKeepsStack(stack, width);
    DepthChange(stack, width);
    match c
    case Push =>
      PushIndent(tokens, stack, Token(Indent, IntValue(width), lineNum, 1), width);
    case Stay =>
      assert tokens + [] == tokens;
    case Pop(k) =>
      AppendDedents(tokens, stack, st, k, lineNum);
  }

  /**
   * The indentation step of a measured line: push and one INDENT, nothing, or one DEDENT
   * per popped level, exactly as `Step` says, and the error when the width is not found.
   */
  method IndentLine(tokens: seq<Token>, stack: seq<int>, width: nat, lineNum: int)
    returns (r: Result<(seq<Token>, seq<int>), LexError>)
    requires IsStack(stack)
    ensures match Step(stack, width)
      case None => r == Err(InconsistentIndentation(lineNum))
      case Some((st, c)) => r == Ok((tokens + LayoutTokens(c, width, lineNum), st))
  {
    if width > Top(stack) {
      var t := Token(Indent, IntValue(width), lineNum, 1);
      return Ok((tokens + [t], stack + [width]));
    }
    var st, dedents := PopLevels(stack, width, lineNum);
    var ts := tokens + dedents;
    PoppedStep(stack, width, st);
    if width != Top(st) {
      return Err(InconsistentIndentation(lineNum));
    }
    return Ok((ts, st));
  }

  /** Appending only DEDENTs keeps the earlier tokens, adds no EOF and no misplaced INDENT. */
  lemma DedentTail(tokens: seq<Token>, lay: seq<Token>)
    requires forall i :: 0 <= i < |lay| ==> lay[i].kind == Dedent
    ensures var ts := tokens + lay;
      ts[..|tokens|] == tokens && OnlyClosingFrom(ts, |tokens|) &&
      (NoEof(tokens) ==> NoEof(ts)) && (IndentsFollowNewlines(tokens) ==> IndentsFollowNewlines(ts))
  {
    var ts := tokens + lay;
    assert ts[..|tokens|] == tokens;
    forall i | |tokens| <= i < |ts| ensures ts[i].kind == Dedent {
      assert ts[i] == lay[i - |tokens|];
    }
    forall i | 0 <= i < |tokens| ensures ts[i] == tokens[i] {
    }
  }

  /** n DEDENTs after tokens with n more INDENTs than DEDENTs balance the two. */
  lemma ClosingCounts(tokens: seq<Token>, lay: seq<Token>, n: nat)
    requires Count(tokens, Indent) == Count(tokens, Dedent) + n
    requires Count(lay, Indent) == 0 && Count(lay, Dedent) == n
    ensures Count(tokens + lay, Indent) == Count(tokens + lay, Dedent)
  {
    CountAppend(tokens, lay, Indent);
    CountAppend(tokens, lay, Dedent);
  }

  /** Closing every open level leaves INDENTs and DEDENTs balanced. */
  lemma ClosingBalances(tokens: seq<Token>, stack: seq<int>, lineNum: int, column: int)
    requires Balanced(tokens, stack)
    ensures var ts := tokens + DedentRun(|stack| - 1, lineNum, column);
      Count(ts, Indent) == Count(ts, Dedent) && NoEof(ts) && IndentsFollowNewlines(ts) &&
      ts[..|tokens|] == tokens && OnlyClosingFrom(ts, |tokens|)
  {
    var n := |stack| - 1;
    var lay := DedentRun(n, lineNum, column);
    DedentRunCounts(n, lineNum, column, Indent);
    DedentRunCounts(n, lineNum, column, Dedent);
    ClosingCounts(tokens, lay, n);
    DedentTail(tokens, lay);
  }

  /** The list after the loop: closing DEDENTs, a NEWLINE unless one is already last, then EOF. */
  function Closed(tokens: seq<Token>, stack: seq<int>, lineNum: int, column: int): seq<Token>
    requires |stack| > 0
  {
    var ts := tokens + DedentRun(|stack| - 1, lineNum, column);
    var nl := if |ts| > 0 && ts[|ts| - 1].kind != Newline then [Token(Newline, NoValue, lineNum, column)] else [];
    ts + nl + [Token(Eof, NoValue, lineNum, column)]
  }

  /** What tokenize promises about the list it returns. */
  predicate TokenizeResult(ts: seq<Token>)
  {
    EndsWithSingleEof(ts) && Count(ts, Indent) == Count(ts, Dedent) &&
    (|ts| > 1 ==> ts[|ts| - 2].kind == Newline) && IndentsFollowNewlines(ts) &&
    exists k :: 0 <= k <= |ts| && LayoutAtLineStarts(ts[..k]) && OnlyClosingFrom(ts, k)
  }

  lemma ClosedIsResult(tokens: seq<Token>, stack: seq<int>, lineNum: int, column: int)
    requires Balanced(tokens, stack) && LayoutAtLineStarts(tokens)
    ensures TokenizeResult(Closed(tokens, stack, lineNum, column))
  {
    ClosedFacts(tokens, stack, lineNum, column);
    var ts := Closed(tokens, stack, lineNum, column);
    assert LayoutAtLineStarts(ts[..|tokens|]);
  }

  lemma ClosedFacts(tokens: seq<Token>, stack: seq<int>, lineNum: int, column: int)
    requires Balanced(tokens, stack)
    ensures var ts := Closed(tokens, stack, lineNum, column);
      |ts| > |tokens| && ts[..|tokens|] == tokens &&
      EndsWithSingleEof(ts) && Count(ts, Indent) == Count(ts, Dedent) &&
      (|ts| > 1 ==> ts[|ts| - 2].kind == Newline) &&
      IndentsFollowNewlines(ts) && OnlyClosingFrom(ts, |tokens|)
  {
    ClosingBalances(tokens, stack, lineNum, column);
    var ds := tokens + DedentRun(|stack| - 1, lineNum, column);
    var nl := if |ds| > 0 && ds[|ds| - 1].kind != Newline then [Token(Newline, NoValue, lineNum, column)] else [];
    var eof := Token(Eof, NoValue, lineNum, column);
    var ts := ds + nl + [eof];
    ClosedCounts(ds, nl, eof);
    ClosedShape(tokens, ds, nl, eof);
  }

  lemma ClosedCounts(ds: seq<Token>, nl: seq<Token>, eof: Token)
    requires Count(ds, Indent) == Count(ds, Dedent)
    requires nl == [] || (|nl| == 1 && nl[0].kind == Newline)
    requires eof.kind == Eof
    ensures Count(ds + nl + [eof], Indent) == Count(ds + nl + [eof], Dedent)
  {
    if |nl| == 1 {
      CountPush(ds, nl[0]);
      assert ds + nl == ds + [nl[0]];
    } else {
      assert ds + nl == ds;
    }
    CountPush(ds + nl, eof);
  }

  lemma ClosedShape(tokens: seq<Token>, ds: seq<Token>, nl: seq<Token>, eof: Token)
    requires |ds| >= |tokens| && ds[..|tokens|] == tokens && OnlyClosingFrom(ds, |tokens|)
    requires NoEof(ds) && IndentsFollowNewlines(ds)
    requires nl == [] || (|nl| == 1 && nl[0].kind == Newline)
    requires |ds| > 0 && ds[|ds| - 1].kind != Newline ==> |nl| == 1
    requires eof.kind == Eof
    ensures var ts := ds + nl + [eof];
      |ts| > |tokens| && ts[..|tokens|] == tokens && EndsWithSingleEof(ts) &&
      (|ts| > 1 ==> ts[|ts| - 2].kind == Newline) &&
      IndentsFollowNewlines(ts) && OnlyClosingFrom(ts, |tokens|)
  {
    var ts := ds + nl + [eof];
    assert forall i :: 0 <= i < |ds| ==> ts[i] == ds[i];
    assert ts[..|tokens|] == tokens by {
      assert ts[..|tokens|] == ds[..|tokens|];
    }
  }

  /** The steps after the loop: close every open level, add the missing NEWLINE, add EOF. */
  method CloseTokens(tokens: seq<Token>, stack: seq<int>, lineNum: int, column: int, lastKind: Option<TokenKind>)
    returns (ts: seq<Token>)
    requires IsStack(stack)
    requires lastKind.Some? ==> IsTextKind(lastKind.value)
    ensures ts == Closed(tokens, stack, lineNum, column)
  {
    ts := tokens;
    var st := stack;
    while |st| > 1
      invariant IsStack(st) && |st| <= |stack|
      invariant ts == tokens + DedentRun(|stack| - |st|, lineNum, column)
      decreases |st|
    {
      var t := Token(Dedent, NoValue, lineNum, column);
      assert tokens + DedentRun(|stack| - |st|, lineNum, column) + [t] == tokens + DedentRun(|stack| - |st| + 1, lineNum, column);
      st := st[..|st| - 1];
      ts := ts + [t];
    }
    if |ts| > 0 && ts[|ts| - 1].kind != Newline {
      if !(lastKind == Some(Dedent) || lastKind == Some(Newline)) {
        ts := ts + [Token(Newline, NoValue, lineNum, column)];
      }
    } else {
      assert ts + [] == ts;
    }
    ts := ts + [Token(Eof, NoValue, lineNum, column)];
  }

  method Tokenize(lx: Lexer) returns (r: Result<seq<Token>, LexError>)
    requires lx.Valid() && lx.line == 1
    modifies lx
    ensures r.Ok? ==> TokenizeResult(r.value)
  {
    var tokens: seq<Token> := [];
    var stack: seq<int> := [0];
    var lineNum := 1;
    var lineStart := true;
    var lastKind: Option<TokenKind> := None;
    while lx.current.Some?
      invariant lx.Valid() && lx.line == lineNum
      invariant Balanced(tokens, stack) && LayoutAtLineStarts(tokens)
      invariant lineStart ==> AtLineStart(tokens)
      invariant lastKind.Some? ==> IsTextKind(lastKind.value)
      decreases |lx.text| - lx.pos
    {
      var c := lx.current.value;
      if IsBlank(c) {
        if lineStart {
          var width := MeasureIndent(lx);
          var stepped := IndentLine(tokens, stack, width, lineNum);
          if stepped.Err? {
            return Err(stepped.error);
          }
          StepKeepsBalance(tokens, stack, width, lineNum);
          tokens, stack := stepped.value.0, stepped.value.1;
          lineStart := false;
        } else {
          lx.SkipWhitespace();
        }
        continue;
      }
      if c == '/' && lx.Peek() == Some('/') {
        lx.SkipComment();
        continue;
      }
      if c == '\n' {
        lx.ConsumeNewlines(1);
        var t := Token(Newline, TextValue("\n"), lineNum, lx.column);
        PushPlain(tokens, stack, t);
        tokens := tokens + [t];
        lineNum := lx.line;
        lineStart := true;
        continue;
      }
      lineStart := false;
      var lexed := lx.LexToken(Vypr);
      if lexed.Err? {
        return Err(lexed.error);
      }
      PushPlain(tokens, stack, lexed.value);
      tokens := tokens + [lexed.value];
      lastKind := Some(lexed.value.kind);
    }
    var ts := CloseTokens(tokens, stack, lineNum, lx.column, lastKind);
    ClosedIsResult(tokens, stack, lineNum, lx.column);
    return Ok(ts);
  }
}
