/**
 * The part of class Lexer that src/vypr/lexer.py and lexer.py define identically:
 * the character cursor (advance, peek, whitespace and comment skipping), the three
 * literal scanners and process_indentation. Each method is proved against a pure
 * scanning function over the text; the lemmas below state what those functions mean.
 */
module LexerBase {
  import opened Wrappers
  import opened Text
  import opened Tokens
  import opened Indentation

  datatype LexError =
    | UnterminatedString(line: int, column: int)
    | InconsistentIndentation(line: int)
    | InvalidBang(line: int, column: int)
    | InvalidCharacter(c: char, line: int, column: int)
      /** lexer.py reads `current_char.isspace()` after the text ran out inside an indentation (Python's AttributeError). */
    | NoCurrentCharacter(line: int, column: int)

  /** The character under position i, or None past the end (`current_char`). */
  function At(text: string, i: nat): Option<char>
  {
    if i < |text| then Some(text[i]) else None
  }

  /**
   * The column after advancing from index `from` to index `to`: `advance` adds one to the
   * column only when the new position is still inside the text.
   */
  function ColumnAfter(text: string, from: nat, to: nat, col: int): int
  {
    col + (to - from) - (if to == |text| && to > from then 1 else 0)
  }

  predicate IsIdentChar(c: char) { IsAlnum(c) || c == '_' }

  predicate IsQuote(c: char) { c == '"' || c == '\'' }

  /** A scanned literal: its kind, its value and the index just past it. */
  datatype Lexeme = Lexeme(kind: TokenKind, value: TokenValue, end: nat)

  function DigitsEnd(text: string, i: nat): (e: nat)
    requires i <= |text|
    ensures i <= e <= |text| && AllDigits(text[i..e])
    ensures e < |text| ==> !IsDigit(text[e])
    decreases |text| - i
  {
    if i < |text| && IsDigit(text[i]) then DigitsEnd(text, i + 1) else i
  }

  /** `number()`: a digit run, extended to a FLOAT only by a '.' that a digit follows. */
  function ScanNumber(text: string, i: nat): (l: Lexeme)
    requires i < |text| && IsDigit(text[i])
    ensures i < l.end <= |text|
  {
    var e := DigitsEnd(text, i);
    if e + 1 < |text| && text[e] == '.' && IsDigit(text[e + 1]) then
      var f := DigitsEnd(text, e + 1);
      Lexeme(Float, FloatValue(text[i..f]), f)
    else
      Lexeme(Integer, IntValue(DecimalValue(text[i..e])), e)
  }

  /** Nothing after a literal that could extend it. */
  predicate EndsNumber(rest: string)
  {
    |rest| == 0 || (!IsDigit(rest[0]) && !(rest[0] == '.' && |rest| > 1 && IsDigit(rest[1])))
  }

  lemma DigitsEndOfDigits(text: string, i: nat, n: nat)
    requires i + n <= |text| && AllDigits(text[i..i + n])
    requires i + n == |text| || !IsDigit(text[i + n])
    ensures DigitsEnd(text, i) == i + n
    decreases n
  {
    if n > 0 {
      assert IsDigit(text[i..i + n][0]);
      assert text[i + 1..i + n] == text[i..i + n][1..];
      DigitsEndOfDigits(text, i + 1, n - 1);
    }
  }

  /** The decimal rendering of n, followed by anything that cannot continue it, reads back as INTEGER n. */
  lemma IntegerRoundTrip(n: nat, rest: string)
    requires EndsNumber(rest)
    ensures var s := NatToDecimal(n);
      ScanNumber(s + rest, 0) == Lexeme(Integer, IntValue(n), |s|)
  {
    var s := NatToDecimal(n);
    var text := s + rest;
    assert text[0..|s|] == s;
    DigitsEndOfDigits(text, 0, |s|);
    DecimalRoundTrip(n);
  }

  /** Digits, a '.', digits: the whole run is one FLOAT carrying its lexeme. */
  lemma FloatRoundTrip(whole: string, frac: string, rest: string)
    requires |whole| > 0 && |frac| > 0 && AllDigits(whole) && AllDigits(frac)
    requires |rest| == 0 || !IsDigit(rest[0])
    ensures var s := whole + "." + frac;
      ScanNumber(s + rest, 0) == Lexeme(Float, FloatValue(s), |s|)
  {
    var s := whole + "." + frac;
    var text := s + rest;
    assert text[0..|whole|] == whole;
    DigitsEndOfDigits(text, 0, |whole|);
    assert text[|whole| + 1..|s|] == frac;
    DigitsEndOfDigits(text, |whole| + 1, |frac|);
    assert text[0..|s|] == s;
  }

  function Prefixed(p: string, o: Option<(string, nat)>): Option<(string, nat)>
  {
    match o
    case None => None
    case Some((s, e)) => Some((p + s, e))
  }

  lemma PrefixedEmpty(o: Option<(string, nat)>)
    ensures Prefixed("", o) == o
  {
    if o.Some? { assert "" + o.value.0 == o.value.0; }
  }

  lemma PrefixedTwice(p: string, p2: string, o: Option<(string, nat)>)
    ensures Prefixed(p, Prefixed(p2, o)) == Prefixed(p + p2, o)
  {
    if o.Some? { assert p + (p2 + o.value.0) == (p + p2) + o.value.0; }
  }

  /**
   * `string()` from just after the opening quote q: the content and the index past the
   * closing quote, or None when the text ends first. A backslash right before q is dropped.
   */
  function ScanString(text: string, j: nat, q: char): (r: Option<(string, nat)>)
    requires j <= |text|
    ensures r.Some? ==> j < r.value.1 <= |text| && text[r.value.1 - 1] == q
    decreases |text| - j
  {
    if j == |text| then None
    else if text[j] == q then Some(("", j + 1))
    else if text[j] == '\\' && j + 1 < |text| && text[j + 1] == q then Prefixed([q], ScanString(text, j + 2, q))
    else Prefixed([text[j]], ScanString(text, j + 1, q))
  }

  /** Writing s between quotes q with a backslash before each q inside it. */
  function Quote(s: string, q: char): string
  {
    [q] + EscapeQuotes(s, q) + [q]
  }

  function EscapeQuotes(s: string, q: char): string
  {
    if |s| == 0 then "" else (if s[0] == q then ['\\', q] else [s[0]]) + EscapeQuotes(s[1..], q)
  }

  lemma {:induction false} ScanEscaped(s: string, q: char, rest: string)
    requires q != '\\'
    requires |s| == 0 || s[|s| - 1] != '\\'
    ensures ScanString(EscapeQuotes(s, q) + [q] + rest, 0, q) == Some((s, |EscapeQuotes(s, q)| + 1))
    decreases |s|
  {
    var text := EscapeQuotes(s, q) + [q] + rest;
    if |s| > 0 {
      var head := if s[0] == q then ['\\', q] else [s[0]];
      var esc := EscapeQuotes(s[1..], q);
      var tail := esc + [q] + rest;
      assert EscapeQuotes(s, q) == head + esc;
      assert text == head + tail;
      if |s| > 1 { assert s[1..][|s[1..]| - 1] == s[|s| - 1]; }
      ScanEscaped(s[1..], q, rest);
      ScanShift(head, tail, q);
      assert ScanString(text, |head|, q) == Some((s[1..], |esc| + 1 + |head|));
      if s[0] == q {
        assert text[0] == '\\' && text[1] == q;
        assert ScanString(text, 0, q) == Prefixed([q], ScanString(text, 2, q));
      } else {
        assert text[0] == s[0];
        if s[0] == '\\' {
          assert |s| > 1;
          assert s[1..][0] == s[1];
          assert esc == (if s[1] == q then ['\\', q] else [s[1]]) + EscapeQuotes(s[2..], q) by {
            assert s[1..][1..] == s[2..];
          }
          assert text[1] == tail[0] == esc[0];
          assert text[1] != q;
        }
        assert ScanString(text, 0, q) == Prefixed([s[0]], ScanString(text, 1, q));
      }
      assert [s[0]] + s[1..] == s;
    } else {
      assert text[0] == q;
    }
  }

  /** Scanning a text with a prefix of length 1 or 2 shifts the end index. */
  lemma ScanShift(head: string, tail: string, q: char)
    requires |head| == 1 || |head| == 2
    ensures var r := ScanString(tail, 0, q);
      r.Some? ==> ScanString(head + tail, |head|, q) == Some((r.value.0, r.value.1 + |head|))
    ensures ScanString(tail, 0, q).None? ==> ScanString(head + tail, |head|, q).None?
  {
    ScanFrom(head, tail, 0, q);
  }

  lemma {:induction false} ScanFrom(head: string, tail: string, j: nat, q: char)
    requires j <= |tail|
    ensures var r := ScanString(tail, j, q);
      r.Some? ==> ScanString(head + tail, |head| + j, q) == Some((r.value.0, r.value.1 + |head|))
    ensures ScanString(tail, j, q).None? ==> ScanString(head + tail, |head| + j, q).None?
    decreases |tail| - j
  {
    var text := head + tail;
    assert forall k :: 0 <= k < |tail| ==> text[|head| + k] == tail[k];
    if j < |tail| {
      if tail[j] == q {
      } else if tail[j] == '\\' && j + 1 < |tail| && tail[j + 1] == q {
        ScanFrom(head, tail, j + 2, q);
      } else {
        ScanFrom(head, tail, j + 1, q);
      }
    }
  }

  /** Quoting and then scanning gives the content back, for content that does not end in a backslash. */
  lemma StringRoundTrip(s: string, q: char, rest: string)
    requires IsQuote(q)
    requires |s| == 0 || s[|s| - 1] != '\\'
    ensures ScanString(Quote(s, q) + rest, 1, q) == Some((s, |Quote(s, q)|))
  {
    ScanEscaped(s, q, rest);
    var tail := EscapeQuotes(s, q) + [q] + rest;
    assert Quote(s, q) + rest == [q] + tail;
    ScanShift([q], tail, q);
  }

  /** Without a quote character ahead, the string is unterminated. */
  lemma {:induction false} NoQuoteIsUnterminated(text: string, j: nat, q: char)
    requires j <= |text| && forall k :: j <= k < |text| ==> text[k] != q
    ensures ScanString(text, j, q).None?
    decreases |text| - j
  {
    if j < |text| {
      if text[j] == '\\' && j + 1 < |text| && text[j + 1] == q {
      } else {
        NoQuoteIsUnterminated(text, j + 1, q);
      }
    }
  }

  function IdentEnd(text: string, i: nat): (e: nat)
    requires i <= |text|
    ensures i <= e <= |text| && forall k :: i <= k < e ==> IsIdentChar(text[k])
    ensures e < |text| ==> !IsIdentChar(text[e])
    decreases |text| - i
  {
    if i < |text| && IsIdentChar(text[i]) then IdentEnd(text, i + 1) else i
  }

  /** `identifier()`: a run of letters, digits and '_', looked up in the keyword table. */
  function ScanIdentifier(text: string, i: nat): (l: Lexeme)
    requires i <= |text|
  {
    var e := IdentEnd(text, i);
    var w := text[i..e];
    match KeywordKind(w)
    case None => Lexeme(Identifier, TextValue(w), e)
    case Some(k) => Lexeme(k, if k == Boolean then BoolValue(w == "true") else TextValue(w), e)
  }

  /** A word is an IDENTIFIER exactly when it is not a keyword; true/false carry their truth value. */
  lemma IdentifierKinds(text: string, i: nat)
    requires i <= |text|
    ensures var l := ScanIdentifier(text, i); var w := text[i..l.end];
      l.end == IdentEnd(text, i) &&
      (l.kind == Identifier <==> KeywordKind(w).None?) &&
      (l.kind == Boolean <==> w == "true" || w == "false") &&
      (l.kind == Boolean ==> l.value == BoolValue(w == "true")) &&
      (l.kind != Boolean ==> l.value == TextValue(w))
  {
  }

  /** Index of the next '\n' at or after i, or the end of the text. */
  function LineEnd(text: string, i: nat): (e: nat)
    requires i <= |text|
    ensures i <= e <= |text| && forall k :: i <= k < e ==> text[k] != '\n'
    ensures e < |text| ==> text[e] == '\n'
    decreases |text| - i
  {
    if i < |text| && text[i] != '\n' then LineEnd(text, i + 1) else i
  }

  /** End of the run of '\n' characters starting at i. */
  function NewlineRunEnd(text: string, i: nat): (e: nat)
    requires i <= |text|
    ensures i <= e <= |text| && forall k :: i <= k < e ==> text[k] == '\n'
    ensures e < |text| ==> text[e] != '\n'
    decreases |text| - i
  {
    if i < |text| && text[i] == '\n' then NewlineRunEnd(text, i + 1) else i
  }

  /** k DEDENT tokens on one line, at column 1. */
  function DedentRun(k: nat, line: int, column: int): (ts: seq<Token>)
    ensures |ts| == k && forall i :: 0 <= i < k ==> ts[i] == Token(Dedent, NoValue, line, column)
  {
    if k == 0 then [] else DedentRun(k - 1, line, column) + [Token(Dedent, NoValue, line, column)]
  }

  /** One more DEDENT at the end of a run. */
  lemma DedentRunPush(tokens: seq<Token>, k: nat, line: int, column: int)
    ensures tokens + DedentRun(k, line, column) + [Token(Dedent, NoValue, line, column)]
         == tokens + DedentRun(k + 1, line, column)
  {
  }

  /** The layout tokens one indentation step produces. */
  function LayoutTokens(c: Change, width: nat, line: int): seq<Token>
  {
    match c
    case Push => [Token(Indent, IntValue(width), line, 1)]
    case Stay => []
    case Pop(k) => DedentRun(k, line, 1)
  }

  lemma {:induction false} DedentRunCounts(k: nat, line: int, column: int, kind: TokenKind)
    ensures Count(DedentRun(k, line, column), kind) == if kind == Dedent then k else 0
  {
    if k > 0 {
      var ts := DedentRun(k, line, column);
      assert ts[..k - 1] == DedentRun(k - 1, line, column);
      DedentRunCounts(k - 1, line, column, kind);
    }
  }

  /** Which of the two lexers: they accept different punctuation and place columns differently. */
  datatype Dialect = Vypr | Root

  /** One-character tokens. src/vypr/lexer.py adds '.', '[', ']' and '^' to those of lexer.py. */
  function SingleCharKind(d: Dialect, c: char): Option<TokenKind>
  {
    match c
    case '+' => Some(Plus)
    case '-' => Some(Minus)
    case '*' => Some(Multiply)
    case '/' => Some(Divide)
    case '(' => Some(LParen)
    case ')' => Some(RParen)
    case ',' => Some(Comma)
    case ':' => Some(Colon)
    case '.' => if d == Vypr then Some(Dot) else None
    case '[' => if d == Vypr then Some(LBracket) else None
    case ']' => if d == Vypr then Some(RBracket) else None
    case '^' => if d == Vypr then Some(Concat) else None
    case _ => None
  }

  lemma LookaheadIsNotSingle(d: Dialect, c: char)
    requires LooksAhead(c)
    ensures SingleCharKind(d, c).None?
  {
  }

  /** The kind of `c=` for the four characters that look one character ahead. */
  function WithEqualsKind(c: char): TokenKind
  {
    match c
    case '=' => Equal
    case '!' => NotEqual
    case '<' => LessEqual
    case _ => GreaterEqual
  }

  predicate LooksAhead(c: char) { c == '=' || c == '!' || c == '<' || c == '>' }

  /** A token kind the character dispatch can produce (never a layout token or EOF). */
  predicate IsTextKind(k: TokenKind) { k != Newline && k != Indent && k != Dedent && k != Eof }

  /**
   * The token that starts with a non-blank, non-newline, non-comment character at i, and the
   * index after it. Both lexers dispatch the same way; src/vypr/lexer.py reports the
   * column of a two-character operator as the column after its first character minus one.
   */
  function ScanToken(d: Dialect, text: string, i: nat, line: int, col: int): (r: Result<(Token, nat), LexError>)
    requires i < |text|
    ensures r.Ok? ==> i < r.value.1 <= |text| && IsTextKind(r.value.0.kind)
  {
    var c := text[i];
    if IsDigit(c) then
      var l := ScanNumber(text, i);
      Ok((Token(l.kind, l.value, line, col), l.end))
    else if IsQuote(c) then
      match ScanString(text, i + 1, c)
      case None => Err(UnterminatedString(line, col))
      case Some((s, e)) => Ok((Token(String, TextValue(s), line, col), e))
    else if IsAlpha(c) || c == '_' then
      var l := ScanIdentifier(text, i);
      assert l.end > i;
      Ok((Token(l.kind, l.value, line, col), l.end))
    else ScanOperator(d, text, i, line, col)
  }

  /** The operator and punctuation part of the dispatch. */
  function ScanOperator(d: Dialect, text: string, i: nat, line: int, col: int): (r: Result<(Token, nat), LexError>)
    requires i < |text|
    ensures r.Ok? ==> i < r.value.1 <= |text| && IsTextKind(r.value.0.kind)
  {
    var c := text[i];
    if SingleCharKind(d, c).Some? then
      Ok((Token(SingleCharKind(d, c).value, TextValue([c]), line, col), i + 1))
    else if LooksAhead(c) then
      var after := ColumnAfter(text, i, i + 1, col);
      var opCol := if d == Vypr then after - 1 else col;
      if At(text, i + 1) == Some('=') then Ok((Token(WithEqualsKind(c), TextValue([c, '=']), line, opCol), i + 2))
      else if c == '!' then Err(InvalidBang(line, if d == Vypr then after else col))
      else Ok((Token(if c == '=' then Assign else if c == '<' then LessThan else GreaterThan, TextValue([c]), line, opCol), i + 1))
    else Err(InvalidCharacter(c, line, col))
  }

  /** `==`, `!=`, `<=`, `>=` are read with one character of lookahead; a lone '!' is an error. */
  lemma LookaheadOperators(d: Dialect, text: string, i: nat, line: int, col: int)
    requires i < |text| && LooksAhead(text[i])
    ensures var r := ScanToken(d, text, i, line, col);
      (At(text, i + 1) == Some('=') ==> r.Ok? && r.value.1 == i + 2 && r.value.0.kind == WithEqualsKind(text[i])) &&
      (At(text, i + 1) != Some('=') ==> (r.Err? <==> text[i] == '!') && (r.Ok? ==> r.value.1 == i + 1 && r.value.0.kind in {Assign, LessThan, GreaterThan}))
  {
  }

  /** Only the characters the dispatch names start a token; lexer.py rejects '.', '[', ']' and '^'. */
  lemma RootRejectsVyprPunctuation(text: string, i: nat, line: int, col: int)
    requires i < |text| && text[i] in ".[]^"
    ensures ScanToken(Root, text, i, line, col) == Err(InvalidCharacter(text[i], line, col))
    ensures ScanToken(Vypr, text, i, line, col).Ok?
  {
  }

  /**
   * `while width < stack[-1]: stack.pop()` with one DEDENT per popped level, as both lexers
   * write it: the popped stack and the DEDENTs it produced.
   */
  method PopLevels(stack: seq<int>, width: nat, line: int) returns (st: seq<int>, ts: seq<Token>)
    requires IsStack(stack)
    ensures st == PopWider(stack, width) && ts == DedentRun(|stack| - |st|, line, 1)
  {
    st, ts := stack, [];
    while width < Top(st)
      invariant IsStack(st) && |st| <= |stack|
      invariant PopWider(st, width) == PopWider(stack, width)
      invariant ts == DedentRun(|stack| - |st|, line, 1)
      decreases |st|
    {
      DedentRunPush([], |stack| - |st|, line, 1);
      st := st[..|st| - 1];
      ts := ts + [Token(Dedent, NoValue, line, 1)];
    }
  }

  class Lexer {
    const text: string
    var pos: nat
    var line: int
    var column: int
    var current: Option<char>
    var indentStack: seq<int>

    ghost predicate Valid()
      reads this
    {
      pos <= |text| && current == At(text, pos) && IsStack(indentStack)
    }

    constructor(text: string)
      ensures Valid() && this.text == text
      ensures pos == 0 && line == 1 && column == 1 && indentStack == [0]
    {
      this.text := text;
      pos := 0;
      line := 1;
      column := 1;
      current := At(text, 0);
      indentStack := [0];
    }

    method Advance()
      requires Valid() && current.Some?
      modifies this
      ensures Valid() && pos == old(pos) + 1
      ensures column == old(column) + (if pos < |text| then 1 else 0)
      ensures line == old(line) && indentStack == old(indentStack)
    {
      pos := pos + 1;
      if pos >= |text| {
        current := None;
      } else {
        current := Some(text[pos]);
        column := column + 1;
      }
    }

    function Peek(): Option<char>
      reads this
    {
      At(text, pos + 1)
    }

    method SkipWhitespace()
      requires Valid()
      modifies this
      ensures Valid() && pos == BlankRunEnd(text, old(pos))
      ensures old(current).Some? && IsBlank(old(current).value) ==> pos > old(pos)
      ensures column == ColumnAfter(text, old(pos), pos, old(column))
      ensures line == old(line) && indentStack == old(indentStack)
    {
      ghost var start := pos;
      while current.Some? && IsBlank(current.value)
        invariant Valid() && start <= pos <= BlankRunEnd(text, start)
        invariant column == ColumnAfter(text, start, pos, old(column))
        invariant line == old(line) && indentStack == old(indentStack)
        decreases |text| - pos
      {
        Advance();
      }
    }

    /** Skips to the end of the line when a `//` starts here, and does nothing otherwise. */
    method SkipComment()
      requires Valid()
      modifies this
      ensures Valid() && line == old(line) && indentStack == old(indentStack)
      ensures old(current) == Some('/') && old(Peek()) == Some('/') ==>
        pos == LineEnd(text, old(pos)) && pos > old(pos) && column == ColumnAfter(text, old(pos), pos, old(column))
      ensures !(old(current) == Some('/') && old(Peek()) == Some('/')) ==>
        pos == old(pos) && column == old(column)
    {
      if current == Some('/') && Peek() == Some('/') {
        ghost var start := pos;
        while current.Some? && current.value != '\n'
          invariant Valid() && start <= pos <= LineEnd(text, start)
          invariant column == ColumnAfter(text, start, pos, old(column))
          invariant line == old(line) && indentStack == old(indentStack)
          decreases |text| - pos
        {
          Advance();
        }
      }
    }

    /** The digit loop of `number()`, which it runs before and after the '.'. */
    method AdvanceDigits() returns (run: string)
      requires Valid()
      modifies this
      ensures Valid() && line == old(line) && indentStack == old(indentStack)
      ensures pos == DigitsEnd(text, old(pos)) && run == text[old(pos)..pos]
      ensures column == ColumnAfter(text, old(pos), pos, old(column))
    {
      run := "";
      ghost var start := pos;
      while current.Some? && IsDigit(current.value)
        invariant Valid() && start <= pos <= DigitsEnd(text, start) && run == text[start..pos]
        invariant column == ColumnAfter(text, start, pos, old(column))
        invariant line == old(line) && indentStack == old(indentStack)
        decreases |text| - pos
      {
        run := run + [current.value];
        Advance();
      }
    }

    method LexNumber() returns (tok: Token)
      requires Valid() && current.Some? && IsDigit(current.value)
      modifies this
      ensures Valid() && line == old(line) && indentStack == old(indentStack)
      ensures var l := ScanNumber(text, old(pos));
        tok == Token(l.kind, l.value, line, old(column)) && pos == l.end
      ensures column == ColumnAfter(text, old(pos), pos, old(column))
    {
      var startColumn := column;
      ghost var start := pos;
      var result := AdvanceDigits();
      ghost var e := pos;
      if current == Some('.') && Peek().Some? && IsDigit(Peek().value) {
        assert e + 1 < |text| && text[e] == '.' && IsDigit(text[e + 1]);
        result := result + [current.value];
        Advance();
        var fraction := AdvanceDigits();
        assert text[start..pos] == text[start..e] + [text[e]] + text[e + 1..pos];
        result := result + fraction;
        assert result == text[start..pos] && pos == DigitsEnd(text, e + 1);
        return Token(Float, FloatValue(result), line, startColumn);
      }
      return Token(Integer, IntValue(DecimalValue(result)), line, startColumn);
    }

    method LexString() returns (r: Result<Token, LexError>)
      requires Valid() && current.Some? && IsQuote(current.value)
      modifies this
      ensures Valid() && line == old(line) && indentStack == old(indentStack)
      ensures column == ColumnAfter(text, old(pos), pos, old(column))
      ensures match ScanString(text, old(pos) + 1, old(current).value)
        case None => r == Err(UnterminatedString(line, old(column))) && pos == |text|
        case Some((s, e)) => r == Ok(Token(String, TextValue(s), line, old(column))) && pos == e
    {
      var result := "";
      var startColumn := column;
      ghost var start := pos;
      var quote := current.value;
      Advance();
      PrefixedEmpty(ScanString(text, pos, quote));
      while current.Some? && current.value != quote
        invariant Valid() && start < pos
        invariant ScanString(text, start + 1, quote) == Prefixed(result, ScanString(text, pos, quote))
        invariant column == ColumnAfter(text, start, pos, startColumn)
        invariant line == old(line) && indentStack == old(indentStack)
        decreases |text| - pos
      {
        ghost var here := pos;
        if current.value == '\\' && Peek() == Some(quote) {
          Advance();
        }
        assert ScanString(text, here, quote) == Prefixed([current.value], ScanString(text, pos + 1, quote));
        PrefixedTwice(result, [current.value], ScanString(text, pos + 1, quote));
        result := result + [current.value];
        Advance();
      }
      if current == Some(quote) {
        assert ScanString(text, pos, quote) == Some(("", pos + 1));
        assert result + "" == result;
        Advance();
        return Ok(Token(String, TextValue(result), line, startColumn));
      }
      return Err(UnterminatedString(line, startColumn));
    }

    method LexIdentifier() returns (tok: Token)
      requires Valid()
      modifies this
      ensures Valid() && line == old(line) && indentStack == old(indentStack)
      ensures var l := ScanIdentifier(text, old(pos));
        tok == Token(l.kind, l.value, line, old(column)) && pos == l.end
      ensures column == ColumnAfter(text, old(pos), pos, old(column))
    {
      var result := "";
      var startColumn := column;
      ghost var start := pos;
      while current.Some? && IsIdentChar(current.value)
        invariant Valid() && start <= pos <= IdentEnd(text, start) && result == text[start..pos]
        invariant column == ColumnAfter(text, start, pos, startColumn)
        invariant line == old(line) && indentStack == old(indentStack)
        decreases |text| - pos
      {
        result := result + [current.value];
        Advance();
      }
      var kind := KeywordKind(result);
      match kind {
        case None => return Token(Identifier, TextValue(result), line, startColumn);
        case Some(k) =>
          if k == Boolean {
            return Token(k, BoolValue(result == "true"), line, startColumn);
          }
          return Token(k, TextValue(result), line, startColumn);
      }
    }

    /**
     * `process_indentation(width)`: one INDENT carrying the width for a wider line, nothing
     * for an equal one, one DEDENT per popped level for a narrower one, and an error when
     * the popped stack does not land on the width. The outcome is the pure step `Step`.
     */
    method ProcessIndentation(width: nat) returns (r: Result<seq<Token>, LexError>)
      requires Valid()
      modifies this
      ensures Valid() && pos == old(pos) && column == old(column) && line == old(line)
      ensures match Step(old(indentStack), width)
        case None => r == Err(InconsistentIndentation(line))
        case Some((st, c)) => indentStack == st && r == Ok(LayoutTokens(c, width, line))
    {
      if width > Top(indentStack) {
        indentStack := indentStack + [width];
        return Ok([Token(Indent, IntValue(width), line, 1)]);
      }
      var st, tokens := PopLevels(indentStack, width, line);
      PoppedStep(indentStack, width, st);
      indentStack := st;
      if width != Top(st) {
        return Err(InconsistentIndentation(line));
      }
      return Ok(tokens);
    }

    /** The character dispatch of both lexers for the character under the cursor. */
    method LexToken(d: Dialect) returns (r: Result<Token, LexError>)
      requires Valid() && current.Some?
      modifies this
      ensures Valid() && line == old(line) && indentStack == old(indentStack)
      ensures match ScanToken(d, text, old(pos), line, old(column))
        case Ok((t, e)) => r == Ok(t) && pos == e && column == ColumnAfter(text, old(pos), e, old(column))
        case Err(x) => r == Err(x)
      ensures r.Ok? ==> pos > old(pos)
    {
      var c := current.value;
      if IsDigit(c) {
        var t := LexNumber();
        return Ok(t);
      } else if IsQuote(c) {
        r := LexString();
        return;
      } else if IsAlpha(c) || c == '_' {
        var t := LexIdentifier();
        return Ok(t);
      }
      r := LexOperator(d);
    }

    /** The operator and punctuation part of the dispatch. */
    method LexOperator(d: Dialect) returns (r: Result<Token, LexError>)
      requires Valid() && current.Some?
      modifies this
      ensures Valid() && line == old(line) && indentStack == old(indentStack)
      ensures match ScanOperator(d, text, old(pos), line, old(column))
        case Ok((t, e)) => r == Ok(t) && pos == e && column == ColumnAfter(text, old(pos), e, old(column))
        case Err(x) => r == Err(x)
    {
      var c := current.value;
      var startColumn := column;
      if SingleCharKind(d, c).Some? {
        var t := Token(SingleCharKind(d, c).value, TextValue([c]), line, column);
        Advance();
        return Ok(t);
      } else if LooksAhead(c) {
        r := LexLookahead(d);
        return;
      }
      return Err(InvalidCharacter(c, line, column));
    }

    /** `=`, `!`, `<` and `>`: one character of lookahead for a following '='. */
    method LexLookahead(d: Dialect) returns (r: Result<Token, LexError>)
      requires Valid() && current.Some? && LooksAhead(current.value)
      modifies this
      ensures Valid() && line == old(line) && indentStack == old(indentStack)
      ensures match ScanOperator(d, text, old(pos), line, old(column))
        case Ok((t, e)) => r == Ok(t) && pos == e && column == ColumnAfter(text, old(pos), e, old(column))
        case Err(x) => r == Err(x)
    {
      var c := current.value;
      var startColumn := column;
      LookaheadIsNotSingle(d, c);
      Advance();
      var opCol := if d == Vypr then column - 1 else startColumn;
      if current == Some('=') {
        Advance();
        return Ok(Token(WithEqualsKind(c), TextValue([c, '=']), line, opCol));
      } else if c == '!' {
        return Err(InvalidBang(line, if d == Vypr then column else startColumn));
      }
      return Ok(Token(if c == '=' then Assign else if c == '<' then LessThan else GreaterThan, TextValue([c]), line, opCol));
    }

    /**
     * The newline branch of both lexers: the column is reset, then the whole run of '\n'
     * is consumed with one added to `line` for each; the caller emits one NEWLINE for it.
     */
    method ConsumeNewlines(resetColumn: int)
      requires Valid() && current == Some('\n')
      modifies this
      ensures Valid() && indentStack == old(indentStack)
      ensures pos == NewlineRunEnd(text, old(pos)) && pos > old(pos) && line == old(line) + (pos - old(pos))
      ensures column == ColumnAfter(text, old(pos), pos, resetColumn)
    {
      ghost var start := pos;
      line := line + 1;
      column := resetColumn;
      Advance();
      while current == Some('\n')
        invariant Valid() && start < pos <= NewlineRunEnd(text, start) && line == old(line) + (pos - start)
        invariant column == ColumnAfter(text, start, pos, resetColumn)
        invariant indentStack == old(indentStack)
        decreases |text| - pos
      {
        line := line + 1;
        Advance();
      }
    }
  }
}
