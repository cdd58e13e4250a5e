/**
 * What the two recursive-descent parsers (src/vypr/parser.py and parser.py) share: the token
 * cursor with `eat` and `peek`, the error values that stand for their raised exceptions, and
 * the loop-form dispatch on two tokens of lookahead, which both write identically.
 */
module ParserBase {
  import opened Wrappers
  import opened Tokens
  import opened Ast

  /** A token list as both lexers hand it over: non-empty and ending with EOF. */
  predicate Stream(ts: seq<Token>)
  {
    |ts| > 0 && ts[|ts| - 1].kind == Eof
  }

  /** Why a parse stopped. Each error also carries the current token's line and column. */
  datatype Reason =
    | Expected(expected: TokenKind, found: TokenKind)   // `eat` on the wrong kind
    | UnexpectedStatement(found: TokenKind)              // no statement starts here
    | ExpectedStatementEnd(found: TokenKind)             // no NEWLINE/EOF (/DEDENT) after a statement
    | InvalidLoop                                        // `loop` not followed by a for or times header
    | InvalidFactor(found: TokenKind)
    | ExpectedPropertyName(found: TokenKind)             // `.` not followed by an identifier
    | NoLookahead                                        // `peek(2).type` on None: an AttributeError

  datatype ParseError = ParseError(reason: Reason, line: int, column: int)

  /**
   * The token `current_token` holds when the cursor is at position i: `tokens[i]`, or the
   * final EOF once i has reached or passed the end of the list.
   */
  function Cur(ts: seq<Token>, i: nat): Token
    requires Stream(ts)
  {
    ts[if i < |ts| then i else |ts| - 1]
  }

  /** Tokens from position i on: what every production and every loop makes smaller. */
  function Rem(ts: seq<Token>, i: nat): nat
  {
    if i < |ts| then |ts| - i else 0
  }

  /** The error `error` raises at position i: it reports the current token's line and column. */
  function FailAt(ts: seq<Token>, i: nat, reason: Reason): ParseError
    requires Stream(ts)
  {
    ParseError(reason, Cur(ts, i).line, Cur(ts, i).column)
  }

  /** A production's value together with the position right after what it consumed. */
  datatype At<+T> = At(value: T, next: nat)

  /**
   * What a production does from a position: its value or the error it raised, and where the
   * cursor stands afterwards (after an error, where the error was raised).
   */
  datatype Parsed<+T> = Parsed(result: Result<T, ParseError>, end: nat)
  {
    predicate IsFailure() { result.Err? }

    function PropagateFailure<U>(): Parsed<U>
      requires result.Err?
    {
      Parsed(Err(result.error), end)
    }

    function Extract(): At<T>
      requires result.Ok?
    {
      At(result.value, end)
    }
  }

  /**
   * `eat(k)` from position i: the current token and one step on when its kind is k, otherwise
   * the "Expected k" error where the cursor stands. EOF is never eaten, so a success leaves
   * fewer tokens.
   */
  function EatAt(ts: seq<Token>, i: nat, k: TokenKind): (r: Parsed<Token>)
    requires Stream(ts) && k != Eof
    ensures r.result.Ok? <==> Cur(ts, i).kind == k
    ensures r.result.Ok? ==> r.result.value == Cur(ts, i) && r.end == i + 1 && Rem(ts, r.end) < Rem(ts, i)
    ensures r.result.Err? ==> r.end == i
  {
    if Cur(ts, i).kind == k then Parsed(Ok(Cur(ts, i)), i + 1)
    else Parsed(Err(FailAt(ts, i, Expected(k, Cur(ts, i).kind))), i)
  }

  /** Where `while current is NEWLINE: eat(NEWLINE)` stops: the first token from i that is not a NEWLINE. */
  function SkipNewlinesAt(ts: seq<Token>, i: nat): (j: nat)
    requires Stream(ts)
    ensures i <= j && Cur(ts, j).kind != Newline
    decreases Rem(ts, i)
  {
    if Cur(ts, i).kind == Newline then SkipNewlinesAt(ts, i + 1) else i
  }

  /** An optional token: one step past position i when the token there is of kind k. */
  function OptionalAt(ts: seq<Token>, i: nat, k: TokenKind): nat
    requires Stream(ts)
  {
    if Cur(ts, i).kind == k then i + 1 else i
  }

  /** `peek(n).type` from position i, or None past the end. */
  function KindAhead(ts: seq<Token>, i: nat, n: nat): Option<TokenKind>
  {
    if i + n < |ts| then Some(ts[i + n].kind) else None
  }

  /** Fewer tokens remain further on. */
  lemma RemMonotone(ts: seq<Token>, i: nat, j: nat)
    requires i <= j
    ensures Rem(ts, j) <= Rem(ts, i)
  {
  }

  /** The value of an IDENTIFIER token (the lexers always give it its text). */
  function TextOf(v: TokenValue): string
  {
    if v.TextValue? then v.text else ""
  }

  /** Lines 117-129 of src/vypr/parser.py and 112-124 of parser.py: the shared token cursor. */
  class Cursor {
    const tokens: seq<Token>
    var pos: nat
    var current: Token

    /**
     * `current_token` is `tokens[pos]` while pos is inside the list and stays on the last
     * token (EOF) once pos has reached or passed its end.
     */
    predicate Valid()
      reads this
    {
      Stream(tokens) &&
      current == Cur(tokens, pos) &&
      (current.kind != Eof ==> pos + 1 < |tokens|)
    }

    /** Tokens not yet consumed: what every production and every loop makes smaller. */
    function Remaining(): nat
      reads this
    {
      Rem(tokens, pos)
    }

    constructor (ts: seq<Token>)
      requires Stream(ts)
      ensures Valid() && tokens == ts && pos == 0 && current == ts[0]
    {
      tokens := ts;
      pos := 0;
      current := ts[0];
    }

    /** The error `error` raises: it reports the current token's position. */
    function Fail(reason: Reason): (e: ParseError)
      reads this
      ensures e.reason == reason && e.line == current.line && e.column == current.column
    {
      ParseError(reason, current.line, current.column)
    }

    /**
     * `eat`: on a matching kind, step past the current token and return it; otherwise fail
     * without moving. No production ever eats EOF.
     */
    method Eat(k: TokenKind) returns (r: Result<Token, ParseError>)
      requires Valid() && k != Eof
      modifies this
      ensures Valid()
      ensures Parsed(r, pos) == EatAt(tokens, old(pos), k)
    {
      if current.kind == k {
        r := Ok(current);
        pos := pos + 1;
        if pos < |tokens| {
          current := tokens[pos];
        }
      } else {
        r := Err(Fail(Expected(k, current.kind)));
      }
    }

    /** `peek(n)`: the token n places ahead, or None past the end. */
    function Peek(n: nat): (t: Option<Token>)
      reads this
      ensures t.Some? <==> pos + n < |tokens|
      ensures t.Some? ==> t.value == tokens[pos + n]
    {
      if pos + n < |tokens| then Some(tokens[pos + n]) else None
    }

    /** The kind `peek(n).type` reads, or None where Python would fail on `None.type`. */
    function PeekKind(n: nat): (k: Option<TokenKind>)
      reads this
      ensures k.Some? <==> pos + n < |tokens|
      ensures k.Some? ==> k.value == tokens[pos + n].kind
      ensures k == KindAhead(tokens, pos, n)
    {
      if pos + n < |tokens| then Some(tokens[pos + n].kind) else None
    }

    /** `peek()` after a token other than EOF, which always exists. */
    function Lookahead(): Token
      reads this
      requires Valid() && current.kind != Eof
    {
      tokens[pos + 1]
    }

    /** Every token from `from` up to `to` is a NEWLINE. */
    ghost predicate NewlinesBetween(from: nat, to: nat)
    {
      forall i :: from <= i < to ==> i < |tokens| && tokens[i].kind == Newline
    }

    /** `while current is NEWLINE: eat(NEWLINE)`. */
    method SkipNewlines()
      requires Valid()
      modifies this
      ensures Valid() && pos >= old(pos) && current.kind != Newline
      ensures NewlinesBetween(old(pos), pos)
      ensures pos == SkipNewlinesAt(tokens, old(pos))
    {
      ghost var start := pos;
      while current.kind == Newline
        invariant Valid() && pos >= start
        invariant NewlinesBetween(start, pos)
        invariant SkipNewlinesAt(tokens, pos) == SkipNewlinesAt(tokens, start)
        decreases Remaining()
      {
        ghost var p := pos;
        assert p < |tokens| && tokens[p].kind == Newline;
        var _ := Eat(Newline);
        assert pos == p + 1;
        forall i | start <= i < pos
          ensures i < |tokens| && tokens[i].kind == Newline
        {
          if i < p {
            assert start <= i < p;
          }
        }
      }
    }

    /** The manual `pos += 1` of the vypr function-body recovery, past the end if need be. */
    method Skip()
      requires Valid()
      modifies this
      ensures Valid() && pos == old(pos) + 1
      ensures pos < |tokens| ==> current == tokens[pos]
      ensures pos >= |tokens| ==> current == old(current)
    {
      pos := pos + 1;
      if pos < |tokens| {
        current := tokens[pos];
      }
    }
  }

  /** Which production `loop_statement` picks. */
  datatype LoopForm = ForForm | TimesForm | WhileForm | InvalidForm | MissingLookahead

  /**
   * `loop_statement`'s choice from the current kind k and the kinds one and two ahead:
   * `LOOP IDENT IN` is a for loop, otherwise a TIMES two ahead is a times loop; a WHILE is a
   * while loop. No second lookahead token makes `peek(2).type` fail.
   */
  function LoopDispatch(k: TokenKind, next: Option<TokenKind>, after: Option<TokenKind>): (f: LoopForm)
    ensures k == Loop ==> (f == ForForm <==> next == Some(TokenKind.Identifier) && after == Some(In))
    ensures k == Loop ==> (f == TimesForm <==> after == Some(Times))
    ensures k == Loop ==> (f == MissingLookahead <==> after.None?)
    ensures f == WhileForm <==> k == While
    ensures k != Loop && k != While ==> f == InvalidForm
  {
    if k == Loop then
      if next == Some(TokenKind.Identifier) && after == Some(In) then ForForm
      else if after.None? then MissingLookahead
      else if after == Some(Times) then TimesForm
      else InvalidForm
    else if k == While then WhileForm
    else InvalidForm
  }

  /** The literal type names `factor` attaches to INTEGER, FLOAT, STRING and BOOLEAN tokens. */
  function LiteralType(k: TokenKind): (s: string)
    ensures s != "" <==> k in {Integer, Float, String, Boolean}
  {
    match k
    case Integer => "integer"
    case Float => "float"
    case String => "string"
    case Boolean => "boolean"
    case _ => ""
  }

  /**
   * The kind of statement `statement` builds from the kind of the current token and the
   * token after it; after a DEDENT it skips it and decides again.
   */
  predicate Dispatched(k: TokenKind, next: Option<Token>, s: Stmt)
  {
    match k
    case Var => s.VarDeclaration?
    case If => s.IfStatement?
    case Loop => s.ForLoop? || s.TimesLoop?
    case Func => s.FunctionDeclaration?
    case Return => s.ReturnStatement?
    case Print => s.PrintStatement?
    case Input => s.InputStatement?
    case Identifier =>
      if next.Some? && next.value.kind == Assign then s.Assignment? else s.ExpressionStatement?
    case Dedent => true
    case _ => false
  }

  /** The token kinds that start a statement (DEDENT is skipped over). */
  predicate StartsStatement(k: TokenKind)
  {
    k in {Var, If, Loop, Func, Return, Print, Input, TokenKind.Identifier, Dedent}
  }

  const ComparisonOps: set<TokenKind> := {Equal, NotEqual, LessThan, GreaterThan, LessEqual, GreaterEqual}
  const ArithmeticOps: set<TokenKind> := {Plus, Minus, Concat}
  const TermOps: set<TokenKind> := {Multiply, Divide}

  /** The operators of one binary level, all of the given kinds. */
  predicate StepsUse(steps: seq<Step>, ops: set<TokenKind>)
  {
    forall i :: 0 <= i < |steps| ==> steps[i].0.kind in ops
  }
}
