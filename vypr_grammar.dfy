/**
 * The statement grammar src/vypr/parser.py recognises, one function per production: what
 * the production returns from a position of the token list and where it leaves the cursor,
 * an error included (expressions are in ExprGrammar, in the vypr dialect). The methods of
 * VyprParser are proved to compute exactly these; the layout rules and the function-body
 * recovery are lemmas in VyprGrammarFacts.
 *
 * The second component of each `decreases` ranks productions that call each other without
 * consuming a token in between.
 */
module VyprGrammar {
  import opened Wrappers
  import opened Tokens
  import opened Ast
  import opened ParserBase
  import opened ExprGrammar

  /** `program`: the statement list from position i. */
  function ProgramAt(ts: seq<Token>, i: nat): (r: Parsed<Program>)
    requires Stream(ts)
    ensures i <= r.end
    ensures r.result.Ok? ==> Cur(ts, r.end).kind in {Eof, Dedent}
    decreases Rem(ts, i), 30
  {
    var statements :- StatementListAt(ts, i);
    Parsed(Ok(Program(statements.value)), statements.next)
  }

  /** `statement_list`: NEWLINEs skipped, then statements up to EOF or a DEDENT. */
  function StatementListAt(ts: seq<Token>, i: nat): (r: Parsed<seq<Stmt>>)
    requires Stream(ts)
    ensures i <= r.end
    ensures r.result.Ok? ==> Cur(ts, r.end).kind in {Eof, Dedent}
    decreases Rem(ts, i), 29
  {
    StatementsFrom(ts, SkipNewlinesAt(ts, i), [])
  }

  /** The statement-list loop with the statements `acc` already parsed. */
  function StatementsFrom(ts: seq<Token>, i: nat, acc: seq<Stmt>): (r: Parsed<seq<Stmt>>)
    requires Stream(ts)
    ensures i <= r.end
    ensures r.result.Ok? ==> Cur(ts, r.end).kind in {Eof, Dedent}
    decreases Rem(ts, i), 28
  {
    if Cur(ts, i).kind in {Eof, Dedent} then Parsed(Ok(acc), i)
    else
      var s :- StatementAt(ts, i);
      StatementsFrom(ts, SkipNewlinesAt(ts, s.next), acc + [s.value])
  }

  /** `statement`: chosen by the current kind (and, for an identifier, the next one). */
  function StatementAt(ts: seq<Token>, i: nat): (r: Parsed<Stmt>)
    requires Stream(ts)
    ensures i <= r.end && (r.result.Ok? ==> Rem(ts, r.end) < Rem(ts, i))
    decreases Rem(ts, i), 20
  {
    match Cur(ts, i).kind
    case Var => VarDeclarationAt(ts, i)
    case If => IfAt(ts, i)
    case Loop => LoopAt(ts, i)
    case Func => FunctionDeclarationAt(ts, i)
    case Return => ReturnAt(ts, i)
    case Print => PrintAt(ts, i)
    case Input => InputAt(ts, i)
    case Identifier => IdentifierStatementAt(ts, i)
    case Dedent => StatementAt(ts, i + 1)
    case _ => Parsed(Err(FailAt(ts, i, UnexpectedStatement(Cur(ts, i).kind))), i)
  }

  /** A statement that starts with an identifier: an assignment when ASSIGN follows, else an expression statement. */
  function IdentifierStatementAt(ts: seq<Token>, i: nat): (r: Parsed<Stmt>)
    requires Stream(ts)
    ensures i <= r.end && (r.result.Ok? ==> Rem(ts, r.end) < Rem(ts, i))
    decreases Rem(ts, i), 19
  {
    if Cur(ts, i + 1).kind == Assign then AssignmentAt(ts, i) else ExpressionStatementAt(ts, i)
  }

  /** `eat_newline_or_eof`: a NEWLINE is consumed, EOF is accepted where it stands. */
  function NewlineOrEofAt(ts: seq<Token>, i: nat): (r: Parsed<()>)
    requires Stream(ts)
    ensures i <= r.end
  {
    var k := Cur(ts, i).kind;
    if k == Newline then Parsed(Ok(()), i + 1)
    else if k == Eof then Parsed(Ok(()), i)
    else Parsed(Err(FailAt(ts, i, ExpectedStatementEnd(k))), i)
  }

  function VarDeclarationAt(ts: seq<Token>, i: nat): (r: Parsed<Stmt>)
    requires Stream(ts)
    ensures i <= r.end && (r.result.Ok? ==> Rem(ts, r.end) < Rem(ts, i))
    decreases Rem(ts, i), 18
  {
    var kw :- EatAt(ts, i, Var);
    var name :- EatAt(ts, kw.next, TokenKind.Identifier);
    var init :-
      if Cur(ts, name.next).kind == Assign then
        var e :- ExpressionAt(Vypr, ts, name.next + 1);
        Parsed(Ok(Some(e.value)), e.next)
      else Parsed(Ok(None), name.next);
    var end :- NewlineOrEofAt(ts, init.next);
    Parsed(Ok(VarDeclaration(TextOf(name.value.value), init.value)), end.next)
  }

  function AssignmentAt(ts: seq<Token>, i: nat): (r: Parsed<Stmt>)
    requires Stream(ts)
    ensures i <= r.end && (r.result.Ok? ==> Rem(ts, r.end) < Rem(ts, i))
    decreases Rem(ts, i), 18
  {
    var variable :- EatAt(ts, i, TokenKind.Identifier);
    var assign :- EatAt(ts, variable.next, Assign);
    var value :- ExpressionAt(Vypr, ts, assign.next);
    var end :- NewlineOrEofAt(ts, value.next);
    Parsed(Ok(Assignment(TextOf(variable.value.value), value.value)), end.next)
  }

  /**
   * The statement loop of a block with the statements `acc` already parsed: it stops at a
   * kind of `ends` and steps over a kind of `skips`.
   */
  function BlockFrom(ts: seq<Token>, i: nat, ends: set<TokenKind>, skips: set<TokenKind>, acc: seq<Stmt>): (r: Parsed<seq<Stmt>>)
    requires Stream(ts) && Eof in ends
    ensures i <= r.end
    ensures r.result.Ok? ==> Cur(ts, r.end).kind in ends
    decreases Rem(ts, i), 25
  {
    if Cur(ts, i).kind in ends then Parsed(Ok(acc), i)
    else if Cur(ts, i).kind in skips then BlockFrom(ts, i + 1, ends, skips, acc)
    else
      var s :- StatementAt(ts, i);
      BlockFrom(ts, s.next, ends, skips, acc + [s.value])
  }

  /** `if_statement`: IF expression, the then-suite and an optional else part. */
  function IfAt(ts: seq<Token>, i: nat): (r: Parsed<Stmt>)
    requires Stream(ts)
    ensures i <= r.end && (r.result.Ok? ==> Rem(ts, r.end) < Rem(ts, i))
    decreases Rem(ts, i), 18
  {
    var kw :- EatAt(ts, i, If);
    var condition :- ExpressionAt(Vypr, ts, kw.next);
    var body :- ThenSuiteAt(ts, condition.next);
    var elseBody :- ElseAt(ts, body.next);
    Parsed(Ok(IfStatement(condition.value, body.value, elseBody.value)), elseBody.next)
  }

  /**
   * COLON NEWLINE, an optional INDENT, statements up to DEDENT/EOF/ELSE with INDENT and
   * NEWLINE stepped over, and a DEDENT eaten only when an INDENT opened the suite.
   */
  function ThenSuiteAt(ts: seq<Token>, i: nat): (r: Parsed<seq<Stmt>>)
    requires Stream(ts)
    ensures i <= r.end && (r.result.Ok? ==> Rem(ts, r.end) < Rem(ts, i))
    decreases Rem(ts, i), 28
  {
    var colon :- EatAt(ts, i, Colon);
    var newline :- EatAt(ts, colon.next, Newline);
    IndentedBlockAt(ts, newline.next, {Dedent, Eof, Else}, {Indent, Newline})
  }

  /** A block whose INDENT is optional and whose DEDENT is eaten only when the INDENT was there. */
  function IndentedBlockAt(ts: seq<Token>, i: nat, ends: set<TokenKind>, skips: set<TokenKind>): (r: Parsed<seq<Stmt>>)
    requires Stream(ts) && Eof in ends
    ensures i <= r.end
    decreases Rem(ts, i), 26
  {
    var body :- BlockFrom(ts, OptionalAt(ts, i, Indent), ends, skips, []);
    Parsed(Ok(body.value), if Cur(ts, i).kind == Indent then OptionalAt(ts, body.next, Dedent) else body.next)
  }

  /** The else part: none unless ELSE comes next, else ELSE COLON NEWLINE and the else body. */
  function ElseAt(ts: seq<Token>, i: nat): (r: Parsed<ElseClause>)
    requires Stream(ts)
    ensures i <= r.end
    decreases Rem(ts, i), 26
  {
    if Cur(ts, i).kind != Else then Parsed(Ok(NoElse), i)
    else
      var colon :- EatAt(ts, i + 1, Colon);
      var newline :- EatAt(ts, colon.next, Newline);
      var body :- ElseBodyAt(ts, newline.next);
      Parsed(Ok(ElseBlock(body.value)), body.next)
  }

  /** An optional INDENT, the else statements, and a DEDENT eaten only when the INDENT was there. */
  function ElseBodyAt(ts: seq<Token>, i: nat): (r: Parsed<seq<Stmt>>)
    requires Stream(ts)
    ensures i <= r.end
    decreases Rem(ts, i), 27
  {
    var body :- ElseStatementsAt(ts, OptionalAt(ts, i, Indent));
    Parsed(Ok(body.value), if Cur(ts, i).kind == Indent then OptionalAt(ts, body.next, Dedent) else body.next)
  }

  /**
   * The else statements: a nested if statement alone when IF comes first, otherwise
   * statements up to DEDENT/EOF with NEWLINE stepped over.
   */
  function ElseStatementsAt(ts: seq<Token>, i: nat): (r: Parsed<seq<Stmt>>)
    requires Stream(ts)
    ensures i <= r.end
    decreases Rem(ts, i), 26
  {
    if Cur(ts, i).kind == If then
      var nested :- IfAt(ts, i);
      Parsed(Ok([nested.value]), nested.next)
    else BlockFrom(ts, i, {Dedent, Eof}, {Newline}, [])
  }

  /** `loop_statement`: dispatched on two tokens of lookahead, or a strict WHILE loop. */
  function LoopAt(ts: seq<Token>, i: nat): (r: Parsed<Stmt>)
    requires Stream(ts)
    ensures i <= r.end && (r.result.Ok? ==> Rem(ts, r.end) < Rem(ts, i))
    decreases Rem(ts, i), 19
  {
    match LoopDispatch(Cur(ts, i).kind, KindAhead(ts, i, 1), KindAhead(ts, i, 2))
    case ForForm => ForLoopAt(ts, i)
    case TimesForm => TimesLoopAt(ts, i)
    case MissingLookahead => Parsed(Err(FailAt(ts, i, NoLookahead)), i)
    case InvalidForm => Parsed(Err(FailAt(ts, i, InvalidLoop)), i)
    case WhileForm => WhileLoopAt(ts, i)
  }

  /** The WHILE branch of `loop_statement`: WHILE expression and a strict suite. */
  function WhileLoopAt(ts: seq<Token>, i: nat): (r: Parsed<Stmt>)
    requires Stream(ts)
    ensures i <= r.end && (r.result.Ok? ==> Rem(ts, r.end) < Rem(ts, i))
    decreases Rem(ts, i), 18
  {
    var kw :- EatAt(ts, i, While);
    var condition :- ExpressionAt(Vypr, ts, kw.next);
    var body :- StrictSuiteAt(ts, condition.next);
    Parsed(Ok(WhileLoop(condition.value, body.value)), body.next)
  }

  /** COLON NEWLINE INDENT, statements up to DEDENT/EOF, DEDENT: every layout token required. */
  function StrictSuiteAt(ts: seq<Token>, i: nat): (r: Parsed<seq<Stmt>>)
    requires Stream(ts)
    ensures i <= r.end && (r.result.Ok? ==> Rem(ts, r.end) < Rem(ts, i))
    decreases Rem(ts, i), 28
  {
    var colon :- EatAt(ts, i, Colon);
    var newline :- EatAt(ts, colon.next, Newline);
    var indent :- EatAt(ts, newline.next, Indent);
    var body :- BlockFrom(ts, indent.next, {Dedent, Eof}, {}, []);
    var dedent :- EatAt(ts, body.next, Dedent);
    Parsed(Ok(body.value), dedent.next)
  }

  /** Where a times loop body stops. */
  const LoopBodyEnds: set<TokenKind> := {Dedent, Eof, Var, Func}

  function TimesLoopAt(ts: seq<Token>, i: nat): (r: Parsed<Stmt>)
    requires Stream(ts)
    ensures i <= r.end && (r.result.Ok? ==> Rem(ts, r.end) < Rem(ts, i))
    decreases Rem(ts, i), 18
  {
    var kw :- EatAt(ts, i, Loop);
    var count :- ExpressionAt(Vypr, ts, kw.next);
    var times :- EatAt(ts, count.next, Times);
    var body :- TimesSuiteAt(ts, times.next);
    Parsed(Ok(TimesLoop(count.value, body.value)), body.next)
  }

  /**
   * COLON NEWLINE, an optional INDENT, statements up to DEDENT/EOF/VAR/FUNC with INDENT and
   * NEWLINE stepped over, and a DEDENT eaten when one comes next.
   */
  function TimesSuiteAt(ts: seq<Token>, i: nat): (r: Parsed<seq<Stmt>>)
    requires Stream(ts)
    ensures i <= r.end && (r.result.Ok? ==> Rem(ts, r.end) < Rem(ts, i))
    decreases Rem(ts, i), 28
  {
    var colon :- EatAt(ts, i, Colon);
    var newline :- EatAt(ts, colon.next, Newline);
    TimesBodyAt(ts, newline.next)
  }

  /** What follows the COLON NEWLINE of a times loop. */
  function TimesBodyAt(ts: seq<Token>, i: nat): (r: Parsed<seq<Stmt>>)
    requires Stream(ts)
    ensures i <= r.end
    decreases Rem(ts, i), 26
  {
    var body :- BlockFrom(ts, OptionalAt(ts, i, Indent), LoopBodyEnds, {Indent, Newline}, []);
    Parsed(Ok(body.value), OptionalAt(ts, body.next, Dedent))
  }

  function ForLoopAt(ts: seq<Token>, i: nat): (r: Parsed<Stmt>)
    requires Stream(ts)
    ensures i <= r.end && (r.result.Ok? ==> Rem(ts, r.end) < Rem(ts, i))
    decreases Rem(ts, i), 18
  {
    var kw :- EatAt(ts, i, Loop);
    var variable :- EatAt(ts, kw.next, TokenKind.Identifier);
    var inKw :- EatAt(ts, variable.next, In);
    var iterable :- ExpressionAt(Vypr, ts, inKw.next);
    var body :- ForSuiteAt(ts, iterable.next);
    Parsed(Ok(ForLoop(TextOf(variable.value.value), iterable.value, body.value)), body.next)
  }

  /** COLON NEWLINE and the for-loop body. */
  function ForSuiteAt(ts: seq<Token>, i: nat): (r: Parsed<seq<Stmt>>)
    requires Stream(ts)
    ensures i <= r.end && (r.result.Ok? ==> Rem(ts, r.end) < Rem(ts, i))
    decreases Rem(ts, i), 28
  {
    var colon :- EatAt(ts, i, Colon);
    var newline :- EatAt(ts, colon.next, Newline);
    ForBodyAt(ts, newline.next)
  }

  /** An optional INDENT, the body statements, and a DEDENT eaten when one comes next. */
  function ForBodyAt(ts: seq<Token>, i: nat): (r: Parsed<seq<Stmt>>)
    requires Stream(ts)
    ensures i <= r.end
    decreases Rem(ts, i), 26
  {
    var body :- ForBodyFrom(ts, OptionalAt(ts, i, Indent), Cur(ts, i).kind == Indent, []);
    Parsed(Ok(body.value), OptionalAt(ts, body.next, Dedent))
  }

  /**
   * The for-body loop with the statements `acc` already parsed: it stops at DEDENT/EOF, steps
   * over NEWLINE and, in an indented body, stops at a PRINT in column 4 or less; the NEWLINEs
   * after each statement are skipped.
   */
  function ForBodyFrom(ts: seq<Token>, i: nat, indented: bool, acc: seq<Stmt>): (r: Parsed<seq<Stmt>>)
    requires Stream(ts)
    ensures i <= r.end
    decreases Rem(ts, i), 25
  {
    var t := Cur(ts, i);
    if t.kind in {Dedent, Eof} then Parsed(Ok(acc), i)
    else if t.kind == Newline then ForBodyFrom(ts, i + 1, indented, acc)
    else if indented && t.kind == Print && t.column <= 4 then Parsed(Ok(acc), i)
    else
      var s :- StatementAt(ts, i);
      ForBodyFrom(ts, SkipNewlinesAt(ts, s.next), indented, acc + [s.value])
  }

  /** The parameter list: empty, or IDENTIFIER (COMMA IDENTIFIER)*. */
  function ParametersAt(ts: seq<Token>, i: nat): (r: Parsed<seq<string>>)
    requires Stream(ts)
    ensures i <= r.end
  {
    if Cur(ts, i).kind == TokenKind.Identifier then ParametersFrom(ts, i + 1, [TextOf(Cur(ts, i).value)])
    else Parsed(Ok([]), i)
  }

  function ParametersFrom(ts: seq<Token>, i: nat, acc: seq<string>): (r: Parsed<seq<string>>)
    requires Stream(ts)
    ensures i <= r.end
    decreases Rem(ts, i)
  {
    if Cur(ts, i).kind == Comma then
      var name :- EatAt(ts, i + 1, TokenKind.Identifier);
      ParametersFrom(ts, name.next, acc + [TextOf(name.value.value)])
    else Parsed(Ok(acc), i)
  }

  /** Statements that end a function body when they come up next. */
  const TopLevel: set<TokenKind> := {Dedent, Func, Eof}

  function FunctionDeclarationAt(ts: seq<Token>, i: nat): (r: Parsed<Stmt>)
    requires Stream(ts)
    ensures i <= r.end && (r.result.Ok? ==> Rem(ts, r.end) < Rem(ts, i))
    decreases Rem(ts, i), 18
  {
    var header :- FunctionHeaderAt(ts, i);
    var body :- FunctionSuiteAt(ts, header.next);
    Parsed(Ok(FunctionDeclaration(header.value.0, header.value.1, body.value)), body.next)
  }

  /** FUNC IDENTIFIER LPAREN parameters RPAREN: the function's name and its parameter names. */
  function FunctionHeaderAt(ts: seq<Token>, i: nat): (r: Parsed<(string, seq<string>)>)
    requires Stream(ts)
    ensures i <= r.end && (r.result.Ok? ==> Rem(ts, r.end) < Rem(ts, i))
  {
    var kw :- EatAt(ts, i, Func);
    var name :- EatAt(ts, kw.next, TokenKind.Identifier);
    var lparen :- EatAt(ts, name.next, LParen);
    var parameters :- ParametersAt(ts, lparen.next);
    var rparen :- EatAt(ts, parameters.next, RParen);
    Parsed(Ok((TextOf(name.value.value), parameters.value)), rparen.next)
  }

  /**
   * COLON NEWLINE, an optional INDENT, the body, and its closing DEDENT eaten only when an
   * INDENT opened it.
   */
  function FunctionSuiteAt(ts: seq<Token>, i: nat): (r: Parsed<seq<Stmt>>)
    requires Stream(ts)
    ensures i <= r.end && (r.result.Ok? ==> Rem(ts, r.end) < Rem(ts, i))
    decreases Rem(ts, i), 28
  {
    var colon :- EatAt(ts, i, Colon);
    var newline :- EatAt(ts, colon.next, Newline);
    FunctionBlockAt(ts, newline.next)
  }

  /** What follows the COLON NEWLINE of a function declaration. */
  function FunctionBlockAt(ts: seq<Token>, i: nat): (r: Parsed<seq<Stmt>>)
    requires Stream(ts)
    ensures i <= r.end && r.result.Ok?
    decreases Rem(ts, i), 27
  {
    var body := FunctionBodyFrom(ts, OptionalAt(ts, i, Indent), []);
    Parsed(Ok(body.result.value), if Cur(ts, i).kind == Indent then OptionalAt(ts, body.end, Dedent) else body.end)
  }

  /**
   * The function-body loop with the statements `acc` already parsed: it stops at
   * DEDENT/FUNC/EOF or right after a return statement and steps over INDENT and NEWLINE. A
   * statement that fails is dropped: the cursor moves one token past where the error was
   * raised, and the loop ends there if that is past the last token. The body never fails.
   */
  function FunctionBodyFrom(ts: seq<Token>, i: nat, acc: seq<Stmt>): (r: Parsed<seq<Stmt>>)
    requires Stream(ts)
    ensures i <= r.end && r.result.Ok?
    decreases Rem(ts, i), 26
  {
    if Cur(ts, i).kind in TopLevel then Parsed(Ok(acc), i)
    else if Cur(ts, i).kind in {Indent, Newline} then FunctionBodyFrom(ts, i + 1, acc)
    else
      var s := StatementAt(ts, i);
      if s.result.Ok? then
        if s.result.value.ReturnStatement? then Parsed(Ok(acc + [s.result.value]), s.end)
        else FunctionBodyFrom(ts, s.end, acc + [s.result.value])
      else if s.end + 1 < |ts| then FunctionBodyFrom(ts, s.end + 1, acc)
      else Parsed(Ok(acc), s.end + 1)
  }

  function ReturnAt(ts: seq<Token>, i: nat): (r: Parsed<Stmt>)
    requires Stream(ts)
    ensures i <= r.end && (r.result.Ok? ==> Rem(ts, r.end) < Rem(ts, i))
    decreases Rem(ts, i), 18
  {
    var kw :- EatAt(ts, i, Return);
    var value :-
      if Cur(ts, kw.next).kind in {Newline, Eof} then Parsed(Ok(None), kw.next)
      else
        var e :- ExpressionAt(Vypr, ts, kw.next);
        Parsed(Ok(Some(e.value)), e.next);
    var end :- NewlineOrEofAt(ts, value.next);
    Parsed(Ok(ReturnStatement(value.value)), end.next)
  }

  function PrintAt(ts: seq<Token>, i: nat): (r: Parsed<Stmt>)
    requires Stream(ts)
    ensures i <= r.end && (r.result.Ok? ==> Rem(ts, r.end) < Rem(ts, i))
    decreases Rem(ts, i), 18
  {
    var kw :- EatAt(ts, i, Print);
    var expression :- ExpressionAt(Vypr, ts, kw.next);
    var end :- PrintEndAt(ts, expression.next);
    Parsed(Ok(PrintStatement(expression.value)), end.next)
  }

  /** After a print statement: a NEWLINE is consumed, a DEDENT or EOF is left for the caller. */
  function PrintEndAt(ts: seq<Token>, i: nat): (r: Parsed<()>)
    requires Stream(ts)
    ensures i <= r.end
  {
    var k := Cur(ts, i).kind;
    if k == Newline then Parsed(Ok(()), i + 1)
    else if k == Dedent || k == Eof then Parsed(Ok(()), i)
    else Parsed(Err(FailAt(ts, i, ExpectedStatementEnd(k))), i)
  }

  function InputAt(ts: seq<Token>, i: nat): (r: Parsed<Stmt>)
    requires Stream(ts)
    ensures i <= r.end && (r.result.Ok? ==> Rem(ts, r.end) < Rem(ts, i))
    decreases Rem(ts, i), 18
  {
    var kw :- EatAt(ts, i, Input);
    var variable :- EatAt(ts, kw.next, TokenKind.Identifier);
    var end :- NewlineOrEofAt(ts, variable.next);
    Parsed(Ok(InputStatement(TextOf(variable.value.value))), end.next)
  }

  function ExpressionStatementAt(ts: seq<Token>, i: nat): (r: Parsed<Stmt>)
    requires Stream(ts)
    ensures i <= r.end && (r.result.Ok? ==> Rem(ts, r.end) < Rem(ts, i))
    decreases Rem(ts, i), 18
  {
    var expression :- ExpressionAt(Vypr, ts, SkipNewlinesAt(ts, i));
    var end :- NewlineOrEofAt(ts, expression.next);
    Parsed(Ok(ExpressionStatement(expression.value)), end.next)
  }
}
