/**
 * The statement grammar parser.py recognises, one function per production: what the
 * production returns from a position of the token list and where it leaves the cursor, an
 * error included (expressions are in ExprGrammar, in the root dialect). The methods of
 * RootParser are proved to compute exactly these; the layout rules are lemmas in
 * RootGrammarFacts.
 *
 * The second component of each `decreases` ranks productions that call each other without
 * consuming a token in between, as in RootParser.
 */
module RootGrammar {
  import opened Wrappers
  import opened Tokens
  import opened Ast
  import opened ParserBase
  import opened ExprGrammar

  /** `program`: the statement list from position i. */
  function ProgramAt(ts: seq<Token>, i: nat): (r: Parsed<Program>)
    requires Stream(ts)
    ensures i <= r.end
    ensures r.result.Ok? ==> Cur(ts, r.end).kind in {Eof, Dedent}
    decreases Rem(ts, i), 30
  {
    var statements :- StatementListAt(ts, i);
    Parsed(Ok(Program(statements.value)), statements.next)
  }

  /** `statement_list`: NEWLINEs skipped, then statements up to EOF or a DEDENT. */
  function StatementListAt(ts: seq<Token>, i: nat): (r: Parsed<seq<Stmt>>)
    requires Stream(ts)
    ensures i <= r.end
    ensures r.result.Ok? ==> Cur(ts, r.end).kind in {Eof, Dedent}
    decreases Rem(ts, i), 29
  {
    StatementsFrom(ts, SkipNewlinesAt(ts, i), [])
  }

  /** The statement-list loop with the statements `acc` already parsed. */
  function StatementsFrom(ts: seq<Token>, i: nat, acc: seq<Stmt>): (r: Parsed<seq<Stmt>>)
    requires Stream(ts)
    ensures i <= r.end
    ensures r.result.Ok? ==> Cur(ts, r.end).kind in {Eof, Dedent}
    decreases Rem(ts, i), 28
  {
    if Cur(ts, i).kind in {Eof, Dedent} then Parsed(Ok(acc), i)
    else
      var s :- StatementAt(ts, i);
      StatementsFrom(ts, SkipNewlinesAt(ts, s.next), acc + [s.value])
  }

  /** `statement`: chosen by the current kind (and, for an identifier, the next one). */
  function StatementAt(ts: seq<Token>, i: nat): (r: Parsed<Stmt>)
    requires Stream(ts)
    ensures i <= r.end && (r.result.Ok? ==> Rem(ts, r.end) < Rem(ts, i))
    decreases Rem(ts, i), 20
  {
    match Cur(ts, i).kind
    case Var => VarDeclarationAt(ts, i)
    case If => IfAt(ts, i)
    case Loop => LoopAt(ts, i)
    case Func => FunctionDeclarationAt(ts, i)
    case Return => ReturnAt(ts, i)
    case Print => PrintAt(ts, i)
    case Input => InputAt(ts, i)
    case Identifier => IdentifierStatementAt(ts, i)
    case Dedent => StatementAt(ts, i + 1)
    case _ => Parsed(Err(FailAt(ts, i, UnexpectedStatement(Cur(ts, i).kind))), i)
  }

  /** A statement that starts with an identifier: an assignment when ASSIGN follows, else an expression statement. */
  function IdentifierStatementAt(ts: seq<Token>, i: nat): (r: Parsed<Stmt>)
    requires Stream(ts)
    ensures i <= r.end && (r.result.Ok? ==> Rem(ts, r.end) < Rem(ts, i))
    decreases Rem(ts, i), 19
  {
    if Cur(ts, i + 1).kind == Assign then AssignmentAt(ts, i) else ExpressionStatementAt(ts, i)
  }

  /** `eat_newline_or_eof`: a NEWLINE or a DEDENT is consumed, EOF is accepted where it stands. */
  function NewlineOrEofAt(ts: seq<Token>, i: nat): (r: Parsed<()>)
    requires Stream(ts)
    ensures i <= r.end
  {
    var k := Cur(ts, i).kind;
    if k == Newline || k == Dedent then Parsed(Ok(()), i + 1)
    else if k == Eof then Parsed(Ok(()), i)
    else Parsed(Err(FailAt(ts, i, ExpectedStatementEnd(k))), i)
  }

  function VarDeclarationAt(ts: seq<Token>, i: nat): (r: Parsed<Stmt>)
    requires Stream(ts)
    ensures i <= r.end && (r.result.Ok? ==> Rem(ts, r.end) < Rem(ts, i))
    decreases Rem(ts, i), 18
  {
    var kw :- EatAt(ts, i, Var);
    var name :- EatAt(ts, kw.next, TokenKind.Identifier);
    var init :-
      if Cur(ts, name.next).kind == Assign then
        var e :- ExpressionAt(Root, ts, name.next + 1);
        Parsed(Ok(Some(e.value)), e.next)
      else Parsed(Ok(None), name.next);
    var end :- NewlineOrEofAt(ts, init.next);
    Parsed(Ok(VarDeclaration(TextOf(name.value.value), init.value)), end.next)
  }

  function AssignmentAt(ts: seq<Token>, i: nat): (r: Parsed<Stmt>)
    requires Stream(ts)
    ensures i <= r.end && (r.result.Ok? ==> Rem(ts, r.end) < Rem(ts, i))
    decreases Rem(ts, i), 18
  {
    var variable :- EatAt(ts, i, TokenKind.Identifier);
    var assign :- EatAt(ts, variable.next, Assign);
    var value :- ExpressionAt(Root, ts, assign.next);
    var end :- NewlineOrEofAt(ts, value.next);
    Parsed(Ok(Assignment(TextOf(variable.value.value), value.value)), end.next)
  }

  /**
   * The statement loop of a block with the statements `acc` already parsed: it stops at a
   * kind of `ends` and steps over a kind of `skips`.
   */
  function BlockFrom(ts: seq<Token>, i: nat, ends: set<TokenKind>, skips: set<TokenKind>, acc: seq<Stmt>): (r: Parsed<seq<Stmt>>)
    requires Stream(ts) && Eof in ends
    ensures i <= r.end
    ensures r.result.Ok? ==> Cur(ts, r.end).kind in ends
    decreases Rem(ts, i), 25
  {
    if Cur(ts, i).kind in ends then Parsed(Ok(acc), i)
    else if Cur(ts, i).kind in skips then BlockFrom(ts, i + 1, ends, skips, acc)
    else
      var s :- StatementAt(ts, i);
      BlockFrom(ts, s.next, ends, skips, acc + [s.value])
  }

  /** `if_statement`: every layout token of both branches is required. */
  function IfAt(ts: seq<Token>, i: nat): (r: Parsed<Stmt>)
    requires Stream(ts)
    ensures i <= r.end && (r.result.Ok? ==> Rem(ts, r.end) < Rem(ts, i))
    decreases Rem(ts, i), 18
  {
    var kw :- EatAt(ts, i, If);
    var condition :- ExpressionAt(Root, ts, kw.next);
    var body :- StrictSuiteAt(ts, condition.next);
    var elseBody :- ElseAt(ts, body.next);
    Parsed(Ok(IfStatement(condition.value, body.value, elseBody.value)), elseBody.next)
  }

  /** COLON NEWLINE INDENT, statements up to DEDENT/EOF, DEDENT: every layout token required. */
  function StrictSuiteAt(ts: seq<Token>, i: nat): (r: Parsed<seq<Stmt>>)
    requires Stream(ts)
    ensures i <= r.end && (r.result.Ok? ==> Rem(ts, r.end) < Rem(ts, i))
    decreases Rem(ts, i), 28
  {
    var colon :- EatAt(ts, i, Colon);
    var newline :- EatAt(ts, colon.next, Newline);
    var indent :- EatAt(ts, newline.next, Indent);
    var body :- BlockFrom(ts, indent.next, {Dedent, Eof}, {}, []);
    var dedent :- EatAt(ts, body.next, Dedent);
    Parsed(Ok(body.value), dedent.next)
  }

  function ElseAt(ts: seq<Token>, i: nat): (r: Parsed<ElseClause>)
    requires Stream(ts)
    ensures i <= r.end
    decreases Rem(ts, i), 26
  {
    if Cur(ts, i).kind != Else then Parsed(Ok(NoElse), i)
    else
      var body :- StrictSuiteAt(ts, i + 1);
      Parsed(Ok(ElseBlock(body.value)), body.next)
  }

  /** `loop_statement`: dispatched on two tokens of lookahead, or a strict WHILE loop. */
  function LoopAt(ts: seq<Token>, i: nat): (r: Parsed<Stmt>)
    requires Stream(ts)
    ensures i <= r.end && (r.result.Ok? ==> Rem(ts, r.end) < Rem(ts, i))
    decreases Rem(ts, i), 19
  {
    match LoopDispatch(Cur(ts, i).kind, KindAhead(ts, i, 1), KindAhead(ts, i, 2))
    case ForForm => ForLoopAt(ts, i)
    case TimesForm => TimesLoopAt(ts, i)
    case MissingLookahead => Parsed(Err(FailAt(ts, i, NoLookahead)), i)
    case InvalidForm => Parsed(Err(FailAt(ts, i, InvalidLoop)), i)
    case WhileForm => WhileLoopAt(ts, i)
  }

  /** WHILE expression and a strict suite. */
  function WhileLoopAt(ts: seq<Token>, i: nat): (r: Parsed<Stmt>)
    requires Stream(ts)
    ensures i <= r.end && (r.result.Ok? ==> Rem(ts, r.end) < Rem(ts, i))
    decreases Rem(ts, i), 18
  {
    var kw :- EatAt(ts, i, While);
    var condition :- ExpressionAt(Root, ts, kw.next);
    var body :- StrictSuiteAt(ts, condition.next);
    Parsed(Ok(WhileLoop(condition.value, body.value)), body.next)
  }

  /** Where a times or for loop body stops. */
  const LoopBodyEnds: set<TokenKind> := {Dedent, Eof, Var, Func}

  function TimesLoopAt(ts: seq<Token>, i: nat): (r: Parsed<Stmt>)
    requires Stream(ts)
    ensures i <= r.end && (r.result.Ok? ==> Rem(ts, r.end) < Rem(ts, i))
    decreases Rem(ts, i), 18
  {
    var kw :- EatAt(ts, i, Loop);
    var count :- ExpressionAt(Root, ts, kw.next);
    var times :- EatAt(ts, count.next, Times);
    var body :- LoopSuiteAt(ts, times.next);
    Parsed(Ok(TimesLoop(count.value, body.value)), body.next)
  }

  /**
   * COLON NEWLINE, an optional INDENT, statements up to DEDENT/EOF/VAR/FUNC with INDENT and
   * NEWLINE stepped over, and a DEDENT eaten when one comes next.
   */
  function LoopSuiteAt(ts: seq<Token>, i: nat): (r: Parsed<seq<Stmt>>)
    requires Stream(ts)
    ensures i <= r.end && (r.result.Ok? ==> Rem(ts, r.end) < Rem(ts, i))
    decreases Rem(ts, i), 28
  {
    var colon :- EatAt(ts, i, Colon);
    var newline :- EatAt(ts, colon.next, Newline);
    LoopBodyAt(ts, newline.next)
  }

  /** What follows the COLON NEWLINE of a times or for loop. */
  function LoopBodyAt(ts: seq<Token>, i: nat): (r: Parsed<seq<Stmt>>)
    requires Stream(ts)
    ensures i <= r.end
    decreases Rem(ts, i), 26
  {
    var body :- BlockFrom(ts, OptionalAt(ts, i, Indent), LoopBodyEnds, {Indent, Newline}, []);
    Parsed(Ok(body.value), OptionalAt(ts, body.next, Dedent))
  }

  function ForLoopAt(ts: seq<Token>, i: nat): (r: Parsed<Stmt>)
    requires Stream(ts)
    ensures i <= r.end && (r.result.Ok? ==> Rem(ts, r.end) < Rem(ts, i))
    decreases Rem(ts, i), 18
  {
    var kw :- EatAt(ts, i, Loop);
    var variable :- EatAt(ts, kw.next, TokenKind.Identifier);
    var inKw :- EatAt(ts, variable.next, In);
    var iterable :- ExpressionAt(Root, ts, inKw.next);
    var body :- LoopSuiteAt(ts, iterable.next);
    Parsed(Ok(ForLoop(TextOf(variable.value.value), iterable.value, body.value)), body.next)
  }

  /** The parameter list: empty, or IDENTIFIER (COMMA IDENTIFIER)*. */
  function ParametersAt(ts: seq<Token>, i: nat): (r: Parsed<seq<string>>)
    requires Stream(ts)
    ensures i <= r.end
  {
    if Cur(ts, i).kind == TokenKind.Identifier then ParametersFrom(ts, i + 1, [TextOf(Cur(ts, i).value)])
    else Parsed(Ok([]), i)
  }

  function ParametersFrom(ts: seq<Token>, i: nat, acc: seq<string>): (r: Parsed<seq<string>>)
    requires Stream(ts)
    ensures i <= r.end
    decreases Rem(ts, i)
  {
    if Cur(ts, i).kind == Comma then
      var name :- EatAt(ts, i + 1, TokenKind.Identifier);
      ParametersFrom(ts, name.next, acc + [TextOf(name.value.value)])
    else Parsed(Ok(acc), i)
  }

  /** Statements that end a function body when they come up next. */
  const TopLevel: set<TokenKind> := {Dedent, Func, Eof}

  function FunctionDeclarationAt(ts: seq<Token>, i: nat): (r: Parsed<Stmt>)
    requires Stream(ts)
    ensures i <= r.end && (r.result.Ok? ==> Rem(ts, r.end) < Rem(ts, i))
    decreases Rem(ts, i), 18
  {
    var header :- FunctionHeaderAt(ts, i);
    var body :- FunctionSuiteAt(ts, header.next);
    Parsed(Ok(FunctionDeclaration(header.value.0, header.value.1, body.value)), body.next)
  }

  /** FUNC IDENTIFIER LPAREN parameters RPAREN: the function's name and its parameter names. */
  function FunctionHeaderAt(ts: seq<Token>, i: nat): (r: Parsed<(string, seq<string>)>)
    requires Stream(ts)
    ensures i <= r.end && (r.result.Ok? ==> Rem(ts, r.end) < Rem(ts, i))
  {
    var kw :- EatAt(ts, i, Func);
    var name :- EatAt(ts, kw.next, TokenKind.Identifier);
    var lparen :- EatAt(ts, name.next, LParen);
    var parameters :- ParametersAt(ts, lparen.next);
    var rparen :- EatAt(ts, parameters.next, RParen);
    Parsed(Ok((TextOf(name.value.value), parameters.value)), rparen.next)
  }

  /**
   * COLON NEWLINE, an optional INDENT, the body, and its closing DEDENT eaten only when an
   * INDENT opened it.
   */
  function FunctionSuiteAt(ts: seq<Token>, i: nat): (r: Parsed<seq<Stmt>>)
    requires Stream(ts)
    ensures i <= r.end && (r.result.Ok? ==> Rem(ts, r.end) < Rem(ts, i))
    decreases Rem(ts, i), 28
  {
    var colon :- EatAt(ts, i, Colon);
    var newline :- EatAt(ts, colon.next, Newline);
    FunctionBlockAt(ts, newline.next)
  }

  /** What follows the COLON NEWLINE of a function declaration. */
  function FunctionBlockAt(ts: seq<Token>, i: nat): (r: Parsed<seq<Stmt>>)
    requires Stream(ts)
    ensures i <= r.end
    decreases Rem(ts, i), 27
  {
    var body :- FunctionBodyFrom(ts, OptionalAt(ts, i, Indent), []);
    Parsed(Ok(body.value), if Cur(ts, i).kind == Indent then OptionalAt(ts, body.next, Dedent) else body.next)
  }

  /**
   * The function-body loop with the statements `acc` already parsed: it stops at
   * DEDENT/FUNC/EOF or right after a return statement, steps over INDENT and NEWLINE, and
   * fails with the first statement that fails.
   */
  function FunctionBodyFrom(ts: seq<Token>, i: nat, acc: seq<Stmt>): (r: Parsed<seq<Stmt>>)
    requires Stream(ts)
    ensures i <= r.end
    decreases Rem(ts, i), 26
  {
    if Cur(ts, i).kind in TopLevel then Parsed(Ok(acc), i)
    else if Cur(ts, i).kind in {Indent, Newline} then FunctionBodyFrom(ts, i + 1, acc)
    else
      var s :- StatementAt(ts, i);
      if s.value.ReturnStatement? then Parsed(Ok(acc + [s.value]), s.next)
      else FunctionBodyFrom(ts, s.next, acc + [s.value])
  }

  function ReturnAt(ts: seq<Token>, i: nat): (r: Parsed<Stmt>)
    requires Stream(ts)
    ensures i <= r.end && (r.result.Ok? ==> Rem(ts, r.end) < Rem(ts, i))
    decreases Rem(ts, i), 18
  {
    var kw :- EatAt(ts, i, Return);
    var value :-
      if Cur(ts, kw.next).kind in {Newline, Eof} then Parsed(Ok(None), kw.next)
      else
        var e :- ExpressionAt(Root, ts, kw.next);
        Parsed(Ok(Some(e.value)), e.next);
    var end :- NewlineOrEofAt(ts, value.next);
    Parsed(Ok(ReturnStatement(value.value)), end.next)
  }

  function PrintAt(ts: seq<Token>, i: nat): (r: Parsed<Stmt>)
    requires Stream(ts)
    ensures i <= r.end && (r.result.Ok? ==> Rem(ts, r.end) < Rem(ts, i))
    decreases Rem(ts, i), 18
  {
    var kw :- EatAt(ts, i, Print);
    var expression :- ExpressionAt(Root, ts, kw.next);
    var end :- NewlineOrEofAt(ts, expression.next);
    Parsed(Ok(PrintStatement(expression.value)), end.next)
  }

  function InputAt(ts: seq<Token>, i: nat): (r: Parsed<Stmt>)
    requires Stream(ts)
    ensures i <= r.end && (r.result.Ok? ==> Rem(ts, r.end) < Rem(ts, i))
    decreases Rem(ts, i), 18
  {
    var kw :- EatAt(ts, i, Input);
    var variable :- EatAt(ts, kw.next, TokenKind.Identifier);
    var end :- NewlineOrEofAt(ts, variable.next);
    Parsed(Ok(InputStatement(TextOf(variable.value.value))), end.next)
  }

  function ExpressionStatementAt(ts: seq<Token>, i: nat): (r: Parsed<Stmt>)
    requires Stream(ts)
    ensures i <= r.end && (r.result.Ok? ==> Rem(ts, r.end) < Rem(ts, i))
    decreases Rem(ts, i), 18
  {
    var expression :- ExpressionAt(Root, ts, SkipNewlinesAt(ts, i));
    var end :- NewlineOrEofAt(ts, expression.next);
    Parsed(Ok(ExpressionStatement(expression.value)), end.next)
  }
}
