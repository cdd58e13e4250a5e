/**
 * The recursive-descent parser of src/vypr/parser.py, one method per production over the
 * shared token cursor; each is proved to compute its VyprGrammar function exactly, the error
 * it raises and the position it raises it at included (the function-body recovery depends
 * on that position).
 *
 * The second component of each `decreases` ranks productions that call each other without
 * consuming a token in between.
 */
module VyprParser {
  import opened Wrappers
  import opened Tokens
  import opened Ast
  import opened ParserBase
  import opened ExprGrammar
  import opened VyprGrammar

  /** `parse`/`program`: the statement list of the whole token stream. */
  method Parse(tokens: seq<Token>) returns (r: Result<Program, ParseError>)
    requires Stream(tokens)
    ensures r == ProgramAt(tokens, 0).result
  {
    var p := new Cursor(tokens);
    r := ParseProgram(p);
  }

  method ParseProgram(p: Cursor) returns (r: Result<Program, ParseError>)
    requires p.Valid()
    modifies p
    ensures Parsed(r, p.pos) == ProgramAt(p.tokens, old(p.pos))
    ensures p.Valid()
    decreases p.Remaining(), 30
  {
    var statements :- StatementList(p);
    r := Ok(Program(statements));
  }

  /** `statement_list`: statements until EOF or a DEDENT, neither of which it consumes. */
  method StatementList(p: Cursor) returns (r: Result<seq<Stmt>, ParseError>)
    requires p.Valid()
    modifies p
    ensures Parsed(r, p.pos) == StatementListAt(p.tokens, old(p.pos))
    ensures p.Valid()
    decreases p.Remaining(), 29
  {
    p.SkipNewlines();
    var statements := [];
    while p.current.kind != Eof
      invariant p.Valid() && p.pos >= old(p.pos)
      invariant StatementsFrom(p.tokens, p.pos, statements) == StatementListAt(p.tokens, old(p.pos))
      decreases p.Remaining()
    {
      if p.current.kind == Dedent {
        break;
      }
      var s :- Statement(p);
      statements := statements + [s];
      p.SkipNewlines();
    }
    r := Ok(statements);
  }

  method Statement(p: Cursor) returns (r: Result<Stmt, ParseError>)
    requires p.Valid()
    modifies p
    ensures Parsed(r, p.pos) == StatementAt(p.tokens, old(p.pos))
    ensures p.Valid()
    decreases p.Remaining(), 20
  {
    match p.current.kind
    case Var => r := ParseVarDeclaration(p);
    case If => r := ParseIf(p);
    case Loop => r := ParseLoop(p);
    case Func => r := ParseFunctionDeclaration(p);
    case Return => r := ParseReturn(p);
    case Print => r := ParsePrint(p);
    case Input => r := ParseInput(p);
    case Identifier => r := ParseIdentifierStatement(p);
    case Dedent =>
      var _ := p.Eat(Dedent);
      r := Statement(p);
    case _ =>
      r := Err(p.Fail(UnexpectedStatement(p.current.kind)));
  }

  /** An identifier starts an assignment when ASSIGN follows it, an expression statement otherwise. */
  method ParseIdentifierStatement(p: Cursor) returns (r: Result<Stmt, ParseError>)
    requires p.Valid() && p.current.kind == TokenKind.Identifier
    modifies p
    ensures Parsed(r, p.pos) == IdentifierStatementAt(p.tokens, old(p.pos))
    ensures p.Valid()
    decreases p.Remaining(), 19
  {
    if p.Lookahead().kind == Assign {
      r := ParseAssignment(p);
    } else {
      r := ParseExpressionStatement(p);
    }
  }

  /** `eat_newline_or_eof`: a NEWLINE is consumed, EOF is accepted where it stands. */
  method EatNewlineOrEof(p: Cursor) returns (r: Result<(), ParseError>)
    requires p.Valid()
    modifies p
    ensures Parsed(r, p.pos) == NewlineOrEofAt(p.tokens, old(p.pos))
    ensures p.Valid()
  {
    if p.current.kind == Newline {
      var _ := p.Eat(Newline);
      r := Ok(());
    } else if p.current.kind == Eof {
      r := Ok(());
    } else {
      r := Err(p.Fail(ExpectedStatementEnd(p.current.kind)));
    }
  }

  /** `var_declaration`: VAR IDENTIFIER (ASSIGN expression)? and a statement end. */
  method ParseVarDeclaration(p: Cursor) returns (r: Result<Stmt, ParseError>)
    requires p.Valid()
    modifies p
    ensures Parsed(r, p.pos) == VarDeclarationAt(p.tokens, old(p.pos))
    ensures p.Valid()
    decreases p.Remaining(), 18
  {
    var _ :- p.Eat(Var);
    var name := p.current;
    var _ :- p.Eat(TokenKind.Identifier);
    var initialValue := None;
    if p.current.kind == Assign {
      var _ := p.Eat(Assign);
      var e :- ParseExpression(p);
      initialValue := Some(e);
    }
    var _ :- EatNewlineOrEof(p);
    r := Ok(VarDeclaration(TextOf(name.value), initialValue));
  }

  /** `assignment`: IDENTIFIER ASSIGN expression and a statement end. */
  method ParseAssignment(p: Cursor) returns (r: Result<Stmt, ParseError>)
    requires p.Valid()
    modifies p
    ensures Parsed(r, p.pos) == AssignmentAt(p.tokens, old(p.pos))
    ensures p.Valid()
    decreases p.Remaining(), 18
  {
    var variable :- p.Eat(TokenKind.Identifier);
    var _ :- p.Eat(Assign);
    var value :- ParseExpression(p);
    var _ :- EatNewlineOrEof(p);
    r := Ok(Assignment(TextOf(variable.value), value));
  }

  /**
   * The statement loop shared by several block bodies: statements until the current kind is
   * in `ends`, eating any token of `skips` found between them.
   */
  method Block(p: Cursor, ends: set<TokenKind>, skips: set<TokenKind>) returns (r: Result<seq<Stmt>, ParseError>)
    requires p.Valid() && Eof in ends
    modifies p
    ensures Parsed(r, p.pos) == BlockFrom(p.tokens, old(p.pos), ends, skips, [])
    ensures p.Valid()
    decreases p.Remaining(), 25
  {
    var body := [];
    while p.current.kind !in ends
      invariant p.Valid() && p.pos >= old(p.pos)
      invariant BlockFrom(p.tokens, p.pos, ends, skips, body) == BlockFrom(p.tokens, old(p.pos), ends, skips, [])
      decreases p.Remaining()
    {
      if p.current.kind in skips {
        var _ := p.Eat(p.current.kind);
        continue;
      }
      var s :- Statement(p);
      body := body + [s];
    }
    r := Ok(body);
  }

  /**
   * `if_statement`: IF expression, the then-suite, and the else part. Both suites are
   * lenient: their INDENT is optional and their DEDENT is eaten only after an INDENT.
   */
  method ParseIf(p: Cursor) returns (r: Result<Stmt, ParseError>)
    requires p.Valid()
    modifies p
    ensures Parsed(r, p.pos) == IfAt(p.tokens, old(p.pos))
    ensures p.Valid()
    decreases p.Remaining(), 18
  {
    var _ :- p.Eat(If);
    var condition :- ParseExpression(p);
    var body :- ParseThenSuite(p);
    var elseBody :- ParseElse(p);
    r := Ok(IfStatement(condition, body, elseBody));
  }

  /**
   * The then-suite: COLON NEWLINE, an optional INDENT, statements up to DEDENT/EOF/ELSE with
   * INDENT and NEWLINE skipped, and a DEDENT eaten only after an INDENT.
   */
  method ParseThenSuite(p: Cursor) returns (r: Result<seq<Stmt>, ParseError>)
    requires p.Valid()
    modifies p
    ensures Parsed(r, p.pos) == ThenSuiteAt(p.tokens, old(p.pos))
    ensures p.Valid()
    decreases p.Remaining(), 28
  {
    var _ :- p.Eat(Colon);
    var _ :- p.Eat(Newline);
    r := ParseIndentedBlock(p, {Dedent, Eof, Else}, {Indent, Newline});
  }

  /** An optional INDENT, the block, and a DEDENT eaten only when the INDENT was there. */
  method ParseIndentedBlock(p: Cursor, ends: set<TokenKind>, skips: set<TokenKind>) returns (r: Result<seq<Stmt>, ParseError>)
    requires p.Valid() && Eof in ends
    modifies p
    ensures Parsed(r, p.pos) == IndentedBlockAt(p.tokens, old(p.pos), ends, skips)
    ensures p.Valid()
    decreases p.Remaining(), 26
  {
    var expectedIndent := false;
    if p.current.kind == Indent {
      var _ := p.Eat(Indent);
      expectedIndent := true;
    }
    var body :- Block(p, ends, skips);
    if p.current.kind == Dedent && expectedIndent {
      var _ := p.Eat(Dedent);
    }
    r := Ok(body);
  }

  /** The optional else part: ELSE COLON NEWLINE and the else body. */
  method ParseElse(p: Cursor) returns (r: Result<ElseClause, ParseError>)
    requires p.Valid()
    modifies p
    ensures Parsed(r, p.pos) == ElseAt(p.tokens, old(p.pos))
    ensures p.Valid()
    decreases p.Remaining(), 26
  {
    if p.current.kind != Else {
      return Ok(NoElse);
    }
    var _ := p.Eat(Else);
    var _ :- p.Eat(Colon);
    var _ :- p.Eat(Newline);
    var body :- ParseElseBody(p);
    r := Ok(ElseBlock(body));
  }

  /** An optional INDENT, the else statements, and a DEDENT eaten only when the INDENT was there. */
  method ParseElseBody(p: Cursor) returns (r: Result<seq<Stmt>, ParseError>)
    requires p.Valid()
    modifies p
    ensures Parsed(r, p.pos) == ElseBodyAt(p.tokens, old(p.pos))
    ensures p.Valid()
    decreases p.Remaining(), 27
  {
    var expectedElseIndent := false;
    if p.current.kind == Indent {
      var _ := p.Eat(Indent);
      expectedElseIndent := true;
    }
    var body :- ParseElseStatements(p);
    if p.current.kind == Dedent && expectedElseIndent {
      var _ := p.Eat(Dedent);
    }
    r := Ok(body);
  }

  /** A nested if statement alone when IF comes first, else statements up to DEDENT/EOF with NEWLINE skipped. */
  method ParseElseStatements(p: Cursor) returns (r: Result<seq<Stmt>, ParseError>)
    requires p.Valid()
    modifies p
    ensures Parsed(r, p.pos) == ElseStatementsAt(p.tokens, old(p.pos))
    ensures p.Valid()
    decreases p.Remaining(), 26
  {
    if p.current.kind == If {
      var nested :- ParseIf(p);
      r := Ok([nested]);
    } else {
      r := Block(p, {Dedent, Eof}, {Newline});
    }
  }

  /** The body layout of the while loop: COLON NEWLINE INDENT, statements up to DEDENT/EOF, DEDENT. */
  method ParseStrictSuite(p: Cursor) returns (r: Result<seq<Stmt>, ParseError>)
    requires p.Valid()
    modifies p
    ensures Parsed(r, p.pos) == StrictSuiteAt(p.tokens, old(p.pos))
    ensures p.Valid()
    decreases p.Remaining(), 28
  {
    var _ :- p.Eat(Colon);
    var _ :- p.Eat(Newline);
    var _ :- p.Eat(Indent);
    var body :- Block(p, {Dedent, Eof}, {});
    var _ :- p.Eat(Dedent);
    r := Ok(body);
  }

  /**
   * `loop_statement`: a for or times loop chosen by `LoopDispatch` on two tokens of
   * lookahead, or a strict WHILE loop (a branch `statement` never takes: it does not
   * dispatch WHILE).
   */
  method ParseLoop(p: Cursor) returns (r: Result<Stmt, ParseError>)
    requires p.Valid()
    modifies p
    ensures Parsed(r, p.pos) == LoopAt(p.tokens, old(p.pos))
    ensures p.Valid()
    decreases p.Remaining(), 19
  {
    match LoopDispatch(p.current.kind, p.PeekKind(1), p.PeekKind(2))
    case ForForm => r := ParseForLoop(p);
    case TimesForm => r := ParseTimesLoop(p);
    case MissingLookahead => r := Err(p.Fail(NoLookahead));
    case InvalidForm => r := Err(p.Fail(InvalidLoop));
    case WhileForm => r := ParseWhileLoop(p);
  }

  /** `while_loop`: WHILE expression COLON NEWLINE INDENT, statements, DEDENT. */
  method ParseWhileLoop(p: Cursor) returns (r: Result<Stmt, ParseError>)
    requires p.Valid()
    modifies p
    ensures Parsed(r, p.pos) == WhileLoopAt(p.tokens, old(p.pos))
    ensures p.Valid()
    decreases p.Remaining(), 18
  {
    var _ :- p.Eat(While);
    var condition :- ParseExpression(p);
    var body :- ParseStrictSuite(p);
    r := Ok(WhileLoop(condition, body));
  }

  /**
   * `times_loop`: LOOP expression TIMES COLON NEWLINE, an optional INDENT, statements up to
   * DEDENT/EOF/VAR/FUNC (INDENT and NEWLINE skipped), and a DEDENT eaten if present.
   */
  method ParseTimesLoop(p: Cursor) returns (r: Result<Stmt, ParseError>)
    requires p.Valid()
    modifies p
    ensures Parsed(r, p.pos) == TimesLoopAt(p.tokens, old(p.pos))
    ensures p.Valid()
    decreases p.Remaining(), 18
  {
    var _ :- p.Eat(Loop);
    var count :- ParseExpression(p);
    var _ :- p.Eat(Times);
    var body :- ParseTimesSuite(p);
    r := Ok(TimesLoop(count, body));
  }

  /**
   * The body layout of times loops: COLON NEWLINE, an optional INDENT, statements up
   * to DEDENT/EOF/VAR/FUNC (INDENT and NEWLINE skipped), and a DEDENT eaten if present.
   */
  method ParseTimesSuite(p: Cursor) returns (r: Result<seq<Stmt>, ParseError>)
    requires p.Valid()
    modifies p
    ensures Parsed(r, p.pos) == TimesSuiteAt(p.tokens, old(p.pos))
    ensures p.Valid()
    decreases p.Remaining(), 28
  {
    var _ :- p.Eat(Colon);
    var _ :- p.Eat(Newline);
    r := ParseTimesBody(p);
  }

  /** After COLON NEWLINE: an optional INDENT, the block, and a DEDENT eaten if present. */
  method ParseTimesBody(p: Cursor) returns (r: Result<seq<Stmt>, ParseError>)
    requires p.Valid()
    modifies p
    ensures Parsed(r, p.pos) == TimesBodyAt(p.tokens, old(p.pos))
    ensures p.Valid()
    decreases p.Remaining(), 26
  {
    if p.current.kind == Indent {
      var _ := p.Eat(Indent);
    }
    var body :- Block(p, LoopBodyEnds, {Indent, Newline});
    if p.current.kind == Dedent {
      var _ := p.Eat(Dedent);
    }
    r := Ok(body);
  }

  /**
   * `for_loop`: LOOP IDENTIFIER IN expression COLON NEWLINE, an optional INDENT, the body
   * statements, and a DEDENT eaten if present.
   */
  method ParseForLoop(p: Cursor) returns (r: Result<Stmt, ParseError>)
    requires p.Valid()
    modifies p
    ensures Parsed(r, p.pos) == ForLoopAt(p.tokens, old(p.pos))
    ensures p.Valid()
    decreases p.Remaining(), 18
  {
    var _ :- p.Eat(Loop);
    var variable :- p.Eat(TokenKind.Identifier);
    var _ :- p.Eat(In);
    var iterable :- ParseExpression(p);
    var body :- ParseForSuite(p);
    r := Ok(ForLoop(TextOf(variable.value), iterable, body));
  }

  /** COLON NEWLINE and the for-loop body. */
  method ParseForSuite(p: Cursor) returns (r: Result<seq<Stmt>, ParseError>)
    requires p.Valid()
    modifies p
    ensures Parsed(r, p.pos) == ForSuiteAt(p.tokens, old(p.pos))
    ensures p.Valid()
    decreases p.Remaining(), 28
  {
    var _ :- p.Eat(Colon);
    var _ :- p.Eat(Newline);
    r := ParseForBody(p);
  }

  /** An optional INDENT, the body statements, and a DEDENT eaten if present. */
  method ParseForBody(p: Cursor) returns (r: Result<seq<Stmt>, ParseError>)
    requires p.Valid()
    modifies p
    ensures Parsed(r, p.pos) == ForBodyAt(p.tokens, old(p.pos))
    ensures p.Valid()
    decreases p.Remaining(), 26
  {
    var expectedIndented := false;
    if p.current.kind == Indent {
      var _ := p.Eat(Indent);
      expectedIndented := true;
    }
    var body :- ParseForStatements(p, expectedIndented);
    if p.current.kind == Dedent {
      var _ := p.Eat(Dedent);
    }
    r := Ok(body);
  }

  /**
   * The for-body loop: statements until DEDENT/EOF with NEWLINE skipped; in an indented body
   * a PRINT in column 4 or less ends it.
   */
  method ParseForStatements(p: Cursor, indented: bool) returns (r: Result<seq<Stmt>, ParseError>)
    requires p.Valid()
    modifies p
    ensures Parsed(r, p.pos) == ForBodyFrom(p.tokens, old(p.pos), indented, [])
    ensures p.Valid()
    decreases p.Remaining(), 25
  {
    var body := [];
    while p.current.kind != Dedent && p.current.kind != Eof
      invariant p.Valid() && p.pos >= old(p.pos)
      invariant ForBodyFrom(p.tokens, p.pos, indented, body) == ForBodyFrom(p.tokens, old(p.pos), indented, [])
      decreases p.Remaining()
    {
      if p.current.kind == Newline {
        var _ := p.Eat(Newline);
        continue;
      }
      if indented && p.current.kind == Print && p.current.column <= 4 {
        break;
      }
      body :- ForBodyStatement(p, indented, body);
    }
    r := Ok(body);
  }

  /** One statement of the for-body loop after `body`, and the NEWLINEs that follow it. */
  method ForBodyStatement(p: Cursor, indented: bool, body: seq<Stmt>) returns (r: Result<seq<Stmt>, ParseError>)
    requires p.Valid() && p.current.kind !in {Dedent, Eof, Newline}
    requires !(indented && p.current.kind == Print && p.current.column <= 4)
    modifies p
    ensures p.Valid()
    ensures r.Err? ==> Parsed(r, p.pos) == ForBodyFrom(p.tokens, old(p.pos), indented, body)
    ensures r.Ok? ==> p.Remaining() < old(p.Remaining())
    ensures r.Ok? ==> ForBodyFrom(p.tokens, p.pos, indented, r.value) == ForBodyFrom(p.tokens, old(p.pos), indented, body)
    decreases p.Remaining(), 21
  {
    var s :- Statement(p);
    p.SkipNewlines();
    r := Ok(body + [s]);
  }

  /** The parameter list: empty, or IDENTIFIER (COMMA IDENTIFIER)*. */
  method ParseParameters(p: Cursor) returns (r: Result<seq<string>, ParseError>)
    requires p.Valid()
    modifies p
    ensures Parsed(r, p.pos) == ParametersAt(p.tokens, old(p.pos))
    ensures p.Valid()
  {
    if p.current.kind == TokenKind.Identifier {
      var first := p.current;
      var _ := p.Eat(TokenKind.Identifier);
      r := ParseParametersFrom(p, [TextOf(first.value)]);
    } else {
      r := Ok([]);
    }
  }

  /** `(COMMA IDENTIFIER)*` after the first parameter, with the names `parameters` read so far. */
  method ParseParametersFrom(p: Cursor, parameters: seq<string>) returns (r: Result<seq<string>, ParseError>)
    requires p.Valid()
    modifies p
    ensures Parsed(r, p.pos) == ParametersFrom(p.tokens, old(p.pos), parameters)
    ensures p.Valid()
  {
    var names := parameters;
    while p.current.kind == Comma
      invariant p.Valid() && p.pos >= old(p.pos)
      invariant ParametersFrom(p.tokens, p.pos, names) == ParametersFrom(p.tokens, old(p.pos), parameters)
      decreases p.Remaining()
    {
      var _ := p.Eat(Comma);
      var name := p.current;
      var _ :- p.Eat(TokenKind.Identifier);
      names := names + [TextOf(name.value)];
    }
    r := Ok(names);
  }

  /**
   * `function_declaration`: FUNC IDENTIFIER LPAREN params RPAREN COLON NEWLINE, an optional
   * INDENT, then body statements until DEDENT/FUNC/EOF or right after the first return
   * statement, with a failing statement skipped over. The closing DEDENT is eaten only after
   * an INDENT.
   */
  method ParseFunctionDeclaration(p: Cursor) returns (r: Result<Stmt, ParseError>)
    requires p.Valid()
    modifies p
    ensures Parsed(r, p.pos) == FunctionDeclarationAt(p.tokens, old(p.pos))
    ensures p.Valid()
    decreases p.Remaining(), 18
  {
    var header :- ParseFunctionHeader(p);
    var body :- ParseFunctionSuite(p);
    r := Ok(FunctionDeclaration(header.0, header.1, body));
  }

  /** FUNC IDENTIFIER LPAREN parameters RPAREN, giving the name and the parameter names. */
  method ParseFunctionHeader(p: Cursor) returns (r: Result<(string, seq<string>), ParseError>)
    requires p.Valid()
    modifies p
    ensures Parsed(r, p.pos) == FunctionHeaderAt(p.tokens, old(p.pos))
    ensures p.Valid()
  {
    var _ :- p.Eat(Func);
    var name :- p.Eat(TokenKind.Identifier);
    var _ :- p.Eat(LParen);
    var parameters :- ParseParameters(p);
    var _ :- p.Eat(RParen);
    r := Ok((TextOf(name.value), parameters));
  }

  /**
   * The body layout of `function_declaration`: COLON NEWLINE, an optional INDENT, the body,
   * and the closing DEDENT eaten only after an INDENT.
   */
  method ParseFunctionSuite(p: Cursor) returns (r: Result<seq<Stmt>, ParseError>)
    requires p.Valid()
    modifies p
    ensures Parsed(r, p.pos) == FunctionSuiteAt(p.tokens, old(p.pos))
    ensures p.Valid()
    decreases p.Remaining(), 28
  {
    var _ :- p.Eat(Colon);
    var _ :- p.Eat(Newline);
    var body := ParseFunctionBlock(p);
    r := Ok(body);
  }

  /** After COLON NEWLINE: an optional INDENT, the body, and a DEDENT eaten only after an INDENT. */
  method ParseFunctionBlock(p: Cursor) returns (body: seq<Stmt>)
    requires p.Valid()
    modifies p
    ensures Parsed(Ok(body), p.pos) == FunctionBlockAt(p.tokens, old(p.pos))
    ensures p.Valid()
    decreases p.Remaining(), 27
  {
    var expectedIndented := false;
    if p.current.kind == Indent {
      var _ := p.Eat(Indent);
      expectedIndented := true;
    }
    body := ParseFunctionBody(p);
    if p.current.kind == Dedent && expectedIndented {
      var _ := p.Eat(Dedent);
    }
  }

  /**
   * The body loop of `function_declaration`: statements until DEDENT/FUNC/EOF, or up to and
   * including the first return statement; INDENT and NEWLINE tokens are skipped. A statement
   * that fails is dropped and the cursor moves one token past where it failed; the loop ends
   * when that goes past the last token.
   */
  method ParseFunctionBody(p: Cursor) returns (body: seq<Stmt>)
    requires p.Valid()
    modifies p
    ensures Parsed(Ok(body), p.pos) == FunctionBodyFrom(p.tokens, old(p.pos), [])
    ensures p.Valid()
    decreases p.Remaining(), 26
  {
    body := [];
    while p.current.kind !in TopLevel
      invariant p.Valid() && p.pos >= old(p.pos)
      invariant FunctionBodyFrom(p.tokens, p.pos, body) == FunctionBodyFrom(p.tokens, old(p.pos), [])
      decreases p.Remaining()
    {
      if p.current.kind in {Indent, Newline} {
        var _ := p.Eat(p.current.kind);
        continue;
      }
      var done;
      body, done := FunctionBodyStatement(p, body);
      if done {
        break;
      }
      if p.current.kind in TopLevel {
        break;
      }
    }
  }

  /**
   * One statement of the function-body loop after `body`: kept when it parses, with the loop
   * over (`done`) after a return statement; dropped when it fails, with the cursor one token
   * past where it failed and the loop over if that is past the last token.
   */
  method FunctionBodyStatement(p: Cursor, body: seq<Stmt>) returns (next: seq<Stmt>, done: bool)
    requires p.Valid() && p.current.kind !in TopLevel && p.current.kind !in {Indent, Newline}
    modifies p
    ensures p.Valid()
    ensures done ==> Parsed(Ok(next), p.pos) == FunctionBodyFrom(p.tokens, old(p.pos), body)
    ensures !done ==> p.Remaining() < old(p.Remaining())
    ensures !done ==> FunctionBodyFrom(p.tokens, p.pos, next) == FunctionBodyFrom(p.tokens, old(p.pos), body)
    decreases p.Remaining(), 21
  {
    var s := Statement(p);
    if s.Ok? {
      next, done := body + [s.value], s.value.ReturnStatement?;
    } else {
      next := body;
      p.Skip();
      done := p.pos >= |p.tokens|;
    }
  }

  /** `return_statement`: RETURN, an expression unless NEWLINE or EOF follows, a statement end. */
  method ParseReturn(p: Cursor) returns (r: Result<Stmt, ParseError>)
    requires p.Valid()
    modifies p
    ensures Parsed(r, p.pos) == ReturnAt(p.tokens, old(p.pos))
    ensures p.Valid()
    decreases p.Remaining(), 18
  {
    var _ :- p.Eat(Return);
    var value := None;
    if p.current.kind !in {Newline, Eof} {
      var e :- ParseExpression(p);
      value := Some(e);
    }
    var _ :- EatNewlineOrEof(p);
    r := Ok(ReturnStatement(value));
  }

  /** `print_statement`: PRINT expression, then a NEWLINE eaten or a DEDENT or EOF left in place. */
  method ParsePrint(p: Cursor) returns (r: Result<Stmt, ParseError>)
    requires p.Valid()
    modifies p
    ensures Parsed(r, p.pos) == PrintAt(p.tokens, old(p.pos))
    ensures p.Valid()
    decreases p.Remaining(), 18
  {
    var _ :- p.Eat(Print);
    var expression :- ParseExpression(p);
    var _ :- EatPrintEnd(p);
    r := Ok(PrintStatement(expression));
  }

  /** What `print_statement` accepts after its expression: NEWLINE (eaten), DEDENT or EOF (left). */
  method EatPrintEnd(p: Cursor) returns (r: Result<(), ParseError>)
    requires p.Valid()
    modifies p
    ensures Parsed(r, p.pos) == PrintEndAt(p.tokens, old(p.pos))
    ensures p.Valid()
  {
    if p.current.kind == Newline {
      var _ := p.Eat(Newline);
      r := Ok(());
    } else if p.current.kind == Dedent || p.current.kind == Eof {
      r := Ok(());
    } else {
      r := Err(p.Fail(ExpectedStatementEnd(p.current.kind)));
    }
  }

  /** `input_statement`: INPUT IDENTIFIER and a statement end. */
  method ParseInput(p: Cursor) returns (r: Result<Stmt, ParseError>)
    requires p.Valid()
    modifies p
    ensures Parsed(r, p.pos) == InputAt(p.tokens, old(p.pos))
    ensures p.Valid()
    decreases p.Remaining(), 18
  {
    var _ :- p.Eat(Input);
    var variable :- p.Eat(TokenKind.Identifier);
    var _ :- EatNewlineOrEof(p);
    r := Ok(InputStatement(TextOf(variable.value)));
  }

  /** `expression_statement`: leading NEWLINEs skipped, an expression, a statement end. */
  method ParseExpressionStatement(p: Cursor) returns (r: Result<Stmt, ParseError>)
    requires p.Valid()
    modifies p
    ensures Parsed(r, p.pos) == ExpressionStatementAt(p.tokens, old(p.pos))
    ensures p.Valid()
    decreases p.Remaining(), 18
  {
    p.SkipNewlines();
    var expression :- ParseExpression(p);
    var _ :- EatNewlineOrEof(p);
    r := Ok(ExpressionStatement(expression));
  }

  // ---- expressions ----

  /** `expression` and `logical_expression`: both pass straight down to comparisons. */
  method ParseExpression(p: Cursor) returns (r: Result<Expr, ParseError>)
    requires p.Valid()
    modifies p
    ensures Parsed(r, p.pos) == ExpressionAt(Vypr, p.tokens, old(p.pos))
    ensures p.Valid()
    decreases p.Remaining(), 10
  {
    r := ParseLogical(p);
  }

  method ParseLogical(p: Cursor) returns (r: Result<Expr, ParseError>)
    requires p.Valid()
    modifies p
    ensures Parsed(r, p.pos) == LogicalAt(Vypr, p.tokens, old(p.pos))
    ensures p.Valid()
    decreases p.Remaining(), 9
  {
    r := ParseComparison(p);
  }

  /**
   * `comparison_expression`: arithmetic operands joined by comparison operators, folded to
   * the left.
   */
  method ParseComparison(p: Cursor) returns (r: Result<Expr, ParseError>)
    requires p.Valid()
    modifies p
    ensures Parsed(r, p.pos) == ComparisonAt(Vypr, p.tokens, old(p.pos))
    ensures p.Valid()
    decreases p.Remaining(), 8
  {
    var left :- ParseArithmetic(p);
    r := ParseComparisonFrom(p, left);
  }

  /** The loop of `comparison`: each comparison operator and an arithmetic operand extend the tree `left` built so far. */
  method ParseComparisonFrom(p: Cursor, left: Expr) returns (r: Result<Expr, ParseError>)
    requires p.Valid()
    modifies p
    ensures Parsed(r, p.pos) == ComparisonFrom(Vypr, p.tokens, old(p.pos), left)
    ensures p.Valid()
    decreases p.Remaining(), 8
  {
    var node := left;
    while p.current.kind in ComparisonOps
      invariant p.Valid() && p.pos >= old(p.pos)
      invariant ComparisonFrom(Vypr, p.tokens, p.pos, node) == ComparisonFrom(Vypr, p.tokens, old(p.pos), left)
      decreases p.Remaining()
    {
      var operator := p.current;
      var _ := p.Eat(p.current.kind);
      var right :- ParseArithmetic(p);
      node := BinaryOperation(node, operator, right);
    }
    r := Ok(node);
  }

  /** `arithmetic_expression`: terms joined by PLUS, MINUS and CONCAT, folded to the left. */
  method ParseArithmetic(p: Cursor) returns (r: Result<Expr, ParseError>)
    requires p.Valid()
    modifies p
    ensures Parsed(r, p.pos) == ArithmeticAt(Vypr, p.tokens, old(p.pos))
    ensures p.Valid()
    decreases p.Remaining(), 7
  {
    var left :- ParseTerm(p);
    r := ParseArithmeticFrom(p, left);
  }

  /** The loop of `arithmetic`: each PLUS, MINUS or CONCAT and a term extend the tree `left` built so far. */
  method ParseArithmeticFrom(p: Cursor, left: Expr) returns (r: Result<Expr, ParseError>)
    requires p.Valid()
    modifies p
    ensures Parsed(r, p.pos) == ArithmeticFrom(Vypr, p.tokens, old(p.pos), left)
    ensures p.Valid()
    decreases p.Remaining(), 7
  {
    var node := left;
    while p.current.kind in ArithmeticOps
      invariant p.Valid() && p.pos >= old(p.pos)
      invariant ArithmeticFrom(Vypr, p.tokens, p.pos, node) == ArithmeticFrom(Vypr, p.tokens, old(p.pos), left)
      decreases p.Remaining()
    {
      var operator := p.current;
      var _ := p.Eat(p.current.kind);
      var right :- ParseTerm(p);
      node := BinaryOperation(node, operator, right);
    }
    r := Ok(node);
  }

  /** `term`: factors joined by MULTIPLY and DIVIDE, folded to the left. */
  method ParseTerm(p: Cursor) returns (r: Result<Expr, ParseError>)
    requires p.Valid()
    modifies p
    ensures Parsed(r, p.pos) == TermAt(Vypr, p.tokens, old(p.pos))
    ensures p.Valid()
    decreases p.Remaining(), 6
  {
    var left :- ParseFactor(p);
    r := ParseTermFrom(p, left);
  }

  /** The loop of `term`: each MULTIPLY or DIVIDE and a factor extend the tree `left` built so far. */
  method ParseTermFrom(p: Cursor, left: Expr) returns (r: Result<Expr, ParseError>)
    requires p.Valid()
    modifies p
    ensures Parsed(r, p.pos) == TermFrom(Vypr, p.tokens, old(p.pos), left)
    ensures p.Valid()
    decreases p.Remaining(), 6
  {
    var node := left;
    while p.current.kind in TermOps
      invariant p.Valid() && p.pos >= old(p.pos)
      invariant TermFrom(Vypr, p.tokens, p.pos, node) == TermFrom(Vypr, p.tokens, old(p.pos), left)
      decreases p.Remaining()
    {
      var operator := p.current;
      var _ := p.Eat(p.current.kind);
      var right :- ParseFactor(p);
      node := BinaryOperation(node, operator, right);
    }
    r := Ok(node);
  }

  /** `factor`: leading NEWLINEs are skipped, then the factor proper. */
  method ParseFactor(p: Cursor) returns (r: Result<Expr, ParseError>)
    requires p.Valid()
    modifies p
    ensures Parsed(r, p.pos) == FactorAt(Vypr, p.tokens, old(p.pos))
    ensures p.Valid()
    decreases p.Remaining(), 5
  {
    p.SkipNewlines();
    r := ParsePrimary(p);
  }

  /**
   * The factor proper: a signed factor, a literal, a parenthesised expression, an array
   * literal, a call (IDENTIFIER then LPAREN), or an identifier with its property accesses.
   */
  method ParsePrimary(p: Cursor) returns (r: Result<Expr, ParseError>)
    requires p.Valid()
    modifies p
    ensures Parsed(r, p.pos) == PrimaryAt(Vypr, p.tokens, old(p.pos))
    ensures p.Valid()
    decreases p.Remaining(), 4
  {
    var token := p.current;
    match token.kind
    case Plus => r := ParseSigned(p);
    case Minus => r := ParseSigned(p);
    case Integer =>
      var _ := p.Eat(Integer);
      r := Ok(Literal(token.value, "integer"));
    case Float =>
      var _ := p.Eat(Float);
      r := Ok(Literal(token.value, "float"));
    case String =>
      var _ := p.Eat(String);
      r := Ok(Literal(token.value, "string"));
    case Boolean =>
      var _ := p.Eat(Boolean);
      r := Ok(Literal(token.value, "boolean"));
    case LParen => r := ParseParenthesized(p);
    case LBracket => r := ParseArrayLiteral(p);
    case Identifier => r := ParseIdentifierFactor(p);
    case _ => r := Err(p.Fail(InvalidFactor(token.kind)));
  }

  /** PLUS or MINUS and the factor it signs. */
  method ParseSigned(p: Cursor) returns (r: Result<Expr, ParseError>)
    requires p.Valid() && p.current.kind in {Plus, Minus}
    modifies p
    ensures Parsed(r, p.pos) == SignedAt(Vypr, p.tokens, old(p.pos))
    ensures p.Valid()
    decreases p.Remaining(), 3
  {
    var sign := p.current;
    var _ := p.Eat(sign.kind);
    var operand :- ParseFactor(p);
    r := Ok(UnaryOperation(sign, operand));
  }

  /** LPAREN expression RPAREN. */
  method ParseParenthesized(p: Cursor) returns (r: Result<Expr, ParseError>)
    requires p.Valid()
    modifies p
    ensures Parsed(r, p.pos) == ParenthesizedAt(Vypr, p.tokens, old(p.pos))
    ensures p.Valid()
    decreases p.Remaining(), 3
  {
    var _ :- p.Eat(LParen);
    var node :- ParseExpression(p);
    var _ :- p.Eat(RParen);
    r := Ok(node);
  }

  /** An identifier factor: a call when LPAREN follows, else the name and its property accesses. */
  method ParseIdentifierFactor(p: Cursor) returns (r: Result<Expr, ParseError>)
    requires p.Valid() && p.current.kind == TokenKind.Identifier
    modifies p
    ensures Parsed(r, p.pos) == IdentifierFactorAt(Vypr, p.tokens, old(p.pos))
    ensures p.Valid()
    decreases p.Remaining(), 3
  {
    if p.Lookahead().kind == LParen {
      r := ParseFunctionCall(p);
    } else {
      var name := p.current;
      var _ := p.Eat(TokenKind.Identifier);
      r := ParseProperties(p, Expr.Identifier(TextOf(name.value)));
    }
  }

  /**
   * The property loop: each DOT IDENTIFIER wraps the tree `node` built so far in a property
   * access; a DOT followed by anything else fails with "Expected property name".
   */
  method ParseProperties(p: Cursor, node: Expr) returns (r: Result<Expr, ParseError>)
    requires p.Valid()
    modifies p
    ensures Parsed(r, p.pos) == PropertiesFrom(p.tokens, old(p.pos), node)
    ensures p.Valid()
  {
    var expr := node;
    while p.current.kind == Dot
      invariant p.Valid() && p.pos >= old(p.pos)
      invariant PropertiesFrom(p.tokens, p.pos, expr) == PropertiesFrom(p.tokens, old(p.pos), node)
      decreases p.Remaining()
    {
      var _ := p.Eat(Dot);
      if p.current.kind != TokenKind.Identifier {
        return Err(p.Fail(ExpectedPropertyName(p.current.kind)));
      }
      var name := p.current;
      var _ := p.Eat(TokenKind.Identifier);
      expr := PropertyAccess(expr, TextOf(name.value));
    }
    r := Ok(expr);
  }

  /** `function_call`: IDENTIFIER LPAREN, comma-separated arguments (possibly none), RPAREN. */
  method ParseFunctionCall(p: Cursor) returns (r: Result<Expr, ParseError>)
    requires p.Valid()
    modifies p
    ensures Parsed(r, p.pos) == FunctionCallAt(Vypr, p.tokens, old(p.pos))
    ensures p.Valid()
    decreases p.Remaining(), 2
  {
    var name :- p.Eat(TokenKind.Identifier);
    var _ :- p.Eat(LParen);
    var arguments :- ParseItems(p, RParen);
    var _ :- p.Eat(RParen);
    r := Ok(FunctionCall(TextOf(name.value), arguments));
  }

  /** `array_literal`: LBRACKET, comma-separated elements (possibly none), RBRACKET. */
  method ParseArrayLiteral(p: Cursor) returns (r: Result<Expr, ParseError>)
    requires p.Valid()
    modifies p
    ensures Parsed(r, p.pos) == ArrayLiteralAt(Vypr, p.tokens, old(p.pos))
    ensures p.Valid()
    decreases p.Remaining(), 2
  {
    var _ :- p.Eat(LBracket);
    var elements :- ParseItems(p, RBracket);
    var _ :- p.Eat(RBracket);
    r := Ok(ArrayLiteral(elements));
  }

  /**
   * The items of a call or an array literal, up to (not including) `close`: none when `close`
   * comes first, otherwise expressions separated by commas.
   */
  method ParseItems(p: Cursor, close: TokenKind) returns (r: Result<seq<Expr>, ParseError>)
    requires p.Valid()
    modifies p
    ensures Parsed(r, p.pos) == ItemsAt(Vypr, p.tokens, old(p.pos), close)
    ensures p.Valid()
    decreases p.Remaining(), 12
  {
    if p.current.kind == close {
      return Ok([]);
    }
    var first :- ParseExpression(p);
    r := ParseExpressionListFrom(p, [first]);
  }

  /** `(COMMA expression)*` after the first item, with the items `items` parsed so far. */
  method ParseExpressionListFrom(p: Cursor, items: seq<Expr>) returns (r: Result<seq<Expr>, ParseError>)
    requires p.Valid()
    modifies p
    ensures Parsed(r, p.pos) == ExpressionListFrom(Vypr, p.tokens, old(p.pos), items)
    ensures p.Valid()
    decreases p.Remaining(), 11
  {
    var list := items;
    while p.current.kind == Comma
      invariant p.Valid() && p.pos >= old(p.pos)
      invariant ExpressionListFrom(Vypr, p.tokens, p.pos, list) == ExpressionListFrom(Vypr, p.tokens, old(p.pos), items)
      decreases p.Remaining()
    {
      var _ := p.Eat(Comma);
      var item :- ParseExpression(p);
      list := list + [item];
    }
    r := Ok(list);
  }
}
