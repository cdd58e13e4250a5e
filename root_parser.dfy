/**
 * The recursive-descent parser of parser.py, the older of the two. It shares the cursor,
 * the statement dispatch and the expression levels with src/vypr/parser.py but differs
 * in four places: `eat_newline_or_eof` also eats a DEDENT, `if_statement` demands INDENT and
 * DEDENT around both branches, a function body has no error recovery, and an identifier
 * factor takes no `.name` property accesses. A raised exception is an Err.
 *
 * The second component of each `decreases` ranks productions that call each other without
 * consuming a token in between.
 */
module RootParser {
  import opened Wrappers
  import opened Tokens
  import opened Ast
  import opened ParserBase
  import opened ExprGrammar
  import opened RootGrammar

  /** `parse`/`program`: the statement list of the whole token stream. */
  method Parse(tokens: seq<Token>) returns (r: Result<Program, ParseError>)
    requires Stream(tokens)
    ensures r == ProgramAt(tokens, 0).result
  {
    var p := new Cursor(tokens);
    r := ParseProgram(p);
  }

  method ParseProgram(p: Cursor) returns (r: Result<Program, ParseError>)
    requires p.Valid()
    modifies p
    ensures Parsed(r, p.pos) == ProgramAt(p.tokens, old(p.pos))
    ensures p.Valid()
    decreases p.Remaining(), 30
  {
    var statements :- StatementList(p);
    r := Ok(Program(statements));
  }

  /** `statement_list`: statements until EOF or a DEDENT, neither of which it consumes. */
  method StatementList(p: Cursor) returns (r: Result<seq<Stmt>, ParseError>)
    requires p.Valid()
    modifies p
    ensures Parsed(r, p.pos) == StatementListAt(p.tokens, old(p.pos))
    ensures p.Valid()
    decreases p.Remaining(), 29
  {
    p.SkipNewlines();
    var statements := [];
    while p.current.kind != Eof
      invariant p.Valid() && p.pos >= old(p.pos)
      invariant StatementsFrom(p.tokens, p.pos, statements) == StatementListAt(p.tokens, old(p.pos))
      decreases p.Remaining()
    {
      if p.current.kind == Dedent {
        break;
      }
      var s :- Statement(p);
      statements := statements + [s];
      p.SkipNewlines();
    }
    r := Ok(statements);
  }

  method Statement(p: Cursor) returns (r: Result<Stmt, ParseError>)
    requires p.Valid()
    modifies p
    ensures Parsed(r, p.pos) == StatementAt(p.tokens, old(p.pos))
    ensures p.Valid()
    decreases p.Remaining(), 20
  {
    match p.current.kind
    case Var => r := ParseVarDeclaration(p);
    case If => r := ParseIf(p);
    case Loop => r := ParseLoop(p);
    case Func => r := ParseFunctionDeclaration(p);
    case Return => r := ParseReturn(p);
    case Print => r := ParsePrint(p);
    case Input => r := ParseInput(p);
    case Identifier => r := ParseIdentifierStatement(p);
    case Dedent =>
      var _ := p.Eat(Dedent);
      r := Statement(p);
    case _ =>
      r := Err(p.Fail(UnexpectedStatement(p.current.kind)));
  }

  /** An identifier starts an assignment when ASSIGN follows it, an expression statement otherwise. */
  method ParseIdentifierStatement(p: Cursor) returns (r: Result<Stmt, ParseError>)
    requires p.Valid() && p.current.kind == TokenKind.Identifier
    modifies p
    ensures Parsed(r, p.pos) == IdentifierStatementAt(p.tokens, old(p.pos))
    ensures p.Valid()
    decreases p.Remaining(), 19
  {
    if p.Lookahead().kind == Assign {
      r := ParseAssignment(p);
    } else {
      r := ParseExpressionStatement(p);
    }
  }

  /** `eat_newline_or_eof`: a NEWLINE or a DEDENT is consumed, EOF is accepted where it stands. */
  method EatNewlineOrEof(p: Cursor) returns (r: Result<(), ParseError>)
    requires p.Valid()
    modifies p
    ensures Parsed(r, p.pos) == NewlineOrEofAt(p.tokens, old(p.pos))
    ensures p.Valid()
  {
    if p.current.kind == Newline {
      var _ := p.Eat(Newline);
      r := Ok(());
    } else if p.current.kind == Eof {
      r := Ok(());
    } else if p.current.kind == Dedent {
      var _ := p.Eat(Dedent);
      r := Ok(());
    } else {
      r := Err(p.Fail(ExpectedStatementEnd(p.current.kind)));
    }
  }

  /** `var_declaration`: VAR IDENTIFIER (ASSIGN expression)? and a statement end. */
  method ParseVarDeclaration(p: Cursor) returns (r: Result<Stmt, ParseError>)
    requires p.Valid()
    modifies p
    ensures Parsed(r, p.pos) == VarDeclarationAt(p.tokens, old(p.pos))
    ensures p.Valid()
    decreases p.Remaining(), 18
  {
    var _ :- p.Eat(Var);
    var name := p.current;
    var _ :- p.Eat(TokenKind.Identifier);
    var initialValue := None;
    if p.current.kind == Assign {
      var _ := p.Eat(Assign);
      var e :- ParseExpression(p);
      initialValue := Some(e);
    }
    var _ :- EatNewlineOrEof(p);
    r := Ok(VarDeclaration(TextOf(name.value), initialValue));
  }

  /** `assignment`: IDENTIFIER ASSIGN expression and a statement end. */
  method ParseAssignment(p: Cursor) returns (r: Result<Stmt, ParseError>)
    requires p.Valid()
    modifies p
    ensures Parsed(r, p.pos) == AssignmentAt(p.tokens, old(p.pos))
    ensures p.Valid()
    decreases p.Remaining(), 18
  {
    var variable :- p.Eat(TokenKind.Identifier);
    var _ :- p.Eat(Assign);
    var value :- ParseExpression(p);
    var _ :- EatNewlineOrEof(p);
    r := Ok(Assignment(TextOf(variable.value), value));
  }

  /**
   * The statement loop shared by several block bodies: statements until the current kind is
   * in `ends`, eating any token of `skips` found between them.
   */
  method Block(p: Cursor, ends: set<TokenKind>, skips: set<TokenKind>) returns (r: Result<seq<Stmt>, ParseError>)
    requires p.Valid() && Eof in ends
    modifies p
    ensures Parsed(r, p.pos) == BlockFrom(p.tokens, old(p.pos), ends, skips, [])
    ensures p.Valid()
    decreases p.Remaining(), 25
  {
    var body := [];
    while p.current.kind !in ends
      invariant p.Valid() && p.pos >= old(p.pos)
      invariant BlockFrom(p.tokens, p.pos, ends, skips, body) == BlockFrom(p.tokens, old(p.pos), ends, skips, [])
      decreases p.Remaining()
    {
      if p.current.kind in skips {
        var _ := p.Eat(p.current.kind);
        continue;
      }
      var s :- Statement(p);
      body := body + [s];
    }
    r := Ok(body);
  }

  /**
   * `if_statement`: IF expression COLON NEWLINE INDENT, statements up to DEDENT/EOF, DEDENT,
   * and optionally ELSE COLON NEWLINE INDENT, statements, DEDENT. Every one of these tokens is
   * eaten strictly, so a missing INDENT or DEDENT fails.
   */
  method ParseIf(p: Cursor) returns (r: Result<Stmt, ParseError>)
    requires p.Valid()
    modifies p
    ensures Parsed(r, p.pos) == IfAt(p.tokens, old(p.pos))
    ensures p.Valid()
    decreases p.Remaining(), 18
  {
    var _ :- p.Eat(If);
    var condition :- ParseExpression(p);
    var body :- ParseStrictSuite(p);
    var elseBody :- ParseElse(p);
    r := Ok(IfStatement(condition, body, elseBody));
  }

  /** The branch layout of `if_statement` and the while loop: COLON NEWLINE INDENT, statements, DEDENT. */
  method ParseStrictSuite(p: Cursor) returns (r: Result<seq<Stmt>, ParseError>)
    requires p.Valid()
    modifies p
    ensures Parsed(r, p.pos) == StrictSuiteAt(p.tokens, old(p.pos))
    ensures p.Valid()
    decreases p.Remaining(), 28
  {
    var _ :- p.Eat(Colon);
    var _ :- p.Eat(Newline);
    var _ :- p.Eat(Indent);
    var body :- Block(p, {Dedent, Eof}, {});
    var _ :- p.Eat(Dedent);
    r := Ok(body);
  }

  /** The optional else part: ELSE COLON NEWLINE INDENT, statements up to DEDENT/EOF, DEDENT. */
  method ParseElse(p: Cursor) returns (r: Result<ElseClause, ParseError>)
    requires p.Valid()
    modifies p
    ensures Parsed(r, p.pos) == ElseAt(p.tokens, old(p.pos))
    ensures p.Valid()
    decreases p.Remaining(), 26
  {
    if p.current.kind != Else {
      return Ok(NoElse);
    }
    var _ := p.Eat(Else);
    var stmts :- ParseStrictSuite(p);
    r := Ok(ElseBlock(stmts));
  }

  /**
   * `loop_statement`: a for or times loop chosen by `LoopDispatch` on two tokens of
   * lookahead, or a strict WHILE loop (a branch `statement` never takes: it does not
   * dispatch WHILE).
   */
  method ParseLoop(p: Cursor) returns (r: Result<Stmt, ParseError>)
    requires p.Valid()
    modifies p
    ensures Parsed(r, p.pos) == LoopAt(p.tokens, old(p.pos))
    ensures p.Valid()
    decreases p.Remaining(), 19
  {
    match LoopDispatch(p.current.kind, p.PeekKind(1), p.PeekKind(2))
    case ForForm => r := ParseForLoop(p);
    case TimesForm => r := ParseTimesLoop(p);
    case MissingLookahead => r := Err(p.Fail(NoLookahead));
    case InvalidForm => r := Err(p.Fail(InvalidLoop));
    case WhileForm => r := ParseWhileLoop(p);
  }

  /** `while_loop`: WHILE expression COLON NEWLINE INDENT, statements, DEDENT. */
  method ParseWhileLoop(p: Cursor) returns (r: Result<Stmt, ParseError>)
    requires p.Valid()
    modifies p
    ensures Parsed(r, p.pos) == WhileLoopAt(p.tokens, old(p.pos))
    ensures p.Valid()
    decreases p.Remaining(), 18
  {
    var _ :- p.Eat(While);
    var condition :- ParseExpression(p);
    var body :- ParseStrictSuite(p);
    r := Ok(WhileLoop(condition, body));
  }

  /**
   * `times_loop`: LOOP expression TIMES COLON NEWLINE, an optional INDENT, statements up to
   * DEDENT/EOF/VAR/FUNC (INDENT and NEWLINE skipped), and a DEDENT eaten if present.
   */
  method ParseTimesLoop(p: Cursor) returns (r: Result<Stmt, ParseError>)
    requires p.Valid()
    modifies p
    ensures Parsed(r, p.pos) == TimesLoopAt(p.tokens, old(p.pos))
    ensures p.Valid()
    decreases p.Remaining(), 18
  {
    var _ :- p.Eat(Loop);
    var count :- ParseExpression(p);
    var _ :- p.Eat(Times);
    var body :- ParseLoopSuite(p);
    r := Ok(TimesLoop(count, body));
  }

  /**
   * The body layout of times and for loops: COLON NEWLINE, an optional INDENT, statements up
   * to DEDENT/EOF/VAR/FUNC (INDENT and NEWLINE skipped), and a DEDENT eaten if present.
   */
  method ParseLoopSuite(p: Cursor) returns (r: Result<seq<Stmt>, ParseError>)
    requires p.Valid()
    modifies p
    ensures Parsed(r, p.pos) == LoopSuiteAt(p.tokens, old(p.pos))
    ensures p.Valid()
    decreases p.Remaining(), 28
  {
    var _ :- p.Eat(Colon);
    var _ :- p.Eat(Newline);
    r := ParseLoopBody(p);
  }

  /** After COLON NEWLINE: an optional INDENT, the block, and a DEDENT eaten if present. */
  method ParseLoopBody(p: Cursor) returns (r: Result<seq<Stmt>, ParseError>)
    requires p.Valid()
    modifies p
    ensures Parsed(r, p.pos) == LoopBodyAt(p.tokens, old(p.pos))
    ensures p.Valid()
    decreases p.Remaining(), 26
  {
    if p.current.kind == Indent {
      var _ := p.Eat(Indent);
    }
    var body :- Block(p, LoopBodyEnds, {Indent, Newline});
    if p.current.kind == Dedent {
      var _ := p.Eat(Dedent);
    }
    r := Ok(body);
  }

  /**
   * `for_loop`: LOOP IDENTIFIER IN expression COLON NEWLINE, an optional INDENT, statements
   * up to DEDENT/EOF/VAR/FUNC (INDENT and NEWLINE skipped), and a DEDENT eaten if present.
   */
  method ParseForLoop(p: Cursor) returns (r: Result<Stmt, ParseError>)
    requires p.Valid()
    modifies p
    ensures Parsed(r, p.pos) == ForLoopAt(p.tokens, old(p.pos))
    ensures p.Valid()
    decreases p.Remaining(), 18
  {
    var _ :- p.Eat(Loop);
    var variable :- p.Eat(TokenKind.Identifier);
    var _ :- p.Eat(In);
    var iterable :- ParseExpression(p);
    var body :- ParseLoopSuite(p);
    r := Ok(ForLoop(TextOf(variable.value), iterable, body));
  }

  /** The parameter list: empty, or IDENTIFIER (COMMA IDENTIFIER)*. */
  method ParseParameters(p: Cursor) returns (r: Result<seq<string>, ParseError>)
    requires p.Valid()
    modifies p
    ensures Parsed(r, p.pos) == ParametersAt(p.tokens, old(p.pos))
    ensures p.Valid()
  {
    if p.current.kind == TokenKind.Identifier {
      var first := p.current;
      var _ := p.Eat(TokenKind.Identifier);
      r := ParseParametersFrom(p, [TextOf(first.value)]);
    } else {
      r := Ok([]);
    }
  }

  /** `(COMMA IDENTIFIER)*` after the first parameter, with the names `parameters` read so far. */
  method ParseParametersFrom(p: Cursor, parameters: seq<string>) returns (r: Result<seq<string>, ParseError>)
    requires p.Valid()
    modifies p
    ensures Parsed(r, p.pos) == ParametersFrom(p.tokens, old(p.pos), parameters)
    ensures p.Valid()
  {
    var names := parameters;
    while p.current.kind == Comma
      invariant p.Valid() && p.pos >= old(p.pos)
      invariant ParametersFrom(p.tokens, p.pos, names) == ParametersFrom(p.tokens, old(p.pos), parameters)
      decreases p.Remaining()
    {
      var _ := p.Eat(Comma);
      var name := p.current;
      var _ :- p.Eat(TokenKind.Identifier);
      names := names + [TextOf(name.value)];
    }
    r := Ok(names);
  }

  /**
   * `function_declaration`: FUNC IDENTIFIER LPAREN params RPAREN COLON NEWLINE, an optional
   * INDENT, then body statements until DEDENT/FUNC/EOF or right after the first return
   * statement; a statement that fails makes the whole declaration fail. The closing DEDENT
   * is eaten only after an INDENT.
   */
  method ParseFunctionDeclaration(p: Cursor) returns (r: Result<Stmt, ParseError>)
    requires p.Valid()
    modifies p
    ensures Parsed(r, p.pos) == FunctionDeclarationAt(p.tokens, old(p.pos))
    ensures p.Valid()
    decreases p.Remaining(), 18
  {
    var header :- ParseFunctionHeader(p);
    var body :- ParseFunctionSuite(p);
    r := Ok(FunctionDeclaration(header.0, header.1, body));
  }

  /** FUNC IDENTIFIER LPAREN parameters RPAREN, giving the name and the parameter names. */
  method ParseFunctionHeader(p: Cursor) returns (r: Result<(string, seq<string>), ParseError>)
    requires p.Valid()
    modifies p
    ensures Parsed(r, p.pos) == FunctionHeaderAt(p.tokens, old(p.pos))
    ensures p.Valid()
  {
    var _ :- p.Eat(Func);
    var name :- p.Eat(TokenKind.Identifier);
    var _ :- p.Eat(LParen);
    var parameters :- ParseParameters(p);
    var _ :- p.Eat(RParen);
    r := Ok((TextOf(name.value), parameters));
  }

  /**
   * The body layout of `function_declaration`: COLON NEWLINE, an optional INDENT, the body,
   * and the closing DEDENT eaten only after an INDENT.
   */
  method ParseFunctionSuite(p: Cursor) returns (r: Result<seq<Stmt>, ParseError>)
    requires p.Valid()
    modifies p
    ensures Parsed(r, p.pos) == FunctionSuiteAt(p.tokens, old(p.pos))
    ensures p.Valid()
    decreases p.Remaining(), 28
  {
    var _ :- p.Eat(Colon);
    var _ :- p.Eat(Newline);
    r := ParseFunctionBlock(p);
  }

  /** After COLON NEWLINE: an optional INDENT, the body, and a DEDENT eaten only after an INDENT. */
  method ParseFunctionBlock(p: Cursor) returns (r: Result<seq<Stmt>, ParseError>)
    requires p.Valid()
    modifies p
    ensures Parsed(r, p.pos) == FunctionBlockAt(p.tokens, old(p.pos))
    ensures p.Valid()
    decreases p.Remaining(), 27
  {
    var expectedIndented := false;
    if p.current.kind == Indent {
      var _ := p.Eat(Indent);
      expectedIndented := true;
    }
    var body :- ParseFunctionBody(p);
    if p.current.kind == Dedent && expectedIndented {
      var _ := p.Eat(Dedent);
    }
    r := Ok(body);
  }

  /**
   * The body loop of `function_declaration`: statements until DEDENT/FUNC/EOF, or up to and
   * including the first return statement; INDENT and NEWLINE tokens are skipped.
   */
  method ParseFunctionBody(p: Cursor) returns (r: Result<seq<Stmt>, ParseError>)
    requires p.Valid()
    modifies p
    ensures Parsed(r, p.pos) == FunctionBodyFrom(p.tokens, old(p.pos), [])
    ensures p.Valid()
    decreases p.Remaining(), 26
  {
    var body: seq<Stmt> := [];
    while p.current.kind !in TopLevel
      invariant p.Valid() && p.pos >= old(p.pos)
      invariant FunctionBodyFrom(p.tokens, p.pos, body) == FunctionBodyFrom(p.tokens, old(p.pos), [])
      decreases p.Remaining()
    {
      if p.current.kind in {Indent, Newline} {
        var _ := p.Eat(p.current.kind);
        continue;
      }
      var s :- Statement(p);
      body := body + [s];
      if s.ReturnStatement? {
        return Ok(body);
      }
      if p.current.kind in TopLevel {
        break;
      }
    }
    r := Ok(body);
  }

  /** `return_statement`: RETURN, an expression unless NEWLINE or EOF follows, a statement end. */
  method ParseReturn(p: Cursor) returns (r: Result<Stmt, ParseError>)
    requires p.Valid()
    modifies p
    ensures Parsed(r, p.pos) == ReturnAt(p.tokens, old(p.pos))
    ensures p.Valid()
    decreases p.Remaining(), 18
  {
    var _ :- p.Eat(Return);
    var value := None;
    if p.current.kind !in {Newline, Eof} {
      var e :- ParseExpression(p);
      value := Some(e);
    }
    var _ :- EatNewlineOrEof(p);
    r := Ok(ReturnStatement(value));
  }

  /** `print_statement`: PRINT expression and a statement end. */
  method ParsePrint(p: Cursor) returns (r: Result<Stmt, ParseError>)
    requires p.Valid()
    modifies p
    ensures Parsed(r, p.pos) == PrintAt(p.tokens, old(p.pos))
    ensures p.Valid()
    decreases p.Remaining(), 18
  {
    var _ :- p.Eat(Print);
    var expression :- ParseExpression(p);
    var _ :- EatNewlineOrEof(p);
    r := Ok(PrintStatement(expression));
  }

  /** `input_statement`: INPUT IDENTIFIER and a statement end. */
  method ParseInput(p: Cursor) returns (r: Result<Stmt, ParseError>)
    requires p.Valid()
    modifies p
    ensures Parsed(r, p.pos) == InputAt(p.tokens, old(p.pos))
    ensures p.Valid()
    decreases p.Remaining(), 18
  {
    var _ :- p.Eat(Input);
    var variable :- p.Eat(TokenKind.Identifier);
    var _ :- EatNewlineOrEof(p);
    r := Ok(InputStatement(TextOf(variable.value)));
  }

  /** `expression_statement`: leading NEWLINEs skipped, an expression, a statement end. */
  method ParseExpressionStatement(p: Cursor) returns (r: Result<Stmt, ParseError>)
    requires p.Valid()
    modifies p
    ensures Parsed(r, p.pos) == ExpressionStatementAt(p.tokens, old(p.pos))
    ensures p.Valid()
    decreases p.Remaining(), 18
  {
    p.SkipNewlines();
    var expression :- ParseExpression(p);
    var _ :- EatNewlineOrEof(p);
    r := Ok(ExpressionStatement(expression));
  }

  // ---- expressions ----

  /** `expression` and `logical_expression`: both pass straight down to comparisons. */
  method ParseExpression(p: Cursor) returns (r: Result<Expr, ParseError>)
    requires p.Valid()
    modifies p
    ensures Parsed(r, p.pos) == ExpressionAt(Root, p.tokens, old(p.pos))
    ensures p.Valid()
    decreases p.Remaining(), 10
  {
    r := ParseLogical(p);
  }

  method ParseLogical(p: Cursor) returns (r: Result<Expr, ParseError>)
    requires p.Valid()
    modifies p
    ensures Parsed(r, p.pos) == LogicalAt(Root, p.tokens, old(p.pos))
    ensures p.Valid()
    decreases p.Remaining(), 9
  {
    r := ParseComparison(p);
  }

  /**
   * `comparison_expression`: arithmetic operands joined by comparison operators, folded to
   * the left.
   */
  method ParseComparison(p: Cursor) returns (r: Result<Expr, ParseError>)
    requires p.Valid()
    modifies p
    ensures Parsed(r, p.pos) == ComparisonAt(Root, p.tokens, old(p.pos))
    ensures p.Valid()
    decreases p.Remaining(), 8
  {
    var left :- ParseArithmetic(p);
    r := ParseComparisonFrom(p, left);
  }

  /** The loop of `comparison`: each comparison operator and an arithmetic operand extend the tree `left` built so far. */
  method ParseComparisonFrom(p: Cursor, left: Expr) returns (r: Result<Expr, ParseError>)
    requires p.Valid()
    modifies p
    ensures Parsed(r, p.pos) == ComparisonFrom(Root, p.tokens, old(p.pos), left)
    ensures p.Valid()
    decreases p.Remaining(), 8
  {
    var node := left;
    while p.current.kind in ComparisonOps
      invariant p.Valid() && p.pos >= old(p.pos)
      invariant ComparisonFrom(Root, p.tokens, p.pos, node) == ComparisonFrom(Root, p.tokens, old(p.pos), left)
      decreases p.Remaining()
    {
      var operator := p.current;
      var _ := p.Eat(p.current.kind);
      var right :- ParseArithmetic(p);
      node := BinaryOperation(node, operator, right);
    }
    r := Ok(node);
  }

  /** `arithmetic_expression`: terms joined by PLUS, MINUS and CONCAT, folded to the left. */
  method ParseArithmetic(p: Cursor) returns (r: Result<Expr, ParseError>)
    requires p.Valid()
    modifies p
    ensures Parsed(r, p.pos) == ArithmeticAt(Root, p.tokens, old(p.pos))
    ensures p.Valid()
    decreases p.Remaining(), 7
  {
    var left :- ParseTerm(p);
    r := ParseArithmeticFrom(p, left);
  }

  /** The loop of `arithmetic`: each PLUS, MINUS or CONCAT and a term extend the tree `left` built so far. */
  method ParseArithmeticFrom(p: Cursor, left: Expr) returns (r: Result<Expr, ParseError>)
    requires p.Valid()
    modifies p
    ensures Parsed(r, p.pos) == ArithmeticFrom(Root, p.tokens, old(p.pos), left)
    ensures p.Valid()
    decreases p.Remaining(), 7
  {
    var node := left;
    while p.current.kind in ArithmeticOps
      invariant p.Valid() && p.pos >= old(p.pos)
      invariant ArithmeticFrom(Root, p.tokens, p.pos, node) == ArithmeticFrom(Root, p.tokens, old(p.pos), left)
      decreases p.Remaining()
    {
      var operator := p.current;
      var _ := p.Eat(p.current.kind);
      var right :- ParseTerm(p);
      node := BinaryOperation(node, operator, right);
    }
    r := Ok(node);
  }

  /** `term`: factors joined by MULTIPLY and DIVIDE, folded to the left. */
  method ParseTerm(p: Cursor) returns (r: Result<Expr, ParseError>)
    requires p.Valid()
    modifies p
    ensures Parsed(r, p.pos) == TermAt(Root, p.tokens, old(p.pos))
    ensures p.Valid()
    decreases p.Remaining(), 6
  {
    var left :- ParseFactor(p);
    r := ParseTermFrom(p, left);
  }

  /** The loop of `term`: each MULTIPLY or DIVIDE and a factor extend the tree `left` built so far. */
  method ParseTermFrom(p: Cursor, left: Expr) returns (r: Result<Expr, ParseError>)
    requires p.Valid()
    modifies p
    ensures Parsed(r, p.pos) == TermFrom(Root, p.tokens, old(p.pos), left)
    ensures p.Valid()
    decreases p.Remaining(), 6
  {
    var node := left;
    while p.current.kind in TermOps
      invariant p.Valid() && p.pos >= old(p.pos)
      invariant TermFrom(Root, p.tokens, p.pos, node) == TermFrom(Root, p.tokens, old(p.pos), left)
      decreases p.Remaining()
    {
      var operator := p.current;
      var _ := p.Eat(p.current.kind);
      var right :- ParseFactor(p);
      node := BinaryOperation(node, operator, right);
    }
    r := Ok(node);
  }

  /** `factor`: leading NEWLINEs are skipped, then the factor proper. */
  method ParseFactor(p: Cursor) returns (r: Result<Expr, ParseError>)
    requires p.Valid()
    modifies p
    ensures Parsed(r, p.pos) == FactorAt(Root, p.tokens, old(p.pos))
    ensures p.Valid()
    decreases p.Remaining(), 5
  {
    p.SkipNewlines();
    r := ParsePrimary(p);
  }

  /**
   * The factor proper: a signed factor, a literal, a parenthesised expression, an array
   * literal, a call (IDENTIFIER then LPAREN), or a plain identifier.
   */
  method ParsePrimary(p: Cursor) returns (r: Result<Expr, ParseError>)
    requires p.Valid()
    modifies p
    ensures Parsed(r, p.pos) == PrimaryAt(Root, p.tokens, old(p.pos))
    ensures p.Valid()
    decreases p.Remaining(), 4
  {
    var token := p.current;
    match token.kind
    case Plus => r := ParseSigned(p);
    case Minus => r := ParseSigned(p);
    case Integer =>
      var _ := p.Eat(Integer);
      r := Ok(Literal(token.value, "integer"));
    case Float =>
      var _ := p.Eat(Float);
      r := Ok(Literal(token.value, "float"));
    case String =>
      var _ := p.Eat(String);
      r := Ok(Literal(token.value, "string"));
    case Boolean =>
      var _ := p.Eat(Boolean);
      r := Ok(Literal(token.value, "boolean"));
    case LParen => r := ParseParenthesized(p);
    case LBracket => r := ParseArrayLiteral(p);
    case Identifier => r := ParseIdentifierFactor(p);
    case _ => r := Err(p.Fail(InvalidFactor(token.kind)));
  }

  /** PLUS or MINUS and the factor it signs. */
  method ParseSigned(p: Cursor) returns (r: Result<Expr, ParseError>)
    requires p.Valid() && p.current.kind in {Plus, Minus}
    modifies p
    ensures Parsed(r, p.pos) == SignedAt(Root, p.tokens, old(p.pos))
    ensures p.Valid()
    decreases p.Remaining(), 3
  {
    var sign := p.current;
    var _ := p.Eat(sign.kind);
    var operand :- ParseFactor(p);
    r := Ok(UnaryOperation(sign, operand));
  }

  /** LPAREN expression RPAREN. */
  method ParseParenthesized(p: Cursor) returns (r: Result<Expr, ParseError>)
    requires p.Valid()
    modifies p
    ensures Parsed(r, p.pos) == ParenthesizedAt(Root, p.tokens, old(p.pos))
    ensures p.Valid()
    decreases p.Remaining(), 3
  {
    var _ :- p.Eat(LParen);
    var node :- ParseExpression(p);
    var _ :- p.Eat(RParen);
    r := Ok(node);
  }

  /** An identifier factor: a call when LPAREN follows, else the name itself. */
  method ParseIdentifierFactor(p: Cursor) returns (r: Result<Expr, ParseError>)
    requires p.Valid() && p.current.kind == TokenKind.Identifier
    modifies p
    ensures Parsed(r, p.pos) == IdentifierFactorAt(Root, p.tokens, old(p.pos))
    ensures p.Valid()
    decreases p.Remaining(), 3
  {
    if p.Lookahead().kind == LParen {
      r := ParseFunctionCall(p);
    } else {
      var name := p.current;
      var _ := p.Eat(TokenKind.Identifier);
      r := Ok(Expr.Identifier(TextOf(name.value)));
    }
  }

  /** `function_call`: IDENTIFIER LPAREN, comma-separated arguments (possibly none), RPAREN. */
  method ParseFunctionCall(p: Cursor) returns (r: Result<Expr, ParseError>)
    requires p.Valid()
    modifies p
    ensures Parsed(r, p.pos) == FunctionCallAt(Root, p.tokens, old(p.pos))
    ensures p.Valid()
    decreases p.Remaining(), 2
  {
    var name :- p.Eat(TokenKind.Identifier);
    var _ :- p.Eat(LParen);
    var arguments :- ParseItems(p, RParen);
    var _ :- p.Eat(RParen);
    r := Ok(FunctionCall(TextOf(name.value), arguments));
  }

  /** `array_literal`: LBRACKET, comma-separated elements (possibly none), RBRACKET. */
  method ParseArrayLiteral(p: Cursor) returns (r: Result<Expr, ParseError>)
    requires p.Valid()
    modifies p
    ensures Parsed(r, p.pos) == ArrayLiteralAt(Root, p.tokens, old(p.pos))
    ensures p.Valid()
    decreases p.Remaining(), 2
  {
    var _ :- p.Eat(LBracket);
    var elements :- ParseItems(p, RBracket);
    var _ :- p.Eat(RBracket);
    r := Ok(ArrayLiteral(elements));
  }

  /**
   * The items of a call or an array literal, up to (not including) `close`: none when `close`
   * comes first, otherwise expressions separated by commas.
   */
  method ParseItems(p: Cursor, close: TokenKind) returns (r: Result<seq<Expr>, ParseError>)
    requires p.Valid()
    modifies p
    ensures Parsed(r, p.pos) == ItemsAt(Root, p.tokens, old(p.pos), close)
    ensures p.Valid()
    decreases p.Remaining(), 12
  {
    if p.current.kind == close {
      return Ok([]);
    }
    var first :- ParseExpression(p);
    r := ParseExpressionListFrom(p, [first]);
  }

  /** `(COMMA expression)*` after the first item, with the items `items` parsed so far. */
  method ParseExpressionListFrom(p: Cursor, items: seq<Expr>) returns (r: Result<seq<Expr>, ParseError>)
    requires p.Valid()
    modifies p
    ensures Parsed(r, p.pos) == ExpressionListFrom(Root, p.tokens, old(p.pos), items)
    ensures p.Valid()
    decreases p.Remaining(), 11
  {
    var list := items;
    while p.current.kind == Comma
      invariant p.Valid() && p.pos >= old(p.pos)
      invariant ExpressionListFrom(Root, p.tokens, p.pos, list) == ExpressionListFrom(Root, p.tokens, old(p.pos), items)
      decreases p.Remaining()
    {
      var _ := p.Eat(Comma);
      var item :- ParseExpression(p);
      list := list + [item];
    }
    r := Ok(list);
  }
}
