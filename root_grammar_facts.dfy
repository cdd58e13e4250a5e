/**
 * What the productions of RootGrammar (and so the methods of RootParser, which compute them)
 * guarantee: which statement the leading token selects, the layout each block demands, where
 * a function body stops. What expressions build is in ExprGrammarFacts.
 */
module RootGrammarFacts {
  import opened Wrappers
  import opened Tokens
  import opened Ast
  import opened ParserBase
  import opened ExprGrammar
  import opened RootGrammar

  // ---- statements ----

  /** The first position from i on that does not hold a DEDENT. */
  function SkipDedentsAt(ts: seq<Token>, i: nat): (j: nat)
    requires Stream(ts)
    ensures i <= j && Cur(ts, j).kind != Dedent
    ensures forall k :: i <= k < j ==> Cur(ts, k).kind == Dedent
    decreases Rem(ts, i)
  {
    if Cur(ts, i).kind == Dedent then SkipDedentsAt(ts, i + 1) else i
  }

  /** `statement` eats any run of DEDENTs and then decides on the token after them. */
  lemma {:induction false} StatementSkipsDedents(ts: seq<Token>, i: nat)
    requires Stream(ts)
    ensures StatementAt(ts, i) == StatementAt(ts, SkipDedentsAt(ts, i))
    decreases Rem(ts, i)
  {
    if Cur(ts, i).kind == Dedent {
      StatementSkipsDedents(ts, i + 1);
    }
  }

  /**
   * Off a DEDENT, the statement built is the kind the leading token (and, for an identifier,
   * the token after it) selects; a token that starts no statement is the "Unexpected token in
   * statement" error, reported at that token.
   */
  lemma StatementKind(ts: seq<Token>, i: nat)
    requires Stream(ts) && Cur(ts, i).kind != Dedent
    ensures var r := StatementAt(ts, i);
      r.result.Ok? ==> Dispatched(Cur(ts, i).kind, Some(Cur(ts, i + 1)), r.result.value)
    ensures !StartsStatement(Cur(ts, i).kind) ==>
      StatementAt(ts, i) == Parsed(Err(FailAt(ts, i, UnexpectedStatement(Cur(ts, i).kind))), i)
  {
    match Cur(ts, i).kind
    case Var => VarDeclarationShape(ts, i);
    case If => IfShape(ts, i);
    case Loop => LoopForms(ts, i);
    case Func => FunctionDeclarationShape(ts, i);
    case Return => ReturnShape(ts, i);
    case Print => PrintInputShape(ts, i);
    case Input => PrintInputShape(ts, i);
    case Identifier => IdentifierStatementChoice(ts, i);
    case _ =>
  }

  /** An identifier starts an assignment exactly when ASSIGN follows it. */
  lemma IdentifierStatementChoice(ts: seq<Token>, i: nat)
    requires Stream(ts)
    ensures var r := IdentifierStatementAt(ts, i);
      r.result.Ok? ==> (r.result.value.Assignment? <==> Cur(ts, i + 1).kind == Assign)
    ensures var r := IdentifierStatementAt(ts, i);
      r.result.Ok? ==> (r.result.value.ExpressionStatement? <==> Cur(ts, i + 1).kind != Assign)
  {
  }

  /**
   * `loop_statement` on LOOP builds a for loop when IDENTIFIER IN follows and a times loop when
   * TIMES comes two tokens ahead; no third token is the lookahead error, anything else the
   * invalid-loop error, both without a move.
   */
  lemma LoopForms(ts: seq<Token>, i: nat)
    requires Stream(ts) && Cur(ts, i).kind == Loop
    ensures var r := LoopAt(ts, i);
      r.result.Ok? ==> (r.result.value.ForLoop? <==> KindAhead(ts, i, 1) == Some(TokenKind.Identifier) && KindAhead(ts, i, 2) == Some(In))
    ensures var r := LoopAt(ts, i);
      r.result.Ok? ==> r.result.value.ForLoop? || r.result.value.TimesLoop?
    ensures KindAhead(ts, i, 2).None? ==> LoopAt(ts, i) == Parsed(Err(FailAt(ts, i, NoLookahead)), i)
    ensures KindAhead(ts, i, 2).Some? && KindAhead(ts, i, 2) != Some(Times) && KindAhead(ts, i, 2) != Some(In)
        ==> LoopAt(ts, i) == Parsed(Err(FailAt(ts, i, InvalidLoop)), i)
  {
  }

  /** `eat_newline_or_eof`: a NEWLINE or DEDENT is consumed, EOF accepted in place, anything else is an error. */
  lemma StatementEnd(ts: seq<Token>, i: nat)
    requires Stream(ts)
    ensures var r := NewlineOrEofAt(ts, i);
      r.result.Ok? <==> Cur(ts, i).kind in {Newline, Dedent, Eof}
    ensures var r := NewlineOrEofAt(ts, i);
      r.result.Ok? ==> r.end == if Cur(ts, i).kind == Eof then i else i + 1
    ensures var r := NewlineOrEofAt(ts, i);
      r.result.Err? ==> r.end == i && r.result.error.reason == ExpectedStatementEnd(Cur(ts, i).kind)
  {
  }

  /** `var x` declares x; an initial value is parsed exactly when ASSIGN follows the name. */
  lemma VarDeclarationShape(ts: seq<Token>, i: nat)
    requires Stream(ts)
    ensures var r := VarDeclarationAt(ts, i);
      r.result.Ok? ==> (i + 2 < |ts| && ts[i].kind == Var && ts[i + 1].kind == TokenKind.Identifier
        && r.result.value.VarDeclaration?
        && r.result.value.name == TextOf(ts[i + 1].value)
        && (r.result.value.initialValue.Some? <==> ts[i + 2].kind == Assign))
    ensures Cur(ts, i).kind == Var && Cur(ts, i + 1).kind != TokenKind.Identifier
        ==> VarDeclarationAt(ts, i).result == Err(FailAt(ts, i + 1, Expected(TokenKind.Identifier, Cur(ts, i + 1).kind)))
  {
  }

  /** `x = e` assigns to x the value of the expression after ASSIGN. */
  lemma AssignmentShape(ts: seq<Token>, i: nat)
    requires Stream(ts)
    ensures var r := AssignmentAt(ts, i);
      r.result.Ok? ==> (i + 1 < |ts| && ts[i].kind == TokenKind.Identifier && ts[i + 1].kind == Assign
        && r.result.value == Assignment(TextOf(ts[i].value), ExpressionAt(Root, ts, i + 2).result.value))
  {
  }

  /** `return` carries no value exactly when NEWLINE or EOF follows it. */
  lemma ReturnShape(ts: seq<Token>, i: nat)
    requires Stream(ts)
    ensures var r := ReturnAt(ts, i);
      r.result.Ok? ==> (i + 1 < |ts| && ts[i].kind == Return && r.result.value.ReturnStatement?
        && (r.result.value.returned.None? <==> ts[i + 1].kind in {Newline, Eof}))
  {
  }

  /** `print e` prints the expression after PRINT; `input x` reads into the identifier after INPUT. */
  lemma PrintInputShape(ts: seq<Token>, i: nat)
    requires Stream(ts)
    ensures var r := PrintAt(ts, i);
      r.result.Ok? ==> i < |ts| && ts[i].kind == Print && r.result.value == PrintStatement(ExpressionAt(Root, ts, i + 1).result.value)
    ensures var r := InputAt(ts, i);
      r.result.Ok? ==> (i + 1 < |ts| && ts[i].kind == Input && ts[i + 1].kind == TokenKind.Identifier
        && r.result.value == InputStatement(TextOf(ts[i + 1].value)))
  {
  }

  // ---- block layout ----

  /**
   * The branches of `if_statement` and the body of a while loop demand all of COLON NEWLINE
   * INDENT before their statements and a DEDENT after them; an absent INDENT is an error
   * reported at the token found in its place.
   */
  lemma StrictSuiteLayout(ts: seq<Token>, i: nat)
    requires Stream(ts)
    ensures var r := StrictSuiteAt(ts, i);
      r.result.Ok? ==> (i + 2 < |ts| && ts[i].kind == Colon && ts[i + 1].kind == Newline && ts[i + 2].kind == Indent
        && 0 < r.end <= |ts| && ts[r.end - 1].kind == Dedent)
    ensures Cur(ts, i).kind == Colon && Cur(ts, i + 1).kind == Newline && Cur(ts, i + 2).kind != Indent
        ==> StrictSuiteAt(ts, i).result == Err(FailAt(ts, i + 2, Expected(Indent, Cur(ts, i + 2).kind)))
  {
    var r := StrictSuiteAt(ts, i);
    if r.result.Ok? {
      var body := BlockFrom(ts, i + 3, {Dedent, Eof}, {}, []);
      assert Cur(ts, body.end).kind == Dedent;
    }
  }

  /** No ELSE: no else branch and no move. ELSE: an else block laid out as a strict suite. */
  lemma ElseShape(ts: seq<Token>, i: nat)
    requires Stream(ts)
    ensures Cur(ts, i).kind != Else ==> ElseAt(ts, i) == Parsed(Ok(NoElse), i)
    ensures Cur(ts, i).kind == Else && ElseAt(ts, i).result.Ok?
        ==> ElseAt(ts, i) == Parsed(Ok(ElseBlock(StrictSuiteAt(ts, i + 1).result.value)), StrictSuiteAt(ts, i + 1).end)
  {
  }

  /** An if statement starts with IF, and both its branches are strict suites. */
  lemma IfShape(ts: seq<Token>, i: nat)
    requires Stream(ts)
    ensures var r := IfAt(ts, i);
      r.result.Ok? ==> i < |ts| && ts[i].kind == If && r.result.value.IfStatement?
    ensures Cur(ts, i).kind != If ==> IfAt(ts, i) == Parsed(Err(FailAt(ts, i, Expected(If, Cur(ts, i).kind))), i)
  {
  }

  /**
   * A times or for loop body ends at DEDENT, EOF, VAR or FUNC, whatever the indentation;
   * when it ended at a DEDENT that DEDENT is eaten, otherwise the stopping token is left.
   */
  lemma LoopBodyStops(ts: seq<Token>, i: nat)
    requires Stream(ts)
    ensures var r := LoopBodyAt(ts, i);
      r.result.Ok? ==> Cur(ts, r.end).kind in {Eof, Var, Func} || (0 < r.end <= |ts| && ts[r.end - 1].kind == Dedent)
  {
  }

  /** The INDENT before a times or for loop body is optional: eating it or not parses the same. */
  lemma LoopBodyIndentOptional(ts: seq<Token>, i: nat)
    requires Stream(ts) && Cur(ts, i).kind == Indent
    ensures LoopBodyAt(ts, i) == LoopBodyAt(ts, i + 1)
  {
    if Cur(ts, i + 1).kind == Indent {
      assert BlockFrom(ts, i + 1, LoopBodyEnds, {Indent, Newline}, [])
          == BlockFrom(ts, i + 2, LoopBodyEnds, {Indent, Newline}, []);
    }
  }

  // ---- functions ----

  /** No statement of `body` is a return statement. */
  predicate NoReturn(body: seq<Stmt>)
  {
    forall k :: 0 <= k < |body| ==> !body[k].ReturnStatement?
  }

  /**
   * The function-body loop keeps what it had, stops right after its first return statement
   * (so a return is only ever last), and otherwise stops only at DEDENT, FUNC or EOF.
   */
  lemma {:induction false} FunctionBodyStops(ts: seq<Token>, i: nat, acc: seq<Stmt>)
    requires Stream(ts) && NoReturn(acc)
    ensures var r := FunctionBodyFrom(ts, i, acc);
      r.result.Ok? ==> |acc| <= |r.result.value| && r.result.value[..|acc|] == acc && ReturnOnlyLast(r.result.value)
    ensures var r := FunctionBodyFrom(ts, i, acc);
      r.result.Ok? && NoReturn(r.result.value) ==> Cur(ts, r.end).kind in TopLevel
    decreases Rem(ts, i)
  {
    if Cur(ts, i).kind in TopLevel {
    } else if Cur(ts, i).kind in {Indent, Newline} {
      FunctionBodyStops(ts, i + 1, acc);
    } else {
      var s := StatementAt(ts, i);
      if s.result.Ok? {
        var next := acc + [s.result.value];
        if s.result.value.ReturnStatement? {
          assert next[..|acc|] == acc;
          assert !NoReturn(next) by { assert next[|acc|] == s.result.value; }
        } else {
          FunctionBodyStops(ts, s.end, next);
          var body := FunctionBodyFrom(ts, s.end, next).result;
          if body.Ok? {
            assert body.value[..|acc|] == body.value[..|next|][..|acc|];
          }
        }
      }
    }
  }

  /**
   * A function declaration is named by the identifier after FUNC, and in its body a return
   * statement can only come last.
   */
  lemma FunctionDeclarationShape(ts: seq<Token>, i: nat)
    requires Stream(ts)
    ensures var r := FunctionDeclarationAt(ts, i);
      r.result.Ok? ==> (r.result.value.FunctionDeclaration? && ReturnOnlyLast(r.result.value.body)
        && Cur(ts, i).kind == Func && Cur(ts, i + 1).kind == TokenKind.Identifier
        && r.result.value.name == TextOf(Cur(ts, i + 1).value))
  {
    FunctionSuiteShape(ts, FunctionHeaderAt(ts, i).end);
  }

  /** The body after `:` NEWLINE has a return statement only as its last statement. */
  lemma FunctionSuiteShape(ts: seq<Token>, i: nat)
    requires Stream(ts)
    ensures var r := FunctionSuiteAt(ts, i);
      r.result.Ok? ==> ReturnOnlyLast(r.result.value)
  {
    FunctionBlockShape(ts, i + 2);
  }

  /**
   * With or without the INDENT before it, a function body has a return statement only as its
   * last statement, and one without a return ends at DEDENT, FUNC or EOF.
   */
  lemma FunctionBlockShape(ts: seq<Token>, i: nat)
    requires Stream(ts)
    ensures var r := FunctionBlockAt(ts, i);
      r.result.Ok? ==> ReturnOnlyLast(r.result.value)
  {
    FunctionBodyStops(ts, OptionalAt(ts, i, Indent), []);
  }

  /** The parameter list is empty unless an IDENTIFIER comes first, and then that name is first. */
  lemma ParametersShape(ts: seq<Token>, i: nat)
    requires Stream(ts)
    ensures Cur(ts, i).kind != TokenKind.Identifier ==> ParametersAt(ts, i) == Parsed(Ok([]), i)
    ensures var r := ParametersAt(ts, i);
      Cur(ts, i).kind == TokenKind.Identifier && r.result.Ok? ==>
        (|r.result.value| >= 1 && r.result.value[0] == TextOf(Cur(ts, i).value) && Cur(ts, r.end).kind != Comma)
  {
    if Cur(ts, i).kind == TokenKind.Identifier {
      ParametersFromShape(ts, i + 1, [TextOf(Cur(ts, i).value)]);
    }
  }

  /** The comma loop keeps the names it had and stops only where no COMMA follows. */
  lemma {:induction false} ParametersFromShape(ts: seq<Token>, i: nat, acc: seq<string>)
    requires Stream(ts)
    ensures var r := ParametersFrom(ts, i, acc);
      r.result.Ok? ==> |acc| <= |r.result.value| && r.result.value[..|acc|] == acc && Cur(ts, r.end).kind != Comma
    decreases Rem(ts, i)
  {
    if Cur(ts, i).kind == Comma {
      var name := EatAt(ts, i + 1, TokenKind.Identifier);
      if name.result.Ok? {
        var next := acc + [TextOf(name.result.value.value)];
        ParametersFromShape(ts, name.end, next);
        var r := ParametersFrom(ts, name.end, next).result;
        if r.Ok? {
          assert r.value[..|acc|] == r.value[..|next|][..|acc|];
        }
      }
    }
  }
}
