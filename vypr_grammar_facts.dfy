/**
 * What the productions of VyprGrammar (and so the methods of VyprParser, which compute them)
 * guarantee: which statement the leading token selects, the lenient layout of if, for and
 * function bodies and the function-body recovery. What expressions build is in
 * ExprGrammarFacts.
 */
module VyprGrammarFacts {
  import opened Wrappers
  import opened Tokens
  import opened Ast
  import opened ParserBase
  import opened ExprGrammar
  import opened VyprGrammar

  // ---- statements ----

  /** The first position from i on that does not hold a DEDENT. */
  function SkipDedentsAt(ts: seq<Token>, i: nat): (j: nat)
    requires Stream(ts)
    ensures i <= j && Cur(ts, j).kind != Dedent
    ensures forall k :: i <= k < j ==> Cur(ts, k).kind == Dedent
    decreases Rem(ts, i)
  {
    if Cur(ts, i).kind == Dedent then SkipDedentsAt(ts, i + 1) else i
  }

  /** `statement` eats any run of DEDENTs and then decides on the token after them. */
  lemma {:induction false} StatementSkipsDedents(ts: seq<Token>, i: nat)
    requires Stream(ts)
    ensures StatementAt(ts, i) == StatementAt(ts, SkipDedentsAt(ts, i))
    decreases Rem(ts, i)
  {
    if Cur(ts, i).kind == Dedent {
      StatementSkipsDedents(ts, i + 1);
    }
  }

  /**
   * Off a DEDENT, the statement built is the kind the leading token (and, for an identifier,
   * the token after it) selects; a token that starts no statement is the "Unexpected token in
   * statement" error, reported at that token.
   */
  lemma StatementKind(ts: seq<Token>, i: nat)
    requires Stream(ts) && Cur(ts, i).kind != Dedent
    ensures var r := StatementAt(ts, i);
      r.result.Ok? ==> Dispatched(Cur(ts, i).kind, Some(Cur(ts, i + 1)), r.result.value)
    ensures !StartsStatement(Cur(ts, i).kind) ==>
      StatementAt(ts, i) == Parsed(Err(FailAt(ts, i, UnexpectedStatement(Cur(ts, i).kind))), i)
  {
    match Cur(ts, i).kind
    case Var => VarDeclarationShape(ts, i);
    case If => IfShape(ts, i);
    case Loop => LoopForms(ts, i);
    case Func => FunctionDeclarationShape(ts, i);
    case Return => ReturnShape(ts, i);
    case Print => PrintInputShape(ts, i);
    case Input => PrintInputShape(ts, i);
    case Identifier => IdentifierStatementChoice(ts, i);
    case _ =>
  }

  /** An identifier starts an assignment exactly when ASSIGN follows it. */
  lemma IdentifierStatementChoice(ts: seq<Token>, i: nat)
    requires Stream(ts)
    ensures var r := IdentifierStatementAt(ts, i);
      r.result.Ok? ==> (r.result.value.Assignment? <==> Cur(ts, i + 1).kind == Assign)
    ensures var r := IdentifierStatementAt(ts, i);
      r.result.Ok? ==> (r.result.value.ExpressionStatement? <==> Cur(ts, i + 1).kind != Assign)
  {
  }

  /**
   * `loop_statement` on LOOP builds a for loop when IDENTIFIER IN follows and a times loop when
   * TIMES comes two tokens ahead; no third token is the lookahead error, anything else the
   * invalid-loop error, both without a move.
   */
  lemma LoopForms(ts: seq<Token>, i: nat)
    requires Stream(ts) && Cur(ts, i).kind == Loop
    ensures var r := LoopAt(ts, i);
      r.result.Ok? ==> (r.result.value.ForLoop? <==> KindAhead(ts, i, 1) == Some(TokenKind.Identifier) && KindAhead(ts, i, 2) == Some(In))
    ensures var r := LoopAt(ts, i);
      r.result.Ok? ==> r.result.value.ForLoop? || r.result.value.TimesLoop?
    ensures KindAhead(ts, i, 2).None? ==> LoopAt(ts, i) == Parsed(Err(FailAt(ts, i, NoLookahead)), i)
    ensures KindAhead(ts, i, 2).Some? && KindAhead(ts, i, 2) != Some(Times) && KindAhead(ts, i, 2) != Some(In)
        ==> LoopAt(ts, i) == Parsed(Err(FailAt(ts, i, InvalidLoop)), i)
  {
  }

  /** `eat_newline_or_eof`: a NEWLINE is consumed, EOF accepted in place, anything else (a DEDENT too) is an error. */
  lemma StatementEnd(ts: seq<Token>, i: nat)
    requires Stream(ts)
    ensures var r := NewlineOrEofAt(ts, i);
      r.result.Ok? <==> Cur(ts, i).kind in {Newline, Eof}
    ensures var r := NewlineOrEofAt(ts, i);
      r.result.Ok? ==> r.end == if Cur(ts, i).kind == Eof then i else i + 1
    ensures var r := NewlineOrEofAt(ts, i);
      r.result.Err? ==> r.end == i && r.result.error.reason == ExpectedStatementEnd(Cur(ts, i).kind)
  {
  }

  /** `var x` declares x; an initial value is parsed exactly when ASSIGN follows the name. */
  lemma VarDeclarationShape(ts: seq<Token>, i: nat)
    requires Stream(ts)
    ensures var r := VarDeclarationAt(ts, i);
      r.result.Ok? ==> (i + 2 < |ts| && ts[i].kind == Var && ts[i + 1].kind == TokenKind.Identifier
        && r.result.value.VarDeclaration?
        && r.result.value.name == TextOf(ts[i + 1].value)
        && (r.result.value.initialValue.Some? <==> ts[i + 2].kind == Assign))
    ensures Cur(ts, i).kind == Var && Cur(ts, i + 1).kind != TokenKind.Identifier
        ==> VarDeclarationAt(ts, i).result == Err(FailAt(ts, i + 1, Expected(TokenKind.Identifier, Cur(ts, i + 1).kind)))
  {
  }

  /** `x = e` assigns to x the value of the expression after ASSIGN. */
  lemma AssignmentShape(ts: seq<Token>, i: nat)
    requires Stream(ts)
    ensures var r := AssignmentAt(ts, i);
      r.result.Ok? ==> (i + 1 < |ts| && ts[i].kind == TokenKind.Identifier && ts[i + 1].kind == Assign
        && r.result.value == Assignment(TextOf(ts[i].value), ExpressionAt(Vypr, ts, i + 2).result.value))
  {
  }

  /** `return` carries no value exactly when NEWLINE or EOF follows it. */
  lemma ReturnShape(ts: seq<Token>, i: nat)
    requires Stream(ts)
    ensures var r := ReturnAt(ts, i);
      r.result.Ok? ==> (i + 1 < |ts| && ts[i].kind == Return && r.result.value.ReturnStatement?
        && (r.result.value.returned.None? <==> ts[i + 1].kind in {Newline, Eof}))
  {
  }

  /**
   * After a print statement's expression a NEWLINE is eaten and a DEDENT or EOF is left in
   * place; anything else is an error where it stands.
   */
  lemma PrintEnd(ts: seq<Token>, i: nat)
    requires Stream(ts)
    ensures var r := PrintEndAt(ts, i);
      r.result.Ok? <==> Cur(ts, i).kind in {Newline, Dedent, Eof}
    ensures var r := PrintEndAt(ts, i);
      r.result.Ok? ==> r.end == if Cur(ts, i).kind == Newline then i + 1 else i
    ensures var r := PrintEndAt(ts, i);
      r.result.Err? ==> r.end == i && r.result.error.reason == ExpectedStatementEnd(Cur(ts, i).kind)
  {
  }

  /** `print e` prints the expression after PRINT; `input x` reads into the identifier after INPUT. */
  lemma PrintInputShape(ts: seq<Token>, i: nat)
    requires Stream(ts)
    ensures var r := PrintAt(ts, i);
      r.result.Ok? ==> i < |ts| && ts[i].kind == Print && r.result.value == PrintStatement(ExpressionAt(Vypr, ts, i + 1).result.value)
    ensures var r := InputAt(ts, i);
      r.result.Ok? ==> (i + 1 < |ts| && ts[i].kind == Input && ts[i + 1].kind == TokenKind.Identifier
        && r.result.value == InputStatement(TextOf(ts[i + 1].value)))
  {
  }

  // ---- block layout ----

  /** The body of a while loop demands COLON NEWLINE INDENT before its statements and a DEDENT after them. */
  lemma StrictSuiteLayout(ts: seq<Token>, i: nat)
    requires Stream(ts)
    ensures var r := StrictSuiteAt(ts, i);
      r.result.Ok? ==> (i + 2 < |ts| && ts[i].kind == Colon && ts[i + 1].kind == Newline && ts[i + 2].kind == Indent
        && 0 < r.end <= |ts| && ts[r.end - 1].kind == Dedent)
    ensures Cur(ts, i).kind == Colon && Cur(ts, i + 1).kind == Newline && Cur(ts, i + 2).kind != Indent
        ==> StrictSuiteAt(ts, i).result == Err(FailAt(ts, i + 2, Expected(Indent, Cur(ts, i + 2).kind)))
  {
    var r := StrictSuiteAt(ts, i);
    if r.result.Ok? {
      var body := BlockFrom(ts, i + 3, {Dedent, Eof}, {}, []);
      assert Cur(ts, body.end).kind == Dedent;
    }
  }

  /**
   * A lenient block: without an INDENT it is the bare statement loop, which eats nothing after
   * its statements; with one, the same loop after the INDENT, and the DEDENT it stops at (if
   * it stops at one) is eaten.
   */
  lemma IndentedBlockLayout(ts: seq<Token>, i: nat, ends: set<TokenKind>, skips: set<TokenKind>)
    requires Stream(ts) && Eof in ends
    ensures Cur(ts, i).kind != Indent ==> IndentedBlockAt(ts, i, ends, skips) == BlockFrom(ts, i, ends, skips, [])
    ensures var r := IndentedBlockAt(ts, i, ends, skips); var body := BlockFrom(ts, i + 1, ends, skips, []);
      Cur(ts, i).kind == Indent ==>
        r.result == body.result && (body.result.Ok? ==> Cur(ts, body.end).kind in ends && r.end == OptionalAt(ts, body.end, Dedent))
  {
  }

  /**
   * The then-suite of an if statement stops at DEDENT, EOF or ELSE; that DEDENT is left in
   * place unless an INDENT opened the suite.
   */
  lemma ThenSuiteStops(ts: seq<Token>, i: nat)
    requires Stream(ts)
    ensures var r := ThenSuiteAt(ts, i);
      r.result.Ok? ==> (i + 1 < |ts| && ts[i].kind == Colon && ts[i + 1].kind == Newline)
    ensures var r := ThenSuiteAt(ts, i);
      r.result.Ok? && Cur(ts, i + 2).kind != Indent ==> Cur(ts, r.end).kind in {Dedent, Eof, Else}
  {
    if ThenSuiteAt(ts, i).result.Ok? {
      IndentedBlockLayout(ts, i + 2, {Dedent, Eof, Else}, {Indent, Newline});
    }
  }

  /** No ELSE: no else branch and no move. ELSE: ELSE COLON NEWLINE and the else body. */
  lemma ElseShape(ts: seq<Token>, i: nat)
    requires Stream(ts)
    ensures Cur(ts, i).kind != Else ==> ElseAt(ts, i) == Parsed(Ok(NoElse), i)
    ensures var r := ElseAt(ts, i);
      Cur(ts, i).kind == Else && r.result.Ok? ==>
        (Cur(ts, i + 1).kind == Colon && Cur(ts, i + 2).kind == Newline &&
         r == Parsed(Ok(ElseBlock(ElseBodyAt(ts, i + 3).result.value)), ElseBodyAt(ts, i + 3).end))
  {
  }

  /**
   * An else body whose first statement (after an optional INDENT) is IF is that one nested if
   * statement and nothing more; any other else body runs up to DEDENT or EOF.
   */
  lemma ElseBodyShape(ts: seq<Token>, i: nat)
    requires Stream(ts)
    ensures var k := OptionalAt(ts, i, Indent); var r := ElseBodyAt(ts, i);
      Cur(ts, k).kind == If && r.result.Ok? ==>
        (IfAt(ts, k).result.Ok? && r.result.value == [IfAt(ts, k).result.value] && r.result.value[0].IfStatement?)
    ensures var k := OptionalAt(ts, i, Indent); var r := ElseBodyAt(ts, i); var body := BlockFrom(ts, k, {Dedent, Eof}, {Newline}, []);
      Cur(ts, k).kind != If && r.result.Ok? ==>
        (r.result == body.result && Cur(ts, body.end).kind in {Dedent, Eof})
  {
    var k := OptionalAt(ts, i, Indent);
    if Cur(ts, k).kind == If && ElseBodyAt(ts, i).result.Ok? {
      IfShape(ts, k);
    }
  }

  /** An if statement starts with IF, and its value is an if statement. */
  lemma IfShape(ts: seq<Token>, i: nat)
    requires Stream(ts)
    ensures var r := IfAt(ts, i);
      r.result.Ok? ==> i < |ts| && ts[i].kind == If && r.result.value.IfStatement?
    ensures Cur(ts, i).kind != If ==> IfAt(ts, i) == Parsed(Err(FailAt(ts, i, Expected(If, Cur(ts, i).kind))), i)
  {
  }

  /**
   * A times loop body ends at DEDENT, EOF, VAR or FUNC, whatever the indentation; when it
   * ended at a DEDENT that DEDENT is eaten, otherwise the stopping token is left.
   */
  lemma TimesBodyStops(ts: seq<Token>, i: nat)
    requires Stream(ts)
    ensures var r := TimesBodyAt(ts, i);
      r.result.Ok? ==> Cur(ts, r.end).kind in {Eof, Var, Func} || (0 < r.end <= |ts| && ts[r.end - 1].kind == Dedent)
  {
  }

  /** The INDENT before a times loop body is optional: eating it or not parses the same. */
  lemma TimesBodyIndentOptional(ts: seq<Token>, i: nat)
    requires Stream(ts) && Cur(ts, i).kind == Indent
    ensures TimesBodyAt(ts, i) == TimesBodyAt(ts, i + 1)
  {
    if Cur(ts, i + 1).kind == Indent {
      assert BlockFrom(ts, i + 1, LoopBodyEnds, {Indent, Newline}, [])
          == BlockFrom(ts, i + 2, LoopBodyEnds, {Indent, Newline}, []);
    }
  }

  /**
   * The for-body loop keeps the statements it had and stops only at DEDENT or EOF, or, in an
   * indented body, at a PRINT in column 4 or less.
   */
  lemma {:induction false} ForBodyStops(ts: seq<Token>, i: nat, indented: bool, acc: seq<Stmt>)
    requires Stream(ts)
    ensures var r := ForBodyFrom(ts, i, indented, acc);
      r.result.Ok? ==> |acc| <= |r.result.value| && r.result.value[..|acc|] == acc
    ensures var r := ForBodyFrom(ts, i, indented, acc); var t := Cur(ts, r.end);
      r.result.Ok? ==> t.kind in {Dedent, Eof} || (indented && t.kind == Print && t.column <= 4)
    decreases Rem(ts, i)
  {
    var t := Cur(ts, i);
    if t.kind in {Dedent, Eof} {
    } else if t.kind == Newline {
      ForBodyStops(ts, i + 1, indented, acc);
    } else if indented && t.kind == Print && t.column <= 4 {
    } else {
      var s := StatementAt(ts, i);
      if s.result.Ok? {
        var next := acc + [s.result.value];
        ForBodyStops(ts, SkipNewlinesAt(ts, s.end), indented, next);
        var body := ForBodyFrom(ts, SkipNewlinesAt(ts, s.end), indented, next).result;
        if body.Ok? {
          assert body.value[..|acc|] == body.value[..|next|][..|acc|];
        }
      }
    }
  }

  /**
   * A for-loop body without an INDENT runs on to DEDENT or EOF whatever column its PRINTs
   * stand in; an indented one stops before an outdented PRINT. A DEDENT where it stops is
   * eaten in both cases.
   */
  lemma ForBodyShape(ts: seq<Token>, i: nat)
    requires Stream(ts)
    ensures var r := ForBodyAt(ts, i); var body := ForBodyFrom(ts, OptionalAt(ts, i, Indent), Cur(ts, i).kind == Indent, []);
      r.result.Ok? ==> r.result == body.result && r.end == OptionalAt(ts, body.end, Dedent)
    ensures var r := ForBodyAt(ts, i);
      Cur(ts, i).kind != Indent && r.result.Ok? ==> Cur(ts, r.end).kind == Eof || (0 < r.end <= |ts| && ts[r.end - 1].kind == Dedent)
  {
    ForBodyStops(ts, OptionalAt(ts, i, Indent), Cur(ts, i).kind == Indent, []);
  }

  // ---- functions ----

  /** No statement of `body` is a return statement. */
  predicate NoReturn(body: seq<Stmt>)
  {
    forall k :: 0 <= k < |body| ==> !body[k].ReturnStatement?
  }

  /**
   * The function-body loop keeps what it had, stops right after its first return statement
   * (so a return is only ever last), and otherwise stops only at DEDENT, FUNC or EOF: the
   * recovery that ends the loop past the last token leaves it at EOF too.
   */
  lemma {:induction false} FunctionBodyStops(ts: seq<Token>, i: nat, acc: seq<Stmt>)
    requires Stream(ts) && NoReturn(acc)
    ensures var r := FunctionBodyFrom(ts, i, acc);
      |acc| <= |r.result.value| && r.result.value[..|acc|] == acc && ReturnOnlyLast(r.result.value)
    ensures var r := FunctionBodyFrom(ts, i, acc);
      NoReturn(r.result.value) ==> Cur(ts, r.end).kind in TopLevel
    decreases Rem(ts, i)
  {
    if Cur(ts, i).kind in TopLevel {
    } else if Cur(ts, i).kind in {Indent, Newline} {
      FunctionBodyStops(ts, i + 1, acc);
    } else {
      var s := StatementAt(ts, i);
      if s.result.Ok? {
        var next := acc + [s.result.value];
        if s.result.value.ReturnStatement? {
          assert next[..|acc|] == acc;
          assert !NoReturn(next) by { assert next[|acc|] == s.result.value; }
        } else {
          FunctionBodyStops(ts, s.end, next);
          var body := FunctionBodyFrom(ts, s.end, next).result;
          assert body.value[..|acc|] == body.value[..|next|][..|acc|];
        }
      } else if s.end + 1 < |ts| {
        FunctionBodyStops(ts, s.end + 1, acc);
      }
    }
  }

  /**
   * Error recovery: a statement of a function body that fails is dropped, and the body goes
   * on one token past where the failure was raised, or ends there at EOF when no token is left.
   */
  lemma FunctionBodyRecovers(ts: seq<Token>, i: nat, acc: seq<Stmt>)
    requires Stream(ts) && Cur(ts, i).kind !in TopLevel + {Indent, Newline} && StatementAt(ts, i).result.Err?
    ensures var e := StatementAt(ts, i).end;
      e + 1 < |ts| ==> FunctionBodyFrom(ts, i, acc) == FunctionBodyFrom(ts, e + 1, acc)
    ensures var e := StatementAt(ts, i).end;
      e + 1 >= |ts| ==> FunctionBodyFrom(ts, i, acc) == Parsed(Ok(acc), e + 1) && Cur(ts, e + 1).kind == Eof
  {
  }

  /**
   * A function declaration is named by the identifier after FUNC, and in its body a return
   * statement can only come last.
   */
  lemma FunctionDeclarationShape(ts: seq<Token>, i: nat)
    requires Stream(ts)
    ensures var r := FunctionDeclarationAt(ts, i);
      r.result.Ok? ==> (r.result.value.FunctionDeclaration? && ReturnOnlyLast(r.result.value.body)
        && Cur(ts, i).kind == Func && Cur(ts, i + 1).kind == TokenKind.Identifier
        && r.result.value.name == TextOf(Cur(ts, i + 1).value))
  {
    FunctionSuiteShape(ts, FunctionHeaderAt(ts, i).end);
  }

  /** The body after `:` NEWLINE has a return statement only as its last statement. */
  lemma FunctionSuiteShape(ts: seq<Token>, i: nat)
    requires Stream(ts)
    ensures var r := FunctionSuiteAt(ts, i);
      r.result.Ok? ==> ReturnOnlyLast(r.result.value)
    ensures Cur(ts, i).kind == Colon && Cur(ts, i + 1).kind == Newline ==> FunctionSuiteAt(ts, i).result.Ok?
  {
    FunctionBlockShape(ts, i + 2);
  }

  /**
   * With or without the INDENT before it, a function body never fails and has a return
   * statement only as its last statement.
   */
  lemma FunctionBlockShape(ts: seq<Token>, i: nat)
    requires Stream(ts)
    ensures var r := FunctionBlockAt(ts, i);
      r.result.Ok? && ReturnOnlyLast(r.result.value)
  {
    FunctionBodyStops(ts, OptionalAt(ts, i, Indent), []);
  }

  /** The parameter list is empty unless an IDENTIFIER comes first, and then that name is first. */
  lemma ParametersShape(ts: seq<Token>, i: nat)
    requires Stream(ts)
    ensures Cur(ts, i).kind != TokenKind.Identifier ==> ParametersAt(ts, i) == Parsed(Ok([]), i)
    ensures var r := ParametersAt(ts, i);
      Cur(ts, i).kind == TokenKind.Identifier && r.result.Ok? ==>
        (|r.result.value| >= 1 && r.result.value[0] == TextOf(Cur(ts, i).value) && Cur(ts, r.end).kind != Comma)
  {
    if Cur(ts, i).kind == TokenKind.Identifier {
      ParametersFromShape(ts, i + 1, [TextOf(Cur(ts, i).value)]);
    }
  }

  /** The comma loop keeps the names it had and stops only where no COMMA follows. */
  lemma {:induction false} ParametersFromShape(ts: seq<Token>, i: nat, acc: seq<string>)
    requires Stream(ts)
    ensures var r := ParametersFrom(ts, i, acc);
      r.result.Ok? ==> |acc| <= |r.result.value| && r.result.value[..|acc|] == acc && Cur(ts, r.end).kind != Comma
    decreases Rem(ts, i)
  {
    if Cur(ts, i).kind == Comma {
      var name := EatAt(ts, i + 1, TokenKind.Identifier);
      if name.result.Ok? {
        var next := acc + [TextOf(name.result.value.value)];
        ParametersFromShape(ts, name.end, next);
        var r := ParametersFrom(ts, name.end, next).result;
        if r.Ok? {
          assert r.value[..|acc|] == r.value[..|next|][..|acc|];
        }
      }
    }
  }
}
