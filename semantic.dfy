/**
 * The semantic analyzer of semantic_analyzer.py: a chain of symbol tables walked by a
 * visitor that records errors and never stops on one.
 *
 * Symbol tables are kept in an arena: table i names its enclosing table by index, always
 * an earlier one, and table 0 is the global scope. `current_scope` is an index into the
 * arena, so "the same scope object" is the same index.
 */
module Semantic {
  import opened Wrappers
  import opened Ast

  /** What `define` stores: None for variables and parameters, a function's parameter list. */
  datatype Symbol = Untyped | FunctionInfo(params: seq<string>)

  datatype SymbolTable = SymbolTable(symbols: map<string, Symbol>, enclosing: Option<nat>)

  datatype SemanticError =
    | VariableAlreadyDeclared(name: string)
    | FunctionAlreadyDeclared(name: string)
    | VariableNotDeclared(name: string)
    | FunctionNotDeclared(name: string)
    | ArgumentCountMismatch(name: string, expected: nat, got: nat)

  /** Every table but the global one encloses in an earlier table. */
  predicate WellFormed(scopes: seq<SymbolTable>)
  {
    |scopes| > 0 && scopes[0].enclosing.None? &&
    forall i :: 0 < i < |scopes| ==> scopes[i].enclosing.Some? && scopes[i].enclosing.value < i
  }

  /** The tables `lookup` and `resolve` visit, from table i out to the global one. */
  function Chain(scopes: seq<SymbolTable>, i: nat): (c: seq<nat>)
    requires WellFormed(scopes) && i < |scopes|
    ensures |c| > 0 && c[0] == i && c[|c| - 1] == 0
    ensures forall k :: 0 <= k < |c| ==> c[k] < |scopes|
    decreases i
  {
    if i == 0 then [0] else [i] + Chain(scopes, scopes[i].enclosing.value)
  }

  /** `SymbolTable.resolve`. */
  function Resolve(scopes: seq<SymbolTable>, i: nat, name: string): bool
    requires WellFormed(scopes) && i < |scopes|
    decreases i
  {
    if name in scopes[i].symbols then true
    else if i == 0 then false
    else Resolve(scopes, scopes[i].enclosing.value, name)
  }

  /** `SymbolTable.lookup`; None when no table has the name (Python cannot tell that from a stored None). */
  function Lookup(scopes: seq<SymbolTable>, i: nat, name: string): Option<Symbol>
    requires WellFormed(scopes) && i < |scopes|
    decreases i
  {
    if name in scopes[i].symbols then Some(scopes[i].symbols[name])
    else if i == 0 then None
    else Lookup(scopes, scopes[i].enclosing.value, name)
  }

  /** A name resolves exactly when a table on the chain defines it. */
  lemma {:induction false} ResolveFollowsChain(scopes: seq<SymbolTable>, i: nat, name: string)
    requires WellFormed(scopes) && i < |scopes|
    ensures Resolve(scopes, i, name) <==>
      exists k :: 0 <= k < |Chain(scopes, i)| && name in scopes[Chain(scopes, i)[k]].symbols
    decreases i
  {
    var c := Chain(scopes, i);
    if name in scopes[i].symbols {
      assert name in scopes[Chain(scopes, i)[0]].symbols;
    } else if i > 0 {
      var j := scopes[i].enclosing.value;
      ResolveFollowsChain(scopes, j, name);
      var d := Chain(scopes, j);
      assert c == [i] + d;
      if Resolve(scopes, j, name) {
        var k :| 0 <= k < |d| && name in scopes[d[k]].symbols;
        assert c[k + 1] == d[k];
      }
      if exists k :: 0 <= k < |c| && name in scopes[c[k]].symbols {
        var k :| 0 <= k < |c| && name in scopes[c[k]].symbols;
        assert k > 0 && c[k] == d[k - 1];
      }
    }
  }

  /** `lookup` returns the entry of the nearest table on the chain that has the name. */
  lemma {:induction false} LookupFindsNearest(scopes: seq<SymbolTable>, i: nat, name: string, k: nat)
    requires WellFormed(scopes) && i < |scopes|
    requires k < |Chain(scopes, i)| && name in scopes[Chain(scopes, i)[k]].symbols
    requires forall m :: 0 <= m < k ==> name !in scopes[Chain(scopes, i)[m]].symbols
    ensures Lookup(scopes, i, name) == Some(scopes[Chain(scopes, i)[k]].symbols[name])
    decreases i
  {
    var c := Chain(scopes, i);
    if k > 0 {
      assert name !in scopes[c[0]].symbols;
      var j := scopes[i].enclosing.value;
      var d := Chain(scopes, j);
      assert c == [i] + d;
      forall m | 0 <= m < k - 1 ensures name !in scopes[d[m]].symbols {
        assert d[m] == c[m + 1];
      }
      assert d[k - 1] == c[k];
      LookupFindsNearest(scopes, j, name, k - 1);
    }
  }

  /** `resolve` succeeds exactly when `lookup` finds an entry. */
  lemma {:induction false} ResolveIffLookupFinds(scopes: seq<SymbolTable>, i: nat, name: string)
    requires WellFormed(scopes) && i < |scopes|
    ensures Resolve(scopes, i, name) <==> Lookup(scopes, i, name).Some?
    decreases i
  {
    if name !in scopes[i].symbols && i > 0 {
      ResolveIffLookupFinds(scopes, scopes[i].enclosing.value, name);
    }
  }

  function Flatten<T>(parts: seq<seq<T>>): seq<T>
  {
    if |parts| == 0 then [] else Flatten(parts[..|parts| - 1]) + parts[|parts| - 1]
  }

  lemma {:induction false} FlattenEmpty<T>(parts: seq<seq<T>>)
    ensures Flatten(parts) == [] <==> forall i :: 0 <= i < |parts| ==> parts[i] == []
  {
    if |parts| > 0 {
      FlattenEmpty(parts[..|parts| - 1]);
      assert forall i :: 0 <= i < |parts| - 1 ==> parts[..|parts| - 1][i] == parts[i];
    }
  }

  /**
   * The errors visiting expression e records, in order. Literals, array literals and
   * property accesses have no visitor (`generic_visit` finds no children) and record none;
   * a call to a name that is not a function records one error and visits no argument.
   */
  function ExprErrors(scopes: seq<SymbolTable>, cur: nat, e: Expr): seq<SemanticError>
    requires WellFormed(scopes) && cur < |scopes|
    decreases e
  {
    match e
    case BinaryOperation(l, _, r) => ExprErrors(scopes, cur, l) + ExprErrors(scopes, cur, r)
    case UnaryOperation(_, o) => ExprErrors(scopes, cur, o)
    case Literal(_, _) => []
    case Identifier(n) => if Resolve(scopes, cur, n) then [] else [VariableNotDeclared(n)]
    case FunctionCall(f, args) =>
      var info := Lookup(scopes, cur, f);
      if info.Some? && info.value.FunctionInfo? then
        var ps := info.value.params;
        (if |ps| != |args| then [ArgumentCountMismatch(f, |ps|, |args|)] else []) +
        Flatten(seq(|args|, i requires 0 <= i < |args| => ExprErrors(scopes, cur, args[i])))
      else [FunctionNotDeclared(f)]
    case ArrayLiteral(_) => []
    case PropertyAccess(_, _) => []
  }

  /**
   * An expression is well scoped when every identifier the visitor reaches resolves and
   * every call it reaches names a function and passes it as many arguments as it has
   * parameters.
   */
  predicate WellScoped(scopes: seq<SymbolTable>, cur: nat, e: Expr)
    requires WellFormed(scopes) && cur < |scopes|
    decreases e
  {
    match e
    case BinaryOperation(l, _, r) => WellScoped(scopes, cur, l) && WellScoped(scopes, cur, r)
    case UnaryOperation(_, o) => WellScoped(scopes, cur, o)
    case Identifier(n) => Resolve(scopes, cur, n)
    case FunctionCall(f, args) =>
      Lookup(scopes, cur, f).Some? && Lookup(scopes, cur, f).value.FunctionInfo? &&
      |Lookup(scopes, cur, f).value.params| == |args| &&
      forall i :: 0 <= i < |args| ==> WellScoped(scopes, cur, args[i])
    case _ => true
  }

  /** Visiting an expression records no error exactly when it is well scoped. */
  lemma {:induction false} NoErrorsIffWellScoped(scopes: seq<SymbolTable>, cur: nat, e: Expr)
    requires WellFormed(scopes) && cur < |scopes|
    ensures ExprErrors(scopes, cur, e) == [] <==> WellScoped(scopes, cur, e)
    decreases e
  {
    match e
    case BinaryOperation(l, _, r) =>
      NoErrorsIffWellScoped(scopes, cur, l);
      NoErrorsIffWellScoped(scopes, cur, r);
    case UnaryOperation(_, o) =>
      NoErrorsIffWellScoped(scopes, cur, o);
    case FunctionCall(f, args) =>
      if Lookup(scopes, cur, f).Some? && Lookup(scopes, cur, f).value.FunctionInfo? {
        var parts := seq(|args|, i requires 0 <= i < |args| => ExprErrors(scopes, cur, args[i]));
        FlattenEmpty(parts);
        forall i | 0 <= i < |args| ensures parts[i] == [] <==> WellScoped(scopes, cur, args[i]) {
          NoErrorsIffWellScoped(scopes, cur, args[i]);
        }
      }
    case _ =>
  }

  /** A call whose argument count differs from the function's parameter count is reported. */
  lemma ArityMismatchReported(scopes: seq<SymbolTable>, cur: nat, f: string, args: seq<Expr>)
    requires WellFormed(scopes) && cur < |scopes|
    requires Lookup(scopes, cur, f).Some? && Lookup(scopes, cur, f).value.FunctionInfo?
    requires |Lookup(scopes, cur, f).value.params| != |args|
    ensures var errs := ExprErrors(scopes, cur, FunctionCall(f, args));
      |errs| > 0 && errs[0] == ArgumentCountMismatch(f, |Lookup(scopes, cur, f).value.params|, |args|)
  {
  }

  /**
   * The state a visit leaves behind, relative to the state before it: no table changes its
   * enclosing link, tables other than the current one keep their names, and the current one
   * only gains names. New tables may be appended.
   */
  predicate Extends(before: seq<SymbolTable>, after: seq<SymbolTable>, cur: nat)
  {
    |after| >= |before| &&
    (forall i :: 0 <= i < |before| ==> after[i].enclosing == before[i].enclosing) &&
    (forall i :: 0 <= i < |before| && i != cur ==> after[i].symbols == before[i].symbols) &&
    (cur < |before| ==> forall n :: n in before[cur].symbols ==>
      n in after[cur].symbols && after[cur].symbols[n] == before[cur].symbols[n])
  }

  /** Extends composes when the second visit works in the same table or in one the first created. */
  lemma ExtendsTrans(a: seq<SymbolTable>, b: seq<SymbolTable>, c: seq<SymbolTable>, x: nat, y: nat)
    requires Extends(a, b, x) && Extends(b, c, y) && (y == x || y >= |a|)
    ensures Extends(a, c, x)
  {
  }

  class Analyzer {
    var scopes: seq<SymbolTable>
    var current: nat
    var errors: seq<SemanticError>

    predicate Valid()
      reads this
    {
      WellFormed(scopes) && current < |scopes|
    }

    /** A fresh analyzer: the global scope is current and no error is recorded. */
    constructor ()
      ensures Valid() && scopes == [SymbolTable(map[], None)] && current == 0 && errors == []
    {
      scopes := [SymbolTable(map[], None)];
      current := 0;
      errors := [];
    }

    /** `define` on the current scope: the entry is set, overwriting any earlier one. */
    method Define(name: string, sym: Symbol)
      requires Valid()
      modifies this
      ensures Valid() && current == old(current) && errors == old(errors)
      ensures scopes == old(scopes)[current := SymbolTable(old(scopes[current].symbols)[name := sym], old(scopes[current].enclosing))]
    {
      scopes := scopes[current := SymbolTable(scopes[current].symbols[name := sym], scopes[current].enclosing)];
    }

    /** `enter_scope`: a new empty table enclosed by the current one becomes current. */
    method EnterScope()
      requires Valid()
      modifies this
      ensures Valid() && errors == old(errors)
      ensures scopes == old(scopes) + [SymbolTable(map[], Some(old(current)))] && current == |old(scopes)|
    {
      scopes := scopes + [SymbolTable(map[], Some(current))];
      current := |scopes| - 1;
    }

    /** `exit_scope`: the enclosing table becomes current again. */
    method ExitScope()
      requires Valid() && current > 0
      modifies this
      ensures Valid() && scopes == old(scopes) && errors == old(errors)
      ensures current == old(scopes[current].enclosing.value)
    {
      current := scopes[current].enclosing.value;
    }

    /** `error`: errors are only ever appended. */
    method Error(e: SemanticError)
      modifies this
      ensures scopes == old(scopes) && current == old(current) && errors == old(errors) + [e]
    {
      errors := errors + [e];
    }

    /** The expression visitors; they record errors and change nothing else. */
    method VisitExpr(e: Expr)
      requires Valid()
      modifies this
      ensures Valid() && scopes == old(scopes) && current == old(current)
      ensures errors == old(errors) + ExprErrors(scopes, current, e)
      decreases e
    {
      match e
      case BinaryOperation(l, _, r) =>
        VisitExpr(l);
        VisitExpr(r);
      case UnaryOperation(_, o) =>
        VisitExpr(o);
      case Literal(_, _) =>
      case Identifier(n) =>
        if !Resolve(scopes, current, n) {
          Error(VariableNotDeclared(n));
        }
      case FunctionCall(f, args) =>
        var info := Lookup(scopes, current, f);
        if info.Some? && info.value.FunctionInfo? {
          if |info.value.params| != |args| {
            Error(ArgumentCountMismatch(f, |info.value.params|, |args|));
          }
          ghost var start := errors;
          ghost var sc, cu := scopes, current;
          ghost var parts := seq(|args|, i requires 0 <= i < |args| => ExprErrors(sc, cu, args[i]));
          for i := 0 to |args|
            invariant Valid() && scopes == old(scopes) && current == old(current)
            invariant errors == start + Flatten(parts[..i])
          {
            VisitExpr(args[i]);
            assert parts[..i + 1][..i] == parts[..i];
          }
          assert parts[..|args|] == parts;
        } else {
          Error(FunctionNotDeclared(f));
        }
      case ArrayLiteral(_) =>
      case PropertyAccess(_, _) =>
    }

    /** The visit of any statement: the current scope is restored and errors only accumulate. */
    method VisitStmt(s: Stmt)
      requires Valid()
      modifies this
      ensures Valid() && current == old(current)
      ensures old(errors) <= errors
      ensures Extends(old(scopes), scopes, old(current))
      decreases s, 3
    {
      match s
      case VarDeclaration(_, _) => VisitVarDeclaration(s);
      case Assignment(_, _) => VisitAssignment(s);
      case IfStatement(_, _, _) => VisitIf(s);
      case TimesLoop(_, _) => VisitLoop(s);
      case WhileLoop(_, _) => VisitLoop(s);
      case ForLoop(_, _, _) => VisitForLoop(s);
      case FunctionDeclaration(_, _, _) => VisitFunctionDeclaration(s);
      case ReturnStatement(value) =>
        if value.Some? {
          VisitExpr(value.value);
        }
      case PrintStatement(e) => VisitExpr(e);
      case InputStatement(v) =>
        if !Resolve(scopes, current, v) {
          Error(VariableNotDeclared(v));
        }
      case ExpressionStatement(e) => VisitExpr(e);
    }

    /**
     * `visit_VarDeclaration`: a name that already resolves anywhere on the chain is an
     * error, and then it is neither defined nor is its initializer visited; otherwise it is
     * defined in the current scope first and the initializer visited after.
     */
    method VisitVarDeclaration(s: Stmt)
      requires Valid() && s.VarDeclaration?
      modifies this
      ensures Valid() && current == old(current)
      ensures Resolve(old(scopes), old(current), s.name) ==>
        scopes == old(scopes) && errors == old(errors) + [VariableAlreadyDeclared(s.name)]
      ensures !Resolve(old(scopes), old(current), s.name) ==>
        scopes == old(scopes)[current := SymbolTable(old(scopes[current].symbols)[s.name := Untyped], old(scopes[current].enclosing))] &&
        errors == old(errors) + (if s.initialValue.Some? then ExprErrors(scopes, current, s.initialValue.value) else [])
      decreases s, 1
    {
      if Resolve(scopes, current, s.name) {
        Error(VariableAlreadyDeclared(s.name));
      } else {
        Define(s.name, Untyped);
        if s.initialValue.Some? {
          VisitExpr(s.initialValue.value);
        }
      }
    }

    /** `visit_Assignment`: an unresolved target is an error; the value is visited either way. */
    method VisitAssignment(s: Stmt)
      requires Valid() && s.Assignment?
      modifies this
      ensures Valid() && current == old(current) && scopes == old(scopes)
      ensures errors == old(errors) +
        (if Resolve(scopes, current, s.variable) then [] else [VariableNotDeclared(s.variable)]) +
        ExprErrors(scopes, current, s.value)
      decreases s, 1
    {
      if !Resolve(scopes, current, s.variable) {
        Error(VariableNotDeclared(s.variable));
      }
      VisitExpr(s.value);
    }

    /**
     * Statements of a body, visited in the current scope one after another. The caller
     * has just entered a scope `inner`, created after every table of `outer`.
     */
    method VisitBody(ghost parent: Stmt, body: seq<Stmt>, ghost outer: seq<SymbolTable>)
      requires Valid() && current >= |outer|
      requires forall i :: 0 <= i < |body| ==> body[i] < parent
      modifies this
      ensures Valid() && current == old(current)
      ensures old(errors) <= errors
      ensures Extends(old(scopes), scopes, old(current))
      decreases parent, 0
    {
      for i := 0 to |body|
        invariant Valid() && current == old(current)
        invariant old(errors) <= errors
        invariant Extends(old(scopes), scopes, old(current))
      {
        ghost var before := scopes;
        VisitStmt(body[i]);
        ExtendsTrans(old(scopes), before, scopes, old(current), old(current));
      }
    }

    /**
     * `visit_IfStatement`: the condition, then the body in a fresh child scope, then a
     * non-empty else body in another fresh child scope. The enclosing scope gains no name.
     */
    method VisitIf(s: Stmt)
      requires Valid() && s.IfStatement?
      modifies this
      ensures Valid() && current == old(current)
      ensures old(errors) + old(ExprErrors(scopes, current, s.condition)) <= errors
      ensures Extends(old(scopes), scopes, old(current)) && scopes[current] == old(scopes[current])
      decreases s, 2
    {
      VisitExpr(s.condition);
      ghost var mid := errors;
      VisitScoped(s, s.body);
      if s.elseBody.ElseBlock? && |s.elseBody.statements| > 0 {
        ghost var before := scopes;
        VisitScoped(s, s.elseBody.statements);
        ExtendsTrans(old(scopes), before, scopes, old(current), old(current));
      }
    }

    /** `enter_scope`, the statements, `exit_scope`: nothing is added to the enclosing scope. */
    method VisitScoped(ghost parent: Stmt, body: seq<Stmt>)
      requires Valid()
      requires forall i :: 0 <= i < |body| ==> body[i] < parent
      modifies this
      ensures Valid() && current == old(current) && scopes[current] == old(scopes[current])
      ensures old(errors) <= errors
      ensures Extends(old(scopes), scopes, old(current))
      decreases parent, 1
    {
      ghost var outer := scopes;
      EnterScope();
      ghost var entered := scopes;
      VisitBody(parent, body, outer);
      ExtendsTrans(outer, entered, scopes, current, current);
      ExitScope();
    }

    /** `visit_TimesLoop` and `visit_WhileLoop`: the count or condition, then the body in a child scope. */
    method VisitLoop(s: Stmt)
      requires Valid() && (s.TimesLoop? || s.WhileLoop?)
      modifies this
      ensures Valid() && current == old(current)
      ensures old(errors) + old(ExprErrors(scopes, current, if s.TimesLoop? then s.count else s.condition)) <= errors
      ensures Extends(old(scopes), scopes, old(current)) && scopes[current] == old(scopes[current])
      decreases s, 2
    {
      VisitExpr(if s.TimesLoop? then s.count else s.condition);
      VisitScoped(s, s.body);
    }

    /**
     * `visit_ForLoop`: the iterable, then a child scope in which the loop variable is
     * defined before the body is visited.
     */
    method VisitForLoop(s: Stmt)
      requires Valid() && s.ForLoop?
      modifies this
      ensures Valid() && current == old(current)
      ensures old(errors) + old(ExprErrors(scopes, current, s.iterable)) <= errors
      ensures Extends(old(scopes), scopes, old(current)) && scopes[current] == old(scopes[current])
      ensures |scopes| > |old(scopes)| && scopes[|old(scopes)|].enclosing == Some(old(current))
      ensures s.variable in scopes[|old(scopes)|].symbols
      decreases s, 2
    {
      VisitExpr(s.iterable);
      ghost var outer := scopes;
      EnterScope();
      ghost var entered := scopes;
      Define(s.variable, Untyped);
      ghost var defined := scopes;
      VisitBody(s, s.body, outer);
      ExtendsTrans(entered, defined, scopes, current, current);
      ExtendsTrans(outer, entered, scopes, current, current);
      ExitScope();
    }

    /**
     * `visit_FunctionDeclaration`: a name that already resolves is an error and nothing else
     * happens; otherwise the name is defined in the current scope with its parameter list,
     * and the body is visited in a child scope in which every parameter is defined.
     */
    method VisitFunctionDeclaration(s: Stmt)
      requires Valid() && s.FunctionDeclaration?
      modifies this
      ensures Valid() && current == old(current)
      ensures Resolve(old(scopes), old(current), s.name) ==>
        scopes == old(scopes) && errors == old(errors) + [FunctionAlreadyDeclared(s.name)]
      ensures !Resolve(old(scopes), old(current), s.name) ==>
        old(errors) <= errors && Extends(old(scopes), scopes, old(current)) &&
        scopes[current].symbols == old(scopes[current].symbols)[s.name := FunctionInfo(s.parameters)] &&
        |scopes| > |old(scopes)| && scopes[|old(scopes)|].enclosing == Some(old(current)) &&
        forall q :: q in s.parameters ==> q in scopes[|old(scopes)|].symbols
      decreases s, 2
    {
      if Resolve(scopes, current, s.name) {
        Error(FunctionAlreadyDeclared(s.name));
        return;
      }
      Define(s.name, FunctionInfo(s.parameters));
      ghost var outer := scopes;
      EnterScope();
      ghost var entered := scopes;
      for i := 0 to |s.parameters|
        invariant Valid() && current == |outer| && errors == old(errors)
        invariant Extends(entered, scopes, current) && |scopes| == |entered|
        invariant forall k :: 0 <= k < i ==> s.parameters[k] in scopes[current].symbols
      {
        Define(s.parameters[i], Untyped);
      }
      ghost var defined := scopes;
      VisitBody(s, s.body, outer);
      ExtendsTrans(entered, defined, scopes, current, current);
      ExtendsTrans(outer, entered, scopes, current, current);
      ExitScope();
    }

    /** `analyze`: visit every top-level statement; success means no error was recorded. */
    method Analyze(program: Program) returns (ok: bool, errs: seq<SemanticError>)
      requires Valid()
      modifies this
      ensures Valid() && current == old(current) && old(errors) <= errors
      ensures errs == errors && (ok <==> |errors| == 0)
    {
      for i := 0 to |program.statements|
        invariant Valid() && current == old(current) && old(errors) <= errors
      {
        VisitStmt(program.statements[i]);
      }
      ok, errs := |errors| == 0, errors;
    }
  }

  /** A whole analysis run from a fresh analyzer. */
  method AnalyzeProgram(program: Program) returns (ok: bool, errs: seq<SemanticError>)
    ensures ok <==> errs == []
  {
    var a := new Analyzer();
    ok, errs := a.Analyze(program);
  }
}
