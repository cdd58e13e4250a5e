/**
 * The lowering of ir_generator.py from the AST to per-function instruction lists.
 *
 * Expressions lower to straight-line code; `LowerExpr` is the value the expression
 * visitors compute and `Generator.VisitExpr` is proved against it. Statements are lowered
 * by methods that append to the current function and state the exact instruction shape
 * they append.
 *
 * Every `FunctionIR` object the generator creates is kept in an arena; `functions` is an
 * ordered table from names to arena indices, so a redeclared name keeps its position and
 * points at the newer object, exactly as a Python dict assignment does.
 */
module IRGenerator {
  import opened Wrappers
  import Tokens
  import opened Ast
  import opened IR

  // ---- operator names ----

  /** The `op_map` of `visit_BinaryOperation`; other kinds keep `str(TokenType.X)`. */
  function BinaryOpName(k: Tokens.TokenKind): (s: string)
    ensures k in {Tokens.Plus, Tokens.Minus, Tokens.Multiply, Tokens.Divide} ==> |s| == 1
    ensures k !in {Tokens.Plus, Tokens.Minus, Tokens.Multiply, Tokens.Divide, Tokens.Equal, Tokens.NotEqual,
                   Tokens.LessThan, Tokens.GreaterThan, Tokens.LessEqual, Tokens.GreaterEqual} ==>
      s == Tokens.KindName(k)
  {
    match k
    case Plus => "+"
    case Minus => "-"
    case Multiply => "*"
    case Divide => "/"
    case Equal => "=="
    case NotEqual => "!="
    case LessThan => "<"
    case GreaterThan => ">"
    case LessEqual => "<="
    case GreaterEqual => ">="
    case _ => Tokens.KindName(k)
  }

  /** The `op_map` of `visit_UnaryOperation`. */
  function UnaryOpName(k: Tokens.TokenKind): (s: string)
    ensures k !in {Tokens.Plus, Tokens.Minus} ==> s == Tokens.KindName(k)
  {
    match k
    case Plus => "+"
    case Minus => "-"
    case _ => Tokens.KindName(k)
  }

  /** `visit_Literal`: a string value comes back quoted, any other value as it is. */
  function LiteralOperand(v: Tokens.TokenValue): Operand
  {
    match v
    case NoValue => NoneConst
    case TextValue(t) => Quoted(t)
    case IntValue(n) => IntConst(n)
    case FloatValue(lexeme) => FloatConst(lexeme)
    case BoolValue(b) => BoolConst(b)
  }

  // ---- expressions ----

  datatype Lowered = Lowered(code: seq<Instr>, result: Operand, next: nat)
  datatype LoweredArgs = LoweredArgs(code: seq<Instr>, operands: seq<Operand>, next: nat)

  function Rank(e: Expr): nat
  {
    if e.FunctionCall? then |e.arguments| + 1 else 0
  }

  /**
   * The code an expression visit appends, the operand it returns and the temporary
   * counter after it, starting from counter t. Operands are lowered left to right and each
   * operator or call takes the next temporary after its operands.
   */
  function LowerExpr(e: Expr, t: nat): (r: Result<Lowered, IRError>)
    ensures r.Ok? ==> t <= r.value.next
    decreases e, Rank(e)
  {
    match e
    case BinaryOperation(left, op, right) =>
      var a :- LowerExpr(left, t);
      var b :- LowerExpr(right, a.next);
      Ok(Lowered(a.code + b.code + [BinaryOp(BinaryOpName(op.kind), Temp(b.next), a.result, b.result)],
                 Temp(b.next), b.next + 1))
    case UnaryOperation(op, operand) =>
      var a :- LowerExpr(operand, t);
      Ok(Lowered(a.code + [UnaryOp(UnaryOpName(op.kind), Temp(a.next), a.result)], Temp(a.next), a.next + 1))
    case Literal(value, _) => Ok(Lowered([], LiteralOperand(value), t))
    case Identifier(name) => Ok(Lowered([], Var(name), t))
    case FunctionCall(callee, args) =>
      var a :- LowerArgs(e, |args|, t);
      Ok(Lowered(a.code + [Call(callee, a.operands, Some(Temp(a.next)))], Temp(a.next), a.next + 1))
    case ArrayLiteral(_) => Err(NoVisitMethod("ArrayLiteral"))
    case PropertyAccess(_, _) => Err(NoVisitMethod("PropertyAccess"))
  }

  /** The first n arguments of a call, lowered left to right. */
  function LowerArgs(call: Expr, n: nat, t: nat): (r: Result<LoweredArgs, IRError>)
    requires call.FunctionCall? && n <= |call.arguments|
    ensures r.Ok? ==> |r.value.operands| == n && t <= r.value.next
    decreases call, n
  {
    if n == 0 then Ok(LoweredArgs([], [], t))
    else
      var a :- LowerArgs(call, n - 1, t);
      var b :- LowerExpr(call.arguments[n - 1], a.next);
      Ok(LoweredArgs(a.code + b.code, a.operands + [b.result], b.next))
  }

  /** The temporary an instruction writes, when it writes one. */
  function WrittenTemp(ins: Instr): Option<nat>
  {
    match ins
    case BinaryOp(_, Temp(n), _, _) => Some(n)
    case UnaryOp(_, Temp(n), _) => Some(n)
    case Call(_, _, Some(Temp(n))) => Some(n)
    case _ => None
  }

  /** Instruction k of `code` writes temporary t + k: one fresh temporary per instruction. */
  predicate Allocates(code: seq<Instr>, t: nat, next: nat)
  {
    |code| == next - t && forall k :: 0 <= k < |code| ==> WrittenTemp(code[k]) == Some(t + k)
  }

  lemma AllocatesConcat(a: seq<Instr>, b: seq<Instr>, t: nat, m: nat, n: nat)
    requires t <= m && Allocates(a, t, m) && Allocates(b, m, n)
    ensures Allocates(a + b, t, n)
  {
    forall k | 0 <= k < |a + b| ensures WrittenTemp((a + b)[k]) == Some(t + k) {
      if k >= |a| {
        assert (a + b)[k] == b[k - |a|];
      }
    }
  }

  /**
   * Lowering an expression allocates exactly the temporaries t .. next-1, one per
   * instruction and in order, and an operation or call returns the last of them.
   */
  lemma {:induction false} LowerExprAllocates(e: Expr, t: nat)
    requires LowerExpr(e, t).Ok?
    ensures var l := LowerExpr(e, t).value; Allocates(l.code, t, l.next)
    ensures var l := LowerExpr(e, t).value;
      (e.BinaryOperation? || e.UnaryOperation? || e.FunctionCall?) ==> l.next > t && l.result == Temp(l.next - 1)
    ensures var l := LowerExpr(e, t).value; (e.Literal? || e.Identifier?) ==> l.code == [] && l.next == t
    decreases e, Rank(e)
  {
    match e
    case BinaryOperation(left, op, right) =>
      LowerExprAllocates(left, t);
      var a := LowerExpr(left, t).value;
      LowerExprAllocates(right, a.next);
      var b := LowerExpr(right, a.next).value;
      AllocatesConcat(a.code, b.code, t, a.next, b.next);
      AllocatesConcat(a.code + b.code, [BinaryOp(BinaryOpName(op.kind), Temp(b.next), a.result, b.result)], t, b.next, b.next + 1);
    case UnaryOperation(op, operand) =>
      LowerExprAllocates(operand, t);
      var a := LowerExpr(operand, t).value;
      AllocatesConcat(a.code, [UnaryOp(UnaryOpName(op.kind), Temp(a.next), a.result)], t, a.next, a.next + 1);
    case FunctionCall(callee, args) =>
      LowerArgsAllocates(e, |args|, t);
      var a := LowerArgs(e, |args|, t).value;
      AllocatesConcat(a.code, [Call(callee, a.operands, Some(Temp(a.next)))], t, a.next, a.next + 1);
    case _ =>
  }

  lemma {:induction false} LowerArgsAllocates(call: Expr, n: nat, t: nat)
    requires call.FunctionCall? && n <= |call.arguments| && LowerArgs(call, n, t).Ok?
    ensures var l := LowerArgs(call, n, t).value; Allocates(l.code, t, l.next)
    decreases call, n
  {
    if n > 0 {
      LowerArgsAllocates(call, n - 1, t);
      var a := LowerArgs(call, n - 1, t).value;
      LowerExprAllocates(call.arguments[n - 1], a.next);
      var b := LowerExpr(call.arguments[n - 1], a.next).value;
      AllocatesConcat(a.code, b.code, t, a.next, b.next);
    }
  }

  /** Code that allocates one temporary per instruction has no label and no jump. */
  lemma AllocatesIsStraight(code: seq<Instr>, t: nat, next: nat)
    requires Allocates(code, t, next)
    ensures Straight(code)
  {
    forall x | x in code ensures !x.Label? && !x.Jump? && !x.CondJump? {
      var k :| 0 <= k < |code| && code[k] == x;
      assert WrittenTemp(code[k]).Some?;
    }
  }

  /** An expression has a lowering unless the visitor reaches an array literal or a property access. */
  predicate Lowerable(e: Expr)
    decreases e
  {
    match e
    case BinaryOperation(left, _, right) => Lowerable(left) && Lowerable(right)
    case UnaryOperation(_, operand) => Lowerable(operand)
    case FunctionCall(_, args) => forall i :: 0 <= i < |args| ==> Lowerable(args[i])
    case ArrayLiteral(_) => false
    case PropertyAccess(_, _) => false
    case _ => true
  }

  /** Lowering fails exactly on the node kinds `generic_visit` rejects, whatever the counter. */
  lemma {:induction false} LowerExprOkIff(e: Expr, t: nat)
    ensures LowerExpr(e, t).Ok? <==> Lowerable(e)
    decreases e, Rank(e)
  {
    match e
    case BinaryOperation(left, _, right) =>
      LowerExprOkIff(left, t);
      if LowerExpr(left, t).Ok? {
        LowerExprOkIff(right, LowerExpr(left, t).value.next);
      }
    case UnaryOperation(_, operand) =>
      LowerExprOkIff(operand, t);
    case FunctionCall(_, args) =>
      LowerArgsOkIff(e, |args|, t);
    case _ =>
  }

  lemma {:induction false} LowerArgsOkIff(call: Expr, n: nat, t: nat)
    requires call.FunctionCall? && n <= |call.arguments|
    ensures LowerArgs(call, n, t).Ok? <==> forall i :: 0 <= i < n ==> Lowerable(call.arguments[i])
    decreases call, n
  {
    if n > 0 {
      LowerArgsOkIff(call, n - 1, t);
      if LowerArgs(call, n - 1, t).Ok? {
        LowerExprOkIff(call.arguments[n - 1], LowerArgs(call, n - 1, t).value.next);
      }
    }
  }

  /** A statement lowers unless an expression the visitor reaches does not. */
  predicate StmtLowerable(s: Stmt)
    decreases s
  {
    match s
    case ExpressionStatement(e) => Lowerable(e)
    case VarDeclaration(_, init) => init.Some? ==> Lowerable(init.value)
    case Assignment(_, value) => Lowerable(value)
    case IfStatement(c, body, els) =>
      Lowerable(c) && (forall i :: 0 <= i < |body| ==> StmtLowerable(body[i])) &&
      (els.ElseBlock? ==> forall i :: 0 <= i < |els.statements| ==> StmtLowerable(els.statements[i]))
    case TimesLoop(count, body) => Lowerable(count) && forall i :: 0 <= i < |body| ==> StmtLowerable(body[i])
    case WhileLoop(c, body) => Lowerable(c) && forall i :: 0 <= i < |body| ==> StmtLowerable(body[i])
    case ForLoop(_, it, body) => Lowerable(it) && forall i :: 0 <= i < |body| ==> StmtLowerable(body[i])
    case FunctionDeclaration(_, _, body) => forall i :: 0 <= i < |body| ==> StmtLowerable(body[i])
    case ReturnStatement(value) => value.Some? ==> Lowerable(value.value)
    case PrintStatement(e) => Lowerable(e)
    case InputStatement(_) => true
  }

  /** `if node.else_body:` — an else list counts only when it is non-empty. */
  predicate HasElse(s: Stmt)
    requires s.IfStatement?
  {
    s.elseBody.ElseBlock? && |s.elseBody.statements| > 0
  }

  /** The instructions a function declaration leaves in its new function: the body, then a return unless it ends in one. */
  function WithImplicitReturn(body: seq<Instr>): (code: seq<Instr>)
    ensures |code| > 0 && code[|code| - 1].Return?
    ensures body <= code && |code| <= |body| + 1
    ensures Closed(body) ==> Closed(code)
  {
    if |body| > 0 && body[|body| - 1].Return? then body else body + [Return(None)]
  }

  // ---- the functions table ----

  // ---- the code a statement appends ----

  /**
   * What lowering a statement appends to the current function (`code`), and the temporary
   * and label counters after it, including what nested function declarations used up.
   */
  datatype Emitted = Emitted(code: seq<Instr>, temps: nat, labels: nat)

  /**
   * The code of an if-else from label l: the condition's code, a jump to l or l + 2, the
   * then-branch, a jump to the end label l + 1, the else-branch at l + 2 and the end label.
   */
  function IfElseSeq(v: Lowered, l: nat, thenCode: seq<Instr>, elseCode: seq<Instr>): seq<Instr>
  {
    v.code + [CondJump(v.result, l, Some(l + 2)), Label(l)] + thenCode
    + [Jump(l + 1), Label(l + 2)] + elseCode + [Label(l + 1)]
  }

  /** The code of an if without else: the condition's code, a jump to l, the branch and the end label l + 1. */
  function IfOnlySeq(v: Lowered, l: nat, thenCode: seq<Instr>): seq<Instr>
  {
    v.code + [CondJump(v.result, l, None), Label(l)] + thenCode + [Label(l + 1)]
  }

  /**
   * The code of a times loop with counter temporary t: the counter set to 0, the count's code,
   * the test `counter < count` at the start label l, the body, the increment and the jump back.
   */
  function TimesSeq(t: nat, v: Lowered, l: nat, bodyCode: seq<Instr>): seq<Instr>
  {
    [Assign(Temp(t), IntConst(0))] + v.code
    + [Label(l), BinaryOp("<", Temp(v.next), Temp(t), v.result), CondJump(Temp(v.next), l, Some(l + 1))]
    + bodyCode + [BinaryOp("+", Temp(t), Temp(t), IntConst(1)), Jump(l), Label(l + 1)]
  }

  /** The code of a while loop: the start label l, the condition's code and test, the body and the jump back. */
  function WhileSeq(v: Lowered, l: nat, bodyCode: seq<Instr>): seq<Instr>
  {
    [Label(l)] + v.code + [CondJump(v.result, l, Some(l + 1))] + bodyCode + [Jump(l), Label(l + 1)]
  }

  /** The code of a for loop over variable x: the iterable's code, the `in` test at label l, the body and the jump back. */
  function ForSeq(x: string, v: Lowered, l: nat, bodyCode: seq<Instr>): seq<Instr>
  {
    v.code + [Label(l), BinaryOp("in", Temp(v.next), Var(x), v.result), CondJump(Temp(v.next), l, Some(l + 1))]
    + bodyCode + [Jump(l), Label(l + 1)]
  }

  /**
   * The code `visit(s)` appends to the current function from temporary counter t and label
   * counter l, or the error it raises. A function declaration appends nothing here: its
   * body goes into the new function (see LowerFunctionDeclaration), but it still advances
   * both counters.
   */
  function StmtCode(s: Stmt, t: nat, l: nat): Result<Emitted, IRError>
    decreases s, 1, 0
  {
    match s
    case ExpressionStatement(e) =>
      var v :- LowerExpr(e, t);
      Ok(Emitted(v.code, v.next, l))
    case VarDeclaration(name, init) =>
      if init.None? then Ok(Emitted([], t, l))
      else
        var v :- LowerExpr(init.value, t);
        Ok(Emitted(v.code + [Assign(Var(name), v.result)], v.next, l))
    case Assignment(name, value) =>
      var v :- LowerExpr(value, t);
      Ok(Emitted(v.code + [Assign(Var(name), v.result)], v.next, l))
    case IfStatement(c, body, els) =>
      var v :- LowerExpr(c, t);
      if els.ElseBlock? && |els.statements| > 0 then
        var b1 :- BodyCode(body, |body|, v.next, l + 3);
        var b2 :- BodyCode(els.statements, |els.statements|, b1.temps, b1.labels);
        Ok(Emitted(IfElseSeq(v, l, b1.code, b2.code), b2.temps, b2.labels))
      else
        var b1 :- BodyCode(body, |body|, v.next, l + 2);
        Ok(Emitted(IfOnlySeq(v, l, b1.code), b1.temps, b1.labels))
    case TimesLoop(count, body) =>
      var v :- LowerExpr(count, t + 1);
      var b :- BodyCode(body, |body|, v.next + 1, l + 2);
      Ok(Emitted(TimesSeq(t, v, l, b.code), b.temps, b.labels))
    case WhileLoop(c, body) =>
      var v :- LowerExpr(c, t);
      var b :- BodyCode(body, |body|, v.next, l + 2);
      Ok(Emitted(WhileSeq(v, l, b.code), b.temps, b.labels))
    case ForLoop(variable, it, body) =>
      var v :- LowerExpr(it, t);
      var b :- BodyCode(body, |body|, v.next + 1, l + 2);
      Ok(Emitted(ForSeq(variable, v, l, b.code), b.temps, b.labels))
    case FunctionDeclaration(_, _, body) =>
      var b :- BodyCode(body, |body|, t, l);
      Ok(Emitted([], b.temps, b.labels))
    case ReturnStatement(value) =>
      if value.None? then Ok(Emitted([Return(None)], t, l))
      else
        var v :- LowerExpr(value.value, t);
        Ok(Emitted(v.code + [Return(Some(v.result))], v.next, l))
    case PrintStatement(e) =>
      var v :- LowerExpr(e, t);
      Ok(Emitted(v.code + [Print(v.result)], v.next, l))
    case InputStatement(name) => Ok(Emitted([Input(name)], t, l))
  }

  /**
   * `for statement in body: self.visit(statement)` over the first n statements of a body
   * inside `parent`: their code in order, each from the counters the previous one left; the
   * first error stops it.
   */
  function BodyCode(body: seq<Stmt>, n: nat, t: nat, l: nat): Result<Emitted, IRError>
    requires n <= |body|
    decreases body, 0, n
  {
    if n == 0 then Ok(Emitted([], t, l))
    else
      var a :- BodyCode(body, n - 1, t, l);
      var b :- StmtCode(body[n - 1], a.temps, a.labels);
      Ok(Emitted(a.code + b.code, b.temps, b.labels))
  }

  /** The same over the first n top-level statements of a program, all lowered into `main`. */
  function MainCode(statements: seq<Stmt>, n: nat, t: nat, l: nat): Result<Emitted, IRError>
    requires n <= |statements|
  {
    if n == 0 then Ok(Emitted([], t, l))
    else
      var a :- MainCode(statements, n - 1, t, l);
      var b :- StmtCode(statements[n - 1], a.temps, a.labels);
      Ok(Emitted(a.code + b.code, b.temps, b.labels))
  }

  /** One more statement of a body: its code follows the code of those before it. */
  lemma BodyCodeStep(body: seq<Stmt>, i: nat, t: nat, l: nat, a: Emitted, b: Emitted)
    requires i < |body|
    requires BodyCode(body, i, t, l) == Ok(a)
    requires StmtCode(body[i], a.temps, a.labels) == Ok(b)
    ensures BodyCode(body, i + 1, t, l) == Ok(Emitted(a.code + b.code, b.temps, b.labels))
  {
  }

  /** One more top-level statement: its code follows the code of those before it in `main`. */
  lemma MainCodeStep(statements: seq<Stmt>, i: nat, t: nat, l: nat, a: Emitted, b: Emitted)
    requires i < |statements|
    requires MainCode(statements, i, t, l) == Ok(a)
    requires StmtCode(statements[i], a.temps, a.labels) == Ok(b)
    ensures MainCode(statements, i + 1, t, l) == Ok(Emitted(a.code + b.code, b.temps, b.labels))
  {
  }

  /** The code of an if-else from the code of its condition and of its two branches. */
  lemma IfElseCode(s: Stmt, t: nat, l: nat, v: Lowered, a: Emitted, b: Emitted)
    requires s.IfStatement? && HasElse(s)
    requires LowerExpr(s.condition, t) == Ok(v)
    requires BodyCode(s.body, |s.body|, v.next, l + 3) == Ok(a)
    requires BodyCode(s.elseBody.statements, |s.elseBody.statements|, a.temps, a.labels) == Ok(b)
    ensures StmtCode(s, t, l) == Ok(Emitted(IfElseSeq(v, l, a.code, b.code), b.temps, b.labels))
  {
  }

  /** The code of an if without else from the code of its condition and of its body. */
  lemma IfOnlyCode(s: Stmt, t: nat, l: nat, v: Lowered, b: Emitted)
    requires s.IfStatement? && !HasElse(s)
    requires LowerExpr(s.condition, t) == Ok(v)
    requires BodyCode(s.body, |s.body|, v.next, l + 2) == Ok(b)
    ensures StmtCode(s, t, l) == Ok(Emitted(IfOnlySeq(v, l, b.code), b.temps, b.labels))
  {
  }

  /** The code of a times loop from the code of its count and of its body. */
  lemma TimesCode(s: Stmt, t: nat, l: nat, v: Lowered, b: Emitted)
    requires s.TimesLoop?
    requires LowerExpr(s.count, t + 1) == Ok(v)
    requires BodyCode(s.body, |s.body|, v.next + 1, l + 2) == Ok(b)
    ensures StmtCode(s, t, l) == Ok(Emitted(TimesSeq(t, v, l, b.code), b.temps, b.labels))
  {
  }

  /** The code of a while loop from the code of its condition and of its body. */
  lemma WhileCode(s: Stmt, t: nat, l: nat, v: Lowered, b: Emitted)
    requires s.WhileLoop?
    requires LowerExpr(s.condition, t) == Ok(v)
    requires BodyCode(s.body, |s.body|, v.next, l + 2) == Ok(b)
    ensures StmtCode(s, t, l) == Ok(Emitted(WhileSeq(v, l, b.code), b.temps, b.labels))
  {
  }

  /** The code of a for loop from the code of its iterable and of its body. */
  lemma ForCode(s: Stmt, t: nat, l: nat, v: Lowered, b: Emitted)
    requires s.ForLoop?
    requires LowerExpr(s.iterable, t) == Ok(v)
    requires BodyCode(s.body, |s.body|, v.next + 1, l + 2) == Ok(b)
    ensures StmtCode(s, t, l) == Ok(Emitted(ForSeq(s.variable, v, l, b.code), b.temps, b.labels))
  {
  }

  /** A statement's code exists exactly when every expression the visitor reaches lowers. */
  lemma {:induction false} StmtCodeOkIff(s: Stmt, t: nat, l: nat)
    ensures StmtCode(s, t, l).Ok? <==> StmtLowerable(s)
    decreases s, 1, 0
  {
    match s
    case ExpressionStatement(e) => LowerExprOkIff(e, t);
    case VarDeclaration(_, init) => if init.Some? { LowerExprOkIff(init.value, t); }
    case Assignment(_, value) => LowerExprOkIff(value, t);
    case IfStatement(c, body, els) =>
      LowerExprOkIff(c, t);
      if LowerExpr(c, t).Ok? {
        var v := LowerExpr(c, t).value;
        if els.ElseBlock? && |els.statements| > 0 {
          BodyCodeOkIff(body, |body|, v.next, l + 3);
          var b1 := BodyCode(body, |body|, v.next, l + 3);
          if b1.Ok? {
            BodyCodeOkIff(els.statements, |els.statements|, b1.value.temps, b1.value.labels);
          }
        } else {
          BodyCodeOkIff(body, |body|, v.next, l + 2);
        }
      }
    case TimesLoop(count, body) =>
      LowerExprOkIff(count, t + 1);
      if LowerExpr(count, t + 1).Ok? {
        BodyCodeOkIff(body, |body|, LowerExpr(count, t + 1).value.next + 1, l + 2);
      }
    case WhileLoop(c, body) =>
      LowerExprOkIff(c, t);
      if LowerExpr(c, t).Ok? {
        BodyCodeOkIff(body, |body|, LowerExpr(c, t).value.next, l + 2);
      }
    case ForLoop(_, it, body) =>
      LowerExprOkIff(it, t);
      if LowerExpr(it, t).Ok? {
        BodyCodeOkIff(body, |body|, LowerExpr(it, t).value.next + 1, l + 2);
      }
    case FunctionDeclaration(_, _, body) => BodyCodeOkIff(body, |body|, t, l);
    case ReturnStatement(value) => if value.Some? { LowerExprOkIff(value.value, t); }
    case PrintStatement(e) => LowerExprOkIff(e, t);
    case InputStatement(_) =>
  }

  /** A body's code exists exactly when each of its statements lowers. */
  lemma {:induction false} BodyCodeOkIff(body: seq<Stmt>, n: nat, t: nat, l: nat)
    requires n <= |body|
    ensures BodyCode(body, n, t, l).Ok? <==> forall i :: 0 <= i < n ==> StmtLowerable(body[i])
    decreases body, 0, n
  {
    if n > 0 {
      BodyCodeOkIff(body, n - 1, t, l);
      var a := BodyCode(body, n - 1, t, l);
      if a.Ok? {
        StmtCodeOkIff(body[n - 1], a.value.temps, a.value.labels);
      }
    }
  }

  function Keys(table: seq<(string, nat)>): set<string>
  {
    set e | e in table :: e.0
  }

  predicate DistinctNames(table: seq<(string, nat)>)
  {
    forall i, j :: 0 <= i < j < |table| ==> table[i].0 != table[j].0
  }

  predicate DistinctIds(table: seq<(string, nat)>)
  {
    forall i, j :: 0 <= i < j < |table| ==> table[i].1 != table[j].1
  }

  /** Position of `name` in the table, or -1. */
  function IndexOf(table: seq<(string, nat)>, name: string): (i: int)
    ensures -1 <= i < |table|
    ensures i >= 0 ==> table[i].0 == name
    ensures i < 0 ==> forall k :: 0 <= k < |table| ==> table[k].0 != name
  {
    if |table| == 0 then -1
    else if table[0].0 == name then 0
    else
      var j := IndexOf(table[1..], name);
      if j < 0 then -1 else j + 1
  }

  /** `functions[name] = id`: an existing key keeps its position, a new key goes last. */
  function Put(table: seq<(string, nat)>, name: string, id: nat): (r: seq<(string, nat)>)
    requires DistinctNames(table)
    ensures forall i :: 0 <= i < |table| && table[i].0 == name ==> r == table[i := (name, id)]
    ensures (forall i :: 0 <= i < |table| ==> table[i].0 != name) ==> r == table + [(name, id)]
    ensures DistinctNames(r)
  {
    var i := IndexOf(table, name);
    if i >= 0 then table[i := (name, id)] else table + [(name, id)]
  }

  /** After `functions[name] = id` the keys are the old keys and `name`. */
  lemma PutKeys(table: seq<(string, nat)>, name: string, id: nat)
    requires DistinctNames(table)
    ensures Keys(Put(table, name, id)) == Keys(table) + {name}
    ensures (name, id) in Put(table, name, id)
    ensures forall e :: e in Put(table, name, id) ==> e == (name, id) || (e in table && e.0 != name)
  {
    var r := Put(table, name, id);
    var i := IndexOf(table, name);
    assert (name, id) in r by {
      if i >= 0 { assert r[i] == (name, id); } else { assert r[|table|] == (name, id); }
    }
    forall e | e in r ensures e == (name, id) || (e in table && e.0 != name) {
      var k :| 0 <= k < |r| && r[k] == e;
      if i < 0 && k < |table| {
        assert e == table[k];
      } else if i >= 0 && k != i {
        assert e == table[k];
      }
    }
    forall n | n in Keys(table) ensures n in Keys(r) {
      var e :| e in table && e.0 == n;
      var k :| 0 <= k < |table| && table[k] == e;
      if n != name {
        assert r[k] == e;
      }
    }
  }

  /** A fresh id keeps every table entry pointing at its own object. */
  lemma PutIds(table: seq<(string, nat)>, name: string, id: nat)
    requires DistinctNames(table) && DistinctIds(table)
    requires forall e :: e in table ==> e.1 != id
    ensures DistinctIds(Put(table, name, id))
  {
    var r := Put(table, name, id);
    var i := IndexOf(table, name);
    forall a, b | 0 <= a < b < |r| ensures r[a].1 != r[b].1 {
      if i >= 0 {
        if a != i && b != i {
          assert r[a] == table[a] && r[b] == table[b];
        } else if a == i {
          assert r[b] == table[b];
        } else {
          assert r[a] == table[a];
        }
      } else if b < |table| {
        assert r[a] == table[a] && r[b] == table[b];
      } else {
        assert r[a] == table[a];
      }
    }
  }

  /** The functions table as the dict's values, in insertion order. */
  function FunctionsOf(arena: seq<FunctionIR>, table: seq<(string, nat)>): (fs: seq<FunctionIR>)
    requires forall e :: e in table ==> e.1 < |arena|
    ensures |fs| == |table| && forall i :: 0 <= i < |table| ==> fs[i] == arena[table[i].1]
  {
    seq(|table|, i requires 0 <= i < |table| => arena[table[i].1])
  }

  /** The code of a lowered expression is straight-line. */
  lemma ExprCodeStraight(e: Expr, t: nat)
    requires LowerExpr(e, t).Ok?
    ensures Straight(LowerExpr(e, t).value.code)
  {
    LowerExprAllocates(e, t);
    AllocatesIsStraight(LowerExpr(e, t).value.code, t, LowerExpr(e, t).value.next);
  }

  /** The if-else segment is what the emissions chain up to, and it is closed. */
  lemma IfElseShape(start: seq<Instr>, v: Lowered, t: nat, b1: seq<Instr>, b2: seq<Instr>,
                    head: seq<Instr>, p1: seq<Instr>, p2: seq<Instr>, seg: seq<Instr>)
    requires Straight(v.code) && Closed(b1) && Closed(b2)
    requires head == v.code + [CondJump(v.result, t, Some(t + 2))]
    requires p1 == [Label(t)] + b1 && p2 == [Jump(t + 1)] + ([Label(t + 2)] + b2) + [Label(t + 1)]
    requires seg == head + p1 + p2
    ensures Closed(seg) && start + head + p1 + p2 == start + seg
    ensures seg == IfElseSeq(v, t, b1, b2)
  {
    assert seg == IfElseSeq(v, t, b1, b2);
    forall x | x in seg ensures TargetsIn(x, seg) {
      if x in b1 {
        TargetsInGrow(x, b1, seg);
      } else if x in b2 {
        TargetsInGrow(x, b2, seg);
      }
    }
  }

  /** The if-only segment is what the emissions chain up to, and it is closed. */
  lemma IfThenShape(start: seq<Instr>, v: Lowered, t: nat, b1: seq<Instr>,
                    head: seq<Instr>, p1: seq<Instr>, seg: seq<Instr>)
    requires Straight(v.code) && Closed(b1)
    requires head == v.code + [CondJump(v.result, t, None)] && p1 == [Label(t)] + b1
    requires seg == head + p1 + [Label(t + 1)]
    ensures Closed(seg) && start + head + p1 + [Label(t + 1)] == start + seg
    ensures seg == IfOnlySeq(v, t, b1)
  {
    assert seg == IfOnlySeq(v, t, b1);
    forall x | x in seg ensures TargetsIn(x, seg) {
      if x in b1 {
        TargetsInGrow(x, b1, seg);
      }
    }
  }

  /** A loop: `pre`, the start label, `test`, a jump to start or end, the body, `post`, a jump back and the end label. */
  lemma LoopClosed(pre: seq<Instr>, st: nat, test: seq<Instr>, c: Operand, body: seq<Instr>, post: seq<Instr>)
    requires Straight(pre) && Straight(test) && Straight(post) && Closed(body)
    ensures Closed(pre + [Label(st)] + test + [CondJump(c, st, Some(st + 1))] + body + post + [Jump(st), Label(st + 1)])
  {
    var w := pre + [Label(st)] + test + [CondJump(c, st, Some(st + 1))] + body + post + [Jump(st), Label(st + 1)];
    forall x | x in w ensures TargetsIn(x, w) {
      if x in body {
        TargetsInGrow(x, body, w);
      }
    }
  }

  /** The while-loop segment is the head followed by the body and the jump back, and it is closed. */
  lemma WhileShape(v: Lowered, st: nat, body: seq<Instr>, head: seq<Instr>, rest: seq<Instr>, seg: seq<Instr>)
    requires Straight(v.code) && Closed(body)
    requires head == [Label(st)] + v.code + [CondJump(v.result, st, Some(st + 1))]
    requires rest == body + [] + [Jump(st), Label(st + 1)]
    requires seg == head + rest
    ensures Closed(seg) && seg == WhileSeq(v, st, body)
  {
    LoopClosed([], st, v.code, v.result, body, []);
    assert seg == [] + [Label(st)] + v.code + [CondJump(v.result, st, Some(st + 1))] + body + [] + [Jump(st), Label(st + 1)];
  }

  /** The times-loop segment is the counter set-up followed by the tested loop, and it is closed. */
  lemma TimesShape(n: nat, v: Lowered, st: nat, body: seq<Instr>, head: seq<Instr>, rest: seq<Instr>, seg: seq<Instr>)
    requires Straight(v.code) && Closed(body)
    requires head == [Assign(Temp(n), IntConst(0))] + v.code
    requires rest == [Label(st), BinaryOp("<", Temp(v.next), Temp(n), v.result), CondJump(Temp(v.next), st, Some(st + 1))]
                     + (body + [BinaryOp("+", Temp(n), Temp(n), IntConst(1))] + [Jump(st), Label(st + 1)])
    requires seg == head + rest
    ensures Closed(seg) && seg == TimesSeq(n, v, st, body)
  {
    var step := [BinaryOp("+", Temp(n), Temp(n), IntConst(1))];
    LoopClosed(head, st, [BinaryOp("<", Temp(v.next), Temp(n), v.result)], Temp(v.next), body, step);
    assert seg == head + [Label(st)] + [BinaryOp("<", Temp(v.next), Temp(n), v.result)]
                  + [CondJump(Temp(v.next), st, Some(st + 1))] + body + step + [Jump(st), Label(st + 1)];
  }

  /** The for-loop segment is the iterable's code followed by the tested loop, and it is closed. */
  lemma ForShape(v: Lowered, x: string, st: nat, body: seq<Instr>, rest: seq<Instr>, seg: seq<Instr>)
    requires Straight(v.code) && Closed(body)
    requires rest == [Label(st), BinaryOp("in", Temp(v.next), Var(x), v.result), CondJump(Temp(v.next), st, Some(st + 1))]
                     + (body + [] + [Jump(st), Label(st + 1)])
    requires seg == v.code + rest
    ensures Closed(seg) && seg == ForSeq(x, v, st, body)
  {
    var test := [BinaryOp("in", Temp(v.next), Var(x), v.result)];
    LoopClosed(v.code, st, test, Temp(v.next), body, []);
    assert seg == v.code + [Label(st)] + test + [CondJump(Temp(v.next), st, Some(st + 1))] + body + [] + [Jump(st), Label(st + 1)];
  }


  // ---- the generator's invariants ----

  /** Each table entry names the object it points to, and no two entries share a name or an object. */
  ghost predicate TableInv(arena: seq<FunctionIR>, table: seq<(string, nat)>)
  {
    (forall e :: e in table ==> e.1 < |arena| && arena[e.1].name == e.0) &&
    DistinctNames(table) && DistinctIds(table)
  }

  /** The labels function `i` defines are defined there once and are owned by `i`. */
  ghost predicate Owned(f: FunctionIR, i: nat, owner: map<nat, nat>)
  {
    (forall x :: x in f.instructions && x.Label? ==> x.name in owner && owner[x.name] == i) &&
    UniqueLabels(f.instructions)
  }

  /** Every emitted label was allocated, is defined once, and lives in its owner only. */
  ghost predicate LabelInv(arena: seq<FunctionIR>, owner: map<nat, nat>, labelCounter: nat)
  {
    (forall i :: 0 <= i < |arena| ==> Owned(arena[i], i, owner)) &&
    (forall l :: l in owner ==> l < labelCounter)
  }

  /** Appending an instruction keeps a function's labels owned, if a new label is owned by it. */
  lemma OwnedAppend(f: FunctionIR, i: nat, owner: map<nat, nat>, ins: Instr)
    requires Owned(f, i, owner)
    requires ins.Label? ==> ins !in f.instructions && ins.name in owner && owner[ins.name] == i
    ensures Owned(f.(instructions := f.instructions + [ins]), i, owner)
  {
    UniqueLabelsAppend(f.instructions, ins);
    forall x | x in f.instructions + [ins] && x.Label? ensures x.name in owner && owner[x.name] == i {
      if x != ins {
        assert x in f.instructions;
      }
    }
  }

  /** Handing a fresh label to an owner leaves every function's labels owned as before. */
  lemma OwnedExtend(f: FunctionIR, i: nat, owner: map<nat, nat>, l: nat, c: nat)
    requires Owned(f, i, owner) && l !in owner
    ensures Owned(f, i, owner[l := c])
  {
    forall x | x in f.instructions && x.Label? ensures x.name in owner[l := c] && owner[l := c][x.name] == i {
      assert x.name in owner;
    }
  }

  /** Every function no longer being generated is complete. */
  ghost predicate DoneInv(arena: seq<FunctionIR>, open: set<nat>)
  {
    (forall i :: i in open ==> i < |arena|) &&
    (forall i :: 0 <= i < |arena| && i !in open ==> Complete(arena[i].instructions))
  }

  /** A new object bound to `name` keeps the table pointing at named objects, with distinct names and ids. */
  lemma NewFunctionKeepsTable(arena: seq<FunctionIR>, table: seq<(string, nat)>, f: FunctionIR)
    requires TableInv(arena, table)
    ensures TableInv(arena + [f], Put(table, f.name, |arena|))
  {
    var a := arena + [f];
    PutKeys(table, f.name, |arena|);
    PutIds(table, f.name, |arena|);
    forall e | e in Put(table, f.name, |arena|) ensures e.1 < |a| && a[e.1].name == e.0 {
      if e != (f.name, |arena|) {
        assert e in table;
        assert a[e.1] == arena[e.1];
      }
    }
  }

  /** A new empty object keeps every label owned and every closed function complete. */
  lemma NewFunctionKeepsLabels(arena: seq<FunctionIR>, owner: map<nat, nat>, lc: nat, open: set<nat>, f: FunctionIR)
    requires LabelInv(arena, owner, lc) && DoneInv(arena, open) && f.instructions == []
    ensures LabelInv(arena + [f], owner, lc) && DoneInv(arena + [f], open + {|arena|})
  {
    var a := arena + [f];
    forall i | 0 <= i < |a| ensures Owned(a[i], i, owner) {
      if i < |arena| {
        assert a[i] == arena[i];
      }
    }
    forall i | 0 <= i < |a| && i !in open + {|arena|} ensures Complete(a[i].instructions) {
      assert a[i] == arena[i];
    }
  }

  lemma NewFunctionKeepsInv(arena: seq<FunctionIR>, table: seq<(string, nat)>, owner: map<nat, nat>,
                            lc: nat, open: set<nat>, name: string, params: seq<string>)
    requires TableInv(arena, table) && LabelInv(arena, owner, lc) && DoneInv(arena, open)
    ensures var a := arena + [FunctionIR(name, params, [])];
      TableInv(a, Put(table, name, |arena|)) && LabelInv(a, owner, lc) && DoneInv(a, open + {|arena|})
  {
    var f := FunctionIR(name, params, []);
    NewFunctionKeepsTable(arena, table, f);
    NewFunctionKeepsLabels(arena, owner, lc, open, f);
  }

  // ---- the generator ----

  class Generator {
    var tempCounter: nat
    var labelCounter: nat
    /** Every FunctionIR object created, in creation order. */
    var arena: seq<FunctionIR>
    /** `self.functions`: names to arena indices, in insertion order. */
    var table: seq<(string, nat)>
    /** `self.current_function`, an arena index. */
    var current: nat
    /** The function each emitted label was emitted into. */
    ghost var owner: map<nat, nat>
    /** The functions still being generated: `main` and every enclosing declaration. */
    ghost var open: set<nat>

    ghost predicate Valid()
      reads this
    {
      TableInv(arena, table) && LabelInv(arena, owner, labelCounter) && DoneInv(arena, open)
    }

    /** A current function exists and is still being generated. */
    ghost predicate Active()
      reads this
    {
      Valid() && current < |arena| && current in open
    }

    constructor ()
      ensures Valid() && tempCounter == 0 && labelCounter == 0 && arena == [] && table == []
      ensures open == {} && owner == map[]
    {
      tempCounter, labelCounter := 0, 0;
      arena, table, current := [], [], 0;
      owner, open := map[], {};
    }

    /** `new_temp`: the counter's current value, which is never handed out again. */
    method NewTemp() returns (t: Operand)
      modifies this
      ensures t == Temp(old(tempCounter)) && tempCounter == old(tempCounter) + 1
      ensures labelCounter == old(labelCounter) && arena == old(arena) && table == old(table)
      ensures current == old(current) && owner == old(owner) && open == old(open)
    {
      t := Temp(tempCounter);
      tempCounter := tempCounter + 1;
    }

    /** `new_label`: the counter's current value, which is never handed out again. */
    method NewLabel() returns (l: nat)
      requires Valid()
      modifies this
      ensures Valid() && l == old(labelCounter) && labelCounter == old(labelCounter) + 1
      ensures tempCounter == old(tempCounter) && arena == old(arena) && table == old(table)
      ensures current == old(current) && owner == old(owner) && open == old(open)
    {
      l := labelCounter;
      labelCounter := labelCounter + 1;
    }

    /** `add_instruction` for anything but a label. */
    method Emit(ins: Instr)
      requires Active() && !ins.Label?
      modifies this
      ensures Active() && |arena| == |old(arena)|
      ensures arena == old(arena)[current := old(arena[current]).(instructions := old(arena[current].instructions) + [ins])]
      ensures tempCounter == old(tempCounter) && labelCounter == old(labelCounter) && table == old(table)
      ensures current == old(current) && owner == old(owner) && open == old(open)
    {
      var f := arena[current];
      OwnedAppend(f, current, owner, ins);
      arena := arena[current := f.(instructions := f.instructions + [ins])];
    }

    /** `add_instruction(LabelIR(l))` for a label allocated and not yet emitted. */
    method EmitLabel(l: nat)
      requires Active() && l < labelCounter && l !in owner
      modifies this
      ensures Active() && |arena| == |old(arena)|
      ensures arena == old(arena)[current := old(arena[current]).(instructions := old(arena[current].instructions) + [Label(l)])]
      ensures tempCounter == old(tempCounter) && labelCounter == old(labelCounter) && table == old(table)
      ensures current == old(current) && owner == old(owner)[l := current] && open == old(open)
    {
      var f := arena[current];
      assert Label(l) !in f.instructions;
      forall i | 0 <= i < |arena| ensures Owned(arena[i], i, owner[l := current]) {
        OwnedExtend(arena[i], i, owner, l, current);
      }
      owner := owner[l := current];
      OwnedAppend(f, current, owner, Label(l));
      arena := arena[current := f.(instructions := f.instructions + [Label(l)])];
    }

    /** `self.functions[name] = FunctionIR(name, params)`: a new empty object under construction. */
    method NewFunction(name: string, params: seq<string>) returns (id: nat)
      requires Valid()
      modifies this
      ensures Valid() && id == |old(arena)| && arena == old(arena) + [FunctionIR(name, params, [])]
      ensures table == Put(old(table), name, id) && open == old(open) + {id}
      ensures tempCounter == old(tempCounter) && labelCounter == old(labelCounter)
      ensures current == old(current) && owner == old(owner)
    {
      id := |arena|;
      NewFunctionKeepsInv(arena, table, owner, labelCounter, open, name, params);
      arena := arena + [FunctionIR(name, params, [])];
      table := Put(table, name, id);
      open := open + {id};
    }

    /**
     * The expression visitors: the code they append and the operand they return are those
     * of `LowerExpr`; labels, the table and the other functions are untouched.
     */
    method VisitExpr(e: Expr) returns (r: Result<Operand, IRError>, ghost code: seq<Instr>)
      requires Active()
      modifies this
      ensures Active() && current == old(current) && table == old(table) && open == old(open)
      ensures owner == old(owner) && labelCounter == old(labelCounter) && tempCounter >= old(tempCounter)
      ensures arena == old(arena)[current := arena[current]]
      ensures r.Ok? <==> LowerExpr(e, old(tempCounter)).Ok?
      ensures r.Ok? ==>
        var l := LowerExpr(e, old(tempCounter)).value;
        r.value == l.result && code == l.code && tempCounter == l.next &&
        arena[current] == old(arena[current]).(instructions := old(arena[current].instructions) + code)
      decreases e, 1
    {
      match e
      case BinaryOperation(_, _, _) =>
        r, code := VisitBinary(e);
      case UnaryOperation(op, operand) =>
        ghost var start := arena[current].instructions;
        var a, ca := VisitExpr(operand);
        if a.Err? {
          return Err(a.error), [];
        }
        var dest := NewTemp();
        Emit(UnaryOp(UnaryOpName(op.kind), dest, a.value));
        r, code := Ok(dest), ca + [UnaryOp(UnaryOpName(op.kind), dest, a.value)];
        assert arena[current].instructions == start + code;
      case Literal(value, _) =>
        r, code := Ok(LiteralOperand(value)), [];
        assert arena[current].instructions + code == arena[current].instructions;
      case Identifier(name) =>
        r, code := Ok(Var(name)), [];
        assert arena[current].instructions + code == arena[current].instructions;
      case FunctionCall(_, _) =>
        r, code := VisitCall(e);
      case ArrayLiteral(_) =>
        r, code := Err(NoVisitMethod("ArrayLiteral")), [];
      case PropertyAccess(_, _) =>
        r, code := Err(NoVisitMethod("PropertyAccess")), [];
    }

    /** `visit_BinaryOperation`: left, right, then one fresh temporary for the result. */
    method VisitBinary(e: Expr) returns (r: Result<Operand, IRError>, ghost code: seq<Instr>)
      requires Active() && e.BinaryOperation?
      modifies this
      ensures Active() && current == old(current) && table == old(table) && open == old(open)
      ensures owner == old(owner) && labelCounter == old(labelCounter) && tempCounter >= old(tempCounter)
      ensures arena == old(arena)[current := arena[current]]
      ensures r.Ok? <==> LowerExpr(e, old(tempCounter)).Ok?
      ensures r.Ok? ==>
        var l := LowerExpr(e, old(tempCounter)).value;
        r.value == l.result && code == l.code && tempCounter == l.next &&
        arena[current] == old(arena[current]).(instructions := old(arena[current].instructions) + code)
      decreases e, 0
    {
      ghost var start := arena[current].instructions;
      code := [];
      var a, ca := VisitExpr(e.left);
      if a.Err? {
        return Err(a.error), code;
      }
      var b, cb := VisitExpr(e.right);
      if b.Err? {
        return Err(b.error), code;
      }
      var dest := NewTemp();
      var ins := BinaryOp(BinaryOpName(e.op.kind), dest, a.value, b.value);
      Emit(ins);
      r, code := Ok(dest), ca + cb + [ins];
      assert arena[current].instructions == start + code;
    }

    /** `visit_FunctionCall`: the arguments left to right, then one fresh temporary for the result. */
    method VisitCall(e: Expr) returns (r: Result<Operand, IRError>, ghost code: seq<Instr>)
      requires Active() && e.FunctionCall?
      modifies this
      ensures Active() && current == old(current) && table == old(table) && open == old(open)
      ensures owner == old(owner) && labelCounter == old(labelCounter) && tempCounter >= old(tempCounter)
      ensures arena == old(arena)[current := arena[current]]
      ensures r.Ok? <==> LowerExpr(e, old(tempCounter)).Ok?
      ensures r.Ok? ==>
        var l := LowerExpr(e, old(tempCounter)).value;
        r.value == l.result && code == l.code && tempCounter == l.next &&
        arena[current] == old(arena[current]).(instructions := old(arena[current].instructions) + code)
      decreases e, 0
    {
      ghost var start := arena[current].instructions;
      ghost var t0 := tempCounter;
      code := [];
      var operands: seq<Operand> := [];
      for i := 0 to |e.arguments|
        invariant Active() && current == old(current) && table == old(table) && open == old(open)
        invariant owner == old(owner) && labelCounter == old(labelCounter) && tempCounter >= t0
        invariant arena == old(arena)[current := arena[current]]
        invariant arena[current] == old(arena[current]).(instructions := start + code)
        invariant LowerArgs(e, i, t0) == Ok(LoweredArgs(code, operands, tempCounter))
      {
        var a, ca := VisitExpr(e.arguments[i]);
        if a.Err? {
          LowerArgIsPrefix(e, i, t0);
          return Err(a.error), code;
        }
        operands, code := operands + [a.value], code + ca;
        assert arena[current].instructions == start + code;
      }
      var dest := NewTemp();
      var ins := Call(e.callee, operands, Some(dest));
      Emit(ins);
      code := code + [ins];
      assert arena[current].instructions == start + code;
      r := Ok(dest);
    }

    // ---- statements ----
    // Each statement lowering appends a closed segment `seg` to the current function, may
    // create further functions, emits only labels it allocated, and leaves every other
    // existing function alone.

    /** `visit_VarDeclaration`: an initializer is evaluated and assigned; no initializer, no code. */
    method LowerVarDeclaration(s: Stmt) returns (r: Result<(), IRError>, ghost seg: seq<Instr>)
      requires Active() && s.VarDeclaration?
      modifies this
      ensures Active() && |arena| >= |old(arena)| && Keys(old(table)) <= Keys(table)
      ensures tempCounter >= old(tempCounter) && labelCounter >= old(labelCounter)
      ensures forall i :: 0 <= i < |old(arena)| && i != old(current) ==> arena[i] == old(arena[i])
      ensures r.Ok? <==> StmtLowerable(s)
      ensures r.Ok? ==>
        current == old(current) && open == old(open) && Closed(seg) &&
        arena[current] == old(arena[current]).(instructions := old(arena[current].instructions) + seg) &&
        forall l :: l in owner ==> l in old(owner) || old(labelCounter) <= l
      ensures s.initialValue.None? ==> r.Ok? && seg == []
      ensures r.Ok? && s.initialValue.Some? ==> LowerExpr(s.initialValue.value, old(tempCounter)).Ok?
      ensures r.Ok? && s.initialValue.Some? ==>
        var l := LowerExpr(s.initialValue.value, old(tempCounter)).value;
        seg == l.code + [Assign(Var(s.name), l.result)] && tempCounter == l.next
      ensures r.Ok? ==> StmtCode(s, old(tempCounter), old(labelCounter)) == Ok(Emitted(seg, tempCounter, labelCounter))
      decreases s, 5
    {
      seg := [];
      if s.initialValue.None? {
        assert arena[current].instructions + seg == arena[current].instructions;
        return Ok(()), seg;
      }
      ghost var start := arena[current].instructions;
      ghost var t0 := tempCounter;
      LowerExprOkIff(s.initialValue.value, t0);
      var v, code := VisitExpr(s.initialValue.value);
      if v.Err? {
        return Err(v.error), seg;
      }
      ExprCodeStraight(s.initialValue.value, t0);
      Emit(Assign(Var(s.name), v.value));
      seg := code + [Assign(Var(s.name), v.value)];
      assert arena[current].instructions == start + seg;
      r := Ok(());
    }

    /** `visit_Assignment`: the value, then one assignment to the target name. */
    method LowerAssignment(s: Stmt) returns (r: Result<(), IRError>, ghost seg: seq<Instr>)
      requires Active() && s.Assignment?
      modifies this
      ensures Active() && |arena| >= |old(arena)| && Keys(old(table)) <= Keys(table)
      ensures tempCounter >= old(tempCounter) && labelCounter >= old(labelCounter)
      ensures forall i :: 0 <= i < |old(arena)| && i != old(current) ==> arena[i] == old(arena[i])
      ensures r.Ok? <==> StmtLowerable(s)
      ensures r.Ok? ==>
        current == old(current) && open == old(open) && Closed(seg) &&
        arena[current] == old(arena[current]).(instructions := old(arena[current].instructions) + seg) &&
        forall l :: l in owner ==> l in old(owner) || old(labelCounter) <= l
      ensures r.Ok? ==> LowerExpr(s.value, old(tempCounter)).Ok?
      ensures r.Ok? ==>
        var l := LowerExpr(s.value, old(tempCounter)).value;
        seg == l.code + [Assign(Var(s.variable), l.result)] && tempCounter == l.next
      ensures r.Ok? ==> StmtCode(s, old(tempCounter), old(labelCounter)) == Ok(Emitted(seg, tempCounter, labelCounter))
      decreases s, 5
    {
      seg := [];
      ghost var start := arena[current].instructions;
      ghost var t0 := tempCounter;
      LowerExprOkIff(s.value, t0);
      var v, code := VisitExpr(s.value);
      if v.Err? {
        return Err(v.error), seg;
      }
      ExprCodeStraight(s.value, t0);
      Emit(Assign(Var(s.variable), v.value));
      seg := code + [Assign(Var(s.variable), v.value)];
      assert arena[current].instructions == start + seg;
      r := Ok(());
    }

    /** `visit_ReturnStatement`: a value is evaluated and returned; otherwise a bare return. */
    method LowerReturn(s: Stmt) returns (r: Result<(), IRError>, ghost seg: seq<Instr>)
      requires Active() && s.ReturnStatement?
      modifies this
      ensures Active() && |arena| >= |old(arena)| && Keys(old(table)) <= Keys(table)
      ensures tempCounter >= old(tempCounter) && labelCounter >= old(labelCounter)
      ensures forall i :: 0 <= i < |old(arena)| && i != old(current) ==> arena[i] == old(arena[i])
      ensures r.Ok? <==> StmtLowerable(s)
      ensures r.Ok? ==>
        current == old(current) && open == old(open) && Closed(seg) &&
        arena[current] == old(arena[current]).(instructions := old(arena[current].instructions) + seg) &&
        forall l :: l in owner ==> l in old(owner) || old(labelCounter) <= l
      ensures s.returned.None? ==> r.Ok? && seg == [Return(None)]
      ensures r.Ok? && s.returned.Some? ==> LowerExpr(s.returned.value, old(tempCounter)).Ok?
      ensures r.Ok? && s.returned.Some? ==>
        var l := LowerExpr(s.returned.value, old(tempCounter)).value;
        seg == l.code + [Return(Some(l.result))] && tempCounter == l.next
      ensures r.Ok? ==> StmtCode(s, old(tempCounter), old(labelCounter)) == Ok(Emitted(seg, tempCounter, labelCounter))
      decreases s, 5
    {
      seg := [];
      ghost var start := arena[current].instructions;
      if s.returned.None? {
        Emit(Return(None));
        seg := [Return(None)];
        return Ok(()), seg;
      }
      ghost var t0 := tempCounter;
      LowerExprOkIff(s.returned.value, t0);
      var v, code := VisitExpr(s.returned.value);
      if v.Err? {
        return Err(v.error), seg;
      }
      ExprCodeStraight(s.returned.value, t0);
      Emit(Return(Some(v.value)));
      seg := code + [Return(Some(v.value))];
      assert arena[current].instructions == start + seg;
      r := Ok(());
    }

    /** `visit_PrintStatement`: the value, then one print. */
    method LowerPrint(s: Stmt) returns (r: Result<(), IRError>, ghost seg: seq<Instr>)
      requires Active() && s.PrintStatement?
      modifies this
      ensures Active() && |arena| >= |old(arena)| && Keys(old(table)) <= Keys(table)
      ensures tempCounter >= old(tempCounter) && labelCounter >= old(labelCounter)
      ensures forall i :: 0 <= i < |old(arena)| && i != old(current) ==> arena[i] == old(arena[i])
      ensures r.Ok? <==> StmtLowerable(s)
      ensures r.Ok? ==>
        current == old(current) && open == old(open) && Closed(seg) &&
        arena[current] == old(arena[current]).(instructions := old(arena[current].instructions) + seg) &&
        forall l :: l in owner ==> l in old(owner) || old(labelCounter) <= l
      ensures r.Ok? ==> LowerExpr(s.expression, old(tempCounter)).Ok?
      ensures r.Ok? ==>
        var l := LowerExpr(s.expression, old(tempCounter)).value;
        seg == l.code + [Print(l.result)] && tempCounter == l.next
      ensures r.Ok? ==> StmtCode(s, old(tempCounter), old(labelCounter)) == Ok(Emitted(seg, tempCounter, labelCounter))
      decreases s, 5
    {
      seg := [];
      ghost var start := arena[current].instructions;
      ghost var t0 := tempCounter;
      LowerExprOkIff(s.expression, t0);
      var v, code := VisitExpr(s.expression);
      if v.Err? {
        return Err(v.error), seg;
      }
      ExprCodeStraight(s.expression, t0);
      Emit(Print(v.value));
      seg := code + [Print(v.value)];
      assert arena[current].instructions == start + seg;
      r := Ok(());
    }

    /** `visit_ExpressionStatement`: the value's code only; the result is dropped. */
    method LowerExpressionStatement(s: Stmt) returns (r: Result<(), IRError>, ghost seg: seq<Instr>)
      requires Active() && s.ExpressionStatement?
      modifies this
      ensures Active() && |arena| >= |old(arena)| && Keys(old(table)) <= Keys(table)
      ensures tempCounter >= old(tempCounter) && labelCounter >= old(labelCounter)
      ensures forall i :: 0 <= i < |old(arena)| && i != old(current) ==> arena[i] == old(arena[i])
      ensures r.Ok? <==> StmtLowerable(s)
      ensures r.Ok? ==>
        current == old(current) && open == old(open) && Closed(seg) &&
        arena[current] == old(arena[current]).(instructions := old(arena[current].instructions) + seg) &&
        forall l :: l in owner ==> l in old(owner) || old(labelCounter) <= l
      ensures r.Ok? ==> LowerExpr(s.expression, old(tempCounter)).Ok?
      ensures r.Ok? ==>
        var l := LowerExpr(s.expression, old(tempCounter)).value;
        seg == l.code && tempCounter == l.next
      ensures r.Ok? ==> StmtCode(s, old(tempCounter), old(labelCounter)) == Ok(Emitted(seg, tempCounter, labelCounter))
      decreases s, 5
    {
      seg := [];
      ghost var t0 := tempCounter;
      LowerExprOkIff(s.expression, t0);
      var v, code := VisitExpr(s.expression);
      if v.Err? {
        return Err(v.error), seg;
      }
      ExprCodeStraight(s.expression, t0);
      StraightIsClosed(code);
      seg := code;
      r := Ok(());
    }

    /** `visit_InputStatement`: one input into the named variable. */
    method LowerInput(s: Stmt) returns (r: Result<(), IRError>, ghost seg: seq<Instr>)
      requires Active() && s.InputStatement?
      modifies this
      ensures Active() && |arena| >= |old(arena)| && Keys(old(table)) <= Keys(table)
      ensures tempCounter >= old(tempCounter) && labelCounter >= old(labelCounter)
      ensures forall i :: 0 <= i < |old(arena)| && i != old(current) ==> arena[i] == old(arena[i])
      ensures r.Ok? <==> StmtLowerable(s)
      ensures r.Ok? ==>
        current == old(current) && open == old(open) && Closed(seg) &&
        arena[current] == old(arena[current]).(instructions := old(arena[current].instructions) + seg) &&
        forall l :: l in owner ==> l in old(owner) || old(labelCounter) <= l
      ensures r.Ok? && seg == [Input(s.variable)] && tempCounter == old(tempCounter)
      ensures r.Ok? ==> StmtCode(s, old(tempCounter), old(labelCounter)) == Ok(Emitted(seg, tempCounter, labelCounter))
      decreases s, 5
    {
      Emit(Input(s.variable));
      seg := [Input(s.variable)];
      r := Ok(());
    }

    /**
     * The head of `visit_IfStatement`: the condition's code, the true and end labels (and a
     * false label when there is an else list), and the conditional jump.
     */
    method IfHead(e: Expr, withElse: bool) returns (cond: Result<Operand, IRError>, t: nat, ghost head: seq<Instr>)
      requires Active()
      modifies this
      ensures Active() && |arena| == |old(arena)| && table == old(table) && owner == old(owner)
      ensures current == old(current) && open == old(open) && tempCounter >= old(tempCounter) && labelCounter >= old(labelCounter)
      ensures forall i :: 0 <= i < |arena| && i != current ==> arena[i] == old(arena[i])
      ensures cond.Ok? <==> Lowerable(e)
      ensures cond.Ok? <==> LowerExpr(e, old(tempCounter)).Ok?
      ensures cond.Ok? ==>
        var c := LowerExpr(e, old(tempCounter)).value;
        Straight(c.code) && t == old(labelCounter) && labelCounter == t + (if withElse then 3 else 2) &&
        tempCounter == c.next && cond.value == c.result &&
        head == c.code + [CondJump(c.result, t, if withElse then Some(t + 2) else None)] &&
        arena[current] == old(arena[current]).(instructions := old(arena[current].instructions) + head)
    {
      head, t := [], 0;
      ghost var start := arena[current].instructions;
      ghost var t0 := tempCounter;
      LowerExprOkIff(e, t0);
      ghost var cc;
      cond, cc := VisitExpr(e);
      if cond.Err? {
        return;
      }
      ExprCodeStraight(e, t0);
      t := NewLabel();
      var endLabel := NewLabel();
      var falseLabel: Option<nat> := None;
      if withElse {
        var f := NewLabel();
        falseLabel := Some(f);
      }
      Emit(CondJump(cond.value, t, falseLabel));
      head := cc + [CondJump(cond.value, t, falseLabel)];
      assert arena[current].instructions == start + head;
    }

    /**
     * `visit_IfStatement` with a non-empty else list: a conditional jump to the then- or
     * else-label, the then-branch and a jump past the else-branch, then the else-branch.
     */
    method LowerIfElse(s: Stmt) returns (r: Result<(), IRError>, ghost seg: seq<Instr>,
                                         ghost thenSeg: seq<Instr>, ghost elseSeg: seq<Instr>)
      requires Active() && s.IfStatement? && HasElse(s)
      modifies this
      ensures Active() && |arena| >= |old(arena)| && Keys(old(table)) <= Keys(table)
      ensures tempCounter >= old(tempCounter) && labelCounter >= old(labelCounter)
      ensures forall i :: 0 <= i < |old(arena)| && i != old(current) ==> arena[i] == old(arena[i])
      ensures r.Ok? <==> StmtLowerable(s)
      ensures r.Ok? ==>
        current == old(current) && open == old(open) && Closed(seg) &&
        arena[current] == old(arena[current]).(instructions := old(arena[current].instructions) + seg) &&
        forall l :: l in owner ==> l in old(owner) || old(labelCounter) <= l
      ensures r.Ok? ==> LowerExpr(s.condition, old(tempCounter)).Ok?
      ensures r.Ok? ==>
        var c := LowerExpr(s.condition, old(tempCounter)).value;
        var t := old(labelCounter);
        Closed(thenSeg) && Closed(elseSeg) && seg == IfElseSeq(c, t, thenSeg, elseSeg)
      ensures r.Ok? ==> StmtCode(s, old(tempCounter), old(labelCounter)) == Ok(Emitted(seg, tempCounter, labelCounter))
      decreases s, 5
    {
      seg, thenSeg, elseSeg := [], [], [];
      ghost var start := arena[current].instructions;
      var cond, t, head := IfHead(s.condition, true);
      if cond.Err? {
        return Err(cond.error), seg, thenSeg, elseSeg;
      }
      ghost var c := LowerExpr(s.condition, old(tempCounter)).value;
      ghost var p1, p2;
      r, thenSeg, elseSeg, p1, p2 := Branches(s, s.body, s.elseBody.statements, c.next, t + 3, t, t + 1, t + 2);
      if r.Err? {
        return r, seg, thenSeg, elseSeg;
      }
      seg := head + p1 + p2;
      IfElseShape(start, c, t, thenSeg, elseSeg, head, p1, p2, seg);
      IfElseCode(s, old(tempCounter), t, c, BodyCode(s.body, |s.body|, c.next, t + 3).value, Emitted(elseSeg, tempCounter, labelCounter));
    }

    /** `visit_IfStatement` without an else list: a conditional jump, then the then-branch and the end label. */
    method LowerIfOnly(s: Stmt) returns (r: Result<(), IRError>, ghost seg: seq<Instr>, ghost thenSeg: seq<Instr>)
      requires Active() && s.IfStatement? && !HasElse(s)
      modifies this
      ensures Active() && |arena| >= |old(arena)| && Keys(old(table)) <= Keys(table)
      ensures tempCounter >= old(tempCounter) && labelCounter >= old(labelCounter)
      ensures forall i :: 0 <= i < |old(arena)| && i != old(current) ==> arena[i] == old(arena[i])
      ensures r.Ok? <==> StmtLowerable(s)
      ensures r.Ok? ==>
        current == old(current) && open == old(open) && Closed(seg) &&
        arena[current] == old(arena[current]).(instructions := old(arena[current].instructions) + seg) &&
        forall l :: l in owner ==> l in old(owner) || old(labelCounter) <= l
      ensures r.Ok? ==> LowerExpr(s.condition, old(tempCounter)).Ok?
      ensures r.Ok? ==>
        var c := LowerExpr(s.condition, old(tempCounter)).value;
        var t := old(labelCounter);
        Closed(thenSeg) && seg == IfOnlySeq(c, t, thenSeg)
      ensures r.Ok? ==> StmtCode(s, old(tempCounter), old(labelCounter)) == Ok(Emitted(seg, tempCounter, labelCounter))
      decreases s, 5
    {
      seg, thenSeg := [], [];
      ghost var start := arena[current].instructions;
      var cond, t, head := IfHead(s.condition, false);
      if cond.Err? {
        return Err(cond.error), seg, thenSeg;
      }
      ghost var c := LowerExpr(s.condition, old(tempCounter)).value;
      ghost var p1;
      r, thenSeg, p1 := Branch(s, s.body, c.next, t + 2, t);
      if r.Err? {
        return r, seg, thenSeg;
      }
      EmitLabel(t + 1);
      seg := head + p1 + [Label(t + 1)];
      IfThenShape(start, c, t, thenSeg, head, p1, seg);
      IfOnlyCode(s, old(tempCounter), t, c, Emitted(thenSeg, tempCounter, labelCounter));
    }

    /** Both branches of an if-else: the then-branch at `t`, then `ElseRest`. */
    method Branches(ghost parent: Stmt, thenBody: seq<Stmt>, elseBody: seq<Stmt>, ghost t0: nat, ghost l0: nat,
                    t: nat, e: nat, f: nat)
      returns (r: Result<(), IRError>, ghost thenSeg: seq<Instr>, ghost elseSeg: seq<Instr>,
               ghost p1: seq<Instr>, ghost p2: seq<Instr>)
      requires Active() && (forall i :: 0 <= i < |thenBody| ==> thenBody[i] < parent)
      requires tempCounter == t0 && labelCounter == l0
      requires forall i :: 0 <= i < |elseBody| ==> elseBody[i] < parent
      requires t < labelCounter && e < labelCounter && f < labelCounter && t != e && t != f && e != f
      requires t !in owner && e !in owner && f !in owner
      modifies this
      ensures Active() && |arena| >= |old(arena)| && Keys(old(table)) <= Keys(table)
      ensures tempCounter >= old(tempCounter) && labelCounter >= old(labelCounter)
      ensures forall i :: 0 <= i < |old(arena)| && i != old(current) ==> arena[i] == old(arena[i])
      ensures r.Ok? <==> (forall i :: 0 <= i < |thenBody| ==> StmtLowerable(thenBody[i])) &&
                         (forall i :: 0 <= i < |elseBody| ==> StmtLowerable(elseBody[i]))
      ensures r.Ok? ==>
        current == old(current) && open == old(open) && Closed(thenSeg) && Closed(elseSeg) &&
        p1 == [Label(t)] + thenSeg && p2 == [Jump(e)] + ([Label(f)] + elseSeg) + [Label(e)] &&
        arena[current] == old(arena[current]).(instructions := old(arena[current].instructions) + p1 + p2) &&
        forall k :: k in owner ==> k in old(owner) || k == t || k == e || k == f || old(labelCounter) <= k
      ensures r.Ok? ==>
        var a := BodyCode(thenBody, |thenBody|, t0, l0);
        a.Ok? && a.value.code == thenSeg &&
        BodyCode(elseBody, |elseBody|, a.value.temps, a.value.labels) == Ok(Emitted(elseSeg, tempCounter, labelCounter))
      decreases parent, 4
    {
      elseSeg, p2 := [], [];
      r, thenSeg, p1 := Branch(parent, thenBody, t0, l0, t);
      if r.Err? {
        return;
      }
      r, elseSeg, p2 := ElseRest(parent, elseBody, tempCounter, labelCounter, e, f);
    }

    /** A branch target: the label `l`, then the branch's statements. */
    method Branch(ghost parent: Stmt, body: seq<Stmt>, ghost t0: nat, ghost l0: nat, l: nat)
      returns (r: Result<(), IRError>, ghost bodySeg: seq<Instr>, ghost piece: seq<Instr>)
      requires Active() && forall i :: 0 <= i < |body| ==> body[i] < parent
      requires tempCounter == t0 && labelCounter == l0
      requires l < labelCounter && l !in owner
      modifies this
      ensures Active() && |arena| >= |old(arena)| && Keys(old(table)) <= Keys(table)
      ensures tempCounter >= old(tempCounter) && labelCounter >= old(labelCounter)
      ensures forall i :: 0 <= i < |old(arena)| && i != old(current) ==> arena[i] == old(arena[i])
      ensures r.Ok? <==> forall i :: 0 <= i < |body| ==> StmtLowerable(body[i])
      ensures r.Ok? ==>
        current == old(current) && open == old(open) && Closed(bodySeg) && piece == [Label(l)] + bodySeg &&
        arena[current] == old(arena[current]).(instructions := old(arena[current].instructions) + piece) &&
        forall k :: k in owner ==> k in old(owner) || k == l || old(labelCounter) <= k
      ensures r.Ok? ==> BodyCode(body, |body|, t0, l0) == Ok(Emitted(bodySeg, tempCounter, labelCounter))
      decreases parent, 2
    {
      ghost var start := arena[current].instructions;
      EmitLabel(l);
      r, bodySeg := LowerBody(parent, body);
      piece := [Label(l)] + bodySeg;
      if r.Err? {
        return;
      }
      AppendAssoc(start, [Label(l)], bodySeg);
    }

    /** The jump past the else-branch, the else-branch at `f`, and the end label `e`. */
    method ElseRest(ghost parent: Stmt, body: seq<Stmt>, ghost t0: nat, ghost l0: nat, e: nat, f: nat)
      returns (r: Result<(), IRError>, ghost bodySeg: seq<Instr>, ghost piece: seq<Instr>)
      requires Active() && forall i :: 0 <= i < |body| ==> body[i] < parent
      requires tempCounter == t0 && labelCounter == l0
      requires e < labelCounter && f < labelCounter && e != f && e !in owner && f !in owner
      modifies this
      ensures Active() && |arena| >= |old(arena)| && Keys(old(table)) <= Keys(table)
      ensures tempCounter >= old(tempCounter) && labelCounter >= old(labelCounter)
      ensures forall i :: 0 <= i < |old(arena)| && i != old(current) ==> arena[i] == old(arena[i])
      ensures r.Ok? <==> forall i :: 0 <= i < |body| ==> StmtLowerable(body[i])
      ensures r.Ok? ==>
        current == old(current) && open == old(open) && Closed(bodySeg) &&
        piece == [Jump(e)] + ([Label(f)] + bodySeg) + [Label(e)] &&
        arena[current] == old(arena[current]).(instructions := old(arena[current].instructions) + piece) &&
        forall k :: k in owner ==> k in old(owner) || k == e || k == f || old(labelCounter) <= k
      ensures r.Ok? ==> BodyCode(body, |body|, t0, l0) == Ok(Emitted(bodySeg, tempCounter, labelCounter))
      decreases parent, 3
    {
      ghost var start := arena[current].instructions;
      Emit(Jump(e));
      ghost var p;
      r, bodySeg, p := Branch(parent, body, t0, l0, f);
      piece := [Jump(e)] + p + [Label(e)];
      if r.Err? {
        return;
      }
      EmitLabel(e);
      AppendAssoc(start, [Jump(e)], p);
    }

    /**
     * The head of `visit_TimesLoop`: a counter temporary set to 0, the start and end labels,
     * and the count's code.
     */
    method TimesHead(e: Expr) returns (count: Result<Operand, IRError>, n: nat, st: nat, ghost head: seq<Instr>)
      requires Active()
      modifies this
      ensures Active() && |arena| == |old(arena)| && table == old(table) && owner == old(owner)
      ensures current == old(current) && open == old(open) && tempCounter >= old(tempCounter)
      ensures forall i :: 0 <= i < |arena| && i != current ==> arena[i] == old(arena[i])
      ensures n == old(tempCounter) && st == old(labelCounter) && labelCounter == st + 2
      ensures count.Ok? <==> Lowerable(e)
      ensures count.Ok? <==> LowerExpr(e, n + 1).Ok?
      ensures count.Ok? ==>
        var c := LowerExpr(e, n + 1).value;
        Straight(c.code) && count.value == c.result && tempCounter == c.next &&
        head == [Assign(Temp(n), IntConst(0))] + c.code &&
        arena[current] == old(arena[current]).(instructions := old(arena[current].instructions) + head)
    {
      head := [];
      ghost var start := arena[current].instructions;
      var counter := NewTemp();
      n := counter.n;
      Emit(Assign(counter, IntConst(0)));
      st := NewLabel();
      var endLabel := NewLabel();
      ghost var t1 := tempCounter;
      LowerExprOkIff(e, t1);
      ghost var cc;
      count, cc := VisitExpr(e);
      if count.Err? {
        return;
      }
      ExprCodeStraight(e, t1);
      head := [Assign(counter, IntConst(0))] + cc;
      assert arena[current].instructions == start + head;
    }

    /** `visit_TimesLoop`: a counter from 0, a test against the count, the body, an increment and a jump back. */
    method LowerTimesLoop(s: Stmt) returns (r: Result<(), IRError>, ghost seg: seq<Instr>, ghost bodySeg: seq<Instr>)
      requires Active() && s.TimesLoop?
      modifies this
      ensures Active() && |arena| >= |old(arena)| && Keys(old(table)) <= Keys(table)
      ensures tempCounter >= old(tempCounter) && labelCounter >= old(labelCounter)
      ensures forall i :: 0 <= i < |old(arena)| && i != old(current) ==> arena[i] == old(arena[i])
      ensures r.Ok? <==> StmtLowerable(s)
      ensures r.Ok? ==>
        current == old(current) && open == old(open) && Closed(seg) &&
        arena[current] == old(arena[current]).(instructions := old(arena[current].instructions) + seg) &&
        forall l :: l in owner ==> l in old(owner) || old(labelCounter) <= l
      ensures r.Ok? ==> LowerExpr(s.count, old(tempCounter) + 1).Ok?
      ensures r.Ok? ==>
        var n := old(tempCounter);
        var c := LowerExpr(s.count, n + 1).value;
        var st := old(labelCounter);
        Closed(bodySeg) && seg == TimesSeq(n, c, st, bodySeg)
      ensures r.Ok? ==> StmtCode(s, old(tempCounter), old(labelCounter)) == Ok(Emitted(seg, tempCounter, labelCounter))
      decreases s, 5
    {
      seg, bodySeg := [], [];
      ghost var start := arena[current].instructions;
      var count, n, st, head := TimesHead(s.count);
      if count.Err? {
        return Err(count.error), seg, bodySeg;
      }
      ghost var c := LowerExpr(s.count, n + 1).value;
      ghost var rest;
      r, bodySeg, rest := TestedLoop(s, s.body, c.next, st + 2, st, "<", Temp(n), count.value,
                                     [BinaryOp("+", Temp(n), Temp(n), IntConst(1))]);
      if r.Err? {
        return r, seg, bodySeg;
      }
      TimesCode(s, n, st, c, Emitted(bodySeg, tempCounter, labelCounter));
      seg := head + rest;
      AppendAssoc(start, head, rest);
      TimesShape(n, c, st, bodySeg, head, rest, seg);
    }

    /**
     * The head of `visit_WhileLoop`: two labels, the start label, the condition's code and
     * the jump into the body or past the loop.
     */
    method WhileHead(e: Expr) returns (cond: Result<Operand, IRError>, st: nat, ghost head: seq<Instr>)
      requires Active()
      modifies this
      ensures Active() && |arena| == |old(arena)| && table == old(table)
      ensures current == old(current) && open == old(open)
      ensures tempCounter >= old(tempCounter) && labelCounter == old(labelCounter) + 2 && st == old(labelCounter)
      ensures forall i :: 0 <= i < |arena| && i != current ==> arena[i] == old(arena[i])
      ensures cond.Ok? <==> Lowerable(e)
      ensures cond.Ok? <==> LowerExpr(e, old(tempCounter)).Ok?
      ensures cond.Ok? ==>
        var c := LowerExpr(e, old(tempCounter)).value;
        Straight(c.code) && owner == old(owner)[st := current] && tempCounter == c.next && cond.value == c.result &&
        head == [Label(st)] + c.code + [CondJump(c.result, st, Some(st + 1))] &&
        arena[current] == old(arena[current]).(instructions := old(arena[current].instructions) + head)
    {
      head := [];
      ghost var start := arena[current].instructions;
      st := NewLabel();
      var endLabel := NewLabel();
      EmitLabel(st);
      ghost var t0 := tempCounter;
      LowerExprOkIff(e, t0);
      ghost var cc;
      cond, cc := VisitExpr(e);
      if cond.Err? {
        return;
      }
      ExprCodeStraight(e, t0);
      Emit(CondJump(cond.value, st, Some(endLabel)));
      head := [Label(st)] + cc + [CondJump(cond.value, st, Some(endLabel))];
      assert arena[current].instructions == start + head;
    }

    /** `visit_WhileLoop`: the start label, the condition and its jump, the body and a jump back. */
    method LowerWhileLoop(s: Stmt) returns (r: Result<(), IRError>, ghost seg: seq<Instr>, ghost bodySeg: seq<Instr>)
      requires Active() && s.WhileLoop?
      modifies this
      ensures Active() && |arena| >= |old(arena)| && Keys(old(table)) <= Keys(table)
      ensures tempCounter >= old(tempCounter) && labelCounter >= old(labelCounter)
      ensures forall i :: 0 <= i < |old(arena)| && i != old(current) ==> arena[i] == old(arena[i])
      ensures r.Ok? <==> StmtLowerable(s)
      ensures r.Ok? ==>
        current == old(current) && open == old(open) && Closed(seg) &&
        arena[current] == old(arena[current]).(instructions := old(arena[current].instructions) + seg) &&
        forall l :: l in owner ==> l in old(owner) || old(labelCounter) <= l
      ensures r.Ok? ==> LowerExpr(s.condition, old(tempCounter)).Ok?
      ensures r.Ok? ==>
        var c := LowerExpr(s.condition, old(tempCounter)).value;
        var st := old(labelCounter);
        Closed(bodySeg) && seg == WhileSeq(c, st, bodySeg)
      ensures r.Ok? ==> StmtCode(s, old(tempCounter), old(labelCounter)) == Ok(Emitted(seg, tempCounter, labelCounter))
      decreases s, 5
    {
      seg, bodySeg := [], [];
      ghost var start := arena[current].instructions;
      var cond, st, head := WhileHead(s.condition);
      if cond.Err? {
        return Err(cond.error), seg, bodySeg;
      }
      ghost var c := LowerExpr(s.condition, old(tempCounter)).value;
      ghost var rest;
      r, bodySeg, rest := LoopRest(s, s.body, c.next, st + 2, st, []);
      if r.Err? {
        return r, seg, bodySeg;
      }
      WhileCode(s, old(tempCounter), st, c, Emitted(bodySeg, tempCounter, labelCounter));
      seg := head + rest;
      AppendAssoc(start, head, rest);
      WhileShape(c, st, bodySeg, head, rest, seg);
    }

    /** Emits straight-line code one instruction at a time. */
    method EmitAll(code: seq<Instr>)
      requires Active() && Straight(code)
      modifies this
      ensures Active() && |arena| == |old(arena)|
      ensures arena == old(arena)[current := old(arena[current]).(instructions := old(arena[current].instructions) + code)]
      ensures tempCounter == old(tempCounter) && labelCounter == old(labelCounter) && table == old(table)
      ensures current == old(current) && owner == old(owner) && open == old(open)
    {
      var i := 0;
      assert old(arena[current].instructions) + code[..0] == old(arena[current].instructions);
      while i < |code|
        invariant 0 <= i <= |code|
        invariant Active() && |arena| == |old(arena)|
        invariant arena[current] == old(arena[current]).(instructions := old(arena[current].instructions) + code[..i])
        invariant forall k :: 0 <= k < |arena| && k != current ==> arena[k] == old(arena[k])
        invariant tempCounter == old(tempCounter) && labelCounter == old(labelCounter) && table == old(table)
        invariant current == old(current) && owner == old(owner) && open == old(open)
      {
        assert code[i] in code;
        Emit(code[i]);
        assert code[..i + 1] == code[..i] + [code[i]];
        i := i + 1;
      }
      assert code[..i] == code;
      assert arena == old(arena)[current := old(arena[current]).(instructions := old(arena[current].instructions) + code)];
    }

    /**
     * A loop whose test is one binary operation into a fresh temporary: the start label
     * `st`, the test, a jump to the body or past the loop, then `LoopRest`.
     */
    method TestedLoop(ghost parent: Stmt, body: seq<Stmt>, ghost t0: nat, ghost l0: nat, st: nat, op: string,
                      left: Operand, right: Operand, step: seq<Instr>)
      returns (r: Result<(), IRError>, ghost bodySeg: seq<Instr>, ghost rest: seq<Instr>)
      requires Active() && forall i :: 0 <= i < |body| ==> body[i] < parent
      requires tempCounter == t0 && labelCounter == l0
      requires Straight(step) && st + 1 < labelCounter && st !in owner && st + 1 !in owner
      modifies this
      ensures Active() && |arena| >= |old(arena)| && Keys(old(table)) <= Keys(table)
      ensures tempCounter >= old(tempCounter) && labelCounter >= old(labelCounter)
      ensures forall i :: 0 <= i < |old(arena)| && i != old(current) ==> arena[i] == old(arena[i])
      ensures r.Ok? <==> forall i :: 0 <= i < |body| ==> StmtLowerable(body[i])
      ensures r.Ok? ==>
        var c := Temp(t0);
        current == old(current) && open == old(open) && Closed(bodySeg) &&
        rest == [Label(st), BinaryOp(op, c, left, right), CondJump(c, st, Some(st + 1))] + (bodySeg + step + [Jump(st), Label(st + 1)]) &&
        arena[current] == old(arena[current]).(instructions := old(arena[current].instructions) + rest) &&
        forall l :: l in owner ==> l in old(owner) || l == st || l == st + 1 || old(labelCounter) <= l
      ensures r.Ok? ==> BodyCode(body, |body|, t0 + 1, l0) == Ok(Emitted(bodySeg, tempCounter, labelCounter))
      decreases parent, 3
    {
      ghost var start := arena[current].instructions;
      EmitLabel(st);
      var cond := NewTemp();
      Emit(BinaryOp(op, cond, left, right));
      Emit(CondJump(cond, st, Some(st + 1)));
      ghost var head := [Label(st), BinaryOp(op, cond, left, right), CondJump(cond, st, Some(st + 1))];
      assert arena[current].instructions == start + head;
      ghost var tail;
      r, bodySeg, tail := LoopRest(parent, body, t0 + 1, l0, st, step);
      rest := head + tail;
      if r.Err? {
        return;
      }
      AppendAssoc(start, head, tail);
    }

    /**
     * The part every loop shares once its test is emitted: the body, the straight-line
     * `step`, a jump back to `st` and the end label `st + 1`; `rest` is all of it.
     */
    method LoopRest(ghost parent: Stmt, body: seq<Stmt>, ghost t0: nat, ghost l0: nat, st: nat, step: seq<Instr>)
      returns (r: Result<(), IRError>, ghost bodySeg: seq<Instr>, ghost rest: seq<Instr>)
      requires Active() && forall i :: 0 <= i < |body| ==> body[i] < parent
      requires tempCounter == t0 && labelCounter == l0
      requires Straight(step) && st + 1 < labelCounter && st + 1 !in owner
      modifies this
      ensures Active() && |arena| >= |old(arena)| && Keys(old(table)) <= Keys(table)
      ensures tempCounter >= old(tempCounter) && labelCounter >= old(labelCounter)
      ensures forall i :: 0 <= i < |old(arena)| && i != old(current) ==> arena[i] == old(arena[i])
      ensures r.Ok? <==> forall i :: 0 <= i < |body| ==> StmtLowerable(body[i])
      ensures r.Ok? ==>
        current == old(current) && open == old(open) && Closed(bodySeg) &&
        rest == bodySeg + step + [Jump(st), Label(st + 1)] &&
        arena[current] == old(arena[current]).(instructions := old(arena[current].instructions) + rest) &&
        forall l :: l in owner ==> l in old(owner) || l == st + 1 || old(labelCounter) <= l
      ensures r.Ok? ==> BodyCode(body, |body|, t0, l0) == Ok(Emitted(bodySeg, tempCounter, labelCounter))
      decreases parent, 2
    {
      rest := [];
      ghost var start := arena[current].instructions;
      r, bodySeg := LowerBody(parent, body);
      if r.Err? {
        return;
      }
      rest := bodySeg + step + [Jump(st), Label(st + 1)];
      EmitAll(step);
      Emit(Jump(st));
      EmitLabel(st + 1);
      assert arena[current].instructions == start + rest;
    }

    /** The head of `visit_ForLoop`: the iterable's code, then the start and end labels. */
    method ForHead(e: Expr) returns (iterable: Result<Operand, IRError>, st: nat, ghost head: seq<Instr>)
      requires Active()
      modifies this
      ensures Active() && |arena| == |old(arena)| && table == old(table) && owner == old(owner)
      ensures current == old(current) && open == old(open) && tempCounter >= old(tempCounter) && labelCounter >= old(labelCounter)
      ensures forall i :: 0 <= i < |arena| && i != current ==> arena[i] == old(arena[i])
      ensures iterable.Ok? <==> Lowerable(e)
      ensures iterable.Ok? <==> LowerExpr(e, old(tempCounter)).Ok?
      ensures iterable.Ok? ==>
        var c := LowerExpr(e, old(tempCounter)).value;
        Straight(c.code) && iterable.value == c.result && tempCounter == c.next &&
        st == old(labelCounter) && labelCounter == st + 2 && head == c.code &&
        arena[current] == old(arena[current]).(instructions := old(arena[current].instructions) + head)
    {
      head, st := [], 0;
      ghost var t0 := tempCounter;
      LowerExprOkIff(e, t0);
      iterable, head := VisitExpr(e);
      if iterable.Err? {
        return;
      }
      ExprCodeStraight(e, t0);
      st := NewLabel();
      var endLabel := NewLabel();
    }

    /** `visit_ForLoop`: the iterable, then a loop whose test is `variable in iterable`. */
    method LowerForLoop(s: Stmt) returns (r: Result<(), IRError>, ghost seg: seq<Instr>, ghost bodySeg: seq<Instr>)
      requires Active() && s.ForLoop?
      modifies this
      ensures Active() && |arena| >= |old(arena)| && Keys(old(table)) <= Keys(table)
      ensures tempCounter >= old(tempCounter) && labelCounter >= old(labelCounter)
      ensures forall i :: 0 <= i < |old(arena)| && i != old(current) ==> arena[i] == old(arena[i])
      ensures r.Ok? <==> StmtLowerable(s)
      ensures r.Ok? ==>
        current == old(current) && open == old(open) && Closed(seg) &&
        arena[current] == old(arena[current]).(instructions := old(arena[current].instructions) + seg) &&
        forall l :: l in owner ==> l in old(owner) || old(labelCounter) <= l
      ensures r.Ok? ==> LowerExpr(s.iterable, old(tempCounter)).Ok?
      ensures r.Ok? ==>
        var c := LowerExpr(s.iterable, old(tempCounter)).value;
        var st := old(labelCounter);
        Closed(bodySeg) && seg == ForSeq(s.variable, c, st, bodySeg)
      ensures r.Ok? ==> StmtCode(s, old(tempCounter), old(labelCounter)) == Ok(Emitted(seg, tempCounter, labelCounter))
      decreases s, 5
    {
      seg, bodySeg := [], [];
      ghost var start := arena[current].instructions;
      var iterable, st, ic := ForHead(s.iterable);
      if iterable.Err? {
        return Err(iterable.error), seg, bodySeg;
      }
      ghost var c := LowerExpr(s.iterable, old(tempCounter)).value;
      ghost var rest;
      r, bodySeg, rest := TestedLoop(s, s.body, c.next, st + 2, st, "in", Var(s.variable), iterable.value, []);
      if r.Err? {
        return r, seg, bodySeg;
      }
      ForCode(s, old(tempCounter), st, c, Emitted(bodySeg, tempCounter, labelCounter));
      seg := ic + rest;
      AppendAssoc(start, ic, rest);
      ForShape(c, s.variable, st, bodySeg, rest, seg);
    }

    /**
     * `visit_FunctionDeclaration`: a new function object is bound to the name, the body is
     * lowered into it, a return is added unless it already ends in one, and the previous
     * function becomes current again. Nothing is added to the enclosing function.
     */
    method LowerFunctionDeclaration(s: Stmt) returns (r: Result<(), IRError>, ghost seg: seq<Instr>, ghost bodySeg: seq<Instr>)
      requires Active() && s.FunctionDeclaration?
      modifies this
      ensures Active() && |arena| >= |old(arena)| && Keys(old(table)) <= Keys(table)
      ensures tempCounter >= old(tempCounter) && labelCounter >= old(labelCounter)
      ensures forall i :: 0 <= i < |old(arena)| && i != old(current) ==> arena[i] == old(arena[i])
      ensures r.Ok? <==> StmtLowerable(s)
      ensures r.Ok? ==>
        current == old(current) && open == old(open) && Closed(seg) &&
        arena[current] == old(arena[current]).(instructions := old(arena[current].instructions) + seg) &&
        forall l :: l in owner ==> l in old(owner) || old(labelCounter) <= l
      ensures r.Ok? ==>
        seg == [] && |arena| > |old(arena)| && s.name in Keys(table) && Closed(bodySeg) &&
        arena[|old(arena)|] == FunctionIR(s.name, s.parameters, WithImplicitReturn(bodySeg))
      ensures r.Ok? ==>
        BodyCode(s.body, |s.body|, old(tempCounter), old(labelCounter)) == Ok(Emitted(bodySeg, tempCounter, labelCounter))
      ensures r.Ok? ==> StmtCode(s, old(tempCounter), old(labelCounter)) == Ok(Emitted(seg, tempCounter, labelCounter))
      decreases s, 5
    {
      seg, bodySeg := [], [];
      var prev := current;
      var id := NewFunction(s.name, s.parameters);
      PutKeys(old(table), s.name, id);
      current := id;
      var b;
      b, bodySeg := LowerBody(s, s.body);
      if b.Err? {
        return b, seg, bodySeg;
      }
      FinishFunction(prev, bodySeg);
      assert arena[current].instructions + seg == arena[current].instructions;
      r := Ok(());
    }

    /** The end of `visit_FunctionDeclaration`: the implicit return, then the previous function is current again. */
    method FinishFunction(prev: nat, ghost body: seq<Instr>)
      requires Active() && prev < |arena| && prev in open && prev != current
      requires arena[current].instructions == body && Closed(body)
      modifies this
      ensures Active() && current == prev && open == old(open) - {old(current)} && |arena| == |old(arena)|
      ensures arena == old(arena)[old(current) := old(arena[current]).(instructions := WithImplicitReturn(body))]
      ensures tempCounter == old(tempCounter) && labelCounter == old(labelCounter) && table == old(table)
      ensures owner == old(owner)
    {
      var instrs := arena[current].instructions;
      if |instrs| == 0 || !instrs[|instrs| - 1].Return? {
        Emit(Return(None));
      }
      open := open - {current};
      current := prev;
    }

    /** `visit(statement)`: the lowering for the statement's kind. */
    method LowerStmt(s: Stmt) returns (r: Result<(), IRError>, ghost seg: seq<Instr>)
      requires Active()
      modifies this
      ensures Active() && |arena| >= |old(arena)| && Keys(old(table)) <= Keys(table)
      ensures tempCounter >= old(tempCounter) && labelCounter >= old(labelCounter)
      ensures forall i :: 0 <= i < |old(arena)| && i != old(current) ==> arena[i] == old(arena[i])
      ensures r.Ok? <==> StmtLowerable(s)
      ensures r.Ok? ==>
        current == old(current) && open == old(open) && Closed(seg) &&
        arena[current] == old(arena[current]).(instructions := old(arena[current].instructions) + seg) &&
        forall l :: l in owner ==> l in old(owner) || old(labelCounter) <= l
      ensures r.Ok? ==> StmtCode(s, old(tempCounter), old(labelCounter)) == Ok(Emitted(seg, tempCounter, labelCounter))
      decreases s, 6
    {
      match s
      case ExpressionStatement(_) => r, seg := LowerExpressionStatement(s);
      case VarDeclaration(_, _) => r, seg := LowerVarDeclaration(s);
      case Assignment(_, _) => r, seg := LowerAssignment(s);
      case IfStatement(_, _, _) =>
        if HasElse(s) {
          ghost var a, b;
          r, seg, a, b := LowerIfElse(s);
        } else {
          ghost var a;
          r, seg, a := LowerIfOnly(s);
        }
      case TimesLoop(_, _) => ghost var a; r, seg, a := LowerTimesLoop(s);
      case WhileLoop(_, _) => ghost var a; r, seg, a := LowerWhileLoop(s);
      case ForLoop(_, _, _) => ghost var a; r, seg, a := LowerForLoop(s);
      case FunctionDeclaration(_, _, _) => ghost var a; r, seg, a := LowerFunctionDeclaration(s);
      case ReturnStatement(_) => r, seg := LowerReturn(s);
      case PrintStatement(_) => r, seg := LowerPrint(s);
      case InputStatement(_) => r, seg := LowerInput(s);
    }

    /** `for statement in body: self.visit(statement)`: the segments in order; the first failure stops. */
    method LowerBody(ghost parent: Stmt, body: seq<Stmt>) returns (r: Result<(), IRError>, ghost seg: seq<Instr>)
      requires Active() && forall i :: 0 <= i < |body| ==> body[i] < parent
      modifies this
      ensures Active() && |arena| >= |old(arena)| && Keys(old(table)) <= Keys(table)
      ensures tempCounter >= old(tempCounter) && labelCounter >= old(labelCounter)
      ensures forall i :: 0 <= i < |old(arena)| && i != old(current) ==> arena[i] == old(arena[i])
      ensures r.Ok? <==> forall i :: 0 <= i < |body| ==> StmtLowerable(body[i])
      ensures r.Ok? ==>
        current == old(current) && open == old(open) && Closed(seg) &&
        arena[current] == old(arena[current]).(instructions := old(arena[current].instructions) + seg) &&
        forall l :: l in owner ==> l in old(owner) || old(labelCounter) <= l
      ensures r.Ok? ==> BodyCode(body, |body|, old(tempCounter), old(labelCounter)) == Ok(Emitted(seg, tempCounter, labelCounter))
      decreases parent, 1
    {
      seg := [];
      var i := 0;
      while i < |body|
        invariant 0 <= i <= |body|
        invariant forall l :: l in owner ==> l in old(owner) || old(labelCounter) <= l
        invariant BodyCode(body, i, old(tempCounter), old(labelCounter)) == Ok(Emitted(seg, tempCounter, labelCounter))
        invariant Active() && current == old(current) && open == old(open)
        invariant |arena| >= |old(arena)| && Keys(old(table)) <= Keys(table)
        invariant tempCounter >= old(tempCounter) && labelCounter >= old(labelCounter)
        invariant forall k :: 0 <= k < |old(arena)| && k != old(current) ==> arena[k] == old(arena[k])
        invariant Closed(seg)
        invariant arena[current] == old(arena[current]).(instructions := old(arena[current].instructions) + seg)
      {
        var b, s1 := LowerStmt(body[i]);
        if b.Err? {
          return b, seg;
        }
        ClosedConcat(seg, s1);
        seg := seg + s1;
        i := i + 1;
      }
      BodyCodeOkIff(body, |body|, old(tempCounter), old(labelCounter));
      r := Ok(());
    }

    /**
     * `visit_Program`: a `main` function is bound and made current, every statement is
     * lowered into it, and the functions table is the result. `main` gets no implicit return.
     */
    method Generate(program: Program) returns (r: Result<seq<FunctionIR>, IRError>, ghost mainId: nat, ghost mainSeg: seq<Instr>)
      requires Valid()
      modifies this
      ensures Valid() && |arena| > |old(arena)| && forall i :: 0 <= i < |old(arena)| ==> arena[i] == old(arena[i])
      ensures r.Ok? <==> forall i :: 0 <= i < |program.statements| ==> StmtLowerable(program.statements[i])
      ensures r.Ok? ==>
        mainId == |old(arena)| && mainId < |arena| && arena[mainId] == FunctionIR("main", [], mainSeg) &&
        Closed(mainSeg) && open == old(open) + {mainId} && "main" in Keys(table) &&
        r.value == FunctionsOf(arena, table)
      ensures r.Ok? ==>
        MainCode(program.statements, |program.statements|, old(tempCounter), old(labelCounter)) == Ok(Emitted(mainSeg, tempCounter, labelCounter))
    {
      var id := NewFunction("main", []);
      mainId := id;
      PutKeys(old(table), "main", id);
      current := id;
      mainSeg := [];
      var i := 0;
      while i < |program.statements|
        invariant 0 <= i <= |program.statements|
        invariant Active() && current == mainId && open == old(open) + {mainId}
        invariant mainId == |old(arena)| && |arena| > mainId && "main" in Keys(table)
        invariant arena[..|old(arena)|] == old(arena)
        invariant forall k :: 0 <= k < i ==> StmtLowerable(program.statements[k])
        invariant MainCode(program.statements, i, old(tempCounter), old(labelCounter)) == Ok(Emitted(mainSeg, tempCounter, labelCounter))
        invariant Closed(mainSeg) && arena[mainId] == FunctionIR("main", [], mainSeg)
      {
        ghost var t1, l1 := tempCounter, labelCounter;
        var b, s1 := LowerStmt(program.statements[i]);
        if b.Err? {
          return Err(b.error), mainId, mainSeg;
        }
        MainCodeStep(program.statements, i, old(tempCounter), old(labelCounter), Emitted(mainSeg, t1, l1), Emitted(s1, tempCounter, labelCounter));
        ClosedConcat(mainSeg, s1);
        mainSeg := mainSeg + s1;
        i := i + 1;
      }
      r := Ok(FunctionsOf(arena, table));
    }
  }

  /** A failing argument makes every longer argument prefix fail. */
  lemma {:induction false} LowerArgIsPrefix(call: Expr, i: nat, t: nat)
    requires call.FunctionCall? && i < |call.arguments| && LowerArgs(call, i, t).Ok?
    requires LowerExpr(call.arguments[i], LowerArgs(call, i, t).value.next).Err?
    ensures LowerExpr(call, t).Err?
  {
    LowerArgsOkIff(call, i + 1, t);
    LowerArgsOkIff(call, |call.arguments|, t);
    LowerExprOkIff(call, t);
  }

  // ---- the whole program ----

  /** No label is defined in two different functions. */
  predicate LabelsDisjoint(fs: seq<FunctionIR>)
  {
    forall i, j, x :: 0 <= i < |fs| && 0 <= j < |fs| && i != j && x in fs[i].instructions && x.Label? ==>
      x !in fs[j].instructions
  }

  /**
   * What the generator's output satisfies: every function's jumps target its own labels,
   * labels are defined once and in one function only, names are distinct, and every
   * function except the program's own `main` ends in a return.
   */
  predicate WellFormedOutput(fs: seq<FunctionIR>)
  {
    (forall i :: 0 <= i < |fs| ==> Closed(fs[i].instructions) && UniqueLabels(fs[i].instructions)) &&
    (forall i, j :: 0 <= i < j < |fs| ==> fs[i].name != fs[j].name) &&
    (forall i :: 0 <= i < |fs| && fs[i].name != "main" ==> Complete(fs[i].instructions)) &&
    LabelsDisjoint(fs)
  }

  /** The generator's invariants, with only `main` still open, make its table well-formed output. */
  lemma OutputWellFormed(arena: seq<FunctionIR>, table: seq<(string, nat)>, owner: map<nat, nat>, lc: nat,
                         open: set<nat>, id: nat, mainSeg: seq<Instr>)
    requires TableInv(arena, table) && LabelInv(arena, owner, lc) && DoneInv(arena, open)
    requires open == {id} && id < |arena| && arena[id] == FunctionIR("main", [], mainSeg) && Closed(mainSeg)
    requires "main" in Keys(table)
    ensures var fs := FunctionsOf(arena, table);
      WellFormedOutput(fs) && exists i :: 0 <= i < |fs| && fs[i].name == "main"
  {
    var fs := FunctionsOf(arena, table);
    forall i | 0 <= i < |fs| ensures Closed(fs[i].instructions) && UniqueLabels(fs[i].instructions) {
      assert table[i] in table;
      var k := table[i].1;
      assert Owned(arena[k], k, owner);
      if k != id {
        assert Complete(arena[k].instructions);
      }
    }
    forall i, j | 0 <= i < j < |fs| ensures fs[i].name != fs[j].name {
      assert table[i] in table && table[j] in table;
    }
    forall i | 0 <= i < |fs| && fs[i].name != "main" ensures Complete(fs[i].instructions) {
      assert table[i] in table;
    }
    forall i, j, x | 0 <= i < |fs| && 0 <= j < |fs| && i != j && x in fs[i].instructions && x.Label?
      ensures x !in fs[j].instructions
    {
      assert table[i] in table && table[j] in table;
      assert table[i].1 != table[j].1 by {
        if i < j {} else {}
      }
    }
    var e :| e in table && e.0 == "main";
    var k :| 0 <= k < |table| && table[k] == e;
    assert fs[k].name == "main";
  }

  /**
   * `IRGenerator().generate(ast)`: a fresh generator lowers the program. It fails exactly
   * when some expression it reaches has no lowering, and its result is well-formed and has
   * a function named `main`.
   */
  method GenerateIR(program: Program) returns (r: Result<seq<FunctionIR>, IRError>)
    ensures r.Ok? <==> forall i :: 0 <= i < |program.statements| ==> StmtLowerable(program.statements[i])
    ensures r.Ok? ==> WellFormedOutput(r.value) && exists i :: 0 <= i < |r.value| && r.value[i].name == "main"
  {
    var g := new Generator();
    ghost var id, mainSeg;
    r, id, mainSeg := g.Generate(program);
    if r.Ok? {
      OutputWellFormed(g.arena, g.table, g.owner, g.labelCounter, g.open, id, mainSeg);
    }
  }
}
