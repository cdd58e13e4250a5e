/**
 * The syntax tree both parsers build (the node classes of src/vypr/parser.py, a superset
 * of those of parser.py: only the vypr parser builds PropertyAccess). Python's optional
 * fields (`initial_value=None`, `else_body=None`, `value=None`) are Options.
 */
module Ast {
  import opened Wrappers
  import opened Tokens

  datatype Expr =
    | BinaryOperation(left: Expr, op: Token, right: Expr)
    | UnaryOperation(op: Token, operand: Expr)
      /** `type_` is one of "integer", "float", "string", "boolean". */
    | Literal(value: TokenValue, typeName: string)
    | Identifier(name: string)
    | FunctionCall(callee: string, arguments: seq<Expr>)
    | ArrayLiteral(elements: seq<Expr>)
    | PropertyAccess(object: Expr, property: string)

  datatype Stmt =
    | ExpressionStatement(expression: Expr)
    | VarDeclaration(name: string, initialValue: Option<Expr>)
      /** `Assignment.variable` is always an Identifier node; its name is kept. */
    | Assignment(variable: string, value: Expr)
    | IfStatement(condition: Expr, body: seq<Stmt>, elseBody: ElseClause)
    | TimesLoop(count: Expr, body: seq<Stmt>)
    | WhileLoop(condition: Expr, body: seq<Stmt>)
    | ForLoop(variable: string, iterable: Expr, body: seq<Stmt>)
    | FunctionDeclaration(name: string, parameters: seq<string>, body: seq<Stmt>)
    | ReturnStatement(returned: Option<Expr>)
    | PrintStatement(expression: Expr)
    | InputStatement(variable: string)

  /** `IfStatement.else_body`: None, or the list of statements an ELSE introduced. */
  datatype ElseClause = NoElse | ElseBlock(statements: seq<Stmt>)

  datatype Program = Program(statements: seq<Stmt>)

  /** One `operator right` step of a binary level. */
  type Step = (Token, Expr)

  /** The tree a binary-operator loop builds: each new operand becomes the right child of a new root. */
  function FoldLeft(first: Expr, steps: seq<Step>): Expr
    decreases |steps|
  {
    if |steps| == 0 then first
    else FoldLeft(BinaryOperation(first, steps[0].0, steps[0].1), steps[1..])
  }

  /** Folding one more step puts the whole previous tree on the left of the new node. */
  lemma {:induction false} FoldLeftLast(first: Expr, steps: seq<Step>)
    requires |steps| > 0
    ensures FoldLeft(first, steps)
         == BinaryOperation(FoldLeft(first, steps[..|steps| - 1]), steps[|steps| - 1].0, steps[|steps| - 1].1)
    decreases |steps|
  {
    if |steps| > 1 {
      FoldLeftLast(BinaryOperation(first, steps[0].0, steps[0].1), steps[1..]);
      assert steps[1..][..|steps| - 2] == steps[1..|steps| - 1];
      assert steps[..|steps| - 1][1..] == steps[1..|steps| - 1];
    }
  }

  /** Folding is extension-friendly: folding a prefix and then the rest is folding everything. */
  lemma {:induction false} FoldLeftAppend(first: Expr, steps: seq<Step>, more: seq<Step>)
    ensures FoldLeft(first, steps + more) == FoldLeft(FoldLeft(first, steps), more)
    decreases |steps|
  {
    if |steps| == 0 {
      assert steps + more == more;
    } else {
      assert (steps + more)[1..] == steps[1..] + more;
      FoldLeftAppend(BinaryOperation(first, steps[0].0, steps[0].1), steps[1..], more);
    }
  }

  /** Depth of the left spine: the number of BinaryOperation nodes met going left from the root. */
  function LeftSpine(e: Expr): nat
  {
    if e.BinaryOperation? then 1 + LeftSpine(e.left) else 0
  }

  /** The leaf at the bottom of the left spine. */
  function LeftmostOperand(e: Expr): Expr
  {
    if e.BinaryOperation? then LeftmostOperand(e.left) else e
  }

  /**
   * Left association: every step adds one node to the left spine and the first operand stays
   * the leftmost, so `a - b - c` is `(a - b) - c` and never `a - (b - c)`.
   */
  lemma {:induction false} FoldLeftIsLeftNested(first: Expr, steps: seq<Step>)
    requires !first.BinaryOperation?
    ensures LeftSpine(FoldLeft(first, steps)) == |steps|
    ensures LeftmostOperand(FoldLeft(first, steps)) == first
    decreases |steps|
  {
    if |steps| > 0 {
      FoldLeftLast(first, steps);
      FoldLeftIsLeftNested(first, steps[..|steps| - 1]);
    }
  }

  /** `a op1 b op2 c` with operands that are not themselves binary nodes. */
  lemma ThreeOperands(a: Expr, op1: Token, b: Expr, op2: Token, c: Expr)
    ensures FoldLeft(a, [(op1, b), (op2, c)]) == BinaryOperation(BinaryOperation(a, op1, b), op2, c)
  {
    var steps := [(op1, b), (op2, c)];
    assert steps[1..] == [(op2, c)] && steps[1..][1..] == [];
    assert FoldLeft(a, steps) == FoldLeft(BinaryOperation(a, op1, b), [(op2, c)]);
    assert FoldLeft(BinaryOperation(a, op1, b), [(op2, c)])
        == FoldLeft(BinaryOperation(BinaryOperation(a, op1, b), op2, c), []);
  }

  /**
   * A dotted chain `x.p.q`: an Identifier at the bottom and PropertyAccess nodes nested to
   * the left above it.
   */
  predicate PropertyChain(e: Expr, root: string)
  {
    match e
    case Identifier(n) => n == root
    case PropertyAccess(o, _) => PropertyChain(o, root)
    case _ => false
  }

  /** Only the last statement of a function body may be a ReturnStatement. */
  predicate ReturnOnlyLast(body: seq<Stmt>)
  {
    forall i :: 0 <= i < |body| - 1 ==> !body[i].ReturnStatement?
  }
}
