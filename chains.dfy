/**
 * Chains of literals joined by the operators of one binary level (`1 + 2 - 3`, `a < b`), and
 * the left fold every binary loop of both parsers builds over them. Nothing here depends on a
 * grammar; ExprGrammarFacts proves that the binary levels build exactly these folds.
 */
module Chains {
  import opened Wrappers
  import opened Tokens
  import opened Ast
  import opened ParserBase

  /** The literal node a literal token becomes. */
  function LiteralOf(t: Token): Expr
  {
    Literal(t.value, LiteralType(t.kind))
  }

  /** A literal token: INTEGER, FLOAT, STRING or BOOLEAN. */
  predicate IsLiteral(t: Token)
  {
    LiteralType(t.kind) != ""
  }

  /** `lit op lit op ... lit` with n operators, all in `ops`, from position i. */
  predicate Chain(ts: seq<Token>, i: nat, n: nat, ops: set<TokenKind>)
    decreases n
  {
    i + 2 * n < |ts| && IsLiteral(ts[i]) &&
    (n > 0 ==> ts[i + 1].kind in ops && Chain(ts, i + 2, n - 1, ops))
  }

  /**
   * The tree a binary loop builds over a chain: each `operator literal` step makes the tree
   * so far the left operand of a new node.
   */
  function ChainFold(node: Expr, ts: seq<Token>, i: nat, n: nat): Expr
    requires i + 2 * n < |ts|
    decreases n
  {
    if n == 0 then node else ChainFold(BinaryOperation(node, ts[i + 1], LiteralOf(ts[i + 2])), ts, i + 2, n - 1)
  }

  /** The `operator right` steps of a chain, right operands as literals. */
  function ChainSteps(ts: seq<Token>, i: nat, n: nat): (steps: seq<Step>)
    requires i + 2 * n < |ts|
    ensures |steps| == n
    decreases n
  {
    if n == 0 then [] else [(ts[i + 1], LiteralOf(ts[i + 2]))] + ChainSteps(ts, i + 2, n - 1)
  }

  /** The chain's tree is the left fold (`Ast.FoldLeft`) of its steps. */
  lemma {:induction false} ChainFoldIsFoldLeft(node: Expr, ts: seq<Token>, i: nat, n: nat)
    requires i + 2 * n < |ts|
    ensures ChainFold(node, ts, i, n) == FoldLeft(node, ChainSteps(ts, i, n))
    decreases n
  {
    if n > 0 {
      var steps := ChainSteps(ts, i, n);
      assert steps[1..] == ChainSteps(ts, i + 2, n - 1);
      ChainFoldIsFoldLeft(BinaryOperation(node, ts[i + 1], LiteralOf(ts[i + 2])), ts, i + 2, n - 1);
    }
  }
}
