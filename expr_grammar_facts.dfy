/**
 * What the expression productions of ExprGrammar (and so the expression methods of both
 * parsers, which compute them) guarantee: the trees the binary levels build, folded to the
 * left with the usual precedence, what each kind of factor becomes, and the property chains
 * only the vypr dialect reads.
 */
module ExprGrammarFacts {
  import opened Wrappers
  import opened Tokens
  import opened Ast
  import opened ParserBase
  import opened ExprGrammar
  import opened Chains

  /** A literal token parses as its literal, with the cursor right after it. */
  lemma FactorLiteral(d: Dialect, ts: seq<Token>, i: nat)
    requires Stream(ts) && i < |ts| && IsLiteral(ts[i])
    ensures FactorAt(d, ts, i) == Parsed(Ok(LiteralOf(ts[i])), i + 1)
  {
  }

  // One step of each binary level: its first operand, one more `operator operand`, its end.

  lemma TermStart(d: Dialect, ts: seq<Token>, i: nat)
    requires Stream(ts) && FactorAt(d, ts, i).result.Ok?
    ensures TermAt(d, ts, i) == TermFrom(d, ts, FactorAt(d, ts, i).end, FactorAt(d, ts, i).result.value)
  {
  }

  lemma TermStep(d: Dialect, ts: seq<Token>, i: nat, node: Expr)
    requires Stream(ts) && Cur(ts, i).kind in TermOps && FactorAt(d, ts, i + 1).result.Ok?
    ensures TermFrom(d, ts, i, node)
         == TermFrom(d, ts, FactorAt(d, ts, i + 1).end, BinaryOperation(node, Cur(ts, i), FactorAt(d, ts, i + 1).result.value))
  {
  }

  lemma TermStop(d: Dialect, ts: seq<Token>, i: nat, node: Expr)
    requires Stream(ts) && Cur(ts, i).kind !in TermOps
    ensures TermFrom(d, ts, i, node) == Parsed(Ok(node), i)
  {
  }

  lemma ArithmeticStart(d: Dialect, ts: seq<Token>, i: nat)
    requires Stream(ts) && TermAt(d, ts, i).result.Ok?
    ensures ArithmeticAt(d, ts, i) == ArithmeticFrom(d, ts, TermAt(d, ts, i).end, TermAt(d, ts, i).result.value)
  {
  }

  lemma ArithmeticStep(d: Dialect, ts: seq<Token>, i: nat, node: Expr)
    requires Stream(ts) && Cur(ts, i).kind in ArithmeticOps && TermAt(d, ts, i + 1).result.Ok?
    ensures ArithmeticFrom(d, ts, i, node)
         == ArithmeticFrom(d, ts, TermAt(d, ts, i + 1).end, BinaryOperation(node, Cur(ts, i), TermAt(d, ts, i + 1).result.value))
  {
  }

  lemma ArithmeticStop(d: Dialect, ts: seq<Token>, i: nat, node: Expr)
    requires Stream(ts) && Cur(ts, i).kind !in ArithmeticOps
    ensures ArithmeticFrom(d, ts, i, node) == Parsed(Ok(node), i)
  {
  }

  lemma ComparisonStart(d: Dialect, ts: seq<Token>, i: nat)
    requires Stream(ts) && ArithmeticAt(d, ts, i).result.Ok?
    ensures ComparisonAt(d, ts, i) == ComparisonFrom(d, ts, ArithmeticAt(d, ts, i).end, ArithmeticAt(d, ts, i).result.value)
  {
  }

  lemma ComparisonStep(d: Dialect, ts: seq<Token>, i: nat, node: Expr)
    requires Stream(ts) && Cur(ts, i).kind in ComparisonOps && ArithmeticAt(d, ts, i + 1).result.Ok?
    ensures ComparisonFrom(d, ts, i, node)
         == ComparisonFrom(d, ts, ArithmeticAt(d, ts, i + 1).end, BinaryOperation(node, Cur(ts, i), ArithmeticAt(d, ts, i + 1).result.value))
  {
  }

  lemma ComparisonStop(d: Dialect, ts: seq<Token>, i: nat, node: Expr)
    requires Stream(ts) && Cur(ts, i).kind !in ComparisonOps
    ensures ComparisonFrom(d, ts, i, node) == Parsed(Ok(node), i)
  {
  }

  /** The term loop over a chain of MULTIPLY/DIVIDE steps folds them all onto `node`, to the left. */
  lemma {:induction false} TermFromChain(d: Dialect, ts: seq<Token>, i: nat, n: nat, node: Expr)
    requires Stream(ts) && Chain(ts, i, n, TermOps)
    requires Cur(ts, i + 2 * n + 1).kind !in TermOps
    ensures TermFrom(d, ts, i + 1, node) == Parsed(Ok(ChainFold(node, ts, i, n)), i + 2 * n + 1)
    decreases n
  {
    if n == 0 {
      TermStop(d, ts, i + 1, node);
    } else {
      var next := BinaryOperation(node, ts[i + 1], LiteralOf(ts[i + 2]));
      TermChainStep(d, ts, i, n, node);
      TermFromChain(d, ts, i + 2, n - 1, next);
      assert ChainFold(node, ts, i, n) == ChainFold(next, ts, i + 2, n - 1);
    }
  }

  /** The first step of a term chain: one operator and its literal operand. */
  lemma TermChainStep(d: Dialect, ts: seq<Token>, i: nat, n: nat, node: Expr)
    requires Stream(ts) && Chain(ts, i, n, TermOps) && n > 0
    requires Cur(ts, i + 2 * n + 1).kind !in TermOps
    ensures Chain(ts, i + 2, n - 1, TermOps) && i + 2 + 2 * (n - 1) + 1 == i + 2 * n + 1
    ensures TermFrom(d, ts, i + 1, node) == TermFrom(d, ts, i + 3, BinaryOperation(node, ts[i + 1], LiteralOf(ts[i + 2])))
  {
    FactorLiteral(d, ts, i + 2);
    TermStep(d, ts, i + 1, node);
  }

  /** `a * b / c` is `(a * b) / c`, and the term ends at the first token that is no term operator. */
  lemma TermChain(d: Dialect, ts: seq<Token>, i: nat, n: nat)
    requires Stream(ts) && Chain(ts, i, n, TermOps) && Cur(ts, i + 2 * n + 1).kind !in TermOps
    ensures TermAt(d, ts, i) == Parsed(Ok(ChainFold(LiteralOf(ts[i]), ts, i, n)), i + 2 * n + 1)
  {
    FactorLiteral(d, ts, i);
    TermStart(d, ts, i);
    TermFromChain(d, ts, i, n, LiteralOf(ts[i]));
  }

  /** A literal followed by no term operator is a term on its own. */
  lemma TermLiteral(d: Dialect, ts: seq<Token>, i: nat)
    requires Stream(ts) && i < |ts| && IsLiteral(ts[i]) && Cur(ts, i + 1).kind !in TermOps
    ensures TermAt(d, ts, i) == Parsed(Ok(LiteralOf(ts[i])), i + 1)
  {
    TermChain(d, ts, i, 0);
  }

  /** The arithmetic loop over a chain of PLUS/MINUS/CONCAT steps folds them all onto `node`, to the left. */
  lemma {:induction false} ArithmeticFromChain(d: Dialect, ts: seq<Token>, i: nat, n: nat, node: Expr)
    requires Stream(ts) && Chain(ts, i, n, ArithmeticOps)
    requires Cur(ts, i + 2 * n + 1).kind !in ArithmeticOps + TermOps
    ensures ArithmeticFrom(d, ts, i + 1, node) == Parsed(Ok(ChainFold(node, ts, i, n)), i + 2 * n + 1)
    decreases n
  {
    if n == 0 {
      ArithmeticStop(d, ts, i + 1, node);
    } else {
      var next := BinaryOperation(node, ts[i + 1], LiteralOf(ts[i + 2]));
      ArithmeticChainStep(d, ts, i, n, node);
      ArithmeticFromChain(d, ts, i + 2, n - 1, next);
      assert ChainFold(node, ts, i, n) == ChainFold(next, ts, i + 2, n - 1);
    }
  }

  /** The first step of an arithmetic chain: one operator and its literal operand. */
  lemma ArithmeticChainStep(d: Dialect, ts: seq<Token>, i: nat, n: nat, node: Expr)
    requires Stream(ts) && Chain(ts, i, n, ArithmeticOps) && n > 0
    requires Cur(ts, i + 2 * n + 1).kind !in ArithmeticOps + TermOps
    ensures Chain(ts, i + 2, n - 1, ArithmeticOps) && i + 2 + 2 * (n - 1) + 1 == i + 2 * n + 1
    ensures ArithmeticFrom(d, ts, i + 1, node) == ArithmeticFrom(d, ts, i + 3, BinaryOperation(node, ts[i + 1], LiteralOf(ts[i + 2])))
  {
    if n > 1 {
      assert ts[i + 3].kind in ArithmeticOps;
    }
    assert Cur(ts, i + 3).kind !in TermOps;
    TermLiteral(d, ts, i + 2);
    ArithmeticStep(d, ts, i + 1, node);
  }

  /** `a - b + c` is `(a - b) + c`. */
  lemma ArithmeticChain(d: Dialect, ts: seq<Token>, i: nat, n: nat)
    requires Stream(ts) && Chain(ts, i, n, ArithmeticOps) && Cur(ts, i + 2 * n + 1).kind !in ArithmeticOps + TermOps
    ensures ArithmeticAt(d, ts, i) == Parsed(Ok(ChainFold(LiteralOf(ts[i]), ts, i, n)), i + 2 * n + 1)
  {
    TermLiteral(d, ts, i);
    ArithmeticStart(d, ts, i);
    ArithmeticFromChain(d, ts, i, n, LiteralOf(ts[i]));
  }

  /** The comparison loop over a chain of comparison steps folds them all onto `node`, to the left. */
  lemma {:induction false} ComparisonFromChain(d: Dialect, ts: seq<Token>, i: nat, n: nat, node: Expr)
    requires Stream(ts) && Chain(ts, i, n, ComparisonOps)
    requires Cur(ts, i + 2 * n + 1).kind !in ComparisonOps + ArithmeticOps + TermOps
    ensures ComparisonFrom(d, ts, i + 1, node) == Parsed(Ok(ChainFold(node, ts, i, n)), i + 2 * n + 1)
    decreases n
  {
    if n == 0 {
      ComparisonStop(d, ts, i + 1, node);
    } else {
      var next := BinaryOperation(node, ts[i + 1], LiteralOf(ts[i + 2]));
      ComparisonChainStep(d, ts, i, n, node);
      ComparisonFromChain(d, ts, i + 2, n - 1, next);
      assert ChainFold(node, ts, i, n) == ChainFold(next, ts, i + 2, n - 1);
    }
  }

  /** The first step of a comparison chain: one operator and its literal operand. */
  lemma ComparisonChainStep(d: Dialect, ts: seq<Token>, i: nat, n: nat, node: Expr)
    requires Stream(ts) && Chain(ts, i, n, ComparisonOps) && n > 0
    requires Cur(ts, i + 2 * n + 1).kind !in ComparisonOps + ArithmeticOps + TermOps
    ensures Chain(ts, i + 2, n - 1, ComparisonOps) && i + 2 + 2 * (n - 1) + 1 == i + 2 * n + 1
    ensures ComparisonFrom(d, ts, i + 1, node) == ComparisonFrom(d, ts, i + 3, BinaryOperation(node, ts[i + 1], LiteralOf(ts[i + 2])))
  {
    if n > 1 {
      assert ts[i + 3].kind in ComparisonOps;
    }
    ArithmeticChain(d, ts, i + 2, 0);
    ComparisonStep(d, ts, i + 1, node);
  }

  /**
   * An expression of literals joined by comparison operators is their left fold, and it ends
   * at the first token that is no operator.
   */
  lemma ExpressionChain(d: Dialect, ts: seq<Token>, i: nat, n: nat)
    requires Stream(ts) && Chain(ts, i, n, ComparisonOps)
    requires Cur(ts, i + 2 * n + 1).kind !in ComparisonOps + ArithmeticOps + TermOps
    ensures ExpressionAt(d, ts, i) == Parsed(Ok(FoldLeft(LiteralOf(ts[i]), ChainSteps(ts, i, n))), i + 2 * n + 1)
  {
    ArithmeticChain(d, ts, i, 0);
    ComparisonStart(d, ts, i);
    ComparisonFromChain(d, ts, i, n, LiteralOf(ts[i]));
    ChainFoldIsFoldLeft(LiteralOf(ts[i]), ts, i, n);
  }

  /** Precedence: in `a + b * c` the product is the right operand of the sum. */
  lemma ProductInsideSum(d: Dialect, ts: seq<Token>, i: nat)
    requires Stream(ts) && i + 4 < |ts|
    requires IsLiteral(ts[i]) && ts[i + 1].kind in ArithmeticOps && IsLiteral(ts[i + 2])
    requires ts[i + 3].kind in TermOps && IsLiteral(ts[i + 4]) && Cur(ts, i + 5).kind !in ArithmeticOps + TermOps
    ensures ArithmeticAt(d, ts, i) == Parsed(Ok(
      BinaryOperation(LiteralOf(ts[i]), ts[i + 1], BinaryOperation(LiteralOf(ts[i + 2]), ts[i + 3], LiteralOf(ts[i + 4])))), i + 5)
  {
    var a, b, c := LiteralOf(ts[i]), LiteralOf(ts[i + 2]), LiteralOf(ts[i + 4]);
    var product := BinaryOperation(b, ts[i + 3], c);
    TermLiteral(d, ts, i);
    TermChain(d, ts, i + 2, 1);
    ArithmeticStart(d, ts, i);
    ArithmeticStep(d, ts, i + 1, a);
    ArithmeticStop(d, ts, i + 5, BinaryOperation(a, ts[i + 1], product));
  }

  /** Precedence: in `a * b + c` the product is the left operand of the sum. */
  lemma ProductBeforeSum(d: Dialect, ts: seq<Token>, i: nat)
    requires Stream(ts) && i + 4 < |ts|
    requires IsLiteral(ts[i]) && ts[i + 1].kind in TermOps && IsLiteral(ts[i + 2])
    requires ts[i + 3].kind in ArithmeticOps && IsLiteral(ts[i + 4]) && Cur(ts, i + 5).kind !in ArithmeticOps + TermOps
    ensures ArithmeticAt(d, ts, i) == Parsed(Ok(
      BinaryOperation(BinaryOperation(LiteralOf(ts[i]), ts[i + 1], LiteralOf(ts[i + 2])), ts[i + 3], LiteralOf(ts[i + 4]))), i + 5)
  {
    var a, b, c := LiteralOf(ts[i]), LiteralOf(ts[i + 2]), LiteralOf(ts[i + 4]);
    var product := BinaryOperation(a, ts[i + 1], b);
    TermChain(d, ts, i, 1);
    TermLiteral(d, ts, i + 4);
    ArithmeticStart(d, ts, i);
    ArithmeticStep(d, ts, i + 3, product);
    ArithmeticStop(d, ts, i + 5, BinaryOperation(product, ts[i + 3], c));
  }

  /**
   * `factor`: a sign applies to the factor after it, a literal token is its literal, a
   * parenthesised expression is the expression itself, and any token that starts no factor
   * is the "Invalid factor" error, reported where it stands.
   */
  lemma PrimaryCases(d: Dialect, ts: seq<Token>, i: nat)
    requires Stream(ts)
    ensures var t := Cur(ts, i);
      IsLiteral(t) ==> PrimaryAt(d, ts, i) == Parsed(Ok(LiteralOf(t)), i + 1)
    ensures var t := Cur(ts, i); var r := PrimaryAt(d, ts, i);
      t.kind in {Plus, Minus} && r.result.Ok? ==>
        (FactorAt(d, ts, i + 1).result.Ok? && r.result.value == UnaryOperation(t, FactorAt(d, ts, i + 1).result.value))
    ensures var t := Cur(ts, i); var r := PrimaryAt(d, ts, i);
      t.kind == LParen && r.result.Ok? ==>
        (ExpressionAt(d, ts, i + 1).result.Ok? && r.result.value == ExpressionAt(d, ts, i + 1).result.value && 0 < r.end && Cur(ts, r.end - 1).kind == RParen)
    ensures var t := Cur(ts, i);
      !IsLiteral(t) && t.kind !in {Plus, Minus, LParen, LBracket, TokenKind.Identifier} ==>
        (PrimaryAt(d, ts, i) == Parsed(Err(FailAt(ts, i, InvalidFactor(t.kind))), i))
  {
  }

  /**
   * An identifier factor not followed by LPAREN is the name: in the vypr dialect with the
   * property accesses that follow it, in the root dialect alone, even before a `.`. Followed
   * by LPAREN it is a call (CallShape), and LBRACKET starts an array literal.
   */
  lemma NamePrimary(d: Dialect, ts: seq<Token>, i: nat)
    requires Stream(ts)
    ensures var t := Cur(ts, i);
      d == Vypr && t.kind == TokenKind.Identifier && Cur(ts, i + 1).kind != LParen ==>
        (PrimaryAt(d, ts, i) == PropertiesFrom(ts, i + 1, Expr.Identifier(TextOf(t.value))))
    ensures var t := Cur(ts, i);
      t.kind == TokenKind.Identifier && Cur(ts, i + 1).kind != LParen && (d == Root || Cur(ts, i + 1).kind != Dot) ==>
        (PrimaryAt(d, ts, i) == Parsed(Ok(Expr.Identifier(TextOf(t.value))), i + 1))
    ensures Cur(ts, i).kind == TokenKind.Identifier && Cur(ts, i + 1).kind == LParen ==>
      PrimaryAt(d, ts, i) == FunctionCallAt(d, ts, i)
    ensures Cur(ts, i).kind == LBracket ==> PrimaryAt(d, ts, i) == ArrayLiteralAt(d, ts, i)
  {
  }



  /**
   * A call is an IDENTIFIER, LPAREN, its arguments and RPAREN, and names the identifier; an
   * array literal is LBRACKET, its elements and RBRACKET.
   */
  lemma CallShape(d: Dialect, ts: seq<Token>, i: nat)
    requires Stream(ts)
    ensures var r := FunctionCallAt(d, ts, i); var items := ItemsAt(d, ts, i + 2, RParen);
      r.result.Ok? ==>
        (Cur(ts, i).kind == TokenKind.Identifier && Cur(ts, i + 1).kind == LParen && items.result.Ok? &&
         r.result.value == FunctionCall(TextOf(Cur(ts, i).value), items.result.value) &&
         r.end == items.end + 1 && Cur(ts, items.end).kind == RParen)
    ensures var r := ArrayLiteralAt(d, ts, i); var items := ItemsAt(d, ts, i + 1, RBracket);
      r.result.Ok? ==>
        (Cur(ts, i).kind == LBracket && items.result.Ok? && r.result.value == ArrayLiteral(items.result.value) &&
         r.end == items.end + 1 && Cur(ts, items.end).kind == RBracket)
  {
  }

  /**
   * The property loop keeps a dotted chain on the same root name and ends where no DOT
   * follows; a DOT followed by anything but an identifier is the "Expected property name"
   * error, reported at that token.
   */
  lemma {:induction false} PropertiesShape(ts: seq<Token>, i: nat, node: Expr, root: string)
    requires Stream(ts) && PropertyChain(node, root)
    ensures var r := PropertiesFrom(ts, i, node);
      r.result.Ok? ==> PropertyChain(r.result.value, root)
    ensures Cur(ts, i).kind == Dot && Cur(ts, i + 1).kind != TokenKind.Identifier ==>
      PropertiesFrom(ts, i, node) == Parsed(Err(FailAt(ts, i + 1, ExpectedPropertyName(Cur(ts, i + 1).kind))), i + 1)
    decreases Rem(ts, i)
  {
    if Cur(ts, i).kind == Dot && Cur(ts, i + 1).kind == TokenKind.Identifier {
      PropertiesShape(ts, i + 2, PropertyAccess(node, TextOf(Cur(ts, i + 1).value)), root);
    }
  }

  /** `x.p.q` reads property q of property p of x. */
  lemma TwoProperties(ts: seq<Token>, i: nat)
    requires Stream(ts) && i + 5 < |ts|
    requires ts[i].kind == TokenKind.Identifier && ts[i + 1].kind == Dot && ts[i + 2].kind == TokenKind.Identifier
    requires ts[i + 3].kind == Dot && ts[i + 4].kind == TokenKind.Identifier && ts[i + 5].kind != Dot
    ensures FactorAt(Vypr, ts, i) == Parsed(Ok(PropertyAccess(PropertyAccess(Expr.Identifier(TextOf(ts[i].value)),
      TextOf(ts[i + 2].value)), TextOf(ts[i + 4].value))), i + 5)
  {
    var x := Expr.Identifier(TextOf(ts[i].value));
    var xp := PropertyAccess(x, TextOf(ts[i + 2].value));
    assert PrimaryAt(Vypr, ts, i) == PropertiesFrom(ts, i + 1, x);
    assert PropertiesFrom(ts, i + 1, x) == PropertiesFrom(ts, i + 3, xp);
    assert PropertiesFrom(ts, i + 3, xp) == PropertiesFrom(ts, i + 5, PropertyAccess(xp, TextOf(ts[i + 4].value)));
  }

  /** `f()` is a call of f with no arguments, and `[]` an empty array literal. */
  lemma EmptyItems(d: Dialect, ts: seq<Token>, i: nat)
    requires Stream(ts)
    ensures Cur(ts, i).kind == TokenKind.Identifier && Cur(ts, i + 1).kind == LParen && Cur(ts, i + 2).kind == RParen
        ==> FunctionCallAt(d, ts, i) == Parsed(Ok(FunctionCall(TextOf(Cur(ts, i).value), [])), i + 3)
    ensures Cur(ts, i).kind == LBracket && Cur(ts, i + 1).kind == RBracket
        ==> ArrayLiteralAt(d, ts, i) == Parsed(Ok(ArrayLiteral([])), i + 2)
  {
  }

  /** With no closing token first there is at least one item, and the items stop where no COMMA follows. */
  lemma ItemsShape(d: Dialect, ts: seq<Token>, i: nat, close: TokenKind)
    requires Stream(ts)
    ensures var r := ItemsAt(d, ts, i, close);
      Cur(ts, i).kind != close && r.result.Ok? ==>
        (|r.result.value| >= 1 && r.result.value[0] == ExpressionAt(d, ts, i).result.value && Cur(ts, r.end).kind != Comma)
  {
    if Cur(ts, i).kind != close {
      var first := ExpressionAt(d, ts, i);
      if first.result.Ok? {
        ExpressionListShape(d, ts, first.end, [first.result.value]);
      }
    }
  }

  /** The comma loop keeps the items it had and stops only where no COMMA follows. */
  lemma {:induction false} ExpressionListShape(d: Dialect, ts: seq<Token>, i: nat, acc: seq<Expr>)
    requires Stream(ts)
    ensures var r := ExpressionListFrom(d, ts, i, acc);
      r.result.Ok? ==> |acc| <= |r.result.value| && r.result.value[..|acc|] == acc && Cur(ts, r.end).kind != Comma
    decreases Rem(ts, i)
  {
    if Cur(ts, i).kind == Comma {
      var item := ExpressionAt(d, ts, i + 1);
      if item.result.Ok? {
        var next := acc + [item.result.value];
        ExpressionListShape(d, ts, item.end, next);
        var r := ExpressionListFrom(d, ts, item.end, next).result;
        if r.Ok? {
          assert r.value[..|acc|] == r.value[..|next|][..|acc|];
        }
      }
    }
  }
}
