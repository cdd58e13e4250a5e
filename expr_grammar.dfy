/**
 * The expression grammar both parsers write, parser.py and src/vypr/parser.py alike, one
 * function per production: what it returns from a position of the token list and where it
 * leaves the cursor, an error included. The two differ in one place, given by the dialect:
 * only the vypr factor reads `.property` accesses after a name. The expression methods of
 * RootParser and VyprParser are proved to compute these for their dialect.
 *
 * The second component of each `decreases` ranks productions that call each other without
 * consuming a token in between.
 */
module ExprGrammar {
  import opened Wrappers
  import opened Tokens
  import opened Ast
  import opened ParserBase

  /** Which of the two parsers: parser.py (Root) or src/vypr/parser.py (Vypr). */
  datatype Dialect = Root | Vypr

  /** `expression` and `logical_expression` pass straight down to comparisons. */
  function ExpressionAt(d: Dialect, ts: seq<Token>, i: nat): (r: Parsed<Expr>)
    requires Stream(ts)
    ensures i <= r.end && (r.result.Ok? ==> Rem(ts, r.end) < Rem(ts, i))
    decreases Rem(ts, i), 10
  {
    LogicalAt(d, ts, i)
  }

  function LogicalAt(d: Dialect, ts: seq<Token>, i: nat): (r: Parsed<Expr>)
    requires Stream(ts)
    ensures i <= r.end && (r.result.Ok? ==> Rem(ts, r.end) < Rem(ts, i))
    decreases Rem(ts, i), 9
  {
    ComparisonAt(d, ts, i)
  }

  function ComparisonAt(d: Dialect, ts: seq<Token>, i: nat): (r: Parsed<Expr>)
    requires Stream(ts)
    ensures i <= r.end && (r.result.Ok? ==> Rem(ts, r.end) < Rem(ts, i))
    decreases Rem(ts, i), 8
  {
    var left :- ArithmeticAt(d, ts, i);
    ComparisonFrom(d, ts, left.next, left.value)
  }

  /** The comparison loop with the tree `node` built so far. */
  function ComparisonFrom(d: Dialect, ts: seq<Token>, i: nat, node: Expr): (r: Parsed<Expr>)
    requires Stream(ts)
    ensures i <= r.end
    ensures r.result.Ok? ==> Cur(ts, r.end).kind !in ComparisonOps
    decreases Rem(ts, i), 8
  {
    if Cur(ts, i).kind in ComparisonOps then
      var right :- ArithmeticAt(d, ts, i + 1);
      ComparisonFrom(d, ts, right.next, BinaryOperation(node, Cur(ts, i), right.value))
    else Parsed(Ok(node), i)
  }

  function ArithmeticAt(d: Dialect, ts: seq<Token>, i: nat): (r: Parsed<Expr>)
    requires Stream(ts)
    ensures i <= r.end && (r.result.Ok? ==> Rem(ts, r.end) < Rem(ts, i))
    decreases Rem(ts, i), 7
  {
    var left :- TermAt(d, ts, i);
    ArithmeticFrom(d, ts, left.next, left.value)
  }

  /** The arithmetic loop with the tree `node` built so far. */
  function ArithmeticFrom(d: Dialect, ts: seq<Token>, i: nat, node: Expr): (r: Parsed<Expr>)
    requires Stream(ts)
    ensures i <= r.end
    ensures r.result.Ok? ==> Cur(ts, r.end).kind !in ArithmeticOps
    decreases Rem(ts, i), 7
  {
    if Cur(ts, i).kind in ArithmeticOps then
      var right :- TermAt(d, ts, i + 1);
      ArithmeticFrom(d, ts, right.next, BinaryOperation(node, Cur(ts, i), right.value))
    else Parsed(Ok(node), i)
  }

  function TermAt(d: Dialect, ts: seq<Token>, i: nat): (r: Parsed<Expr>)
    requires Stream(ts)
    ensures i <= r.end && (r.result.Ok? ==> Rem(ts, r.end) < Rem(ts, i))
    decreases Rem(ts, i), 6
  {
    var left :- FactorAt(d, ts, i);
    TermFrom(d, ts, left.next, left.value)
  }

  /** The term loop with the tree `node` built so far. */
  function TermFrom(d: Dialect, ts: seq<Token>, i: nat, node: Expr): (r: Parsed<Expr>)
    requires Stream(ts)
    ensures i <= r.end
    ensures r.result.Ok? ==> Cur(ts, r.end).kind !in TermOps
    decreases Rem(ts, i), 6
  {
    if Cur(ts, i).kind in TermOps then
      var right :- FactorAt(d, ts, i + 1);
      TermFrom(d, ts, right.next, BinaryOperation(node, Cur(ts, i), right.value))
    else Parsed(Ok(node), i)
  }

  /** `factor`: leading NEWLINEs skipped, then the factor proper. */
  function FactorAt(d: Dialect, ts: seq<Token>, i: nat): (r: Parsed<Expr>)
    requires Stream(ts)
    ensures i <= r.end && (r.result.Ok? ==> Rem(ts, r.end) < Rem(ts, i))
    decreases Rem(ts, i), 5
  {
    PrimaryAt(d, ts, SkipNewlinesAt(ts, i))
  }

  /** The factor proper, chosen by the current kind. */
  function PrimaryAt(d: Dialect, ts: seq<Token>, i: nat): (r: Parsed<Expr>)
    requires Stream(ts)
    ensures i <= r.end && (r.result.Ok? ==> Rem(ts, r.end) < Rem(ts, i))
    decreases Rem(ts, i), 4
  {
    var t := Cur(ts, i);
    match t.kind
    case Plus => SignedAt(d, ts, i)
    case Minus => SignedAt(d, ts, i)
    case Integer => Parsed(Ok(Literal(t.value, "integer")), i + 1)
    case Float => Parsed(Ok(Literal(t.value, "float")), i + 1)
    case String => Parsed(Ok(Literal(t.value, "string")), i + 1)
    case Boolean => Parsed(Ok(Literal(t.value, "boolean")), i + 1)
    case LParen => ParenthesizedAt(d, ts, i)
    case LBracket => ArrayLiteralAt(d, ts, i)
    case Identifier => IdentifierFactorAt(d, ts, i)
    case _ => Parsed(Err(FailAt(ts, i, InvalidFactor(t.kind))), i)
  }

  /** A sign and the factor it applies to. */
  function SignedAt(d: Dialect, ts: seq<Token>, i: nat): (r: Parsed<Expr>)
    requires Stream(ts) && Cur(ts, i).kind in {Plus, Minus}
    ensures i <= r.end && (r.result.Ok? ==> Rem(ts, r.end) < Rem(ts, i))
    decreases Rem(ts, i), 3
  {
    var operand :- FactorAt(d, ts, i + 1);
    Parsed(Ok(UnaryOperation(Cur(ts, i), operand.value)), operand.next)
  }

  /** LPAREN expression RPAREN: the inner expression itself. */
  function ParenthesizedAt(d: Dialect, ts: seq<Token>, i: nat): (r: Parsed<Expr>)
    requires Stream(ts)
    ensures i <= r.end && (r.result.Ok? ==> Rem(ts, r.end) < Rem(ts, i))
    decreases Rem(ts, i), 3
  {
    var lparen :- EatAt(ts, i, LParen);
    var inner :- ExpressionAt(d, ts, lparen.next);
    var rparen :- EatAt(ts, inner.next, RParen);
    Parsed(Ok(inner.value), rparen.next)
  }

  /**
   * An identifier: a call when LPAREN follows; otherwise the name, followed in the vypr
   * dialect by its `.property` chain.
   */
  function IdentifierFactorAt(d: Dialect, ts: seq<Token>, i: nat): (r: Parsed<Expr>)
    requires Stream(ts) && Cur(ts, i).kind == TokenKind.Identifier
    ensures i <= r.end && (r.result.Ok? ==> Rem(ts, r.end) < Rem(ts, i))
    decreases Rem(ts, i), 3
  {
    if Cur(ts, i + 1).kind == LParen then FunctionCallAt(d, ts, i)
    else if d == Vypr then PropertiesFrom(ts, i + 1, Expr.Identifier(TextOf(Cur(ts, i).value)))
    else Parsed(Ok(Expr.Identifier(TextOf(Cur(ts, i).value))), i + 1)
  }

  /**
   * The property loop after a name, with the tree `node` built so far: DOT IDENTIFIER wraps
   * it in a property access; a DOT without a name after it is an error at that token.
   */
  function PropertiesFrom(ts: seq<Token>, i: nat, node: Expr): (r: Parsed<Expr>)
    requires Stream(ts)
    ensures i <= r.end
    ensures r.result.Ok? ==> Cur(ts, r.end).kind != Dot
    decreases Rem(ts, i)
  {
    if Cur(ts, i).kind != Dot then Parsed(Ok(node), i)
    else if Cur(ts, i + 1).kind == TokenKind.Identifier then
      PropertiesFrom(ts, i + 2, PropertyAccess(node, TextOf(Cur(ts, i + 1).value)))
    else Parsed(Err(FailAt(ts, i + 1, ExpectedPropertyName(Cur(ts, i + 1).kind))), i + 1)
  }

  /** The items of a call or an array literal: none when `close` comes first, else `expression (COMMA expression)*`. */
  function ItemsAt(d: Dialect, ts: seq<Token>, i: nat, close: TokenKind): (r: Parsed<seq<Expr>>)
    requires Stream(ts)
    ensures i <= r.end
    decreases Rem(ts, i), 12
  {
    if Cur(ts, i).kind == close then Parsed(Ok([]), i)
    else
      var first :- ExpressionAt(d, ts, i);
      ExpressionListFrom(d, ts, first.next, [first.value])
  }

  /** `(COMMA expression)*` after the first item, with the items `acc` parsed so far. */
  function ExpressionListFrom(d: Dialect, ts: seq<Token>, i: nat, acc: seq<Expr>): (r: Parsed<seq<Expr>>)
    requires Stream(ts)
    ensures i <= r.end
    decreases Rem(ts, i), 11
  {
    if Cur(ts, i).kind == Comma then
      var item :- ExpressionAt(d, ts, i + 1);
      ExpressionListFrom(d, ts, item.next, acc + [item.value])
    else Parsed(Ok(acc), i)
  }

  function FunctionCallAt(d: Dialect, ts: seq<Token>, i: nat): (r: Parsed<Expr>)
    requires Stream(ts)
    ensures i <= r.end && (r.result.Ok? ==> Rem(ts, r.end) < Rem(ts, i))
    decreases Rem(ts, i), 2
  {
    var name :- EatAt(ts, i, TokenKind.Identifier);
    var lparen :- EatAt(ts, name.next, LParen);
    var arguments :- ItemsAt(d, ts, lparen.next, RParen);
    var rparen :- EatAt(ts, arguments.next, RParen);
    Parsed(Ok(FunctionCall(TextOf(name.value.value), arguments.value)), rparen.next)
  }

  function ArrayLiteralAt(d: Dialect, ts: seq<Token>, i: nat): (r: Parsed<Expr>)
    requires Stream(ts)
    ensures i <= r.end && (r.result.Ok? ==> Rem(ts, r.end) < Rem(ts, i))
    decreases Rem(ts, i), 2
  {
    var lbracket :- EatAt(ts, i, LBracket);
    var elements :- ItemsAt(d, ts, lbracket.next, RBracket);
    var rbracket :- EatAt(ts, elements.next, RBracket);
    Parsed(Ok(ArrayLiteral(elements.value)), rbracket.next)
  }
}
