/**
 * The token-type enum the older parser reads its kinds from. parser.py takes `TokenType` from
 * lexer.py (parser.py:1), whose members (lexer.py:4-48) lack the CONCAT, DOT, LBRACKET and
 * RBRACKET that src/vypr/lexer.py:5-54 defines, and reading a member a Python enum does not
 * have raises AttributeError. The rest of the model reads both parsers against the Vypr enum;
 * this module shows what the two tests that name a missing member do as written.
 */
module RootTokenTypes {
  import opened Wrappers
  import opened Tokens
  import opened ParserBase
  import opened ExprGrammar
  import opened Chains
  import ExprGrammarFacts

  /** Which module's `TokenType` the older parser reads its members from. */
  datatype Enum = LexerEnum | VyprEnum

  /** The members only src/vypr/lexer.py's enum defines. */
  const VyprOnly: set<TokenKind> := {Concat, Dot, LBracket, RBracket}

  /** `TokenType.K`: the kind, or the AttributeError naming the missing member. */
  function Member(e: Enum, k: TokenKind): (r: Result<TokenKind, TokenKind>)
    ensures r.Err? <==> e == LexerEnum && k in VyprOnly
    ensures r.Ok? ==> r.value == k
    ensures r.Err? ==> r.error == k
  {
    if e == LexerEnum && k in VyprOnly then Err(k) else Ok(k)
  }

  /** A tuple of members, built left to right: the first missing member raises. */
  function Members(e: Enum, ks: seq<TokenKind>): (r: Result<set<TokenKind>, TokenKind>)
    ensures r.Ok? <==> forall i :: 0 <= i < |ks| ==> Member(e, ks[i]).Ok?
    ensures r.Ok? ==> r.value == set i | 0 <= i < |ks| :: ks[i]
    ensures r.Err? ==> r.error in ks && Member(e, r.error).Err?
  {
    if ks == [] then Ok({})
    else
      var first :- Member(e, ks[0]);
      var rest :- Members(e, ks[1..]);
      assert forall i :: 1 <= i < |ks| ==> ks[i] == ks[1..][i - 1];
      Ok({first} + rest)
  }

  /**
   * The condition of the `while` in `arithmetic_expression` (parser.py:488), evaluated after
   * every term: the tuple (PLUS, MINUS, CONCAT) is built first, then the current kind k is
   * looked up in it.
   */
  function ArithmeticTest(e: Enum, k: TokenKind): Result<bool, TokenKind>
  {
    var ops :- Members(e, [Plus, Minus, Concat]);
    Ok(k in ops)
  }

  /**
   * As written the condition raises AttributeError on CONCAT whatever the current token is,
   * so no arithmetic level, and with it no expression, ever completes.
   */
  lemma ArithmeticTestAsWritten(k: TokenKind)
    ensures ArithmeticTest(LexerEnum, k) == Err(Concat)
  {
    assert Member(LexerEnum, Concat).Err?;
  }

  /**
   * Against the Vypr enum the condition is membership in the operators the arithmetic level
   * folds over, and a chain of them parses as their left fold.
   */
  lemma ArithmeticTestCorrected(ts: seq<Token>, i: nat, n: nat)
    requires Stream(ts)
    ensures forall k :: ArithmeticTest(VyprEnum, k) == Ok(k in ArithmeticOps)
    ensures Chain(ts, i, n, ArithmeticOps) && Cur(ts, i + 2 * n + 1).kind !in ArithmeticOps + TermOps ==>
      ArithmeticAt(Root, ts, i) == Parsed(Ok(ChainFold(LiteralOf(ts[i]), ts, i, n)), i + 2 * n + 1)
  {
    forall k ensures ArithmeticTest(VyprEnum, k) == Ok(k in ArithmeticOps) {
      assert Members(VyprEnum, [Plus, Minus, Concat]).value == {Plus, Minus, Concat};
    }
    if Chain(ts, i, n, ArithmeticOps) && Cur(ts, i + 2 * n + 1).kind !in ArithmeticOps + TermOps {
      ExprGrammarFacts.ArithmeticChain(Root, ts, i, n);
    }
  }

  /** The branch `factor`'s elif chain (parser.py:528-569) takes. */
  datatype FactorBranch = SignBranch | LiteralBranch | ParenBranch | ArrayBranch | NameBranch | InvalidBranch

  /**
   * The elif chain of `factor`, tested in order: the sign, literal and parenthesis tests come
   * first, and every later test has to read `TokenType.LBRACKET` (parser.py:558).
   */
  function FactorTest(e: Enum, k: TokenKind): Result<FactorBranch, TokenKind>
  {
    if k in {Plus, Minus} then Ok(SignBranch)
    else if k in {Integer, Float, String, Boolean} then Ok(LiteralBranch)
    else if k == LParen then Ok(ParenBranch)
    else
      var bracket :- Member(e, LBracket);
      if k == bracket then Ok(ArrayBranch)
      else if k == TokenKind.Identifier then Ok(NameBranch)
      else Ok(InvalidBranch)
  }

  /**
   * As written, every factor that is not a sign, a literal or a parenthesis raises
   * AttributeError on LBRACKET: an identifier is never read as a name or a call.
   */
  lemma FactorTestAsWritten(k: TokenKind)
    ensures FactorTest(LexerEnum, k).Err? <==> k !in {Plus, Minus, Integer, Float, String, Boolean, LParen}
    ensures FactorTest(LexerEnum, TokenKind.Identifier) == Err(LBracket)
  {
  }

  /**
   * Against the Vypr enum no test raises: identifiers take the name branch, `[` the array
   * branch, and a kind no branch takes is the invalid-factor error the model raises.
   */
  lemma FactorTestCorrected(ts: seq<Token>, i: nat)
    requires Stream(ts)
    ensures var k := Cur(ts, i).kind; FactorTest(VyprEnum, k).Ok?
    ensures var k := Cur(ts, i).kind; FactorTest(VyprEnum, k) == Ok(NameBranch) <==> k == TokenKind.Identifier
    ensures var k := Cur(ts, i).kind; FactorTest(VyprEnum, k) == Ok(ArrayBranch) <==> k == LBracket
    ensures var k := Cur(ts, i).kind;
      FactorTest(VyprEnum, k) == Ok(InvalidBranch) ==> PrimaryAt(Root, ts, i) == Parsed(Err(FailAt(ts, i, InvalidFactor(k))), i)
  {
    ExprGrammarFacts.PrimaryCases(Root, ts, i);
  }
}
