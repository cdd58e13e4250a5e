/**
 * Tokens produced by the lexers. The kinds are those of src/vypr/lexer.py, a superset of
 * the root lexer's kinds (it adds CONCAT, DOT, LBRACKET and RBRACKET); both parsers use it.
 */
module Tokens {
  import opened Wrappers

  datatype TokenKind =
    // keywords
    | Var | If | Else | Loop | While | Times | In | Func | Return | Print | Input
    // literals
    | Integer | Float | String | Boolean | Identifier
    // operators
    | Plus | Minus | Multiply | Divide | Concat | Assign
    | Equal | NotEqual | LessThan | GreaterThan | LessEqual | GreaterEqual
    // punctuation
    | LParen | RParen | Comma | Colon | Dot
    // layout
    | Newline | Indent | Dedent | Eof
    // arrays
    | LBracket | RBracket

  /**
   * The Python value a token carries: None, a text, an int (INTEGER literals and INDENT
   * widths), a float (kept as its digit lexeme) or a bool.
   */
  datatype TokenValue =
    | NoValue
    | TextValue(text: string)
    | IntValue(n: int)
    | FloatValue(lexeme: string)
    | BoolValue(b: bool)

  datatype Token = Token(kind: TokenKind, value: TokenValue, line: int, column: int)

  /** The keyword table of both lexers; `true` and `false` are BOOLEAN tokens. */
  function KeywordKind(word: string): (k: Option<TokenKind>)
    ensures k.Some? ==> k.value in {Var, If, Else, Loop, While, Times, In, Func, Return, Print, Input, Boolean}
  {
    match word
    case "var" => Some(Var)
    case "if" => Some(If)
    case "else" => Some(Else)
    case "loop" => Some(Loop)
    case "while" => Some(While)
    case "times" => Some(Times)
    case "in" => Some(In)
    case "func" => Some(Func)
    case "return" => Some(Return)
    case "print" => Some(Print)
    case "input" => Some(Input)
    case "true" => Some(Boolean)
    case "false" => Some(Boolean)
    case _ => None
  }

  /** str(TokenType.X), the text Python gives an enum member. */
  function KindName(k: TokenKind): string
  {
    "TokenType." + match k
      case Var => "VAR" case If => "IF" case Else => "ELSE" case Loop => "LOOP"
      case While => "WHILE" case Times => "TIMES" case In => "IN" case Func => "FUNC"
      case Return => "RETURN" case Print => "PRINT" case Input => "INPUT"
      case Integer => "INTEGER" case Float => "FLOAT" case String => "STRING"
      case Boolean => "BOOLEAN" case Identifier => "IDENTIFIER"
      case Plus => "PLUS" case Minus => "MINUS" case Multiply => "MULTIPLY"
      case Divide => "DIVIDE" case Concat => "CONCAT" case Assign => "ASSIGN"
      case Equal => "EQUAL" case NotEqual => "NOT_EQUAL" case LessThan => "LESS_THAN"
      case GreaterThan => "GREATER_THAN" case LessEqual => "LESS_EQUAL"
      case GreaterEqual => "GREATER_EQUAL" case LParen => "LPAREN" case RParen => "RPAREN"
      case Comma => "COMMA" case Colon => "COLON" case Dot => "DOT"
      case Newline => "NEWLINE" case Indent => "INDENT" case Dedent => "DEDENT"
      case Eof => "EOF" case LBracket => "LBRACKET" case RBracket => "RBRACKET"
  }

  /** Number of tokens of kind k in ts. */
  function Count(ts: seq<Token>, k: TokenKind): nat
  {
    if |ts| == 0 then 0 else Count(ts[..|ts| - 1], k) + (if ts[|ts| - 1].kind == k then 1 else 0)
  }

  lemma {:induction false} CountAppend(ts: seq<Token>, us: seq<Token>, k: TokenKind)
    ensures Count(ts + us, k) == Count(ts, k) + Count(us, k)
  {
    if |us| == 0 {
      assert ts + us == ts;
    } else {
      assert (ts + us)[..|ts + us| - 1] == ts + us[..|us| - 1];
      CountAppend(ts, us[..|us| - 1], k);
    }
  }

  lemma CountPush(ts: seq<Token>, t: Token)
    ensures forall k :: Count(ts + [t], k) == Count(ts, k) + (if t.kind == k then 1 else 0)
  {
    assert (ts + [t])[..|ts|] == ts;
  }

  /** No EOF token anywhere in `ts`. */
  predicate NoEof(ts: seq<Token>)
  {
    forall i :: 0 <= i < |ts| ==> ts[i].kind != Eof
  }

  /** Appending a non-EOF token keeps a stream EOF-free; appending EOF closes it. */
  lemma NoEofPush(ts: seq<Token>, t: Token)
    requires NoEof(ts)
    ensures t.kind != Eof ==> NoEof(ts + [t])
    ensures t.kind == Eof ==> EndsWithSingleEof(ts + [t])
  {
    assert forall i :: 0 <= i < |ts| ==> (ts + [t])[i] == ts[i];
  }

  /** A token stream as the parsers need it: non-empty, EOF last and nowhere else. */
  predicate EndsWithSingleEof(ts: seq<Token>)
  {
    |ts| > 0 && ts[|ts| - 1].kind == Eof && forall i :: 0 <= i < |ts| - 1 ==> ts[i].kind != Eof
  }
}
