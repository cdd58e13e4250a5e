/**
 * The Python text both code generators produce for one IR instruction that is not
 * control flow, and for a function header. An operand is printed with `str()`, as the
 * f-strings in the generators do.
 */
module Render {
  import opened Wrappers
  import opened Text
  import opened IR

  /** `", ".join(map(str, instr.args))` */
  function ArgsText(args: seq<Operand>): string
  {
    Join(seq(|args|, i requires 0 <= i < |args| => OperandText(args[i])), ", ")
  }

  /** `def name(p1, p2):` */
  function Header(f: FunctionIR): string
  {
    "def " + f.name + "(" + Join(f.params, ", ") + "):"
  }

  /**
   * The return line as both generators write it: `if instr.value:` tests the operand's
   * Python truth value, so a falsy value is dropped.
   */
  function ReturnLineAsWritten(v: Option<Operand>): string
  {
    if v.Some? && Truthy(v.value) then "return " + OperandText(v.value) else "return"
  }

  /** The return line as intended: a returned value is written out whenever there is one. */
  function ReturnLine(v: Option<Operand>): string
  {
    if v.Some? then "return " + OperandText(v.value) else "return"
  }

  /** What a Python `return` line hands back, as source text: its expression, or `None` for a bare return. */
  function ReturnedText(line: string): string
  {
    if |line| >= 7 && line[..7] == "return " then line[7..] else "None"
  }

  /** The intended return line hands back exactly the instruction's value (a bare return gives None). */
  lemma ReturnLineKeepsValue(v: Option<Operand>)
    ensures ReturnedText(ReturnLine(v)) == if v.Some? then OperandText(v.value) else "None"
  {
    if v.Some? {
      assert ReturnLine(v)[..7] == "return ";
      assert ReturnLine(v)[7..] == OperandText(v.value);
    }
  }

  /** As written, a falsy value is lost: the line is a bare `return`. */
  lemma ReturnAsWrittenDropsFalsy(v: Operand)
    requires !Truthy(v)
    ensures ReturnLineAsWritten(Some(v)) == "return" && ReturnedText(ReturnLineAsWritten(Some(v))) == "None"
  {
  }

  /** `return 0` in the source program becomes `return`, which hands back None instead of 0. */
  lemma ReturnZeroCounterexample()
    ensures OperandText(IntConst(0)) == "0"
    ensures ReturnedText(ReturnLineAsWritten(Some(IntConst(0)))) == "None"
    ensures ReturnedText(ReturnLine(Some(IntConst(0)))) == "0"
  {
    assert NatToDecimal(0) == "0";
    ReturnLineKeepsValue(Some(IntConst(0)));
  }

  /** The two versions differ only on falsy values. */
  lemma ReturnLinesAgreeOnTruthy(v: Option<Operand>)
    requires v.None? || Truthy(v.value)
    ensures ReturnLineAsWritten(v) == ReturnLine(v)
  {
  }

  /**
   * The line for an instruction that is not control flow (the branches shared by both
   * generators' instruction formatting); None for labels, jumps and loop markers.
   */
  function SimpleLine(ins: Instr): (r: Option<string>)
    ensures r.Some? <==> !(ins.Label? || ins.Jump? || ins.CondJump? || ins.ForLoopStart? || ins.ForLoopEnd?)
    ensures ins.Return? ==> r == Some(ReturnLine(ins.returned))
  {
    match ins
    case BinaryOp(op, dest, left, right) =>
      Some(OperandText(dest) + " = " + OperandText(left) + " " + op + " " + OperandText(right))
    case UnaryOp(op, dest, operand) => Some(OperandText(dest) + " = " + op + OperandText(operand))
    case Assign(dest, value) => Some(OperandText(dest) + " = " + OperandText(value))
    case Call(callee, args, result) =>
      if result.Some? && Truthy(result.value) then Some(OperandText(result.value) + " = " + callee + "(" + ArgsText(args) + ")")
      else Some(callee + "(" + ArgsText(args) + ")")
    case Return(v) => Some(ReturnLine(v))
    case Print(v) => Some("print(" + OperandText(v) + ")")
    case Input(variable) => Some(variable + " = input()")
    case _ => None
  }

  /** Code that both generators render line by line: no labels, jumps or loop markers. */
  predicate Simple(code: seq<Instr>)
  {
    forall x :: x in code ==> SimpleLine(x).Some?
  }

  /** The reference rendering of simple code: one line per instruction at the given level. */
  function SimpleLines(code: seq<Instr>, level: int): (lines: seq<string>)
    requires Simple(code)
    ensures |lines| == |code|
    ensures forall k :: 0 <= k < |code| ==> lines[k] == Indent(level) + SimpleLine(code[k]).value
  {
    if |code| == 0 then []
    else
      assert code[0] in code && forall x :: x in code[1..] ==> x in code;
      [Indent(level) + SimpleLine(code[0]).value] + SimpleLines(code[1..], level)
  }

  lemma SimpleSlice(code: seq<Instr>, i: nat, j: nat)
    requires Simple(code) && i <= j <= |code|
    ensures Simple(code[i..j])
  {
    forall x | x in code[i..j] ensures SimpleLine(x).Some? {
      var k :| 0 <= k < j - i && code[i..j][k] == x;
      assert code[i + k] == x;
    }
  }

  lemma SimpleLinesConcat(a: seq<Instr>, b: seq<Instr>, level: int)
    requires Simple(a) && Simple(b)
    ensures Simple(a + b) && SimpleLines(a + b, level) == SimpleLines(a, level) + SimpleLines(b, level)
  {
  }
}
