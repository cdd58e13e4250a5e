/**
 * The intermediate representation of ir_generator.py: three-address instructions in
 * per-function lists. Labels and temporaries are kept as their counter values; their
 * textual names are "L<n>" and "t<n>".
 */
module IR {
  import opened Wrappers
  import opened Text

  /**
   * An operand as the generator produces it: a temporary, a variable or function name, or
   * a literal value. A string literal is kept without the quotes `visit_Literal` adds.
   */
  datatype Operand =
    | Temp(n: nat)
    | Var(name: string)
    | Quoted(text: string)
    | IntConst(i: int)
    | FloatConst(lexeme: string)
    | BoolConst(b: bool)
    | NoneConst

  datatype Instr =
    | Label(name: nat)
    | BinaryOp(op: string, dest: Operand, left: Operand, right: Operand)
    | UnaryOp(op: string, dest: Operand, operand: Operand)
    | Assign(dest: Operand, value: Operand)
    | Jump(target: nat)
    | CondJump(condition: Operand, trueLabel: nat, falseLabel: Option<nat>)
    | Call(callee: string, args: seq<Operand>, result: Option<Operand>)
    | Return(returned: Option<Operand>)
    | Print(printed: Operand)
    | Input(variable: string)
      /** `ForLoopStartIR`/`ForLoopEndIR` of src/vypr's generator, which only its code generator reads. */
    | ForLoopStart(variable: string, iterable: Operand)
    | ForLoopEnd

  datatype FunctionIR = FunctionIR(name: string, params: seq<string>, instructions: seq<Instr>)

  /** The exception `generic_visit` raises for a node kind without a lowering. */
  datatype IRError = NoVisitMethod(nodeKind: string)

  function LabelName(l: nat): string { "L" + NatToDecimal(l) }

  function TempName(n: nat): string { "t" + NatToDecimal(n) }

  /** Different labels have different names, so comparing names is comparing labels. */
  lemma LabelNameInjective(a: nat, b: nat)
    requires LabelName(a) == LabelName(b)
    ensures a == b
  {
    assert NatToDecimal(a) == LabelName(a)[1..];
    assert NatToDecimal(b) == LabelName(b)[1..];
    DecimalInjective(a, b);
  }

  /** str() of an operand as it lands in the generated Python text. */
  function OperandText(o: Operand): (s: string)
    ensures o.Temp? ==> s == TempName(o.n)
    ensures o.Quoted? ==> |s| == |o.text| + 2 && s[0] == '"' && s[|s| - 1] == '"'
  {
    match o
    case Temp(n) => TempName(n)
    case Var(name) => name
    case Quoted(text) => "\"" + text + "\""
    case IntConst(i) => IntToString(i)
    case FloatConst(lexeme) => lexeme
    case BoolConst(b) => if b then "True" else "False"
    case NoneConst => "None"
  }

  /** Python truthiness of an operand value: empty names, zero, False and None are false. */
  predicate Truthy(o: Operand)
  {
    match o
    case Temp(_) => true
    case Var(name) => name != ""
    case Quoted(_) => true
    case IntConst(i) => i != 0
    case FloatConst(lexeme) => exists k :: 0 <= k < |lexeme| && '1' <= lexeme[k] <= '9'
    case BoolConst(b) => b
    case NoneConst => false
  }

  /** The labels a jump instruction may transfer control to. */
  predicate TargetsIn(ins: Instr, code: seq<Instr>)
  {
    match ins
    case Jump(t) => Label(t) in code
    case CondJump(_, t, f) => Label(t) in code && (f.Some? ==> Label(f.value) in code)
    case _ => true
  }

  /** Every jump in `code` targets a label defined in `code`. */
  predicate Closed(code: seq<Instr>)
  {
    forall x :: x in code ==> TargetsIn(x, code)
  }

  /** No label is defined twice in `code`. */
  predicate UniqueLabels(code: seq<Instr>)
  {
    forall i, j :: 0 <= i < j < |code| && code[i].Label? ==> code[j] != code[i]
  }

  /** No jump and no label: straight-line code. */
  predicate Straight(code: seq<Instr>)
  {
    forall x :: x in code ==> !x.Label? && !x.Jump? && !x.CondJump?
  }

  /** A function body as the generator completes it: closed, and ending in a return. */
  predicate Complete(code: seq<Instr>)
  {
    Closed(code) && |code| > 0 && code[|code| - 1].Return?
  }

  lemma TargetsInGrow(ins: Instr, code: seq<Instr>, more: seq<Instr>)
    requires TargetsIn(ins, code) && forall x :: x in code ==> x in more
    ensures TargetsIn(ins, more)
  {
  }

  /** Gluing two closed pieces gives closed code. */
  lemma ClosedConcat(a: seq<Instr>, b: seq<Instr>)
    requires Closed(a) && Closed(b)
    ensures Closed(a + b)
  {
    forall x | x in a + b ensures TargetsIn(x, a + b) {
      if x in a {
        TargetsInGrow(x, a, a + b);
      } else {
        TargetsInGrow(x, b, a + b);
      }
    }
  }

  lemma StraightIsClosed(code: seq<Instr>)
    requires Straight(code)
    ensures Closed(code)
  {
  }

  /** Appending a label not yet defined keeps labels unique. */
  lemma {:induction false} UniqueLabelsAppend(code: seq<Instr>, ins: Instr)
    requires UniqueLabels(code) && (ins.Label? ==> ins !in code)
    ensures UniqueLabels(code + [ins])
  {
    var c := code + [ins];
    forall i, j | 0 <= i < j < |c| && c[i].Label? ensures c[j] != c[i] {
      if j < |code| {
        assert c[i] == code[i] && c[j] == code[j];
      } else if ins.Label? {
        assert c[i] == code[i];
      }
    }
  }
}
