/**
 * code_generator.py: Python text from the IR. Every function becomes a `def` whose body
 * is rendered by walking the instructions with an index `i`; a jump does not produce a
 * Python control structure but moves `i` to the position recorded for its label, as a
 * simulated goto. A jump backwards therefore makes the walk go round for ever, so the walk
 * is given `fuel`, a bound on its iterations, and reports whether it finished.
 */
module RootCodegen {
  import opened Wrappers
  import opened Text
  import opened IR
  import opened Render

  // ---- the label table ----

  /** Number of non-label instructions in `code`. */
  function NonLabels(code: seq<Instr>): (n: nat)
    ensures n <= |code|
  {
    if |code| == 0 then 0 else NonLabels(code[..|code| - 1]) + (if code[|code| - 1].Label? then 0 else 1)
  }

  /**
   * `labels`: for every label, the number of non-label instructions before its last
   * definition. The walk uses this count as an index into the instruction list.
   */
  function LabelCounts(code: seq<Instr>): map<nat, nat>
  {
    if |code| == 0 then map[]
    else
      var m := LabelCounts(code[..|code| - 1]);
      var x := code[|code| - 1];
      if x.Label? then m[x.name := NonLabels(code[..|code| - 1])] else m
  }

  /** The table has an entry exactly for the labels the code defines. */
  lemma {:induction false} LabelCountsKeys(code: seq<Instr>)
    ensures forall l :: l in LabelCounts(code) <==> Label(l) in code
  {
    if |code| > 0 {
      var p := code[..|code| - 1];
      LabelCountsKeys(p);
      assert code == p + [code[|code| - 1]];
    }
  }

  /** A label defined once at position k counts the non-labels before k. */
  lemma {:induction false} LabelCountsValue(code: seq<Instr>, k: nat)
    requires k < |code| && code[k].Label?
    requires forall j :: k < j < |code| ==> code[j] != code[k]
    ensures code[k].name in LabelCounts(code) && LabelCounts(code)[code[k].name] == NonLabels(code[..k])
    decreases |code|
  {
    var p := code[..|code| - 1];
    if k < |code| - 1 {
      assert p[k] == code[k];
      LabelCountsValue(p, k);
      assert p[..k] == code[..k];
    }
  }

  /** The loop that fills `labels`. */
  method CountLabels(code: seq<Instr>) returns (labels: map<nat, nat>)
    ensures labels == LabelCounts(code)
  {
    labels := map[];
    var n := 0;
    var k := 0;
    while k < |code|
      invariant 0 <= k <= |code|
      invariant labels == LabelCounts(code[..k]) && n == NonLabels(code[..k])
    {
      assert code[..k + 1][..k] == code[..k];
      if code[k].Label? {
        labels := labels[code[k].name := n];
      } else {
        n := n + 1;
      }
      k := k + 1;
    }
    assert code[..k] == code;
  }

  // ---- the walk ----

  datatype StepOut = StepOut(lines: seq<string>, next: nat)

  /**
   * One iteration of the walk at position i: the lines written and the next position.
   * A target found in `labels` replaces `i` (the code sets `i = index - 1` and adds one).
   */
  function Step(code: seq<Instr>, labels: map<nat, nat>, i: nat): StepOut
    requires i < |code|
  {
    var ind := Indent(1);
    match code[i]
    case Label(_) => StepOut([], i + 1)
    case Jump(l) => StepOut([ind + "# Jump to " + LabelName(l)], if l in labels then labels[l] else i + 1)
    case CondJump(c, t, f) =>
      var thenPart := [ind + "if " + OperandText(c) + ":"] + (if t in labels then [ind + "    # Jump to " + LabelName(t)] else []);
      var elsePart :=
        if f.Some? then [ind + "else:"] + (if f.value in labels then [ind + "    # Jump to " + LabelName(f.value)] else [])
        else [];
      var next :=
        if f.Some? && f.value in labels then labels[f.value]
        else if t in labels then labels[t]
        else i + 1;
      StepOut(thenPart + elsePart, next)
    case ForLoopStart(_, _) => StepOut([], i + 1)
    case ForLoopEnd => StepOut([], i + 1)
    case _ => StepOut([ind + SimpleLine(code[i]).value], i + 1)
  }

  /** The outcome of a bounded walk: the lines written, and whether the walk reached the end. */
  datatype Run = Run(lines: seq<string>, finished: bool)

  /** The walk from position i with at most `fuel` iterations. */
  function RunFrom(code: seq<Instr>, labels: map<nat, nat>, i: nat, fuel: nat): Run
    decreases fuel
  {
    if i >= |code| then Run([], true)
    else if fuel == 0 then Run([], false)
    else
      var s := Step(code, labels, i);
      var rest := RunFrom(code, labels, s.next, fuel - 1);
      Run(s.lines + rest.lines, rest.finished)
  }

  /** Fuel only bounds the walk: once a walk finishes, more fuel gives the same lines. */
  lemma {:induction false} RunFromFuelMonotone(code: seq<Instr>, labels: map<nat, nat>, i: nat, fuel: nat, more: nat)
    requires RunFrom(code, labels, i, fuel).finished && fuel <= more
    ensures RunFrom(code, labels, i, more) == RunFrom(code, labels, i, fuel)
    decreases fuel
  {
    if i < |code| {
      RunFromFuelMonotone(code, labels, Step(code, labels, i).next, fuel - 1, more - 1);
    }
  }

  /**
   * On code without labels, jumps or loop markers the walk writes one line per
   * instruction in order, indented once, and it finishes exactly when the fuel covers
   * the remaining instructions.
   */
  lemma {:induction false} RunFromSimple(code: seq<Instr>, labels: map<nat, nat>, i: nat, fuel: nat)
    requires i <= |code| && Simple(code[i..])
    ensures RunFrom(code, labels, i, fuel).finished <==> fuel >= |code| - i
    ensures fuel >= |code| - i ==> RunFrom(code, labels, i, fuel).lines == SimpleLines(code[i..], 1)
    decreases fuel
  {
    if i < |code| && fuel > 0 {
      assert code[i] == code[i..][0] && code[i..][0] in code[i..];
      assert code[i + 1..] == code[i..][1..];
      assert Simple(code[i + 1..]);
      RunFromSimple(code, labels, i + 1, fuel - 1);
    }
  }

  /** The loop `while x: pass` as the IR generator lowers it, with `x` the literal True. */
  function WhileTrue(): seq<Instr>
  {
    [Label(0), CondJump(BoolConst(true), 0, Some(1)), Jump(0), Label(1)]
  }

  /** The walk never finishes on a loop: the jump back restarts it at the loop's label. */
  lemma {:induction false} WhileTrueNeverFinishes(fuel: nat)
    ensures !RunFrom(WhileTrue(), LabelCounts(WhileTrue()), 0, fuel).finished
  {
    var w := WhileTrue();
    var labels := LabelCounts(w);
    assert w[..1][..0] == [] && w[..2][..1] == w[..1] && w[..3][..2] == w[..2];
    assert NonLabels(w[..2]) == 1;
    assert LabelCounts(w[..1]) == map[0 := 0];
    assert LabelCounts(w[..2]) == map[0 := 0];
    assert LabelCounts(w[..3]) == map[0 := 0] && NonLabels(w[..3]) == 2;
    assert w[..4] == w;
    assert labels == map[0 := 0, 1 := 2];
    WhileTrueCycle(fuel);
  }

  lemma {:induction false} WhileTrueCycle(fuel: nat)
    ensures forall i :: 0 <= i <= 2 ==> !RunFrom(WhileTrue(), map[0 := 0, 1 := 2], i, fuel).finished
    decreases fuel
  {
    if fuel > 0 {
      WhileTrueCycle(fuel - 1);
      var w, labels := WhileTrue(), map[0 := 0, 1 := 2];
      assert Step(w, labels, 0).next == 1;
      assert Step(w, labels, 1).next == 2;
      assert Step(w, labels, 2).next == 0;
    }
  }

  /** The walk so far wrote `done`, and the rest of it, from `i` with `left` iterations, completes `whole`. */
  predicate Walked(code: seq<Instr>, labels: map<nat, nat>, whole: Run, done: seq<string>, i: nat, left: nat)
  {
    var rest := RunFrom(code, labels, i, left);
    whole == Run(done + rest.lines, rest.finished)
  }

  /** One iteration of the walk keeps the invariant of the loop that performs it. */
  lemma WalkStep(code: seq<Instr>, labels: map<nat, nat>, whole: Run, done: seq<string>, i: nat, left: nat)
    requires i < |code| && left > 0 && Walked(code, labels, whole, done, i, left)
    ensures
      var s := Step(code, labels, i);
      Walked(code, labels, whole, done + s.lines, s.next, left - 1)
  {
    var s := Step(code, labels, i);
    var rest := RunFrom(code, labels, s.next, left - 1);
    assert done + (s.lines + rest.lines) == (done + s.lines) + rest.lines;
  }

  /** When the loop stops, the lines written are the whole walk. */
  lemma WalkEnd(code: seq<Instr>, labels: map<nat, nat>, whole: Run, done: seq<string>, i: nat, left: nat)
    requires !(i < |code| && left > 0) && Walked(code, labels, whole, done, i, left)
    ensures whole == Run(done, i >= |code|)
  {
    assert done + [] == done;
  }

  // ---- functions and the program ----

  /** `generate_function`: the header, then `pass` for an empty body, otherwise the walk from 0. */
  function FunctionLines(f: FunctionIR, fuel: nat): Run
  {
    if |f.instructions| == 0 then Run([Header(f), "    pass"], true)
    else
      var r := RunFrom(f.instructions, LabelCounts(f.instructions), 0, fuel);
      Run([Header(f)] + r.lines, r.finished)
  }

  /** A function of simple instructions is its header and one line per instruction, given fuel for each. */
  lemma FunctionLinesSimple(f: FunctionIR, fuel: nat)
    requires |f.instructions| > 0 && Simple(f.instructions) && fuel >= |f.instructions|
    ensures FunctionLines(f, fuel) == Run([Header(f)] + SimpleLines(f.instructions, 1), true)
  {
    assert f.instructions[0..] == f.instructions;
    RunFromSimple(f.instructions, LabelCounts(f.instructions), 0, fuel);
  }

  /** The functions in order; a walk that does not finish ends the output there. */
  function FunctionsLines(fs: seq<FunctionIR>, fuel: nat): Run
  {
    if |fs| == 0 then Run([], true)
    else
      var p := FunctionsLines(fs[..|fs| - 1], fuel);
      if !p.finished then p
      else
        var r := FunctionLines(fs[|fs| - 1], fuel);
        Run(p.lines + r.lines, r.finished)
  }

  /** Extending a finished prefix by one function appends that function's lines. */
  lemma FunctionsLinesSnoc(fs: seq<FunctionIR>, k: nat, fuel: nat)
    requires k < |fs| && FunctionsLines(fs[..k], fuel).finished
    ensures FunctionsLines(fs[..k + 1], fuel)
         == Run(FunctionsLines(fs[..k], fuel).lines + FunctionLines(fs[k], fuel).lines, FunctionLines(fs[k], fuel).finished)
  {
    assert fs[..k + 1][..k] == fs[..k];
  }

  /** Once a function's walk does not finish, no later function changes the outcome. */
  lemma {:induction false} FunctionsLinesStuck(fs: seq<FunctionIR>, k: nat, fuel: nat)
    requires k <= |fs| && !FunctionsLines(fs[..k], fuel).finished
    ensures FunctionsLines(fs, fuel) == FunctionsLines(fs[..k], fuel)
    decreases |fs|
  {
    if k < |fs| {
      assert fs[..|fs| - 1][..k] == fs[..k];
      FunctionsLinesStuck(fs[..|fs| - 1], k, fuel);
    } else {
      assert fs[..k] == fs;
    }
  }

  predicate HasMain(fs: seq<FunctionIR>)
  {
    exists i :: 0 <= i < |fs| && fs[i].name == "main"
  }

  /** `generate_python_code`: the header comment, a blank line, every function, and the `main()` guard when a `main` exists. */
  function ProgramLines(fs: seq<FunctionIR>, fuel: nat): Run
  {
    var body := FunctionsLines(fs, fuel);
    var guard := if body.finished && HasMain(fs) then ["", "if __name__ == '__main__':", "    main()"] else [];
    Run(["# Generated Python code", ""] + body.lines + guard, body.finished)
  }

  /** A program of functions with simple bodies renders every function in full, each given fuel for its length. */
  lemma {:induction false} FunctionsLinesSimple(fs: seq<FunctionIR>, fuel: nat)
    requires forall i :: 0 <= i < |fs| ==> |fs[i].instructions| > 0 && Simple(fs[i].instructions) && fuel >= |fs[i].instructions|
    ensures FunctionsLines(fs, fuel).finished
    ensures |FunctionsLines(fs, fuel).lines| == Sum(fs)
  {
    if |fs| > 0 {
      FunctionsLinesSimple(fs[..|fs| - 1], fuel);
      FunctionLinesSimple(fs[|fs| - 1], fuel);
    }
  }

  /** Lines a simple function renders to: its header and one line per instruction. */
  function Sum(fs: seq<FunctionIR>): nat
  {
    if |fs| == 0 then 0 else Sum(fs[..|fs| - 1]) + 1 + |fs[|fs| - 1].instructions|
  }

  // ---- the generator object ----

  class CodeGenerator {
    /** `self.ir_functions`: the table's functions in insertion order; each is keyed by its own name. */
    const functions: seq<FunctionIR>
    var output: seq<string>

    constructor (functions: seq<FunctionIR>)
      ensures this.functions == functions && output == []
    {
      this.functions := functions;
      output := [];
    }

    /** One iteration of the walk, appending its lines to the output. */
    method EmitStep(code: seq<Instr>, labels: map<nat, nat>, i: nat) returns (next: nat)
      requires i < |code|
      modifies this
      ensures output == old(output) + Step(code, labels, i).lines && next == Step(code, labels, i).next
    {
      var indent := Indent(1);
      match code[i]
      case Label(_) =>
        next := i + 1;
      case Jump(l) =>
        output := output + [indent + "# Jump to " + LabelName(l)];
        next := if l in labels then labels[l] else i + 1;
      case CondJump(c, t, f) =>
        output := output + [indent + "if " + OperandText(c) + ":"];
        next := i + 1;
        if t in labels {
          output := output + [indent + "    # Jump to " + LabelName(t)];
          next := labels[t];
        }
        if f.Some? {
          output := output + [indent + "else:"];
          if f.value in labels {
            output := output + [indent + "    # Jump to " + LabelName(f.value)];
            next := labels[f.value];
          }
        }
      case ForLoopStart(_, _) =>
        next := i + 1;
      case ForLoopEnd =>
        next := i + 1;
      case _ =>
        output := output + [indent + SimpleLine(code[i]).value];
        next := i + 1;
    }

    /** The walk loop of `generate_function` from position 0, bounded by `fuel` iterations. */
    method Walk(code: seq<Instr>, labels: map<nat, nat>, fuel: nat) returns (finished: bool)
      modifies this
      ensures output == old(output) + RunFrom(code, labels, 0, fuel).lines && finished == RunFrom(code, labels, 0, fuel).finished
    {
      var i: nat := 0;
      var left := fuel;
      ghost var whole := RunFrom(code, labels, 0, fuel);
      ghost var start := output;
      ghost var done: seq<string> := [];
      assert done + whole.lines == whole.lines;
      while i < |code| && left > 0
        invariant output == start + done
        invariant Walked(code, labels, whole, done, i, left)
        decreases left
      {
        ghost var s := Step(code, labels, i);
        WalkStep(code, labels, whole, done, i, left);
        i := EmitStep(code, labels, i);
        done, left := done + s.lines, left - 1;
      }
      WalkEnd(code, labels, whole, done, i, left);
      finished := i >= |code|;
    }

    /** `generate_function`, with the walk bounded by `fuel` iterations. */
    method GenerateFunction(f: FunctionIR, fuel: nat) returns (finished: bool)
      modifies this
      ensures output == old(output) + FunctionLines(f, fuel).lines && finished == FunctionLines(f, fuel).finished
    {
      output := output + [Header(f)];
      if |f.instructions| == 0 {
        output := output + ["    pass"];
        return true;
      }
      var labels := CountLabels(f.instructions);
      finished := Walk(f.instructions, labels, fuel);
      AppendAssoc(old(output), [Header(f)], RunFrom(f.instructions, labels, 0, fuel).lines);
    }

    /** The loop of `generate_python_code` over the functions, stopping where a walk does not finish. */
    method GenerateFunctions(fuel: nat) returns (finished: bool)
      modifies this
      ensures output == old(output) + FunctionsLines(functions, fuel).lines && finished == FunctionsLines(functions, fuel).finished
    {
      var fs := functions;
      var k := 0;
      ghost var start := output;
      while k < |fs|
        invariant 0 <= k <= |fs|
        invariant FunctionsLines(fs[..k], fuel).finished
        invariant output == start + FunctionsLines(fs[..k], fuel).lines
      {
        ghost var done := FunctionsLines(fs[..k], fuel).lines;
        FunctionsLinesSnoc(fs, k, fuel);
        var ok := GenerateFunction(fs[k], fuel);
        AppendAssoc(start, done, FunctionLines(fs[k], fuel).lines);
        if !ok {
          FunctionsLinesStuck(fs, k + 1, fuel);
          return false;
        }
        k := k + 1;
      }
      assert fs[..k] == fs;
      return true;
    }

    /** `generate_python_code`: the program's lines, joined with newlines when every walk finished. */
    method GeneratePythonCode(fuel: nat) returns (text: Option<string>)
      modifies this
      ensures output == old(output) + ProgramLines(functions, fuel).lines
      ensures text.Some? <==> ProgramLines(functions, fuel).finished
      ensures text.Some? ==> text.value == Join(output, "\n")
    {
      output := output + ["# Generated Python code", ""];
      var finished := GenerateFunctions(fuel);
      if !finished {
        return None;
      }
      if exists i :: 0 <= i < |functions| && functions[i].name == "main" {
        output := output + ["", "if __name__ == '__main__':", "    main()"];
      }
      text := Some(Join(output, "\n"));
    }
  }
}
