/**
 * The `CodeGenerator` object of src/vypr/code_generator.py as it runs: index loops that
 * move `i`/`j` by assignment, a mutable indent level, a `label_positions` dictionary
 * built by a loop, and a `code_lines` list its helpers append to. Every method is proved
 * against the walk functions of `VyprCodegen`. Each loop iteration and each nested call
 * spends one unit of `fuel`; where the program would loop for ever the method runs out
 * and reports failure, exactly when the walk function is `Diverged`.
 */
module VyprGenerator {
  import opened Wrappers
  import opened Text
  import opened IR
  import opened Render
  import opened VyprCodegen

  // ---- the read-only searches ----

  /** The loop building `label_positions`: each label's index, a later definition overwriting an earlier one. */
  method LabelPositions(code: seq<Instr>) returns (pos: map<nat, nat>)
    ensures pos == Positions(code)
  {
    pos := map[];
    for i := 0 to |code|
      invariant pos == Positions(code[..i])
    {
      assert code[..i + 1][..i] == code[..i];
      if code[i].Label? {
        pos := pos[code[i].name := i];
      }
    }
    assert code[..|code|] == code;
  }

  /** `for j in range(false_pos - 1, true_pos, -1)`: the target of the first jump met scanning backwards. */
  method FindEndLabel(code: seq<Instr>, truePos: nat, falsePos: nat) returns (endLabel: Option<nat>)
    requires falsePos <= |code|
    ensures endLabel == LastJump(code, truePos, falsePos)
  {
    var j: nat := falsePos;
    while j > truePos + 1
      invariant j <= falsePos && LastJump(code, truePos, j) == LastJump(code, truePos, falsePos)
    {
      if code[j - 1].Jump? {
        return Some(code[j - 1].target);
      }
      j := j - 1;
    }
    return None;
  }

  /** The scan for the end of an if-only block: the next label other than the true label, or the end of the list. */
  method FindIfOnlyEnd(code: seq<Instr>, truePos: nat, trueLabel: nat) returns (endPos: nat)
    requires truePos < |code|
    ensures endPos == NextOtherLabel(code, truePos + 1, trueLabel)
  {
    endPos := |code|;
    var j := truePos + 1;
    while j < |code|
      invariant truePos + 1 <= j <= |code|
      invariant NextOtherLabel(code, j, trueLabel) == NextOtherLabel(code, truePos + 1, trueLabel)
    {
      if code[j].Label? && code[j].name != trueLabel {
        return j;
      }
      j := j + 1;
    }
  }

  /** `_find_next_instruction_after_nested_if`: one past the end label of an if-else, otherwise the next position. */
  method FindNextInstructionAfterNestedIf(curr: nat, code: seq<Instr>, pos: map<nat, nat>) returns (next: nat)
    requires InRange(code, pos) && curr < |code|
    ensures next == NextAfterNestedIf(code, pos, curr)
  {
    var ins := code[curr];
    if !ins.CondJump? {
      return curr + 1;
    }
    if ins.falseLabel.Some? && ins.trueLabel in pos && ins.falseLabel.value in pos {
      var endLabel := FindEndLabel(code, pos[ins.trueLabel], pos[ins.falseLabel.value]);
      if endLabel.Some? && endLabel.value in pos {
        return pos[endLabel.value] + 1;
      }
    }
    return curr + 1;
  }

  /** The if-else case of `NestedIf` in terms of its two branch walks. */
  lemma NestedIfParts(code: seq<Instr>, pos: map<nat, nat>, ins: Instr, level: int, fuel: nat, rest: nat,
                      tp: nat, fp: nat, e: Option<nat>, tb: Out, eb: Out)
    requires InRange(code, pos) && IsIfElse(ins) && ins.trueLabel in pos && ins.falseLabel.value in pos
    requires fuel > 0 && rest == fuel - 1 && tp == pos[ins.trueLabel] && fp == pos[ins.falseLabel.value]
    requires e == LastJump(code, tp, fp) && tb == NestedBranch(code, pos, tp + 1, fp, e, level + 1, rest)
    requires tb.Done? ==> eb == NestedBranch(code, pos, fp + 1, EndPos(code, pos, e), None, level + 1, rest)
    ensures tb.Diverged? ==> NestedIf(code, pos, ins, level, fuel).Diverged?
    ensures tb.Done? ==>
      NestedIf(code, pos, ins, level, fuel)
      == (if eb.Diverged? then Diverged else Done(IfLine(ins, level) + tb.lines + [Indent(level) + "else:"] + eb.lines, level))
  {
  }

  lemma ConcatAssoc(s: seq<string>, a: seq<string>, b: seq<string>, c: seq<string>, d: seq<string>)
    ensures s + a + b + (c + d) == s + (a + b + c + d)
  {
  }

  /** A branch loop of `_process_nested_if` wrote `done` so far, and its rest from `j` with `left` iterations completes `whole`. */
  predicate BranchWalked(code: seq<Instr>, pos: map<nat, nat>, whole: Out, done: seq<string>, j: nat, stop: nat,
                         e: Option<nat>, level: int, left: nat)
    requires InRange(code, pos) && stop <= |code|
  {
    whole == Then(done, NestedBranch(code, pos, j, stop, e, level, left))
  }

  /** A jump or label is passed over. */
  lemma BranchSkip(code: seq<Instr>, pos: map<nat, nat>, whole: Out, done: seq<string>, j: nat, stop: nat,
                   e: Option<nat>, level: int, left: nat)
    requires InRange(code, pos) && stop <= |code| && j < stop && left > 0 && (code[j].Jump? || code[j].Label?)
    requires BranchWalked(code, pos, whole, done, j, stop, e, level, left)
    ensures BranchWalked(code, pos, whole, done, j + 1, stop, e, level, left - 1)
  {
  }

  /** A plain instruction adds its formatted line. */
  lemma BranchFormat(code: seq<Instr>, pos: map<nat, nat>, whole: Out, done: seq<string>, j: nat, stop: nat,
                     e: Option<nat>, level: int, left: nat)
    requires InRange(code, pos) && stop <= |code| && j < stop && left > 0
    requires !(code[j].Jump? || code[j].Label? || code[j].CondJump?)
    requires BranchWalked(code, pos, whole, done, j, stop, e, level, left)
    ensures BranchWalked(code, pos, whole, done + FormatLines(code[j], level), j + 1, stop, e, level, left - 1)
  {
    ThenThen(done, FormatLines(code[j], level), NestedBranch(code, pos, j + 1, stop, e, level, left - 1));
  }

  /** A nested if-else adds its lines and the walk resumes where `_find_next_instruction_after_nested_if` says. */
  lemma BranchNested(code: seq<Instr>, pos: map<nat, nat>, whole: Out, done: seq<string>, j: nat, stop: nat,
                     e: Option<nat>, level: int, left: nat, n: Out, next: nat)
    requires InRange(code, pos) && stop <= |code| && j < stop && left > 0 && code[j].CondJump?
    requires n == NestedIf(code, pos, code[j], level, left - 1) && next == NextAfterNestedIf(code, pos, j)
    requires BranchWalked(code, pos, whole, done, j, stop, e, level, left)
    ensures n.Diverged? ==> whole.Diverged?
    ensures n.Done? ==> BranchWalked(code, pos, whole, done + n.lines, next, stop, e, level, left - 1)
  {
    if n.Done? {
      ThenThen(done, n.lines, NestedBranch(code, pos, next, stop, e, level, left - 1));
    }
  }

  /** A branch loop of the if-else case of `_generate_function_body` wrote `done`, and its rest completes `whole`. */
  predicate TopWalked(code: seq<Instr>, pos: map<nat, nat>, whole: Out, done: seq<string>, j: nat, stop: nat,
                      e: Option<nat>, level: int, left: nat)
    requires InRange(code, pos) && stop <= |code|
  {
    whole == Then(done, TopBranch(code, pos, j, stop, e, level, left))
  }

  lemma TopSkip(code: seq<Instr>, pos: map<nat, nat>, whole: Out, done: seq<string>, j: nat, stop: nat,
                e: Option<nat>, level: int, left: nat)
    requires InRange(code, pos) && stop <= |code| && j < stop && left > 0 && (code[j].Jump? || code[j].Label?)
    requires TopWalked(code, pos, whole, done, j, stop, e, level, left)
    ensures TopWalked(code, pos, whole, done, j + 1, stop, e, level, left - 1)
  {
  }

  lemma TopSingle(code: seq<Instr>, pos: map<nat, nat>, whole: Out, done: seq<string>, j: nat, stop: nat,
                  e: Option<nat>, level: int, left: nat, line: seq<string>, next: int)
    requires InRange(code, pos) && stop <= |code| && j < stop && left > 0
    requires !(code[j].Jump? || code[j].Label? || code[j].CondJump?)
    requires var s := ProcessSingle(code[j], level); line == (if s.line.Some? then [s.line.value] else []) && next == s.level
    requires TopWalked(code, pos, whole, done, j, stop, e, level, left)
    ensures TopWalked(code, pos, whole, done + line, j + 1, stop, e, next, left - 1)
  {
    ThenThen(done, line, TopBranch(code, pos, j + 1, stop, e, next, left - 1));
  }

  lemma TopNested(code: seq<Instr>, pos: map<nat, nat>, whole: Out, done: seq<string>, j: nat, stop: nat,
                  e: Option<nat>, level: int, left: nat, n: Out, next: nat)
    requires InRange(code, pos) && stop <= |code| && j < stop && left > 0 && code[j].CondJump?
    requires n == NestedIf(code, pos, code[j], level, left - 1) && next == NextAfterNestedIf(code, pos, j)
    requires TopWalked(code, pos, whole, done, j, stop, e, level, left)
    ensures n.Diverged? ==> whole.Diverged?
    ensures n.Done? ==> TopWalked(code, pos, whole, done + n.lines, next + 1, stop, e, level, left - 1)
  {
    if n.Done? {
      ThenThen(done, n.lines, TopBranch(code, pos, next + 1, stop, e, level, left - 1));
    }
  }

  /** One iteration of the main loop of `_generate_function_body`: the lines it writes, where it resumes and at which level. */
  datatype Step = Step(lines: seq<string>, next: nat, level: int) | Stuck

  /** The if-else case: the `if` line, the true branch, `else:` one level up, the false branch; resume past the end label. */
  function IfElseStep(code: seq<Instr>, pos: map<nat, nat>, ins: Instr, level: int, rest: nat): Step
    requires InRange(code, pos) && IsIfElse(ins) && ins.trueLabel in pos && ins.falseLabel.value in pos
  {
    var tp, fp := pos[ins.trueLabel], pos[ins.falseLabel.value];
    var e := LastJump(code, tp, fp);
    var tb := TopBranch(code, pos, tp + 1, fp, e, level + 1, rest);
    if tb.Diverged? then Stuck
    else
      var eb := TopBranch(code, pos, fp + 1, EndPos(code, pos, e), None, tb.level, rest);
      if eb.Diverged? then Stuck
      else Step(IfLine(ins, level) + tb.lines + [Indent(level) + "else:"] + eb.lines, EndPos(code, pos, e) + 1, eb.level - 1)
  }

  /** The if-only case: the `if` line and the block up to the next other label, where the walk resumes. */
  function IfOnlyStep(code: seq<Instr>, pos: map<nat, nat>, ins: Instr, level: int, rest: nat): Step
    requires InRange(code, pos) && ins.CondJump? && ins.trueLabel in pos
  {
    var endPos := NextOtherLabel(code, pos[ins.trueLabel] + 1, ins.trueLabel);
    var tb := IfOnlyBranch(code, pos[ins.trueLabel] + 1, endPos, level + 1, rest);
    if tb.Diverged? then Stuck else Step(IfLine(ins, level) + tb.lines, endPos, tb.level - 1)
  }

  function StepAt(code: seq<Instr>, pos: map<nat, nat>, i: nat, level: int, rest: nat): Step
    requires InRange(code, pos) && i < |code|
  {
    var ins := code[i];
    if IsIfElse(ins) && ins.trueLabel in pos && ins.falseLabel.value in pos then IfElseStep(code, pos, ins, level, rest)
    else if ins.CondJump? && ins.falseLabel.None? && ins.trueLabel in pos then IfOnlyStep(code, pos, ins, level, rest)
    else if ins.Label? || ins.Jump? || ins.CondJump? then Step([], i + 1, level)
    else
      var s := ProcessSingle(ins, level);
      Step(if s.line.Some? then [s.line.value] else [], i + 1, s.level)
  }

  /** The walk is its first step followed by the rest of the walk. */
  lemma BodyFromStep(code: seq<Instr>, pos: map<nat, nat>, i: nat, level: int, fuel: nat, rest: nat)
    requires InRange(code, pos) && i < |code| && fuel > 0 && rest == fuel - 1
    ensures var s := StepAt(code, pos, i, level, rest);
      BodyFrom(code, pos, i, level, fuel) == if s.Stuck? then Diverged else Then(s.lines, BodyFrom(code, pos, s.next, s.level, rest))
  {
  }

  /** The main loop of `_generate_function_body` wrote `done`, and the walk from `i` with `left` iterations completes `whole`. */
  predicate BodyWalked(code: seq<Instr>, pos: map<nat, nat>, whole: Out, done: seq<string>, i: nat, level: int, left: nat)
    requires InRange(code, pos)
  {
    whole == Then(done, BodyFrom(code, pos, i, level, left))
  }

  lemma BodyWalkStep(code: seq<Instr>, pos: map<nat, nat>, whole: Out, done: seq<string>, i: nat, level: int, left: nat, s: Step)
    requires InRange(code, pos) && i < |code| && left > 0 && s == StepAt(code, pos, i, level, left - 1)
    requires BodyWalked(code, pos, whole, done, i, level, left)
    ensures s.Stuck? ==> whole.Diverged?
    ensures s.Step? ==> BodyWalked(code, pos, whole, done + s.lines, s.next, s.level, left - 1)
  {
    BodyFromStep(code, pos, i, level, left, left - 1);
    if s.Step? {
      ThenThen(done, s.lines, BodyFrom(code, pos, s.next, s.level, left - 1));
    }
  }

  lemma IfElseLines(s: seq<string>, a: seq<string>, b: seq<string>, c: seq<string>, d: seq<string>)
    ensures s + a + b + c + d == s + (a + b + c + d)
  {
  }

  /** The first function named `main` is the one `MainOf` picks. */
  lemma {:induction false} MainOfFirst(fs: seq<FunctionIR>, k: nat)
    requires k < |fs| && fs[k].name == "main" && forall j :: 0 <= j < k ==> fs[j].name != "main"
    ensures HasMain(fs) && MainOf(fs) == fs[k]
  {
    if k > 0 {
      assert fs[1..][k - 1] == fs[k];
      MainOfFirst(fs[1..], k - 1);
    }
  }

  /** Once a prefix's parts fail, so do the parts of every longer prefix. */
  lemma {:induction false} NonMainPartsFails(fs: seq<FunctionIR>, k: nat, fuel: nat)
    requires 0 < k <= |fs| && fs[k - 1].name != "main"
    requires FunctionCode(Header(fs[k - 1]), fs[k - 1].instructions, fuel).None?
    ensures ProgramParts(fs, fuel).None?
  {
    NonMainPartsStaysNone(fs, k, |fs|, fuel);
    assert fs[..|fs|] == fs;
  }

  lemma {:induction false} NonMainPartsStaysNone(fs: seq<FunctionIR>, k: nat, n: nat, fuel: nat)
    requires 0 < k <= n <= |fs| && fs[k - 1].name != "main"
    requires FunctionCode(Header(fs[k - 1]), fs[k - 1].instructions, fuel).None?
    ensures NonMainParts(fs[..n], fuel).None?
  {
    assert fs[..n][..n - 1] == fs[..n - 1];
    if n > k {
      NonMainPartsStaysNone(fs, k, n - 1, fuel);
    }
  }

  // ---- the generator ----

  /** A `code_lines` list: a function's header, then the lines its body adds. */
  class CodeLines {
    var lines: seq<string>

    constructor (header: string)
      ensures lines == [header]
    {
      lines := [header];
    }
  }

  class CodeGenerator {
    /** `self.ir_functions`: the functions in the dictionary's order, each keyed by its own name. */
    const functions: seq<FunctionIR>

    constructor (functions: seq<FunctionIR>)
      ensures this.functions == functions
    {
      this.functions := functions;
    }

    /** `_process_single_instruction`: the line at the current indent and the indent level handed back. */
    method ProcessSingleInstruction(ins: Instr, out: CodeLines, level: int) returns (newLevel: int)
      modifies out
      ensures var s := ProcessSingle(ins, level);
        out.lines == old(out.lines) + (if s.line.Some? then [s.line.value] else []) && newLevel == s.level
    {
      newLevel := level;
      match ins
      case ForLoopStart(v, it) =>
        out.lines := out.lines + [ForLine(v, it, level)];
        newLevel := level + 1;
      case ForLoopEnd =>
        newLevel := level - 1;
        if newLevel < 1 {
          newLevel := 1;
        }
      case Label(_) =>
      case Jump(_) =>
      case CondJump(_, _, _) =>
      case _ =>
        out.lines := out.lines + [Indent(level) + SimpleLine(ins).value];
    }

    /** `_format_instruction`: the line of a plain instruction at `level`; loop markers write nothing. */
    method FormatInstruction(ins: Instr, out: CodeLines, level: int)
      modifies out
      ensures out.lines == old(out.lines) + FormatLines(ins, level)
    {
      var line := SimpleLine(ins);
      if line.Some? {
        out.lines := out.lines + [Indent(level) + line.value];
      }
    }

    /** `_process_nested_if`: an if-else whose two branch loops write one level deeper. */
    method ProcessNestedIf(ins: Instr, code: seq<Instr>, out: CodeLines, level: int, pos: map<nat, nat>, fuel: nat)
      returns (ok: bool)
      requires InRange(code, pos)
      modifies out
      ensures var o := NestedIf(code, pos, ins, level, fuel);
        ok == o.Done? && (ok ==> out.lines == old(out.lines) + o.lines)
      decreases fuel, 2
    {
      if !(IsIfElse(ins) && ins.trueLabel in pos && ins.falseLabel.value in pos) {
        return true;
      }
      if fuel == 0 {
        return false;
      }
      var truePos, falsePos := pos[ins.trueLabel], pos[ins.falseLabel.value];
      var endLabel := FindEndLabel(code, truePos, falsePos);
      var rest := fuel - 1;
      ghost var start := out.lines;
      out.lines := out.lines + IfLine(ins, level);
      ok := NestedBranchLoop(code, pos, truePos + 1, falsePos, endLabel, level + 1, rest, out);
      ghost var tb := NestedBranch(code, pos, truePos + 1, falsePos, endLabel, level + 1, rest);
      if !ok {
        NestedIfParts(code, pos, ins, level, fuel, rest, truePos, falsePos, endLabel, tb, Diverged);
        return;
      }
      ok := ElseBranch(code, pos, falsePos, endLabel, level, rest, out);
      ghost var eb := NestedBranch(code, pos, falsePos + 1, EndPos(code, pos, endLabel), None, level + 1, rest);
      NestedIfParts(code, pos, ins, level, fuel, rest, truePos, falsePos, endLabel, tb, eb);
      if ok {
        ConcatAssoc(start, IfLine(ins, level), tb.lines, [Indent(level) + "else:"], eb.lines);
      }
    }

    /** The `else:` line of `_process_nested_if` and its false branch, up to the end label's position. */
    method ElseBranch(code: seq<Instr>, pos: map<nat, nat>, falsePos: nat, endLabel: Option<nat>, level: int,
                      fuel: nat, out: CodeLines) returns (ok: bool)
      requires InRange(code, pos)
      modifies out
      ensures var eb := NestedBranch(code, pos, falsePos + 1, EndPos(code, pos, endLabel), None, level + 1, fuel);
        ok == eb.Done? && (ok ==> out.lines == old(out.lines) + ([Indent(level) + "else:"] + eb.lines))
      decreases fuel, 1
    {
      out.lines := out.lines + [Indent(level) + "else:"];
      var endPos := |code|;
      if endLabel.Some? && endLabel.value in pos {
        endPos := pos[endLabel.value];
      }
      ok := NestedBranchLoop(code, pos, falsePos + 1, endPos, None, level + 1, fuel, out);
    }

    /** A branch loop of `_process_nested_if`, from `j` up to `stop`. */
    method NestedBranchLoop(code: seq<Instr>, pos: map<nat, nat>, j0: nat, stop: nat, endLabel: Option<nat>,
                            level: int, fuel: nat, out: CodeLines) returns (ok: bool)
      requires InRange(code, pos) && stop <= |code|
      modifies out
      ensures var o := NestedBranch(code, pos, j0, stop, endLabel, level, fuel);
        ok == o.Done? && (ok ==> out.lines == old(out.lines) + o.lines)
      decreases fuel, 0
    {
      var j: nat, left: nat := j0, fuel;
      ghost var whole := NestedBranch(code, pos, j0, stop, endLabel, level, fuel);
      ghost var done: seq<string> := [];
      assert Then(done, whole) == whole;
      while j < stop
        invariant left <= fuel && out.lines == old(out.lines) + done
        invariant BranchWalked(code, pos, whole, done, j, stop, endLabel, level, left)
        decreases left
      {
        if left == 0 {
          return false;
        }
        var ins := code[j];
        if ins.CondJump? {
          ghost var n := NestedIf(code, pos, ins, level, left - 1);
          ok := ProcessNestedIf(ins, code, out, level, pos, left - 1);
          var next := FindNextInstructionAfterNestedIf(j, code, pos);
          BranchNested(code, pos, whole, done, j, stop, endLabel, level, left, n, next);
          if !ok {
            return;
          }
          AppendAssoc(old(out.lines), done, n.lines);
          done, j := done + n.lines, next;
        } else if ins.Jump? || ins.Label? {
          BranchSkip(code, pos, whole, done, j, stop, endLabel, level, left);
          j := j + 1;
        } else {
          FormatInstruction(ins, out, level);
          AppendAssoc(old(out.lines), done, FormatLines(ins, level));
          BranchFormat(code, pos, whole, done, j, stop, endLabel, level, left);
          done, j := done + FormatLines(ins, level), j + 1;
        }
        left := left - 1;
      }
      assert done + [] == done;
      return true;
    }

    /** A branch loop of the if-else case of `_generate_function_body`, from `j` up to `stop`. */
    method TopBranchLoop(code: seq<Instr>, pos: map<nat, nat>, j0: nat, stop: nat, endLabel: Option<nat>,
                         level: int, fuel: nat, out: CodeLines) returns (ok: bool, newLevel: int)
      requires InRange(code, pos) && stop <= |code|
      modifies out
      ensures var o := TopBranch(code, pos, j0, stop, endLabel, level, fuel);
        ok == o.Done? && (ok ==> out.lines == old(out.lines) + o.lines && newLevel == o.level)
    {
      var j: nat, left: nat := j0, fuel;
      newLevel := level;
      ghost var whole := TopBranch(code, pos, j0, stop, endLabel, level, fuel);
      ghost var done: seq<string> := [];
      assert Then(done, whole) == whole;
      while j < stop
        invariant out.lines == old(out.lines) + done
        invariant TopWalked(code, pos, whole, done, j, stop, endLabel, newLevel, left)
        decreases left
      {
        if left == 0 {
          return false, newLevel;
        }
        var ins := code[j];
        if ins.CondJump? {
          ghost var n := NestedIf(code, pos, ins, newLevel, left - 1);
          ok := ProcessNestedIf(ins, code, out, newLevel, pos, left - 1);
          var next := FindNextInstructionAfterNestedIf(j, code, pos);
          TopNested(code, pos, whole, done, j, stop, endLabel, newLevel, left, n, next);
          if !ok {
            return;
          }
          AppendAssoc(old(out.lines), done, n.lines);
          done, j := done + n.lines, next + 1;
        } else if ins.Jump? || ins.Label? {
          TopSkip(code, pos, whole, done, j, stop, endLabel, newLevel, left);
          j := j + 1;
        } else {
          ghost var s := ProcessSingle(ins, newLevel);
          ghost var line := if s.line.Some? then [s.line.value] else [];
          ghost var was := newLevel;
          newLevel := ProcessSingleInstruction(ins, out, newLevel);
          AppendAssoc(old(out.lines), done, line);
          TopSingle(code, pos, whole, done, j, stop, endLabel, was, left, line, newLevel);
          done, j := done + line, j + 1;
        }
        left := left - 1;
      }
      assert done + [] == done;
      return true, newLevel;
    }

    /** The branch loop of the if-only case of `_generate_function_body`: control flow inside it is skipped. */
    method IfOnlyBranchLoop(code: seq<Instr>, j0: nat, stop: nat, level: int, fuel: nat, out: CodeLines)
      returns (ok: bool, newLevel: int)
      requires stop <= |code|
      modifies out
      ensures var o := IfOnlyBranch(code, j0, stop, level, fuel);
        ok == o.Done? && (ok ==> out.lines == old(out.lines) + o.lines && newLevel == o.level)
    {
      var j: nat, left: nat := j0, fuel;
      newLevel := level;
      ghost var whole := IfOnlyBranch(code, j0, stop, level, fuel);
      ghost var done: seq<string> := [];
      assert Then(done, whole) == whole;
      while j < stop
        invariant out.lines == old(out.lines) + done
        invariant whole == Then(done, IfOnlyBranch(code, j, stop, newLevel, left))
        decreases left
      {
        if left == 0 {
          return false, newLevel;
        }
        var ins := code[j];
        if !(ins.Jump? || ins.CondJump? || ins.Label?) {
          ghost var s := ProcessSingle(ins, newLevel);
          ghost var line := if s.line.Some? then [s.line.value] else [];
          newLevel := ProcessSingleInstruction(ins, out, newLevel);
          AppendAssoc(old(out.lines), done, line);
          ThenThen(done, line, IfOnlyBranch(code, j + 1, stop, newLevel, left - 1));
          done := done + line;
        }
        j, left := j + 1, left - 1;
      }
      assert done + [] == done;
      return true, newLevel;
    }

    /** The if-else case of `_generate_function_body`, from the `if` line to the level after the false branch. */
    method IfElseBlock(code: seq<Instr>, pos: map<nat, nat>, ins: Instr, level: int, rest: nat, out: CodeLines)
      returns (ok: bool, next: nat, newLevel: int)
      requires InRange(code, pos) && IsIfElse(ins) && ins.trueLabel in pos && ins.falseLabel.value in pos
      modifies out
      ensures var s := IfElseStep(code, pos, ins, level, rest);
        ok == s.Step? && (ok ==> out.lines == old(out.lines) + s.lines && next == s.next && newLevel == s.level)
    {
      var truePos, falsePos := pos[ins.trueLabel], pos[ins.falseLabel.value];
      var endLabel := FindEndLabel(code, truePos, falsePos);
      ghost var start := out.lines;
      out.lines := out.lines + IfLine(ins, level);
      var level1;
      ok, level1 := TopBranchLoop(code, pos, truePos + 1, falsePos, endLabel, level + 1, rest, out);
      next, newLevel := 0, level;
      if !ok {
        return;
      }
      ghost var tb := TopBranch(code, pos, truePos + 1, falsePos, endLabel, level + 1, rest);
      out.lines := out.lines + [Indent(level) + "else:"];
      var endPos := |code|;
      if endLabel.Some? && endLabel.value in pos {
        endPos := pos[endLabel.value];
      }
      var level2;
      ok, level2 := TopBranchLoop(code, pos, falsePos + 1, endPos, None, level1 - 1 + 1, rest, out);
      if ok {
        ghost var eb := TopBranch(code, pos, falsePos + 1, endPos, None, tb.level, rest);
        IfElseLines(start, IfLine(ins, level), tb.lines, [Indent(level) + "else:"], eb.lines);
        next, newLevel := endPos + 1, level2 - 1;
      }
    }

    /** The if-only case of `_generate_function_body`: the `if` line and the block up to the next other label. */
    method IfOnlyBlock(code: seq<Instr>, pos: map<nat, nat>, ins: Instr, level: int, rest: nat, out: CodeLines)
      returns (ok: bool, next: nat, newLevel: int)
      requires InRange(code, pos) && ins.CondJump? && ins.trueLabel in pos
      modifies out
      ensures var s := IfOnlyStep(code, pos, ins, level, rest);
        ok == s.Step? && (ok ==> out.lines == old(out.lines) + s.lines && next == s.next && newLevel == s.level)
    {
      var truePos := pos[ins.trueLabel];
      var endPos := FindIfOnlyEnd(code, truePos, ins.trueLabel);
      ghost var start := out.lines;
      out.lines := out.lines + IfLine(ins, level);
      var level1;
      ok, level1 := IfOnlyBranchLoop(code, truePos + 1, endPos, level + 1, rest, out);
      next, newLevel := endPos, level1 - 1;
      if ok {
        AppendAssoc(start, IfLine(ins, level), IfOnlyBranch(code, truePos + 1, endPos, level + 1, rest).lines);
      }
    }

    /** One iteration of the main loop of `_generate_function_body`. */
    method BodyStep(code: seq<Instr>, pos: map<nat, nat>, i: nat, level: int, rest: nat, out: CodeLines)
      returns (ok: bool, next: nat, newLevel: int)
      requires InRange(code, pos) && i < |code|
      modifies out
      ensures var s := StepAt(code, pos, i, level, rest);
        ok == s.Step? && (ok ==> out.lines == old(out.lines) + s.lines && next == s.next && newLevel == s.level)
    {
      var ins := code[i];
      if IsIfElse(ins) && ins.trueLabel in pos && ins.falseLabel.value in pos {
        ok, next, newLevel := IfElseBlock(code, pos, ins, level, rest, out);
      } else if ins.CondJump? && ins.falseLabel.None? && ins.trueLabel in pos {
        ok, next, newLevel := IfOnlyBlock(code, pos, ins, level, rest, out);
      } else if ins.Label? || ins.Jump? || ins.CondJump? {
        ok, next, newLevel := true, i + 1, level;
        assert out.lines == old(out.lines) + [];
      } else {
        newLevel := ProcessSingleInstruction(ins, out, level);
        ok, next := true, i + 1;
      }
    }

    /** The main loop of `_generate_function_body`, from position 0 at indent level 1. */
    method BodyWalk(code: seq<Instr>, pos: map<nat, nat>, out: CodeLines, fuel: nat) returns (ok: bool)
      requires InRange(code, pos)
      modifies out
      ensures var o := BodyFrom(code, pos, 0, 1, fuel);
        ok == o.Done? && (ok ==> out.lines == old(out.lines) + o.lines)
    {
      var i: nat, left: nat, level := 0, fuel, 1;
      ghost var whole := BodyFrom(code, pos, 0, 1, fuel);
      ghost var done: seq<string> := [];
      assert Then(done, whole) == whole;
      while i < |code|
        invariant out.lines == old(out.lines) + done
        invariant BodyWalked(code, pos, whole, done, i, level, left)
        decreases left
      {
        if left == 0 {
          return false;
        }
        ghost var s := StepAt(code, pos, i, level, left - 1);
        BodyWalkStep(code, pos, whole, done, i, level, left, s);
        var next, newLevel;
        ok, next, newLevel := BodyStep(code, pos, i, level, left - 1, out);
        if !ok {
          return;
        }
        AppendAssoc(old(out.lines), done, s.lines);
        done, i, level, left := done + s.lines, next, newLevel, left - 1;
      }
      assert done + [] == done;
      return true;
    }

    /**
     * `_generate_function_body`: the label table, the walk over the instructions, then a
     * `pass` line when the list still holds only the header.
     */
    method GenerateFunctionBody(code: seq<Instr>, out: CodeLines, fuel: nat) returns (ok: bool)
      modifies out
      ensures var o := BodyFrom(code, Positions(code), 0, 1, fuel);
        ok == o.Done? &&
        (ok ==> out.lines == old(out.lines) + o.lines + (if |old(out.lines)| + |o.lines| == 1 then ["    pass"] else []))
    {
      var pos := LabelPositions(code);
      ok := BodyWalk(code, pos, out, fuel);
      if ok && |out.lines| == 1 {
        out.lines := out.lines + ["    pass"];
      }
    }

    /** The code of one function: its header, then `pass` for an empty list, otherwise what `_generate_function_body` adds. */
    method FunctionCodeLines(header: string, code: seq<Instr>, fuel: nat) returns (r: Option<seq<string>>)
      ensures r == FunctionCode(header, code, fuel)
    {
      var out := new CodeLines(header);
      if |code| == 0 {
        out.lines := out.lines + ["    pass"];
        assert out.lines == [header, "    pass"];
        return Some(out.lines);
      }
      var ok := GenerateFunctionBody(code, out, fuel);
      if !ok {
        return None;
      }
      ghost var o := BodyFrom(code, Positions(code), 0, 1, fuel);
      ghost var body := if |o.lines| == 0 then ["    pass"] else o.lines;
      assert out.lines == [header] + body by {
        if |o.lines| > 0 {
          assert out.lines == [header] + o.lines + [];
        }
      }
      assert BodyLines(code, fuel) == Some(body);
      return Some(out.lines);
    }

    /** `"main" in self.ir_functions` and its entry: the first function named `main`. */
    method FindMain() returns (k: Option<nat>)
      ensures k.Some? <==> HasMain(functions)
      ensures k.Some? ==> k.value < |functions| && functions[k.value] == MainOf(functions)
    {
      for i := 0 to |functions|
        invariant forall j :: 0 <= j < i ==> functions[j].name != "main"
      {
        if functions[i].name == "main" {
          MainOfFirst(functions, i);
          return Some(i);
        }
      }
      return None;
    }

    /**
     * `generate_python_code`: the header comment and a blank line, each non-main function
     * followed by a blank part, then `main` and the call guard when there is a `main`, all
     * joined with newlines.
     */
    method GeneratePythonCode(fuel: nat) returns (r: Option<string>)
      ensures var p := ProgramParts(functions, fuel);
        r.Some? == p.Some? && (r.Some? ==> r.value == Join(p.value, "\n"))
    {
      var header := ["# Generated Python code", ""];
      var parts := header;
      for k := 0 to |functions|
        invariant NonMainParts(functions[..k], fuel).Some?
        invariant parts == header + NonMainParts(functions[..k], fuel).value
      {
        var f := functions[k];
        assert functions[..k + 1][..k] == functions[..k];
        if f.name != "main" {
          var c := FunctionCodeLines(Header(f), f.instructions, fuel);
          if c.None? {
            NonMainPartsFails(functions, k + 1, fuel);
            return None;
          }
          parts := parts + [Join(c.value, "\n"), ""];
        }
      }
      assert functions[..|functions|] == functions;
      var m := FindMain();
      if m.Some? {
        var c := FunctionCodeLines("def main():", functions[m.value].instructions, fuel);
        if c.None? {
          return None;
        }
        parts := parts + [Join(c.value, "\n"), "", "if __name__ == '__main__':", "    main()"];
      }
      return Some(Join(parts, "\n"));
    }
  }
}
