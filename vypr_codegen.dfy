/**
 * src/vypr/code_generator.py: Python text from the IR, rebuilding `if`/`else` blocks from
 * label positions. The body walk skips labels and stray jumps, turns an if-else
 * conditional jump into an `if`/`else` pair whose end is the target of the last jump of
 * the true branch, and an if-only conditional jump into an `if` that runs to the next
 * other label. Loop IR shaped like an `if` with a back edge makes the nested-if rule call
 * itself for ever (and the walk move backwards), so every loop iteration and every nested
 * call takes one unit of `fuel`; running out is the outcome `Diverged`.
 */
module VyprCodegen {
  import opened Wrappers
  import opened Text
  import opened IR
  import opened Render

  // ---- label positions and the searches over them ----

  /** Every stored position lies inside the list and holds the label stored there. */
  predicate InRange(code: seq<Instr>, pos: map<nat, nat>)
  {
    forall l :: l in pos ==> pos[l] < |code| && code[pos[l]] == Label(l)
  }

  /** `label_positions`: each label's index in the list; a label defined twice keeps its last index. */
  function Positions(code: seq<Instr>): (pos: map<nat, nat>)
    ensures InRange(code, pos)
  {
    if |code| == 0 then map[]
    else
      var m := Positions(code[..|code| - 1]);
      if code[|code| - 1].Label? then m[code[|code| - 1].name := |code| - 1] else m
  }

  /** The table holds exactly the labels the code defines, each at its last definition. */
  lemma {:induction false} PositionsOfLabels(code: seq<Instr>)
    ensures var pos := Positions(code);
      (forall l :: l in pos <==> Label(l) in code) &&
      forall l, k :: l in pos && pos[l] < k < |code| ==> code[k] != Label(l)
  {
    if |code| > 0 {
      var p, last := code[..|code| - 1], code[|code| - 1];
      var pos, prev := Positions(code), Positions(p);
      PositionsOfLabels(p);
      assert code == p + [last];
      forall l ensures l in pos <==> Label(l) in code {
        assert Label(l) in code <==> Label(l) in p || last == Label(l);
      }
      forall l, k | l in pos && pos[l] < k < |code| ensures code[k] != Label(l) {
        if k < |code| - 1 {
          assert code[k] == p[k];
          if !(last.Label? && last.name == l) {
            assert l in prev && pos[l] == prev[l];
          }
        }
      }
    }
  }

  /** With every label defined once, a label's position is exactly where it is defined. */
  lemma PositionOfUniqueLabel(code: seq<Instr>, k: nat)
    requires UniqueLabels(code) && k < |code| && code[k].Label?
    ensures code[k].name in Positions(code) && Positions(code)[code[k].name] == k
  {
    PositionsOfLabels(code);
    assert code[k] in code;
  }

  /**
   * The end label of an if-else: the target of the first jump met scanning backwards from
   * just before the false label down to just after the true label (indices lo < j < hi).
   */
  function LastJump(code: seq<Instr>, lo: nat, hi: nat): Option<nat>
    requires hi <= |code|
    decreases hi
  {
    if hi <= lo + 1 then None
    else if code[hi - 1].Jump? then Some(code[hi - 1].target)
    else LastJump(code, lo, hi - 1)
  }

  /** The scan finds a jump exactly when there is one strictly between the labels, and then the last one. */
  lemma {:induction false} LastJumpFinds(code: seq<Instr>, lo: nat, hi: nat)
    requires hi <= |code|
    ensures LastJump(code, lo, hi).None? <==> forall j :: lo < j < hi ==> !code[j].Jump?
    ensures LastJump(code, lo, hi).Some? ==>
      exists j :: lo < j < hi && code[j] == Jump(LastJump(code, lo, hi).value) && forall k :: j < k < hi ==> !code[k].Jump?
    decreases hi
  {
    var r := LastJump(code, lo, hi);
    if hi <= lo + 1 {
      assert r.None?;
    } else if code[hi - 1].Jump? {
      assert r == Some(code[hi - 1].target);
      assert code[hi - 1] == Jump(r.value);
    } else {
      LastJumpFinds(code, lo, hi - 1);
      assert r == LastJump(code, lo, hi - 1);
      if r.Some? {
        var j :| lo < j < hi - 1 && code[j] == Jump(r.value) && forall k :: j < k < hi - 1 ==> !code[k].Jump?;
        assert forall k :: j < k < hi ==> !code[k].Jump?;
      }
    }
  }

  /** The end of an if-only branch: the first label at or after `from` other than the true label, or the end of the list. */
  function NextOtherLabel(code: seq<Instr>, from: nat, t: nat): (k: nat)
    requires from <= |code|
    ensures from <= k <= |code|
    decreases |code| - from
  {
    if from == |code| then |code|
    else if code[from].Label? && code[from].name != t then from
    else NextOtherLabel(code, from + 1, t)
  }

  /** The if-only branch stops at the first label other than the true label, and runs to the end when there is none. */
  lemma {:induction false} NextOtherLabelFinds(code: seq<Instr>, from: nat, t: nat)
    requires from <= |code|
    ensures var k := NextOtherLabel(code, from, t);
      (k < |code| ==> code[k].Label? && code[k].name != t) &&
      forall m :: from <= m < k ==> !code[m].Label? || code[m].name == t
    decreases |code| - from
  {
    if from < |code| && !(code[from].Label? && code[from].name != t) {
      NextOtherLabelFinds(code, from + 1, t);
    }
  }

  /** Where the false branch of an if-else stops: at its end label when that is known, else at the end of the list. */
  function EndPos(code: seq<Instr>, pos: map<nat, nat>, e: Option<nat>): (p: nat)
    requires InRange(code, pos)
    ensures p <= |code|
  {
    if e.Some? && e.value in pos then pos[e.value] else |code|
  }

  /** An instruction that opens an if-else: a conditional jump with a false label. */
  predicate IsIfElse(ins: Instr) { ins.CondJump? && ins.falseLabel.Some? }

  /**
   * `_find_next_instruction_after_nested_if`: the position just past the end label of the
   * if-else starting at `curr`, or `curr + 1` when there is none.
   */
  function NextAfterNestedIf(code: seq<Instr>, pos: map<nat, nat>, curr: nat): nat
    requires InRange(code, pos) && curr < |code|
  {
    var ins := code[curr];
    if IsIfElse(ins) && ins.trueLabel in pos && ins.falseLabel.value in pos then
      var e := LastJump(code, pos[ins.trueLabel], pos[ins.falseLabel.value]);
      if e.Some? && e.value in pos then pos[e.value] + 1 else curr + 1
    else curr + 1
  }

  /**
   * Anything but an if-else resumes at the next instruction; an if-else resumes just past
   * the label that the last jump of its true branch targets.
   */
  lemma NextAfterNestedIfResumes(code: seq<Instr>, pos: map<nat, nat>, curr: nat)
    requires InRange(code, pos) && curr < |code|
    ensures var r := NextAfterNestedIf(code, pos, curr);
      (!IsIfElse(code[curr]) ==> r == curr + 1) &&
      (r != curr + 1 ==>
        IsIfElse(code[curr]) && code[curr].trueLabel in pos && code[curr].falseLabel.value in pos &&
        0 < r <= |code| && code[r - 1].Label? &&
        exists j :: pos[code[curr].trueLabel] < j < pos[code[curr].falseLabel.value] && code[j] == Jump(code[r - 1].name))
  {
    var ins := code[curr];
    if IsIfElse(ins) && ins.trueLabel in pos && ins.falseLabel.value in pos {
      LastJumpFinds(code, pos[ins.trueLabel], pos[ins.falseLabel.value]);
    }
  }

  // ---- single instructions ----

  /** The line a `for` header writes at a level. */
  function ForLine(v: string, it: Operand, level: int): string
  {
    Indent(level) + "for " + v + " in " + OperandText(it) + ":"
  }

  /** What `_process_single_instruction` writes, and the indent level it hands back. */
  datatype Single = Single(line: Option<string>, level: int)

  /** The level `ForLoopEnd` leaves: one less, but never below the function-body level 1. */
  function Dedent(level: int): int { if level - 1 < 1 then 1 else level - 1 }

  /**
   * `_process_single_instruction`: a plain instruction's line, or a `for` header that opens
   * a level; a loop end closes a level. Labels and jumps are never passed to it.
   */
  function ProcessSingle(ins: Instr, level: int): Single
  {
    match ins
    case ForLoopStart(v, it) => Single(Some(ForLine(v, it, level)), level + 1)
    case ForLoopEnd => Single(None, Dedent(level))
    case Label(_) => Single(None, level)
    case Jump(_) => Single(None, level)
    case CondJump(_, _, _) => Single(None, level)
    case _ => Single(Some(Indent(level) + SimpleLine(ins).value), level)
  }

  /**
   * Only `for` markers move the level: a `for` header opens one, a loop end closes one but
   * never goes below 1; every line written starts with the current indent.
   */
  lemma ProcessSingleLevels(ins: Instr, level: int)
    ensures var r := ProcessSingle(ins, level);
      (r.line.Some? ==> |r.line.value| >= |Indent(level)| && r.line.value[..|Indent(level)|] == Indent(level)) &&
      (ins.ForLoopStart? ==> r.level == level + 1) &&
      (ins.ForLoopEnd? ==> r.line.None? && r.level >= 1 && r.level <= (if level > 1 then level else 1)) &&
      (!ins.ForLoopStart? && !ins.ForLoopEnd? ==> r.level == level) &&
      ((ins.ForLoopStart? || SimpleLine(ins).Some?) <==> r.line.Some?)
  {
  }

  /** A `for` header followed by its loop end brings a body level back to where it was. */
  lemma ForLoopRestoresLevel(v: string, it: Operand, level: int)
    requires level >= 1
    ensures ProcessSingle(ForLoopEnd, ProcessSingle(ForLoopStart(v, it), level).level).level == level
  {
  }

  /** `_format_instruction`: the line of a plain instruction; loop markers write nothing. */
  function FormatLines(ins: Instr, level: int): (lines: seq<string>)
    ensures |lines| <= 1
    ensures |lines| == 1 <==> SimpleLine(ins).Some?
  {
    if SimpleLine(ins).Some? then [Indent(level) + SimpleLine(ins).value] else []
  }

  // ---- the walk ----

  /** The `if cond:` line that opens a reconstructed block. */
  function IfLine(ins: Instr, level: int): seq<string>
    requires ins.CondJump?
  {
    [Indent(level) + "if " + OperandText(ins.condition) + ":"]
  }

  /** The outcome of a (part of a) walk: the lines written and the level reached, or divergence. */
  datatype Out = Done(lines: seq<string>, level: int) | Diverged

  /** Lines written before the rest of a walk. */
  function Then(prefix: seq<string>, o: Out): Out
  {
    if o.Diverged? then Diverged else Done(prefix + o.lines, o.level)
  }

  lemma ThenThen(a: seq<string>, b: seq<string>, o: Out)
    ensures Then(a, Then(b, o)) == Then(a + b, o)
  {
    if o.Done? {
      assert a + (b + o.lines) == (a + b) + o.lines;
    }
  }

  /**
   * `_process_nested_if`: an if-else at `level` whose branches are written one level
   * deeper; anything else writes nothing.
   */
  function NestedIf(code: seq<Instr>, pos: map<nat, nat>, ins: Instr, level: int, fuel: nat): (o: Out)
    requires InRange(code, pos)
    ensures o.Done? ==> o.level == level
    decreases fuel
  {
    if !(IsIfElse(ins) && ins.trueLabel in pos && ins.falseLabel.value in pos) then Done([], level)
    else if fuel == 0 then Diverged
    else
      var tp, fp := pos[ins.trueLabel], pos[ins.falseLabel.value];
      var e := LastJump(code, tp, fp);
      var tb := NestedBranch(code, pos, tp + 1, fp, e, level + 1, fuel - 1);
      var eb := NestedBranch(code, pos, fp + 1, EndPos(code, pos, e), None, level + 1, fuel - 1);
      if tb.Diverged? || eb.Diverged? then Diverged
      else Done(IfLine(ins, level) + tb.lines + [Indent(level) + "else:"] + eb.lines, level)
  }

  /**
   * A branch loop of `_process_nested_if` from `j` up to `stop`: a jump to `endLabel` (the
   * true branch only) and every other jump or label are skipped, a nested if-else is written
   * and the walk resumes after its end label, any other instruction is formatted.
   */
  function NestedBranch(code: seq<Instr>, pos: map<nat, nat>, j: nat, stop: nat, endLabel: Option<nat>, level: int, fuel: nat): (o: Out)
    requires InRange(code, pos) && stop <= |code|
    ensures o.Done? ==> o.level == level
    decreases fuel
  {
    if j >= stop then Done([], level)
    else if fuel == 0 then Diverged
    else
      var ins := code[j];
      if ins.Jump? && endLabel == Some(ins.target) then NestedBranch(code, pos, j + 1, stop, endLabel, level, fuel - 1)
      else if ins.CondJump? then
        var n := NestedIf(code, pos, ins, level, fuel - 1);
        if n.Diverged? then Diverged
        else Then(n.lines, NestedBranch(code, pos, NextAfterNestedIf(code, pos, j), stop, endLabel, level, fuel - 1))
      else if ins.Jump? || ins.Label? then NestedBranch(code, pos, j + 1, stop, endLabel, level, fuel - 1)
      else Then(FormatLines(ins, level), NestedBranch(code, pos, j + 1, stop, endLabel, level, fuel - 1))
  }

  /**
   * A branch loop inlined in `_generate_function_body` for an if-else: like `NestedBranch`,
   * but plain instructions go through `ProcessSingle` (so `for` markers change the level)
   * and after a nested if-else the walk resumes one past the position
   * `_find_next_instruction_after_nested_if` gives.
   */
  function TopBranch(code: seq<Instr>, pos: map<nat, nat>, j: nat, stop: nat, endLabel: Option<nat>, level: int, fuel: nat): (o: Out)
    requires InRange(code, pos) && stop <= |code|
    decreases fuel
  {
    if j >= stop then Done([], level)
    else if fuel == 0 then Diverged
    else
      var ins := code[j];
      if ins.Jump? && endLabel == Some(ins.target) then TopBranch(code, pos, j + 1, stop, endLabel, level, fuel - 1)
      else if ins.CondJump? then
        var n := NestedIf(code, pos, ins, level, fuel - 1);
        if n.Diverged? then Diverged
        else Then(n.lines, TopBranch(code, pos, NextAfterNestedIf(code, pos, j) + 1, stop, endLabel, level, fuel - 1))
      else if ins.Jump? || ins.Label? then TopBranch(code, pos, j + 1, stop, endLabel, level, fuel - 1)
      else
        var s := ProcessSingle(ins, level);
        Then(if s.line.Some? then [s.line.value] else [], TopBranch(code, pos, j + 1, stop, endLabel, s.level, fuel - 1))
  }

  /** The branch loop of an if-only block: control flow inside it is skipped, everything else processed. */
  function IfOnlyBranch(code: seq<Instr>, j: nat, stop: nat, level: int, fuel: nat): (o: Out)
    requires stop <= |code|
    decreases fuel
  {
    if j >= stop then Done([], level)
    else if fuel == 0 then Diverged
    else
      var ins := code[j];
      if ins.Jump? || ins.CondJump? || ins.Label? then IfOnlyBranch(code, j + 1, stop, level, fuel - 1)
      else
        var s := ProcessSingle(ins, level);
        Then(if s.line.Some? then [s.line.value] else [], IfOnlyBranch(code, j + 1, stop, s.level, fuel - 1))
  }

  /** The main loop of `_generate_function_body` from position `i` at indent `level`. */
  function BodyFrom(code: seq<Instr>, pos: map<nat, nat>, i: nat, level: int, fuel: nat): (o: Out)
    requires InRange(code, pos)
    decreases fuel
  {
    if i >= |code| then Done([], level)
    else if fuel == 0 then Diverged
    else
      var ins := code[i];
      if IsIfElse(ins) && ins.trueLabel in pos && ins.falseLabel.value in pos then
        var tp, fp := pos[ins.trueLabel], pos[ins.falseLabel.value];
        var e := LastJump(code, tp, fp);
        var tb := TopBranch(code, pos, tp + 1, fp, e, level + 1, fuel - 1);
        if tb.Diverged? then Diverged
        else
          // the level drops by one for the `else:` line and rises again for the false branch
          var eb := TopBranch(code, pos, fp + 1, EndPos(code, pos, e), None, tb.level, fuel - 1);
          if eb.Diverged? then Diverged
          else Then(IfLine(ins, level) + tb.lines + [Indent(level) + "else:"] + eb.lines, BodyFrom(code, pos, EndPos(code, pos, e) + 1, eb.level - 1, fuel - 1))
      else if ins.CondJump? && ins.falseLabel.None? && ins.trueLabel in pos then
        var endPos := NextOtherLabel(code, pos[ins.trueLabel] + 1, ins.trueLabel);
        var tb := IfOnlyBranch(code, pos[ins.trueLabel] + 1, endPos, level + 1, fuel - 1);
        if tb.Diverged? then Diverged
        else Then(IfLine(ins, level) + tb.lines, BodyFrom(code, pos, endPos, tb.level - 1, fuel - 1))
      else if ins.Label? || ins.Jump? || ins.CondJump? then BodyFrom(code, pos, i + 1, level, fuel - 1)
      else
        var s := ProcessSingle(ins, level);
        Then(if s.line.Some? then [s.line.value] else [], BodyFrom(code, pos, i + 1, s.level, fuel - 1))
  }

  /** The lines `_generate_function_body` adds after the header: the walk's lines, or `pass` when it wrote none. */
  function BodyLines(code: seq<Instr>, fuel: nat): (r: Option<seq<string>>)
    ensures r.Some? ==> |r.value| > 0
  {
    match BodyFrom(code, Positions(code), 0, 1, fuel)
    case Diverged => None
    case Done(lines, _) => Some(if |lines| == 0 then ["    pass"] else lines)
  }

  /** A function's code: its header, then `pass` for an empty list, otherwise the body's lines. */
  function FunctionCode(header: string, code: seq<Instr>, fuel: nat): (r: Option<seq<string>>)
    ensures r.Some? ==> |r.value| >= 2 && r.value[0] == header
    ensures |code| == 0 ==> r == Some([header, "    pass"])
  {
    if |code| == 0 then Some([header, "    pass"])
    else
      match BodyLines(code, fuel)
      case None => None
      case Some(body) => Some([header] + body)
  }

  // ---- the program ----

  /** The functions other than `main`, in table order. */
  function NonMain(fs: seq<FunctionIR>): (r: seq<FunctionIR>)
    ensures forall k :: 0 <= k < |r| ==> r[k].name != "main"
  {
    if |fs| == 0 then []
    else NonMain(fs[..|fs| - 1]) + (if fs[|fs| - 1].name == "main" then [] else [fs[|fs| - 1]])
  }

  /** The parts written for the non-main functions: each function's joined code, then an empty part. */
  function NonMainParts(fs: seq<FunctionIR>, fuel: nat): Option<seq<string>>
  {
    if |fs| == 0 then Some([])
    else
      var p := NonMainParts(fs[..|fs| - 1], fuel);
      var f := fs[|fs| - 1];
      if p.None? then None
      else if f.name == "main" then p
      else
        match FunctionCode(Header(f), f.instructions, fuel)
        case None => None
        case Some(c) => Some(p.value + [Join(c, "\n"), ""])
  }

  /** The keys of `ir_functions`: no two functions share a name. */
  predicate DistinctNames(fs: seq<FunctionIR>)
  {
    forall i, j :: 0 <= i < j < |fs| ==> fs[i].name != fs[j].name
  }

  predicate HasMain(fs: seq<FunctionIR>)
  {
    exists i :: 0 <= i < |fs| && fs[i].name == "main"
  }

  /** `self.ir_functions["main"]`. */
  function MainOf(fs: seq<FunctionIR>): (f: FunctionIR)
    requires HasMain(fs)
    ensures f in fs && f.name == "main"
  {
    if fs[0].name == "main" then fs[0]
    else
      assert HasMain(fs[1..]) by {
        var i :| 0 <= i < |fs| && fs[i].name == "main";
        assert fs[1..][i - 1] == fs[i];
      }
      MainOf(fs[1..])
  }

  /** The parts `generate_python_code` joins with newlines. */
  function ProgramParts(fs: seq<FunctionIR>, fuel: nat): Option<seq<string>>
  {
    var header := ["# Generated Python code", ""];
    match NonMainParts(fs, fuel)
    case None => None
    case Some(rest) =>
      if !HasMain(fs) then Some(header + rest)
      else
        match FunctionCode("def main():", MainOf(fs).instructions, fuel)
        case None => None
        case Some(c) => Some(header + rest + [Join(c, "\n"), "", "if __name__ == '__main__':", "    main()"])
  }
}

// ---- properties of the walk ----
module VyprCodegenProps {
  import opened Wrappers
  import opened Text
  import opened IR
  import opened Render
  import opened VyprCodegen

  /** Two walk segments in a row, the second starting where the first hands over. */
  lemma ThenChain(o0: Out, o1: Out, o2: Out, o3: Out, a: seq<string>, b: seq<string>)
    requires o0 == Then(a, o1) && o1 == Then(b, o2) && o2 == o3
    ensures o0 == Then(a + b, o3)
  {
    ThenThen(a, b, o2);
  }

  lemma SimpleAt(a: seq<Instr>, m: nat)
    requires Simple(a) && m < |a|
    ensures SimpleLine(a[m]).Some? && !a[m].Label? && !a[m].Jump? && !a[m].CondJump?
    ensures !a[m].ForLoopStart? && !a[m].ForLoopEnd?
  {
    assert a[m] in a;
  }

  lemma SimpleLinesStep(code: seq<Instr>, i: nat, k: nat, level: int)
    requires i < k <= |code| && Simple(code[i..k])
    ensures Simple(code[i + 1..k]) && SimpleLine(code[i]).Some?
    ensures SimpleLines(code[i..k], level) == [Indent(level) + SimpleLine(code[i]).value] + SimpleLines(code[i + 1..k], level)
  {
    SimpleAt(code[i..k], 0);
    assert code[i..k][1..] == code[i + 1..k];
    SimpleSlice(code[i..k], 1, k - i);
  }

  /** One step of the main walk at a plain instruction: its line at the current level. */
  lemma BodySimpleStep(code: seq<Instr>, pos: map<nat, nat>, i: nat, level: int, fuel: nat, next: nat, rest: nat)
    requires InRange(code, pos) && i < |code| && SimpleLine(code[i]).Some? && fuel > 0
    requires next == i + 1 && rest == fuel - 1
    ensures BodyFrom(code, pos, i, level, fuel) == Then([Indent(level) + SimpleLine(code[i]).value], BodyFrom(code, pos, next, level, rest))
  {
  }

  /** The main walk over straight-line code writes one line per instruction at the current level. */
  lemma {:induction false} BodyStraight(code: seq<Instr>, pos: map<nat, nat>, i: nat, k: nat, level: int, fuel: nat, rest: nat)
    requires InRange(code, pos) && i <= k <= |code| && Simple(code[i..k]) && fuel == rest + (k - i)
    ensures BodyFrom(code, pos, i, level, fuel) == Then(SimpleLines(code[i..k], level), BodyFrom(code, pos, k, level, rest))
    decreases k - i
  {
    if i < k {
      var next, f := i + 1, fuel - 1;
      var line := [Indent(level) + SimpleLine(code[i]).value];
      SimpleLinesStep(code, i, k, level);
      BodySimpleStep(code, pos, i, level, fuel, next, f);
      BodyStraight(code, pos, next, k, level, f, rest);
      ThenThen(line, SimpleLines(code[next..k], level), BodyFrom(code, pos, k, level, rest));
    } else {
      assert SimpleLines(code[i..k], level) == [];
    }
  }

  /** An if-else branch loop writes nothing over a run of jumps and labels. */
  lemma {:induction false} TopBranchSkips(code: seq<Instr>, pos: map<nat, nat>, j: nat, stop: nat, e: Option<nat>, level: int, fuel: nat)
    requires InRange(code, pos) && j <= stop <= |code| && fuel >= stop - j
    requires forall m :: j <= m < stop ==> code[m].Jump? || code[m].Label?
    ensures TopBranch(code, pos, j, stop, e, level, fuel) == Done([], level)
    decreases stop - j
  {
    if j < stop {
      TopBranchSkips(code, pos, j + 1, stop, e, level, fuel - 1);
    }
  }

  /** An if-else branch loop over straight-line code writes one line per instruction; a trailing run of jumps and labels writes nothing. */
  lemma {:induction false} TopBranchStraight(code: seq<Instr>, pos: map<nat, nat>, j: nat, k: nat, stop: nat, e: Option<nat>, level: int, fuel: nat)
    requires InRange(code, pos) && j <= k <= stop <= |code| && Simple(code[j..k]) && fuel >= stop - j
    requires forall m :: k <= m < stop ==> code[m].Jump? || code[m].Label?
    ensures TopBranch(code, pos, j, stop, e, level, fuel) == Done(SimpleLines(code[j..k], level), level)
    decreases k - j
  {
    if j < k {
      SimpleLinesStep(code, j, k, level);
      TopBranchStraight(code, pos, j + 1, k, stop, e, level, fuel - 1);
    } else {
      TopBranchSkips(code, pos, j, stop, e, level, fuel);
      assert code[j..k] == [];
    }
  }

  /** The if-only branch loop over straight-line code writes one line per instruction. */
  lemma {:induction false} IfOnlyStraight(code: seq<Instr>, j: nat, stop: nat, level: int, fuel: nat)
    requires j <= stop <= |code| && Simple(code[j..stop]) && fuel >= stop - j
    ensures IfOnlyBranch(code, j, stop, level, fuel) == Done(SimpleLines(code[j..stop], level), level)
    decreases stop - j
  {
    if j < stop {
      SimpleLinesStep(code, j, stop, level);
      IfOnlyStraight(code, j + 1, stop, level, fuel - 1);
    } else {
      assert code[j..stop] == [];
    }
  }

  /**
   * One step of the main walk at an if-else whose two labels are known: the `if` line, the
   * true branch from just past its label to the false label, `else:`, the false branch from
   * just past the false label to the end label, and the walk goes on past the end label.
   */
  lemma BodyIfElseStep(code: seq<Instr>, pos: map<nat, nat>, i: nat, level: int, fuel: nat, c: Operand, t: nat, f: nat,
                       tFrom: nat, fStop: nat, e: Option<nat>, fFrom: nat, eStop: nat, next: nat,
                       inner: int, tb: seq<string>, tl: int, eb: seq<string>, el: int, rest: nat)
    requires InRange(code, pos) && i < |code| && code[i] == CondJump(c, t, Some(f)) && fuel > 0 && rest == fuel - 1
    requires t in pos && f in pos && tFrom == pos[t] + 1 && fStop == pos[f] && fFrom == fStop + 1
    requires e == LastJump(code, pos[t], fStop) && eStop == EndPos(code, pos, e) && next == eStop + 1
    requires inner == level + 1 && TopBranch(code, pos, tFrom, fStop, e, inner, rest) == Done(tb, tl)
    requires TopBranch(code, pos, fFrom, eStop, None, tl, rest) == Done(eb, el)
    ensures BodyFrom(code, pos, i, level, fuel)
      == Then(IfLine(code[i], level) + tb + [Indent(level) + "else:"] + eb, BodyFrom(code, pos, next, el - 1, rest))
  {
  }

  /** A label defined at exactly one index is stored with that index. */
  lemma PositionOfSoleLabel(code: seq<Instr>, k: nat)
    requires k < |code| && code[k].Label?
    requires forall m :: 0 <= m < |code| && m != k ==> code[m] != code[k]
    ensures code[k].name in Positions(code) && Positions(code)[code[k].name] == k
  {
    PositionsOfLabels(code);
    assert code[k] in code;
  }

  // ---- if/else and if-only blocks as the root IR generator lowers them ----

  /** `CondJump(c, T, F); Label T; a; Jump E; Label F; b; Label E`. */
  function IfElseCode(c: Operand, t: nat, f: nat, e: nat, a: seq<Instr>, b: seq<Instr>): seq<Instr>
  {
    [CondJump(c, t, Some(f)), Label(t)] + a + [Jump(e), Label(f)] + b + [Label(e)]
  }

  /** Where each part of `IfElseCode` lies; labels stand only at the three label positions. */
  lemma IfElseLayout(c: Operand, t: nat, f: nat, e: nat, a: seq<Instr>, b: seq<Instr>)
    requires Simple(a) && Simple(b)
    ensures var code := IfElseCode(c, t, f, e, a, b); var n := |a|;
      |code| == n + |b| + 5 && code[2..n + 2] == a && code[n + 4..n + |b| + 4] == b &&
      code[0] == CondJump(c, t, Some(f)) && code[1] == Label(t) && code[n + 2] == Jump(e) &&
      code[n + 3] == Label(f) && code[n + |b| + 4] == Label(e) &&
      forall m :: 0 <= m < |code| && code[m].Label? ==> m == 1 || m == n + 3 || m == n + |b| + 4
  {
    var code := IfElseCode(c, t, f, e, a, b);
    var n := |a|;
    forall m | 0 <= m < |code| && code[m].Label?
      ensures m == 1 || m == n + 3 || m == n + |b| + 4
    {
      if 2 <= m < n + 2 {
        assert code[m] == a[m - 2];
        SimpleAt(a, m - 2);
      } else if n + 4 <= m < n + |b| + 4 {
        assert code[m] == b[m - n - 4];
        SimpleAt(b, m - n - 4);
      }
    }
    assert code[2..n + 2] == a;
    assert code[n + 4..n + |b| + 4] == b;
  }

  /** With three distinct labels, each is stored at the one place it stands. */
  lemma ThreeLabels(code: seq<Instr>, x: nat, y: nat, z: nat)
    requires x < |code| && y < |code| && z < |code|
    requires code[x].Label? && code[y].Label? && code[z].Label?
    requires code[x] != code[y] && code[y] != code[z] && code[x] != code[z]
    requires forall m :: 0 <= m < |code| && code[m].Label? ==> m == x || m == y || m == z
    ensures var pos := Positions(code);
      code[x].name in pos && pos[code[x].name] == x && code[y].name in pos && pos[code[y].name] == y &&
      code[z].name in pos && pos[code[z].name] == z
  {
    PositionOfSoleLabel(code, x);
    PositionOfSoleLabel(code, y);
    PositionOfSoleLabel(code, z);
  }

  /** The positions and the end label the walk finds for an if-else laid out as `IfElseCode` lays it out. */
  lemma IfElseShapeAt(code: seq<Instr>, n: nat, m: nat, c: Operand, t: nat, f: nat, e: nat)
    requires |code| == n + m + 5 && t != f && f != e && t != e
    requires code[0] == CondJump(c, t, Some(f)) && code[1] == Label(t) && code[n + 2] == Jump(e)
    requires code[n + 3] == Label(f) && code[n + m + 4] == Label(e)
    requires forall k :: 0 <= k < |code| && code[k].Label? ==> k == 1 || k == n + 3 || k == n + m + 4
    ensures var pos := Positions(code);
      t in pos && f in pos && e in pos && pos[t] == 1 && pos[f] == n + 3 && pos[e] == n + m + 4 &&
      LastJump(code, 1, n + 3) == Some(e) && EndPos(code, pos, Some(e)) == n + m + 4
  {
    ThreeLabels(code, 1, n + 3, n + m + 4);
    assert LastJump(code, 1, n + 3) == Some(e);
  }

  /** The true branch loop of an if-else laid out as `IfElseCode` lays it out: its lines, and the jump to the end written as nothing. */
  lemma IfElseTrueBranch(code: seq<Instr>, pos: map<nat, nat>, n: nat, e: nat, level: int, fuel: nat)
    requires InRange(code, pos) && n + 3 <= |code| && fuel >= n + 1
    requires code[n + 2].Jump? && Simple(code[2..n + 2])
    ensures TopBranch(code, pos, 2, n + 3, Some(e), level, fuel) == Done(SimpleLines(code[2..n + 2], level), level)
  {
    TopBranchStraight(code, pos, 2, n + 2, n + 3, Some(e), level, fuel);
  }

  /** The false branch loop of an if-else laid out as `IfElseCode` lays it out: its lines up to the end label. */
  lemma IfElseFalseBranch(code: seq<Instr>, pos: map<nat, nat>, n: nat, m: nat, level: int, fuel: nat)
    requires InRange(code, pos) && n + m + 4 <= |code| && fuel >= m
    requires Simple(code[n + 4..n + m + 4])
    ensures TopBranch(code, pos, n + 4, n + m + 4, None, level, fuel) == Done(SimpleLines(code[n + 4..n + m + 4], level), level)
  {
    TopBranchStraight(code, pos, n + 4, n + m + 4, n + m + 4, None, level, fuel);
  }

  /** The main walk over an if-else whose labels and end label are where `IfElseCode` puts them, given what its two branch loops write. */
  lemma IfElseWalk(code: seq<Instr>, pos: map<nat, nat>, n: nat, m: nat, c: Operand, t: nat, f: nat, e: nat,
                   level: int, inner: int, fuel: nat, rest: nat, tb: seq<string>, eb: seq<string>)
    requires InRange(code, pos) && |code| == n + m + 5 && fuel >= n + m + 5 && code[0] == CondJump(c, t, Some(f))
    requires t in pos && f in pos && pos[t] == 1 && pos[f] == n + 3
    requires LastJump(code, 1, n + 3) == Some(e) && EndPos(code, pos, Some(e)) == n + m + 4
    requires inner == level + 1 && rest == fuel - 1
    requires TopBranch(code, pos, 2, n + 3, Some(e), inner, rest) == Done(tb, inner)
    requires TopBranch(code, pos, n + 4, n + m + 4, None, inner, rest) == Done(eb, inner)
    ensures BodyFrom(code, pos, 0, level, fuel) == Done(IfLine(code[0], level) + tb + [Indent(level) + "else:"] + eb, level)
  {
    BodyIfElseStep(code, pos, 0, level, fuel, c, t, f, 2, n + 3, Some(e), n + 4, n + m + 4, n + m + 5, inner, tb, inner, eb, inner, rest);
    var lines := IfLine(code[0], level) + tb + [Indent(level) + "else:"] + eb;
    assert BodyFrom(code, pos, n + m + 5, level, rest) == Done([], level);
    assert lines + [] == lines;
  }

  /** The main walk over an if-else laid out as `IfElseCode` lays it out, with straight-line branches. */
  lemma IfElseStraight(code: seq<Instr>, pos: map<nat, nat>, n: nat, m: nat, c: Operand, t: nat, f: nat, e: nat,
                       level: int, inner: int, fuel: nat, rest: nat)
    requires InRange(code, pos) && |code| == n + m + 5 && fuel >= n + m + 5 && code[0] == CondJump(c, t, Some(f))
    requires t in pos && f in pos && pos[t] == 1 && pos[f] == n + 3
    requires LastJump(code, 1, n + 3) == Some(e) && EndPos(code, pos, Some(e)) == n + m + 4
    requires code[n + 2].Jump? && Simple(code[2..n + 2]) && Simple(code[n + 4..n + m + 4])
    requires inner == level + 1 && rest == fuel - 1
    ensures BodyFrom(code, pos, 0, level, fuel)
      == Done(IfLine(code[0], level) + SimpleLines(code[2..n + 2], inner) + [Indent(level) + "else:"] + SimpleLines(code[n + 4..n + m + 4], inner), level)
  {
    IfElseTrueBranch(code, pos, n, e, inner, rest);
    IfElseFalseBranch(code, pos, n, m, inner, rest);
    IfElseWalk(code, pos, n, m, c, t, f, e, level, inner, fuel, rest, SimpleLines(code[2..n + 2], inner), SimpleLines(code[n + 4..n + m + 4], inner));
  }

  /** The body written for an if-else laid out as `IfElseCode` lays it out, with the positions found from the code itself. */
  lemma IfElseBody(code: seq<Instr>, n: nat, m: nat, c: Operand, t: nat, f: nat, e: nat, fuel: nat)
    requires |code| == n + m + 5 && fuel >= n + m + 5 && t != f && f != e && t != e
    requires code[0] == CondJump(c, t, Some(f)) && code[1] == Label(t) && code[n + 2] == Jump(e)
    requires code[n + 3] == Label(f) && code[n + m + 4] == Label(e)
    requires forall k :: 0 <= k < |code| && code[k].Label? ==> k == 1 || k == n + 3 || k == n + m + 4
    requires Simple(code[2..n + 2]) && Simple(code[n + 4..n + m + 4])
    ensures BodyLines(code, fuel)
      == Some(IfLine(code[0], 1) + SimpleLines(code[2..n + 2], 2) + [Indent(1) + "else:"] + SimpleLines(code[n + 4..n + m + 4], 2))
  {
    IfElseShapeAt(code, n, m, c, t, f, e);
    IfElseStraight(code, Positions(code), n, m, c, t, f, e, 1, 2, fuel, fuel - 1);
  }

  /** The lines a top-level `if` writes around its branches, spelt out. */
  lemma IfLinesAtOne(ins: Instr)
    requires ins.CondJump?
    ensures IfLine(ins, 1) == ["    if " + OperandText(ins.condition) + ":"]
    ensures [Indent(1) + "else:"] == ["    else:"]
  {
    assert Indent(0) == "";
    assert Indent(1) == "    ";
    assert "    " + "if " == "    if ";
    assert "    " + "else:" == "    else:";
  }

  /**
   * An if-else lowered as the root IR generator does it, with straight-line branches, is
   * written back as one `if`/`else` pair: the condition line, the true branch one level
   * deeper, `else:`, the false branch one level deeper, and no jump or label left over.
   */
  lemma IfElseReconstructed(c: Operand, t: nat, f: nat, e: nat, a: seq<Instr>, b: seq<Instr>, fuel: nat)
    requires Simple(a) && Simple(b) && t != f && f != e && t != e
    requires fuel >= |a| + |b| + 5
    ensures BodyLines(IfElseCode(c, t, f, e, a, b), fuel)
      == Some(["    if " + OperandText(c) + ":"] + SimpleLines(a, 2) + ["    else:"] + SimpleLines(b, 2))
  {
    var code := IfElseCode(c, t, f, e, a, b);
    var n, m := |a|, |b|;
    IfElseLayout(c, t, f, e, a, b);
    IfElseBody(code, n, m, c, t, f, e, fuel);
    IfLinesAtOne(code[0]);
  }

  /**
   * One step of the main walk at an if-only conditional jump whose label is known: the `if`
   * line, the branch from just past the label to the next other label, and the walk goes on
   * from that label one level shallower than the branch ended.
   */
  lemma BodyIfOnlyStep(code: seq<Instr>, pos: map<nat, nat>, i: nat, level: int, fuel: nat, c: Operand, t: nat,
                       tFrom: nat, stop: nat, inner: int, tb: seq<string>, tl: int, rest: nat)
    requires InRange(code, pos) && i < |code| && code[i] == CondJump(c, t, None)
    requires t in pos && tFrom == pos[t] + 1 && stop == NextOtherLabel(code, tFrom, t) && fuel > 0 && rest == fuel - 1
    requires inner == level + 1 && IfOnlyBranch(code, tFrom, stop, inner, rest) == Done(tb, tl)
    ensures BodyFrom(code, pos, i, level, fuel) == Then(IfLine(code[i], level) + tb, BodyFrom(code, pos, stop, tl - 1, rest))
  {
  }

  /** The if-only branch of `IfOnlyCode` stops at the end label. */
  lemma IfOnlyEnd(code: seq<Instr>, n: nat, t: nat)
    requires n + 3 <= |code| && code[n + 2].Label? && code[n + 2].name != t && Simple(code[2..n + 2])
    ensures NextOtherLabel(code, 2, t) == n + 2
  {
    NextOtherLabelFinds(code, 2, t);
    var k := NextOtherLabel(code, 2, t);
    if k < n + 2 {
      SimpleAt(code[2..n + 2], k - 2);
    }
  }

  /** The main walk over an if-only block laid out as `IfOnlyCode` lays it out. */
  lemma IfOnlyWalk(code: seq<Instr>, pos: map<nat, nat>, n: nat, c: Operand, t: nat, level: int, inner: int, fuel: nat, rest: nat)
    requires InRange(code, pos) && |code| == n + 3 && fuel >= n + 4 && code[0] == CondJump(c, t, None)
    requires t in pos && pos[t] == 1 && code[n + 2].Label? && code[n + 2].name != t && Simple(code[2..n + 2])
    requires inner == level + 1 && rest == fuel - 1
    ensures BodyFrom(code, pos, 0, level, fuel) == Done(IfLine(code[0], level) + SimpleLines(code[2..n + 2], inner), level)
  {
    var tb := SimpleLines(code[2..n + 2], inner);
    IfOnlyEnd(code, n, t);
    IfOnlyStraight(code, 2, n + 2, inner, rest);
    BodyIfOnlyStep(code, pos, 0, level, fuel, c, t, 2, n + 2, inner, tb, inner, rest);
    BodyLastLabel(code, pos, n + 2, level, rest);
    var lines := IfLine(code[0], level) + tb;
    assert lines + [] == lines;
  }

  /** A label as the last instruction adds nothing and keeps the level. */
  lemma BodyLastLabel(code: seq<Instr>, pos: map<nat, nat>, i: nat, level: int, fuel: nat)
    requires InRange(code, pos) && i + 1 == |code| && code[i].Label? && fuel > 0
    ensures BodyFrom(code, pos, i, level, fuel) == Done([], level)
  {
    assert BodyFrom(code, pos, i + 1, level, fuel - 1) == Done([], level);
  }

  /** `CondJump(c, T); Label T; a; Label E`. */
  function IfOnlyCode(c: Operand, t: nat, e: nat, a: seq<Instr>): seq<Instr>
  {
    [CondJump(c, t, None), Label(t)] + a + [Label(e)]
  }

  /** Where each part of `IfOnlyCode` lies; labels stand only at the two label positions. */
  lemma IfOnlyLayout(c: Operand, t: nat, e: nat, a: seq<Instr>)
    requires Simple(a) && t != e
    ensures var code := IfOnlyCode(c, t, e, a); var n := |a|;
      |code| == n + 3 && code[2..n + 2] == a && code[0] == CondJump(c, t, None) &&
      code[1] == Label(t) && code[n + 2] == Label(e) &&
      forall m :: 0 <= m < |code| && m != 1 ==> code[m] != code[1]
  {
    var code := IfOnlyCode(c, t, e, a);
    var n := |a|;
    forall m | 0 <= m < |code| && m != 1
      ensures code[m] != code[1]
    {
      if 2 <= m < n + 2 {
        assert code[m] == a[m - 2];
        SimpleAt(a, m - 2);
      } else if m == n + 2 {
        assert code[m] == Label(e);
      } else {
        assert code[m] == CondJump(c, t, None);
      }
    }
    assert code[2..n + 2] == a;
  }

  /** An if without else, lowered as the root IR generator does it, is written back as one `if` block. */
  lemma IfOnlyReconstructed(c: Operand, t: nat, e: nat, a: seq<Instr>, fuel: nat)
    requires Simple(a) && t != e && fuel >= |a| + 4
    ensures BodyLines(IfOnlyCode(c, t, e, a), fuel) == Some(["    if " + OperandText(c) + ":"] + SimpleLines(a, 2))
  {
    var code := IfOnlyCode(c, t, e, a);
    IfOnlyLayout(c, t, e, a);
    PositionOfSoleLabel(code, 1);
    IfOnlyWalk(code, Positions(code), |a|, c, t, 1, 2, fuel, fuel - 1);
    IfLinesAtOne(code[0]);
  }

  // ---- for loops ----

  /** A `for` header: its line at the current level, and the walk goes on one level deeper from the next instruction. */
  lemma BodyForStartStep(code: seq<Instr>, pos: map<nat, nat>, i: nat, level: int, fuel: nat, v: string, it: Operand, next: nat, inner: int, rest: nat)
    requires InRange(code, pos) && i < |code| && code[i] == ForLoopStart(v, it)
    requires next == i + 1 && inner == level + 1 && fuel == rest + 1
    ensures BodyFrom(code, pos, i, level, fuel) == Then([ForLine(v, it, level)], BodyFrom(code, pos, next, inner, rest))
  {
  }

  /** A loop end inside a body: nothing written, and the walk goes on one level shallower from the next instruction. */
  lemma BodyForEndStep(code: seq<Instr>, pos: map<nat, nat>, i: nat, level: int, fuel: nat, next: nat, outer: int, rest: nat)
    requires InRange(code, pos) && i < |code| && code[i] == ForLoopEnd && level >= 2
    requires next == i + 1 && outer == level - 1 && fuel == rest + 1
    ensures BodyFrom(code, pos, i, level, fuel) == BodyFrom(code, pos, next, outer, rest)
  {
    assert ProcessSingle(code[i], level) == Single(None, level - 1);
  }

  /** The main walk over a `for` block: the header, the body one level deeper, and back at the outer level after the loop end. */
  lemma ForBlockWalk(code: seq<Instr>, pos: map<nat, nat>, n: nat, v: string, it: Operand, level: int, fuel: nat, rest: nat)
    requires InRange(code, pos) && n + 2 <= |code| && level >= 1 && fuel == rest + n + 2
    requires code[0] == ForLoopStart(v, it) && code[n + 1] == ForLoopEnd && Simple(code[1..n + 1])
    ensures BodyFrom(code, pos, 0, level, fuel)
      == Then([ForLine(v, it, level)] + SimpleLines(code[1..n + 1], level + 1), BodyFrom(code, pos, n + 2, level, rest))
  {
    var inner, f1 := level + 1, rest + n + 1;
    BodyForStartStep(code, pos, 0, level, fuel, v, it, 1, inner, f1);
    ForBodyRest(code, pos, n, level, inner, f1, rest);
    ThenThen([ForLine(v, it, level)], SimpleLines(code[1..n + 1], inner), BodyFrom(code, pos, n + 2, level, rest));
  }

  /** Inside a for block: the simple body one level deeper, then the end marker returns to `level`. */
  lemma ForBodyRest(code: seq<Instr>, pos: map<nat, nat>, n: nat, level: int, inner: int, f1: nat, rest: nat)
    requires InRange(code, pos) && n + 2 <= |code| && level >= 1 && inner == level + 1 && f1 == rest + n + 1
    requires code[n + 1] == ForLoopEnd && Simple(code[1..n + 1])
    ensures BodyFrom(code, pos, 1, inner, f1) == Then(SimpleLines(code[1..n + 1], inner), BodyFrom(code, pos, n + 2, level, rest))
  {
    var f2 := rest + 1;
    BodyStraight(code, pos, 1, n + 1, inner, f1, f2);
    BodyForEndStep(code, pos, n + 1, inner, f2, n + 2, level, rest);
  }

  /** The main walk over a `for` block followed by straight-line code. */
  lemma ForLoopWalk(code: seq<Instr>, pos: map<nat, nat>, n: nat, v: string, it: Operand, level: int, fuel: nat)
    requires InRange(code, pos) && n + 2 <= |code| && level >= 1 && fuel >= |code|
    requires code[0] == ForLoopStart(v, it) && code[n + 1] == ForLoopEnd
    requires Simple(code[1..n + 1]) && Simple(code[n + 2..|code|])
    ensures BodyFrom(code, pos, 0, level, fuel)
      == Done([ForLine(v, it, level)] + SimpleLines(code[1..n + 1], level + 1) + SimpleLines(code[n + 2..|code|], level), level)
  {
    var block := [ForLine(v, it, level)] + SimpleLines(code[1..n + 1], level + 1);
    var after := SimpleLines(code[n + 2..|code|], level);
    var f3, f4 := fuel - 2 - n, fuel - |code|;
    ForBlockWalk(code, pos, n, v, it, level, fuel, f3);
    BodyStraight(code, pos, n + 2, |code|, level, f3, f4);
    assert BodyFrom(code, pos, |code|, level, f4) == Done([], level);
    assert block + (after + []) == block + after;
  }

  /** The `for` header a top-level loop writes, spelt out. */
  lemma ForLineAtOne(v: string, it: Operand)
    ensures ForLine(v, it, 1) == "    for " + v + " in " + OperandText(it) + ":"
  {
    assert Indent(0) == "";
    assert Indent(1) == "    ";
    assert "    " + "for " == "    for ";
  }

  /** `ForLoopStart(v, it); a; ForLoopEnd; b`. */
  function ForLoopCode(v: string, it: Operand, a: seq<Instr>, b: seq<Instr>): seq<Instr>
  {
    [ForLoopStart(v, it)] + a + [ForLoopEnd] + b
  }

  /** Where each part of `ForLoopCode` lies. */
  lemma ForLoopLayout(v: string, it: Operand, a: seq<Instr>, b: seq<Instr>)
    ensures var code := ForLoopCode(v, it, a, b); var n := |a|;
      |code| == n + |b| + 2 && code[0] == ForLoopStart(v, it) && code[n + 1] == ForLoopEnd &&
      code[1..n + 1] == a && code[n + 2..|code|] == b
  {
    var code := ForLoopCode(v, it, a, b);
    assert code[1..|a| + 1] == a;
    assert code[|a| + 2..|code|] == b;
  }

  /** The body written for a `for` block followed by straight-line code, at the function-body level. */
  lemma ForLoopBody(code: seq<Instr>, n: nat, v: string, it: Operand, fuel: nat)
    requires n + 2 <= |code| && fuel >= |code|
    requires code[0] == ForLoopStart(v, it) && code[n + 1] == ForLoopEnd
    requires Simple(code[1..n + 1]) && Simple(code[n + 2..|code|])
    ensures BodyLines(code, fuel) == Some([ForLine(v, it, 1)] + SimpleLines(code[1..n + 1], 2) + SimpleLines(code[n + 2..|code|], 1))
  {
    ForLoopWalk(code, Positions(code), n, v, it, 1, fuel);
  }

  /** A `for` loop with a straight-line body, then straight-line code: the body goes one level deeper and the code after it back at level 1. */
  lemma ForLoopReconstructed(v: string, it: Operand, a: seq<Instr>, b: seq<Instr>, fuel: nat)
    requires Simple(a) && Simple(b) && fuel >= |a| + |b| + 2
    ensures BodyLines(ForLoopCode(v, it, a, b), fuel)
      == Some(["    for " + v + " in " + OperandText(it) + ":"] + SimpleLines(a, 2) + SimpleLines(b, 1))
  {
    ForLoopLayout(v, it, a, b);
    ForLoopBody(ForLoopCode(v, it, a, b), |a|, v, it, fuel);
    ForLineAtOne(v, it);
  }
}
