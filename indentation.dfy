/**
 * The indentation stack both lexers keep: a strictly increasing list of column widths
 * whose first entry is 0. A wider line pushes its width, a narrower one pops every wider
 * entry and must land on its own width, an equal one changes nothing.
 */
module Indentation {
  import opened Wrappers
  import opened Text

  predicate IsStack(st: seq<int>)
  {
    |st| > 0 && st[0] == 0 && forall i, j :: 0 <= i < j < |st| ==> st[i] < st[j]
  }

  function Top(st: seq<int>): int
    requires |st| > 0
  {
    st[|st| - 1]
  }

  /** `while width < stack[-1]: stack.pop()` */
  function PopWider(st: seq<int>, width: nat): (r: seq<int>)
    requires IsStack(st)
    ensures IsStack(r) && |r| <= |st| && r == st[..|r|]
    ensures Top(r) <= width
    ensures forall i :: |r| <= i < |st| ==> st[i] > width
    decreases |st|
  {
    if width < Top(st) then PopWider(st[..|st| - 1], width) else st
  }

  /** What one measured line does to the stack: one INDENT, nothing, or k DEDENTs. */
  datatype Change = Push | Stay | Pop(count: nat)

  /** The stack update of process_indentation; None is the indentation error it raises. */
  function Step(st: seq<int>, width: nat): Option<(seq<int>, Change)>
    requires IsStack(st)
  {
    if width > Top(st) then Some((st + [width], Push))
    else
      var r := PopWider(st, width);
      if Top(r) != width then None
      else if |r| == |st| then Some((r, Stay))
      else Some((r, Pop(|st| - |r|)))
  }

  /** The outcome of a step that is not a push, once the wider entries are popped. */
  lemma PoppedStep(st: seq<int>, width: nat, r: seq<int>)
    requires IsStack(st) && width <= Top(st) && r == PopWider(st, width)
    ensures Top(r) != width ==> Step(st, width).None?
    ensures Top(r) == width && |r| == |st| ==> Step(st, width) == Some((r, Stay))
    ensures Top(r) == width && |r| != |st| ==> Step(st, width) == Some((r, Pop(|st| - |r|)))
  {
  }

  /** Every successful step keeps the stack strictly increasing from 0, and it ends on the width. */
  lemma StepKeepsStack(st: seq<int>, width: nat)
    requires IsStack(st) && Step(st, width).Some?
    ensures IsStack(Step(st, width).value.0) && Top(Step(st, width).value.0) == width
  {
  }

  /** A step fails exactly when the line is narrower than the top and its width was never pushed. */
  lemma {:induction false} StepFailsIff(st: seq<int>, width: nat)
    requires IsStack(st)
    ensures Step(st, width).None? <==> (width < Top(st) && width !in st)
  {
    var r := PopWider(st, width);
    if width < Top(st) && width in st {
      var k :| 0 <= k < |st| && st[k] == width;
      assert k < |r|;
      assert r[k] == width;
      assert Top(r) == width;
    }
    if width < Top(st) && width !in st {
      assert Top(r) in st;
    }
  }

  /** A pop step removes exactly the entries wider than the line, one DEDENT per entry. */
  lemma {:induction false} PopCountIsWiderEntries(st: seq<int>, width: nat)
    requires IsStack(st) && Step(st, width).Some? && Step(st, width).value.1.Pop?
    ensures var (r, c) := Step(st, width).value;
      r == st[..|st| - c.count] && c.count > 0 &&
      (forall i :: 0 <= i < |st| ==> (i >= |st| - c.count <==> st[i] > width))
  {
    var (r, c) := Step(st, width).value;
    assert r == PopWider(st, width);
    forall i | 0 <= i < |st| ensures i >= |r| <==> st[i] > width {
      if i < |r| {
        assert st[i] == r[i];
        if i < |r| - 1 { assert r[i] < r[|r| - 1]; }
      }
    }
  }

  /** The change in stack depth is +1 for a push and -k for k pops. */
  lemma DepthChange(st: seq<int>, width: nat)
    requires IsStack(st) && Step(st, width).Some?
    ensures var (r, c) := Step(st, width).value;
      |r| - |st| == match c case Push => 1 case Stay => 0 case Pop(k) => -(k as int)
  {
  }

  // ---- measuring a line's leading blanks ----

  /** Blank for indentation purposes in src/vypr/lexer.py: whitespace other than a newline. */
  predicate IsBlank(c: char) { IsSpace(c) && c != '\n' }

  /** End of the run of blanks that starts at i. */
  function BlankRunEnd(text: string, i: nat): (e: nat)
    requires i <= |text|
    ensures i <= e <= |text|
    ensures forall k :: i <= k < e ==> IsBlank(text[k])
    ensures e < |text| ==> !IsBlank(text[e])
    decreases |text| - i
  {
    if i < |text| && IsBlank(text[i]) then BlankRunEnd(text, i + 1) else i
  }

  /** Width of a run of blanks as src/vypr/lexer.py counts it: a tab is 4, any other blank is 1. */
  function BlankWidth(run: string): nat
  {
    if |run| == 0 then 0 else BlankWidth(run[..|run| - 1]) + (if run[|run| - 1] == '\t' then 4 else 1)
  }

  function CountTabs(s: string): nat
  {
    if |s| == 0 then 0 else CountTabs(s[..|s| - 1]) + (if s[|s| - 1] == '\t' then 1 else 0)
  }

  /** The measured width is the number of blanks plus three more for every tab. */
  lemma {:induction false} BlankWidthCountsTabsAsFour(run: string)
    ensures BlankWidth(run) == |run| + 3 * CountTabs(run)
  {
    if |run| > 0 {
      BlankWidthCountsTabsAsFour(run[..|run| - 1]);
    }
  }

  /** End of the run of plain spaces that starts at i (the root lexer counts only ' '). */
  function SpaceRunEnd(text: string, i: nat): (e: nat)
    requires i <= |text|
    ensures i <= e <= |text|
    ensures forall k :: i <= k < e ==> text[k] == ' '
    ensures e < |text| ==> text[e] != ' '
    decreases |text| - i
  {
    if i < |text| && text[i] == ' ' then SpaceRunEnd(text, i + 1) else i
  }
}
