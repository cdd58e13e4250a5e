/**
 * What `generate_python_code` of src/vypr/code_generator.py promises about the program it
 * writes: the header comment first, every non-main function in table order as its joined
 * code followed by a blank part, and `main` with the call guard last exactly when the table
 * has a `main`.
 */
module VyprProgram {
  import opened Wrappers
  import opened Text
  import opened IR
  import opened Render
  import opened VyprCodegen

  /** The code written for a non-main function, headed by its `def` line. */
  function Code(f: FunctionIR, fuel: nat): Option<seq<string>>
  {
    FunctionCode(Header(f), f.instructions, fuel)
  }

  /** The non-main parts are defined exactly when every non-main function's code is. */
  predicate AllWritten(nm: seq<FunctionIR>, fuel: nat)
  {
    forall k :: 0 <= k < |nm| ==> Code(nm[k], fuel).Some?
  }

  /** Two parts per non-main function, in order: its code joined with newlines, then a blank part. */
  predicate PairedParts(v: seq<string>, nm: seq<FunctionIR>, fuel: nat)
    requires AllWritten(nm, fuel)
  {
    |v| == 2 * |nm| &&
    forall k :: 0 <= k < |nm| ==> v[2 * k] == Join(Code(nm[k], fuel).value, "\n") && v[2 * k + 1] == ""
  }

  lemma AllWrittenAppend(nm: seq<FunctionIR>, f: FunctionIR, fuel: nat)
    ensures AllWritten(nm + [f], fuel) <==> AllWritten(nm, fuel) && Code(f, fuel).Some?
  {
    var nm1 := nm + [f];
    assert nm1[|nm|] == f;
    if AllWritten(nm, fuel) && Code(f, fuel).Some? {
      forall k | 0 <= k < |nm1| ensures Code(nm1[k], fuel).Some? {
        if k < |nm| {
          assert nm1[k] == nm[k];
        }
      }
    }
    if AllWritten(nm1, fuel) {
      forall k | 0 <= k < |nm| ensures Code(nm[k], fuel).Some? {
        assert nm1[k] == nm[k];
      }
    }
  }

  lemma PairedAppend(v: seq<string>, nm: seq<FunctionIR>, f: FunctionIR, fuel: nat)
    requires Code(f, fuel).Some? && AllWritten(nm, fuel) && AllWritten(nm + [f], fuel) && PairedParts(v, nm, fuel)
    ensures PairedParts(v + [Join(Code(f, fuel).value, "\n"), ""], nm + [f], fuel)
  {
    var v1, nm1 := v + [Join(Code(f, fuel).value, "\n"), ""], nm + [f];
    forall k | 0 <= k < |nm1|
      ensures v1[2 * k] == Join(Code(nm1[k], fuel).value, "\n") && v1[2 * k + 1] == ""
    {
      if k < |nm| {
        assert nm1[k] == nm[k];
      }
    }
  }

  /** The loop over `self.ir_functions`: defined iff every non-main function is, and then paired in order. */
  lemma {:induction false} NonMainPartsShape(fs: seq<FunctionIR>, fuel: nat)
    ensures NonMainParts(fs, fuel).Some? <==> AllWritten(NonMain(fs), fuel)
    ensures NonMainParts(fs, fuel).Some? ==> PairedParts(NonMainParts(fs, fuel).value, NonMain(fs), fuel)
  {
    if |fs| > 0 {
      var init, f := fs[..|fs| - 1], fs[|fs| - 1];
      NonMainPartsShape(init, fuel);
      if f.name != "main" {
        var nm0 := NonMain(init);
        assert NonMain(fs) == nm0 + [f];
        AllWrittenAppend(nm0, f, fuel);
        if AllWritten(nm0 + [f], fuel) {
          var v0 := NonMainParts(init, fuel).value;
          assert NonMainParts(fs, fuel).value == v0 + [Join(Code(f, fuel).value, "\n"), ""];
          PairedAppend(v0, nm0, f, fuel);
        }
      } else {
        assert NonMain(fs) == NonMain(init) + [];
        assert NonMainParts(fs, fuel) == NonMainParts(init, fuel);
      }
    }
  }

  /** The parts the program is joined from start with the header comment and a blank line. */
  lemma ProgramStartsWithHeader(fs: seq<FunctionIR>, fuel: nat)
    requires ProgramParts(fs, fuel).Some?
    ensures var p := ProgramParts(fs, fuel).value;
      |p| >= 2 && p[0] == "# Generated Python code" && p[1] == ""
  {
  }

  /** The program is written exactly when every non-main function's code is, and `main`'s when there is one. */
  lemma ProgramDefined(fs: seq<FunctionIR>, fuel: nat)
    ensures ProgramParts(fs, fuel).Some? <==>
      AllWritten(NonMain(fs), fuel) && (HasMain(fs) ==> FunctionCode("def main():", MainOf(fs).instructions, fuel).Some?)
  {
    NonMainPartsShape(fs, fuel);
  }

  /**
   * After the header come the non-main functions in table order, two parts each; when there is
   * a `main` its code follows them and the last part is the call `main()` under the guard,
   * and otherwise the last part is blank.
   */
  lemma ProgramLayout(fs: seq<FunctionIR>, fuel: nat)
    requires ProgramParts(fs, fuel).Some?
    ensures var p, nm := ProgramParts(fs, fuel).value, NonMain(fs);
      AllWritten(nm, fuel) && |p| >= 2 + 2 * |nm| && PairedParts(p[2..2 + 2 * |nm|], nm, fuel) &&
      (HasMain(fs) ==>
         |p| == 2 * |nm| + 6 &&
         p[2 + 2 * |nm|] == Join(FunctionCode("def main():", MainOf(fs).instructions, fuel).value, "\n") &&
         p[|p| - 2..] == ["if __name__ == '__main__':", "    main()"]) &&
      (!HasMain(fs) ==> |p| == 2 * |nm| + 2 && p[|p| - 1] == "")
  {
    NonMainPartsShape(fs, fuel);
    var p, nm := ProgramParts(fs, fuel).value, NonMain(fs);
    var rest := NonMainParts(fs, fuel).value;
    var header := ["# Generated Python code", ""];
    assert p[..2 + |rest|] == header + rest;
    assert p[2..2 + 2 * |nm|] == rest;
    if !HasMain(fs) && |nm| > 0 {
      assert p[|p| - 1] == rest[2 * (|nm| - 1) + 1];
    }
  }

  /** The last part is the call of `main` exactly when the table has a `main`. */
  lemma MainCalledIffPresent(fs: seq<FunctionIR>, fuel: nat)
    requires ProgramParts(fs, fuel).Some?
    ensures var p := ProgramParts(fs, fuel).value;
      p[|p| - 1] == "    main()" <==> HasMain(fs)
  {
    ProgramLayout(fs, fuel);
  }

  /** Each non-main function's part opens with its own `def` line. */
  lemma FunctionPartStartsWithHeader(fs: seq<FunctionIR>, fuel: nat, k: nat)
    requires ProgramParts(fs, fuel).Some? && k < |NonMain(fs)|
    ensures var p, f := ProgramParts(fs, fuel).value, NonMain(fs)[k];
      2 + 2 * k < |p| && |p[2 + 2 * k]| >= |Header(f)| && p[2 + 2 * k][..|Header(f)|] == Header(f)
  {
    ProgramLayout(fs, fuel);
    var p, nm := ProgramParts(fs, fuel).value, NonMain(fs);
    assert p[2..2 + 2 * |nm|][2 * k] == p[2 + 2 * k];
    JoinStartsWithFirst(Code(nm[k], fuel).value, "\n");
  }

  /** The functions written before `main` are exactly the table's other functions. */
  lemma {:induction false} NonMainMembers(fs: seq<FunctionIR>)
    ensures forall f :: f in NonMain(fs) <==> f in fs && f.name != "main"
  {
    if |fs| > 0 {
      NonMainMembers(fs[..|fs| - 1]);
      assert fs == fs[..|fs| - 1] + [fs[|fs| - 1]];
    }
  }

  /** With distinct names, every function but `main` is written once: one fewer than the table when it has a `main`. */
  lemma {:induction false} NonMainCount(fs: seq<FunctionIR>)
    requires DistinctNames(fs)
    ensures |NonMain(fs)| == |fs| - (if HasMain(fs) then 1 else 0)
  {
    if |fs| > 0 {
      var init, f := fs[..|fs| - 1], fs[|fs| - 1];
      assert DistinctNames(init);
      NonMainCount(init);
      if f.name == "main" {
        assert !HasMain(init);
        assert HasMain(fs);
      } else if HasMain(fs) {
        var i :| 0 <= i < |fs| && fs[i].name == "main";
        assert init[i] == fs[i];
      }
    }
  }
}
