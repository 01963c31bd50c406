/** Runs between opcode boundaries.  Every opcode's code starts with `mov r12, opcode` and nothing else
    contains that instruction, so a run on a plane without it is a run inside one opcode. */
module Between {
  import opened Words
  import opened Wasm
  import opened X86
  import opened Codegen
  import opened Layout

  predicate IsDbg(c: Cell) { c.Ins? && c.i.R? && c.i.regOp.MovR12? }

  /** The state is at the start of an opcode's code. */
  predicate AtDbg(plane: seq<Cell>, pc: int) { 0 <= pc < |plane| && IsDbg(plane[pc]) }

  /** The plane with the start of every opcode made impassable. */
  function Muted(plane: seq<Cell>): (r: seq<Cell>)
    ensures |r| == |plane|
  {
    seq(|plane|, i requires 0 <= i < |plane| => if IsDbg(plane[i]) then Hlt else plane[i])
  }

  lemma MutedTable(plane: seq<Cell>, c: Cpu)
    ensures BranchTableProc(Muted(plane), c) == BranchTableProc(plane, c)
  {
    hide Lo, Rd;
  }

  lemma MutedStep(plane: seq<Cell>, c: Cpu)
    requires !Step(Muted(plane), c).Bad?
    ensures Step(plane, c) == Step(Muted(plane), c) && !AtDbg(plane, c.pc)
  {
    hide Do, Lo, BranchTableProc, Holds, Len;
    MutedTable(plane, c);
  }

  /** A run on the muted plane is a run on the plane. */
  lemma {:induction false} MutedRun(plane: seq<Cell>, c: Cpu, n: nat)
    requires !Run(Muted(plane), c, n).Bad?
    ensures Run(plane, c, n) == Run(Muted(plane), c, n)
    decreases n
  {
    hide Step, Muted;
    if n > 0 {
      MutedStep(plane, c);
      if Step(plane, c).Go? { MutedRun(plane, Step(plane, c).c, n - 1); }
    }
  }

  /** On the way it is never at the start of an opcode. */
  lemma {:induction false} MutedOnTheWay(plane: seq<Cell>, c: Cpu, m: nat, n: nat)
    requires m < n && !Run(Muted(plane), c, n).Bad? && Run(plane, c, m).Go?
    ensures !AtDbg(plane, Run(plane, c, m).c.pc)
    decreases m
  {
    hide Step, Muted, AtDbg;
    MutedStep(plane, c);
    if m > 0 { MutedOnTheWay(plane, Step(plane, c).c, m - 1, n - 1); }
  }

  // ---------- code without opcode starts ----------

  predicate NoDbg(s: seq<Cell>) { forall i :: 0 <= i < |s| ==> !IsDbg(s[i]) }

  lemma AtMuted(plane: seq<Cell>, p: int, s: seq<Cell>)
    requires At(plane, p, s) && NoDbg(s)
    ensures At(Muted(plane), p, s)
  {
    forall i | 0 <= i < |s| ensures Muted(plane)[p + i] == s[i] {
      assert plane[p + i] == s[i];
    }
  }

  lemma NoDbgBoth(a: seq<Cell>, b: seq<Cell>)
    requires NoDbg(a) && NoDbg(b)
    ensures NoDbg(a + b)
  {
  }

  predicate Speaks(i: Instr) { i.R? && i.regOp.MovR12? }

  predicate Mute(code: seq<Instr>) { forall k :: 0 <= k < |code| ==> !Speaks(code[k]) }

  lemma {:induction false} AsmNoDbg(code: seq<Instr>)
    requires Mute(code)
    ensures NoDbg(Asm(code))
    decreases |code|
  {
    hide Off, Len;
    if |code| > 0 {
      OffPrefix(code, |code| - 1);
      AsmNoDbg(code[..|code| - 1]);
      NoDbgBoth(Asm(code[..|code| - 1]), Cells(code[|code| - 1]));
    }
  }

  lemma CodeMuted(plane: seq<Cell>, p: int, code: seq<Instr>)
    requires At(plane, p, Asm(code)) && Mute(code)
    ensures At(Muted(plane), p, Asm(code))
  {
    hide At, Asm;
    AsmNoDbg(code);
    AtMuted(plane, p, Asm(code));
  }

  lemma JumpNoDbg(q: nat, target: Option<nat>)
    ensures NoDbg(JumpCode(q, target))
  {
  }

  lemma JzMuted(plane: seq<Cell>, p: int, d: int)
    requires At(plane, p, JzCode(d))
    ensures At(Muted(plane), p, JzCode(d))
  {
    hide At;
    AtMuted(plane, p, JzCode(d));
  }

  lemma OneMuted(plane: seq<Cell>, p: int, i: Instr)
    requires At(plane, p, Cells(i)) && !Speaks(i)
    ensures At(Muted(plane), p, Cells(i))
  {
    hide At;
    AtMuted(plane, p, Cells(i));
  }

  lemma {:induction false} EntriesNoDbg(ts: seq<nat>, at: seq<Option<nat>>)
    requires DepthsOk(ts, |at|)
    ensures NoDbg(Entries(ts, at))
    decreases |ts|
  {
    if |ts| > 0 {
      EntriesNoDbg(ts[1..], at);
      NoDbgBoth(Entry(ts[0], at[ts[0]]), Entries(ts[1..], at));
    }
  }

  lemma TableMuted(plane: seq<Cell>, p: int, env: Env, q: nat, keep: bool, d: nat, ts: seq<nat>, at: seq<Option<nat>>)
    requires d < |at| && DepthsOk(ts, |at|)
    requires At(plane, p, TableHead(env, q, |ts|, keep) + Entry(d, at[d]) + Entries(ts, at))
    ensures At(Muted(plane), p, TableHead(env, q, |ts|, keep) + Entry(d, at[d]) + Entries(ts, at))
  {
    hide At, TableHead, Entry, Entries;
    HeadNoDbg(env, q, |ts|, keep, d, at[d]);
    EntriesNoDbg(ts, at);
    NoDbgBoth(TableHead(env, q, |ts|, keep) + Entry(d, at[d]), Entries(ts, at));
    AtMuted(plane, p, TableHead(env, q, |ts|, keep) + Entry(d, at[d]) + Entries(ts, at));
  }

  lemma HeadNoDbg(env: Env, q: nat, count: nat, keep: bool, d: nat, target: Option<nat>)
    ensures NoDbg(TableHead(env, q, count, keep) + Entry(d, target))
  {
  }

  lemma {:induction false} SetArgsMute(n: nat)
    ensures Mute(SetArgs(n))
  {
    if n > 0 { SetArgsMute(n - 1); }
  }

  lemma {:induction false} LeaveMute(d: nat, keep: bool)
    ensures Mute(LeaveCode(d, keep))
    decreases d
  {
    if d > 0 { LeaveMute(d - 1, keep); }
  }

  lemma OpMute(op: Op)
    ensures Mute(OpCode(op))
  {
  }

  lemma CallMute(env: Env, f: nat)
    requires f < |env.sigs|
    ensures Mute(CallSetup(env, f)) && Mute(CallCleanup(env, f))
  {
    hide SetArgs;
    SetArgsMute(env.sigs[f].cparams);
  }

  // ---------- going from one point of the code to another ----------

  /** From c the machine gets to c' in at least one step, with no opcode started in between. */
  ghost predicate Goes(plane: seq<Cell>, c: Cpu, c': Cpu) {
    Step(plane, c).Go? && Reaches(Muted(plane), Step(plane, c).c, c')
  }

  /** From c the machine faults, with no other opcode started before. */
  ghost predicate Drops(plane: seq<Cell>, c: Cpu) {
    Step(plane, c) == Fault || (Step(plane, c).Go? && Faults(Muted(plane), Step(plane, c).c))
  }

  lemma StepDbg(plane: seq<Cell>, opcode: nat, c: Cpu)
    requires At(plane, c.pc, Dbg(opcode))
    ensures AtDbg(plane, c.pc) && Step(plane, c) == Go(c.(pc := c.pc + 7))
  {
    assert plane[c.pc + 0] == Dbg(opcode)[0];
  }

  /** After the first instruction of an opcode, a quiet run is the rest of it. */
  lemma DbgGoes(plane: seq<Cell>, opcode: nat, c: Cpu, c': Cpu)
    requires At(plane, c.pc, Dbg(opcode)) && Reaches(Muted(plane), c.(pc := c.pc + 7), c')
    ensures Goes(plane, c, c')
  {
    hide Reaches, At, Muted, Step;
    StepDbg(plane, opcode, c);
  }

  lemma DbgDrops(plane: seq<Cell>, opcode: nat, c: Cpu)
    requires At(plane, c.pc, Dbg(opcode)) && Faults(Muted(plane), c.(pc := c.pc + 7))
    ensures Drops(plane, c)
  {
    hide Faults, At, Muted, Step;
    StepDbg(plane, opcode, c);
  }

  /** A quiet run to somewhere else takes a step. */
  lemma QuietGoes(plane: seq<Cell>, c: Cpu, c': Cpu)
    requires Reaches(Muted(plane), c, c') && c != c'
    ensures Goes(plane, c, c')
  {
    hide Muted, Step;
    var n: nat :| Run(Muted(plane), c, n) == Go(c');
    assert n > 0;
    MutedStep(plane, c);
    assert Run(Muted(plane), Step(plane, c).c, n - 1) == Go(c');
  }

  /** What Goes says of the run: the states strictly in between are not at the start of an opcode. */
  lemma GoesRun(plane: seq<Cell>, c: Cpu, c': Cpu) returns (m: nat)
    requires Goes(plane, c, c')
    ensures m > 0 && Run(plane, c, m) == Go(c')
    ensures forall j: nat :: 0 < j < m && Run(plane, c, j).Go? ==> !AtDbg(plane, Run(plane, c, j).c.pc)
  {
    hide Muted, Step, AtDbg;
    var c1 := Step(plane, c).c;
    var n: nat :| Run(Muted(plane), c1, n) == Go(c');
    m := n + 1;
    MutedRun(plane, c1, n);
    assert Run(plane, c, m) == Run(plane, c1, n);
    forall j: nat | 0 < j < m && Run(plane, c, j).Go? ensures !AtDbg(plane, Run(plane, c, j).c.pc) {
      assert Run(plane, c, j) == Run(plane, c1, j - 1);
      MutedOnTheWay(plane, c1, j - 1, n);
    }
  }

  lemma DropsRun(plane: seq<Cell>, c: Cpu) returns (m: nat)
    requires Drops(plane, c)
    ensures m > 0 && Run(plane, c, m) == Fault
    ensures forall j: nat :: 0 < j < m && Run(plane, c, j).Go? ==> !AtDbg(plane, Run(plane, c, j).c.pc)
  {
    hide Muted, Step, AtDbg;
    if Step(plane, c) == Fault {
      m := 1;
      assert Run(plane, c, 1) == Fault;
    } else {
      var c1 := Step(plane, c).c;
      var n: nat :| Run(Muted(plane), c1, n) == Fault;
      m := n + 1;
      MutedRun(plane, c1, n);
      assert Run(plane, c, m) == Run(plane, c1, n);
      forall j: nat | 0 < j < m && Run(plane, c, j).Go? ensures !AtDbg(plane, Run(plane, c, j).c.pc) {
        assert Run(plane, c, j) == Run(plane, c1, j - 1);
        MutedOnTheWay(plane, c1, j - 1, n);
      }
    }
  }
}
