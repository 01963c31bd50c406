/** One opcode of a compiled function, run from any state: where control can go, and what is on the
    machine stack there.  Nothing is asked of the operand stack, and bodies need only be well-formed. */
module OpcodeSteps {
  import opened Words
  import opened Wasm
  import opened X86
  import opened Codegen
  import opened Layout
  import opened ControlSim
  import opened TableSim
  import opened CallSim
  import opened Pieces
  import opened Fragment
  import opened Between
  import opened Points
  import opened Stacking

  /** Function f has a body and an address. */
  predicate HasPlace(w: World, f: nat) { f < |w.fs| && w.fs[f].Defined? && 8 * f < |w.plane| && w.plane[8 * f].Ptr? }

  function PlaceOf(w: World, f: nat): Place
    requires HasPlace(w, f)
  {
    Place(FnEnv(w, f), w.fs[f].cparams, w.fs[f].body, w.plane[8 * f].a)
  }

  /** The state is at the call of an import, which the machine has no code for. */
  ghost predicate AtImport(plane: seq<Cell>, c: Cpu) {
    && 0 <= c.pc < |plane| && plane[c.pc].Ins? && plane[c.pc].i.J? && plane[c.pc].i.jump.CallTable?
    && var slot := c.pc + 6 + plane[c.pc].i.jump.rel;
      0 <= slot < |plane| && plane[slot] == Extern(WasmToC)
  }

  /** Every callee is linked or imported. */
  ghost predicate CallsOk(w: World, linked: set<nat>, calls: seq<nat>) {
    forall i :: 0 <= i < |calls| ==>
      && 8 * calls[i] < |w.plane|
      && if calls[i] in linked then w.plane[8 * calls[i]].Ptr? && w.plane[8 * calls[i]].a != 0 else w.plane[8 * calls[i]] == Extern(WasmToC)
  }

  // ---------- where control can go from a point with k saved words ----------

  /** To another point of the function, with what was below the saved words below those of that point. */
  ghost predicate Stays(pl: Place, c: Cpu, c': Cpu, k: nat)
    requires PlaceOk(pl) && k < |c.rs|
  {
    && PointIn(pl, c'.pc).Some?
    && var d := Saved(PointIn(pl, c'.pc).value);
      d < |c'.rs| && c'.rs[d..] == c.rs[k..]
  }

  /** Into a callee, its return address on top and one more saved word under it. */
  ghost predicate Enters(w: World, linked: set<nat>, pl: Place, c: Cpu, c': Cpu, k: nat)
    requires PlaceOk(pl) && k < |c.rs|
  {
    exists f :: f in linked && 8 * f < |w.plane| && w.plane[8 * f].Ptr? && c'.pc == w.plane[8 * f].a
      && |c'.rs| > k + 2 && PointIn(pl, c'.rs[0]) == Some(ReturnTo(k, f)) && c'.rs[k + 2..] == c.rs[k..]
  }

  /** To the return address, right under the saved words. */
  ghost predicate Leaves(c: Cpu, c': Cpu, k: nat)
    requires k < |c.rs|
  {
    c'.pc == c.rs[k] && c'.rs == c.rs[k + 1..]
  }

  ghost predicate Arrives(w: World, linked: set<nat>, pl: Place, c: Cpu, c': Cpu, k: nat)
    requires PlaceOk(pl) && k < |c.rs|
  {
    Stays(pl, c, c', k) || Enters(w, linked, pl, c, c', k) || Leaves(c, c', k) || AtImport(w.plane, c')
  }

  ghost predicate Moves(w: World, linked: set<nat>, pl: Place, c: Cpu, k: nat)
    requires PlaceOk(pl) && k < |c.rs|
  {
    Drops(w.plane, c) || exists c' :: Goes(w.plane, c, c') && Arrives(w, linked, pl, c, c', k)
  }

  // ---------- the setting ----------

  ghost predicate Helped(plane: seq<Cell>, env: Env) {
    |plane| < T32 && BranchTableSlot(env) < |plane| && plane[BranchTableSlot(env)] == Extern(BranchTable)
  }

  /** The code of b at p, as a part of its function. */
  ghost predicate Here(w: World, linked: set<nat>, pl: Place, b: Body, p: int, keeps: seq<bool>, tgts: seq<nat>) {
    && p >= 0 && |tgts| == |keeps| && PlaceOk(pl) && Laid(w.plane, pl.env, b, p, keeps, tgts) && Inside(pl, b, p, keeps)
    && LabelsOk(pl, tgts) && Helped(w.plane, pl.env) && CallsOk(w, linked, BodyCalls(b))
  }

  lemma StaysAt(w: World, linked: set<nat>, pl: Place, c: Cpu, c': Cpu, k: nat, d: nat)
    requires PlaceOk(pl) && k < |c.rs| && Goes(w.plane, c, c') && d < |c'.rs| && c'.rs[d..] == c.rs[k..]
    requires PointIn(pl, c'.pc) in {Some(Opcode(d)), Some(Target(d))}
    ensures Moves(w, linked, pl, c, k)
  {
    hide PointIn, Goes, PlaceOk;
    assert Arrives(w, linked, pl, c, c', k);
  }

  // ---------- instructions ----------

  lemma PlainGoes(plane: seq<Cell>, op: Op, byte: nat, c: Cpu)
    requires At(plane, c.pc, Dbg(byte)) && At(plane, c.pc + 7, Asm(OpCode(op)))
    ensures var r := Exec(OpCode(op), 0, c.(pc := c.pc + 7));
      && (r.Fault? || (r.Go? && r.c.rs == c.rs))
      && (r.Fault? ==> Drops(plane, c))
      && (r.Go? ==> Goes(plane, c, r.c.(pc := c.pc + 7 + |Asm(OpCode(op))|)))
  {
    hide Goes, Drops, At, Asm, Exec, Reaches, Faults, Muted, Dbg, OpCode, Mute;
    var c1 := c.(pc := c.pc + 7);
    OpMute(op);
    CodeMuted(plane, c1.pc, OpCode(op));
    PlainKeeps(op, c1);
    RunAsm(Muted(plane), OpCode(op), 0, c1, c1.pc);
    var r := Exec(OpCode(op), 0, c1);
    if r.Go? {
      DbgGoes(plane, byte, c, r.c.(pc := c1.pc + |Asm(OpCode(op))|));
    } else {
      DbgDrops(plane, byte, c);
    }
  }

  lemma PlainMoves(w: World, linked: set<nat>, pl: Place, op: Op, byte: nat, c: Cpu, k: nat)
    requires PlaceOk(pl) && k < |c.rs| && At(w.plane, c.pc, Dbg(byte)) && At(w.plane, c.pc + 7, Asm(OpCode(op)))
    requires PointIn(pl, c.pc + 7 + |Asm(OpCode(op))|) == Some(Opcode(k))
    ensures Moves(w, linked, pl, c, k)
  {
    hide PointIn, Goes, Drops, PlaceOk, At, Asm, Exec, Dbg, OpCode, Stays, Enters, Leaves;
    PlainGoes(w.plane, op, byte, c);
    var r := Exec(OpCode(op), 0, c.(pc := c.pc + 7));
    if r.Go? { StaysAt(w, linked, pl, c, r.c.(pc := c.pc + 7 + |Asm(OpCode(op))|), k, k); }
  }

  /** After a branch to depth d the words saved inside the blocks left are gone. */
  lemma LabelReached(w: World, linked: set<nat>, pl: Place, c: Cpu, c': Cpu, tgts: seq<nat>, d: nat)
    requires LabelsOk(pl, tgts) && d < |tgts| < |c.rs| && Goes(w.plane, c, c')
    requires c'.pc == tgts[d] && c'.rs == c.rs[d + 1..]
    ensures PlaceOk(pl) && Moves(w, linked, pl, c, |tgts|)
  {
    hide PointIn, Goes, PlaceOk, Moves;
    var n := |tgts| - 1 - d;
    assert PointIn(pl, tgts[d]) in {Some(Opcode(n)), Some(Target(n))};
    assert c'.rs[n..] == c.rs[|tgts|..];
    StaysAt(w, linked, pl, c, c', |tgts|, n);
  }

  /** From the leave code of a branch on. */
  lemma QuietBranch(plane: seq<Cell>, c: Cpu, d: nat, keep: bool, target: nat)
    requires d < |c.rs| && c.pc >= 0
    requires At(plane, c.pc, Asm(LeaveCode(d, keep)) + JumpCode(c.pc + LeaveSize(d, keep), Some(target)))
    ensures Reaches(Muted(plane), c, Left(c, keep, c.rs[d], c.rs[d + 1..]).(pc := target))
  {
    hide At, Asm, Reaches, Muted, JumpCode, LeaveCode, NoDbg;
    var l, j := Asm(LeaveCode(d, keep)), JumpCode(c.pc + LeaveSize(d, keep), Some(target));
    LeaveMute(d, keep);
    AsmNoDbg(LeaveCode(d, keep));
    JumpNoDbg(c.pc + LeaveSize(d, keep), Some(target));
    NoDbgBoth(l, j);
    AtMuted(plane, c.pc, l + j);
    RunLeaveJump(Muted(plane), c, d, keep, target);
  }

  lemma BrGoes(plane: seq<Cell>, d: U32, keep: bool, c: Cpu, target: nat)
    requires d < |c.rs| && c.pc >= 0 && At(plane, c.pc, Dbg(0x0c))
    requires At(plane, c.pc + 7, Asm(LeaveCode(d, keep)) + JumpCode(c.pc + 7 + LeaveSize(d, keep), Some(target)))
    ensures Goes(plane, c, Left(c, keep, c.rs[d], c.rs[d + 1..]).(pc := target))
  {
    hide Goes, At, Asm, Reaches, Muted, Dbg, JumpCode, LeaveCode;
    var c1 := c.(pc := c.pc + 7);
    QuietBranch(plane, c1, d, keep, target);
    LeftPc(c, keep, c.rs[d], c.rs[d + 1..], c1.pc, target);
    DbgGoes(plane, 0x0c, c, Left(c, keep, c.rs[d], c.rs[d + 1..]).(pc := target));
  }

  lemma BrMoves(w: World, linked: set<nat>, pl: Place, d: U32, keep: bool, c: Cpu, tgts: seq<nat>)
    requires PlaceOk(pl) && LabelsOk(pl, tgts) && d < |tgts| < |c.rs| && c.pc >= 0
    requires At(w.plane, c.pc, Dbg(0x0c))
    requires At(w.plane, c.pc + 7, Asm(LeaveCode(d, keep)) + JumpCode(c.pc + 7 + LeaveSize(d, keep), Some(tgts[d])))
    ensures Moves(w, linked, pl, c, |tgts|)
  {
    hide PointIn, Goes, PlaceOk, At, Asm, Dbg, JumpCode, LeaveCode, Moves, LabelsOk;
    BrGoes(w.plane, d, keep, c, tgts[d]);
    LabelReached(w, linked, pl, c, Left(c, keep, c.rs[d], c.rs[d + 1..]).(pc := tgts[d]), tgts, d);
  }

  /** The state without its top operand. */
  function Popped(c: Cpu): Cpu { c.(rdi := c.rdi - 1, rax := Rd(c.mem, c.rdi - 1)) }

  /** The test of a br_if: taken or not, rdi is one lower and the machine stack as it was. */
  lemma QuietTest(plane: seq<Cell>, c: Cpu, n: nat) returns (c': Cpu)
    requires At(plane, c.pc, Asm(BrIfTest()) + JzCode(n))
    ensures Reaches(Muted(plane), c, c') && c' == Popped(c).(fl := c'.fl, pc := c'.pc)
    ensures c'.pc == c.pc + |Asm(BrIfTest())| + 6 + if c.rax == 0 then n else 0
  {
    hide At, Asm, Exec, Reaches, Muted, JzCode, BrIfTest, Mute;
    AtSplit(plane, c.pc, Asm(BrIfTest()), JzCode(n));
    BrIfTestMute();
    CodeMuted(plane, c.pc, BrIfTest());
    JzMuted(plane, c.pc + |Asm(BrIfTest())|, n);
    var c1 := ExecBrIfTest(c);
    RunCode(Muted(plane), BrIfTest(), c, c1);
    var c2 := c1.(pc := c.pc + |Asm(BrIfTest())|);
    RunJz(Muted(plane), c2, n);
    c' := c2.(pc := c2.pc + 6 + if c2.fl.zf then n else 0);
    ReachesTrans(Muted(plane), c, c2, c');
  }

  lemma BrIfTestMute()
    ensures Mute(BrIfTest()) && Mute(IfTest()) && Mute(EnterBlock())
  {
  }

  lemma BrIfGoes(plane: seq<Cell>, d: U32, keep: bool, c: Cpu, target: nat) returns (c': Cpu)
    requires d < |c.rs| && c.pc >= 0 && At(plane, c.pc, Dbg(0x0d))
    requires var n, m := LeaveSize(d, keep), |Asm(BrIfTest())|;
      At(plane, c.pc + 7, Asm(BrIfTest()) + JzCode(n + 5) + Asm(LeaveCode(d, keep)) + JumpCode(c.pc + 7 + m + 6 + n, Some(target)))
    ensures Goes(plane, c, c')
    ensures var p := Popped(c).(fl := c'.fl);
      c' == if c.rax == 0 then p.(pc := c.pc + 7 + |Asm(BrIfTest())| + 6 + LeaveSize(d, keep) + 5)
            else Left(p, keep, c.rs[d], c.rs[d + 1..]).(pc := target)
  {
    hide Goes, At, Asm, Reaches, Muted, Dbg, JumpCode, LeaveCode, JzCode, BrIfTest;
    var n, m := LeaveSize(d, keep), |Asm(BrIfTest())|;
    var c1 := c.(pc := c.pc + 7);
    var j := JumpCode(c.pc + 7 + m + 6 + n, Some(target));
    FourAsTwo(Asm(BrIfTest()), JzCode(n + 5), Asm(LeaveCode(d, keep)), j);
    AtSplit(plane, c1.pc, Asm(BrIfTest()) + JzCode(n + 5), Asm(LeaveCode(d, keep)) + j);
    c' := QuietTest(plane, c1, n + 5);
    if c.rax != 0 {
      var c2 := c';
      QuietBranch(plane, c2, d, keep, target);
      c' := Left(c2, keep, c2.rs[d], c2.rs[d + 1..]).(pc := target);
      ReachesTrans(Muted(plane), c1, c2, c');
      LeftPc(Popped(c).(fl := c2.fl), keep, c.rs[d], c.rs[d + 1..], c2.pc, target);
    }
    DbgGoes(plane, 0x0d, c, c');
  }

  lemma BrIfMoves(w: World, linked: set<nat>, pl: Place, d: U32, keep: bool, c: Cpu, tgts: seq<nat>)
    requires PlaceOk(pl) && LabelsOk(pl, tgts) && d < |tgts| < |c.rs| && c.pc >= 0
    requires At(w.plane, c.pc, Dbg(0x0d))
    requires var n, m := LeaveSize(d, keep), |Asm(BrIfTest())|;
      && At(w.plane, c.pc + 7, Asm(BrIfTest()) + JzCode(n + 5) + Asm(LeaveCode(d, keep)) + JumpCode(c.pc + 7 + m + 6 + n, Some(tgts[d])))
      && PointIn(pl, c.pc + 7 + m + 6 + n + 5) == Some(Opcode(|tgts|))
    ensures Moves(w, linked, pl, c, |tgts|)
  {
    hide PointIn, Goes, PlaceOk, At, Asm, Dbg, JumpCode, LeaveCode, Moves, LabelsOk, JzCode, BrIfTest;
    var c' := BrIfGoes(w.plane, d, keep, c, tgts[d]);
    if c.rax != 0 {
      LabelReached(w, linked, pl, c, c', tgts, d);
    } else {
      StaysAt(w, linked, pl, c, c', |tgts|, |tgts|);
    }
  }

  lemma FourAsTwo<T>(a: seq<T>, b: seq<T>, c: seq<T>, d: seq<T>)
    ensures a + b + c + d == (a + b) + (c + d)
  {
  }

  lemma TableGoes(plane: seq<Cell>, env: Env, ts: seq<U32>, d: U32, keep: bool, c: Cpu, tgts: seq<nat>) returns (c': Cpu)
    requires d < |tgts| < |c.rs| && DepthsOk(ts, |tgts|) && c.pc >= 0 && Helped(plane, env) && At(plane, c.pc, Dbg(0x0e))
    requires At(plane, c.pc + 7, TableHead(env, c.pc + 7, |ts|, keep) + Entry(d, Somes(tgts)[d]) + Entries(ts, Somes(tgts)))
    ensures Goes(plane, c, c')
    ensures var k := Selected(ts, d, Lo(W32, c.rax));
      && k < |tgts|
      && c' == Left(Popped(c), keep, c.rs[k], c.rs[k + 1..]).(pc := tgts[k], rcx := c'.rcx, rdx := c'.rdx, fl := c'.fl)
  {
    hide Goes, At, Reaches, Muted, Dbg, TableHead, Entry, Entries;
    var c1 := c.(pc := c.pc + 7);
    TableMuted(plane, c1.pc, env, c1.pc, keep, d, ts, Somes(tgts));
    HelperMuted(plane, env);
    c' := RunTable(Muted(plane), env, c1, ts, d, keep, tgts);
    DbgGoes(plane, 0x0e, c, c');
  }

  lemma TableMoves(w: World, linked: set<nat>, pl: Place, ts: seq<U32>, d: U32, keep: bool, c: Cpu, tgts: seq<nat>)
    requires PlaceOk(pl) && LabelsOk(pl, tgts) && d < |tgts| < |c.rs| && DepthsOk(ts, |tgts|) && c.pc >= 0 && Helped(w.plane, pl.env)
    requires At(w.plane, c.pc, Dbg(0x0e))
    requires At(w.plane, c.pc + 7, TableHead(pl.env, c.pc + 7, |ts|, keep) + Entry(d, Somes(tgts)[d]) + Entries(ts, Somes(tgts)))
    ensures Moves(w, linked, pl, c, |tgts|)
  {
    hide PointIn, Goes, PlaceOk, At, Dbg, Moves, LabelsOk, TableHead, Entry, Entries;
    var c' := TableGoes(w.plane, pl.env, ts, d, keep, c, tgts);
    LabelReached(w, linked, pl, c, c', tgts, Selected(ts, d, Lo(W32, c.rax)));
  }

  lemma HelperMuted(plane: seq<Cell>, env: Env)
    requires Helped(plane, env)
    ensures Helped(Muted(plane), env)
  {
  }

  /** A return drops the saved words and goes to the address under them. */
  lemma ReturnGoes(plane: seq<Cell>, c: Cpu, k: nat) returns (c': Cpu)
    requires k < |c.rs| && At(plane, c.pc, Dbg(0x0f)) && At(plane, c.pc + 7, Asm([P(AddRsp(k))]) + Cells(J(Ret)))
    ensures Goes(plane, c, c') && c' == c.(pc := c.rs[k], rs := c.rs[k + 1..], fl := c'.fl)
  {
    hide Goes, At, Reaches, Muted, Dbg, Asm, Exec;
    var c1 := c.(pc := c.pc + 7);
    var s := [P(AddRsp(k))];
    AtSplit(plane, c1.pc, Asm(s), Cells(J(Ret)));
    CodeMuted(plane, c1.pc, s);
    OneMuted(plane, c1.pc + |Asm(s)|, J(Ret));
    var c2 := c1.(rs := c.rs[k..], fl := Undefined);
    ExecOne(P(AddRsp(k)), c1, c2);
    RunCode(Muted(plane), s, c1, c2);
    var c3 := c2.(pc := c1.pc + |Asm(s)|);
    RunRet(Muted(plane), c3);
    c' := c3.(pc := c3.rs[0], rs := c3.rs[1..]);
    ReachesTrans(Muted(plane), c1, c3, c');
    DbgGoes(plane, 0x0f, c, c');
  }

  lemma ReturnMoves(w: World, linked: set<nat>, pl: Place, c: Cpu, k: nat)
    requires PlaceOk(pl) && k < |c.rs| && At(w.plane, c.pc, Dbg(0x0f))
    requires At(w.plane, c.pc + 7, Asm([P(AddRsp(k))]) + Cells(J(Ret)))
    ensures Moves(w, linked, pl, c, k)
  {
    hide PointIn, Goes, PlaceOk, At, Dbg, Asm, Stays, Enters;
    var c' := ReturnGoes(w.plane, c, k);
    assert Arrives(w, linked, pl, c, c', k);
  }

  /** The call instruction: into the callee, or, for an import, no further. */
  lemma CallMoves(w: World, linked: set<nat>, pl: Place, f: U32, c: Cpu, k: nat)
    requires PlaceOk(pl) && k < |c.rs| && f < |pl.env.sigs| && c.pc >= 0 && CallsOk(w, linked, CallsOf(Call(f)))
    requires At(w.plane, c.pc, Dbg(0x10)) && At(w.plane, c.pc + 7, Asm(CallSetup(pl.env, f)))
    requires var q := c.pc + 7 + |Asm(CallSetup(pl.env, f))|;
      && At(w.plane, q, Cells(J(CallTable(8 * f - (q + 6)))))
      && PointIn(pl, q + 6) == Some(ReturnTo(k, f))
    ensures Moves(w, linked, pl, c, k)
  {
    hide PointIn, Goes, PlaceOk, At, Dbg, Asm, Exec, CallSetup;
    var c2 := SetupPushes(pl.env, f, c.(pc := c.pc + 7));
    var c3 := c2.(pc := c.pc + 7 + |Asm(CallSetup(pl.env, f))|);
    assert CallsOf(Call(f))[0] == f;
    if f in linked {
      CallGoes(w.plane, pl.env, f, c, c2);
      var c4 := c2.(pc := w.plane[8 * f].a, rs := [c3.pc + 6] + c2.rs);
      assert c4.rs[k + 2..] == c.rs[k..];
      assert Enters(w, linked, pl, c, c4, k);
    } else {
      SetupGoes(w.plane, pl.env, f, c, c2);
      ImportCall(w.plane, c3, f);
    }
    assert exists c' :: Goes(w.plane, c, c') && Arrives(w, linked, pl, c, c', k);
  }

  /** To the call instruction itself. */
  lemma SetupGoes(plane: seq<Cell>, env: Env, f: U32, c: Cpu, c2: Cpu)
    requires f < |env.sigs| && At(plane, c.pc, Dbg(0x10)) && At(plane, c.pc + 7, Asm(CallSetup(env, f)))
    requires Exec(CallSetup(env, f), 0, c.(pc := c.pc + 7)) == Go(c2)
    ensures Reaches(Muted(plane), c.(pc := c.pc + 7), c2.(pc := c.pc + 7 + |Asm(CallSetup(env, f))|))
    ensures Goes(plane, c, c2.(pc := c.pc + 7 + |Asm(CallSetup(env, f))|))
  {
    hide Goes, At, Reaches, Muted, Dbg, Asm, Exec, CallSetup, Mute;
    CallMute(env, f);
    CodeMuted(plane, c.pc + 7, CallSetup(env, f));
    RunCode(Muted(plane), CallSetup(env, f), c.(pc := c.pc + 7), c2);
    DbgGoes(plane, 0x10, c, c2.(pc := c.pc + 7 + |Asm(CallSetup(env, f))|));
  }

  /** Into the callee. */
  lemma CallGoes(plane: seq<Cell>, env: Env, f: U32, c: Cpu, c2: Cpu)
    requires f < |env.sigs| && At(plane, c.pc, Dbg(0x10)) && At(plane, c.pc + 7, Asm(CallSetup(env, f)))
    requires Exec(CallSetup(env, f), 0, c.(pc := c.pc + 7)) == Go(c2)
    requires var q := c.pc + 7 + |Asm(CallSetup(env, f))|;
      At(plane, q, Cells(J(CallTable(8 * f - (q + 6)))))
    requires 8 * f < |plane| && plane[8 * f].Ptr? && plane[8 * f].a != 0
    ensures Goes(plane, c, c2.(pc := plane[8 * f].a, rs := [c.pc + 7 + |Asm(CallSetup(env, f))| + 6] + c2.rs))
  {
    hide Goes, At, Reaches, Muted, Dbg, Asm, Exec, CallSetup;
    var c1 := c.(pc := c.pc + 7);
    SetupGoes(plane, env, f, c, c2);
    var c3 := c2.(pc := c1.pc + |Asm(CallSetup(env, f))|);
    OneMuted(plane, c3.pc, J(CallTable(8 * f - (c3.pc + 6))));
    PtrMuted(plane, 8 * f);
    RunCallTable(Muted(plane), c3, f);
    var c4 := c3.(pc := plane[8 * f].a, rs := [c3.pc + 6] + c3.rs);
    ReachesTrans(Muted(plane), c1, c3, c4);
    DbgGoes(plane, 0x10, c, c4);
  }

  lemma PtrMuted(plane: seq<Cell>, a: nat)
    requires a < |plane| && plane[a].Ptr?
    ensures Muted(plane)[a] == plane[a]
  {
  }

  lemma ImportCall(plane: seq<Cell>, c: Cpu, f: nat)
    requires At(plane, c.pc, Cells(J(CallTable(8 * f - (c.pc + 6))))) && 8 * f < |plane| && plane[8 * f] == Extern(WasmToC)
    ensures AtImport(plane, c)
  {
    assert plane[c.pc + 0] == Cells(J(CallTable(8 * f - (c.pc + 6))))[0];
  }

  /** From the return address of a call. */
  lemma ReturnedMoves(w: World, linked: set<nat>, pl: Place, f: U32, c: Cpu, k: nat)
    requires PlaceOk(pl) && k + 1 < |c.rs| && f < |pl.env.sigs|
    requires At(w.plane, c.pc, Asm(CallCleanup(pl.env, f))) && |Asm(CallCleanup(pl.env, f))| > 0
    requires PointIn(pl, c.pc + |Asm(CallCleanup(pl.env, f))|) == Some(Opcode(k))
    ensures Moves(w, linked, pl, c, k + 1)
  {
    hide PointIn, Goes, PlaceOk, At, Asm, CallCleanup, Moves;
    var c' := CleanupGoes(w.plane, pl.env, f, c);
    assert c'.rs[k..] == c.rs[k + 1..];
    StaysAt(w, linked, pl, c, c', k + 1, k);
  }

  lemma CleanupGoes(plane: seq<Cell>, env: Env, f: U32, c: Cpu) returns (c': Cpu)
    requires f < |env.sigs| && |c.rs| > 0
    requires At(plane, c.pc, Asm(CallCleanup(env, f))) && |Asm(CallCleanup(env, f))| > 0
    ensures Goes(plane, c, c') && c'.pc == c.pc + |Asm(CallCleanup(env, f))|
    ensures c' == Left(c, env.sigs[f].hasReturn, c.rs[0], c.rs[1..]).(pc := c'.pc, rbx := c.rbx - env.clocals, fl := Undefined)
  {
    hide Goes, At, Reaches, Muted, Asm, Exec, CallCleanup, Mute;
    var s := CallCleanup(env, f);
    CallMute(env, f);
    CodeMuted(plane, c.pc, s);
    var c1 := ExecCallCleanup(env, f, c);
    RunCode(Muted(plane), s, c, c1);
    c' := c1.(pc := c.pc + |Asm(s)|);
    QuietGoes(plane, c, c');
  }
}
