/** Running the pieces of control code: entering and leaving blocks, branches, tests, branch tables. */
module ControlSim {
  import opened Words
  import opened Wasm
  import opened X86
  import opened Codegen
  import opened OpSim
  import opened Layout

  // ---------- code in the plane ----------

  lemma AtSplit(plane: seq<Cell>, p: int, a: seq<Cell>, b: seq<Cell>)
    requires At(plane, p, a + b)
    ensures At(plane, p, a) && At(plane, p + |a|, b)
  {
    forall i | 0 <= i < |a| ensures plane[p + i] == a[i] {
      assert (a + b)[i] == a[i];
    }
    forall i | 0 <= i < |b| ensures plane[p + |a| + i] == b[i] {
      assert (a + b)[|a| + i] == b[i];
    }
  }

  lemma AtSplit3(plane: seq<Cell>, p: int, a: seq<Cell>, b: seq<Cell>, c: seq<Cell>)
    requires At(plane, p, a + b + c)
    ensures At(plane, p, a) && At(plane, p + |a|, b) && At(plane, p + |a| + |b|, c)
  {
    AtSplit(plane, p, a + b, c);
    AtSplit(plane, p, a, b);
  }

  /** Four pieces; the last two stay together. */
  lemma AtSplit4(plane: seq<Cell>, p: int, a: seq<Cell>, b: seq<Cell>, c: seq<Cell>, d: seq<Cell>)
    requires At(plane, p, a + b + c + d)
    ensures At(plane, p, a) && At(plane, p + |a|, b) && At(plane, p + |a| + |b|, c + d)
  {
    hide At;
    assert a + b + c + d == a + b + (c + d);
    AtSplit3(plane, p, a, b, c + d);
  }

  lemma RunCode(plane: seq<Cell>, code: seq<Instr>, c: Cpu, c': Cpu)
    requires At(plane, c.pc, Asm(code)) && Exec(code, 0, c) == Go(c')
    ensures Reaches(plane, c, c'.(pc := c.pc + |Asm(code)|))
  {
    hide At, Exec, Reaches;
    RunAsm(plane, code, 0, c, c.pc);
  }

  lemma RunDbg(plane: seq<Cell>, opcode: nat, c: Cpu)
    requires At(plane, c.pc, Dbg(opcode))
    ensures Reaches(plane, c, c.(pc := c.pc + 7))
  {
    assert plane[c.pc + 0] == Dbg(opcode)[0];
    ReachesStep(plane, c, c.(pc := c.pc + 7));
  }

  lemma RunJump(plane: seq<Cell>, c: Cpu, target: nat)
    requires c.pc >= 0 && At(plane, c.pc, JumpCode(c.pc, Some(target)))
    ensures Reaches(plane, c, c.(pc := target))
  {
    var j := JumpCode(c.pc, Some(target));
    assert plane[c.pc + 0] == j[0] && plane[c.pc + 1] == j[1];
    ReachesStep(plane, c, c.(pc := target));
  }

  lemma RunJz(plane: seq<Cell>, c: Cpu, d: int)
    requires At(plane, c.pc, JzCode(d)) && c.fl.Flags?
    ensures Reaches(plane, c, c.(pc := c.pc + 6 + if c.fl.zf then d else 0))
  {
    var j := JzCode(d);
    assert plane[c.pc + 0] == j[0] && plane[c.pc + 2] == j[2];
    ReachesStep(plane, c, c.(pc := c.pc + 6 + if c.fl.zf then d else 0));
  }

  // ---------- straight-line control code ----------

  /** Spilling the top and saving rdi. */
  lemma ExecEnter(c: Cpu) returns (c': Cpu)
    ensures Exec(EnterBlock(), 0, c) == Go(c')
    ensures c' == c.(mem := c.mem[c.rdi := c.rax], rdi := c.rdi + 1, rs := [c.rdi + 1] + c.rs, fl := Undefined)
  {
    var s := EnterBlock();
    var c1 := c.(mem := c.mem[c.rdi := c.rax], rdi := c.rdi + 1, fl := Undefined);
    c' := c1.(rs := [c.rdi + 1] + c.rs);
    assert Exec(s, 0, c) == Exec(s, 2, c1);
    assert Exec(s, 2, c1) == Exec(s, 3, c');
  }

  /** Reloading the top of the frame below base, or keeping rax as its new top. */
  function Left(c: Cpu, keep: bool, base: int, rs: seq<int>): Cpu {
    if keep then c.(rdi := base, rs := rs) else c.(rdi := base - 1, rs := rs, rax := Rd(c.mem, base - 1))
  }

  lemma LeftPc(c: Cpu, keep: bool, base: int, rs: seq<int>, pc: int, pc': int)
    ensures Left(c.(pc := pc), keep, base, rs).(pc := pc') == Left(c, keep, base, rs).(pc := pc')
  {
  }

  lemma ExecLeaveBlock(c: Cpu, keep: bool)
    requires |c.rs| > 0
    ensures Exec(LeaveBlock(keep), 0, c) == Go(Left(c, keep, c.rs[0], c.rs[1..]))
  {
    var c1 := c.(rdi := c.rs[0], rs := c.rs[1..]);
    ExecOne(P(PopRdi), c, c1);
    if keep {
      assert LeaveBlock(keep) == [P(PopRdi)];
    } else {
      ExecAppend([P(PopRdi)], PopContract(), c);
      ExecContract(c1);
    }
  }

  /** Leaving d + 1 blocks pops d + 1 saved bases and lands in the frame around the last one. */
  lemma {:induction false} ExecLeave(c: Cpu, d: nat, keep: bool)
    requires |c.rs| > d
    ensures Exec(LeaveCode(d, keep), 0, c) == Go(Left(c, keep, c.rs[d], c.rs[d + 1..]))
    decreases d
  {
    hide Exec;
    if d == 0 {
      ExecLeaveBlock(c, keep);
    } else {
      ExecLeaveBlock(c, true);
      var c1 := Left(c, true, c.rs[0], c.rs[1..]);
      ExecAppend(LeaveBlock(true), LeaveCode(d - 1, keep), c);
      ExecLeave(c1, d - 1, keep);
      assert c1.rs[d - 1] == c.rs[d] && c1.rs[d..] == c.rs[d + 1..];
    }
  }

  /** Popping a condition into the flags. */
  lemma ExecIfTest(c: Cpu) returns (c': Cpu)
    ensures Exec(IfTest(), 0, c) == Go(c')
    ensures c' == c.(rdi := c.rdi - 1, rax := Rd(c.mem, c.rdi - 1), fl := c'.fl)
    ensures c'.fl.Flags? && c'.fl.zf == (c.rax == 0)
  {
    var s := IfTest();
    var c1 := c.(rdi := c.rdi - 1, fl := Undefined);
    assert Exec(s, 0, c) == Exec(s, 1, c1);
    c' := c1.(fl := AfterTest(W64, c.rax), rax := Rd(c.mem, c.rdi - 1));
    assert Exec(s, 1, c1) == Exec(s, 3, c');
  }

  lemma ExecBrIfTest(c: Cpu) returns (c': Cpu)
    ensures Exec(BrIfTest(), 0, c) == Go(c')
    ensures c' == c.(rdi := c.rdi - 1, rax := Rd(c.mem, c.rdi - 1), fl := c'.fl)
    ensures c'.fl.Flags? && c'.fl.zf == (c.rax == 0)
  {
    var s := BrIfTest();
    var c1 := c.(fl := AfterTest(W64, c.rax));
    assert Exec(s, 0, c) == Exec(s, 1, c1);
    c' := c1.(rdi := c.rdi - 1, rax := Rd(c.mem, c.rdi - 1));
    assert Exec(s, 1, c1) == Exec(s, 3, c');
  }

  // ---------- frames ----------

  /** All operands of a frame are in memory. */
  ghost predicate Spilled(m: Memory, b: int, vs: seq<Value>) {
    forall i :: 0 <= i < |vs| ==> Rd(m, b + 1 + i) == vs[i].n
  }

  lemma EnterFrame(c: Cpu, c': Cpu, b: int, vs: seq<Value>, ls: seq<Value>)
    requires Rep(c, b, vs, ls)
    requires c' == c.(mem := c.mem[c.rdi := c.rax], rdi := c.rdi + 1, rs := [c.rdi + 1] + c.rs, fl := c'.fl, pc := c'.pc)
    ensures Spilled(c'.mem, b, vs) && Rep(c', b + |vs| + 1, [], ls) && Below(c, c', b)
  {
    forall i | 0 <= i < |vs| ensures Rd(c'.mem, b + 1 + i) == vs[i].n {
      if i < |vs| - 1 { assert Rd(c.mem, b + 1 + i) == vs[i].n; }
    }
  }

  /** After leaving a block with base ib: its results, if any, are in rax, and the frame below is current. */
  ghost predicate Exited(c: Cpu, ib: int, results: seq<Value>) {
    if |results| == 1 then c.rdi == ib && c.rax == results[0].n
    else c.rdi == ib - 1 && c.rax == Rd(c.mem, ib - 1)
  }

  lemma LeaveFrame(c: Cpu, b: int, vs: seq<Value>, results: seq<Value>)
    requires Spilled(c.mem, b, vs) && Exited(c, b + |vs| + 1, results) && |results| <= 1
    ensures Operands(c, b, vs + results)
  {
    var us := vs + results;
    if |results| == 1 {
      assert Last(us) == results[0];
    } else if |us| > 0 {
      assert us == vs && Rd(c.mem, b + 1 + (|vs| - 1)) == vs[|vs| - 1].n;
    }
    forall i | 0 <= i < |us| - 1 ensures Rd(c.mem, b + 1 + i) == us[i].n {
      assert us[i] == vs[i];
    }
  }

  lemma SpilledBelow(m: Memory, m': Memory, b: int, vs: seq<Value>)
    requires Spilled(m, b, vs) && forall a :: a < b + |vs| + 1 ==> Rd(m', a) == Rd(m, a)
    ensures Spilled(m', b, vs)
  {
  }

  lemma BelowTrans(c: Cpu, c1: Cpu, c2: Cpu, b: int, b': int)
    requires Below(c, c1, b) && Below(c1, c2, b') && b <= b'
    ensures Below(c, c2, b)
  {
    forall a | a < b ensures Rd(c2.mem, a) == Rd(c.mem, a) {
      assert Rd(c1.mem, a) == Rd(c.mem, a);
    }
    forall a | a < c.rbx ensures Rd(c2.loc, a) == Rd(c.loc, a) {
      assert Rd(c1.loc, a) == Rd(c.loc, a);
    }
  }

  // ---------- how a piece of code ends ----------

  /** A branch to label d has left d + 1 blocks.  The function's own label only needs the result in
      rax: the caller restores rdi. */
  ghost predicate Landed(c: Cpu, c': Cpu, b: int, d: nat, results: seq<Value>, ls: seq<Value>, tgts: seq<nat>) {
    && d < |tgts| < |c.rs|
    && c'.pc == tgts[d] && c'.rs == c.rs[d + 1..] && Below(c, c', b) && Locals(c', ls)
    && if d == |tgts| - 1 then InRax(c', results) else Exited(c', c.rs[d], results)
  }

  ghost predicate InRax(c: Cpu, results: seq<Value>) {
    |results| == 1 ==> c.rax == results[0].n
  }

  /** The function has returned: n blocks left, the return address popped and gone to. */
  ghost predicate Gone(c: Cpu, c': Cpu, b: int, n: nat, results: seq<Value>) {
    && n < |c.rs| && c'.pc == c.rs[n] && c'.rs == c.rs[n + 1..] && Below(c, c', b) && InRax(c', results)
  }

  /** The machine, run from c, ends the way the interpreter does: at `end` with the new frame, at a
      label, at the return address, or with a fault. */
  ghost predicate Ends(plane: seq<Cell>, c: Cpu, end: int, b: int, tgts: seq<nat>, o: Outcome) {
    match o
    case Next(vs, ls) => exists c' :: Reaches(plane, c, c') && c'.pc == end && Rep(c', b, vs, ls) && Preserves(c, c', b)
    case Branch(d, rs, ls) => exists c' :: Reaches(plane, c, c') && Landed(c, c', b, d, rs, ls, tgts)
    case Returned(rs) => exists c' :: Reaches(plane, c, c') && Gone(c, c', b, |tgts|, rs)
    case Trapped => Faults(plane, c)
    case _ => true
  }

  lemma EndsAfter(plane: seq<Cell>, c: Cpu, c1: Cpu, end: int, b: int, tgts: seq<nat>, o: Outcome)
    requires Reaches(plane, c, c1) && Preserves(c, c1, b) && Ends(plane, c1, end, b, tgts, o)
    ensures Ends(plane, c, end, b, tgts, o)
  {
    hide Reaches, Rep, Locals, Exited, InRax;
    match o
    case Next(vs, ls) =>
      var c' :| Reaches(plane, c1, c') && c'.pc == end && Rep(c', b, vs, ls) && Preserves(c1, c', b);
      ReachesTrans(plane, c, c1, c');
      BelowTrans(c, c1, c', b, b);
    case Branch(d, rs, ls) =>
      var c' :| Reaches(plane, c1, c') && Landed(c1, c', b, d, rs, ls, tgts);
      ReachesTrans(plane, c, c1, c');
      BelowTrans(c, c1, c', b, b);
    case Returned(rs) =>
      var c' :| Reaches(plane, c1, c') && Gone(c1, c', b, |tgts|, rs);
      ReachesTrans(plane, c, c1, c');
      BelowTrans(c, c1, c', b, b);
    case Trapped => ReachesFault(plane, c, c1);
    case _ =>
  }

  lemma EndsNow(plane: seq<Cell>, c: Cpu, c': Cpu, b: int, tgts: seq<nat>, vs: seq<Value>, ls: seq<Value>)
    requires Reaches(plane, c, c') && Rep(c', b, vs, ls) && Preserves(c, c', b)
    ensures Ends(plane, c, c'.pc, b, tgts, Next(vs, ls))
  {
  }

  /** The carry flag k suits a branch to label t, of n labels: a block's results are carried exactly
      when there is one; for the function's own label carrying nothing is harmless too. */
  predicate FlagOk(k: bool, t: nat, ar: seq<nat>)
    requires t < |ar|
  {
    if t == |ar| - 1 then ar[t] == 1 ==> k else k <==> ar[t] == 1
  }

  /** Leaving d + 1 blocks and jumping. */
  lemma RunLeaveJump(plane: seq<Cell>, c: Cpu, d: nat, keep: bool, target: nat)
    requires d < |c.rs| && c.pc >= 0
    requires At(plane, c.pc, Asm(LeaveCode(d, keep)) + JumpCode(c.pc + LeaveSize(d, keep), Some(target)))
    ensures Reaches(plane, c, Left(c, keep, c.rs[d], c.rs[d + 1..]).(pc := target))
  {
    hide At, Exec, Reaches, Asm, JumpCode, LeaveCode;
    var l := LeaveCode(d, keep);
    var c0 := Left(c, keep, c.rs[d], c.rs[d + 1..]);
    var c1 := c0.(pc := c.pc + |Asm(l)|);
    AtSplit(plane, c.pc, Asm(l), JumpCode(c.pc + LeaveSize(d, keep), Some(target)));
    ExecLeave(c, d, keep);
    RunCode(plane, l, c, c0);
    RunJump(plane, c1, target);
    ReachesTrans(plane, c, c1, c0.(pc := target));
  }

  lemma SimBranch(plane: seq<Cell>, c: Cpu, end: int, b: int, vs: seq<Value>, ls: seq<Value>, d: nat, keep: bool,
                  tgts: seq<nat>, ar: seq<nat>)
    requires Rep(c, b, vs, ls) && d < |ar| == |tgts| < |c.rs| && ar[d] <= 1 && ar[d] <= |vs| && FlagOk(keep, d, ar)
    requires c.pc >= 0 && At(plane, c.pc, Asm(LeaveCode(d, keep)) + JumpCode(c.pc + LeaveSize(d, keep), Some(tgts[d])))
    ensures Ends(plane, c, end, b, tgts, Branch(d, Top(vs, ar[d]), ls))
  {
    hide At, Asm, Reaches, JumpCode, LeaveCode;
    RunLeaveJump(plane, c, d, keep, tgts[d]);
    var c3 := Left(c, keep, c.rs[d], c.rs[d + 1..]).(pc := tgts[d]);
    assert Landed(c, c3, b, d, Top(vs, ar[d]), ls, tgts);
  }

  /** Straight-line code that simulates an outcome, in the plane. */
  lemma SimCode(plane: seq<Cell>, code: seq<Instr>, c: Cpu, b: int, tgts: seq<nat>, o: Outcome)
    requires At(plane, c.pc, Asm(code)) && Simulates(code, c, b, o) && (o.Next? || o.Trapped? || o.Stuck?)
    ensures Ends(plane, c, c.pc + |Asm(code)|, b, tgts, o)
  {
    hide At, Asm, Exec, Reaches, Rep, Below;
    if o.Next? {
      var c1 := Exec(code, 0, c).c;
      RunCode(plane, code, c, c1);
      var c' := c1.(pc := c.pc + |Asm(code)|);
      assert Rep(c', b, o.vs, o.ls) by { RepPc(c1, c'.pc, b, o.vs, o.ls); }
      assert Below(c, c', b) by { BelowPc(c, c1, c'.pc, b); }
      EndsNow(plane, c, c', b, tgts, o.vs, o.ls);
    } else if o.Trapped? {
      RunAsm(plane, code, 0, c, c.pc);
    }
  }

  lemma RepPc(c: Cpu, pc: int, b: int, vs: seq<Value>, ls: seq<Value>)
    requires Rep(c, b, vs, ls)
    ensures Rep(c.(pc := pc), b, vs, ls)
  {
  }

  lemma BelowPc(c: Cpu, c': Cpu, pc: int, b: int)
    requires Below(c, c', b)
    ensures Below(c, c'.(pc := pc), b)
  {
  }

  lemma SimReturn(plane: seq<Cell>, c: Cpu, end: int, b: int, vs: seq<Value>, ls: seq<Value>, n: nat, tgts: seq<nat>, results: seq<Value>)
    requires Rep(c, b, vs, ls) && n == |tgts| < |c.rs| && (|results| == 1 ==> |vs| > 0 && results[0] == Last(vs))
    requires At(plane, c.pc, Asm([P(AddRsp(n))]) + Cells(J(Ret)))
    ensures Ends(plane, c, end, b, tgts, Returned(results))
  {
    hide Exec, Reaches;
    var s := [P(AddRsp(n))];
    var c1 := c.(rs := c.rs[n..], fl := Undefined);
    AtSplit(plane, c.pc, Asm(s), Cells(J(Ret)));
    ExecOne(P(AddRsp(n)), c, c1);
    RunCode(plane, s, c, c1);
    var c2 := c1.(pc := c.pc + |Asm(s)|);
    RunRet(plane, c2);
    var c3 := c2.(pc := c.rs[n], rs := c.rs[n + 1..]);
    assert c2.rs[0] == c.rs[n] && c2.rs[1..] == c.rs[n + 1..];
    ReachesTrans(plane, c, c2, c3);
    assert Gone(c, c3, b, n, results);
  }

  lemma RunRet(plane: seq<Cell>, c: Cpu)
    requires At(plane, c.pc, Cells(J(Ret))) && |c.rs| > 0
    ensures Reaches(plane, c, c.(pc := c.rs[0], rs := c.rs[1..]))
  {
    assert plane[c.pc + 0] == Cells(J(Ret))[0];
    ReachesStep(plane, c, c.(pc := c.rs[0], rs := c.rs[1..]));
  }

  lemma SimBrIf(plane: seq<Cell>, c: Cpu, b: int, vs: seq<Value>, ls: seq<Value>, d: nat, keep: bool,
                tgts: seq<nat>, ar: seq<nat>)
    requires Rep(c, b, vs, ls) && |vs| > 0 && d < |ar| == |tgts| < |c.rs| && ar[d] <= 1 && FlagOk(keep, d, ar)
    requires Last(vs).n != 0 ==> ar[d] <= |vs| - 1
    requires c.pc >= 0
    requires var n, m := LeaveSize(d, keep), |Asm(BrIfTest())|;
      At(plane, c.pc, Asm(BrIfTest()) + JzCode(n + 5) + Asm(LeaveCode(d, keep)) + JumpCode(c.pc + m + 6 + n, Some(tgts[d])))
    ensures Ends(plane, c, c.pc + |Asm(BrIfTest())| + 6 + LeaveSize(d, keep) + 5, b, tgts,
                 if Last(vs).n != 0 then Branch(d, Top(Pop(vs, 1), ar[d]), ls) else Next(Pop(vs, 1), ls))
  {
    hide At, Asm, Exec, Reaches, JumpCode, JzCode, LeaveCode, Rep, Below, BrIfTest, Ends, FlagOk;
    var n, m := LeaveSize(d, keep), |Asm(BrIfTest())|;
    var end := c.pc + m + 6 + n + 5;
    var tail := Asm(LeaveCode(d, keep)) + JumpCode(c.pc + m + 6 + n, Some(tgts[d]));
    AtSplit4(plane, c.pc, Asm(BrIfTest()), JzCode(n + 5), Asm(LeaveCode(d, keep)), JumpCode(c.pc + m + 6 + n, Some(tgts[d])));
    var c1 := ExecBrIfTest(c);
    RunCode(plane, BrIfTest(), c, c1);
    var c2 := c1.(pc := c.pc + m);
    PopFrame(c, c2, b, vs, ls);
    RunJz(plane, c2, n + 5);
    assert c.rax == Last(vs).n by { RaxIsTop(c, b, vs, ls); }
    var c3 := c2.(pc := if c2.fl.zf then end else c.pc + m + 6);
    ReachesTrans(plane, c, c2, c3);
    RepPc(c2, c3.pc, b, Pop(vs, 1), ls);
    BelowPc(c, c2, c3.pc, b);
    if c2.fl.zf {
      EndsNow(plane, c, c3, b, tgts, Pop(vs, 1), ls);
    } else {
      SimBranch(plane, c3, end, b, Pop(vs, 1), ls, d, keep, tgts, ar);
      EndsAfter(plane, c, c3, end, b, tgts, Branch(d, Top(Pop(vs, 1), ar[d]), ls));
    }
  }

  lemma RaxIsTop(c: Cpu, b: int, vs: seq<Value>, ls: seq<Value>)
    requires Rep(c, b, vs, ls) && |vs| > 0
    ensures c.rax == Last(vs).n
  {
  }
}
