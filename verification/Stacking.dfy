/** What the code of an opcode does to the machine stack, whatever the registers and memory hold. */
module Stacking {
  import opened Words
  import opened Wasm
  import opened X86
  import opened Codegen
  import opened Layout
  import opened ControlSim
  import opened CallSim

  /** The run faults, or ends with the machine stack as it was. */
  ghost predicate KeepsStack(r: Result, c: Cpu) { r.Fault? || (r.Go? && r.c.rs == c.rs) }

  /** Instructions that leave the machine stack alone and need nothing of the state. */
  predicate Steady(i: Instr) {
    match i
    case M(o) => !o.MovRaxIndexed?
    case R(_) => true
    case P(o) => !o.PushRdi? && !o.PopRdi? && !o.AddRsp?
    case A(_) => true
    case X(_) => true
    case J(o) => o.Ud2?
  }

  lemma SteadyDo(i: Instr, c: Cpu)
    requires Steady(i)
    ensures KeepsStack(Do(i, c), c)
  {
    hide Rd, StoreW, Store32, Lo, AluResult, ZeroRange, TDiv, BitwiseW, TrailingZeros, LeadingZeros, Popcnt, AfterSub, AfterTest;
    match i
    case M(o) =>
    case R(o) =>
    case P(o) =>
    case A(o) =>
    case X(o) =>
    case J(o) =>
  }

  predicate AllSteady(code: seq<Instr>) { forall k :: 0 <= k < |code| ==> Steady(code[k]) }

  lemma {:induction false} SteadyExec(code: seq<Instr>, k: nat, c: Cpu)
    requires AllSteady(code) && k <= |code|
    ensures KeepsStack(Exec(code, k, c), c)
    decreases |code| - k
  {
    hide Do;
    if k < |code| {
      SteadyDo(code[k], c);
      if Do(code[k], c).Go? { SteadyExec(code, k + 1, Do(code[k], c).c); }
    }
  }

  lemma DivSteady(w: Width, signed: bool, modulo: bool)
    ensures AllSteady(DivCode(w, signed, modulo))
  {
  }

  lemma BinSteady(w: Width, b: IntOp)
    ensures AllSteady(BinCode(w, b))
  {
    hide DivCode, Steady;
    match b
    case DivS => DivSteady(w, true, false);
    case DivU => DivSteady(w, false, false);
    case RemS => DivSteady(w, true, true);
    case RemU => DivSteady(w, false, true);
    case _ => SimpleSteady(w, b);
  }

  lemma SimpleSteady(w: Width, b: IntOp)
    requires !b.DivS? && !b.DivU? && !b.RemS? && !b.RemU?
    ensures AllSteady(BinCode(w, b))
  {
    hide DivCode;
  }

  lemma OpSteady(op: Op)
    requires !op.Eqz? && !op.Rel? && !op.Select?
    ensures AllSteady(OpCode(op))
  {
    hide BinCode, EqzCode, SelectCode, Compare;
    if op.Bin? { BinSteady(op.w, op.bin); }
  }

  lemma EqzKeeps(w: Width, c: Cpu)
    ensures KeepsStack(Exec(EqzCode(w), 0, c), c)
  {
    hide Lo, AfterTest;
    var s := EqzCode(w);
    var c2 := c.(rax := 1, fl := if w.W32? then AfterTest(W32, Lo(W32, c.rax)) else AfterTest(W64, c.rax));
    assert Lo(W32, 1) == 1 by { LoOne(); }
    assert Exec(s, 0, c) == Exec(s, 2, c2);
    var c3 := c2.(rax := 0, fl := Undefined);
    assert Exec(s, 4, c2) == Go(c2) && Exec(s, 3, c2) == Exec(s, 4, c3) == Go(c3);
    assert c2.fl.Flags? by { TestIsFlags(W32, Lo(W32, c.rax)); TestIsFlags(W64, c.rax); }
    assert Exec(s, 2, c2) == if Holds(CondE, c2.fl) then Exec(s, 4, c2) else Exec(s, 3, c2);
  }

  lemma LoOne()
    ensures Lo(W32, 1) == 1
  {
  }

  lemma TestIsFlags(w: Width, x: Word)
    ensures AfterTest(w, x).Flags?
  {
  }

  lemma RelKeeps(w: Width, cc: Cond, c: Cpu)
    ensures KeepsStack(Exec(Compare(w, cc), 0, c), c)
  {
    hide Lo, AfterSub, Rd;
    var s := Compare(w, cc);
    var x := Rd(c.mem, c.rdi - 1);
    var c2 := c.(rcx := x, rdi := c.rdi - 1, fl := Undefined);
    assert Exec(s, 0, c) == Exec(s, 2, c2);
    var c4 := c2.(rax := 1, fl := AfterSub(w, Lo(w, x), Lo(w, c.rax)));
    assert Lo(W32, 1) == 1 by { LoOne(); }
    assert Exec(s, 2, c2) == Exec(s, 4, c4);
    assert c4.fl.Flags? by { SubIsFlags(w, Lo(w, x), Lo(w, c.rax)); }
    var c5 := c4.(rax := 0, fl := Undefined);
    assert Exec(s, 6, c4) == Go(c4) && Exec(s, 5, c4) == Exec(s, 6, c5) == Go(c5);
    assert Exec(s, 4, c4) == if Holds(cc, c4.fl) then Exec(s, 6, c4) else Exec(s, 5, c4);
  }

  lemma SubIsFlags(w: Width, a: Word, b: Word)
    ensures AfterSub(w, a, b).Flags?
  {
  }

  lemma SelectKeeps(c: Cpu)
    ensures KeepsStack(Exec(SelectCode(), 0, c), c)
  {
    hide Rd, Lo;
    var s := SelectCode();
    var c1 := c.(rdi := c.rdi - 2, rcx := 0, fl := Undefined);
    assert Exec(s, 0, c) == Exec(s, 2, c1);
    var c2 := c1.(fl := AfterTest(W32, Lo(W32, c.rax)));
    assert Exec(s, 2, c1) == Exec(s, 3, c2);
    var c3 := c2.(rcx := 8, fl := Undefined);
    assert Lo(W64, 8) == 8 by { LoEight(); }
    assert Exec(s, 4, c2) == Exec(s, 5, c3);
    assert Exec(s, 3, c2) == if Holds(CondNE, c2.fl) then Exec(s, 5, c2) else Exec(s, 4, c2);
    IndexedKeeps(c2);
    IndexedKeeps(c3);
  }

  lemma LoEight()
    ensures Lo(W64, 0 + 8) == 8
  {
  }

  lemma IndexedKeeps(c: Cpu)
    requires c.rcx % 8 == 0
    ensures KeepsStack(Exec(SelectCode(), 5, c), c)
  {
    hide Rd;
    var c1 := c.(rax := Rd(c.mem, c.rdi + c.rcx / 8));
    assert Exec(SelectCode(), 5, c) == Exec(SelectCode(), 6, c1) == Go(c1);
  }

  /** The code of a plain operation faults or leaves the machine stack as it was. */
  lemma PlainKeeps(op: Op, c: Cpu)
    ensures KeepsStack(Exec(OpCode(op), 0, c), c)
  {
    hide Exec, AllSteady, KeepsStack, EqzCode, SelectCode;
    match op
    case Eqz(w) => EqzKeeps(w, c);
    case Rel(w, r) => RelKeeps(w, CondOf(r), c);
    case Select => SelectKeeps(c);
    case _ => OpSteady(op); SteadyExec(OpCode(op), 0, c);
  }

  lemma {:induction false} SetArgsSteady(n: nat)
    ensures AllSteady(SetArgs(n))
  {
    if n > 0 { SetArgsSteady(n - 1); }
  }

  /** Setting up a call saves one rdi. */
  lemma SetupPushes(env: Env, f: nat, c: Cpu) returns (c': Cpu)
    requires f < |env.sigs|
    ensures Exec(CallSetup(env, f), 0, c) == Go(c') && c'.rs == [c'.rdi] + c.rs
  {
    hide Exec, SetArgs, EnterBlock, AllSteady;
    var n := env.sigs[f].cparams;
    var s := [P(AddRbx(env.clocals))];
    var m := if f < env.imports then [R(MovEcxImm(f))] else [];
    var c1 := c.(rbx := c.rbx + env.clocals, fl := Undefined);
    ExecOne(P(AddRbx(env.clocals)), c, c1);
    SetArgsSteady(n);
    SteadyExec(SetArgs(n), 0, c1);
    NoFaultArgs(n, c1);
    SetArgsStraight(n);
    ExecAppend(s, SetArgs(n), c);
    var c2 := Exec(SetArgs(n), 0, c1).c;
    var c3 := ExecEnter(c2);
    ExecAppend(s + SetArgs(n), EnterBlock(), c);
    EnterStraight();
    NoShortBoth(s + SetArgs(n), EnterBlock());
    ExecAppend(s + SetArgs(n) + EnterBlock(), m, c);
    c' := ExecMaybe(f, f < env.imports, c3);
  }

  lemma EnterStraight()
    ensures NoShortJump(EnterBlock())
  {
  }

  lemma NoShortBoth(a: seq<Instr>, b: seq<Instr>)
    requires NoShortJump(a) && NoShortJump(b)
    ensures NoShortJump(a + b)
  {
  }

  lemma ExecMaybe(f: nat, imported: bool, c: Cpu) returns (c': Cpu)
    ensures Exec(if imported then [R(MovEcxImm(f))] else [], 0, c) == Go(c') && c'.rs == c.rs && c'.rdi == c.rdi
  {
    hide Lo;
    c' := if imported then c.(rcx := Lo(W32, f)) else c;
    if imported { ExecOne(R(MovEcxImm(f)), c, c'); }
  }

  lemma {:induction false} NoFaultArgs(n: nat, c: Cpu)
    ensures !Exec(SetArgs(n), 0, c).Fault?
    decreases n
  {
    hide Exec;
    if n > 0 {
      var c1 := ExecSetArg(c, n - 1);
      NoFaultArgs(n - 1, c1);
      ExecAppend([M(StoreLocal(n - 1))] + PopContract(), SetArgs(n - 1), c);
    } else {
      NothingRuns(c);
    }
  }

  lemma NothingRuns(c: Cpu)
    ensures Exec(SetArgs(0), 0, c) == Go(c)
  {
  }
}
