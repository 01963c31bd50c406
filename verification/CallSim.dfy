/** Running the code around a direct call, and a function's prologue and end. */
module CallSim {
  import opened Words
  import opened Wasm
  import opened X86
  import opened Codegen
  import opened OpSim
  import opened Layout
  import opened ControlSim

  // ---------- the caller ----------

  /** The top n operands have become locals 0 to n-1 of the frame at rbx. */
  ghost predicate ArgsSet(c: Cpu, c': Cpu, b: int, vs: seq<Value>, n: nat)
    requires n <= |vs|
  {
    && c' == c.(rax := c'.rax, rdi := c'.rdi, fl := c'.fl, loc := c'.loc)
    && Operands(c', b, Pop(vs, n))
    && Locals(c', Top(vs, n))
    && forall a :: a < c.rbx || a >= c.rbx + n ==> Rd(c'.loc, a) == Rd(c.loc, a)
  }

  lemma ExecSetArg(c: Cpu, n: nat) returns (c': Cpu)
    ensures Exec([M(StoreLocal(n))] + PopContract(), 0, c) == Go(c')
    ensures c' == c.(loc := c.loc[c.rbx + n := c.rax], rax := Rd(c.mem, c.rdi - 1), rdi := c.rdi - 1)
  {
    var s := [M(StoreLocal(n))] + PopContract();
    var c1 := c.(loc := c.loc[c.rbx + n := c.rax]);
    assert Exec(s, 0, c) == Exec(s, 1, c1);
    c' := c1.(rax := Rd(c.mem, c.rdi - 1), rdi := c.rdi - 1);
    assert Exec(s, 1, c1) == Exec(s, 3, c');
  }

  lemma PopOperand(c: Cpu, c1: Cpu, b: int, vs: seq<Value>)
    requires Operands(c, b, vs) && |vs| > 0
    requires c1.mem == c.mem && c1.rdi == c.rdi - 1 && c1.rax == Rd(c.mem, c.rdi - 1)
    ensures Operands(c1, b, Pop(vs, 1))
  {
    TopThree(c, b, vs);
  }

  lemma {:induction false} ExecSetArgs(c: Cpu, b: int, vs: seq<Value>, n: nat) returns (c': Cpu)
    requires Operands(c, b, vs) && n <= |vs|
    ensures Exec(SetArgs(n), 0, c) == Go(c') && ArgsSet(c, c', b, vs, n)
    decreases n
  {
    hide Exec, Operands, ArgsSet;
    if n == 0 {
      c' := c;
      NoArgs(c, b, vs);
    } else {
      var c1 := ExecSetArg(c, n - 1);
      PopOperand(c, c1, b, vs);
      c' := ExecSetArgs(c1, b, Pop(vs, 1), n - 1);
      ExecAppend([M(StoreLocal(n - 1))] + PopContract(), SetArgs(n - 1), c);
      ArgsSetStep(c, c1, c', b, vs, n);
    }
  }

  lemma NoArgs(c: Cpu, b: int, vs: seq<Value>)
    requires Operands(c, b, vs)
    ensures Exec(SetArgs(0), 0, c) == Go(c) && ArgsSet(c, c, b, vs, 0)
  {
    assert Pop(vs, 0) == vs;
  }

  lemma ArgsSetStep(c: Cpu, c1: Cpu, c': Cpu, b: int, vs: seq<Value>, n: nat)
    requires 0 < n <= |vs| && Operands(c, b, vs)
    requires c1 == c.(loc := c.loc[c.rbx + (n - 1) := c.rax], rax := Rd(c.mem, c.rdi - 1), rdi := c.rdi - 1)
    requires ArgsSet(c1, c', b, Pop(vs, 1), n - 1)
    ensures ArgsSet(c, c', b, vs, n)
  {
    hide Operands;
    assert Pop(Pop(vs, 1), n - 1) == Pop(vs, n);
    assert c.rax == Last(vs).n by { TopIs(c, b, vs); }
    ArgsLocals(c, c1, c', vs, n);
  }

  lemma TopIs(c: Cpu, b: int, vs: seq<Value>)
    requires Operands(c, b, vs) && |vs| > 0
    ensures c.rax == Last(vs).n
  {
  }

  lemma ArgsLocals(c: Cpu, c1: Cpu, c': Cpu, vs: seq<Value>, n: nat)
    requires 0 < n <= |vs| && c.rax == Last(vs).n && c1.rbx == c.rbx == c'.rbx && c1.loc == c.loc[c.rbx + (n - 1) := c.rax]
    requires Locals(c', Top(Pop(vs, 1), n - 1))
    requires forall a :: a < c1.rbx || a >= c1.rbx + (n - 1) ==> Rd(c'.loc, a) == Rd(c1.loc, a)
    ensures Locals(c', Top(vs, n))
    ensures forall a :: a < c.rbx || a >= c.rbx + n ==> Rd(c'.loc, a) == Rd(c.loc, a)
  {
    var args, more := Top(vs, n), Top(Pop(vs, 1), n - 1);
    forall i | 0 <= i < n ensures Rd(c'.loc, c.rbx + i) == args[i].n {
      if i == n - 1 {
        assert Rd(c'.loc, c.rbx + i) == Rd(c1.loc, c.rbx + i) == c.rax;
      } else {
        assert more[i] == args[i];
      }
    }
  }

  /** State at the call instruction: arguments in place, the other operands spilled, rdi saved. */
  ghost predicate AtCall(env: Env, c: Cpu, c': Cpu, b: int, vs: seq<Value>, ls: seq<Value>, n: nat)
    requires n <= |vs|
  {
    var rest := Pop(vs, n);
    && Spilled(c'.mem, b, rest)
    && c'.rdi == b + |rest| + 1 && c'.rs == [c'.rdi] + c.rs && c'.rbx == c.rbx + env.clocals
    && Locals(c', Top(vs, n))
    && (forall a :: a < b ==> Rd(c'.mem, a) == Rd(c.mem, a))
    && forall a :: a < c'.rbx ==> Rd(c'.loc, a) == Rd(c.loc, a)
  }

  lemma SpillAll(c: Cpu, c': Cpu, b: int, vs: seq<Value>)
    requires Operands(c, b, vs) && c'.mem == c.mem[c.rdi := c.rax]
    ensures Spilled(c'.mem, b, vs)
  {
    forall i | 0 <= i < |vs| ensures Rd(c'.mem, b + 1 + i) == vs[i].n {
      if i < |vs| - 1 { assert Rd(c.mem, b + 1 + i) == vs[i].n; }
    }
  }

  lemma ExecCallSetup(env: Env, f: nat, c: Cpu, b: int, vs: seq<Value>, ls: seq<Value>) returns (c': Cpu)
    requires f < |env.sigs| && f >= env.imports
    requires Rep(c, b, vs, ls) && env.sigs[f].cparams <= |vs|
    ensures Exec(CallSetup(env, f), 0, c) == Go(c') && AtCall(env, c, c', b, vs, ls, env.sigs[f].cparams)
  {
    hide Exec, SetArgs, EnterBlock, Spilled;
    var n := env.sigs[f].cparams;
    var s := [P(AddRbx(env.clocals))];
    var c1 := c.(rbx := c.rbx + env.clocals, fl := Undefined);
    ExecOne(P(AddRbx(env.clocals)), c, c1);
    var c2 := ExecSetArgs(c1, b, vs, n);
    ExecAppend(s, SetArgs(n), c);
    c' := ExecEnter(c2);
    SetArgsStraight(n);
    ExecAppend(s + SetArgs(n), EnterBlock(), c);
    assert CallSetup(env, f) == s + SetArgs(n) + EnterBlock();
    SpillAll(c2, c', b, Pop(vs, n));
  }

  lemma {:induction false} SetArgsStraight(n: nat)
    ensures NoShortJump(SetArgs(n))
  {
    if n > 0 { SetArgsStraight(n - 1); }
  }

  /** After the call: rdi and rbx restored, and the result, if any, pushed. */
  lemma ExecCallCleanup(env: Env, f: nat, c: Cpu) returns (c': Cpu)
    requires f < |env.sigs| && |c.rs| > 0
    ensures Exec(CallCleanup(env, f), 0, c) == Go(c')
    ensures c' == Left(c, env.sigs[f].hasReturn, c.rs[0], c.rs[1..]).(rbx := c.rbx - env.clocals, fl := Undefined)
  {
    var s := CallCleanup(env, f);
    var c1 := c.(rdi := c.rs[0], rs := c.rs[1..]);
    var c2 := c1.(rbx := c.rbx - env.clocals, fl := Undefined);
    assert Exec(s, 0, c) == Exec(s, 1, c1);
    assert Exec(s, 1, c1) == Exec(s, 2, c2);
    c' := c2;
    if !env.sigs[f].hasReturn {
      c' := c2.(rax := Rd(c.mem, c2.rdi - 1), rdi := c2.rdi - 1);
      assert Exec(s, 2, c2) == Exec(s, 4, c');
    }
  }

  // ---------- the callee ----------

  lemma {:induction false} ZeroRangeIs(m: Memory, a: int, n: nat, x: int)
    ensures Rd(ZeroRange(m, a, n), x) == if a <= x < a + n then 0 else Rd(m, x)
    decreases n
  {
    if n > 0 { ZeroRangeIs(m, a, n - 1, x); }
  }

  lemma ZeroedLocals(c: Cpu, c': Cpu, args: seq<Value>, tys: seq<U8>)
    requires Locals(c, args) && c'.rbx == c.rbx && c'.loc == ZeroRange(c.loc, c.rbx + |args|, |tys|)
    ensures Locals(c', args + Zeros(tys)) && forall a :: a < c.rbx ==> Rd(c'.loc, a) == Rd(c.loc, a)
  {
    var ls := args + Zeros(tys);
    forall i | 0 <= i < |ls| ensures Rd(c'.loc, c'.rbx + i) == ls[i].n {
      ZeroRangeIs(c.loc, c.rbx + |args|, |tys|, c.rbx + i);
      if i < |args| { assert Rd(c.loc, c.rbx + i) == args[i].n; }
    }
    forall a | a < c.rbx ensures Rd(c'.loc, a) == Rd(c.loc, a) {
      ZeroRangeIs(c.loc, c.rbx + |args|, |tys|, a);
    }
  }

  lemma RunZero(plane: seq<Cell>, env: Env, c: Cpu, args: seq<Value>, tys: seq<U8>) returns (c': Cpu)
    requires env.clocals == |args| + |tys| && Locals(c, args)
    requires |tys| > 0 ==> At(plane, c.pc, Cells(X(ZeroLocals(|args|, |tys|))))
    ensures Reaches(plane, c, c')
    ensures c' == c.(pc := c.pc + if |tys| > 0 then 25 else 0, rax := c'.rax, rcx := c'.rcx, rdx := c'.rdx, fl := c'.fl, loc := c'.loc)
    ensures Locals(c', args + Zeros(tys)) && forall a :: a < c.rbx ==> Rd(c'.loc, a) == Rd(c.loc, a)
  {
    hide Reaches;
    if |tys| == 0 {
      c' := c;
      ReachesRefl(plane, c);
      assert args + Zeros(tys) == args;
    } else {
      assert plane[c.pc + 0] == Cells(X(ZeroLocals(|args|, |tys|)))[0];
      c' := c.(pc := c.pc + 25, rax := 0, rcx := 0, rdx := Lo(W64, c.rdi), fl := Undefined,
               loc := ZeroRange(c.loc, c.rbx + |args|, |tys|));
      assert Step(plane, c) == Go(c');
      ReachesStep(plane, c, c');
      ZeroedLocals(c, c', args, tys);
    }
  }

  lemma FrameOpened(c: Cpu, c1: Cpu, c2: Cpu, ls: seq<Value>)
    requires c1.rdi == c.rdi && c1.rbx == c.rbx && c1.mem == c.mem && Locals(c1, ls)
    requires forall a :: a < c.rbx ==> Rd(c1.loc, a) == Rd(c.loc, a)
    requires c2 == c1.(mem := c1.mem[c1.rdi := c1.rax], rdi := c1.rdi + 1, rs := c2.rs, fl := c2.fl, pc := c2.pc)
    ensures Rep(c2, c.rdi + 1, [], ls) && Below(c, c2, c.rdi)
  {
  }

  /** The prologue zeroes the declared locals and opens the function's own frame. */
  lemma RunPrologue(plane: seq<Cell>, env: Env, c: Cpu, args: seq<Value>, tys: seq<U8>) returns (c': Cpu)
    requires env.clocals == |args| + |tys| && Locals(c, args) && At(plane, c.pc, Prologue(env, |args|))
    ensures Reaches(plane, c, c')
    ensures c'.pc == c.pc + |Prologue(env, |args|)| && c'.rs == [c.rdi + 1] + c.rs
    ensures Rep(c', c.rdi + 1, [], args + Zeros(tys)) && Below(c, c', c.rdi)
  {
    hide At, Reaches, Exec, Asm, Cells, EnterBlock, Zeros, Rd, Locals, Rep, Below;
    var z := if |tys| > 0 then Cells(X(ZeroLocals(|args|, |tys|))) else [];
    AtSplit(plane, c.pc, z, Enter());
    var c1 := RunZero(plane, env, c, args, tys);
    var c2 := ExecEnter(c1);
    RunCode(plane, EnterBlock(), c1, c2);
    c' := c2.(pc := c1.pc + |Enter()|);
    ReachesTrans(plane, c, c1, c');
    FrameOpened(c, c1, c', args + Zeros(tys));
  }

  /** How a call ends, seen from the callee's entry. */
  ghost predicate CallEnds(plane: seq<Cell>, c: Cpu, o: Outcome) {
    match o
    case Returned(rs) => exists c' :: Reaches(plane, c, c') && Gone(c, c', c.rdi, 0, rs)
    case Trapped => Faults(plane, c)
    case _ => true
  }

  /** From the body's own ending to the return: falling off the end and branching to the function's
      label both reach the final `ret`. */
  lemma FnEnds(plane: seq<Cell>, c: Cpu, c1: Cpu, close: nat, o: Outcome, arity: nat)
    requires |c.rs| > 0 && arity <= 1
    requires Reaches(plane, c, c1) && c1.rs == [c.rdi + 1] + c.rs && Below(c, c1, c.rdi)
    requires At(plane, close, Close(true) + Cells(J(Ret)))
    requires Ends(plane, c1, close, c.rdi + 1, [close + CloseSize(true)], o)
    ensures CallEnds(plane, c, CallResult(o, arity))
  {
    hide At, Reaches, Faults, Below, Close, Cells, CloseSize;
    var fin := close + CloseSize(true);
    AtSplit(plane, close, Close(true), Cells(J(Ret)));
    match o
    case Next(vs, ls) =>
      if |vs| == arity {
        var c2 :| Reaches(plane, c1, c2) && c2.pc == close && Rep(c2, c.rdi + 1, vs, ls) && Preserves(c1, c2, c.rdi + 1);
        var c3 := RunClose(plane, c2, true);
        RunRet(plane, c3);
        var c4 := c3.(pc := c3.rs[0], rs := c3.rs[1..]);
        ReachesTrans(plane, c, c1, c2);
        ReachesTrans(plane, c, c2, c3);
        ReachesTrans(plane, c, c3, c4);
        BelowTrans(c, c1, c2, c.rdi, c.rdi + 1);
        BelowSame(c, c2, c4, c.rdi);
        assert Gone(c, c4, c.rdi, 0, vs);
      }
    case Branch(d, rs, ls) =>
      if d == 0 {
        var c2 :| Reaches(plane, c1, c2) && Landed(c1, c2, c.rdi + 1, 0, rs, ls, [fin]);
        RunRet(plane, c2);
        var c3 := c2.(pc := c2.rs[0], rs := c2.rs[1..]);
        ReachesTrans(plane, c, c1, c2);
        ReachesTrans(plane, c, c2, c3);
        BelowTrans(c, c1, c2, c.rdi, c.rdi + 1);
        BelowSame(c, c2, c3, c.rdi);
        assert Gone(c, c3, c.rdi, 0, rs);
      }
    case Returned(rs) =>
      var c2 :| Reaches(plane, c1, c2) && Gone(c1, c2, c.rdi + 1, 1, rs);
      ReachesTrans(plane, c, c1, c2);
      BelowTrans(c, c1, c2, c.rdi, c.rdi + 1);
      assert Gone(c, c2, c.rdi, 0, rs);
    case Trapped => ReachesFault(plane, c, c1);
    case _ =>
  }

  lemma BelowSame(c: Cpu, c1: Cpu, c2: Cpu, b: int)
    requires Below(c, c1, b) && c2.mem == c1.mem && c2.loc == c1.loc && c2.rbx == c1.rbx
    ensures Below(c, c2, b)
  {
  }

  /** Running an `end`. */
  lemma RunClose(plane: seq<Cell>, c: Cpu, keep: bool) returns (c': Cpu)
    requires At(plane, c.pc, Close(keep)) && |c.rs| > 0
    ensures Reaches(plane, c, c') && c' == Left(c, keep, c.rs[0], c.rs[1..]).(pc := c.pc + CloseSize(keep))
  {
    hide At, Reaches, Exec, Asm, Left;
    AtSplit(plane, c.pc, Dbg(END), Asm(LeaveBlock(keep)));
    var c1 := c.(pc := c.pc + 7);
    RunDbg(plane, END, c);
    ExecLeaveBlock(c1, keep);
    var c2 := Left(c1, keep, c.rs[0], c.rs[1..]);
    RunCode(plane, LeaveBlock(keep), c1, c2);
    c' := c2.(pc := c1.pc + |Asm(LeaveBlock(keep))|);
    ReachesTrans(plane, c, c1, c');
    LeftPc(c, keep, c.rs[0], c.rs[1..], c1.pc, c'.pc);
  }

  /** Back in the caller: its frame without the arguments, the result on top, its locals untouched. */
  lemma AfterCall(env: Env, c: Cpu, c2: Cpu, c3: Cpu, c4: Cpu, c5: Cpu, b: int, vs: seq<Value>, ls: seq<Value>, n: nat,
                  results: seq<Value>, hasReturn: bool)
    requires Rep(c, b, vs, ls) && n <= |vs| && |ls| == env.clocals && AtCall(env, c, c2, b, vs, ls, n)
    requires c3 == c2.(pc := c3.pc, rs := c3.rs) && |c3.rs| > 0 && c3.rs[1..] == c2.rs
    requires Gone(c3, c4, c3.rdi, 0, results) && hasReturn == (|results| == 1) && |results| <= 1
    requires c5 == Left(c4, hasReturn, c4.rs[0], c4.rs[1..]).(rbx := c4.rbx - env.clocals, fl := c5.fl, pc := c5.pc)
    ensures Rep(c5, b, Pop(vs, n) + results, ls) && Preserves(c, c5, b)
  {
    var rest := Pop(vs, n);
    assert c4.rs == c2.rs == [c2.rdi] + c.rs;
    assert c5.rs == c.rs && c5.rbx == c.rbx;
    CallOperands(c2, c4, c5, b, rest, results);
    CallBelow(c, c2, c4, c5, b, ls);
  }

  lemma CallOperands(c2: Cpu, c4: Cpu, c5: Cpu, b: int, rest: seq<Value>, results: seq<Value>)
    requires Spilled(c2.mem, b, rest) && c2.rdi == b + |rest| + 1 && |results| <= 1 && InRax(c4, results)
    requires forall a :: a < c2.rdi ==> Rd(c4.mem, a) == Rd(c2.mem, a)
    requires c5.mem == c4.mem
    requires if |results| == 1 then c5.rdi == c2.rdi && c5.rax == c4.rax else c5.rdi == c2.rdi - 1 && c5.rax == Rd(c4.mem, c2.rdi - 1)
    ensures Operands(c5, b, rest + results)
  {
    SpilledBelow(c2.mem, c4.mem, b, rest);
    LeaveFrame(c5, b, rest, results);
  }

  lemma CallBelow(c: Cpu, c2: Cpu, c4: Cpu, c5: Cpu, b: int, ls: seq<Value>)
    requires Locals(c, ls) && c5.mem == c4.mem && c5.loc == c4.loc && c5.rbx == c.rbx && c2.rbx == c.rbx + |ls| && b <= c2.rdi
    requires forall a :: a < b ==> Rd(c2.mem, a) == Rd(c.mem, a)
    requires forall a :: a < c2.rbx ==> Rd(c2.loc, a) == Rd(c.loc, a)
    requires forall a :: a < c2.rdi ==> Rd(c4.mem, a) == Rd(c2.mem, a)
    requires forall a :: a < c2.rbx ==> Rd(c4.loc, a) == Rd(c2.loc, a)
    ensures Locals(c5, ls) && Below(c, c5, b)
  {
    forall i | 0 <= i < |ls| ensures Rd(c5.loc, c5.rbx + i) == ls[i].n {
      assert Rd(c.loc, c.rbx + i) == ls[i].n;
    }
  }

  lemma RunCallTable(plane: seq<Cell>, c: Cpu, f: nat)
    requires At(plane, c.pc, Cells(J(CallTable(8 * f - (c.pc + 6)))))
    requires 8 * f < |plane| && plane[8 * f].Ptr? && plane[8 * f].a != 0
    ensures Reaches(plane, c, c.(pc := plane[8 * f].a, rs := [c.pc + 6] + c.rs))
  {
    assert plane[c.pc + 0] == Cells(J(CallTable(8 * f - (c.pc + 6))))[0];
    ReachesStep(plane, c, c.(pc := plane[8 * f].a, rs := [c.pc + 6] + c.rs));
  }
}
