/** Three validated functions that return the wrong number: one branches back to a loop that has a result
    type, one has a branch table whose default and selected target differ in their block types, one has
    a void if with an else-arm. */
module WrongResults {
  import opened Words
  import opened Wasm
  import opened X86
  import opened Codegen
  import opened OpSim
  import opened Layout
  import opened ControlSim
  import opened TableSim
  import opened CallSim
  import opened Pieces
  import opened Sim
  import opened Fragment
  import opened StraightLine
  import opened Typing
  import opened Divergence

  // ---------- machine runs of unsupported code ----------

  /** The code of plain operations, wherever it is. */
  lemma {:induction false} RunStraight(plane: seq<Cell>, env: Env, ops: seq<Op>, next: Body, keeps: seq<bool>, tgts: seq<nat>,
                                       c: Cpu, b: int, vs: seq<Value>, ls: seq<Value>) returns (c': Cpu)
    requires |tgts| == |keeps| && Laid(plane, env, Straight(ops, next), c.pc, keeps, tgts)
    requires Rep(c, b, vs, ls) && RunOps(ops, vs, ls).Next?
    ensures var o := RunOps(ops, vs, ls);
      Reaches(plane, c, c') && Laid(plane, env, next, c'.pc, keeps, tgts) && Rep(c', b, o.vs, o.ls) && Preserves(c, c', b)
    ensures BodyOk(env, Straight(ops, next), |keeps|) && BodyOk(env, next, |keeps|)
    ensures c'.pc + Size(env, next, keeps) == c.pc + Size(env, Straight(ops, next), keeps)
    decreases |ops|
  {
    hide Laid, Reaches, Rep, Below, EvalOp, At, Asm, OpCode, AtomSize, Size, AtomOk, OpByte, Dbg, Simulates;
    if |ops| == 0 {
      c' := c;
      ReachesRefl(plane, c);
      BelowItself(c, b);
      LaidOk(plane, env, next, c.pc, keeps, tgts);
    } else {
      var op := ops[0];
      LaidAtomic(plane, env, Plain(op), Straight(ops[1..], next), c.pc, keeps, tgts);
      var o := EvalOp(op, vs, ls);
      PlainSize(env, op, keeps);
      var c1 := RunPlain(plane, op, OpByte(op), c, b, vs, ls);
      c' := RunStraight(plane, env, ops[1..], next, keeps, tgts, c1, b, o.vs, o.ls);
      ReachesTrans(plane, c, c1, c');
      BelowTrans(c, c1, c', b, b);
    }
  }

  lemma LaidOk(plane: seq<Cell>, env: Env, b: Body, p: int, keeps: seq<bool>, tgts: seq<nat>)
    requires |tgts| == |keeps| && Laid(plane, env, b, p, keeps, tgts)
    ensures p >= 0 && BodyOk(env, b, |keeps|)
  {
  }

  lemma PlainSize(env: Env, op: Op, keeps: seq<bool>)
    requires AtomOk(env, Plain(op), |keeps|)
    ensures AtomSize(env, Plain(op), keeps) == |Asm(OpCode(op))|
  {
    hide Asm, OpCode;
  }

  lemma BelowItself(c: Cpu, b: int)
    ensures Below(c, c, b)
  {
  }

  lemma RunPlain(plane: seq<Cell>, op: Op, byte: nat, c: Cpu, b: int, vs: seq<Value>, ls: seq<Value>) returns (c': Cpu)
    requires At(plane, c.pc, Dbg(byte)) && At(plane, c.pc + 7, Asm(OpCode(op))) && Rep(c, b, vs, ls) && EvalOp(op, vs, ls).Next?
    ensures var o := EvalOp(op, vs, ls);
      Reaches(plane, c, c') && c'.pc == c.pc + 7 + |Asm(OpCode(op))| && Rep(c', b, o.vs, o.ls) && Preserves(c, c', b)
  {
    hide Reaches, Rep, Below, EvalOp, At, Asm, OpCode, Exec, Dbg;
    var c1 := c.(pc := c.pc + 7);
    RunDbg(plane, byte, c);
    RepPc(c, c1.pc, b, vs, ls);
    SimOp(op, c1, b, vs, ls);
    var o := EvalOp(op, vs, ls);
    var r := Exec(OpCode(op), 0, c1).c;
    RunCode(plane, OpCode(op), c1, r);
    c' := r.(pc := c1.pc + |Asm(OpCode(op))|);
    RepPc(r, c'.pc, b, o.vs, o.ls);
    BelowPc(c1, r, c'.pc, b);
    ReachesTrans(plane, c, c1, c');
    BelowItself(c, b);
    BelowPc(c, c, c1.pc, b);
    BelowTrans(c, c1, c', b, b);
  }

  /** br_if 0 back to the loop around it, or past it. */
  lemma RunBackIf(plane: seq<Cell>, env: Env, next: Body, keeps: seq<bool>, tgts: seq<nat>, c: Cpu, b: int, v: Value, ls: seq<Value>) returns (c': Cpu)
    requires |tgts| == |keeps| > 0 && Laid(plane, env, Atomic(BrIf(0), next), c.pc, keeps, tgts)
    requires Rep(c, b, [v], ls) && |c.rs| > 0 && keeps[0]
    ensures Reaches(plane, c, c') && Below(c, c', b)
    ensures v.n != 0 ==> c'.pc == tgts[0] && c'.rdi == c.rs[0] && c'.rs == c.rs[1..] && Locals(c', ls)
    ensures BodyOk(env, Atomic(BrIf(0), next), |keeps|) && BodyOk(env, next, |keeps|)
    ensures v.n == 0 ==>
      && Laid(plane, env, next, c'.pc, keeps, tgts) && Rep(c', b, [], ls) && c'.rs == c.rs
      && c'.pc + Size(env, next, keeps) == c.pc + Size(env, Atomic(BrIf(0), next), keeps)
  {
    hide Laid, Reaches, At, Asm, AtomSize, Size, BodyOk, Dbg, GenAtom, LeaveCode, JumpCode, JzCode, BrIfTest, Exec, Rep, Below;
    LaidOk(plane, env, Atomic(BrIf(0), next), c.pc, keeps, tgts);
    LaidAtomic(plane, env, BrIf(0), next, c.pc, keeps, tgts);
    BrIfPieces(env, c.pc + 7, keeps, tgts);
    var n, m := LeaveSize(0, true), |Asm(BrIfTest())|;
    var q := c.pc + 7 + m + 6;
    RunDbg(plane, 0x0d, c);
    var c1 := c.(pc := c.pc + 7);
    AtSplit4(plane, c1.pc, Asm(BrIfTest()), JzCode(n + 5), Asm(LeaveCode(0, true)), JumpCode(q + n, Some(tgts[0])));
    var c2 := ExecBrIfTest(c1);
    RunCode(plane, BrIfTest(), c1, c2);
    var c3 := c2.(pc := c1.pc + m);
    RunJz(plane, c3, n + 5);
    var c4 := c3.(pc := if c3.fl.zf then q + n + 5 else q);
    ReachesTrans(plane, c, c1, c3);
    ReachesTrans(plane, c, c3, c4);
    PopFrame(c, c4, b, [v], ls);
    RaxIsTop(c, b, [v], ls);
    c' := c4;
    if v.n != 0 {
      RunLeaveJump(plane, c4, 0, true, tgts[0]);
      c' := Left(c4, true, c.rs[0], c.rs[1..]).(pc := tgts[0]);
      ReachesTrans(plane, c, c4, c');
      BackBelow(c, c4, c', b, ls);
    }
  }

  lemma BackBelow(c: Cpu, c1: Cpu, c': Cpu, b: int, ls: seq<Value>)
    requires Below(c, c1, b) && Rep(c1, b, [], ls) && c'.mem == c1.mem && c'.loc == c1.loc && c'.rbx == c1.rbx
    ensures Below(c, c', b) && Locals(c', ls)
  {
  }

  lemma BrIfPieces(env: Env, p: nat, keeps: seq<bool>, tgts: seq<nat>)
    requires |tgts| == |keeps| > 0 && AtomOk(env, BrIf(0), |keeps|) && keeps[0]
    ensures var n, m := LeaveSize(0, true), |Asm(BrIfTest())|;
      && GenAtom(env, BrIf(0), p, keeps, Somes(tgts), Somes(tgts))
         == Asm(BrIfTest()) + JzCode(n + 5) + Asm(LeaveCode(0, true)) + JumpCode(p + m + 6 + n, Some(tgts[0]))
      && AtomSize(env, BrIf(0), keeps) == m + 6 + n + 5
    ensures AtomByte(BrIf(0)) == 0x0d
  {
    hide Asm, LeaveCode, JumpCode, JzCode, BrIfTest;
  }

  /** From the end of a function's body: the top operand is returned. */
  lemma RunFnEnd(plane: seq<Cell>, c: Cpu, b: int, vs: seq<Value>, ls: seq<Value>, rs0: seq<int>) returns (c': Cpu)
    requires At(plane, c.pc, Close(true) + Cells(J(Ret))) && Rep(c, b, vs, ls) && |vs| > 0 && |rs0| > 0 && c.rs == [b] + rs0
    ensures Reaches(plane, c, c') && c'.pc == rs0[0] && c'.rs == rs0[1..] && c'.rax == Last(vs).n
  {
    hide At, Reaches, Close, Cells, CloseSize, Rep;
    AtSplit(plane, c.pc, Close(true), Cells(J(Ret)));
    RaxIsTop(c, b, vs, ls);
    var c1 := RunClose(plane, c, true);
    RunRet(plane, c1);
    c' := c1.(pc := c1.rs[0], rs := c1.rs[1..]);
    ReachesTrans(plane, c, c1, c');
  }

  // ---------- a loop with a result type ----------

  function I32(n: U32): Value { Val(W32, n) }

  function BackBody(): Body {
    Straight([GetLocal(0), Const(I32(0)), SetLocal(0)], Atomic(BrIf(0), Straight([Const(I32(7))], Done)))
  }

  function BackLoop(): Body { Loop(0x7f, BackBody(), DropBoth()) }

  /** (func (param i32 i32 i32) (result i32)
        local.get 1  local.get 2
        loop (result i32)  local.get 0  i32.const 0  local.set 0  br_if 0  i32.const 7  end
        drop  drop) */
  function LoopFn(): Func { Defined(3, 1, [], Straight([GetLocal(1), GetLocal(2)], BackLoop())) }

  function Three(n: U32, u: U32, x: U32): seq<Value> { [I32(n), I32(u), I32(x)] }

  /** Two locals pushed. */
  lemma GetBoth(i: U32, j: U32, ops: seq<Op>, vs: seq<Value>, ls: seq<Value>)
    requires i < |ls| && j < |ls|
    ensures RunOps([GetLocal(i), GetLocal(j)] + ops, vs, ls) == RunOps(ops, vs + [ls[i], ls[j]], ls)
  {
    hide RunOps;
    assert [GetLocal(i), GetLocal(j)] + ops == [GetLocal(i)] + ([GetLocal(j)] + ops);
    GetStep(i, [GetLocal(j)] + ops, vs, ls);
    GetStep(j, ops, vs + [ls[i]], ls);
    assert vs + [ls[i]] + [ls[j]] == vs + [ls[i], ls[j]];
  }

  lemma BackOps(n: U32, u: U32, x: U32)
    ensures RunOps([GetLocal(1), GetLocal(2)], [], Three(n, u, x)) == Next([I32(u), I32(x)], Three(n, u, x))
    ensures RunOps([GetLocal(0), Const(I32(0)), SetLocal(0)], [], Three(n, u, x)) == Next([I32(n)], Three(0, u, x))
  {
    hide RunOps;
    var none: seq<Value> := [];
    var ls := Three(n, u, x);
    GetBoth(1, 2, [], none, ls);
    assert [GetLocal(1), GetLocal(2)] + [] == [GetLocal(1), GetLocal(2)] && none + [ls[1], ls[2]] == [I32(u), I32(x)];
    OpsDone([I32(u), I32(x)], ls);
    var s: seq<Op> := [SetLocal(0)] + [];
    GetStep(0, [Const(I32(0))] + s, none, ls);
    PushStep(I32(0), s, none + [ls[0]], ls);
    assert [GetLocal(0)] + ([Const(I32(0))] + s) == [GetLocal(0), Const(I32(0)), SetLocal(0)] && none + [ls[0]] == [I32(n)];
    SetStep(0, [], [I32(n)], I32(0), ls);
    assert ls[0 := I32(0)] == Three(0, u, x);
    OpsDone([I32(n)], Three(0, u, x));
  }

  lemma SevenOps(ls: seq<Value>)
    ensures RunOps([Const(I32(7))], [], ls) == Next([I32(7)], ls)
  {
    hide RunOps;
    var none: seq<Value> := [];
    assert none + [I32(7)] == [I32(7)] && [Const(I32(7))] + [] == [Const(I32(7))];
    PushStep(I32(7), [], none, ls);
    OpsDone([I32(7)], ls);
  }

  /** Two operands dropped. */
  lemma DropOps(vs: seq<Value>, a: Value, b: Value, ls: seq<Value>)
    ensures RunOps([Drop, Drop], vs + [a, b], ls) == Next(vs, ls)
  {
    hide RunOps;
    assert vs + [a, b] == vs + [a] + [b] && [Drop] + [Drop] == [Drop, Drop] && [Drop] + [] == [Drop];
    DropStep([Drop], vs + [a], b, ls);
    DropStep([], vs, a, ls);
    OpsDone(vs, ls);
  }

  /** Back at the head of the loop, the frame around it one operand too big. */
  ghost predicate Back(c: Cpu, p: nat, b: int, us: seq<Value>, ls: seq<Value>) {
    c.pc == p + 7 && Rep(c, b, us + [Junk(c)], ls)
  }

  /** Past the loop with its result. */
  ghost predicate Out(plane: seq<Cell>, env: Env, keeps: seq<bool>, tgts: seq<nat>, c: Cpu, b: int, us: seq<Value>, ls: seq<Value>) {
    |tgts| == |keeps| && Laid(plane, env, DropBoth(), c.pc, keeps, tgts) && Rep(c, b, us + [I32(7)], ls)
  }

  /** Whatever word rax holds, as an operand. */
  function Junk(c: Cpu): Value { Val(W64, c.rax) }

  function DropBoth(): Body { Straight([Drop, Drop], Done) }

  /** The frame after an exit that kept a word it should not have. */
  lemma ExtraWord(c: Cpu, b: int, us: seq<Value>)
    requires Spilled(c.mem, b, us) && c.rdi == b + |us| + 1
    ensures Operands(c, b, us + [Junk(c)])
  {
    LeaveFrame(c, b, us, [Junk(c)]);
  }

  /** One iteration from the loop's head.  The branch back arrives with one operand too many. */
  lemma Iteration(plane: seq<Cell>, env: Env, p: nat, keeps: seq<bool>, tgts: seq<nat>, c: Cpu, b: int, us: seq<Value>, n: U32, u: U32, x: U32)
      returns (c': Cpu)
    requires |tgts| == |keeps| && Laid(plane, env, BackLoop(), p, keeps, tgts) && c.pc == p + 7 && Rep(c, b, us, Three(n, u, x))
    ensures Reaches(plane, c, c') && Preserves(c, c', b)
    ensures BodyOk(env, BackLoop(), |keeps|) && p >= 0
    ensures if n != 0 then Back(c', p, b, us, Three(0, u, x))
      else Out(plane, env, keeps, tgts, c', b, us, Three(0, u, x)) && c'.pc == EndOf(env, BackLoop(), p, keeps)
  {
    hide Laid, Reaches, At, Size, HeadSize, CloseSize, Close, Dbg, Enter, BodyOk, Rep, Below, Spilled, Three, Straight, RunOps, Inner, EndOf, Operands, Locals, Left, Junk;
    var lp, ls, ib := BackLoop(), Three(n, u, x), b + |us| + 1;
    var k, t := [true] + keeps, [p + 7] + tgts;
    LaidNested(plane, env, lp, p, keeps, tgts);
    ArmsOk(env, lp, |keeps|);
    LaidArm(plane, env, lp, p, keeps, tgts);
    AtSplit(plane, p, Dbg(LOOP), Enter());
    var c1 := EnterArm(plane, c, b, us, ls);
    LoopHeadSize(lp);
    BackOps(n, u, x);
    var c2 := RunStraight(plane, env, [GetLocal(0), Const(I32(0)), SetLocal(0)], Atomic(BrIf(0), Straight([Const(I32(7))], Done)), k, t, c1, ib, [], ls);
    var c3 := RunBackIf(plane, env, Straight([Const(I32(7))], Done), k, t, c2, ib, I32(n), Three(0, u, x));
    ReachesTrans(plane, c1, c2, c3);
    BelowTrans(c1, c2, c3, ib, ib);
    if n != 0 {
      c' := c3;
      StillSpilled(c1, c3, b, us, ib);
      ExtraWord(c3, b, us);
      RepOf(c3, b, us + [Junk(c3)], Three(0, u, x));
      assert c'.rs == c.rs;
    } else {
      SevenOps(Three(0, u, x));
      var c4 := RunStraight(plane, env, [Const(I32(7))], Done, k, t, c3, ib, [], Three(0, u, x));
      ReachesTrans(plane, c1, c3, c4);
      BelowTrans(c1, c3, c4, ib, ib);
      SizeOfDone(env, k);
      c' := CloseLoop(plane, c1, c4, b, us, Three(0, u, x), c.rs);
    }
    ReachesTrans(plane, c, c1, c');
    BelowTrans(c, c1, c', b, ib);
  }

  lemma RepOf(c: Cpu, b: int, vs: seq<Value>, ls: seq<Value>)
    requires Operands(c, b, vs) && Locals(c, ls)
    ensures Rep(c, b, vs, ls)
  {
  }

  lemma SizeOfDone(env: Env, keeps: seq<bool>)
    ensures Size(env, Done, keeps) == 0
  {
  }

  lemma LoopHeadSize(b: Body)
    requires b.Loop?
    ensures HeadSize(b) == 7 + |Enter()|
  {
    hide Enter;
  }

  /** Leaving by `end` a block with the one result 7. */
  lemma CloseLoop(plane: seq<Cell>, c1: Cpu, c: Cpu, b: int, us: seq<Value>, ls: seq<Value>, rs: seq<int>) returns (c': Cpu)
    requires Reaches(plane, c1, c) && At(plane, c.pc, Close(true)) && Rep(c, b + |us| + 1, [I32(7)], ls) && Below(c1, c, b + |us| + 1)
    requires c.rs == [b + |us| + 1] + rs && Spilled(c1.mem, b, us)
    ensures Reaches(plane, c1, c') && c'.pc == c.pc + CloseSize(true) && Rep(c', b, us + [I32(7)], ls) && c'.rs == rs && Below(c1, c', b + |us| + 1)
  {
    hide Reaches, At, Close, CloseSize, Spilled;
    c' := RunClose(plane, c, true);
    ReachesTrans(plane, c1, c, c');
    StillSpilled(c1, c, b, us, b + |us| + 1);
    LeaveFrame(c', b, us, [I32(7)]);
  }

  /** The whole function: x comes back instead of u. */
  lemma LoopReturnsWrong(w: World, f: nat, c: Cpu, n: U32, u: U32, x: U32) returns (c': Cpu)
    requires Present(w, f) && w.fs[f] == LoopFn() && c.pc == w.plane[8 * f].a && |c.rs| > 0
    requires n != 0 && Locals(c, Three(n, u, x))
    ensures Reaches(w.plane, c, c') && c'.pc == c.rs[0] && c'.rs == c.rs[1..] && c'.rax == x
  {
    hide Laid, Reaches, At, Size, CloseSize, Close, Cells, Prologue, BodyOk, Rep, Below, Three, Straight, RunOps, Locals, GenFn, FnEnd, BackLoop, Back, Out, Zeros, EndOf;
    var env, body, b, rs0 := FnEnv(w, f), LoopFn().body, c.rdi + 1, c.rs;
    var close := c.pc + |Prologue(env, 3)| + Size(env, body, [true]);
    var t := [close + CloseSize(true)];
    LaidFn(w.plane, env, 3, body, c.pc);
    NoLocals(Three(n, u, x));
    ThreeSize(n, u, x);
    var c1 := RunPrologue(w.plane, env, c, Three(n, u, x), []);
    BackOps(n, u, x);
    var c2 := RunStraight(w.plane, env, [GetLocal(1), GetLocal(2)], BackLoop(), [true], t, c1, b, [], Three(n, u, x));
    var c3 := RunLoop(w.plane, env, t, c2, b, n, u, x);
    DropOps([I32(u), I32(x)], c3.0, I32(7), Three(0, u, x));
    var c4 := RunStraight(w.plane, env, [Drop, Drop], Done, [true], t, c3.1, b, [I32(u), I32(x)] + [c3.0, I32(7)], Three(0, u, x));
    SizeOfDone(env, [true]);
    c' := RunFnEnd(w.plane, c4, b, [I32(u), I32(x)], Three(0, u, x), rs0);
    ReachesTrans(w.plane, c, c1, c2);
    ReachesTrans(w.plane, c, c2, c3.1);
    ReachesTrans(w.plane, c, c3.1, c4);
    ReachesTrans(w.plane, c, c4, c');
  }

  lemma NoLocals(ls: seq<Value>)
    ensures ls + Zeros([]) == ls
  {
  }

  lemma ThreeSize(n: U32, u: U32, x: U32)
    ensures |Three(n, u, x)| == 3
  {
  }

  /** The loop of the function: entered, left by the branch back, and run to its end.  What the branch
      left behind is under the result. */
  lemma RunLoop(plane: seq<Cell>, env: Env, t: seq<nat>, c: Cpu, b: int, n: U32, u: U32, x: U32) returns (r: (Value, Cpu))
    requires |t| == 1 && Laid(plane, env, BackLoop(), c.pc, [true], t) && n != 0 && Rep(c, b, [I32(u), I32(x)], Three(n, u, x))
    ensures Reaches(plane, c, r.1) && r.1.rs == c.rs && Rep(r.1, b, [I32(u), I32(x)] + [r.0, I32(7)], Three(0, u, x))
    ensures Laid(plane, env, DropBoth(), r.1.pc, [true], t) && BodyOk(env, BackLoop(), 1) && BodyOk(env, DropBoth(), 1)
    ensures r.1.pc + Size(env, DropBoth(), [true]) == c.pc + Size(env, BackLoop(), [true])
  {
    hide Laid, Reaches, At, Size, BodyOk, Rep, Below, Three, Straight, EndOf, Head, DropBoth, Dbg, Enter, Junk;
    var us := [I32(u), I32(x)];
    LaidNested(plane, env, BackLoop(), c.pc, [true], t);
    LoopDbg(plane, BackLoop(), c.pc, OtherOf(env, BackLoop(), c.pc, [true]));
    RunDbg(plane, LOOP, c);
    var c1 := c.(pc := c.pc + 7);
    RepPc(c, c1.pc, b, us, Three(n, u, x));
    var c2 := Iteration(plane, env, c.pc, [true], t, c1, b, us, n, u, x);
    var c3 := Iteration(plane, env, c.pc, [true], t, c2, b, us + [Junk(c2)], 0, u, x);
    ReachesTrans(plane, c, c1, c2);
    ReachesTrans(plane, c, c2, c3);
    assert us + [Junk(c2)] + [I32(7)] == us + [Junk(c2), I32(7)];
    LaidOk(plane, env, DropBoth(), c3.pc, [true], t);
    r := (Junk(c2), c3);
  }

  lemma LoopDbg(plane: seq<Cell>, b: Body, p: int, other: int)
    requires b.Loop? && p >= 0 && At(plane, p, Head(b, p, other))
    ensures At(plane, p, Dbg(LOOP)) && At(plane, p + 7, Enter())
  {
    hide At, Dbg, Enter;
    AtSplit(plane, p, Dbg(LOOP), Enter());
  }

  // ---------- what it should return ----------

  lemma BackBodyEval(fs: seq<Func>, n: U32, u: U32, x: U32, fuel: nat)
    ensures Eval(fs, BackBody(), [0, 1], [], Three(n, u, x), fuel)
         == if n != 0 then Branch(0, [], Three(0, u, x)) else Next([I32(7)], Three(0, u, x))
  {
    hide Eval, Straight, RunOps, Three;
    var none: seq<Value> := [];
    var ls := Three(0, u, x);
    var rest := Straight([Const(I32(7))], Done);
    BackOps(n, u, x);
    StraightEval(fs, [GetLocal(0), Const(I32(0)), SetLocal(0)], Atomic(BrIf(0), rest), [0, 1], none, Three(n, u, x), fuel);
    assert Pop([I32(n)], 1) == none && Top(none, 0) == none;
    AtomStep(fs, BrIf(0), rest, [0, 1], [I32(n)], ls, fuel);
    SevenOps(ls);
    StraightEval(fs, [Const(I32(7))], Done, [0, 1], none, ls, fuel);
    DoneStep(fs, [0, 1], [I32(7)], ls, fuel);
  }

  lemma BackLoopEval(fs: seq<Func>, vs: seq<Value>, n: U32, u: U32, x: U32, fuel: nat)
    requires fuel > 0
    ensures EvalLoop(fs, BackLoop(), [1], vs, Three(n, u, x), fuel) == Next(vs + [I32(7)], Three(0, u, x))
  {
    hide Eval, Straight, Three, BackBody;
    assert [0] + [1] == [0, 1];
    BackBodyEval(fs, n, u, x, fuel);
    if n != 0 { BackBodyEval(fs, 0, u, x, fuel - 1); }
  }

  /** The interpreter returns u. */
  lemma LoopShouldReturn(fs: seq<Func>, f: nat, n: U32, u: U32, x: U32, fuel: nat)
    requires f < |fs| && fs[f] == LoopFn() && fuel > 0
    ensures Invoke(fs, f, Three(n, u, x), fuel) == Returned([I32(u)])
  {
    hide Eval, EvalLoop, Straight, RunOps, Three, BackBody;
    var us := [I32(u), I32(x)];
    var ls := Three(0, u, x);
    BackOps(n, u, x);
    StraightEval(fs, [GetLocal(1), GetLocal(2)], BackLoop(), [1], [], Three(n, u, x), fuel);
    BackLoopEval(fs, us, n, u, x, fuel);
    EvalThen(fs, BackLoop(), [1], us, Three(n, u, x), fuel);
    assert us + [I32(7)] == [I32(u)] + [I32(x), I32(7)];
    DropOps([I32(u)], I32(x), I32(7), ls);
    StraightEval(fs, [Drop, Drop], Done, [1], us + [I32(7)], ls, fuel);
    DoneStep(fs, [1], [I32(u)], ls, fuel);
    NoLocals(Three(n, u, x));
  }

  // ---------- validation ----------

  function CheckOps(ctx: Ctx, ops: seq<Op>, st: seq<Width>): End
    decreases |ops|
  {
    if |ops| == 0 then Falls(st)
    else
      match CheckOp(ctx, ops[0], st)
      case Falls(st') => CheckOps(ctx, ops[1..], st')
      case e => e
  }

  lemma {:induction false} StraightCheck(ctx: Ctx, ops: seq<Op>, next: Body, st: seq<Width>)
    requires CheckOps(ctx, ops, st).Falls?
    ensures Check(ctx, Straight(ops, next), st) == Check(ctx, next, CheckOps(ctx, ops, st).st)
    decreases |ops|
  {
    hide CheckOp, Check;
    if |ops| > 0 {
      CheckIs(ctx, Straight(ops, next), st);
      StraightCheck(ctx, ops[1..], next, CheckOp(ctx, ops[0], st).st);
    }
  }

  lemma OpsCheck(ctx: Ctx, op: Op, ops: seq<Op>, st: seq<Width>, st': seq<Width>)
    requires CheckOp(ctx, op, st) == Falls(st')
    ensures CheckOps(ctx, [op] + ops, st) == CheckOps(ctx, ops, st')
  {
    hide CheckOp;
    assert ([op] + ops)[1..] == ops;
  }

  lemma NoneCheck(ctx: Ctx, st: seq<Width>)
    ensures CheckOps(ctx, [], st) == Falls(st) && Check(ctx, Done, st) == Falls(st)
  {
  }

  lemma GetsCheck(ctx: Ctx, i: U32, j: U32)
    requires i < |ctx.locals| && j < |ctx.locals| && ctx.locals[i] == ctx.locals[j] == W32
    ensures CheckOps(ctx, [GetLocal(i), GetLocal(j)], []) == Falls([W32, W32])
  {
    hide CheckOps;
    var none: seq<Width> := [];
    var one, two := [W32], [W32, W32];
    assert none + one == one && one + one == two;
    OpsCheck(ctx, GetLocal(i), [GetLocal(j)], none, one);
    OpsCheck(ctx, GetLocal(j), [], one, two);
    NoneCheck(ctx, two);
    assert [GetLocal(i)] + [GetLocal(j)] == [GetLocal(i), GetLocal(j)] && [GetLocal(j)] + [] == [GetLocal(j)];
  }

  lemma ConstCheck(ctx: Ctx, n: U32)
    ensures CheckOps(ctx, [Const(I32(n))], []) == Falls([W32])
  {
    hide CheckOps;
    var none: seq<Width> := [];
    assert none + [W32] == [W32] && [Const(I32(n))] + [] == [Const(I32(n))];
    OpsCheck(ctx, Const(I32(n)), [], none, [W32]);
    NoneCheck(ctx, [W32]);
  }

  lemma ResetCheck(ctx: Ctx)
    requires ctx.locals == [W32, W32, W32]
    ensures CheckOps(ctx, [GetLocal(0), Const(I32(0)), SetLocal(0)], []) == Falls([W32])
  {
    hide CheckOps;
    var none: seq<Width> := [];
    var one, two := [W32], [W32, W32];
    var s: seq<Op> := [SetLocal(0)];
    assert none + one == one && one + one == two && Pop(two, 1) == one && Top(two, 1) == one && one + none == one;
    OpsCheck(ctx, GetLocal(0), [Const(I32(0)), SetLocal(0)], none, one);
    OpsCheck(ctx, Const(I32(0)), s, one, two);
    OpsCheck(ctx, SetLocal(0), [], two, one);
    NoneCheck(ctx, one);
    assert [GetLocal(0)] + [Const(I32(0)), SetLocal(0)] == [GetLocal(0), Const(I32(0)), SetLocal(0)];
    assert [Const(I32(0))] + s == [Const(I32(0)), SetLocal(0)] && [SetLocal(0)] + [] == s;
  }

  lemma DropsCheck(ctx: Ctx)
    ensures CheckOps(ctx, [Drop, Drop], [W32, W32, W32]) == Falls([W32])
    ensures CheckOps(ctx, [Drop], [W32, W32]) == Falls([W32])
  {
    hide CheckOps;
    var one, two := [W32], [W32, W32];
    assert Pop(two, 1) == one && Pop([W32, W32, W32], 1) == two;
    OpsCheck(ctx, Drop, [Drop], [W32, W32, W32], two);
    OpsCheck(ctx, Drop, [], two, one);
    NoneCheck(ctx, one);
    assert [Drop] + [Drop] == [Drop, Drop] && [Drop] + [] == [Drop];
  }

  /** It is well-typed. */
  lemma LoopFnTyped(fts: seq<Option<FType>>)
    ensures FnTyped(fts, FType([W32, W32, W32], [W32]), LoopFn())
  {
    hide Check, CheckOps, Straight;
    var ctx := Ctx(fts, [W32, W32, W32], [[W32]]);
    var inner := ctx.(labels := [[]] + ctx.labels);
    assert [W32, W32, W32] + ZeroTypes([]) == [W32, W32, W32];
    ResetCheck(inner);
    ConstCheck(inner, 7);
    GetsCheck(ctx, 1, 2);
    DropsCheck(ctx);
    var rest := Straight([Const(I32(7))], Done);
    StraightCheck(inner, [GetLocal(0), Const(I32(0)), SetLocal(0)], Atomic(BrIf(0), rest), []);
    var none: seq<Width> := [];
    assert Pop([W32], 1) == none && Top(none, 0) == none;
    CheckIs(inner, Atomic(BrIf(0), rest), [W32]);
    StraightCheck(inner, [Const(I32(7))], Done, []);
    NoneCheck(inner, [W32]);
    assert Check(inner, BackBody(), []) == Falls([W32]);
    StraightCheck(ctx, [GetLocal(1), GetLocal(2)], BackLoop(), []);
    CheckIs(ctx, BackLoop(), [W32, W32]);
    assert [W32, W32] + [W32] == [W32, W32, W32];
    StraightCheck(ctx, [Drop, Drop], Done, [W32, W32, W32]);
    NoneCheck(ctx, [W32]);
  }

  // ---------- a branch table over labels of different block types ----------

  function ZeroTable(): Body { Straight([Const(I32(0))], Atomic(BrTable([0], 1), Done)) }

  function TableBlock(): Body { Block(EMPTY_BLOCK, ZeroTable(), Straight([Drop], Done)) }

  function TableLoop(): Body { Loop(0x7f, Straight([GetLocal(0), GetLocal(1)], TableBlock()), Done) }

  /** (func (param i32 i32) (result i32)
        loop (result i32)  local.get 0  local.get 1  block  i32.const 0  br_table 0 1  end  drop  end)
      Both labels carry nothing, but the default's block, the loop, has a result type. */
  function TableFn(): Func { Defined(2, 1, [], TableLoop()) }

  function Two(u: U32, x: U32): seq<Value> { [I32(u), I32(x)] }

  lemma TwoOps(u: U32, x: U32)
    ensures RunOps([GetLocal(0), GetLocal(1)], [], Two(u, x)) == Next(Two(u, x), Two(u, x))
  {
    hide RunOps;
    var none: seq<Value> := [];
    var ls := Two(u, x);
    GetBoth(0, 1, [], none, ls);
    assert [GetLocal(0), GetLocal(1)] + [] == [GetLocal(0), GetLocal(1)] && none + [ls[0], ls[1]] == ls;
    OpsDone(ls, ls);
  }

  lemma ZeroOps(ls: seq<Value>)
    ensures RunOps([Const(I32(0))], [], ls) == Next([I32(0)], ls)
  {
    hide RunOps;
    var none: seq<Value> := [];
    assert none + [I32(0)] == [I32(0)] && [Const(I32(0))] + [] == [Const(I32(0))];
    PushStep(I32(0), [], none, ls);
    OpsDone([I32(0)], ls);
  }

  lemma DropOne(vs: seq<Value>, a: Value, ls: seq<Value>)
    ensures RunOps([Drop], vs + [a], ls) == Next(vs, ls)
  {
    hide RunOps;
    assert [Drop] + [] == [Drop];
    DropStep([], vs, a, ls);
    OpsDone(vs, ls);
  }

  lemma TablePieces(env: Env, p: nat, keeps: seq<bool>, tgts: seq<nat>)
    requires |tgts| == |keeps| > 1 && AtomOk(env, BrTable([0], 1), |keeps|) && keeps[1]
    ensures DepthsOk([0], |tgts|)
    ensures GenAtom(env, BrTable([0], 1), p, keeps, Somes(tgts), Somes(tgts))
         == TableHead(env, p, 1, true) + Entry(1, Some(tgts[1])) + Entries([0], Somes(tgts))
    ensures AtomByte(BrTable([0], 1)) == 0x0e
  {
    hide TableHead, Entry, Entries;
  }

  /** The table: to the block's end, with a word too many on the frame around the block. */
  lemma RunZeroTable(plane: seq<Cell>, env: Env, keeps: seq<bool>, tgts: seq<nat>, c: Cpu, b: int, ls: seq<Value>) returns (c': Cpu)
    requires |tgts| == |keeps| > 1 && keeps[1] && Laid(plane, env, ZeroTable(), c.pc, keeps, tgts) && Rep(c, b, [], ls) && |tgts| < |c.rs|
    requires |plane| < T32 && BranchTableSlot(env) < |plane| && plane[BranchTableSlot(env)] == Extern(BranchTable)
    ensures Reaches(plane, c, c') && Below(c, c', b) && Locals(c', ls)
    ensures c'.pc == tgts[0] && c'.rdi == c.rs[0] && c'.rs == c.rs[1..]
  {
    hide Laid, Reaches, At, Size, BodyOk, Rep, Below, Straight, RunOps, Dbg, TableHead, Entry, Entries, BranchTableSlot, AtomSize;
    ZeroOps(ls);
    var t := Atomic(BrTable([0], 1), Done);
    var c1 := RunStraight(plane, env, [Const(I32(0))], t, keeps, tgts, c, b, [], ls);
    LaidOk(plane, env, t, c1.pc, keeps, tgts);
    LaidAtomic(plane, env, BrTable([0], 1), Done, c1.pc, keeps, tgts);
    TablePieces(env, c1.pc + 7, keeps, tgts);
    RunDbg(plane, 0x0e, c1);
    var c2 := c1.(pc := c1.pc + 7);
    RaxIsTop(c1, b, [I32(0)], ls);
    assert Selected([0], 1, Lo(W32, 0)) == 0;
    c' := RunTable(plane, env, c2, [0], 1, true, tgts);
    ReachesTrans(plane, c, c1, c2);
    ReachesTrans(plane, c, c2, c');
    TableBelow(c, c1, c', b, ls);
  }

  lemma TableBelow(c: Cpu, c1: Cpu, c': Cpu, b: int, ls: seq<Value>)
    requires Below(c, c1, b) && Rep(c1, b, [I32(0)], ls) && c'.mem == c1.mem && c'.loc == c1.loc && c'.rbx == c1.rbx
    ensures Below(c, c', b) && Locals(c', ls)
  {
  }

  /** The block, from its opcode to its end. */
  lemma RunTableBlock(plane: seq<Cell>, env: Env, keeps: seq<bool>, tgts: seq<nat>, c: Cpu, b: int, us: seq<Value>, ls: seq<Value>) returns (c': Cpu)
    requires |tgts| == |keeps| > 0 && keeps[0] && Laid(plane, env, TableBlock(), c.pc, keeps, tgts) && Rep(c, b, us, ls) && |tgts| < |c.rs|
    requires |plane| < T32 && BranchTableSlot(env) < |plane| && plane[BranchTableSlot(env)] == Extern(BranchTable)
    ensures Reaches(plane, c, c') && Preserves(c, c', b) && Rep(c', b, us + [Junk(c')], ls)
    ensures BodyOk(env, TableBlock(), |keeps|) && BodyOk(env, Straight([Drop], Done), |keeps|)
    ensures Laid(plane, env, Straight([Drop], Done), c'.pc, keeps, tgts)
    ensures c'.pc + Size(env, Straight([Drop], Done), keeps) == c.pc + Size(env, TableBlock(), keeps)
  {
    hide Laid, Reaches, At, Size, CloseSize, Close, Dbg, Enter, BodyOk, Rep, Below, Spilled, Straight, Inner, EndOf, Operands, Locals, BranchTableSlot, ZeroTable, Head, HeadSize;
    var p, bl, ib := c.pc, TableBlock(), b + |us| + 1;
    LaidNested(plane, env, bl, p, keeps, tgts);
    ArmsOk(env, bl, |keeps|);
    LaidArm(plane, env, bl, p, keeps, tgts);
    var e := EndOf(env, bl, p, keeps);
    BlockDbg(plane, bl, p, OtherOf(env, bl, p, keeps));
    RunDbg(plane, BLOCK, c);
    var c0 := c.(pc := p + 7);
    RepPc(c, c0.pc, b, us, ls);
    var c1 := EnterArm(plane, c0, b, us, ls);
    c' := RunZeroTable(plane, env, [false] + keeps, [e] + tgts, c1, ib, ls);
    ReachesTrans(plane, c, c0, c1);
    ReachesTrans(plane, c, c1, c');
    SamePc(c, c0, b);
    BelowTrans(c, c0, c1, b, b);
    BelowTrans(c, c1, c', b, ib);
    StillSpilled(c1, c', b, us, ib);
    ExtraWord(c', b, us);
    RepOf(c', b, us + [Junk(c')], ls);
    LaidOk(plane, env, bl.next, e, keeps, tgts);
  }

  lemma SamePc(c: Cpu, c': Cpu, b: int)
    requires c' == c.(pc := c'.pc)
    ensures Below(c, c', b)
  {
  }

  lemma BlockDbg(plane: seq<Cell>, b: Body, p: int, other: int)
    requires b.Block? && p >= 0 && At(plane, p, Head(b, p, other))
    ensures At(plane, p, Dbg(BLOCK)) && At(plane, p + 7, Enter()) && HeadSize(b) == 7 + |Enter()|
  {
    hide At, Dbg, Enter;
    AtSplit(plane, p, Dbg(BLOCK), Enter());
  }

  /** The whole function: x comes back instead of u. */
  lemma TableReturnsWrong(w: World, f: nat, c: Cpu, u: U32, x: U32) returns (c': Cpu)
    requires Present(w, f) && w.fs[f] == TableFn() && c.pc == w.plane[8 * f].a && |c.rs| > 0 && Locals(c, Two(u, x))
    requires |w.plane| < T32 && 8 * |w.sigs| + 8 < |w.plane| && w.plane[8 * |w.sigs| + 8] == Extern(BranchTable)
    ensures Reaches(w.plane, c, c') && c'.pc == c.rs[0] && c'.rs == c.rs[1..] && c'.rax == x
  {
    hide Laid, Reaches, At, Size, CloseSize, Close, Cells, Prologue, BodyOk, Rep, Below, Two, Straight, RunOps, Locals, GenFn, FnEnd, TableLoop, Zeros;
    var env, body, b, rs0 := FnEnv(w, f), TableLoop(), c.rdi + 1, c.rs;
    var close := c.pc + |Prologue(env, 2)| + Size(env, body, [true]);
    var t := [close + CloseSize(true)];
    LaidFn(w.plane, env, 2, body, c.pc);
    NoLocals(Two(u, x));
    assert |Two(u, x)| == 2 by { TwoSize(u, x); }
    var c1 := RunPrologue(w.plane, env, c, Two(u, x), []);
    var c2 := RunTableLoop(w.plane, env, t, c1, b, u, x);
    c' := RunFnEnd(w.plane, c2, b, [I32(x)], Two(u, x), rs0);
    ReachesTrans(w.plane, c, c1, c2);
    ReachesTrans(w.plane, c, c2, c');
  }

  lemma TwoSize(u: U32, x: U32)
    ensures |Two(u, x)| == 2
  {
  }

  lemma RunTableLoop(plane: seq<Cell>, env: Env, t: seq<nat>, c: Cpu, b: int, u: U32, x: U32) returns (c': Cpu)
    requires |t| == 1 < |c.rs| && Laid(plane, env, TableLoop(), c.pc, [true], t) && Rep(c, b, [], Two(u, x))
    requires |plane| < T32 && BranchTableSlot(env) < |plane| && plane[BranchTableSlot(env)] == Extern(BranchTable)
    ensures Reaches(plane, c, c') && c'.rs == c.rs && Rep(c', b, [I32(x)], Two(u, x))
    ensures BodyOk(env, TableLoop(), 1) && c'.pc == c.pc + Size(env, TableLoop(), [true])
  {
    hide Laid, Reaches, At, Size, HeadSize, CloseSize, Close, Dbg, Enter, BodyOk, Rep, Below, Spilled, Two, Straight, RunOps, Inner, EndOf, Operands, Locals, Left,
         TableBlock, BranchTableSlot, Head, Junk;
    var p, lp, ib, ls := c.pc, TableLoop(), b + 1, Two(u, x);
    var none: seq<Value> := [];
    var k, ts := [true] + [true], [p + 7] + t;
    LaidNested(plane, env, lp, p, [true], t);
    ArmsOk(env, lp, 1);
    LaidArm(plane, env, lp, p, [true], t);
    LoopDbg(plane, lp, p, OtherOf(env, lp, p, [true]));
    LoopHeadSize(lp);
    RunDbg(plane, LOOP, c);
    var c0 := c.(pc := p + 7);
    RepPc(c, c0.pc, b, none, ls);
    var c1 := EnterArm(plane, c0, b, none, ls);
    TwoOps(u, x);
    var c2 := RunStraight(plane, env, [GetLocal(0), GetLocal(1)], TableBlock(), k, ts, c1, ib, none, ls);
    var c3 := RunTableBlock(plane, env, k, ts, c2, ib, ls, ls);
    DropOne(ls, Junk(c3), ls);
    var c4 := RunStraight(plane, env, [Drop], Done, k, ts, c3, ib, ls + [Junk(c3)], ls);
    SizeOfDone(env, k);
    RaxIsTwo(c4, ib, u, x);
    c' := RunClose(plane, c4, true);
    LoopLeft(c4, c', b, u, x, c.rs);
    SizeOfDone(env, [true]);
    ReachesTrans(plane, c, c0, c1);
    ReachesTrans(plane, c, c1, c2);
    ReachesTrans(plane, c, c2, c3);
    ReachesTrans(plane, c, c3, c4);
    ReachesTrans(plane, c, c4, c');
  }

  lemma RaxIsTwo(c: Cpu, b: int, u: U32, x: U32)
    requires Rep(c, b, Two(u, x), Two(u, x))
    ensures c.rax == x
  {
  }

  lemma LoopLeft(c: Cpu, c': Cpu, b: int, u: U32, x: U32, rs: seq<int>)
    requires Rep(c, b + 1, Two(u, x), Two(u, x)) && c.rax == x && c.rs == [b + 1] + rs
    requires c' == Left(c, true, c.rs[0], c.rs[1..]).(pc := c'.pc)
    ensures Rep(c', b, [I32(x)], Two(u, x)) && c'.rs == rs
  {
  }

  /** The interpreter returns u. */
  lemma TableShouldReturn(fs: seq<Func>, f: nat, u: U32, x: U32, fuel: nat)
    requires f < |fs| && fs[f] == TableFn()
    ensures Invoke(fs, f, Two(u, x), fuel) == Returned([I32(u)])
  {
    hide Eval, Straight, RunOps, Two;
    var none: seq<Value> := [];
    var ls := Two(u, x);
    TwoOps(u, x);
    assert [0] + [1] == [0, 1] && [0] + [0, 1] == [0, 0, 1];
    StraightEval(fs, [GetLocal(0), GetLocal(1)], TableBlock(), [0, 1], none, ls, fuel);
    ZeroOps(ls);
    StraightEval(fs, [Const(I32(0))], Atomic(BrTable([0], 1), Done), [0, 0, 1], none, ls, fuel);
    assert Pop([I32(0)], 1) == none && Top(none, 0) == none;
    AtomStep(fs, BrTable([0], 1), Done, [0, 0, 1], [I32(0)], ls, fuel);
    assert Eval(fs, ZeroTable(), [0, 0, 1], none, ls, fuel) == Branch(0, none, ls);
    EvalThen(fs, TableBlock(), [0, 1], ls, ls, fuel);
    assert ls + none == ls;
    assert ls == [I32(u)] + [I32(x)] by { TwoIs(u, x); }
    DropOne([I32(u)], I32(x), ls);
    StraightEval(fs, [Drop], Done, [0, 1], ls, ls, fuel);
    DoneStep(fs, [0, 1], [I32(u)], ls, fuel);
    EvalThen(fs, TableLoop(), [1], none, ls, fuel);
    assert none + [I32(u)] == [I32(u)];
    DoneStep(fs, [1], [I32(u)], ls, fuel);
    NoLocals(ls);
  }

  lemma TwoIs(u: U32, x: U32)
    ensures Two(u, x) == [I32(u)] + [I32(x)]
  {
  }

  lemma TableCheck(ctx: Ctx)
    requires |ctx.labels| > 1 && ctx.labels[0] == ctx.labels[1] == []
    ensures CheckAtom(ctx, BrTable([0], 1), [W32]) == Never
  {
    var none: seq<Width> := [];
    assert Pop([W32], 1) == none && Top(none, 0) == none && Top([W32], 1) == [W32];
  }

  lemma ZeroTableTyped(ctx: Ctx)
    requires |ctx.labels| > 1 && ctx.labels[0] == ctx.labels[1] == []
    ensures Check(ctx, ZeroTable(), []) == Never
  {
    hide Check, CheckOps, Straight, CheckAtom;
    ConstCheck(ctx, 0);
    StraightCheck(ctx, [Const(I32(0))], Atomic(BrTable([0], 1), Done), []);
    TableCheck(ctx);
    CheckIs(ctx, Atomic(BrTable([0], 1), Done), [W32]);
  }

  lemma TableArmTyped(ctx: Ctx)
    requires |ctx.labels| > 0 && ctx.labels[0] == [] && ctx.locals == [W32, W32]
    ensures Check(ctx, TableLoop().body, []) == Falls([W32])
  {
    hide Check, CheckOps, Straight, ZeroTable;
    var none: seq<Width> := [];
    ZeroTableTyped(ctx.(labels := [[]] + ctx.labels));
    CheckIs(ctx, TableBlock(), [W32, W32]);
    assert [W32, W32] + none == [W32, W32];
    GetsCheck(ctx, 0, 1);
    StraightCheck(ctx, [GetLocal(0), GetLocal(1)], TableBlock(), none);
    DropsCheck(ctx);
    StraightCheck(ctx, [Drop], Done, [W32, W32]);
    NoneCheck(ctx, [W32]);
  }

  /** It is well-typed. */
  lemma TableFnTyped(fts: seq<Option<FType>>)
    ensures FnTyped(fts, FType([W32, W32], [W32]), TableFn())
  {
    hide Check, CheckOps, Straight, TableBlock;
    var ctx := Ctx(fts, [W32, W32], [[W32]]);
    var none: seq<Width> := [];
    assert [W32, W32] + ZeroTypes([]) == [W32, W32];
    TableArmTyped(ctx.(labels := [[]] + ctx.labels));
    CheckIs(ctx, TableLoop(), none);
    assert none + [W32] == [W32];
    NoneCheck(ctx, [W32]);
  }

  // ---------- a void if with an else-arm ----------

  /** (func (param i32 i32) (result i32)
        local.get 0  local.get 1  i32.const 1  if else end  i32.add) */
  function ElseFn(): Func { Defined(2, 1, [], Straight([GetLocal(0), GetLocal(1), Const(I32(1))], EmptyIfThenAdd())) }

  lemma ElseOps(x: U32, y: U32)
    ensures RunOps([GetLocal(0), GetLocal(1), Const(I32(1))], [], Two(x, y)) == Next([I32(x), I32(y), I32(1)], Two(x, y))
  {
    hide RunOps;
    var none: seq<Value> := [];
    var ls := Two(x, y);
    var k: seq<Op> := [Const(I32(1))] + [];
    GetBoth(0, 1, k, none, ls);
    assert [GetLocal(0), GetLocal(1)] + k == [GetLocal(0), GetLocal(1), Const(I32(1))] && none + [ls[0], ls[1]] == [I32(x), I32(y)];
    PushStep(I32(1), [], [I32(x), I32(y)], ls);
    assert [I32(x), I32(y)] + [I32(1)] == [I32(x), I32(y), I32(1)];
    OpsDone([I32(x), I32(y), I32(1)], ls);
  }

  /** The whole function: y + y comes back instead of x + y. */
  lemma ElseReturnsWrong(w: World, f: nat, c: Cpu, x: U32, y: U32) returns (c': Cpu)
    requires Present(w, f) && w.fs[f] == ElseFn() && c.pc == w.plane[8 * f].a && |c.rs| > 0 && Locals(c, Two(x, y))
    ensures Reaches(w.plane, c, c') && c'.pc == c.rs[0] && c'.rs == c.rs[1..] && c'.rax == Lo(W32, y + y)
  {
    hide Reaches, At, Size, CloseSize, Close, Cells, Prologue, BodyOk, Rep, Below, Two, Straight, RunOps, Locals, GenFn, FnEnd, EmptyIfThenAdd, Zeros, Gen, Lo;
    var env, body, b, rs0 := FnEnv(w, f), ElseFn().body, c.rdi + 1, c.rs;
    var close := c.pc + |Prologue(env, 2)| + Size(env, body, [true]);
    var t := [close + CloseSize(true)];
    LaidFn(w.plane, env, 2, body, c.pc);
    NoLocals(Two(x, y));
    assert |Two(x, y)| == 2 by { TwoSize(x, y); }
    var c1 := RunPrologue(w.plane, env, c, Two(x, y), []);
    ElseOps(x, y);
    var c2 := RunStraight(w.plane, env, [GetLocal(0), GetLocal(1), Const(I32(1))], EmptyIfThenAdd(), [true], t, c1, b, [], Two(x, y));
    var c3 := VoidElseAddsWrong(w.plane, env, [true], Somes(t), c2, b, x, y, 1, Two(x, y));
    AtSplit(w.plane, close, Close(true), Cells(J(Ret)));
    var c4 := RunClose(w.plane, c3, true);
    RunRet(w.plane, c4);
    c' := c4.(pc := c4.rs[0], rs := c4.rs[1..]);
    ReachesTrans(w.plane, c, c1, c2);
    ReachesTrans(w.plane, c, c2, c3);
    ReachesTrans(w.plane, c, c3, c4);
    ReachesTrans(w.plane, c, c4, c');
  }

  /** The interpreter returns x + y. */
  lemma ElseShouldReturn(fs: seq<Func>, f: nat, x: U32, y: U32, fuel: nat)
    requires f < |fs| && fs[f] == ElseFn()
    ensures Invoke(fs, f, Two(x, y), fuel) == Returned([I32(Lo(W32, x + y))])
  {
    hide Eval, Straight, RunOps, Two, EmptyIfThenAdd, Lo;
    ElseOps(x, y);
    StraightEval(fs, [GetLocal(0), GetLocal(1), Const(I32(1))], EmptyIfThenAdd(), [1], [], Two(x, y), fuel);
    InterpreterAdds(fs, [1], x, y, 1, Two(x, y), fuel);
    NoLocals(Two(x, y));
  }

  lemma AddCheck(ctx: Ctx)
    ensures Check(ctx, Atomic(Plain(Bin(W32, Add)), Done), [W32, W32]) == Falls([W32])
  {
    hide Check;
    var none: seq<Width> := [];
    CheckIs(ctx, Atomic(Plain(Bin(W32, Add)), Done), [W32, W32]);
    assert Top([W32, W32], 2) == [W32, W32] && Pop([W32, W32], 2) == none && none + [W32] == [W32];
    NoneCheck(ctx, [W32]);
  }

  lemma EmptyIfTyped(ctx: Ctx)
    ensures Check(ctx, EmptyIfThenAdd(), [W32, W32, W32]) == Falls([W32])
  {
    hide Check;
    var none: seq<Width> := [];
    NoneCheck(ctx.(labels := [none] + ctx.labels), none);
    CheckIs(ctx, EmptyIfThenAdd(), [W32, W32, W32]);
    assert Top([W32, W32, W32], 1) == [W32] && Pop([W32, W32, W32], 1) == [W32, W32] && [W32, W32] + none == [W32, W32];
    AddCheck(ctx);
  }

  lemma ElseCheckOps(ctx: Ctx)
    requires ctx.locals == [W32, W32]
    ensures CheckOps(ctx, [GetLocal(0), GetLocal(1), Const(I32(1))], []) == Falls([W32, W32, W32])
  {
    hide CheckOps;
    var none: seq<Width> := [];
    var k: seq<Op> := [Const(I32(1))];
    assert none + [W32] == [W32] && [W32] + [W32] == [W32, W32] && [W32, W32] + [W32] == [W32, W32, W32];
    OpsCheck(ctx, GetLocal(0), [GetLocal(1)] + k, none, [W32]);
    OpsCheck(ctx, GetLocal(1), k, [W32], [W32, W32]);
    OpsCheck(ctx, Const(I32(1)), [], [W32, W32], [W32, W32, W32]);
    assert [GetLocal(0)] + ([GetLocal(1)] + k) == [GetLocal(0), GetLocal(1), Const(I32(1))] && k + [] == k;
    NoneCheck(ctx, [W32, W32, W32]);
  }

  /** It is well-typed. */
  lemma ElseFnTyped(fts: seq<Option<FType>>)
    ensures FnTyped(fts, FType([W32, W32], [W32]), ElseFn())
  {
    hide Check, CheckOps, Straight, EmptyIfThenAdd;
    var ctx := Ctx(fts, [W32, W32], [[W32]]);
    assert [W32, W32] + ZeroTypes([]) == [W32, W32];
    ElseCheckOps(ctx);
    StraightCheck(ctx, [GetLocal(0), GetLocal(1), Const(I32(1))], EmptyIfThenAdd(), []);
    EmptyIfTyped(ctx);
  }
}
