/** Exactly when the code that leaves a block restores the frame around it, and the places where the
    emitter's choice of carry flag makes it go wrong. */
module Divergence {
  import opened Words
  import opened Wasm
  import opened X86
  import opened Codegen
  import opened OpSim
  import opened Layout
  import opened ControlSim
  import opened TableSim
  import opened Pieces
  import opened Sim

  /** The state inside a block with base b + |us| + 1, whose outer operands us are in memory, about
      to leave d blocks further in and then this one, with its results in rax. */
  ghost predicate Leaving(c: Cpu, d: nat, b: int, us: seq<Value>, results: seq<Value>) {
    && d < |c.rs| && c.rs[d] == b + |us| + 1 && Spilled(c.mem, b, us)
    && |results| <= 1 && InRax(c, results)
  }

  /** Leaving restores the outer frame with the results on top exactly when the carry flag says
      whether there is a result. */
  lemma LeaveExact(c: Cpu, d: nat, b: int, us: seq<Value>, results: seq<Value>, keep: bool)
    requires Leaving(c, d, b, us, results)
    ensures Exec(LeaveCode(d, keep), 0, c) == Go(Left(c, keep, c.rs[d], c.rs[d + 1..]))
    ensures Operands(Left(c, keep, c.rs[d], c.rs[d + 1..]), b, us + results) <==> (keep <==> |results| == 1)
  {
    hide Exec;
    ExecLeave(c, d, keep);
    var c' := Left(c, keep, c.rs[d], c.rs[d + 1..]);
    if keep <==> |results| == 1 { LeaveFrame(c', b, us, results); }
  }

  lemma OperandsPc(c: Cpu, c': Cpu, b: int, vs: seq<Value>)
    requires c' == c.(pc := c'.pc)
    ensures Operands(c', b, vs) <==> Operands(c, b, vs)
  {
  }

  /** br to a label of arity |results| in a block of type bt: the frame the branch arrives with is right
      exactly when the block type has a result if and only if the label does.  The two differ for a
      loop with a result type, whose label carries nothing. */
  lemma BranchExact(plane: seq<Cell>, c: Cpu, d: nat, bt: BlockType, target: nat, b: int, us: seq<Value>, results: seq<Value>)
      returns (c': Cpu)
    requires Leaving(c, d, b, us, results) && c.pc >= 0
    requires At(plane, c.pc, Asm(LeaveCode(d, Keep(bt))) + JumpCode(c.pc + LeaveSize(d, Keep(bt)), Some(target)))
    ensures Reaches(plane, c, c') && c' == Left(c, Keep(bt), c.rs[d], c.rs[d + 1..]).(pc := target)
    ensures Operands(c', b, us + results) <==> Arity(bt) == |results|
  {
    hide At, Exec, Reaches, Asm, JumpCode, LeaveCode, Operands;
    RunLeaveJump(plane, c, d, Keep(bt), target);
    c' := Left(c, Keep(bt), c.rs[d], c.rs[d + 1..]).(pc := target);
    LeaveExact(c, d, b, us, results, Keep(bt));
    OperandsPc(Left(c, Keep(bt), c.rs[d], c.rs[d + 1..]), c', b, us + results);
  }

  /** A branch back to a loop that has a result type always leaves one operand too many. */
  lemma TypedLoopBranch(plane: seq<Cell>, c: Cpu, d: nat, bt: BlockType, head: nat, b: int, us: seq<Value>) returns (c': Cpu)
    requires bt != EMPTY_BLOCK && Leaving(c, d, b, us, []) && c.pc >= 0
    requires At(plane, c.pc, Asm(LeaveCode(d, Keep(bt))) + JumpCode(c.pc + LeaveSize(d, Keep(bt)), Some(head)))
    ensures Reaches(plane, c, c') && c' == c.(pc := head, rdi := b + |us| + 1, rs := c.rs[d + 1..])
    ensures !Operands(c', b, us)
  {
    hide At, Exec, Reaches, Asm, JumpCode, LeaveCode;
    RunLeaveJump(plane, c, d, true, head);
    c' := c.(pc := head, rdi := b + |us| + 1, rs := c.rs[d + 1..]);
  }

  /** `else` after a then-arm that falls through: the frame it arrives with at the end of the if is right
      exactly when the if has a result. */
  lemma ElseExact(plane: seq<Cell>, c: Cpu, bt: BlockType, target: nat, b: int, us: seq<Value>, results: seq<Value>) returns (c': Cpu)
    requires Leaving(c, 0, b, us, results) && |results| == Arity(bt) && c.pc >= 0
    requires At(plane, c.pc, ElseCode(c.pc, Some(target)))
    ensures Reaches(plane, c, c') && c' == c.(pc := target, rdi := c.rs[0], rs := c.rs[1..])
    ensures Operands(c', b, us + results) <==> Keep(bt)
  {
    hide At, Exec, Reaches, Asm, JumpCode, LeaveCode, Operands, Dbg, Enter;
    ElseParts(plane, c.pc, target);
    RunDbg(plane, ELSE, c);
    var c1 := c.(pc := c.pc + 7);
    RunLeaveJump(plane, c1, 0, true, target);
    c' := c.(pc := target, rdi := c.rs[0], rs := c.rs[1..]);
    LeaveExact(c1, 0, b, us, results, true);
    OperandsPc(Left(c1, true, c.rs[0], c.rs[1..]), c', b, us + results);
    ReachesTrans(plane, c, c1, c');
  }

  /** A branch table: the frame it arrives with at the selected target is right exactly when the
      default's block type has a result if and only if the selected label does. */
  lemma TableExact(plane: seq<Cell>, env: Env, c: Cpu, ts: seq<U32>, d: U32, flag: bool, tgts: seq<nat>, b: int, us: seq<Value>, results: seq<Value>)
      returns (c': Cpu)
    requires d < |tgts| < |c.rs| && DepthsOk(ts, |tgts|) && |plane| < T32 && c.pc >= 0
    requires BranchTableSlot(env) < |plane| && plane[BranchTableSlot(env)] == Extern(BranchTable)
    requires At(plane, c.pc, TableHead(env, c.pc, |ts|, flag) + Entry(d, Some(tgts[d])) + Entries(ts, Somes(tgts)))
    requires |results| <= 1 && (|results| == 1 ==> Rd(c.mem, c.rdi - 1) == results[0].n)
    requires var k := Selected(ts, d, Lo(W32, c.rax));
      k < |c.rs| && c.rs[k] == b + |us| + 1 && Spilled(c.mem, b, us)
    ensures var k := Selected(ts, d, Lo(W32, c.rax));
      && Reaches(plane, c, c') && k < |tgts|
      && c' == c.(pc := tgts[k], rs := c.rs[k + 1..], rcx := c'.rcx, rdx := c'.rdx, fl := Undefined,
                  rdi := if flag then c.rs[k] else c.rs[k] - 1,
                  rax := Rd(c.mem, if flag then c.rdi - 1 else c.rs[k] - 1))
      && (Operands(c', b, us + results) <==> (flag <==> |results| == 1))
  {
    hide At, Reaches, TableHead, Entry, Entries, BranchTableSlot;
    c' := RunTable(plane, env, c, ts, d, flag, tgts);
    if flag <==> |results| == 1 { LeaveFrame(c', b, us, results); }
  }

  // ---------- a program that computes the wrong sum ----------

  /** if (void) else end; i32.add */
  function EmptyIfThenAdd(): Body {
    IfElse(EMPTY_BLOCK, Done, Done, Atomic(Plain(Bin(W32, Add)), Done))
  }

  lemma EmptyIfOk(env: Env, n: nat)
    ensures BodyOk(env, EmptyIfThenAdd(), n)
  {
    var b := EmptyIfThenAdd();
    assert BodyOk(env, Done, n + 1) && BodyOk(env, Done, n);
    assert AtomOk(env, b.next.atom, n) && BodyOk(env, b.next, n);
  }

  /** Where the pieces of its code are. */
  lemma EmptyIfCode(env: Env, p: nat, keeps: seq<bool>, ts: seq<Option<nat>>)
    requires |ts| == |keeps|
    ensures BodyOk(env, EmptyIfThenAdd(), |keeps|)
    ensures var b := EmptyIfThenAdd();
      var q := p + HeadSize(b);
      var e := q + ElseSize() + |Enter()| + CloseSize(false);
      && Gen(env, b, p, keeps, ts, ts)
         == Head(b, p, q + ElseSize()) + (ElseCode(q, Some(e)) + Close(false)) + (Dbg(0x6a) + Asm(BinCode(W32, Add)))
      && Size(env, b, keeps) == e - p + 7 + |Asm(BinCode(W32, Add))|
  {
    hide Head, HeadSize, ElseCode, ElseSize, Enter, Close, CloseSize, Dbg, Asm, BinCode;
    var b := EmptyIfThenAdd();
    var k := [Keep(b.bt)] + keeps;
    EmptyIfOk(env, |keeps|);
    assert Size(env, Done, k) == 0;
    var l := Some(LabelOf(env, b, p, keeps));
    GenNested(env, b, p, keeps, ts, ts, l);
    GenAtomic(env, Plain(Bin(W32, Add)), Done, EndOf(env, b, p, keeps), keeps, ts, ts);
  }

  /** The empty then-arm: entered, and left for e by `else`. */
  lemma RunEmptyThen(plane: seq<Cell>, c: Cpu, e: nat, b: int, us: seq<Value>, ls: seq<Value>) returns (c': Cpu)
    requires c.pc >= 0 && Rep(c, b, us, ls) && At(plane, c.pc, Enter() + ElseCode(c.pc + |Enter()|, Some(e)))
    ensures Reaches(plane, c, c') && c'.pc == e && c'.rdi == b + |us| + 1 && c'.rax == c.rax && c'.rs == c.rs && Spilled(c'.mem, b, us)
  {
    hide At, Asm, Exec, Reaches, JumpCode, LeaveCode, Operands, Dbg, Enter, Rep, Spilled, ElseCode;
    var q := c.pc + |Enter()|;
    AtSplit(plane, c.pc, Enter(), ElseCode(q, Some(e)));
    var c1 := EnterArm(plane, c, b, us, ls);
    ElseParts(plane, q, e);
    RunDbg(plane, ELSE, c1);
    var c2 := c1.(pc := q + 7);
    RunLeaveJump(plane, c2, 0, true, e);
    c' := Left(c2, true, c2.rs[0], c2.rs[1..]).(pc := e);
    ReachesTrans(plane, c, c1, c2);
    ReachesTrans(plane, c, c2, c');
  }

  lemma RunAdd32(plane: seq<Cell>, c: Cpu) returns (c': Cpu)
    requires At(plane, c.pc, Dbg(0x6a) + Asm(BinCode(W32, Add))) && c.rax < T32 && Rd(c.mem, c.rdi - 1) < T32
    ensures Reaches(plane, c, c') && c'.pc == c.pc + 7 + |Asm(BinCode(W32, Add))|
    ensures c'.rax == Lo(W32, c.rax + Rd(c.mem, c.rdi - 1)) && c'.rs == c.rs
  {
    hide At, Asm, Exec, Reaches, Dbg;
    AtSplit(plane, c.pc, Dbg(0x6a), Asm(BinCode(W32, Add)));
    RunDbg(plane, 0x6a, c);
    var c1 := c.(pc := c.pc + 7);
    var c2 := ExecAlu(W32, false, AluAdd, c1);
    RunCode(plane, BinCode(W32, Add), c1, c2);
    c' := c2.(pc := c1.pc + |Asm(BinCode(W32, Add))|);
    ReachesTrans(plane, c, c1, c');
  }

  /** With operands x, y and a true condition the interpreter adds x and y; the emitted code adds y to
      itself, because the void then-arm left rdi one slot too high. */
  lemma VoidElseAddsWrong(plane: seq<Cell>, env: Env, keeps: seq<bool>, ts: seq<Option<nat>>, c: Cpu, b: int,
                          x: U32, y: U32, n: U32, ls: seq<Value>) returns (c': Cpu)
    requires c.pc >= 0 && |ts| == |keeps| && n != 0 && Rep(c, b, [Val(W32, x), Val(W32, y), Val(W32, n)], ls)
    requires BodyOk(env, EmptyIfThenAdd(), |keeps|) && At(plane, c.pc, Gen(env, EmptyIfThenAdd(), c.pc, keeps, ts, ts))
    ensures Reaches(plane, c, c') && c'.pc == c.pc + Size(env, EmptyIfThenAdd(), keeps) && c'.rs == c.rs && c'.rax == Lo(W32, y + y)
  {
    hide At, Asm, Exec, Reaches, JumpCode, JzCode, Dbg, Enter, Gen, Size, ElseCode, ElseSize, Close, CloseSize, IfTest, BodyOk, BinCode, Locals;
    var body := EmptyIfThenAdd();
    var p, us := c.pc, [Val(W32, x), Val(W32, y)];
    var q := p + HeadSize(body);
    var e := q + ElseSize() + |Enter()| + CloseSize(false);
    var d := q + ElseSize() - (p + 13 + |Asm(IfTest())|);
    EmptyIfCode(env, p, keeps, ts);
    var t := Dbg(IF) + Asm(IfTest()) + JzCode(d);
    AtPieces(plane, p, t, Enter(), ElseCode(q, Some(e)), Close(false), Dbg(0x6a) + Asm(BinCode(W32, Add)));
    assert Pop([Val(W32, x), Val(W32, y), Val(W32, n)], 1) == us;
    var c1 := RunIfHead(plane, c, q + ElseSize(), b, [Val(W32, x), Val(W32, y), Val(W32, n)], ls);
    var c2 := RunEmptyThen(plane, c1, e, b, us, ls);
    assert Rd(c2.mem, b + 1 + 1) == us[1].n;
    c' := RunAdd32(plane, c2);
    ReachesTrans(plane, c, c1, c2);
    ReachesTrans(plane, c, c2, c');
  }

  lemma AtPieces(plane: seq<Cell>, p: int, t: seq<Cell>, n: seq<Cell>, e: seq<Cell>, z: seq<Cell>, a: seq<Cell>)
    requires At(plane, p, t + n + (e + z) + a)
    ensures At(plane, p, t) && At(plane, p + |t|, n + e) && At(plane, p + |t| + |n| + |e| + |z|, a)
  {
    hide At;
    assert t + n + (e + z) + a == t + (n + e) + (z + a);
    AtSplit3(plane, p, t, n + e, z + a);
    AtSplit(plane, p + |t| + |n + e|, z, a);
  }

  lemma InterpreterAdds(fs: seq<Func>, ar: seq<nat>, x: U32, y: U32, n: U32, ls: seq<Value>, fuel: nat)
    requires n != 0
    ensures Eval(fs, EmptyIfThenAdd(), ar, [Val(W32, x), Val(W32, y), Val(W32, n)], ls, fuel) == Next([Val(W32, Lo(W32, x + y))], ls)
  {
    hide Unop, Relop;
    var us := [Val(W32, x), Val(W32, y)];
    assert Pop([Val(W32, x), Val(W32, y), Val(W32, n)], 1) == us;
    assert Eval(fs, Done, [0] + ar, [], ls, fuel) == Next([], ls);
    assert us + [] == us;
    assert Pop(us, 2) == [];
    var b, r := EmptyIfThenAdd(), Next([Val(W32, Lo(W32, x + y))], ls);
    assert EvalAtom(fs, Plain(Bin(W32, Add)), ar, us, ls, fuel) == r;
    assert Eval(fs, Done, ar, r.vs, ls, fuel) == r;
    assert Eval(fs, b.next, ar, us, ls, fuel) == Then(fs, r, b.next, ar, fuel) == r;
  }
}
