/** The meaning of emitted code: run from a related state, it ends the way the structured
    interpreter ends, with the same values. */
module Sim {
  import opened Wasm
  import opened X86
  import opened Codegen
  import opened OpSim
  import opened Layout
  import opened ControlSim
  import opened CallSim

  lemma EndsElsewhere(plane: seq<Cell>, c: Cpu, end: int, end': int, b: int, tgts: seq<nat>, o: Outcome)
    requires Ends(plane, c, end, b, tgts, o) && !o.Next?
    ensures Ends(plane, c, end', b, tgts, o)
  {
  }

  // ---------- one arm of a block ----------

  /** From the start of a block's frame to the end of its arm, seen from before the block: what the
      arm's own ending means in the frame around it. */
  lemma LiftArm(plane: seq<Cell>, c: Cpu, c1: Cpu, end: int, end': int, b: int, us: seq<Value>, tgts: seq<nat>, l: nat, o: Outcome, arity: nat)
    requires Reaches(plane, c, c1) && Below(c, c1, b) && c1.rs == [b + |us| + 1] + c.rs && Spilled(c1.mem, b, us)
    requires Ends(plane, c1, end, b + |us| + 1, [l] + tgts, o) && !o.Next? && arity <= 1 && |tgts| > 0
    requires o.Branch? ==> o.depth <= |tgts| && (o.depth == 0 ==> |o.results| <= 1)
    requires o.Branch? && o.depth == 0 ==> end' == l
    ensures Ends(plane, c, end', b, tgts, Exit(o, arity, us))
  {
    hide Reaches, Spilled, Operands, Locals, Below, Exited, InRax, Faults;
    var ib := b + |us| + 1;
    match o
    case Branch(d, rs, ls) =>
      var c2 :| Reaches(plane, c1, c2) && Landed(c1, c2, ib, d, rs, ls, [l] + tgts);
      ReachesTrans(plane, c, c1, c2);
      BelowTrans(c, c1, c2, b, ib);
      if d == 0 {
        assert c2.rs == c.rs && Exited(c2, ib, rs);
        StillSpilled(c1, c2, b, us, ib);
        LeaveFrame(c2, b, us, rs);
        assert Ends(plane, c, c2.pc, b, tgts, Next(us + rs, ls)) by { EndsNow(plane, c, c2, b, tgts, us + rs, ls); }
      } else {
        assert c1.rs[d] == c.rs[d - 1] && c1.rs[d + 1..] == c.rs[d..] && ([l] + tgts)[d] == tgts[d - 1];
        assert Landed(c, c2, b, d - 1, rs, ls, tgts);
      }
    case Returned(rs) =>
      var c2 :| Reaches(plane, c1, c2) && Gone(c1, c2, ib, |tgts| + 1, rs);
      ReachesTrans(plane, c, c1, c2);
      BelowTrans(c, c1, c2, b, ib);
      assert c1.rs[|tgts| + 1] == c.rs[|tgts|] && c1.rs[|tgts| + 2..] == c.rs[|tgts| + 1..];
      assert Gone(c, c2, b, |tgts|, rs);
    case Trapped => ReachesFault(plane, c, c1);
    case _ =>
  }

  lemma StillSpilled(c: Cpu, c': Cpu, b: int, us: seq<Value>, ib: int)
    requires Spilled(c.mem, b, us) && Below(c, c', ib) && ib == b + |us| + 1
    ensures Spilled(c'.mem, b, us)
  {
    SpilledBelow(c.mem, c'.mem, b, us);
  }

  /** An arm that ran to its end: leaving the block with the flag of its arity gives the frame
      around it, results on top. */
  lemma LeaveArm(plane: seq<Cell>, c: Cpu, c1: Cpu, c2: Cpu, c3: Cpu, b: int, us: seq<Value>, tgts: seq<nat>,
                 rs: seq<Value>, ls: seq<Value>, keep: bool)
    requires Reaches(plane, c, c1) && Below(c, c1, b) && c1.rs == [b + |us| + 1] + c.rs && Spilled(c1.mem, b, us)
    requires Reaches(plane, c1, c2) && Rep(c2, b + |us| + 1, rs, ls) && Preserves(c1, c2, b + |us| + 1)
    requires Reaches(plane, c2, c3) && c3 == Left(c2, keep, c2.rs[0], c2.rs[1..]).(pc := c3.pc)
    requires keep == (|rs| == 1) && |rs| <= 1
    ensures Ends(plane, c, c3.pc, b, tgts, Next(us + rs, ls))
  {
    hide Reaches, Spilled, Below;
    var ib := b + |us| + 1;
    ReachesTrans(plane, c, c1, c2);
    ReachesTrans(plane, c, c2, c3);
    BelowTrans(c, c1, c2, b, ib);
    StillSpilled(c1, c2, b, us, ib);
    BelowSame(c, c2, c3, b);
    assert c3.rs == c.rs;
    LeaveFrame(c3, b, us, rs);
    EndsNow(plane, c, c3, b, tgts, us + rs, ls);
  }

  /** An arm followed by its `end`. */
  lemma CloseArm(plane: seq<Cell>, c: Cpu, c1: Cpu, end: int, b: int, us: seq<Value>, tgts: seq<nat>, l: nat, o: Outcome, bt: BlockType)
    requires Reaches(plane, c, c1) && Below(c, c1, b) && c1.rs == [b + |us| + 1] + c.rs && Spilled(c1.mem, b, us)
    requires Ends(plane, c1, end, b + |us| + 1, [l] + tgts, o) && o.Next? && |o.vs| == Arity(bt)
    requires At(plane, end, Close(Keep(bt)))
    ensures Ends(plane, c, end + CloseSize(Keep(bt)), b, tgts, Exit(o, Arity(bt), us))
  {
    hide Reaches, Spilled, Below, Rep, At, Close, CloseSize, Left;
    var ib := b + |us| + 1;
    var c2 :| Reaches(plane, c1, c2) && c2.pc == end && Rep(c2, ib, o.vs, o.ls) && Preserves(c1, c2, ib);
    var c3 := RunClose(plane, c2, Keep(bt));
    LeaveArm(plane, c, c1, c2, c3, b, us, tgts, o.vs, o.ls, Keep(bt));
  }

  /** A then-arm with a result, followed by `else`: it jumps over the else-arm. */
  lemma ElseArm(plane: seq<Cell>, c: Cpu, c1: Cpu, q: nat, e: nat, b: int, us: seq<Value>, tgts: seq<nat>, l: nat, o: Outcome)
    requires Reaches(plane, c, c1) && Below(c, c1, b) && c1.rs == [b + |us| + 1] + c.rs && Spilled(c1.mem, b, us)
    requires Ends(plane, c1, q, b + |us| + 1, [l] + tgts, o) && o.Next? && |o.vs| == 1
    requires At(plane, q, ElseCode(q, Some(e)))
    ensures Ends(plane, c, e, b, tgts, Exit(o, 1, us))
  {
    hide Reaches, Spilled, Below, Rep, At, Left, Dbg, Asm, JumpCode, Enter, Exec;
    var ib := b + |us| + 1;
    var c2 :| Reaches(plane, c1, c2) && c2.pc == q && Rep(c2, ib, o.vs, o.ls) && Preserves(c1, c2, ib);
    var lv := Asm(LeaveBlock(true));
    var j := JumpCode(q + 7 + |lv|, Some(e));
    AtSplit(plane, q, Dbg(ELSE) + lv + j, Enter());
    AtSplit3(plane, q, Dbg(ELSE), lv, j);
    RunDbg(plane, ELSE, c2);
    var c3 := c2.(pc := q + 7);
    ExecLeaveBlock(c3, true);
    var c4 := Left(c3, true, c2.rs[0], c2.rs[1..]);
    RunCode(plane, LeaveBlock(true), c3, c4);
    var c5 := c4.(pc := q + 7 + |lv|);
    RunJump(plane, c5, e);
    var c6 := c5.(pc := e);
    ReachesTrans(plane, c2, c3, c5);
    ReachesTrans(plane, c2, c5, c6);
    LeftPc(c2, true, c2.rs[0], c2.rs[1..], q + 7, e);
    LeaveArm(plane, c, c1, c2, c6, b, us, tgts, o.vs, o.ls, true);
  }

  /** An arm followed by `end`, whichever way it ends, when the label is the address after `end`. */
  lemma FinishArm(plane: seq<Cell>, c: Cpu, c1: Cpu, close: int, b: int, us: seq<Value>, tgts: seq<nat>, l: nat, o: Outcome, bt: BlockType)
    requires Reaches(plane, c, c1) && Below(c, c1, b) && c1.rs == [b + |us| + 1] + c.rs && Spilled(c1.mem, b, us)
    requires Ends(plane, c1, close, b + |us| + 1, [l] + tgts, o) && |tgts| > 0
    requires o.Branch? ==> o.depth <= |tgts| && (o.depth == 0 ==> |o.results| <= 1 && l == close + CloseSize(Keep(bt)))
    requires At(plane, close, Close(Keep(bt)))
    ensures Ends(plane, c, close + CloseSize(Keep(bt)), b, tgts, Exit(o, Arity(bt), us))
  {
    hide Reaches, Spilled, Below, At, Close, CloseSize, Ends;
    if o.Next? {
      if |o.vs| == Arity(bt) {
        CloseArm(plane, c, c1, close, b, us, tgts, l, o, bt);
      } else {
        assert Ends(plane, c, close + CloseSize(Keep(bt)), b, tgts, Stuck) by { EndsStuck(plane, c, close + CloseSize(Keep(bt)), b, tgts); }
      }
    } else {
      LiftArm(plane, c, c1, close, close + CloseSize(Keep(bt)), b, us, tgts, l, o, Arity(bt));
    }
  }

  lemma EndsStuck(plane: seq<Cell>, c: Cpu, end: int, b: int, tgts: seq<nat>)
    ensures Ends(plane, c, end, b, tgts, Stuck) && Ends(plane, c, end, b, tgts, NoFuel)
  {
  }

  /** A branch back to a loop's head restores the frame around the loop. */
  lemma LoopBack(plane: seq<Cell>, c: Cpu, c1: Cpu, end: int, b: int, us: seq<Value>, tgts: seq<nat>, l: nat, o: Outcome) returns (c2: Cpu)
    requires Reaches(plane, c, c1) && Below(c, c1, b) && c1.rs == [b + |us| + 1] + c.rs && Spilled(c1.mem, b, us)
    requires Ends(plane, c1, end, b + |us| + 1, [l] + tgts, o) && |tgts| > 0
    requires o.Branch? && o.depth == 0 && o.results == []
    ensures Reaches(plane, c, c2) && c2.pc == l && Rep(c2, b, us, o.ls) && Preserves(c, c2, b)
    ensures Reaches(plane, c1, c2)
  {
    hide Reaches, Spilled, Below, Locals, Operands, Exited;
    var ib := b + |us| + 1;
    c2 :| Reaches(plane, c1, c2) && Landed(c1, c2, ib, 0, [], o.ls, [l] + tgts);
    ReachesTrans(plane, c, c1, c2);
    BelowTrans(c, c1, c2, b, ib);
    StillSpilled(c1, c2, b, us, ib);
    assert c2.rs == c.rs && Exited(c2, ib, []);
    LeaveFrame(c2, b, us, []);
    assert us + [] == us;
  }

  /** Opening a block's frame. */
  lemma EnterArm(plane: seq<Cell>, c: Cpu, b: int, us: seq<Value>, ls: seq<Value>) returns (c1: Cpu)
    requires At(plane, c.pc, Enter()) && Rep(c, b, us, ls)
    ensures Reaches(plane, c, c1) && c1.pc == c.pc + |Enter()|
    ensures Below(c, c1, b) && c1.rs == [b + |us| + 1] + c.rs && Spilled(c1.mem, b, us) && Rep(c1, b + |us| + 1, [], ls)
    ensures c1.rax == c.rax
  {
    hide Reaches, Asm, Exec, At, Below, Spilled, Locals;
    var c0 := ExecEnter(c);
    RunCode(plane, EnterBlock(), c, c0);
    c1 := c0.(pc := c.pc + |Enter()|);
    EnterFrame(c, c1, b, us, ls);
  }

  /** Testing an if's condition. */
  lemma RunIfHead(plane: seq<Cell>, c: Cpu, other: int, b: int, vs: seq<Value>, ls: seq<Value>) returns (c': Cpu)
    requires Rep(c, b, vs, ls) && |vs| > 0
    requires var d := other - (c.pc + 13 + |Asm(IfTest())|);
      At(plane, c.pc, Dbg(IF) + Asm(IfTest()) + JzCode(d))
    ensures Reaches(plane, c, c') && c'.pc == (if Last(vs).n == 0 then other else c.pc + 13 + |Asm(IfTest())|)
    ensures Rep(c', b, Pop(vs, 1), ls) && Preserves(c, c', b)
  {
    hide Reaches, Asm, Exec, At, Below, Rep, JzCode, IfTest, Dbg;
    var d := other - (c.pc + 13 + |Asm(IfTest())|);
    AtSplit3(plane, c.pc, Dbg(IF), Asm(IfTest()), JzCode(d));
    RunDbg(plane, IF, c);
    var c1 := c.(pc := c.pc + 7);
    var c2 := ExecIfTest(c1);
    RunCode(plane, IfTest(), c1, c2);
    var c3 := c2.(pc := c1.pc + |Asm(IfTest())|);
    RunJz(plane, c3, d);
    c' := c3.(pc := c3.pc + 6 + if c3.fl.zf then d else 0);
    ReachesTrans(plane, c, c1, c3);
    ReachesTrans(plane, c, c3, c');
    RaxIsTop(c, b, vs, ls);
    PopFrame(c, c', b, vs, ls);
  }
}
