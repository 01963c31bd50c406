/** From any point of a compiled function: to which points the next opcode can lead. */
module BodySteps {
  import opened Words
  import opened Wasm
  import opened X86
  import opened Codegen
  import opened Layout
  import opened ControlSim
  import opened TableSim
  import opened Pieces
  import opened Fragment
  import opened Between
  import opened Points
  import opened OpcodeSteps

  lemma CallsSplit(w: World, linked: set<nat>, a: seq<nat>, b: seq<nat>)
    requires CallsOk(w, linked, a + b)
    ensures CallsOk(w, linked, a) && CallsOk(w, linked, b)
  {
    assert forall i :: 0 <= i < |a| ==> (a + b)[i] == a[i];
    assert forall i :: 0 <= i < |b| ==> (a + b)[|a| + i] == b[i];
  }

  // ---------- unstructured instructions ----------

  lemma HereAtomic(w: World, linked: set<nat>, pl: Place, b: Body, p: int, keeps: seq<bool>, tgts: seq<nat>)
    requires b.Atomic? && Here(w, linked, pl, b, p, keeps, tgts)
    ensures AtomOk(pl.env, b.atom, |keeps|) && BodyOk(pl.env, b.next, |keeps|) && p >= 0 && |tgts| == |keeps| && PlaceOk(pl)
    ensures var e := p + 7 + AtomSize(pl.env, b.atom, keeps);
      && At(w.plane, p, Dbg(AtomByte(b.atom)))
      && At(w.plane, p + 7, GenAtom(pl.env, b.atom, p + 7, keeps, Somes(tgts), Somes(tgts)))
      && Here(w, linked, pl, b.next, e, keeps, tgts) && PointIn(pl, e) == Some(Opcode(|keeps|))
      && Size(pl.env, b, keeps) == 7 + AtomSize(pl.env, b.atom, keeps) + Size(pl.env, b.next, keeps)
    ensures CallsOk(w, linked, CallsOf(b.atom)) && LabelsOk(pl, tgts) && Helped(w.plane, pl.env)
    ensures b.atom.Call? ==> b.atom.fn < |pl.env.sigs| && PointIn(pl, CallReturn(pl.env, b.atom.fn, p)) == Some(ReturnTo(|keeps|, b.atom.fn))
  {
    hide At, GenAtom, AtomSize, AtomOk, AtomByte, Dbg, Laid, Inside, LabelsOk, Helped, CallsOk, PointIn, Size, BodyOk, CallReturn;
    LaidAtomic(w.plane, pl.env, b.atom, b.next, p, keeps, tgts);
    AtomicInside(pl, b.atom, b.next, p, keeps);
    StartPoint(pl, b.next, p + 7 + AtomSize(pl.env, b.atom, keeps), keeps);
    CallsSplit(w, linked, CallsOf(b.atom), BodyCalls(b.next));
  }

  lemma AtomMoves(w: World, linked: set<nat>, pl: Place, b: Body, keeps: seq<bool>, tgts: seq<nat>, c: Cpu)
    requires b.Atomic? && Here(w, linked, pl, b, c.pc, keeps, tgts) && |keeps| < |c.rs|
    ensures PlaceOk(pl) && Moves(w, linked, pl, c, |keeps|)
  {
    hide At, Asm, Cells, Here, LabelsOk, Helped, PointIn, PlaceOk, OpCode, JumpCode, JzCode, LeaveCode, BrIfTest, TableHead, Entry, Entries,
         CallSetup, CallCleanup, CallsOk, Moves, Size, Dbg, OpByte;
    HereAtomic(w, linked, pl, b, c.pc, keeps, tgts);
    match b.atom
    case Plain(op) => PlainMoves(w, linked, pl, op, OpByte(op), c, |keeps|);
    case Br(d) => BrMoves(w, linked, pl, d, keeps[d], c, tgts);
    case BrIf(d) => BrIfMoves(w, linked, pl, d, keeps[d], c, tgts);
    case BrTable(ts, d) => TableMoves(w, linked, pl, ts, d, keeps[d], c, tgts);
    case Return => ReturnMoves(w, linked, pl, c, |keeps|);
    case Call(f) =>
      CallPieces(w.plane, pl.env, f, c.pc, keeps, tgts);
      CallMoves(w, linked, pl, f, c, |keeps|);
  }

  lemma CallPieces(plane: seq<Cell>, env: Env, f: U32, p: nat, keeps: seq<bool>, tgts: seq<nat>)
    requires |tgts| == |keeps| && AtomOk(env, Call(f), |keeps|)
    requires At(plane, p + 7, GenAtom(env, Call(f), p + 7, keeps, Somes(tgts), Somes(tgts)))
    ensures f < |env.sigs|
    ensures var q := p + 7 + |Asm(CallSetup(env, f))|;
      && At(plane, p + 7, Asm(CallSetup(env, f))) && At(plane, q, Cells(J(CallTable(8 * f - (q + 6))))) && At(plane, q + 6, Asm(CallCleanup(env, f)))
      && q + 6 == CallReturn(env, f, p) && q + 6 + |Asm(CallCleanup(env, f))| == p + 7 + AtomSize(env, Call(f), keeps)
  {
    hide At, Asm, CallSetup, CallCleanup, Cells, GenAtom, AtomSize;
    GenCall(env, f, p + 7, keeps, Somes(tgts), Somes(tgts));
    AtSplit3(plane, p + 7, Asm(CallSetup(env, f)), Cells(J(CallTable(8 * f - (p + 7 + |Asm(CallSetup(env, f))| + 6)))), Asm(CallCleanup(env, f)));
  }

  lemma AfterCallMoves(w: World, linked: set<nat>, pl: Place, b: Body, p: nat, keeps: seq<bool>, tgts: seq<nat>, c: Cpu)
    requires b.Atomic? && b.atom.Call? && Here(w, linked, pl, b, p, keeps, tgts) && |keeps| + 1 < |c.rs|
    requires b.atom.fn < |pl.env.sigs| && c.pc == CallReturn(pl.env, b.atom.fn, p)
    ensures PlaceOk(pl) && Moves(w, linked, pl, c, |keeps| + 1)
  {
    hide At, Asm, Cells, Here, LabelsOk, Helped, PointIn, PlaceOk, CallSetup, CallCleanup, CallsOk, Moves, Size, Dbg, GenAtom, AtomSize, AtomOk, CallReturn;
    HereAtomic(w, linked, pl, b, p, keeps, tgts);
    var f := b.atom.fn;
    CallPieces(w.plane, pl.env, f, p, keeps, tgts);
    CallReturnIn(pl.env, f, p, keeps);
    ReturnedMoves(w, linked, pl, f, c, |keeps|);
  }

  // ---------- pieces of structured instructions ----------

  /** The state inside a block that has just been entered. */
  function Entered(c: Cpu): Cpu { c.(mem := c.mem[c.rdi := c.rax], rdi := c.rdi + 1, rs := [c.rdi + 1] + c.rs, fl := Undefined) }

  lemma QuietEnter(plane: seq<Cell>, c: Cpu) returns (c': Cpu)
    requires At(plane, c.pc, Enter())
    ensures Reaches(Muted(plane), c, c') && c' == Entered(c).(pc := c.pc + |Enter()|)
  {
    hide At, Asm, Exec, Reaches, Muted, Mute;
    BrIfTestMute();
    CodeMuted(plane, c.pc, EnterBlock());
    var c1 := ExecEnter(c);
    RunCode(Muted(plane), EnterBlock(), c, c1);
    c' := c1.(pc := c.pc + |Enter()|);
  }

  lemma EnterGoes(plane: seq<Cell>, c: Cpu) returns (c': Cpu)
    requires At(plane, c.pc, Enter())
    ensures Goes(plane, c, c') && c' == Entered(c).(pc := c.pc + |Enter()|)
  {
    hide Goes, At, Reaches, Muted, Enter;
    c' := QuietEnter(plane, c);
    assert |c'.rs| == |c.rs| + 1;
    QuietGoes(plane, c, c');
  }

  /** Entering a block from a place that is jumped to. */
  lemma EnterMoves(w: World, linked: set<nat>, pl: Place, c: Cpu, k: nat)
    requires PlaceOk(pl) && k < |c.rs| && At(w.plane, c.pc, Enter()) && PointIn(pl, c.pc + |Enter()|) == Some(Opcode(k + 1))
    ensures Moves(w, linked, pl, c, k)
  {
    hide PointIn, Goes, PlaceOk, At, Enter, Moves;
    var c1 := EnterGoes(w.plane, c);
    assert c1.rs[k + 1..] == c.rs[k..];
    StaysAt(w, linked, pl, c, c1, k, k + 1);
  }

  lemma BlockGoes(plane: seq<Cell>, c: Cpu) returns (c': Cpu)
    requires At(plane, c.pc, Dbg(BLOCK) + Enter())
    ensures Goes(plane, c, c') && c' == Entered(c).(pc := c.pc + 7 + |Enter()|)
  {
    hide Goes, At, Reaches, Muted, Enter, Dbg;
    AtSplit(plane, c.pc, Dbg(BLOCK), Enter());
    c' := QuietEnter(plane, c.(pc := c.pc + 7));
    DbgGoes(plane, BLOCK, c, c');
  }

  lemma BlockMoves(w: World, linked: set<nat>, pl: Place, c: Cpu, k: nat)
    requires PlaceOk(pl) && k < |c.rs| && At(w.plane, c.pc, Dbg(BLOCK) + Enter()) && PointIn(pl, c.pc + 7 + |Enter()|) == Some(Opcode(k + 1))
    ensures Moves(w, linked, pl, c, k)
  {
    hide PointIn, Goes, PlaceOk, At, Enter, Moves, Dbg;
    var c1 := BlockGoes(w.plane, c);
    assert c1.rs[k + 1..] == c.rs[k..];
    StaysAt(w, linked, pl, c, c1, k, k + 1);
  }

  lemma LoopGoes(plane: seq<Cell>, c: Cpu)
    requires At(plane, c.pc, Dbg(LOOP))
    ensures Goes(plane, c, c.(pc := c.pc + 7))
  {
    hide Goes, At, Reaches, Muted, Dbg;
    ReachesRefl(Muted(plane), c.(pc := c.pc + 7));
    DbgGoes(plane, LOOP, c, c.(pc := c.pc + 7));
  }

  lemma LoopMoves(w: World, linked: set<nat>, pl: Place, c: Cpu, k: nat)
    requires PlaceOk(pl) && k < |c.rs| && At(w.plane, c.pc, Dbg(LOOP)) && PointIn(pl, c.pc + 7) == Some(Target(k))
    ensures Moves(w, linked, pl, c, k)
  {
    hide PointIn, Goes, PlaceOk, At, Moves, Dbg;
    LoopGoes(w.plane, c);
    StaysAt(w, linked, pl, c, c.(pc := c.pc + 7), k, k);
  }

  /** The test of an if. */
  lemma QuietIfTest(plane: seq<Cell>, c: Cpu, d: int) returns (c': Cpu)
    requires At(plane, c.pc, Asm(IfTest()) + JzCode(d))
    ensures Reaches(Muted(plane), c, c') && c' == Popped(c).(fl := c'.fl, pc := c'.pc)
    ensures c'.pc == c.pc + |Asm(IfTest())| + 6 + if c.rax == 0 then d else 0
  {
    hide At, Asm, Exec, Reaches, Muted, JzCode, IfTest, Mute;
    AtSplit(plane, c.pc, Asm(IfTest()), JzCode(d));
    BrIfTestMute();
    CodeMuted(plane, c.pc, IfTest());
    JzMuted(plane, c.pc + |Asm(IfTest())|, d);
    var c1 := ExecIfTest(c);
    RunCode(Muted(plane), IfTest(), c, c1);
    var c2 := c1.(pc := c.pc + |Asm(IfTest())|);
    RunJz(Muted(plane), c2, d);
    c' := c2.(pc := c2.pc + 6 + if c2.fl.zf then d else 0);
    ReachesTrans(Muted(plane), c, c2, c');
  }

  lemma IfGoes(plane: seq<Cell>, other: int, c: Cpu) returns (c': Cpu)
    requires var d := other - (c.pc + 13 + |Asm(IfTest())|);
      At(plane, c.pc, Dbg(IF) + Asm(IfTest()) + JzCode(d) + Enter())
    ensures Goes(plane, c, c')
    ensures c' == if c.rax == 0 then Popped(c).(fl := c'.fl, pc := other)
                  else Entered(Popped(c)).(pc := c.pc + 13 + |Asm(IfTest())| + |Enter()|)
  {
    hide Goes, At, Reaches, Muted, Enter, Dbg, Asm, JzCode;
    var d := other - (c.pc + 13 + |Asm(IfTest())|);
    SplitIf(plane, c.pc, Dbg(IF), Asm(IfTest()), JzCode(d), Enter());
    c' := QuietIfTest(plane, c.(pc := c.pc + 7), d);
    if c.rax != 0 {
      var c2 := c';
      c' := QuietEnter(plane, c2);
      ReachesTrans(Muted(plane), c.(pc := c.pc + 7), c2, c');
    }
    DbgGoes(plane, IF, c, c');
  }

  lemma IfMoves(w: World, linked: set<nat>, pl: Place, other: int, c: Cpu, k: nat)
    requires PlaceOk(pl) && k < |c.rs|
    requires var d := other - (c.pc + 13 + |Asm(IfTest())|);
      At(w.plane, c.pc, Dbg(IF) + Asm(IfTest()) + JzCode(d) + Enter())
    requires PointIn(pl, c.pc + 13 + |Asm(IfTest())| + |Enter()|) == Some(Opcode(k + 1))
    requires PointIn(pl, other) in {Some(Opcode(k)), Some(Target(k))}
    ensures Moves(w, linked, pl, c, k)
  {
    hide PointIn, Goes, PlaceOk, At, Enter, Moves, Dbg, Asm, JzCode;
    var c1 := IfGoes(w.plane, other, c);
    if c.rax == 0 {
      StaysAt(w, linked, pl, c, c1, k, k);
    } else {
      assert c1.rs[k + 1..] == c.rs[k..];
      StaysAt(w, linked, pl, c, c1, k, k + 1);
    }
  }

  lemma SplitIf(plane: seq<Cell>, p: int, a: seq<Cell>, t: seq<Cell>, j: seq<Cell>, e: seq<Cell>)
    requires At(plane, p, a + t + j + e)
    ensures At(plane, p, a) && At(plane, p + |a|, t + j) && At(plane, p + |a| + |t| + |j|, e)
  {
    hide At;
    AtSplit(plane, p, a + t + j, e);
    assert a + t + j == a + (t + j);
    AtSplit(plane, p, a, t + j);
  }

  lemma EndGoes(plane: seq<Cell>, keep: bool, c: Cpu)
    requires |c.rs| > 0 && At(plane, c.pc, Close(keep))
    ensures Goes(plane, c, Left(c, keep, c.rs[0], c.rs[1..]).(pc := c.pc + CloseSize(keep)))
  {
    hide Goes, At, Reaches, Muted, Dbg, Asm, Exec, Mute;
    AtSplit(plane, c.pc, Dbg(END), Asm(LeaveBlock(keep)));
    var c1 := c.(pc := c.pc + 7);
    LeaveBlockMute(keep);
    CodeMuted(plane, c1.pc, LeaveBlock(keep));
    ExecLeaveBlock(c1, keep);
    RunCode(Muted(plane), LeaveBlock(keep), c1, Left(c1, keep, c.rs[0], c.rs[1..]));
    LeftPc(c, keep, c.rs[0], c.rs[1..], c1.pc, c.pc + CloseSize(keep));
    DbgGoes(plane, END, c, Left(c, keep, c.rs[0], c.rs[1..]).(pc := c.pc + CloseSize(keep)));
  }

  /** The end of an arm, by `end` or by `else`, leaves its block. */
  lemma EndMoves(w: World, linked: set<nat>, pl: Place, keep: bool, c: Cpu, k: nat)
    requires PlaceOk(pl) && k + 1 < |c.rs| && At(w.plane, c.pc, Close(keep))
    requires PointIn(pl, c.pc + CloseSize(keep)) in {Some(Opcode(k)), Some(Target(k))}
    ensures Moves(w, linked, pl, c, k + 1)
  {
    hide PointIn, Goes, PlaceOk, At, Moves, Dbg, Asm;
    EndGoes(w.plane, keep, c);
    var c2 := Left(c, keep, c.rs[0], c.rs[1..]).(pc := c.pc + CloseSize(keep));
    assert c2.rs[k..] == c.rs[k + 1..];
    StaysAt(w, linked, pl, c, c2, k + 1, k);
  }

  lemma LeaveBlockMute(keep: bool)
    ensures Mute(LeaveBlock(keep))
  {
  }

  lemma ElseGoes(plane: seq<Cell>, e: nat, c: Cpu)
    requires |c.rs| > 0 && c.pc >= 0 && At(plane, c.pc, ElseCode(c.pc, Some(e)))
    ensures Goes(plane, c, Left(c, true, c.rs[0], c.rs[1..]).(pc := e))
  {
    hide Goes, At, Reaches, Muted, Dbg, Asm, ElseCode, LeaveCode, JumpCode;
    ElseParts(plane, c.pc, e);
    QuietBranch(plane, c.(pc := c.pc + 7), 0, true, e);
    DbgGoes(plane, ELSE, c, Left(c, true, c.rs[0], c.rs[1..]).(pc := e));
  }

  lemma ElseMoves(w: World, linked: set<nat>, pl: Place, e: nat, c: Cpu, k: nat)
    requires PlaceOk(pl) && k + 1 < |c.rs| && c.pc >= 0 && At(w.plane, c.pc, ElseCode(c.pc, Some(e)))
    requires PointIn(pl, e) == Some(Opcode(k))
    ensures Moves(w, linked, pl, c, k + 1)
  {
    hide PointIn, Goes, PlaceOk, At, Moves, ElseCode;
    ElseGoes(w.plane, e, c);
    var c2 := Left(c, true, c.rs[0], c.rs[1..]).(pc := e);
    assert c2.rs[k..] == c.rs[k + 1..];
    StaysAt(w, linked, pl, c, c2, k + 1, k);
  }

  // ---------- structured instructions ----------

  lemma HereNested(w: World, linked: set<nat>, pl: Place, b: Body, p: int, keeps: seq<bool>, tgts: seq<nat>)
    requires Nested(b) && Here(w, linked, pl, b, p, keeps, tgts)
    ensures p >= 0 && |tgts| == |keeps| && PlaceOk(pl) && BodyOk(pl.env, b, |keeps|) && BodyOk(pl.env, b.next, |keeps|)
    ensures var e := EndOf(pl.env, b, p, keeps);
      && At(w.plane, p, Head(b, p, OtherOf(pl.env, b, p, keeps)))
      && Here(w, linked, pl, b.next, e, keeps, tgts) && PointIn(pl, e) == Some(Opcode(|keeps|))
      && e + Size(pl.env, b.next, keeps) == p + Size(pl.env, b, keeps)
    ensures b.Loop? ==> PointIn(pl, p + 7) == Some(Target(|keeps|))
  {
    hide At, Head, HeadSize, OtherOf, EndOf, LabelOf, Inner, Dbg, Laid, Inside, LabelsOk, Helped, CallsOk, PointIn, Size, BodyOk, InnerPoint;
    LaidNested(w.plane, pl.env, b, p, keeps, tgts);
    NestedInside(pl, b, p, keeps);
    StartPoint(pl, b.next, EndOf(pl.env, b, p, keeps), keeps);
    NestedCalls(w, linked, b);
  }

  lemma NestedCalls(w: World, linked: set<nat>, b: Body)
    requires Nested(b) && CallsOk(w, linked, BodyCalls(b))
    ensures CallsOk(w, linked, BodyCalls(b.body)) && CallsOk(w, linked, BodyCalls(b.next))
    ensures b.IfElse? ==> CallsOk(w, linked, BodyCalls(b.els))
  {
    hide CallsOk;
    if b.IfElse? {
      CallsSplit(w, linked, BodyCalls(b.body) + BodyCalls(b.els), BodyCalls(b.next));
      CallsSplit(w, linked, BodyCalls(b.body), BodyCalls(b.els));
    } else {
      CallsSplit(w, linked, BodyCalls(b.body), BodyCalls(b.next));
    }
  }

  lemma LabelsCons(pl: Place, l: nat, tgts: seq<nat>)
    requires LabelsOk(pl, tgts) && PointIn(pl, l) in {Some(Opcode(|tgts|)), Some(Target(|tgts|))}
    ensures LabelsOk(pl, [l] + tgts)
  {
    hide PointIn, PlaceOk;
    var ts := [l] + tgts;
    forall i | 0 <= i < |ts| ensures PointIn(pl, ts[i]) in {Some(Opcode(|ts| - 1 - i)), Some(Target(|ts| - 1 - i))} {
      if i > 0 { assert ts[i] == tgts[i - 1]; }
    }
  }

  /** The first arm, under the label of the block, and the block's end. */
  lemma HereArm(w: World, linked: set<nat>, pl: Place, b: Body, p: int, keeps: seq<bool>, tgts: seq<nat>)
    requires Nested(b) && Here(w, linked, pl, b, p, keeps, tgts)
    ensures p >= 0 && |tgts| == |keeps| && PlaceOk(pl) && BodyOk(pl.env, b, |keeps|)
    ensures BodyOk(pl.env, b.body, |keeps| + 1) && (b.IfElse? ==> BodyOk(pl.env, b.els, |keeps| + 1))
    ensures var l, e, k := LabelOf(pl.env, b, p, keeps), EndOf(pl.env, b, p, keeps), [Keep(b.bt)] + keeps;
      && PointIn(pl, e) == Some(Opcode(|keeps|))
      && Here(w, linked, pl, b.body, p + HeadSize(b), k, [l] + tgts) && PointIn(pl, p + HeadSize(b)) == Some(Opcode(|keeps| + 1))
      && At(w.plane, e - CloseSize(Keep(b.bt)), Close(Keep(b.bt)))
      && (!b.IfElse? ==> p + HeadSize(b) + Size(pl.env, b.body, k) == e - CloseSize(Keep(b.bt)))
  {
    hide At, Head, HeadSize, OtherOf, EndOf, Inner, Laid, Inside, LabelsOk, Helped, CallsOk, PointIn, Size, BodyOk, InnerPoint, Close, CloseSize, ElseCode, ElseSize, Enter,
         Keep;
    HereNested(w, linked, pl, b, p, keeps, tgts);
    ArmsOk(pl.env, b, |keeps|);
    LaidNested(w.plane, pl.env, b, p, keeps, tgts);
    LaidArm(w.plane, pl.env, b, p, keeps, tgts);
    ArmInside(pl, b, p, keeps);
    NestedCalls(w, linked, b);
    LabelsCons(pl, LabelOf(pl.env, b, p, keeps), tgts);
    StartPoint(pl, b.body, p + HeadSize(b), [Keep(b.bt)] + keeps);
  }

  /** The else-arm, and what is before it. */
  lemma HereElse(w: World, linked: set<nat>, pl: Place, b: Body, p: int, keeps: seq<bool>, tgts: seq<nat>)
    requires b.IfElse? && Here(w, linked, pl, b, p, keeps, tgts)
    ensures p >= 0 && |tgts| == |keeps| && PlaceOk(pl) && BodyOk(pl.env, b, |keeps|)
    ensures BodyOk(pl.env, b.body, |keeps| + 1) && BodyOk(pl.env, b.els, |keeps| + 1)
    ensures var e, k := EndOf(pl.env, b, p, keeps), [Keep(b.bt)] + keeps;
      var u := p + HeadSize(b) + Size(pl.env, b.body, k);
      var v := u + ElseSize() + |Enter()|;
      && At(w.plane, u, ElseCode(u, Some(e))) && At(w.plane, u + ElseSize(), Enter()) && PointIn(pl, u + ElseSize()) == Some(Target(|keeps|))
      && Here(w, linked, pl, b.els, v, k, [e] + tgts) && PointIn(pl, v) == Some(Opcode(|keeps| + 1))
      && v + Size(pl.env, b.els, k) == e - CloseSize(Keep(b.bt))
  {
    hide At, Head, HeadSize, OtherOf, EndOf, Inner, Laid, Inside, LabelsOk, Helped, CallsOk, PointIn, Size, BodyOk, InnerPoint, Close, CloseSize, ElseCode, ElseSize, Enter,
         Keep;
    HereNested(w, linked, pl, b, p, keeps, tgts);
    ArmsOk(pl.env, b, |keeps|);
    LaidNested(w.plane, pl.env, b, p, keeps, tgts);
    LaidElse(w.plane, pl.env, b, p, keeps, tgts);
    ElseInside(pl, b, p, keeps);
    NestedCalls(w, linked, b);
    var e, k := EndOf(pl.env, b, p, keeps), [Keep(b.bt)] + keeps;
    LabelsCons(pl, e, tgts);
    var u := p + HeadSize(b) + Size(pl.env, b.body, k);
    StartPoint(pl, b.els, u + ElseSize() + |Enter()|, k);
    ElseAt(w.plane, u, Some(e));
  }

  /** The opcode that opens a structured instruction. */
  lemma OpenMoves(w: World, linked: set<nat>, pl: Place, b: Body, keeps: seq<bool>, tgts: seq<nat>, c: Cpu)
    requires Nested(b) && Here(w, linked, pl, b, c.pc, keeps, tgts) && |keeps| < |c.rs|
    ensures PlaceOk(pl) && Moves(w, linked, pl, c, |keeps|)
  {
    hide At, Here, PointIn, PlaceOk, Moves, Size, Dbg, Asm, JzCode, Enter, EndOf, BodyOk, ElseSize, CloseSize, Close, ElseCode;
    HereNested(w, linked, pl, b, c.pc, keeps, tgts);
    HereArm(w, linked, pl, b, c.pc, keeps, tgts);
    if b.IfElse? { HereElse(w, linked, pl, b, c.pc, keeps, tgts); }
    if b.Block? {
      BlockMoves(w, linked, pl, c, |keeps|);
    } else if b.Loop? {
      AtSplit(w.plane, c.pc, Dbg(LOOP), Enter());
      LoopMoves(w, linked, pl, c, |keeps|);
    } else {
      IfMoves(w, linked, pl, OtherOf(pl.env, b, c.pc, keeps), c, |keeps|);
    }
  }

  /** A loop's head, reached by a branch or from its opcode. */
  lemma LoopHeadMoves(w: World, linked: set<nat>, pl: Place, b: Body, p: nat, keeps: seq<bool>, tgts: seq<nat>, c: Cpu)
    requires b.Loop? && Here(w, linked, pl, b, p, keeps, tgts) && |keeps| < |c.rs| && c.pc == p + 7
    ensures PlaceOk(pl) && Moves(w, linked, pl, c, |keeps|)
  {
    hide At, Here, PointIn, PlaceOk, Moves, Size, Dbg, Asm, JzCode, Enter, EndOf, BodyOk, ElseSize, CloseSize, Close, ElseCode;
    HereNested(w, linked, pl, b, p, keeps, tgts);
    HereArm(w, linked, pl, b, p, keeps, tgts);
    AtSplit(w.plane, p, Dbg(LOOP), Enter());
    EnterMoves(w, linked, pl, c, |keeps|);
  }

  // ---------- any point of a body ----------

  /** Whatever point of a body the machine is at: with one word saved for every label around it above
      the return address, it goes on to a point where that is so again. */
  lemma {:induction false} BodyMoves(w: World, linked: set<nat>, pl: Place, b: Body, p: int, keeps: seq<bool>, tgts: seq<nat>, c: Cpu)
    requires Here(w, linked, pl, b, p, keeps, tgts) && BodyOk(pl.env, b, |keeps|) && p >= 0
    requires BodyPoint(pl.env, b, p, keeps, c.pc).Some? && Saved(BodyPoint(pl.env, b, p, keeps, c.pc).value) < |c.rs|
    ensures PlaceOk(pl) && Moves(w, linked, pl, c, Saved(BodyPoint(pl.env, b, p, keeps, c.pc).value))
    decreases b, 1
  {
    hide Here, PointIn, PlaceOk, Moves, Size, AtomSize, HeadSize, EndOf, At, Dbg, GenAtom, InnerPoint, CallReturn, Head, CallsOk, LabelsOk, Helped, AtomByte, AtomOk;
    if b.Atomic? {
      HereAtomic(w, linked, pl, b, p, keeps, tgts);
      var e := p + 7 + AtomSize(pl.env, b.atom, keeps);
      if c.pc == p {
        AtomMoves(w, linked, pl, b, keeps, tgts, c);
      } else if c.pc < e {
        AfterCallMoves(w, linked, pl, b, p, keeps, tgts, c);
      } else {
        BodyMoves(w, linked, pl, b.next, e, keeps, tgts, c);
      }
    } else {
      HereNested(w, linked, pl, b, p, keeps, tgts);
      var e := EndOf(pl.env, b, p, keeps);
      if c.pc == p {
        OpenMoves(w, linked, pl, b, keeps, tgts, c);
      } else if b.Loop? && c.pc == p + 7 {
        LoopHeadMoves(w, linked, pl, b, p, keeps, tgts, c);
      } else if c.pc < e {
        InnerMoves(w, linked, pl, b, p, keeps, tgts, c);
      } else {
        BodyMoves(w, linked, pl, b.next, e, keeps, tgts, c);
      }
    }
  }

  lemma InnerMoves(w: World, linked: set<nat>, pl: Place, b: Body, p: int, keeps: seq<bool>, tgts: seq<nat>, c: Cpu)
    requires Nested(b) && Here(w, linked, pl, b, p, keeps, tgts) && BodyOk(pl.env, b, |keeps|) && p >= 0
    requires InnerPoint(pl.env, b, p, keeps, c.pc).Some? && Saved(InnerPoint(pl.env, b, p, keeps, c.pc).value) < |c.rs|
    ensures PlaceOk(pl) && Moves(w, linked, pl, c, Saved(InnerPoint(pl.env, b, p, keeps, c.pc).value))
    decreases b, 0
  {
    hide Here, PointIn, PlaceOk, Moves, Size, HeadSize, EndOf, At, BodyOk, ElseSize, CloseSize, Close, ElseCode, Enter, BodyPoint, Keep;
    HereArm(w, linked, pl, b, p, keeps, tgts);
    if b.IfElse? { HereElse(w, linked, pl, b, p, keeps, tgts); }
    var l, k := LabelOf(pl.env, b, p, keeps), [Keep(b.bt)] + keeps;
    var u := p + HeadSize(b) + Size(pl.env, b.body, k);
    if c.pc < u {
      BodyMoves(w, linked, pl, b.body, p + HeadSize(b), k, [l] + tgts, c);
    } else if !b.IfElse? {
      EndMoves(w, linked, pl, Keep(b.bt), c, |keeps|);
    } else if c.pc == u {
      ElseMoves(w, linked, pl, EndOf(pl.env, b, p, keeps), c, |keeps|);
    } else if c.pc == u + ElseSize() {
      EnterMoves(w, linked, pl, c, |keeps|);
    } else {
      var v := u + ElseSize() + |Enter()|;
      if c.pc < v + Size(pl.env, b.els, k) {
        BodyMoves(w, linked, pl, b.els, v, k, [l] + tgts, c);
      } else {
        EndMoves(w, linked, pl, Keep(b.bt), c, |keeps|);
      }
    }
  }
}
