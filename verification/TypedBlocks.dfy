/** The opcodes of structured instructions, and calls, in typed states. */
module TypedBlocks {
  import opened Words
  import opened Wasm
  import opened X86
  import opened OpSim
  import opened Layout
  import opened ControlSim
  import opened Fragment
  import opened Between
  import opened Points
  import opened OpcodeSteps
  import opened BodySteps
  import opened Typing
  import opened Shapes
  import opened Spots
  import opened Frames
  import opened TypedSteps

  /** Entering an arm. */
  lemma EnterTyped(w: World, linked: set<nat>, fn: Checked, t: Spot, c: Cpu, c0: Cpu, c': Cpu, us: seq<Width>, outer: Shape)
    requires There(w, linked, fn, t) && PlaceOk(fn.pl) && t.st == [] && t.outer == [us] + outer && |outer| + 1 < |c.rs|
    requires InFrame(c0, fn.locals, [us] + outer) && c0.rs == c.rs && Below(c, c0, c.rs[|outer|]) && c' == Entered(c0).(pc := t.p)
    ensures StaysTyped(fn, c, c', |outer| + 1)
  {
    hide There, InFrame, PlaceOk, Below, PointIn, FnShape, BodyOk, Here;
    ThereFacts(w, linked, fn, t);
    EnteredFrame(c0, c', fn.locals, us, outer);
    BelowBottom(c0, c', fn.locals, [us] + outer);
    BelowTwice(c, c0, c', c.rs[|outer|]);
    StaysAtPoint(fn, c, c', |outer| + 1, [[]] + ([us] + outer));
  }

  lemma HeadIs(b: Body, p: nat, other: int)
    requires Nested(b)
    ensures b.Block? ==> Head(b, p, other) == Dbg(BLOCK) + Enter() && HeadSize(b) == 7 + |Enter()|
    ensures b.Loop? ==> Head(b, p, other) == Dbg(LOOP) + Enter() && HeadSize(b) == 7 + |Enter()|
    ensures b.If? || b.IfElse? ==>
      && Head(b, p, other) == Dbg(IF) + Asm(IfTest()) + JzCode(other - (p + 13 + |Asm(IfTest())|)) + Enter()
      && HeadSize(b) == 13 + |Asm(IfTest())| + |Enter()|
  {
    hide Dbg, Enter, Asm, JzCode;
  }

  lemma BlockTyped(w: World, linked: set<nat>, fn: Checked, s: Spot, c: Cpu)
    requires s.b.Block? && AtSpot(w, linked, fn, s, c) && c.pc == s.p
    ensures MovesTyped(w, linked, fn, c, |s.keeps|)
  {
    hide There, InFrame, Goes, At, Dbg, Enter, PlaceOk, BodyOk, Below, MovesTyped, Here, PointIn, FnShape, StaysTyped, EndOf, OtherOf, LabelOf, Keep, Head, HeadSize;
    ThereFacts(w, linked, fn, s);
    HereNested(w, linked, fn.pl, s.b, s.p, s.keeps, s.tgts);
    HeadIs(s.b, s.p, OtherOf(fn.pl.env, s.b, s.p, s.keeps));
    ThereArm(w, linked, fn, s);
    var c' := BlockGoes(w.plane, c);
    BelowIs(c, c, c.rs[|s.outer|]);
    EnterTyped(w, linked, fn, ArmOf(fn, s), c, c, c', s.st, s.outer);
    StaysMoves(w, linked, fn, c, c', |s.keeps|);
  }

  lemma LoopTyped(w: World, linked: set<nat>, fn: Checked, s: Spot, c: Cpu)
    requires s.b.Loop? && AtSpot(w, linked, fn, s, c) && c.pc == s.p
    ensures MovesTyped(w, linked, fn, c, |s.keeps|)
  {
    hide There, InFrame, Goes, At, Dbg, Enter, PlaceOk, BodyOk, Below, MovesTyped, Here, PointIn, FnShape, StaysTyped, EndOf, OtherOf, Head, HeadSize;
    ThereFacts(w, linked, fn, s);
    HereNested(w, linked, fn.pl, s.b, s.p, s.keeps, s.tgts);
    HeadIs(s.b, s.p, OtherOf(fn.pl.env, s.b, s.p, s.keeps));
    AtSplit(w.plane, c.pc, Dbg(LOOP), Enter());
    LoopShape(w, linked, fn, s);
    LoopGoes(w.plane, c);
    var c' := c.(pc := c.pc + 7);
    BelowIs(c, c', c.rs[|s.outer|]);
    InFramePc(c, c', fn.locals, [s.st] + s.outer);
    StaysAtPoint(fn, c, c', |s.keeps|, [s.st] + s.outer);
    StaysMoves(w, linked, fn, c, c', |s.keeps|);
  }

  lemma LoopHeadTyped(w: World, linked: set<nat>, fn: Checked, s: Spot, c: Cpu)
    requires s.b.Loop? && AtSpot(w, linked, fn, s, c) && c.pc == s.p + 7
    ensures MovesTyped(w, linked, fn, c, |s.keeps|)
  {
    hide There, InFrame, Goes, At, Dbg, Enter, PlaceOk, BodyOk, Below, MovesTyped, Here, PointIn, FnShape, StaysTyped, EndOf, OtherOf, LabelOf, Keep, Head, HeadSize;
    ThereFacts(w, linked, fn, s);
    HereNested(w, linked, fn.pl, s.b, s.p, s.keeps, s.tgts);
    HeadIs(s.b, s.p, OtherOf(fn.pl.env, s.b, s.p, s.keeps));
    AtSplit(w.plane, s.p, Dbg(LOOP), Enter());
    ThereArm(w, linked, fn, s);
    var c' := EnterGoes(w.plane, c);
    BelowIs(c, c, c.rs[|s.outer|]);
    EnterTyped(w, linked, fn, ArmOf(fn, s), c, c, c', s.st, s.outer);
    StaysMoves(w, linked, fn, c, c', |s.keeps|);
  }

  /** Where a false condition leads. */
  lemma OtherPoint(w: World, linked: set<nat>, fn: Checked, s: Spot)
    requires (s.b.If? || s.b.IfElse?) && There(w, linked, fn, s) && PlaceOk(fn.pl) && BodyOk(fn.pl.env, s.b, |s.keeps|)
    ensures var other := OtherOf(fn.pl.env, s.b, s.p, s.keeps);
      && FnShape(fn, other) == Some([Around(s.b, s.st)] + s.outer)
      && PointIn(fn.pl, other) in {Some(Opcode(|s.keeps|)), Some(Target(|s.keeps|))}
    ensures |s.st| > 0 && Around(s.b, s.st) == Pop(s.st, 1)
  {
    hide PlaceOk, BodyOk, Here, Shaped, LabelShapes, Supported, PointIn, FnShape, EndOf, ElseSize, Size, HeadSize, Enter, CheckFirst, Check, Yields;
    ThereFacts(w, linked, fn, s);
    NestedChecked(CtxAt(fn, s), s.b, s.st);
    if s.b.IfElse? {
      ShapedElse(fn, s);
      HereElse(w, linked, fn.pl, s.b, s.p, s.keeps, s.tgts);
    } else {
      ThereNested(w, linked, fn, s);
      ThereFacts(w, linked, fn, After(fn, s, Around(s.b, s.st) + Yields(s.b.bt)));
      assert Around(s.b, s.st) + [] == Around(s.b, s.st);
    }
  }

  lemma IfTyped(w: World, linked: set<nat>, fn: Checked, s: Spot, c: Cpu)
    requires (s.b.If? || s.b.IfElse?) && AtSpot(w, linked, fn, s, c) && c.pc == s.p
    ensures MovesTyped(w, linked, fn, c, |s.keeps|)
  {
    hide There, InFrame, Goes, At, Dbg, Asm, JzCode, Enter, PlaceOk, BodyOk, Below, MovesTyped, Here, PointIn, FnShape, StaysTyped, EndOf, OtherOf, LabelOf, Keep, Head, HeadSize, Around;
    var other := OtherOf(fn.pl.env, s.b, s.p, s.keeps);
    ThereFacts(w, linked, fn, s);
    HereNested(w, linked, fn.pl, s.b, s.p, s.keeps, s.tgts);
    HeadIs(s.b, s.p, other);
    OtherPoint(w, linked, fn, s);
    var us := Pop(s.st, 1);
    ThereArm(w, linked, fn, s);
    var c' := IfGoes(w.plane, other, c);
    if c.rax == 0 {
      PoppedFrame(c, c', fn.locals, s.st, s.outer);
      BelowIs(c, c', c.rs[|s.outer|]);
      StaysAtPoint(fn, c, c', |s.keeps|, [us] + s.outer);
    } else {
      var c0 := Popped(c);
      PoppedFrame(c, c0, fn.locals, s.st, s.outer);
      BelowIs(c, c0, c.rs[|s.outer|]);
      EnterTyped(w, linked, fn, ArmOf(fn, s), c, c0, c', us, s.outer);
    }
    StaysMoves(w, linked, fn, c, c', |s.keeps|);
  }

  // ---------- the ends of arms ----------

  /** At the end of an arm of the spot's structured instruction, with the arm's results. */
  ghost predicate AtArmEnd(w: World, linked: set<nat>, fn: Checked, s: Spot, c: Cpu) {
    && Nested(s.b) && There(w, linked, fn, s) && PlaceOk(fn.pl) && BodyOk(fn.pl.env, s.b, |s.keeps|)
    && |s.keeps| == |s.outer| + 1 && |s.keeps| + 1 < |c.rs|
    && InFrame(c, fn.locals, [Yields(s.b.bt)] + ([Around(s.b, s.st)] + s.outer))
  }

  /** The block is left with the carry flag of its type. */
  lemma LeavesArm(w: World, linked: set<nat>, fn: Checked, s: Spot, c: Cpu, c': Cpu)
    requires AtArmEnd(w, linked, fn, s, c)
    requires c' == Left(c, Keep(s.b.bt), c.rs[0], c.rs[1..]).(pc := EndOf(fn.pl.env, s.b, s.p, s.keeps))
    ensures StaysTyped(fn, c, c', |s.keeps| + 1)
  {
    hide There, InFrame, PlaceOk, BodyOk, Below, PointIn, FnShape, EndOf, Left, Here, Around, Yields, CheckFirst, Keep;
    var us, t := Around(s.b, s.st), Yields(s.b.bt);
    ThereFacts(w, linked, fn, s);
    NestedChecked(CtxAt(fn, s), s.b, s.st);
    ThereNested(w, linked, fn, s);
    ThereFacts(w, linked, fn, After(fn, s, us + t));
    ArityOne(s.b.bt);
    ArmLeft(c, c', Keep(s.b.bt), fn.locals, t, us, s.outer);
    StaysAtPoint(fn, c, c', |s.keeps| + 1, [us + t] + s.outer);
  }

  lemma ArmLeft(c: Cpu, c': Cpu, keep: bool, locals: seq<Width>, t: seq<Width>, us: seq<Width>, outer: Shape)
    requires InFrame(c, locals, [t] + ([us] + outer)) && |t| <= 1 && (keep <==> |t| == 1) && |c.rs| > |outer| + 1
    requires c' == Left(c, keep, c.rs[0], c.rs[1..]).(pc := c'.pc)
    ensures InFrame(c', locals, [us + t] + outer) && c'.rs == c.rs[1..] && Below(c, c', c.rs[|outer| + 1])
  {
    hide InFrame, Below, Left;
    assert EndsWith(t, t);
    LeftFrame(c, c', keep, 0, t, locals, t, [us] + outer);
    assert ([us] + outer)[1..] == outer;
    LeftKeeps(c, c', keep, c.rs[0], c.rs[1..]);
    BelowIs(c, c', c.rs[|outer| + 1]);
  }

  lemma ArityOne(bt: BlockType)
    ensures |Yields(bt)| <= 1
  {
  }

  lemma LeftKeeps(c: Cpu, c': Cpu, keep: bool, b: int, rs: seq<int>)
    requires c' == Left(c, keep, b, rs).(pc := c'.pc)
    ensures c'.mem == c.mem && c'.loc == c.loc && c'.rbx == c.rbx && c'.rs == rs
  {
  }

  lemma EndTyped(w: World, linked: set<nat>, fn: Checked, s: Spot, c: Cpu)
    requires AtArmEnd(w, linked, fn, s, c) && c.pc == EndOf(fn.pl.env, s.b, s.p, s.keeps) - CloseSize(Keep(s.b.bt))
    ensures MovesTyped(w, linked, fn, c, |s.keeps| + 1)
  {
    hide There, InFrame, Goes, At, PlaceOk, BodyOk, MovesTyped, Here, PointIn, FnShape, StaysTyped, EndOf, Close, CloseSize, Left, Keep, HeadSize, Size, LabelOf;
    ThereFacts(w, linked, fn, s);
    HereArm(w, linked, fn.pl, s.b, s.p, s.keeps, s.tgts);
    EndGoes(w.plane, Keep(s.b.bt), c);
    var c' := Left(c, Keep(s.b.bt), c.rs[0], c.rs[1..]).(pc := EndOf(fn.pl.env, s.b, s.p, s.keeps));
    LeavesArm(w, linked, fn, s, c, c');
    StaysMoves(w, linked, fn, c, c', |s.keeps| + 1);
  }

  lemma ElseTyped(w: World, linked: set<nat>, fn: Checked, s: Spot, c: Cpu)
    requires s.b.IfElse? && Keep(s.b.bt) && AtArmEnd(w, linked, fn, s, c) && c.pc == ArmEnd(fn, s)
    ensures MovesTyped(w, linked, fn, c, |s.keeps| + 1)
  {
    hide There, InFrame, Goes, At, PlaceOk, BodyOk, MovesTyped, Here, PointIn, FnShape, StaysTyped, EndOf, CloseSize, Left, ElseCode, ElseSize, Size, HeadSize, Enter;
    ThereFacts(w, linked, fn, s);
    HereElse(w, linked, fn.pl, s.b, s.p, s.keeps, s.tgts);
    var e := EndOf(fn.pl.env, s.b, s.p, s.keeps);
    ElseGoes(w.plane, e, c);
    var c' := Left(c, true, c.rs[0], c.rs[1..]).(pc := e);
    LeavesArm(w, linked, fn, s, c, c');
    StaysMoves(w, linked, fn, c, c', |s.keeps| + 1);
  }

  /** A body that never falls through is checked as one. */
  lemma {:induction false} NoFallChecked(ctx: Ctx, b: Body, st: seq<Width>)
    requires NoFall(b) && Check(ctx, b, st) != Ill
    ensures Check(ctx, b, st) == Never
    decreases b
  {
    hide CheckFirst;
    CheckIs(ctx, b, st);
    if b.Atomic? && Transfers(b.atom) {
      TransferChecked(ctx, b, st);
    } else if CheckFirst(ctx, b, st).Falls? {
      NoFallChecked(ctx, b.next, CheckFirst(ctx, b, st).st);
    }
  }

  lemma TransferChecked(ctx: Ctx, b: Body, st: seq<Width>)
    requires b.Atomic? && Transfers(b.atom)
    ensures CheckFirst(ctx, b, st) in {Never, Ill}
  {
    hide EndsWith;
  }

  /** The start of an else-arm. */
  lemma ElseStartTyped(w: World, linked: set<nat>, fn: Checked, s: Spot, c: Cpu)
    requires s.b.IfElse? && There(w, linked, fn, s) && PlaceOk(fn.pl) && BodyOk(fn.pl.env, s.b, |s.keeps|)
    requires |s.keeps| == |s.outer| + 1 && |s.keeps| < |c.rs|
    requires c.pc == ArmEnd(fn, s) + ElseSize() && InFrame(c, fn.locals, [Around(s.b, s.st)] + s.outer)
    ensures MovesTyped(w, linked, fn, c, |s.keeps|)
  {
    hide There, InFrame, Goes, At, PlaceOk, BodyOk, Below, MovesTyped, Here, PointIn, FnShape, StaysTyped, EndOf, CloseSize, ElseCode, ElseSize, Size, HeadSize, Enter, Keep, LabelOf,
         Around;
    ThereFacts(w, linked, fn, s);
    HereElse(w, linked, fn.pl, s.b, s.p, s.keeps, s.tgts);
    ThereElse(w, linked, fn, s);
    var c' := EnterGoes(w.plane, c);
    BelowIs(c, c, c.rs[|s.outer|]);
    EnterTyped(w, linked, fn, ElseOf(fn, s), c, c, c', Around(s.b, s.st), s.outer);
    StaysMoves(w, linked, fn, c, c', |s.keeps|);
  }
}
