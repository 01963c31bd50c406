/** One opcode of a validated function, run from a state whose operands and locals have the types that
    validation gives them: so have those of the state it leads to. */
module TypedSteps {
  import opened Words
  import opened Wasm
  import opened X86
  import opened Codegen
  import opened OpSim
  import opened Layout
  import opened ControlSim
  import opened TableSim
  import opened Pieces
  import opened Fragment
  import opened Between
  import opened Points
  import opened OpcodeSteps
  import opened BodySteps
  import opened Typing
  import opened Shapes
  import opened Spots
  import opened Frames

  // ---------- where control can go from a point under k labels ----------

  /** To the function's `ret`. */
  ghost predicate AtRet(fn: Checked, c: Cpu, c': Cpu, k: nat)
    requires PlaceOk(fn.pl) && 0 < k < |c.rs|
  {
    c'.pc == RetAt(fn.pl) && c'.rs == c.rs[k..] && Yielded(c'.rax, fn.ret)
  }

  /** To another point, with the operands that are expected there. */
  ghost predicate AtPoint(fn: Checked, c: Cpu, c': Cpu, k: nat)
    requires PlaceOk(fn.pl) && 0 < k < |c.rs|
  {
    && FnShape(fn, c'.pc).Some?
    && var sh := FnShape(fn, c'.pc).value;
      && 0 < |sh| < |c'.rs| && PointIn(fn.pl, c'.pc) in {Some(Opcode(|sh|)), Some(Target(|sh|))}
      && InFrame(c', fn.locals, sh) && c'.rs[|sh| - 1..] == c.rs[k - 1..]
  }

  /** Either way nothing outside of the function's own memory has changed. */
  ghost predicate StaysTyped(fn: Checked, c: Cpu, c': Cpu, k: nat)
    requires PlaceOk(fn.pl) && 0 < k < |c.rs|
  {
    Below(c, c', c.rs[k - 1]) && (AtRet(fn, c, c', k) || AtPoint(fn, c, c', k))
  }

  /** Into the callee f with arguments of its parameter types, the caller's operands and locals out of reach. */
  ghost predicate EntersTyped(w: World, linked: set<nat>, fn: Checked, c: Cpu, c': Cpu, k: nat, f: nat)
    requires PlaceOk(fn.pl) && 0 < k < |c.rs|
  {
    && f in linked && f < |fn.fts| && fn.fts[f].Some? && 8 * f < |w.plane| && w.plane[8 * f].Ptr? && c'.pc == w.plane[8 * f].a
    && |c'.rs| == |c.rs| + 2 && c'.rs[2..] == c.rs && c'.rs[1] == c'.rdi
    && PointIn(fn.pl, c'.rs[0]) == Some(ReturnTo(k, f)) && FnShape(fn, c'.rs[0]).Some?
    && |FnShape(fn, c'.rs[0]).value| == k && Resting(c'.mem, c'.rs[1..], FnShape(fn, c'.rs[0]).value)
    && c'.rbx == c.rbx + fn.pl.env.clocals && LocalsFit(c'.loc, c'.rbx, fn.fts[f].value.params) && LocalsFit(c'.loc, c.rbx, fn.locals)
    && Below(c, c'.(rbx := c.rbx), c.rs[k - 1])
  }

  /** Out of the function, with its result. */
  ghost predicate LeavesTyped(fn: Checked, c: Cpu, c': Cpu, k: nat)
    requires 0 < k < |c.rs|
  {
    c'.pc == c.rs[k] && c'.rs == c.rs[k + 1..] && Yielded(c'.rax, fn.ret) && Below(c, c', c.rs[k - 1])
  }

  ghost predicate ArrivesTyped(w: World, linked: set<nat>, fn: Checked, c: Cpu, c': Cpu, k: nat)
    requires PlaceOk(fn.pl) && 0 < k < |c.rs|
  {
    StaysTyped(fn, c, c', k) || (exists f :: EntersTyped(w, linked, fn, c, c', k, f)) || LeavesTyped(fn, c, c', k)
  }

  ghost predicate MovesTyped(w: World, linked: set<nat>, fn: Checked, c: Cpu, k: nat)
    requires PlaceOk(fn.pl) && 0 < k < |c.rs|
  {
    Drops(w.plane, c) || exists c' :: Goes(w.plane, c, c') && ArrivesTyped(w, linked, fn, c, c', k)
  }

  lemma StaysMoves(w: World, linked: set<nat>, fn: Checked, c: Cpu, c': Cpu, k: nat)
    requires PlaceOk(fn.pl) && 0 < k < |c.rs| && Goes(w.plane, c, c') && StaysTyped(fn, c, c', k)
    ensures MovesTyped(w, linked, fn, c, k)
  {
    hide Goes, StaysTyped, LeavesTyped, EntersTyped, PlaceOk;
    assert ArrivesTyped(w, linked, fn, c, c', k);
  }

  lemma StaysAtPoint(fn: Checked, c: Cpu, c': Cpu, k: nat, sh: Shape)
    requires PlaceOk(fn.pl) && 0 < k < |c.rs| && Below(c, c', c.rs[k - 1])
    requires FnShape(fn, c'.pc) == Some(sh) && 0 < |sh| < |c'.rs| && PointIn(fn.pl, c'.pc) in {Some(Opcode(|sh|)), Some(Target(|sh|))}
    requires InFrame(c', fn.locals, sh) && c'.rs[|sh| - 1..] == c.rs[k - 1..]
    ensures StaysTyped(fn, c, c', k)
  {
    hide FnShape, PointIn, InFrame, Below, PlaceOk;
  }

  /** What is below the current base is below that of the function. */
  lemma BelowBottom(c: Cpu, c': Cpu, locals: seq<Width>, sh: Shape)
    requires InFrame(c, locals, sh) && Below(c, c', c.rs[0])
    ensures Below(c, c', c.rs[|sh| - 1])
  {
    hide Fits, LocalsFit, Resting, Rd;
    RestingBottom(c.mem, c.rs, sh[1..]);
  }

  lemma BelowIs(c: Cpu, c': Cpu, b: int)
    requires c'.mem == c.mem && c'.loc == c.loc && c'.rbx == c.rbx
    ensures Below(c, c', b)
  {
  }

  /** The state is at the spot's first opcode, with the operands expected there. */
  ghost predicate AtSpot(w: World, linked: set<nat>, fn: Checked, s: Spot, c: Cpu) {
    && There(w, linked, fn, s) && PlaceOk(fn.pl) && BodyOk(fn.pl.env, s.b, |s.keeps|)
    && |s.keeps| == |s.tgts| == |s.labels| == |s.outer| + 1 && |s.keeps| < |c.rs|
    && InFrame(c, fn.locals, [s.st] + s.outer)
  }

  // ---------- plain operations ----------

  lemma PlainTyped(w: World, linked: set<nat>, fn: Checked, s: Spot, c: Cpu)
    requires s.b.Atomic? && s.b.atom.Plain? && AtSpot(w, linked, fn, s, c) && c.pc == s.p
    ensures MovesTyped(w, linked, fn, c, |s.keeps|)
  {
    hide There, InFrame, Exec, Goes, Drops, At, Asm, Dbg, OpCode, EvalOp, CheckOp, PlaceOk, BodyOk, Rep, HasTypes, Below, OpByte, MovesTyped, Size, Here, CallsOk, LabelsOk, Helped,
         PointIn, FnShape, StaysTyped, Fits, LocalsFit;
    var op, c1, k := s.b.atom.op, c.(pc := c.pc + 7), |s.keeps|;
    ThereFacts(w, linked, fn, s);
    HereAtomic(w, linked, fn.pl, s.b, s.p, s.keeps, s.tgts);
    PlainGoes(w.plane, op, OpByte(op), c);
    InFramePc(c, c1, fn.locals, [s.st] + s.outer);
    InFrameIs(c1, fn.locals, s.st, s.outer);
    var vs, ls := FitsRep(c1, c1.rs[0], s.st, fn.locals);
    SimOp(op, c1, c1.rs[0], vs, ls);
    SoundOp(CtxAt(fn, s), op, s.st, vs, ls);
    var o, r := EvalOp(op, vs, ls), Exec(OpCode(op), 0, c1);
    if o.Next? {
      var st := CheckOp(CtxAt(fn, s), op, s.st).st;
      var c2 := r.c.(pc := c.pc + 7 + |Asm(OpCode(op))|);
      PlainFrame(c, c1, r.c, c2, fn.locals, s.st, s.outer, st, o.vs, o.ls);
      ThereAtomic(w, linked, fn, s, st);
      ThereFacts(w, linked, fn, After(fn, s, st));
      StaysAtPoint(fn, c, c2, k, [st] + s.outer);
      StaysMoves(w, linked, fn, c, c2, k);
    } else {
      DropsMoves(w, linked, fn, c, k);
    }
  }

  lemma DropsMoves(w: World, linked: set<nat>, fn: Checked, c: Cpu, k: nat)
    requires PlaceOk(fn.pl) && 0 < k < |c.rs| && Drops(w.plane, c)
    ensures MovesTyped(w, linked, fn, c, k)
  {
    hide Drops, PlaceOk;
  }

  lemma PlainFrame(c: Cpu, c1: Cpu, c2: Cpu, c3: Cpu, locals: seq<Width>, st: seq<Width>, outer: Shape, st': seq<Width>, vs: seq<Value>, ls: seq<Value>)
    requires InFrame(c, locals, [st] + outer) && c1 == c.(pc := c1.pc) && c3 == c2.(pc := c3.pc)
    requires Rep(c2, c.rs[0], vs, ls) && HasTypes(vs, st') && HasTypes(ls, locals) && Preserves(c1, c2, c.rs[0])
    ensures InFrame(c3, locals, [st'] + outer) && c3.rs == c.rs && Below(c, c3, c.rs[|outer|])
  {
    hide Fits, LocalsFit, Resting, Rep, HasTypes, Rd;
    InFrameIs(c, locals, st, outer);
    RepPc(c2, c3.pc, c.rs[0], vs, ls);
    RepFits(c3, c.rs[0], vs, ls, st', locals);
    assert Below(c, c3, c.rs[0]);
    RestingSame(c.mem, c3.mem, c.rs, outer);
    BelowBottom(c, c3, locals, [st] + outer);
    InFrameIs(c3, locals, st', outer);
  }

  // ---------- branches ----------

  /** A branch to depth d arrives as its label expects. */
  lemma LandsTyped(w: World, linked: set<nat>, fn: Checked, s: Spot, c: Cpu, c1: Cpu, c': Cpu, d: nat, keep: bool, st: seq<Width>)
    requires AtSpot(w, linked, fn, s, c)
    requires InFrame(c1, fn.locals, [st] + s.outer) && c1.rs == c.rs && Below(c, c1, c.rs[|s.keeps| - 1])
    requires d < |s.labels| && EndsWith(st, s.labels[d]) && FlagOk(keep, d, Arities(s.labels))
    requires c' == Left(c1, keep, c.rs[d], c.rs[d + 1..]).(pc := s.tgts[d], rcx := c'.rcx, rdx := c'.rdx, fl := c'.fl)
    ensures StaysTyped(fn, c, c', |s.keeps|)
  {
    hide InFrame, PlaceOk, BodyOk, Below, PointIn, FnShape, Here, Shaped, Supported, CheckAt, AtPoint, Fits;
    var k, l, outer := |s.keeps|, s.labels[d], s.outer;
    assert Arities(s.labels)[d] == |l| && |l| <= 1;
    LeftBelow(c, c1, c', keep, d, c.rs[k - 1]);
    if d < |outer| {
      LeftFrame(c1, c', keep, d, l, fn.locals, st, outer);
      LabelPoint(w, linked, fn, s, d);
      var sh := [outer[d] + l] + outer[d + 1..];
      assert c'.rs[|sh| - 1..] == c.rs[k - 1..];
      StaysAtPoint(fn, c, c', k, sh);
    } else {
      InFrameFits(c1, fn.locals, st, outer);
      TopFits(c1, c1.rs[0], st, l);
      LeftRax(c1, c', keep, c.rs[d], c.rs[d + 1..]);
      assert AtRet(fn, c, c', k);
    }
  }

  lemma LeftBelow(c: Cpu, c1: Cpu, c': Cpu, keep: bool, d: nat, b: int)
    requires Below(c, c1, b) && d < |c.rs|
    requires c' == Left(c1, keep, c.rs[d], c.rs[d + 1..]).(pc := c'.pc, rcx := c'.rcx, rdx := c'.rdx, fl := c'.fl)
    ensures Below(c, c', b)
  {
  }

  lemma LeftRax(c: Cpu, c': Cpu, keep: bool, b: int, rs: seq<int>)
    requires c' == Left(c, keep, b, rs).(pc := c'.pc, rcx := c'.rcx, rdx := c'.rdx, fl := c'.fl)
    ensures c'.rs == rs && (keep ==> c'.rax == c.rax)
  {
  }

  lemma InFrameFits(c: Cpu, locals: seq<Width>, st: seq<Width>, outer: Shape)
    requires InFrame(c, locals, [st] + outer)
    ensures |c.rs| > |outer| && Fits(c, c.rs[0], st)
  {
    hide Fits, LocalsFit, Resting;
  }

  lemma LabelPoint(w: World, linked: set<nat>, fn: Checked, s: Spot, d: nat)
    requires There(w, linked, fn, s) && PlaceOk(fn.pl) && d < |s.outer|
    ensures |s.tgts| == |s.labels| == |s.outer| + 1
    ensures PointIn(fn.pl, s.tgts[d]) in {Some(Opcode(|s.outer| - d)), Some(Target(|s.outer| - d))}
    ensures FnShape(fn, s.tgts[d]) == Some([s.outer[d] + s.labels[d]] + s.outer[d + 1..])
  {
    hide PlaceOk, PointIn, FnShape, Shaped, Supported, CheckAt, Laid, Inside, CallsOk, Helped;
    var n := |s.tgts| - 1 - d;
    assert PointIn(fn.pl, s.tgts[d]) in {Some(Opcode(n)), Some(Target(n))};
  }

  lemma SupportedAtom(w: World, linked: set<nat>, fn: Checked, s: Spot)
    requires s.b.Atomic? && There(w, linked, fn, s)
    ensures |s.keeps| == |s.labels| && AtomSupported(s.b.atom, s.keeps, Arities(s.labels))
  {
    hide Here, Shaped, LabelShapes, CheckAt, AtomSupported;
  }

  lemma BrTyped(w: World, linked: set<nat>, fn: Checked, s: Spot, c: Cpu)
    requires s.b.Atomic? && s.b.atom.Br? && AtSpot(w, linked, fn, s, c) && c.pc == s.p
    ensures MovesTyped(w, linked, fn, c, |s.keeps|)
  {
    hide There, InFrame, Goes, At, Asm, Dbg, JumpCode, LeaveCode, EndsWith, PlaceOk, BodyOk, Below, MovesTyped, Size, Here, CallsOk, LabelsOk, Helped, FlagOk,
         PointIn, FnShape, StaysTyped, Left;
    var d, k := s.b.atom.depth, |s.keeps|;
    ThereFacts(w, linked, fn, s);
    SupportedAtom(w, linked, fn, s);
    HereAtomic(w, linked, fn.pl, s.b, s.p, s.keeps, s.tgts);
    BrGoes(w.plane, d, s.keeps[d], c, s.tgts[d]);
    BelowIs(c, c, c.rs[k - 1]);
    var c' := Left(c, s.keeps[d], c.rs[d], c.rs[d + 1..]).(pc := s.tgts[d]);
    LandsTyped(w, linked, fn, s, c, c, c', d, s.keeps[d], s.st);
    StaysMoves(w, linked, fn, c, c', k);
  }

  lemma BrIfTyped(w: World, linked: set<nat>, fn: Checked, s: Spot, c: Cpu)
    requires s.b.Atomic? && s.b.atom.BrIf? && AtSpot(w, linked, fn, s, c) && c.pc == s.p
    ensures MovesTyped(w, linked, fn, c, |s.keeps|)
  {
    hide There, InFrame, Goes, At, Asm, Dbg, JumpCode, JzCode, LeaveCode, BrIfTest, EndsWith, PlaceOk, BodyOk, Below, MovesTyped, Size, Here, CallsOk, LabelsOk, Helped, FlagOk,
         PointIn, FnShape, StaysTyped, Left;
    var d, k := s.b.atom.depth, |s.keeps|;
    ThereFacts(w, linked, fn, s);
    SupportedAtom(w, linked, fn, s);
    HereAtomic(w, linked, fn.pl, s.b, s.p, s.keeps, s.tgts);
    assert |s.st| > 0 by { EndsNonempty(s.st); }
    var c' := BrIfGoes(w.plane, d, s.keeps[d], c, s.tgts[d]);
    var c1 := Popped(c).(fl := c'.fl);
    var st := Pop(s.st, 1);
    PoppedFrame(c, c1, fn.locals, s.st, s.outer);
    BelowIs(c, c1, c.rs[k - 1]);
    if c.rax == 0 {
      BelowIs(c, c', c.rs[k - 1]);
      InFramePc(c1, c', fn.locals, [st] + s.outer);
      ThereAtomic(w, linked, fn, s, st);
      ThereFacts(w, linked, fn, After(fn, s, st));
      StaysAtPoint(fn, c, c', k, [st] + s.outer);
    } else {
      LandsTyped(w, linked, fn, s, c, c1, c', d, s.keeps[d], st);
    }
    StaysMoves(w, linked, fn, c, c', k);
  }

  lemma EndsNonempty(st: seq<Width>)
    ensures EndsWith(st, [W32]) ==> |st| > 0
  {
  }

  lemma TableTyped(w: World, linked: set<nat>, fn: Checked, s: Spot, c: Cpu)
    requires s.b.Atomic? && s.b.atom.BrTable? && AtSpot(w, linked, fn, s, c) && c.pc == s.p
    ensures MovesTyped(w, linked, fn, c, |s.keeps|)
  {
    hide There, InFrame, Goes, At, Dbg, TableHead, Entry, Entries, EndsWith, PlaceOk, BodyOk, Below, MovesTyped, Size, Here, CallsOk, LabelsOk, Helped, FlagOk,
         PointIn, FnShape, StaysTyped, Left;
    var ts, d, k := s.b.atom.targets, s.b.atom.default, |s.keeps|;
    ThereFacts(w, linked, fn, s);
    SupportedAtom(w, linked, fn, s);
    HereAtomic(w, linked, fn.pl, s.b, s.p, s.keeps, s.tgts);
    assert |s.st| > 0 by { EndsNonempty(s.st); }
    var c' := TableGoes(w.plane, fn.pl.env, ts, d, s.keeps[d], c, s.tgts);
    var c1 := Popped(c);
    PoppedFrame(c, c1, fn.locals, s.st, s.outer);
    BelowIs(c, c1, c.rs[k - 1]);
    LandsTyped(w, linked, fn, s, c, c1, c', Selected(ts, d, Lo(W32, c.rax)), s.keeps[d], Pop(s.st, 1));
    StaysMoves(w, linked, fn, c, c', k);
  }

  lemma ReturnTyped(w: World, linked: set<nat>, fn: Checked, s: Spot, c: Cpu)
    requires s.b.Atomic? && s.b.atom.Return? && AtSpot(w, linked, fn, s, c) && c.pc == s.p
    ensures MovesTyped(w, linked, fn, c, |s.keeps|)
  {
    hide InFrame, Goes, At, Asm, Dbg, EndsWith, PlaceOk, BodyOk, Below, Size, Here, Shaped, Supported, PointIn, FnShape, StaysTyped, EntersTyped, CallsOk, LabelsOk, Helped;
    var k := |s.keeps|;
    ThereFacts(w, linked, fn, s);
    HereAtomic(w, linked, fn.pl, s.b, s.p, s.keeps, s.tgts);
    var c' := ReturnGoes(w.plane, c, k);
    InFrameFits(c, fn.locals, s.st, s.outer);
    TopFits(c, c.rs[0], s.st, fn.ret);
    BelowIs(c, c', c.rs[k - 1]);
    assert LeavesTyped(fn, c, c', k) && ArrivesTyped(w, linked, fn, c, c', k);
  }
}
