/** From any point of a validated function, in a state with the types that validation gives there. */
module TypedFns {
  import opened Words
  import opened Wasm
  import opened X86
  import opened OpSim
  import opened Layout
  import opened ControlSim
  import opened CallSim
  import opened Pieces
  import opened Fragment
  import opened Between
  import opened Points
  import opened OpcodeSteps
  import opened BodySteps
  import opened Depth
  import opened Typing
  import opened Shapes
  import opened Spots
  import opened Frames
  import opened TypedSteps
  import opened TypedBlocks
  import opened TypedCalls

  // ---------- any instruction ----------

  /** Control is in the code of the spot's first instruction. */
  lemma SpotTyped(w: World, linked: set<nat>, fn: Checked, s: Spot, c: Cpu, sh: Shape)
    requires Sound(w, linked, fn) && There(w, linked, fn, s) && PlaceOk(fn.pl) && BodyOk(fn.pl.env, s.b, |s.keeps|) && Owns(fn, s, c.pc)
    requires BodyShape(fn, s, c.pc) == Some(sh) && 0 < |sh| < |c.rs| && InFrame(c, fn.locals, sh)
    requires BodyPoint(fn.pl.env, s.b, s.p, s.keeps, c.pc) in {Some(Opcode(|sh|)), Some(Target(|sh|))}
    ensures MovesTyped(w, linked, fn, c, |sh|)
  {
    hide There, InFrame, PlaceOk, BodyOk, MovesTyped, BodyShape, BodyPoint, Size, HeadSize, ElseSize, Sound, Keep, Enter, LabelOf, Around, CallReturn;
    ThereFacts(w, linked, fn, s);
    if s.b.Atomic? {
      AtomTyped(w, linked, fn, s, c, sh);
    } else if c.pc == s.p || (s.b.Loop? && c.pc == s.p + 7) {
      NestedSize(fn.pl.env, s.b, s.p, s.keeps);
      NestedShape(fn, s, c.pc);
      if c.pc != s.p { LoopHeadTyped(w, linked, fn, s, c); }
      else if s.b.Block? { BlockTyped(w, linked, fn, s, c); }
      else if s.b.Loop? { LoopTyped(w, linked, fn, s, c); }
      else { IfTyped(w, linked, fn, s, c); }
    } else {
      InnerTyped(w, linked, fn, s, c, sh);
    }
  }

  lemma AtomStart(fn: Checked, s: Spot, q: int, sh: Shape)
    requires s.b.Atomic? && BodyOk(fn.pl.env, s.b, |s.keeps|) && Owns(fn, s, q) && BodyShape(fn, s, q) == Some(sh)
    requires BodyPoint(fn.pl.env, s.b, s.p, s.keeps, q) in {Some(Opcode(|sh|)), Some(Target(|sh|))}
    ensures q == s.p && sh == [s.st] + s.outer
  {
    hide BodyOk, BodyShape, Size, CallReturn, AtomSize, AtomOk;
    SizeParts(fn.pl.env, s.b, s.keeps);
    AtomicShape(fn, s, s.p);
    if s.b.atom.Call? && s.b.atom.fn < |fn.pl.env.sigs| { CallReturnIn(fn.pl.env, s.b.atom.fn, s.p, s.keeps); }
  }

  lemma AtomTyped(w: World, linked: set<nat>, fn: Checked, s: Spot, c: Cpu, sh: Shape)
    requires s.b.Atomic? && Sound(w, linked, fn) && There(w, linked, fn, s) && PlaceOk(fn.pl) && BodyOk(fn.pl.env, s.b, |s.keeps|) && Owns(fn, s, c.pc)
    requires BodyShape(fn, s, c.pc) == Some(sh) && 0 < |sh| < |c.rs| && InFrame(c, fn.locals, sh)
    requires BodyPoint(fn.pl.env, s.b, s.p, s.keeps, c.pc) in {Some(Opcode(|sh|)), Some(Target(|sh|))}
    ensures MovesTyped(w, linked, fn, c, |sh|)
  {
    hide There, InFrame, PlaceOk, BodyOk, MovesTyped, BodyShape, BodyPoint, Owns, Sound;
    ThereFacts(w, linked, fn, s);
    AtomStart(fn, s, c.pc, sh);
    match s.b.atom
    case Plain(_) => PlainTyped(w, linked, fn, s, c);
    case Br(_) => BrTyped(w, linked, fn, s, c);
    case BrIf(_) => BrIfTyped(w, linked, fn, s, c);
    case BrTable(_, _) => TableTyped(w, linked, fn, s, c);
    case Return => ReturnTyped(w, linked, fn, s, c);
    case Call(_) => CallTyped(w, linked, fn, s, c);
  }

  /** The shape at the end of an arm is its block's results on the frame around it. */
  lemma ArmEndShape(fn: Checked, s: Spot, t: Spot, sh: Shape)
    requires Nested(s.b) && t.outer == [Around(s.b, s.st)] + s.outer && CheckAt(fn, t) in {Falls(Yields(s.b.bt)), Never}
    requires EndShape(fn, t) == Some(sh)
    ensures sh == [Yields(s.b.bt)] + ([Around(s.b, s.st)] + s.outer) && !CheckAt(fn, t).Never?
  {
    hide CheckAt, Around, Yields;
  }

  /** What is expected at the ends of the arms, and between them. */
  lemma InnerShapes(fn: Checked, s: Spot, q: int, sh: Shape)
    requires Nested(s.b) && BodyOk(fn.pl.env, s.b, |s.keeps|) && Owns(fn, s, q) && q != s.p && !(s.b.Loop? && q == s.p + 7)
    requires BodyShape(fn, s, q) == Some(sh)
    ensures
      || (q == ArmEnd(fn, s) && EndShape(fn, ArmOf(fn, s)) == Some(sh)
          && (!s.b.IfElse? ==> q == EndOf(fn.pl.env, s.b, s.p, s.keeps) - CloseSize(Keep(s.b.bt))))
      || (s.b.IfElse? && q == ArmEnd(fn, s) + ElseSize() && q != ArmEnd(fn, s) && sh == [Around(s.b, s.st)] + s.outer)
      || (s.b.IfElse? && q != ArmEnd(fn, s) && q != ArmEnd(fn, s) + ElseSize() && EndShape(fn, ElseOf(fn, s)) == Some(sh)
          && q == EndOf(fn.pl.env, s.b, s.p, s.keeps) - CloseSize(Keep(s.b.bt)))
  {
    hide BodyOk, BodyShape, Size, HeadSize, ElseSize, EndOf, Keep, Enter, LabelOf, Around, EndShape, CloseSize, LabelTypes;
    NestedSize(fn.pl.env, s.b, s.p, s.keeps);
    BodyOkParts(fn.pl.env, s.b, |s.keeps|);
    ArmSizes(fn.pl.env, s.b, s.p, s.keeps);
    NestedShape(fn, s, q);
    assert InnerShape(fn, s, q) == Some(sh);
  }

  lemma InnerTyped(w: World, linked: set<nat>, fn: Checked, s: Spot, c: Cpu, sh: Shape)
    requires Nested(s.b) && There(w, linked, fn, s) && PlaceOk(fn.pl) && BodyOk(fn.pl.env, s.b, |s.keeps|)
    requires Owns(fn, s, c.pc) && c.pc != s.p && !(s.b.Loop? && c.pc == s.p + 7)
    requires BodyShape(fn, s, c.pc) == Some(sh) && 0 < |sh| < |c.rs| && InFrame(c, fn.locals, sh)
    ensures MovesTyped(w, linked, fn, c, |sh|)
  {
    hide There, InFrame, PlaceOk, BodyOk, MovesTyped, BodyShape, Owns, ElseSize, EndOf, Keep, LabelOf, Around, EndShape, CloseSize, CheckAt, LabelTypes, Yields, ArmEnd, HeadSize;
    ThereFacts(w, linked, fn, s);
    InnerShapes(fn, s, c.pc, sh);
    ThereArm(w, linked, fn, s);
    if c.pc == ArmEnd(fn, s) {
      ArmEndShape(fn, s, ArmOf(fn, s), sh);
      if s.b.IfElse? {
        KeepsHere(w, linked, fn, s);
        ElseTyped(w, linked, fn, s, c);
      } else {
        EndTyped(w, linked, fn, s, c);
      }
    } else {
      ThereElse(w, linked, fn, s);
      if c.pc == ArmEnd(fn, s) + ElseSize() {
        ElseStartTyped(w, linked, fn, s, c);
      } else {
        ArmEndShape(fn, s, ElseOf(fn, s), sh);
        EndTyped(w, linked, fn, s, c);
      }
    }
  }

  /** `else` is only reached with a result. */
  lemma KeepsHere(w: World, linked: set<nat>, fn: Checked, s: Spot)
    requires s.b.IfElse? && There(w, linked, fn, s) && BodyOk(fn.pl.env, s.b, |s.keeps|) && !CheckAt(fn, ArmOf(fn, s)).Never?
    ensures Keep(s.b.bt)
  {
    hide Here, Shaped, LabelShapes, Check, CalleesIn, Supported, NoFall, Keep, HeadSize, LabelOf, Around, BodyOk, There;
    ThereArm(w, linked, fn, s);
    assert |s.labels| == |s.keeps| && Supported(s.b, s.keeps, Arities(s.labels)) by { ThereSupported(w, linked, fn, s); }
    SupportedNext(s.b, s.keeps, Arities(s.labels));
    if !Keep(s.b.bt) { NoFallChecked(CtxAt(fn, ArmOf(fn, s)), s.b.body, []); }
  }

  lemma ThereSupported(w: World, linked: set<nat>, fn: Checked, s: Spot)
    requires There(w, linked, fn, s)
    ensures |s.labels| == |s.keeps| && Supported(s.b, s.keeps, Arities(s.labels))
  {
    hide Here, Shaped, LabelShapes, Check, CalleesIn, Supported;
  }

  // ---------- after a call ----------

  /** Back from a call, with its result in rax and the frame waiting; the locals are those of the callee. */
  ghost predicate Waits(c: Cpu, env: Env, locals: seq<Width>, sh: Shape, ret: seq<Width>) {
    && 0 < |sh| && |sh| + 1 < |c.rs| && Resting(c.mem, c.rs, sh) && Yielded(c.rax, ret) && LocalsFit(c.loc, c.rbx - env.clocals, locals)
  }

  lemma CleanedFrame(env: Env, c: Cpu, c': Cpu, locals: seq<Width>, st: seq<Width>, outer: Shape, ret: seq<Width>, keep: bool)
    requires Waits(c, env, locals, [st] + outer, ret) && |ret| <= 1 && (keep <==> |ret| == 1)
    requires c' == Left(c, keep, c.rs[0], c.rs[1..]).(pc := c'.pc, rbx := c.rbx - env.clocals, fl := Undefined)
    ensures InFrame(c', locals, [st + ret] + outer) && c'.rs == c.rs[1..]
    ensures c'.mem == c.mem && c'.loc == c.loc && c'.rbx == c.rbx - env.clocals
  {
    hide LocalsFit, Fits, Held;
    var c0 := c.(rbx := c.rbx - env.clocals);
    assert ([st] + outer)[1..] == outer;
    LeftFits(c0, c', keep, c.rs[1], st, ret, c.rs[1..]);
    InFrameIs(c', locals, st + ret, outer);
  }

  lemma ResumeTyped(w: World, linked: set<nat>, fn: Checked, s: Spot, c: Cpu, sh: Shape) returns (c': Cpu)
    requires s.b.Atomic? && s.b.atom.Call? && Sound(w, linked, fn) && There(w, linked, fn, s) && PlaceOk(fn.pl) && BodyOk(fn.pl.env, s.b, |s.keeps|)
    requires s.b.atom.fn < |fn.pl.env.sigs| && c.pc == CallReturn(fn.pl.env, s.b.atom.fn, s.p) && BodyShape(fn, s, c.pc) == Some(sh)
    requires s.b.atom.fn < |fn.fts| && fn.fts[s.b.atom.fn].Some? && Waits(c, fn.pl.env, fn.locals, sh, fn.fts[s.b.atom.fn].value.ret)
    ensures Goes(w.plane, c, c') && c'.mem == c.mem && c'.loc == c.loc && c'.rbx == c.rbx - fn.pl.env.clocals && c'.rs == c.rs[1..]
    ensures FnShape(fn, c'.pc).Some? && |FnShape(fn, c'.pc).value| == |sh| && PointIn(fn.pl, c'.pc) == Some(Opcode(|sh|))
    ensures InFrame(c', fn.locals, FnShape(fn, c'.pc).value)
  {
    hide There, Goes, At, Asm, Cells, Dbg, EndsWith, PlaceOk, BodyOk, Here, PointIn, FnShape, CallSetup, CallCleanup, CallReturn, CallsOk, LabelsOk, Helped,
         Waits, Sound, AtomSize, BodyShape, InFrame, Left, Size;
    var f, env := s.b.atom.fn, fn.pl.env;
    ThereFacts(w, linked, fn, s);
    HereAtomic(w, linked, fn.pl, s.b, s.p, s.keeps, s.tgts);
    CallReturnIn(env, f, s.p, s.keeps);
    AtomicShape(fn, s, c.pc);
    CallPieces(w.plane, env, f, s.p, s.keeps, s.tgts);
    CalleeThere(w, linked, fn, s);
    assert |c.rs| > 0 by { WaitsStack(c, env, fn.locals, sh, fn.fts[f].value.ret); }
    c' := CleanupGoes(w.plane, env, f, c);
    var ret := fn.fts[f].value.ret;
    assert |fn.fts[f].value.params| <= |s.st| by { EndsSize(s.st, fn.fts[f].value.params); }
    var rest := Waiting(fn, s.b.atom, s.st);
    CleanedFrame(env, c, c', fn.locals, rest, s.outer, ret, env.sigs[f].hasReturn);
    ThereAtomic(w, linked, fn, s, rest + ret);
    ThereFacts(w, linked, fn, After(fn, s, rest + ret));
  }

  lemma WaitsStack(c: Cpu, env: Env, locals: seq<Width>, sh: Shape, ret: seq<Width>)
    requires Waits(c, env, locals, sh, ret)
    ensures |c.rs| > 0
  {
  }

  lemma CalleeThere(w: World, linked: set<nat>, fn: Checked, s: Spot)
    requires s.b.Atomic? && s.b.atom.Call? && Sound(w, linked, fn) && There(w, linked, fn, s) && s.b.atom.fn < |fn.fts| && fn.fts[s.b.atom.fn].Some?
    ensures s.b.atom.fn < |fn.pl.env.sigs|
    ensures fn.pl.env.sigs[s.b.atom.fn].hasReturn == (|fn.fts[s.b.atom.fn].value.ret| == 1) && |fn.fts[s.b.atom.fn].value.ret| <= 1
  {
    hide Here, Shaped, LabelShapes, CheckAt, CalleesIn, Supported, WorldOk, Linked, ModuleTyped, Ready;
    CalleesSplitAt(w, linked, s.b);
    CalleeTyped(w, linked, fn, s.b.atom.fn);
  }

  lemma CalleesSplitAt(w: World, linked: set<nat>, b: Body)
    requires b.Atomic? && CalleesIn(w, linked, BodyCalls(b))
    ensures CalleesIn(w, linked, CallsOf(b.atom))
  {
    forall i | 0 <= i < |CallsOf(b.atom)| ensures CallsOf(b.atom)[i] < |w.fs| && (CallsOf(b.atom)[i] in linked || w.fs[CallsOf(b.atom)[i]].Import?) {
      assert BodyCalls(b)[i] == CallsOf(b.atom)[i];
    }
  }

  // ---------- any point ----------

  /** fn is a validated, supported function of the linked program. */
  ghost predicate FnSound(w: World, linked: set<nat>, fn: Checked) {
    && Sound(w, linked, fn) && FnHere(w, linked, fn.pl) && |fn.ret| <= 1
    && Supported(fn.pl.body, [true], [|fn.ret|]) && CalleesIn(w, linked, BodyCalls(fn.pl.body))
    && CheckAt(fn, WholeSpot(fn)) in {Falls(fn.ret), Never}
  }

  lemma ThereWhole(w: World, linked: set<nat>, fn: Checked)
    requires FnSound(w, linked, fn)
    ensures PlaceOk(fn.pl) && BodyOk(fn.pl.env, fn.pl.body, 1) && There(w, linked, fn, WholeSpot(fn))
  {
    hide At, GenFn, Laid, Inside, CallsOk, Helped, Shaped, FnShape, Check, Supported, CalleesIn, BodyOk, PointIn, Prologue, Size, Close, CloseSize, Cells, FnEnd, Sound;
    LaidFn(w.plane, fn.pl.env, fn.pl.cparams, fn.pl.body, fn.pl.a);
    WholeInside(fn.pl);
    WholeShaped(fn);
    assert Arities([fn.ret]) == [|fn.ret|];
  }

  lemma FnFacts(w: World, linked: set<nat>, fn: Checked)
    requires FnSound(w, linked, fn)
    ensures Sound(w, linked, fn) && PlaceOk(fn.pl) && |fn.ret| <= 1 && At(w.plane, fn.pl.a, GenFn(fn.pl.env, fn.pl.cparams, fn.pl.body, fn.pl.a))
    ensures CheckAt(fn, WholeSpot(fn)) in {Falls(fn.ret), Never}
  {
    hide Sound, At, GenFn, Supported, CalleesIn, CheckAt, BodyOk, Helped, CallsOk;
  }

  /** Before the first opcode and at the last `ret` there are no operands. */
  lemma ShapeRange(fn: Checked, q: int)
    requires PlaceOk(fn.pl) && FnShape(fn, q).Some?
    ensures BodyAt(fn.pl) <= q <= CloseAt(fn.pl)
  {
    hide BodyShape, EndShape, BodyAt, BodyOk, Size;
  }

  lemma BodyRange(fn: Checked, q: int)
    requires PlaceOk(fn.pl) && BodyAt(fn.pl) <= q < CloseAt(fn.pl)
    ensures BodyOk(fn.pl.env, fn.pl.body, 1)
    ensures PointIn(fn.pl, q) == BodyPoint(fn.pl.env, fn.pl.body, BodyAt(fn.pl), [true], q)
    ensures FnShape(fn, q) == BodyShape(fn, WholeSpot(fn), q)
  {
    hide BodyShape, EndShape, BodyPoint, Prologue, Size, BodyOk;
    PrologueSize(fn.pl.env, fn.pl.cparams);
  }

  lemma FnMovesTyped(w: World, linked: set<nat>, fn: Checked, c: Cpu, sh: Shape)
    requires FnSound(w, linked, fn) && PlaceOk(fn.pl) && FnShape(fn, c.pc) == Some(sh) && 0 < |sh| < |c.rs| && InFrame(c, fn.locals, sh)
    requires PointIn(fn.pl, c.pc) in {Some(Opcode(|sh|)), Some(Target(|sh|))}
    ensures MovesTyped(w, linked, fn, c, |sh|)
  {
    hide FnSound, Sound, There, InFrame, PlaceOk, BodyOk, MovesTyped, BodyShape, BodyPoint, PointIn, FnShape, Size, BodyAt, CloseAt, CheckAt, At, GenFn, Owns;
    FnFacts(w, linked, fn);
    ThereWhole(w, linked, fn);
    ShapeRange(fn, c.pc);
    if c.pc < CloseAt(fn.pl) {
      BodyRange(fn, c.pc);
      var t := Locate(w, linked, fn, WholeSpot(fn), c.pc);
      SpotTyped(w, linked, fn, t, c, sh);
    } else {
      CloseTyped(w, linked, fn, c, sh);
    }
  }

  /** The function's last `end`. */
  lemma CloseTyped(w: World, linked: set<nat>, fn: Checked, c: Cpu, sh: Shape)
    requires FnSound(w, linked, fn) && PlaceOk(fn.pl) && c.pc == CloseAt(fn.pl) && FnShape(fn, c.pc) == Some(sh) && 0 < |sh| < |c.rs| && InFrame(c, fn.locals, sh)
    ensures MovesTyped(w, linked, fn, c, |sh|)
  {
    hide FnSound, Sound, InFrame, MovesTyped, Prologue, BodyOk, BodyShape, Size, Check, At, GenFn, Goes, Close, CloseSize, Cells, Below, Left, Fits, Laid, FnEnd;
    FnFacts(w, linked, fn);
    var none: Shape := [];
    assert sh == [fn.ret] + none;
    LaidFn(w.plane, fn.pl.env, fn.pl.cparams, fn.pl.body, fn.pl.a);
    AtSplit(w.plane, c.pc, Close(true), Cells(J(Ret)));
    EndGoes(w.plane, true, c);
    var c' := Left(c, true, c.rs[0], c.rs[1..]).(pc := RetAt(fn.pl));
    InFrameFits(c, fn.locals, fn.ret, none);
    assert EndsWith(fn.ret, fn.ret);
    TopFits(c, c.rs[0], fn.ret, fn.ret);
    LeftRax(c, c', true, c.rs[0], c.rs[1..]);
    LeftKeeps(c, c', true, c.rs[0], c.rs[1..]);
    BelowIs(c, c', c.rs[0]);
    assert AtRet(fn, c, c', 1) && StaysTyped(fn, c, c', 1);
    StaysMoves(w, linked, fn, c, c', 1);
  }

  /** At a return address. */
  lemma FnResumes(w: World, linked: set<nat>, fn: Checked, c: Cpu, sh: Shape, k: nat, f: nat) returns (c': Cpu)
    requires FnSound(w, linked, fn) && PlaceOk(fn.pl) && FnShape(fn, c.pc) == Some(sh) && PointIn(fn.pl, c.pc) == Some(ReturnTo(k, f))
    requires f < |fn.fts| && fn.fts[f].Some? && Waits(c, fn.pl.env, fn.locals, sh, fn.fts[f].value.ret)
    ensures Goes(w.plane, c, c') && c'.mem == c.mem && c'.loc == c.loc && c'.rbx == c.rbx - fn.pl.env.clocals && c'.rs == c.rs[1..]
    ensures FnShape(fn, c'.pc).Some? && |FnShape(fn, c'.pc).value| == |sh| && PointIn(fn.pl, c'.pc) == Some(Opcode(|sh|))
    ensures InFrame(c', fn.locals, FnShape(fn, c'.pc).value)
  {
    hide FnSound, Sound, There, InFrame, PlaceOk, BodyOk, BodyShape, BodyPoint, PointIn, FnShape, Size, BodyAt, CloseAt, CheckAt, At, GenFn, Waits, Goes, Owns;
    FnFacts(w, linked, fn);
    ThereWhole(w, linked, fn);
    ShapeRange(fn, c.pc);
    assert c.pc != CloseAt(fn.pl) by { ClosePoint(fn.pl); }
    BodyRange(fn, c.pc);
    var t := Locate(w, linked, fn, WholeSpot(fn), c.pc);
    ReturnSpot(fn, t, c.pc, k, f);
    c' := ResumeTyped(w, linked, fn, t, c, sh);
  }

  lemma ClosePoint(pl: Place)
    requires PlaceOk(pl)
    ensures PointIn(pl, CloseAt(pl)) == Some(Opcode(1))
  {
    hide BodyPoint, Prologue, Size, BodyOk;
    PrologueSize(pl.env, pl.cparams);
  }

  lemma ReturnSpot(fn: Checked, s: Spot, q: int, k: nat, f: nat)
    requires BodyOk(fn.pl.env, s.b, |s.keeps|) && Owns(fn, s, q) && BodyPoint(fn.pl.env, s.b, s.p, s.keeps, q) == Some(ReturnTo(k, f))
    ensures s.b.Atomic? && s.b.atom.Call? && s.b.atom.fn == f < |fn.pl.env.sigs| && q == CallReturn(fn.pl.env, f, s.p)
  {
    hide BodyOk, Size, HeadSize, AtomSize, CallReturn, EndOf, ElseSize, Enter, InnerPoint, LabelOf;
    if Nested(s.b) {
      NestedSize(fn.pl.env, s.b, s.p, s.keeps);
      BodyOkParts(fn.pl.env, s.b, |s.keeps|);
      ArmSizes(fn.pl.env, s.b, s.p, s.keeps);
      NestedPoint(fn.pl.env, s.b, s.p, s.keeps, q);
      NoReturnHere(fn, s, q);
    } else {
      SizeParts(fn.pl.env, s.b, s.keeps);
      CallReturnIn(fn.pl.env, s.b.atom.fn, s.p, s.keeps);
    }
  }

  lemma NoReturnHere(fn: Checked, s: Spot, q: int)
    requires Nested(s.b) && BodyOk(fn.pl.env, s.b, |s.keeps|) && Owns(fn, s, q) && q != s.p && !(s.b.Loop? && q == s.p + 7)
    requires ElseSize() > 7 && |Enter()| > 0
    ensures InnerPoint(fn.pl.env, s.b, s.p, s.keeps, q).Some? ==> !InnerPoint(fn.pl.env, s.b, s.p, s.keeps, q).value.ReturnTo?
  {
    hide BodyOk, Size, HeadSize, ElseSize, Enter, LabelOf, BodyPoint;
  }

  // ---------- the entry ----------

  lemma ZeroedFit(loc: Memory, rbx: int, params: seq<Width>, locals: seq<Width>)
    requires params <= locals && LocalsFit(loc, rbx, params)
    ensures LocalsFit(if |locals| > |params| then ZeroRange(loc, rbx + |params|, |locals| - |params|) else loc, rbx, locals)
    ensures forall a :: a < rbx ==> Rd(if |locals| > |params| then ZeroRange(loc, rbx + |params|, |locals| - |params|) else loc, a) == Rd(loc, a)
  {
    hide Rd;
    var n := |locals| - |params|;
    var loc' := if |locals| > |params| then ZeroRange(loc, rbx + |params|, n) else loc;
    forall i | 0 <= i < |locals| ensures Rd(loc', rbx + i) < Mod(locals[i]) {
      ZeroRangeIs(loc, rbx + |params|, n, rbx + i);
      if i < |params| { assert Rd(loc, rbx + i) < Mod(params[i]); }
    }
    forall a | a < rbx ensures Rd(loc', a) == Rd(loc, a) {
      ZeroRangeIs(loc, rbx + |params|, n, a);
    }
  }

  lemma OpenedFrame(c: Cpu, c': Cpu, locals: seq<Width>)
    requires c'.rdi == c.rdi + 1 && c'.rs == [c.rdi + 1] + c.rs && c'.rbx == c.rbx && c'.mem == c.mem[c.rdi := c'.rax]
    requires LocalsFit(c'.loc, c'.rbx, locals) && forall a :: a < c.rbx ==> Rd(c'.loc, a) == Rd(c.loc, a)
    ensures InFrame(c', locals, [[]]) && Below(c, c', c.rdi)
  {
    hide LocalsFit;
  }

  /** From the entry, with arguments of the parameter types, to the first opcode. */
  lemma EntryTyped(w: World, linked: set<nat>, fn: Checked, c: Cpu, params: seq<Width>) returns (c': Cpu)
    requires FnSound(w, linked, fn) && PlaceOk(fn.pl) && c.pc == fn.pl.a && params <= fn.locals && |params| == fn.pl.cparams && LocalsFit(c.loc, c.rbx, params)
    ensures Goes(w.plane, c, c') && c'.rs == [c.rdi + 1] + c.rs && c'.rbx == c.rbx && Below(c, c', c.rdi)
    ensures FnShape(fn, c'.pc) == Some([[]]) && PointIn(fn.pl, c'.pc) == Some(Opcode(1)) && InFrame(c', fn.locals, [[]])
  {
    hide FnSound, There, InFrame, Prologue, BodyOk, PointIn, FnShape, Size, CheckAt, At, GenFn, Goes, Laid, FnEnd, ZeroRange, LocalsFit, Rd, WorldOk, Linked, ModuleTyped, Cells, Close, CloseSize, Below;
    FnFacts(w, linked, fn);
    ThereWhole(w, linked, fn);
    ThereFacts(w, linked, fn, WholeSpot(fn));
    LaidFn(w.plane, fn.pl.env, fn.pl.cparams, fn.pl.body, fn.pl.a);
    c' := PrologueGoes(w.plane, fn.pl.env, fn.pl.cparams, c);
    ZeroedFit(c.loc, c.rbx, params, fn.locals);
    OpenedFrame(c, c', fn.locals);
    var none: Shape := [];
    assert [[]] + none == [[]];
  }
}
