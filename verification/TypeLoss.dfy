/** Where the emitter's choice of carry flag costs the types: exactly when a frame still has the types that
    validation gives it, and a validated function that comes to see an i64 as an i32. */
module TypeLoss {
  import opened Words
  import opened Wasm
  import opened X86
  import opened OpSim
  import opened Layout
  import opened ControlSim
  import opened CallSim
  import opened Pieces
  import opened Fragment
  import opened Between
  import opened Points
  import opened OpcodeSteps
  import opened BodySteps
  import opened StraightLine
  import opened Typing
  import opened Shapes
  import opened Frames
  import opened Divergence
  import opened WrongResults

  // ---------- exactly when ----------

  lemma OperandsFit(c: Cpu, b: int, vs: seq<Value>, st: seq<Width>)
    requires Operands(c, b, vs) && HasTypes(vs, st)
    ensures Fits(c, b, st)
  {
    forall i | 0 <= i < |st| - 1 ensures Rd(c.mem, b + 1 + i) < Mod(st[i]) {
      assert Rd(c.mem, b + 1 + i) == vs[i].n;
    }
  }

  /** The frame a jump at `else` arrives with fits its types exactly when the if has a result. */
  lemma ElseTypes(plane: seq<Cell>, c: Cpu, bt: BlockType, target: nat, b: int, us: seq<Value>, results: seq<Value>, st: seq<Width>, t: seq<Width>)
      returns (c': Cpu)
    requires Leaving(c, 0, b, us, results) && |results| == Arity(bt) && c.pc >= 0
    requires At(plane, c.pc, ElseCode(c.pc, Some(target))) && HasTypes(us, st) && HasTypes(results, t)
    ensures Reaches(plane, c, c') && c'.pc == target && (Fits(c', b, st + t) <==> Keep(bt))
  {
    hide At, Reaches, ElseCode, Spilled, HasTypes, Operands, InRax;
    c' := ElseExact(plane, c, bt, target, b, us, results);
    TypesLength(us, st);
    TypesLength(results, t);
    if Keep(bt) {
      TypesJoin(us, results, st, t);
      OperandsFit(c', b, us + results, st + t);
    }
  }

  /** The frame a branch arrives with fits exactly when the block's type has a result if and only if the
      label does. */
  lemma BranchTypes(plane: seq<Cell>, c: Cpu, d: nat, bt: BlockType, target: nat, b: int, us: seq<Value>, results: seq<Value>, st: seq<Width>, l: seq<Width>)
      returns (c': Cpu)
    requires Leaving(c, d, b, us, results) && c.pc >= 0
    requires At(plane, c.pc, Asm(LeaveCode(d, Keep(bt))) + JumpCode(c.pc + LeaveSize(d, Keep(bt)), Some(target)))
    requires HasTypes(us, st) && HasTypes(results, l)
    ensures Reaches(plane, c, c') && c'.pc == target && (Fits(c', b, st + l) <==> Arity(bt) == |l|)
  {
    hide At, Reaches, Asm, LeaveCode, JumpCode, Spilled, HasTypes, Operands, InRax;
    c' := BranchExact(plane, c, d, bt, target, b, us, results);
    TypesLength(us, st);
    TypesLength(results, l);
    if Arity(bt) == |l| {
      TypesJoin(us, results, st, l);
      OperandsFit(c', b, us + results, st + l);
    }
  }

  // ---------- an i64 where an i32 is expected ----------

  function EmptyIf(next: Body): Body { IfElse(EMPTY_BLOCK, Done, Done, next) }

  function Widen(): Body { Straight([Drop], Atomic(Plain(ExtendU), Done)) }

  /** (func (param i32 i64) (result i64)
        local.get 0  local.get 1  i32.const 1  if else end  drop  i64.extend_u/i32) */
  function WidenFn(): Func { Defined(2, 1, [], Straight([GetLocal(0), GetLocal(1), Const(I32(1))], EmptyIf(Widen()))) }

  function Mixed(x: U32, y: Word): seq<Value> { [I32(x), Val(W64, y)] }

  lemma GoesReaches(plane: seq<Cell>, c: Cpu, c': Cpu)
    requires Goes(plane, c, c')
    ensures Reaches(plane, c, c')
  {
    hide Goes, Run;
    var m := GoesRun(plane, c, c');
  }

  /** Where the code of an empty if with an else-arm is. */
  lemma EmptyIfPieces(plane: seq<Cell>, env: Env, next: Body, p: int, keeps: seq<bool>, tgts: seq<nat>)
    requires |tgts| == |keeps| && Laid(plane, env, EmptyIf(next), p, keeps, tgts)
    ensures var b, q := EmptyIf(next), p + 13 + |Asm(IfTest())| + |Enter()|;
      && p >= 0 && BodyOk(env, b, |keeps|) && BodyOk(env, next, |keeps|)
      && var e := EndOf(env, b, p, keeps);
        && At(plane, p, Dbg(IF) + Asm(IfTest()) + JzCode(q + ElseSize() - (p + 13 + |Asm(IfTest())|)) + Enter())
        && At(plane, q, ElseCode(q, Some(e))) && Laid(plane, env, next, e, keeps, tgts)
        && e + Size(env, next, keeps) == p + Size(env, b, keeps)
  {
    hide At, Laid, Dbg, Asm, JzCode, Enter, ElseCode, ElseSize, Inner, EndOf, BodyOk, Gen;
    var b := EmptyIf(next);
    LaidOk(plane, env, b, p, keeps, tgts);
    LaidNested(plane, env, b, p, keeps, tgts);
    ArmsOk(env, b, |keeps|);
    LaidElse(plane, env, b, p, keeps, tgts);
    SizeOfDone(env, [Keep(b.bt)] + keeps);
  }

  lemma DoubledTop(c: Cpu, c': Cpu, b: int, us: seq<Value>, v: Value, ls: seq<Value>)
    requires |us| > 0 && Rep(c, b, us + [v], ls)
    requires c' == Left(Entered(Popped(c)), true, c.rdi, c.rs).(pc := c'.pc)
    ensures Rep(c', b, us + [Last(us)], ls) && c'.rs == c.rs
  {
    var vs, ws := us + [v], us + [Last(us)];
    assert Rd(c.mem, b + 1 + (|us| - 1)) == vs[|us| - 1].n;
    forall i | 0 <= i < |ws| - 1 ensures Rd(c'.mem, b + 1 + i) == ws[i].n {
      if i < |us| - 1 { assert Rd(c.mem, b + 1 + i) == vs[i].n; }
    }
  }

  /** With a true condition the if leaves the top of the frame around it twice. */
  lemma RunEmptyIf(plane: seq<Cell>, env: Env, next: Body, keeps: seq<bool>, tgts: seq<nat>, c: Cpu, b: int, us: seq<Value>, v: Value, ls: seq<Value>)
      returns (c': Cpu)
    requires |tgts| == |keeps| && Laid(plane, env, EmptyIf(next), c.pc, keeps, tgts) && |us| > 0 && v.n != 0 && Rep(c, b, us + [v], ls)
    ensures Reaches(plane, c, c') && Laid(plane, env, next, c'.pc, keeps, tgts) && Rep(c', b, us + [Last(us)], ls) && c'.rs == c.rs
    ensures BodyOk(env, EmptyIf(next), |keeps|) && BodyOk(env, next, |keeps|)
    ensures c'.pc + Size(env, next, keeps) == c.pc + Size(env, EmptyIf(next), keeps)
  {
    hide At, Laid, Dbg, Asm, JzCode, Enter, ElseCode, ElseSize, EndOf, BodyOk, Rep, Goes, Reaches, Size;
    EmptyIfPieces(plane, env, next, c.pc, keeps, tgts);
    var q := c.pc + 13 + |Asm(IfTest())| + |Enter()|;
    RaxIsTop(c, b, us + [v], ls);
    var c1 := IfGoes(plane, q + ElseSize(), c);
    ElseGoes(plane, EndOf(env, EmptyIf(next), c.pc, keeps), c1);
    c' := Left(c1, true, c1.rs[0], c1.rs[1..]).(pc := EndOf(env, EmptyIf(next), c.pc, keeps));
    GoesReaches(plane, c, c1);
    GoesReaches(plane, c1, c');
    ReachesTrans(plane, c, c1, c');
    assert c1.rs[1..] == c.rs;
    DoubledTop(c, c', b, us, v, ls);
  }

  lemma WidenOps(x: U32, y: Word)
    ensures RunOps([GetLocal(0), GetLocal(1), Const(I32(1))], [], Mixed(x, y)) == Next(Mixed(x, y) + [I32(1)], Mixed(x, y))
    ensures RunOps([Drop], Mixed(x, y) + [Val(W64, y)], Mixed(x, y)) == Next(Mixed(x, y), Mixed(x, y))
  {
    hide RunOps;
    var none: seq<Value> := [];
    var ls := Mixed(x, y);
    var k: seq<Op> := [Const(I32(1))] + [];
    GetBoth(0, 1, k, none, ls);
    assert [GetLocal(0), GetLocal(1)] + k == [GetLocal(0), GetLocal(1), Const(I32(1))] && none + [ls[0], ls[1]] == ls;
    PushStep(I32(1), [], ls, ls);
    OpsDone(ls + [I32(1)], ls);
    assert [Drop] + [] == [Drop];
    DropStep([], ls, Val(W64, y), ls);
    OpsDone(ls, ls);
  }

  /** The extension is reached with y in rax, where validation expects just an i32: that is one exactly when
      y happens to fit. */
  lemma WidenSees(w: World, f: nat, c: Cpu, x: U32, y: Word) returns (c': Cpu)
    requires Present(w, f) && w.fs[f] == WidenFn() && c.pc == w.plane[8 * f].a && |c.rs| > 0 && Locals(c, Mixed(x, y))
    ensures Reaches(w.plane, c, c') && c'.rax == y && c'.rs == [c.rdi + 1] + c.rs
    ensures BodyOk(FnEnv(w, f), Atomic(Plain(ExtendU), Done), 1) && HasPlace(w, f) && PlaceOk(PlaceOf(w, f))
    ensures c'.pc + Size(FnEnv(w, f), Atomic(Plain(ExtendU), Done), [true]) == CloseAt(PlaceOf(w, f))
    ensures (exists b :: Represents(c', b, [W32], [W32, W64])) <==> y < T32
  {
    hide Laid, Reaches, At, Size, CloseSize, Close, Cells, Prologue, BodyOk, Rep, Below, Mixed, Straight, RunOps, Locals, GenFn, FnEnd, Zeros, Represents;
    var env, body, b, t := FnEnv(w, f), WidenFn().body, c.rdi + 1, Atomic(Plain(ExtendU), Done);
    var pl := PlaceOf(w, f);
    LaidFn(w.plane, env, 2, body, c.pc);
    NoLocals(Mixed(x, y));
    assert |Mixed(x, y)| == 2 by { MixedSize(x, y); }
    var c1 := RunPrologue(w.plane, env, c, Mixed(x, y), []);
    WidenOps(x, y);
    var c2 := RunStraight(w.plane, env, [GetLocal(0), GetLocal(1), Const(I32(1))], EmptyIf(Widen()), [true], [RetAt(pl)], c1, b, [], Mixed(x, y));
    assert Last(Mixed(x, y)) == Val(W64, y) by { MixedSize(x, y); }
    var c3 := RunEmptyIf(w.plane, env, Widen(), [true], [RetAt(pl)], c2, b, Mixed(x, y), I32(1), Mixed(x, y));
    c' := RunStraight(w.plane, env, [Drop], t, [true], [RetAt(pl)], c3, b, Mixed(x, y) + [Val(W64, y)], Mixed(x, y));
    RaxIsTop(c', b, Mixed(x, y), Mixed(x, y));
    ReachesTrans(w.plane, c, c1, c2);
    ReachesTrans(w.plane, c, c2, c3);
    ReachesTrans(w.plane, c, c3, c');
    SeesWide(c', b, x, y);
  }

  lemma MixedSize(x: U32, y: Word)
    ensures |Mixed(x, y)| == 2 && Last(Mixed(x, y)) == Val(W64, y)
  {
  }

  lemma SeesWide(c: Cpu, b: int, x: U32, y: Word)
    requires Rep(c, b, Mixed(x, y), Mixed(x, y))
    ensures (exists b' :: Represents(c, b', [W32], [W32, W64])) <==> y < T32
  {
    hide Represents;
    assert LocalsFit(c.loc, c.rbx, [W32, W64]) by {
      assert Rd(c.loc, c.rbx + 0) == Mixed(x, y)[0].n && Rd(c.loc, c.rbx + 1) == Mixed(x, y)[1].n;
    }
    forall b' ensures Represents(c, b', [W32], [W32, W64]) <==> Fits(c, b', [W32]) {
      RepresentsFits(c, b', [W32], [W32, W64]);
    }
    assert Fits(c, b + 1, [W32]) <==> y < T32;
  }

  // ---------- what validation says there ----------

  lemma {:induction false} ShapedStraight(fn: Checked, s: Spot, ops: seq<Op>, next: Body) returns (t: Spot)
    requires Shaped(fn, s) && s.b == Straight(ops, next) && CheckOps(CtxAt(fn, s), ops, s.st).Falls?
    ensures Shaped(fn, t) && t == s.(b := next, p := t.p, st := CheckOps(CtxAt(fn, s), ops, s.st).st)
    ensures BodyOk(fn.pl.env, s.b, |s.keeps|) && BodyOk(fn.pl.env, next, |s.keeps|)
    ensures t.p + Size(fn.pl.env, next, s.keeps) == s.p + Size(fn.pl.env, s.b, s.keeps)
    decreases |ops|
  {
    hide Shaped, CheckOp, BodyOk, Size, AtomSize;
    ShapedOk(fn, s);
    t := s;
    if |ops| > 0 {
      SizeParts(fn.pl.env, s.b, s.keeps);
      var st := CheckOp(CtxAt(fn, s), ops[0], s.st).st;
      ShapedAtomic(fn, s, st);
      t := ShapedStraight(fn, After(fn, s, st), ops[1..], next);
    }
  }

  lemma WidenChecks(ctx: Ctx)
    requires ctx.locals == [W32, W64]
    ensures CheckOps(ctx, [GetLocal(0), GetLocal(1), Const(I32(1))], []) == Falls([W32, W64, W32])
    ensures CheckOps(ctx, [Drop], [W32, W64]) == Falls([W32])
  {
    hide CheckOps;
    var none: seq<Width> := [];
    var k: seq<Op> := [Const(I32(1))];
    assert none + [W32] == [W32] && [W32] + [W64] == [W32, W64] && [W32, W64] + [W32] == [W32, W64, W32];
    OpsCheck(ctx, GetLocal(0), [GetLocal(1)] + k, none, [W32]);
    OpsCheck(ctx, GetLocal(1), k, [W32], [W32, W64]);
    OpsCheck(ctx, Const(I32(1)), [], [W32, W64], [W32, W64, W32]);
    assert [GetLocal(0)] + ([GetLocal(1)] + k) == [GetLocal(0), GetLocal(1), Const(I32(1))] && k + [] == k && [Drop] + [] == [Drop];
    NoneCheck(ctx, [W32, W64, W32]);
    assert Pop([W32, W64], 1) == [W32];
    OpsCheck(ctx, Drop, [], [W32, W64], [W32]);
    NoneCheck(ctx, [W32]);
  }

  lemma EmptyIfChecks(ctx: Ctx, next: Body)
    ensures CheckFirst(ctx, EmptyIf(next), [W32, W64, W32]) == Falls([W32, W64])
  {
    hide Check;
    var none: seq<Width> := [];
    NoneCheck(ctx.(labels := [none] + ctx.labels), none);
    assert Top([W32, W64, W32], 1) == [W32] && Pop([W32, W64, W32], 1) == [W32, W64] && [W32, W64] + none == [W32, W64];
  }

  /** At the extension validation has one operand, an i32. */
  lemma WidenExpects(fn: Checked, q: int)
    requires PlaceOk(fn.pl) && fn.pl.body == WidenFn().body && fn.locals == [W32, W64]
    requires BodyOk(fn.pl.env, Atomic(Plain(ExtendU), Done), 1)
    requires q + Size(fn.pl.env, Atomic(Plain(ExtendU), Done), [true]) == CloseAt(fn.pl)
    ensures FnShape(fn, q) == Some([[W32]])
  {
    hide Shaped, CheckOps, CheckFirst, BodyOk, PlaceOk, Size, Straight, BodyAt, EndOf, FnShape;
    var s, next := WholeSpot(fn), Atomic(Plain(ExtendU), Done);
    WidenChecks(CtxAt(fn, s));
    EmptyIfChecks(CtxAt(fn, s), Widen());
    WholeShaped(fn);
    ShapedOk(fn, s);
    var t := ShapedStraight(fn, s, [GetLocal(0), GetLocal(1), Const(I32(1))], EmptyIf(Widen()));
    NestedSize(fn.pl.env, t.b, t.p, t.keeps);
    ShapedNested(fn, t, [W32, W64]);
    var u := ShapedStraight(fn, After(fn, t, [W32, W64]), [Drop], next);
    StartShape(fn, u);
    var none: Shape := [];
    assert u.p == q && [[W32]] + none == [[W32]];
  }

  lemma WidenLast(ctx: Ctx)
    ensures Check(ctx, Atomic(Plain(ExtendU), Done), [W32]) == Falls([W64])
  {
    hide Check;
    var none: seq<Width> := [];
    CheckIs(ctx, Atomic(Plain(ExtendU), Done), [W32]);
    assert Top([W32], 1) == [W32] && Pop([W32], 1) == none && none + [W64] == [W64];
    NoneCheck(ctx, [W64]);
  }

  /** The function is valid. */
  lemma WidenTyped(fts: seq<Option<FType>>)
    ensures FnTyped(fts, FType([W32, W64], [W64]), WidenFn())
  {
    hide Check, CheckOps, CheckFirst, Straight;
    var ctx := Ctx(fts, [W32, W64], [[W64]]);
    assert [W32, W64] + ZeroTypes([]) == [W32, W64];
    WidenChecks(ctx);
    EmptyIfChecks(ctx, Widen());
    StraightCheck(ctx, [GetLocal(0), GetLocal(1), Const(I32(1))], EmptyIf(Widen()), []);
    CheckIs(ctx, EmptyIf(Widen()), [W32, W64, W32]);
    StraightCheck(ctx, [Drop], Atomic(Plain(ExtendU), Done), [W32, W64]);
    WidenLast(ctx);
  }
}
