/** Validation (WebAssembly Core 1.0, section 3.3) of the modelled instructions, and its soundness:
    the interpreter never gets stuck on a well-typed function.  Code that control cannot reach by
    falling through is not checked, so everything the standard validates is accepted. */
module Typing {
  import opened Words
  import opened Wasm

  datatype FType = FType(params: seq<Width>, ret: seq<Width>)

  /** Types of the functions that may be called, of the locals, and of every label's operands. */
  datatype Ctx = Ctx(fts: seq<Option<FType>>, locals: seq<Width>, labels: seq<seq<Width>>)

  /** How checked code ends: with these operands, only by a transfer of control, or badly. */
  datatype End = Falls(st: seq<Width>) | Never | Ill

  predicate EndsWith(st: seq<Width>, ts: seq<Width>) {
    |ts| <= |st| && Top(st, |ts|) == ts
  }

  function Replaced(st: seq<Width>, from: seq<Width>, to: seq<Width>): End {
    if EndsWith(st, from) then Falls(Pop(st, |from|) + to) else Ill
  }

  function CheckOp(ctx: Ctx, op: Op, st: seq<Width>): End {
    match op
    case Nop => Falls(st)
    case Unreachable => Never
    case Drop => if |st| > 0 then Falls(Pop(st, 1)) else Ill
    case Select => if |st| >= 3 then Replaced(st, [st[|st| - 3], st[|st| - 3], W32], [st[|st| - 3]]) else Ill
    case Const(v) => Falls(st + [v.w])
    case GetLocal(i) => if i < |ctx.locals| then Falls(st + [ctx.locals[i]]) else Ill
    case SetLocal(i) => if i < |ctx.locals| then Replaced(st, [ctx.locals[i]], []) else Ill
    case TeeLocal(i) => if i < |ctx.locals| then Replaced(st, [ctx.locals[i]], [ctx.locals[i]]) else Ill
    case Eqz(w) => Replaced(st, [w], [W32])
    case Rel(w, _) => Replaced(st, [w, w], [W32])
    case Un(w, _) => Replaced(st, [w], [w])
    case Bin(w, _) => Replaced(st, [w, w], [w])
    case WrapI64 => Replaced(st, [W64], [W32])
    case ExtendS => Replaced(st, [W32], [W64])
    case ExtendU => Replaced(st, [W32], [W64])
  }

  predicate BranchOk(ctx: Ctx, d: nat, st: seq<Width>) {
    d < |ctx.labels| && EndsWith(st, ctx.labels[d])
  }

  function CheckAtom(ctx: Ctx, a: Atom, st: seq<Width>): End {
    match a
    case Plain(op) => CheckOp(ctx, op, st)
    case Br(d) => if BranchOk(ctx, d, st) then Never else Ill
    case BrIf(d) => if EndsWith(st, [W32]) && BranchOk(ctx, d, Pop(st, 1)) then Falls(Pop(st, 1)) else Ill
    case BrTable(ts, d) =>
      if EndsWith(st, [W32]) && BranchOk(ctx, d, Pop(st, 1)) && (forall i :: 0 <= i < |ts| ==> BranchOk(ctx, ts[i], Pop(st, 1)))
      then Never else Ill
    case Return => if |ctx.labels| > 0 && EndsWith(st, Last(ctx.labels)) then Never else Ill
    case Call(f) =>
      if f < |ctx.fts| && ctx.fts[f].Some? then Replaced(st, ctx.fts[f].value.params, ctx.fts[f].value.ret) else Ill
  }

  function BlockTypes(bt: BlockType): (r: Option<seq<Width>>)
    ensures r.Some? ==> |r.value| == Arity(bt)
  {
    if bt == EMPTY_BLOCK then Some([])
    else if bt == 0x7f then Some([W32])
    else if bt == 0x7e then Some([W64])
    else None
  }

  /** An arm under a label of type l has to leave exactly t. */
  predicate ArmOk(ctx: Ctx, arm: Body, l: seq<Width>, t: seq<Width>)
    decreases arm, 2
  {
    var e := Check(ctx.(labels := [l] + ctx.labels), arm, []);
    e == Falls(t) || e == Never
  }

  function CheckFirst(ctx: Ctx, b: Body, st: seq<Width>): End
    requires !b.Done?
    decreases b, 0
  {
    if b.Atomic? then CheckAtom(ctx, b.atom, st)
    else
      match BlockTypes(b.bt)
      case None => Ill
      case Some(t) =>
        match b
        case Block(_, body, _) => if ArmOk(ctx, body, t, t) then Falls(st + t) else Ill
        case Loop(_, body, _) => if ArmOk(ctx, body, [], t) then Falls(st + t) else Ill
        case If(_, thn, _) =>
          if t == [] && EndsWith(st, [W32]) && ArmOk(ctx, thn, [], []) then Falls(Pop(st, 1)) else Ill
        case IfElse(_, thn, els, _) =>
          if EndsWith(st, [W32]) && ArmOk(ctx, thn, t, t) && ArmOk(ctx, els, t, t) then Falls(Pop(st, 1) + t) else Ill
  }

  function Check(ctx: Ctx, b: Body, st: seq<Width>): End
    decreases b, 1
  {
    if b.Done? then Falls(st)
    else
      match CheckFirst(ctx, b, st)
      case Falls(st') => Check(ctx, b.next, st')
      case e => e
  }

  function ZeroType(ty: U8): Width { Zero(ty).w }

  function ZeroTypes(tys: seq<U8>): (r: seq<Width>)
    ensures |r| == |tys|
  {
    seq(|tys|, i requires 0 <= i < |tys| => ZeroType(tys[i]))
  }

  predicate FnTyped(fts: seq<Option<FType>>, ft: FType, fn: Func) {
    && fn.Defined? && |ft.params| == fn.cparams && |ft.ret| == fn.arity
    && var e := Check(Ctx(fts, ft.params + ZeroTypes(fn.locals), [ft.ret]), fn.body, []);
       e == Falls(ft.ret) || e == Never
  }

  /** Every function with a type meets it.  Imports have none: calling them is not modelled. */
  predicate ModuleTyped(fts: seq<Option<FType>>, fs: seq<Func>) {
    |fts| == |fs| && forall f :: 0 <= f < |fs| && fts[f].Some? ==> FnTyped(fts, fts[f].value, fs[f])
  }

  // ---------- soundness ----------

  predicate HasTypes(vs: seq<Value>, ts: seq<Width>) {
    |vs| == |ts| && forall i :: 0 <= i < |vs| ==> vs[i].w == ts[i]
  }

  function Arities(labels: seq<seq<Width>>): (r: seq<nat>)
    ensures |r| == |labels|
  {
    seq(|labels|, i requires 0 <= i < |labels| => |labels[i]|)
  }

  predicate OutcomeTyped(o: Outcome, e: End, ctx: Ctx) {
    match o
    case Next(vs, ls) => e.Falls? && HasTypes(vs, e.st) && HasTypes(ls, ctx.locals)
    case Branch(d, rs, ls) => d < |ctx.labels| && HasTypes(rs, ctx.labels[d]) && HasTypes(ls, ctx.locals)
    case Returned(rs) => |ctx.labels| > 0 && HasTypes(rs, Last(ctx.labels))
    case Trapped => true
    case NoFuel => true
    case Stuck => false
  }

  lemma TypesTop(vs: seq<Value>, st: seq<Width>, ts: seq<Width>)
    requires HasTypes(vs, st) && EndsWith(st, ts)
    ensures |ts| <= |vs| && HasTypes(Top(vs, |ts|), ts) && HasTypes(Pop(vs, |ts|), Pop(st, |ts|))
    ensures forall i :: 0 <= i < |ts| ==> vs[|vs| - |ts| + i].w == ts[i]
  {
    forall i | 0 <= i < |ts| ensures Top(vs, |ts|)[i].w == ts[i] {
      assert Top(st, |ts|)[i] == ts[i];
    }
  }

  lemma TypesJoin(vs: seq<Value>, us: seq<Value>, st: seq<Width>, ts: seq<Width>)
    requires HasTypes(vs, st) && HasTypes(us, ts)
    ensures HasTypes(vs + us, st + ts)
  {
  }

  lemma SoundOp(ctx: Ctx, op: Op, st: seq<Width>, vs: seq<Value>, ls: seq<Value>)
    requires HasTypes(vs, st) && HasTypes(ls, ctx.locals) && CheckOp(ctx, op, st) != Ill
    ensures OutcomeTyped(EvalOp(op, vs, ls), CheckOp(ctx, op, st), ctx)
  {
    hide HasTypes, EvalOp, CheckOp, OutcomeTyped;
    match op
    case Select => SoundSelect(ctx, st, vs, ls);
    case Eqz(w) => SoundOne(ctx, op, st, vs, ls, w);
    case Un(w, _) => SoundOne(ctx, op, st, vs, ls, w);
    case WrapI64 => SoundOne(ctx, op, st, vs, ls, W64);
    case ExtendS => SoundOne(ctx, op, st, vs, ls, W32);
    case ExtendU => SoundOne(ctx, op, st, vs, ls, W32);
    case Rel(w, _) => SoundTwo(ctx, op, st, vs, ls, w);
    case Bin(w, _) => SoundTwo(ctx, op, st, vs, ls, w);
    case _ => SoundSimple(ctx, op, st, vs, ls);
  }

  lemma SoundSimple(ctx: Ctx, op: Op, st: seq<Width>, vs: seq<Value>, ls: seq<Value>)
    requires HasTypes(vs, st) && HasTypes(ls, ctx.locals) && CheckOp(ctx, op, st) != Ill
    requires op.Nop? || op.Unreachable? || op.Drop? || op.Const? || op.GetLocal? || op.SetLocal? || op.TeeLocal?
    ensures OutcomeTyped(EvalOp(op, vs, ls), CheckOp(ctx, op, st), ctx)
  {
    match op
    case SetLocal(i) => TypesTop(vs, st, [ctx.locals[i]]);
    case TeeLocal(i) => TypesTop(vs, st, [ctx.locals[i]]);
    case _ =>
  }

  lemma SoundSelect(ctx: Ctx, st: seq<Width>, vs: seq<Value>, ls: seq<Value>)
    requires HasTypes(vs, st) && HasTypes(ls, ctx.locals) && CheckOp(ctx, Select, st) != Ill
    ensures OutcomeTyped(EvalOp(Select, vs, ls), CheckOp(ctx, Select, st), ctx)
  {
    var t, h := st[|st| - 3], |vs|;
    TypesTop(vs, st, [t, t, W32]);
    assert vs[h - 3 + 1].w == t && vs[h - 3 + 2].w == W32;
    var v := if vs[h - 1].n != 0 then vs[h - 3] else vs[h - 2];
    TypesJoin(Pop(vs, 3), [v], Pop(st, 3), [t]);
  }

  /** Operations on one operand of type w. */
  lemma SoundOne(ctx: Ctx, op: Op, st: seq<Width>, vs: seq<Value>, ls: seq<Value>, w: Width)
    requires HasTypes(vs, st) && HasTypes(ls, ctx.locals) && CheckOp(ctx, op, st) != Ill
    requires op == Eqz(w) || (op.Un? && op.w == w) || (op.WrapI64? && w == W64) || ((op.ExtendS? || op.ExtendU?) && w == W32)
    ensures OutcomeTyped(EvalOp(op, vs, ls), CheckOp(ctx, op, st), ctx)
  {
    hide Unop, Bool, Signed;
    TypesTop(vs, st, [w]);
    var o := EvalOp(op, vs, ls);
    var t := if op.Eqz? || op.WrapI64? then W32 else if op.Un? then w else W64;
    assert o.Next? && o.vs == Pop(vs, 1) + [Last(o.vs)] && Last(o.vs).w == t by { BoolType(); }
    TypesJoin(Pop(vs, 1), [Last(o.vs)], Pop(st, 1), [t]);
  }

  lemma BoolType()
    ensures Bool(true).w == W32 && Bool(false).w == W32
  {
  }

  lemma SoundTwo(ctx: Ctx, op: Op, st: seq<Width>, vs: seq<Value>, ls: seq<Value>, w: Width)
    requires HasTypes(vs, st) && HasTypes(ls, ctx.locals) && CheckOp(ctx, op, st) != Ill
    requires (op.Rel? || op.Bin?) && op.w == w
    ensures OutcomeTyped(EvalOp(op, vs, ls), CheckOp(ctx, op, st), ctx)
  {
    hide Binop, Bool, Relop;
    TypesTop(vs, st, [w, w]);
    var h := |vs|;
    assert vs[h - 2 + 0].w == w && vs[h - 2 + 1].w == w;
    var o := EvalOp(op, vs, ls);
    if o.Next? {
      var t := if op.Rel? then W32 else w;
      assert o.vs == Pop(vs, 2) + [Last(o.vs)] && Last(o.vs).w == t by { BoolType(); }
      TypesJoin(Pop(vs, 2), [Last(o.vs)], Pop(st, 2), [t]);
    }
  }

  lemma SoundBranch(ctx: Ctx, d: nat, st: seq<Width>, vs: seq<Value>, ls: seq<Value>)
    requires HasTypes(vs, st) && HasTypes(ls, ctx.locals) && BranchOk(ctx, d, st)
    ensures OutcomeTyped(BranchTo(d, Arities(ctx.labels), vs, ls), Never, ctx)
    ensures BranchTo(d, Arities(ctx.labels), vs, ls).Branch?
  {
    hide HasTypes;
    TypesTop(vs, st, ctx.labels[d]);
  }

  lemma SoundAtom(fts: seq<Option<FType>>, fs: seq<Func>, ctx: Ctx, a: Atom, st: seq<Width>, vs: seq<Value>, ls: seq<Value>, fuel: nat)
    requires ModuleTyped(fts, fs) && ctx.fts == fts && |ctx.labels| > 0
    requires HasTypes(vs, st) && HasTypes(ls, ctx.locals) && CheckAtom(ctx, a, st) != Ill
    ensures OutcomeTyped(EvalAtom(fs, a, Arities(ctx.labels), vs, ls, fuel), CheckAtom(ctx, a, st), ctx)
    decreases fuel, 0, 1
  {
    hide HasTypes, EvalOp, CheckOp, ModuleTyped, BranchTo, Invoke, EndsWith, Arities;
    match a
    case Plain(op) => SoundOp(ctx, op, st, vs, ls);
    case Br(d) => SoundBranch(ctx, d, st, vs, ls);
    case BrIf(d) => SoundConditional(fs, ctx, a, st, vs, ls, fuel);
    case BrTable(ts, d) => SoundConditional(fs, ctx, a, st, vs, ls, fuel);
    case Return => SoundReturn(fs, ctx, st, vs, ls, fuel);
    case Call(f) => SoundCall(fts, fs, ctx, f, st, vs, ls, fuel);
  }

  lemma SoundReturn(fs: seq<Func>, ctx: Ctx, st: seq<Width>, vs: seq<Value>, ls: seq<Value>, fuel: nat)
    requires |ctx.labels| > 0 && HasTypes(vs, st) && CheckAtom(ctx, Return, st) != Ill
    ensures OutcomeTyped(EvalAtom(fs, Return, Arities(ctx.labels), vs, ls, fuel), CheckAtom(ctx, Return, st), ctx)
  {
    hide HasTypes;
    TypesTop(vs, st, Last(ctx.labels));
  }

  lemma SoundConditional(fs: seq<Func>, ctx: Ctx, a: Atom, st: seq<Width>, vs: seq<Value>, ls: seq<Value>, fuel: nat)
    requires (a.BrIf? || a.BrTable?) && |ctx.labels| > 0
    requires HasTypes(vs, st) && HasTypes(ls, ctx.locals) && CheckAtom(ctx, a, st) != Ill
    ensures OutcomeTyped(EvalAtom(fs, a, Arities(ctx.labels), vs, ls, fuel), CheckAtom(ctx, a, st), ctx)
  {
    hide HasTypes, BranchTo, Arities;
    TypesTop(vs, st, [W32]);
    assert vs[|vs| - 1 + 0].w == W32;
    var n := vs[|vs| - 1].n;
    if a.BrIf? {
      SoundBranch(ctx, a.depth, Pop(st, 1), Pop(vs, 1), ls);
    } else {
      SoundBranch(ctx, if n < |a.targets| then a.targets[n] else a.default, Pop(st, 1), Pop(vs, 1), ls);
    }
  }

  lemma SoundCall(fts: seq<Option<FType>>, fs: seq<Func>, ctx: Ctx, f: U32, st: seq<Width>, vs: seq<Value>, ls: seq<Value>, fuel: nat)
    requires ModuleTyped(fts, fs) && ctx.fts == fts && |ctx.labels| > 0
    requires HasTypes(vs, st) && HasTypes(ls, ctx.locals) && CheckAtom(ctx, Call(f), st) != Ill
    ensures OutcomeTyped(EvalAtom(fs, Call(f), Arities(ctx.labels), vs, ls, fuel), CheckAtom(ctx, Call(f), st), ctx)
    decreases fuel, 0, 0
  {
    hide HasTypes, Invoke, Check;
    var ft := fts[f].value;
    TypesTop(vs, st, ft.params);
    assert FnTyped(fts, ft, fs[f]);
    if fuel > 0 {
      var args := Top(vs, |ft.params|);
      SoundInvoke(fts, fs, f, args, fuel - 1);
      var o := Invoke(fs, f, args, fuel - 1);
      if o.Returned? { TypesJoin(Pop(vs, |ft.params|), o.results, Pop(st, |ft.params|), ft.ret); }
    }
  }

  lemma ZerosTyped(tys: seq<U8>)
    ensures HasTypes(Zeros(tys), ZeroTypes(tys))
  {
  }

  /** A well-typed function applied to arguments of its parameter types returns values of its result
      types, traps, or needs more fuel; it never gets stuck. */
  lemma SoundInvoke(fts: seq<Option<FType>>, fs: seq<Func>, f: nat, args: seq<Value>, fuel: nat)
    requires ModuleTyped(fts, fs) && f < |fs| && fts[f].Some? && HasTypes(args, fts[f].value.params)
    ensures fs[f].Defined?
    ensures var o := Invoke(fs, f, args, fuel);
      (o.Returned? && HasTypes(o.results, fts[f].value.ret)) || o.Trapped? || o.NoFuel?
    decreases fuel, 2
  {
    hide HasTypes, Check, Eval;
    var ft, fn := fts[f].value, fs[f];
    assert FnTyped(fts, ft, fn);
    var ctx := Ctx(fts, ft.params + ZeroTypes(fn.locals), [ft.ret]);
    ZerosTyped(fn.locals);
    TypesJoin(args, Zeros(fn.locals), ft.params, ZeroTypes(fn.locals));
    assert Arities(ctx.labels) == [fn.arity];
    NoTypes();
    SoundBody(fts, fs, ctx, fn.body, [], [], args + Zeros(fn.locals), fuel);
    var o := Eval(fs, fn.body, [fn.arity], [], args + Zeros(fn.locals), fuel);
    if o.Next? { TypesLength(o.vs, ft.ret); }
  }

  lemma NoTypes()
    ensures HasTypes([], [])
  {
  }

  lemma TypesLength(vs: seq<Value>, ts: seq<Width>)
    requires HasTypes(vs, ts)
    ensures |vs| == |ts|
  {
  }

  lemma CheckIs(ctx: Ctx, b: Body, st: seq<Width>)
    requires !b.Done?
    ensures var e := CheckFirst(ctx, b, st);
      Check(ctx, b, st) == if e.Falls? then Check(ctx, b.next, e.st) else e
  {
    hide CheckFirst;
  }

  lemma {:induction false} SoundBody(fts: seq<Option<FType>>, fs: seq<Func>, ctx: Ctx, b: Body, st: seq<Width>,
                                     vs: seq<Value>, ls: seq<Value>, fuel: nat)
    requires ModuleTyped(fts, fs) && ctx.fts == fts && |ctx.labels| > 0
    requires HasTypes(vs, st) && HasTypes(ls, ctx.locals) && Check(ctx, b, st) != Ill
    ensures OutcomeTyped(Eval(fs, b, Arities(ctx.labels), vs, ls, fuel), Check(ctx, b, st), ctx)
    decreases fuel, 1, b, 3
  {
    hide HasTypes, CheckFirst, EvalFirst, ModuleTyped;
    if !b.Done? {
      CheckIs(ctx, b, st);
      SoundFirst(fts, fs, ctx, b, st, vs, ls, fuel);
      var o, e := EvalFirst(fs, b, Arities(ctx.labels), vs, ls, fuel), CheckFirst(ctx, b, st);
      if o.Next? { SoundBody(fts, fs, ctx, b.next, e.st, o.vs, o.ls, fuel); }
    }
  }

  /** An arm, seen from around its block. */
  lemma SoundArm(fts: seq<Option<FType>>, fs: seq<Func>, ctx: Ctx, arm: Body, l: seq<Width>, t: seq<Width>, st: seq<Width>,
                 vs: seq<Value>, ls: seq<Value>, fuel: nat)
    requires ModuleTyped(fts, fs) && ctx.fts == fts && |ctx.labels| > 0
    requires HasTypes(vs, st) && HasTypes(ls, ctx.locals) && ArmOk(ctx, arm, l, t)
    ensures var o := Eval(fs, arm, [|l|] + Arities(ctx.labels), [], ls, fuel);
      && (l == t ==> OutcomeTyped(Exit(o, |t|, vs), Falls(st + t), ctx))
      && (!(o.Branch? && o.depth == 0) ==> OutcomeTyped(Exit(o, |t|, vs), Falls(st + t), ctx))
      && (o.Branch? && o.depth == 0 ==> HasTypes(o.results, l) && HasTypes(o.ls, ctx.locals))
    decreases fuel, 1, arm, 4
  {
    hide HasTypes, Check, Eval, ModuleTyped;
    var inner := ctx.(labels := [l] + ctx.labels);
    assert Arities(inner.labels) == [|l|] + Arities(ctx.labels);
    assert Last(inner.labels) == Last(ctx.labels);
    NoTypes();
    SoundBody(fts, fs, inner, arm, [], [], ls, fuel);
    var o := Eval(fs, arm, [|l|] + Arities(ctx.labels), [], ls, fuel);
    if o.Next? {
      TypesLength(o.vs, t);
      TypesJoin(vs, o.vs, st, t);
    }
    if o.Branch? && o.depth == 0 && l == t { TypesJoin(vs, o.results, st, t); }
  }

  lemma SoundFirst(fts: seq<Option<FType>>, fs: seq<Func>, ctx: Ctx, b: Body, st: seq<Width>,
                   vs: seq<Value>, ls: seq<Value>, fuel: nat)
    requires !b.Done? && ModuleTyped(fts, fs) && ctx.fts == fts && |ctx.labels| > 0
    requires HasTypes(vs, st) && HasTypes(ls, ctx.locals) && CheckFirst(ctx, b, st) != Ill
    ensures OutcomeTyped(EvalFirst(fs, b, Arities(ctx.labels), vs, ls, fuel), CheckFirst(ctx, b, st), ctx)
    decreases fuel, 1, b, 2
  {
    hide HasTypes, ModuleTyped, ArmOk, CheckAtom, EvalAtom, Eval, EvalLoop, OutcomeTyped, Exit;
    match b
    case Atomic(a, _) => SoundAtom(fts, fs, ctx, a, st, vs, ls, fuel);
    case Block(bt, body, _) =>
      var t := BlockTypes(bt).value;
      SoundArm(fts, fs, ctx, body, t, t, st, vs, ls, fuel);
    case Loop(bt, _, _) => SoundLoop(fts, fs, ctx, b, st, vs, ls, fuel);
    case If(bt, thn, _) => SoundIf(fts, fs, ctx, b, st, vs, ls, fuel);
    case IfElse(bt, thn, els, _) =>
      var t := BlockTypes(bt).value;
      TypesTop(vs, st, [W32]);
      assert vs[|vs| - 1 + 0].w == W32;
      SoundArm(fts, fs, ctx, if Last(vs).n != 0 then thn else els, t, t, Pop(st, 1), Pop(vs, 1), ls, fuel);
  }

  lemma SoundIf(fts: seq<Option<FType>>, fs: seq<Func>, ctx: Ctx, b: Body, st: seq<Width>,
                vs: seq<Value>, ls: seq<Value>, fuel: nat)
    requires b.If? && ModuleTyped(fts, fs) && ctx.fts == fts && |ctx.labels| > 0
    requires HasTypes(vs, st) && HasTypes(ls, ctx.locals) && CheckFirst(ctx, b, st) != Ill
    ensures OutcomeTyped(EvalFirst(fs, b, Arities(ctx.labels), vs, ls, fuel), CheckFirst(ctx, b, st), ctx)
    decreases fuel, 1, b, 1
  {
    hide HasTypes, ModuleTyped, ArmOk, Eval, Exit;
    TypesTop(vs, st, [W32]);
    assert vs[|vs| - 1 + 0].w == W32;
    if Last(vs).n != 0 {
      SoundArm(fts, fs, ctx, b.body, [], [], Pop(st, 1), Pop(vs, 1), ls, fuel);
      assert Pop(st, 1) + [] == Pop(st, 1);
    }
  }

  lemma SoundLoop(fts: seq<Option<FType>>, fs: seq<Func>, ctx: Ctx, b: Body, st: seq<Width>,
                  vs: seq<Value>, ls: seq<Value>, fuel: nat)
    requires b.Loop? && ModuleTyped(fts, fs) && ctx.fts == fts && |ctx.labels| > 0
    requires HasTypes(vs, st) && HasTypes(ls, ctx.locals) && CheckFirst(ctx, b, st) != Ill
    ensures OutcomeTyped(EvalLoop(fs, b, Arities(ctx.labels), vs, ls, fuel), CheckFirst(ctx, b, st), ctx)
    decreases fuel, 1, b, 1
  {
    hide HasTypes, ModuleTyped, ArmOk, Eval, Exit;
    var t := BlockTypes(b.bt).value;
    SoundArm(fts, fs, ctx, b.body, [], t, st, vs, ls, fuel);
    var o := Eval(fs, b.body, [0] + Arities(ctx.labels), [], ls, fuel);
    if o.Branch? && o.depth == 0 && fuel > 0 {
      SoundLoop(fts, fs, ctx, b, st, vs, o.ls, fuel - 1);
    }
  }
}
