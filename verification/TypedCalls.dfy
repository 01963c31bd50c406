/** Calls and returns in typed states, and from any point of a validated function. */
module TypedCalls {
  import opened Words
  import opened Wasm
  import opened X86
  import opened OpSim
  import opened Layout
  import opened ControlSim
  import opened CallSim
  import opened Fragment
  import opened Meaning
  import opened Between
  import opened Points
  import opened OpcodeSteps
  import opened BodySteps
  import opened Typing
  import opened Shapes
  import opened Spots
  import opened Frames
  import opened TypedSteps

  /** The program is linked and validated, and fn is one of its functions. */
  ghost predicate Sound(w: World, linked: set<nat>, fn: Checked) {
    && WorldOk(w) && Linked(w, linked) && ModuleTyped(fn.fts, w.fs)
    && fn.pl.env.imports == w.imports && fn.pl.env.sigs == w.sigs && |fn.locals| == fn.pl.env.clocals
  }

  // ---------- calls ----------

  lemma CalleeTyped(w: World, linked: set<nat>, fn: Checked, f: U32)
    requires Sound(w, linked, fn) && CalleesIn(w, linked, CallsOf(Call(f))) && f < |fn.fts| && fn.fts[f].Some?
    ensures f in linked && f < |w.fs| && Ready(w, f) && w.fs[f].Defined? && f >= w.imports && f < |w.sigs|
    ensures var ft := fn.fts[f].value;
      w.sigs[f] == Sig(|ft.params|, |ft.ret| == 1) && |ft.ret| <= 1
  {
    hide Ready, CalleesIn, Linked, Check;
    CalleeOf(w, linked, f);
    assert FnTyped(fn.fts, fn.fts[f].value, w.fs[f]);
  }

  /** Just past a call's instruction its frame is waiting, without the arguments. */
  lemma CallShape(w: World, linked: set<nat>, fn: Checked, s: Spot)
    requires s.b.Atomic? && s.b.atom.Call? && There(w, linked, fn, s) && PlaceOk(fn.pl) && BodyOk(fn.pl.env, s.b, |s.keeps|)
    requires s.b.atom.fn < |fn.pl.env.sigs|
    ensures FnShape(fn, CallReturn(fn.pl.env, s.b.atom.fn, s.p)) == Some([Waiting(fn, s.b.atom, s.st)] + s.outer)
  {
    hide Here, Supported, CheckAt, CalleesIn, LabelShapes, FnShape, BodyShape, PlaceOk, Size, BodyOk, AtomSize, CallReturn, Waiting;
    SizeParts(fn.pl.env, s.b, s.keeps);
    CallReturnIn(fn.pl.env, s.b.atom.fn, s.p, s.keeps);
    AtomicShape(fn, s, CallReturn(fn.pl.env, s.b.atom.fn, s.p));
  }

  lemma CallFrame(env: Env, c: Cpu, c1: Cpu, c2: Cpu, c': Cpu, b: int, vs: seq<Value>, ls: seq<Value>, n: nat, st: seq<Width>, params: seq<Width>,
                  locals: seq<Width>, outer: Shape)
    requires InFrame(c, locals, [st] + outer) && c1 == c.(pc := c1.pc) && b == c.rs[0] && |params| == n <= |vs| && EndsWith(st, params)
    requires AtCall(env, c1, c2, b, vs, ls, n) && HasTypes(vs, st) && |locals| == env.clocals
    requires |c'.rs| > 0 && c' == c2.(pc := c'.pc, rs := [c'.rs[0]] + c2.rs)
    ensures |c'.rs| == |c.rs| + 2 && c'.rs[2..] == c.rs && c'.rs[1] == c'.rdi && c'.rbx == c.rbx + env.clocals
    ensures Resting(c'.mem, c'.rs[1..], [Pop(st, n)] + outer)
    ensures LocalsFit(c'.loc, c'.rbx, params) && LocalsFit(c'.loc, c.rbx, locals)
    ensures Below(c, c'.(rbx := c.rbx), c.rs[|outer|])
  {
    hide Fits, Resting, LocalsFit, HasTypes, AtCall, Below;
    InFrameIs(c, locals, st, outer);
    TypesTop(vs, st, params);
    CallResting(env, c, c1, c2, vs, ls, n, st, outer);
    AtCallFacts(env, c1, c2, b, vs, ls, n);
    assert c'.rs[1..] == c2.rs;
    ArgsFit(c2, Top(vs, n), params);
    LocalsFitSame(c.loc, c'.loc, c.rbx, locals, c'.rbx);
    RestingBottom(c.mem, c.rs, outer);
    CallerKept(c, c', b, c.rs[|outer|]);
  }

  lemma AtCallFacts(env: Env, c: Cpu, c': Cpu, b: int, vs: seq<Value>, ls: seq<Value>, n: nat)
    requires n <= |vs| && AtCall(env, c, c', b, vs, ls, n)
    ensures Spilled(c'.mem, b, Pop(vs, n)) && c'.rdi == b + |vs| - n + 1 && c'.rs == [c'.rdi] + c.rs && c'.rbx == c.rbx + env.clocals
    ensures Locals(c', Top(vs, n))
    ensures forall a :: a < b ==> Rd(c'.mem, a) == Rd(c.mem, a)
    ensures forall a :: a < c'.rbx ==> Rd(c'.loc, a) == Rd(c.loc, a)
  {
    hide Rd;
  }

  lemma CallResting(env: Env, c: Cpu, c1: Cpu, c2: Cpu, vs: seq<Value>, ls: seq<Value>, n: nat, st: seq<Width>, outer: Shape)
    requires |c.rs| > 0 && Resting(c.mem, c.rs, outer) && c1 == c.(pc := c1.pc) && n <= |vs| && n <= |st|
    requires AtCall(env, c1, c2, c.rs[0], vs, ls, n) && HasTypes(Pop(vs, n), Pop(st, n))
    ensures Resting(c2.mem, c2.rs, [Pop(st, n)] + outer)
  {
    hide Resting, Rd, HasTypes, AtCall, Held, Spilled, Locals;
    var b := c.rs[0];
    AtCallFacts(env, c1, c2, b, vs, ls, n);
    SpilledHeld(c2.mem, b, Pop(vs, n), Pop(st, n));
    TypesLength(Pop(vs, n), Pop(st, n));
    RestingSame(c.mem, c2.mem, c.rs, outer);
    RestingCons(c2.mem, c2.rs, c.rs, Pop(st, n), outer);
  }

  lemma LocalsFitSame(loc: Memory, loc': Memory, rbx: int, locals: seq<Width>, lim: int)
    requires LocalsFit(loc, rbx, locals) && rbx + |locals| <= lim && forall a :: a < lim ==> Rd(loc', a) == Rd(loc, a)
    ensures LocalsFit(loc', rbx, locals)
  {
    hide Rd;
    forall i | 0 <= i < |locals| ensures Rd(loc', rbx + i) < Mod(locals[i]) {
      assert Rd(loc', rbx + i) == Rd(loc, rbx + i);
    }
  }

  lemma CallerKept(c: Cpu, c': Cpu, b: int, b': int)
    requires b' <= b && c.rbx <= c'.rbx
    requires forall a :: a < b ==> Rd(c'.mem, a) == Rd(c.mem, a)
    requires forall a :: a < c'.rbx ==> Rd(c'.loc, a) == Rd(c.loc, a)
    ensures Below(c, c'.(rbx := c.rbx), b')
  {
    hide Rd;
  }

  lemma SpilledHeld(m: Memory, b: int, us: seq<Value>, st: seq<Width>)
    requires Spilled(m, b, us) && HasTypes(us, st)
    ensures Held(m, b, st)
  {
    forall i | 0 <= i < |st| ensures Rd(m, b + 1 + i) < Mod(st[i]) {
      assert Rd(m, b + 1 + i) == us[i].n;
    }
  }

  lemma ArgsFit(c: Cpu, args: seq<Value>, params: seq<Width>)
    requires Locals(c, args) && HasTypes(args, params)
    ensures LocalsFit(c.loc, c.rbx, params)
  {
    forall i | 0 <= i < |params| ensures Rd(c.loc, c.rbx + i) < Mod(params[i]) {
      assert Rd(c.loc, c.rbx + i) == args[i].n;
    }
  }

  lemma CallTyped(w: World, linked: set<nat>, fn: Checked, s: Spot, c: Cpu)
    requires s.b.Atomic? && s.b.atom.Call? && Sound(w, linked, fn) && AtSpot(w, linked, fn, s, c) && c.pc == s.p
    ensures MovesTyped(w, linked, fn, c, |s.keeps|)
  {
    hide InFrame, Goes, At, Asm, Cells, Dbg, EndsWith, PlaceOk, BodyOk, Below, Here, PointIn, FnShape, StaysTyped, LeavesTyped, CallSetup, CallCleanup, CallReturn, CallsOk, LabelsOk, Helped,
         Shaped, Supported, CalleesIn, LabelShapes, Rep, HasTypes, Fits, LocalsFit, AtCall, Exec, Resting, Ready, WorldOk, Linked, ModuleTyped, Size;
    var f, k, env, c1 := s.b.atom.fn, |s.keeps|, fn.pl.env, c.(pc := c.pc + 7);
    ThereFacts(w, linked, fn, s);
    CalleesSplit(w, linked, CallsOf(s.b.atom), BodyCalls(s.b.next));
    HereAtomic(w, linked, fn.pl, s.b, s.p, s.keeps, s.tgts);
    CalleeTyped(w, linked, fn, f);
    var params := fn.fts[f].value.params;
    ReadyPtr(w, f);
    CallPieces(w.plane, env, f, c.pc, s.keeps, s.tgts);
    InFramePc(c, c1, fn.locals, [s.st] + s.outer);
    InFrameIs(c1, fn.locals, s.st, s.outer);
    var vs, ls := FitsRep(c1, c1.rs[0], s.st, fn.locals);
    TypesLength(vs, s.st);
    assert |params| <= |s.st| by { EndsSize(s.st, params); }
    var c2 := ExecCallSetup(env, f, c1, c1.rs[0], vs, ls);
    CallGoes(w.plane, env, f, c, c2);
    var c' := c2.(pc := w.plane[8 * f].a, rs := [CallReturn(env, f, c.pc)] + c2.rs);
    CallFrame(env, c, c1, c2, c', c.rs[0], vs, ls, |params|, s.st, params, fn.locals, s.outer);
    CallShape(w, linked, fn, s);
    assert EntersTyped(w, linked, fn, c, c', k, f);
    assert ArrivesTyped(w, linked, fn, c, c', k);
  }

  lemma EndsSize(st: seq<Width>, ts: seq<Width>)
    requires EndsWith(st, ts)
    ensures |ts| <= |st|
  {
  }

  lemma ReadyPtr(w: World, f: nat)
    requires Ready(w, f)
    ensures 8 * f < |w.plane| && w.plane[8 * f].Ptr? && w.plane[8 * f].a != 0
  {
    hide At, Supported, BodyOk;
  }
}
