/** Runs that do not end: while the interpreter needs more fuel, the machine keeps running.  With the
    simulation of runs that end, this makes the machine's behaviour exactly the interpreter's. */
module Endless {
  import opened Words
  import opened Wasm
  import opened X86
  import opened OpSim
  import opened Layout
  import opened ControlSim
  import opened TableSim
  import opened CallSim
  import opened Pieces
  import opened Fragment
  import opened Sim
  import opened Meaning

  /** The machine makes at least k steps without stopping. */
  ghost predicate RunsOn(plane: seq<Cell>, c: Cpu, k: nat) {
    exists n: nat :: n >= k && Run(plane, c, n).Go?
  }

  lemma RunsZero(plane: seq<Cell>, c: Cpu)
    ensures RunsOn(plane, c, 0)
  {
    assert Run(plane, c, 0).Go?;
  }

  lemma RunsAfter(plane: seq<Cell>, c: Cpu, c1: Cpu, k: nat)
    requires Reaches(plane, c, c1) && RunsOn(plane, c1, k)
    ensures RunsOn(plane, c, k)
  {
    var m: nat :| Run(plane, c, m) == Go(c1);
    var n: nat :| n >= k && Run(plane, c1, n).Go?;
    RunAdd(plane, c, m, n);
    assert Run(plane, c, m + n).Go?;
  }

  /** Getting somewhere else takes a step. */
  lemma RunsLater(plane: seq<Cell>, c: Cpu, c1: Cpu, k: nat)
    requires Reaches(plane, c, c1) && c != c1 && RunsOn(plane, c1, k)
    ensures RunsOn(plane, c, k + 1)
  {
    var m: nat :| Run(plane, c, m) == Go(c1);
    var n: nat :| n >= k && Run(plane, c1, n).Go?;
    RunAdd(plane, c, m, n);
    assert Run(plane, c, 0) == Go(c);
    assert Run(plane, c, m + n).Go?;
  }

  // ---------- the induction ----------

  lemma {:induction false} LongBody(w: World, linked: set<nat>, env: Env, b: Body, keeps: seq<bool>, tgts: seq<nat>, ar: seq<nat>,
                                    c: Cpu, base: int, vs: seq<Value>, ls: seq<Value>, fuel: nat)
    requires Setting(w, linked, env, keeps, tgts, ar, c) && CodeAt(w, linked, env, b, c.pc, keeps, tgts, ar)
    requires Rep(c, base, vs, ls) && |ls| == env.clocals
    requires Eval(w.fs, b, ar, vs, ls, fuel) == NoFuel
    ensures RunsOn(w.plane, c, fuel)
    decreases fuel, 1, b, 3
  {
    hide At, Gen, Size, AtomSize, Reaches, Rep, Below, Ends, CalleesIn, Linked, WorldOk, Supported, BodyOk, Eval, EvalFirst, EndOf, RunsOn;
    EvalIs(w.fs, b, ar, vs, ls, fuel);
    var o := EvalFirst(w.fs, b, ar, vs, ls, fuel);
    if b.Atomic? {
      if o.NoFuel? {
        LongAtom(w, linked, env, b, keeps, tgts, ar, c, base, vs, ls, fuel);
      } else {
        AtomicParts(w, linked, env, b.atom, b.next, c.pc, keeps, tgts, ar);
        SimFirstAtom(w, linked, env, b, keeps, tgts, ar, c, base, vs, ls, fuel);
        LongThen(w, linked, env, b, keeps, tgts, ar, c, c.pc + 7 + AtomSize(env, b.atom, keeps), base, o, fuel, ls);
      }
    } else {
      if o.NoFuel? {
        LongNested(w, linked, env, b, keeps, tgts, ar, c, base, vs, ls, fuel);
      } else {
        NestedParts(w, linked, env, b, c.pc, keeps, tgts, ar);
        SimNested(w, linked, env, b, keeps, tgts, ar, c, base, vs, ls, fuel);
        LongThen(w, linked, env, b, keeps, tgts, ar, c, EndOf(env, b, c.pc, keeps), base, o, fuel, ls);
      }
    }
  }

  lemma LongThen(w: World, linked: set<nat>, env: Env, b: Body, keeps: seq<bool>, tgts: seq<nat>, ar: seq<nat>,
                 c: Cpu, mid: int, base: int, o: Outcome, fuel: nat, ls: seq<Value>)
    requires !b.Done? && Setting(w, linked, env, keeps, tgts, ar, c) && CodeAt(w, linked, env, b.next, mid, keeps, tgts, ar)
    requires Ends(w.plane, c, mid, base, tgts, o) && !o.NoFuel? && (o.Next? ==> |o.ls| == env.clocals)
    requires Then(w.fs, o, b, ar, fuel) == NoFuel
    ensures RunsOn(w.plane, c, fuel)
    decreases fuel, 1, b, 0
  {
    hide At, Gen, Size, Reaches, Rep, Below, CalleesIn, Linked, WorldOk, Supported, BodyOk, Eval, RunsOn;
    var c1 :| Reaches(w.plane, c, c1) && c1.pc == mid && Rep(c1, base, o.vs, o.ls) && Preserves(c, c1, base);
    LongBody(w, linked, env, b.next, keeps, tgts, ar, c1, base, o.vs, o.ls, fuel);
    RunsAfter(w.plane, c, c1, fuel);
  }

  lemma LongAtom(w: World, linked: set<nat>, env: Env, b: Body, keeps: seq<bool>, tgts: seq<nat>, ar: seq<nat>,
                 c: Cpu, base: int, vs: seq<Value>, ls: seq<Value>, fuel: nat)
    requires b.Atomic? && Setting(w, linked, env, keeps, tgts, ar, c) && CodeAt(w, linked, env, b, c.pc, keeps, tgts, ar)
    requires Rep(c, base, vs, ls) && |ls| == env.clocals
    requires EvalFirst(w.fs, b, ar, vs, ls, fuel) == NoFuel
    ensures RunsOn(w.plane, c, fuel)
    decreases fuel, 1, b, 2
  {
    hide At, Gen, Size, AtomSize, Reaches, Rep, Below, Ends, CalleesIn, Linked, WorldOk, Supported, BodyOk, CodeAt, AtomAt, EvalAtom, RunsOn;
    AtomicParts(w, linked, env, b.atom, b.next, c.pc, keeps, tgts, ar);
    RunDbg(w.plane, AtomByte(b.atom), c);
    var c1 := c.(pc := c.pc + 7);
    RepPc(c, c1.pc, base, vs, ls);
    OnlyCalls(w.fs, b.atom, ar, vs, ls, fuel);
    LongCall(w, linked, env, b.atom.fn, keeps, tgts, ar, c1, base, vs, ls, fuel);
    RunsAfter(w.plane, c, c1, fuel);
  }

  lemma OnlyCalls(fs: seq<Func>, a: Atom, ar: seq<nat>, vs: seq<Value>, ls: seq<Value>, fuel: nat)
    requires EvalAtom(fs, a, ar, vs, ls, fuel) == NoFuel
    ensures a.Call? && a.fn < |fs| && fs[a.fn].Defined? && fs[a.fn].cparams <= |vs|
    ensures fuel > 0 ==> Invoke(fs, a.fn, Top(vs, fs[a.fn].cparams), fuel - 1) == NoFuel
  {
    hide EvalOp, Invoke;
  }

  lemma LongCall(w: World, linked: set<nat>, env: Env, f: U32, keeps: seq<bool>, tgts: seq<nat>, ar: seq<nat>,
                 c: Cpu, base: int, vs: seq<Value>, ls: seq<Value>, fuel: nat)
    requires Setting(w, linked, env, keeps, tgts, ar, c) && AtomAt(w, linked, env, Call(f), c.pc, keeps, tgts, ar)
    requires Rep(c, base, vs, ls) && |ls| == env.clocals
    requires f < |w.fs| && w.fs[f].Defined? && w.fs[f].cparams <= |vs|
    requires fuel > 0 ==> Invoke(w.fs, f, Top(vs, w.fs[f].cparams), fuel - 1) == NoFuel
    ensures RunsOn(w.plane, c, fuel)
    decreases fuel, 0, 0
  {
    hide At, Asm, Cells, Reaches, Rep, Below, CallSetup, CallCleanup, Invoke, AtCall, BodyOk, Supported, GenFn, WorldOk, Linked, CalleesIn, Locals,
         GenAtom, RunsOn;
    if fuel == 0 {
      RunsZero(w.plane, c);
    } else {
      var n := w.fs[f].cparams;
      CalleeOf(w, linked, f);
      SigOf(w, f);
      CallParts(w, linked, env, f, keeps, tgts, ar, c.pc);
      var c2, c3 := ReachCallee(w, env, f, c, base, vs, ls);
      LongFn(w, linked, f, c3, Top(vs, n), fuel - 1);
      Deeper(env, c, c2, base, vs, ls, n);
      RunsLater(w.plane, c, c3, fuel - 1);
    }
  }

  lemma Deeper(env: Env, c: Cpu, c2: Cpu, b: int, vs: seq<Value>, ls: seq<Value>, n: nat)
    requires n <= |vs| && AtCall(env, c, c2, b, vs, ls, n)
    ensures |c2.rs| > |c.rs|
  {
  }

  /** A linked function for whose run the fuel is not enough runs for at least that many steps. */
  lemma LongFn(w: World, linked: set<nat>, f: nat, c: Cpu, args: seq<Value>, fuel: nat)
    requires WorldOk(w) && Linked(w, linked) && f in linked && Ready(w, f)
    requires c.pc == w.plane[8 * f].a && |c.rs| > 0 && Locals(c, args) && |args| == w.fs[f].cparams
    requires Invoke(w.fs, f, args, fuel) == NoFuel
    ensures RunsOn(w.plane, c, fuel)
    decreases fuel, 2
  {
    hide At, Gen, GenFn, FnEnd, Reaches, Rep, Below, CalleesIn, BodyOk, Supported, Prologue, Close, Cells, CloseSize, Size, Eval, Locals, RunsOn, Laid;
    var env, fn := FnEnv(w, f), w.fs[f];
    var ls := args + Zeros(fn.locals);
    var l := c.pc + |Prologue(env, fn.cparams)| + Size(env, fn.body, [true]) + CloseSize(true);
    LaidFn(w.plane, env, fn.cparams, fn.body, c.pc);
    var c1 := RunPrologue(w.plane, env, c, args, fn.locals);
    LinkedCallees(w, linked, f);
    LongBody(w, linked, env, fn.body, [true], [l], [fn.arity], c1, c.rdi + 1, [], ls, fuel);
    RunsAfter(w.plane, c, c1, fuel);
  }

  // ---------- structured instructions ----------

  lemma ExitNoFuel(o: Outcome, n: nat, vs: seq<Value>)
    requires Exit(o, n, vs) == NoFuel
    ensures o == NoFuel
  {
  }

  lemma LongNested(w: World, linked: set<nat>, env: Env, b: Body, keeps: seq<bool>, tgts: seq<nat>, ar: seq<nat>,
                   c: Cpu, base: int, vs: seq<Value>, ls: seq<Value>, fuel: nat)
    requires Nested(b) && Setting(w, linked, env, keeps, tgts, ar, c) && CodeAt(w, linked, env, b, c.pc, keeps, tgts, ar)
    requires Rep(c, base, vs, ls) && |ls| == env.clocals
    requires EvalFirst(w.fs, b, ar, vs, ls, fuel) == NoFuel
    ensures RunsOn(w.plane, c, fuel)
    decreases fuel, 1, b, 2
  {
    hide At, Gen, Reaches, Rep, Below, CalleesIn, Linked, WorldOk, Supported, BodyOk, CodeAt, EvalFirst, RunsOn, Setting;
    match b
    case Loop(_, _, _) => LongLoopAt(w, linked, env, b, keeps, tgts, ar, c, base, vs, ls, fuel);
    case Block(_, _, _) => LongBlock(w, linked, env, b, keeps, tgts, ar, c, base, vs, ls, fuel);
    case If(_, _, _) => LongIf(w, linked, env, b, keeps, tgts, ar, c, base, vs, ls, fuel);
    case IfElse(_, _, _, _) => LongIfElse(w, linked, env, b, keeps, tgts, ar, c, base, vs, ls, fuel);
  }

  lemma LongBlock(w: World, linked: set<nat>, env: Env, b: Body, keeps: seq<bool>, tgts: seq<nat>, ar: seq<nat>,
                  c: Cpu, base: int, vs: seq<Value>, ls: seq<Value>, fuel: nat)
    requires b.Block? && Setting(w, linked, env, keeps, tgts, ar, c) && CodeAt(w, linked, env, b, c.pc, keeps, tgts, ar)
    requires Rep(c, base, vs, ls) && |ls| == env.clocals
    requires EvalFirst(w.fs, b, ar, vs, ls, fuel) == NoFuel
    ensures RunsOn(w.plane, c, fuel)
    decreases fuel, 1, b, 1
  {
    hide At, Gen, Size, Reaches, Rep, Below, CalleesIn, Linked, WorldOk, Inner, InnerSize, EndOf, CloseSize, Close,
         Spilled, Enter, Dbg, Keep, BodyOk, CodeAt, Exit, Eval, RunsOn;
    var p := c.pc;
    CodeAtSupported(w, linked, env, b, p, keeps, tgts, ar);
    NestedParts(w, linked, env, b, p, keeps, tgts, ar);
    InnerPartsAt(w, linked, env, b, p, keeps, tgts, ar);
    AtSplit(w.plane, p, Dbg(BLOCK), Enter());
    RunDbg(w.plane, BLOCK, c);
    var c0 := c.(pc := p + 7);
    StepPc(c, c0, base, vs, ls);
    var c1 := EnterArm(w.plane, c0, base, vs, ls);
    ExitNoFuel(Eval(w.fs, b.body, [Arity(b.bt)] + ar, [], ls, fuel), Arity(b.bt), vs);
    LongBody(w, linked, env, b.body, [Keep(b.bt)] + keeps, [EndOf(env, b, p, keeps)] + tgts, [Arity(b.bt)] + ar, c1, base + |vs| + 1, [], ls, fuel);
    RunsAfter(w.plane, c0, c1, fuel);
    RunsAfter(w.plane, c, c0, fuel);
  }

  lemma LongLoopAt(w: World, linked: set<nat>, env: Env, b: Body, keeps: seq<bool>, tgts: seq<nat>, ar: seq<nat>,
                   c: Cpu, base: int, vs: seq<Value>, ls: seq<Value>, fuel: nat)
    requires b.Loop? && Setting(w, linked, env, keeps, tgts, ar, c) && CodeAt(w, linked, env, b, c.pc, keeps, tgts, ar)
    requires Rep(c, base, vs, ls) && |ls| == env.clocals
    requires EvalFirst(w.fs, b, ar, vs, ls, fuel) == NoFuel
    ensures RunsOn(w.plane, c, fuel)
    decreases fuel, 1, b, 1
  {
    hide At, Gen, Size, Reaches, Rep, Below, CalleesIn, Linked, WorldOk, Inner, InnerSize, EndOf, CloseSize, Close,
         Spilled, Enter, Dbg, Keep, BodyOk, CodeAt, EvalLoop, RunsOn;
    var p := c.pc;
    CodeAtSupported(w, linked, env, b, p, keeps, tgts, ar);
    NestedParts(w, linked, env, b, p, keeps, tgts, ar);
    AtSplit(w.plane, p, Dbg(LOOP), Enter());
    RunDbg(w.plane, LOOP, c);
    var c0 := c.(pc := p + 7);
    StepPc(c, c0, base, vs, ls);
    LongLoop(w, linked, env, b, p, keeps, tgts, ar, c0, base, vs, ls, fuel);
    RunsAfter(w.plane, c, c0, fuel);
  }

  /** Every iteration takes at least one step. */
  lemma LongLoop(w: World, linked: set<nat>, env: Env, b: Body, p: nat, keeps: seq<bool>, tgts: seq<nat>, ar: seq<nat>,
                 c: Cpu, base: int, vs: seq<Value>, ls: seq<Value>, fuel: nat)
    requires b.Loop? && Setting(w, linked, env, keeps, tgts, ar, c) && BodyOk(env, b, |keeps|) && Supported(b, keeps, ar)
    requires c.pc == p + 7 && At(w.plane, p + 7, Enter()) && CalleesIn(w, linked, BodyCalls(b.body))
    requires At(w.plane, p + HeadSize(b), Inner(env, b, p, keeps, Somes(tgts), Somes(tgts), Some(p + 7), Some(p + 7)))
    requires Rep(c, base, vs, ls) && |ls| == env.clocals
    requires EvalLoop(w.fs, b, ar, vs, ls, fuel) == NoFuel
    ensures RunsOn(w.plane, c, fuel)
    decreases fuel, 1, b, 0
  {
    hide At, Gen, Size, Reaches, Rep, Below, CalleesIn, Linked, WorldOk, OutcomeOk, Inner, InnerSize, EndOf, CloseSize, Close,
         Ends, Spilled, Enter, Keep, BodyOk, CodeAt, Exit, Supported, Eval, RunsOn;
    ArmsOk(env, b, |keeps|);
    InnerPartsAt(w, linked, env, b, p, keeps, tgts, ar);
    var c1 := EnterArm(w.plane, c, base, vs, ls);
    var o := Eval(w.fs, b.body, [0] + ar, [], ls, fuel);
    if o.Branch? && o.depth == 0 {
      if fuel == 0 {
        RunsZero(w.plane, c);
      } else {
        SimArm(w, linked, env, b.body, Keep(b.bt), 0, p + 7, keeps, tgts, ar, c, c1, base + |vs| + 1, ls, fuel);
        var c2 := LoopBack(w.plane, c, c1, EndOf(env, b, p, keeps) - CloseSize(Keep(b.bt)), base, vs, tgts, p + 7, o);
        LongLoop(w, linked, env, b, p, keeps, tgts, ar, c2, base, vs, o.ls, fuel - 1);
        RunsAfter(w.plane, c1, c2, fuel - 1);
        RunsLater(w.plane, c, c1, fuel - 1);
      }
    } else {
      ExitNoFuel(o, Arity(b.bt), vs);
      LongBody(w, linked, env, b.body, [Keep(b.bt)] + keeps, [p + 7] + tgts, [0] + ar, c1, base + |vs| + 1, [], ls, fuel);
      RunsAfter(w.plane, c, c1, fuel);
    }
  }

  lemma LongIf(w: World, linked: set<nat>, env: Env, b: Body, keeps: seq<bool>, tgts: seq<nat>, ar: seq<nat>,
               c: Cpu, base: int, vs: seq<Value>, ls: seq<Value>, fuel: nat)
    requires b.If? && Setting(w, linked, env, keeps, tgts, ar, c) && CodeAt(w, linked, env, b, c.pc, keeps, tgts, ar)
    requires Rep(c, base, vs, ls) && |ls| == env.clocals
    requires EvalFirst(w.fs, b, ar, vs, ls, fuel) == NoFuel
    ensures RunsOn(w.plane, c, fuel)
    decreases fuel, 1, b, 1
  {
    hide At, Gen, Size, Reaches, Rep, Below, CalleesIn, Linked, WorldOk, Inner, InnerSize, EndOf, CloseSize, Close,
         Spilled, Enter, Dbg, Keep, BodyOk, CodeAt, Exit, IfTest, JzCode, Eval, RunsOn;
    var p := c.pc;
    CodeAtSupported(w, linked, env, b, p, keeps, tgts, ar);
    NestedParts(w, linked, env, b, p, keeps, tgts, ar);
    InnerPartsAt(w, linked, env, b, p, keeps, tgts, ar);
    var e, us := EndOf(env, b, p, keeps), Pop(vs, 1);
    AtSplit(w.plane, p, Dbg(IF) + Asm(IfTest()) + JzCode(e - (p + 13 + |Asm(IfTest())|)), Enter());
    var c0 := RunIfHead(w.plane, c, e, base, vs, ls);
    var c1 := EnterArm(w.plane, c0, base, us, ls);
    ExitNoFuel(Eval(w.fs, b.body, [0] + ar, [], ls, fuel), 0, us);
    LongBody(w, linked, env, b.body, [Keep(b.bt)] + keeps, [e] + tgts, [0] + ar, c1, base + |us| + 1, [], ls, fuel);
    RunsAfter(w.plane, c0, c1, fuel);
    RunsAfter(w.plane, c, c0, fuel);
  }

  lemma LongIfElse(w: World, linked: set<nat>, env: Env, b: Body, keeps: seq<bool>, tgts: seq<nat>, ar: seq<nat>,
                   c: Cpu, base: int, vs: seq<Value>, ls: seq<Value>, fuel: nat)
    requires b.IfElse? && Setting(w, linked, env, keeps, tgts, ar, c) && CodeAt(w, linked, env, b, c.pc, keeps, tgts, ar)
    requires Rep(c, base, vs, ls) && |ls| == env.clocals
    requires EvalFirst(w.fs, b, ar, vs, ls, fuel) == NoFuel
    ensures RunsOn(w.plane, c, fuel)
    decreases fuel, 1, b, 1
  {
    hide At, Gen, Size, Reaches, Rep, Below, CalleesIn, Linked, WorldOk, Inner, InnerSize, EndOf, CloseSize, Close,
         Spilled, Enter, Dbg, BodyOk, CodeAt, Exit, IfTest, JzCode, ElseSize, ElseCode, Eval, EvalLoop, EvalAtom, NoFall, RunsOn;
    var p := c.pc;
    CodeAtSupported(w, linked, env, b, p, keeps, tgts, ar);
    NestedParts(w, linked, env, b, p, keeps, tgts, ar);
    InnerPartsAt(w, linked, env, b, p, keeps, tgts, ar);
    ElsePartsAt(w, linked, env, b, p, keeps, tgts, ar);
    var e, us, other, n := EndOf(env, b, p, keeps), Pop(vs, 1), OtherOf(env, b, p, keeps), Arity(b.bt);
    AtSplit(w.plane, p, Dbg(IF) + Asm(IfTest()) + JzCode(other - (p + 13 + |Asm(IfTest())|)), Enter());
    var c0 := RunIfHead(w.plane, c, other, base, vs, ls);
    var arm := if Last(vs).n != 0 then b.body else b.els;
    ExitNoFuel(Eval(w.fs, arm, [n] + ar, [], ls, fuel), n, us);
    if Last(vs).n == 0 { ElseAt(w.plane, other - ElseSize(), Some(e)); }
    var c1 := EnterArm(w.plane, c0, base, us, ls);
    LongBody(w, linked, env, arm, [Keep(b.bt)] + keeps, [e] + tgts, [n] + ar, c1, base + |us| + 1, [], ls, fuel);
    RunsAfter(w.plane, c0, c1, fuel);
    RunsAfter(w.plane, c, c0, fuel);
  }

  // ---------- what the machine can do ----------

  /** The machine never stops. */
  ghost predicate Diverges(plane: seq<Cell>, c: Cpu) {
    forall n: nat :: Run(plane, c, n).Go?
  }

  lemma {:induction false} RunPrefix(plane: seq<Cell>, c: Cpu, m: nat, n: nat)
    requires m <= n && Run(plane, c, n).Go?
    ensures Run(plane, c, m).Go?
    decreases m
  {
    if m > 0 { RunPrefix(plane, Step(plane, c).c, m - 1, n - 1); }
  }

  /** When no fuel is enough for the interpreter, the machine runs for ever. */
  lemma FnDiverges(w: World, linked: set<nat>, f: nat, c: Cpu, args: seq<Value>)
    requires WorldOk(w) && Linked(w, linked) && f in linked && Ready(w, f)
    requires c.pc == w.plane[8 * f].a && |c.rs| > 0 && Locals(c, args) && |args| == w.fs[f].cparams
    requires forall fuel: nat :: Invoke(w.fs, f, args, fuel) == NoFuel
    ensures Diverges(w.plane, c)
  {
    hide Invoke, Ready, Linked, WorldOk, Locals;
    forall n: nat ensures Run(w.plane, c, n).Go? {
      LongFn(w, linked, f, c, args, n);
      var m: nat :| m >= n && Run(w.plane, c, m).Go?;
      RunPrefix(w.plane, c, n, m);
    }
  }

  /** Addresses where there is no code. */
  ghost predicate NoCode(plane: seq<Cell>, a: int) { !(0 <= a < |plane|) }

  lemma {:induction false} SameStop(plane: seq<Cell>, c: Cpu, m: nat, n: nat)
    requires !Run(plane, c, m).Go? && !Run(plane, c, n).Go?
    ensures Run(plane, c, m) == Run(plane, c, n)
    decreases m
  {
    assert Run(plane, c, 0).Go?;
    if Step(plane, c).Go? { SameStop(plane, Step(plane, c).c, m - 1, n - 1); }
  }

  lemma FaultStops(plane: seq<Cell>, c: Cpu, n: nat)
    requires Faults(plane, c) && !Run(plane, c, n).Go?
    ensures Run(plane, c, n) == Fault
  {
    var m: nat :| Run(plane, c, m) == Fault;
    SameStop(plane, c, m, n);
  }

  lemma NotLonger(plane: seq<Cell>, c: Cpu, n: nat)
    requires !Run(plane, c, n).Go?
    ensures !RunsOn(plane, c, n)
  {
    forall m: nat | m >= n ensures !Run(plane, c, m).Go? {
      if Run(plane, c, m).Go? { RunPrefix(plane, c, n, m); }
    }
  }

  lemma ExitStops(plane: seq<Cell>, c: Cpu, c': Cpu, n: nat)
    requires Reaches(plane, c, c') && NoCode(plane, c'.pc) && !Run(plane, c, n).Go?
    ensures Run(plane, c, n) == Bad
  {
    var m: nat :| Run(plane, c, m) == Go(c');
    if n <= m {
      RunPrefix(plane, c, n, m);
    } else {
      RunAdd(plane, c, m, n - m);
      assert Step(plane, c') == Bad;
      assert Run(plane, c', n - m) == Bad;
    }
  }

  /** The machine has stopped, with r, the way the interpreter has: a fault for a trap, and for a
      return the caller's address, with the result in rax. */
  ghost predicate StoppedLike(plane: seq<Cell>, c: Cpu, o: Outcome, r: Result) {
    || o.Stuck?
    || (o.Trapped? && r == Fault)
    || (o.Returned? && r == Bad && exists c' :: Reaches(plane, c, c') && Gone(c, c', c.rdi, 0, o.results))
  }

  /** Whenever the machine has stopped after n steps, fuel n was enough for the interpreter, and the
      machine stopped the same way. */
  lemma StopsAlike(w: World, linked: set<nat>, f: nat, c: Cpu, args: seq<Value>, n: nat)
    requires WorldOk(w) && Linked(w, linked) && f in linked && Ready(w, f)
    requires c.pc == w.plane[8 * f].a && |c.rs| > 0 && Locals(c, args) && |args| == w.fs[f].cparams
    requires !Run(w.plane, c, n).Go? && NoCode(w.plane, c.rs[0])
    ensures StoppedLike(w.plane, c, Invoke(w.fs, f, args, n), Run(w.plane, c, n))
  {
    hide Invoke, Ready, Linked, WorldOk, Locals, RunsOn, Reaches, Faults;
    LinkedCallees(w, linked, f);
    var o := Invoke(w.fs, f, args, n);
    InvokeArity(w.fs, f, args, n);
    SimFn(w, linked, f, c, args, n);
    NotLonger(w.plane, c, n);
    if o.NoFuel? { LongFn(w, linked, f, c, args, n); }
    if o.Trapped? { FaultStops(w.plane, c, n); }
    if o.Returned? {
      var c' :| Reaches(w.plane, c, c') && Gone(c, c', c.rdi, 0, o.results);
      ExitStops(w.plane, c, c', n);
    }
  }
}
