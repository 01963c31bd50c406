/** Meaning preservation: the induction over bodies, loop iterations and calls. */
module Meaning {
  import opened Words
  import opened Wasm
  import opened X86
  import opened Codegen
  import opened OpSim
  import opened Layout
  import opened ControlSim
  import opened TableSim
  import opened CallSim
  import opened Pieces
  import opened Fragment
  import opened Sim

  /** What holds throughout one function's code: the program is linked, and the machine stack has room
      for a saved rdi for every open block and the return address under them.  That it holds just these
      in every reachable state is `Depth.StackDepth`. */
  ghost predicate Setting(w: World, linked: set<nat>, env: Env, keeps: seq<bool>, tgts: seq<nat>, ar: seq<nat>, c: Cpu) {
    && WorldOk(w) && Linked(w, linked) && env.imports == w.imports && env.sigs == w.sigs
    && 0 < |ar| == |tgts| == |keeps| < |c.rs|
    && forall i :: 0 <= i < |ar| ==> ar[i] <= 1
  }

  ghost predicate CodeAt(w: World, linked: set<nat>, env: Env, b: Body, p: int, keeps: seq<bool>, tgts: seq<nat>, ar: seq<nat>)
    requires |tgts| == |keeps| == |ar|
  {
    Laid(w.plane, env, b, p, keeps, tgts) && Supported(b, keeps, ar) && CalleesIn(w, linked, BodyCalls(b))
  }

  ghost predicate AtomAt(w: World, linked: set<nat>, env: Env, a: Atom, p: int, keeps: seq<bool>, tgts: seq<nat>, ar: seq<nat>)
    requires |tgts| == |keeps| == |ar|
  {
    && p >= 0 && AtomOk(env, a, |keeps|) && AtomSupported(a, keeps, ar) && CalleesIn(w, linked, CallsOf(a))
    && At(w.plane, p, GenAtom(env, a, p, keeps, Somes(tgts), Somes(tgts)))
  }

  lemma CalleesSplit(w: World, linked: set<nat>, a: seq<nat>, b: seq<nat>)
    requires CalleesIn(w, linked, a + b)
    ensures CalleesIn(w, linked, a) && CalleesIn(w, linked, b)
  {
    forall i | 0 <= i < |a| ensures a[i] < |w.fs| && (a[i] in linked || w.fs[a[i]].Import?) {
      assert (a + b)[i] == a[i];
    }
    forall i | 0 <= i < |b| ensures b[i] < |w.fs| && (b[i] in linked || w.fs[b[i]].Import?) {
      assert (a + b)[|a| + i] == b[i];
    }
  }

  lemma AtomicParts(w: World, linked: set<nat>, env: Env, a: Atom, next: Body, p: int, keeps: seq<bool>, tgts: seq<nat>, ar: seq<nat>)
    requires |tgts| == |keeps| == |ar| && CodeAt(w, linked, env, Atomic(a, next), p, keeps, tgts, ar)
    ensures AtomOk(env, a, |keeps|) && BodyOk(env, next, |keeps|)
    ensures At(w.plane, p, Dbg(AtomByte(a))) && AtomAt(w, linked, env, a, p + 7, keeps, tgts, ar)
    ensures CodeAt(w, linked, env, next, p + 7 + AtomSize(env, a, keeps), keeps, tgts, ar)
    ensures Size(env, Atomic(a, next), keeps) == 7 + AtomSize(env, a, keeps) + Size(env, next, keeps)
  {
    hide At, GenAtom, Gen, AtomSize, AtomOk, AtomSupported, CalleesIn, AtomByte, Dbg, Laid, Size, BodyOk;
    LaidAtomic(w.plane, env, a, next, p, keeps, tgts);
    CalleesSplit(w, linked, CallsOf(a), BodyCalls(next));
  }

  /** Where the parts of a structured instruction's code are. */
  lemma NestedParts(w: World, linked: set<nat>, env: Env, b: Body, p: int, keeps: seq<bool>, tgts: seq<nat>, ar: seq<nat>)
    requires Nested(b) && |tgts| == |keeps| == |ar| && CodeAt(w, linked, env, b, p, keeps, tgts, ar)
    ensures BodyOk(env, b, |keeps|) && BodyOk(env, b.next, |keeps|) && p >= 0
    ensures At(w.plane, p, Head(b, p, OtherOf(env, b, p, keeps)))
    ensures var l, e := LabelOf(env, b, p, keeps), EndOf(env, b, p, keeps);
      && At(w.plane, p + HeadSize(b), Inner(env, b, p, keeps, Somes(tgts), Somes(tgts), Some(l), Some(l)))
      && CodeAt(w, linked, env, b.next, e, keeps, tgts, ar)
      && e + Size(env, b.next, keeps) == p + Size(env, b, keeps)
    ensures CalleesIn(w, linked, BodyCalls(b.body)) && (b.IfElse? ==> CalleesIn(w, linked, BodyCalls(b.els)))
  {
    hide At, Gen, Inner, InnerSize, Head, HeadSize, LabelOf, OtherOf, EndOf, CalleesIn, AtomOk, AtomSupported, Laid, BodyOk;
    LaidNested(w.plane, env, b, p, keeps, tgts);
    CalleesSplitNested(w, linked, b);
  }

  lemma CalleesSplitNested(w: World, linked: set<nat>, b: Body)
    requires Nested(b) && CalleesIn(w, linked, BodyCalls(b))
    ensures CalleesIn(w, linked, BodyCalls(b.body)) && CalleesIn(w, linked, BodyCalls(b.next))
    ensures b.IfElse? ==> CalleesIn(w, linked, BodyCalls(b.els))
  {
    hide CalleesIn;
    if b.IfElse? {
      CalleesSplit(w, linked, BodyCalls(b.body) + BodyCalls(b.els), BodyCalls(b.next));
      CalleesSplit(w, linked, BodyCalls(b.body), BodyCalls(b.els));
    } else {
      CalleesSplit(w, linked, BodyCalls(b.body), BodyCalls(b.next));
    }
  }

  /** The first arm inside a block, under the block's label, and the block's end. */
  lemma InnerPartsAt(w: World, linked: set<nat>, env: Env, b: Body, p: int, keeps: seq<bool>, tgts: seq<nat>, ar: seq<nat>)
    requires Nested(b) && |tgts| == |keeps| == |ar| && p >= 0 && BodyOk(env, b, |keeps|) && Supported(b, keeps, ar)
    requires BodyOk(env, b.body, |keeps| + 1) && (b.IfElse? ==> BodyOk(env, b.els, |keeps| + 1))
    requires CalleesIn(w, linked, BodyCalls(b.body))
    requires var l := LabelOf(env, b, p, keeps);
      At(w.plane, p + HeadSize(b), Inner(env, b, p, keeps, Somes(tgts), Somes(tgts), Some(l), Some(l)))
    ensures var l, e, k := LabelOf(env, b, p, keeps), EndOf(env, b, p, keeps), [Keep(b.bt)] + keeps;
      && CodeAt(w, linked, env, b.body, p + HeadSize(b), k, [l] + tgts, [LabelArity(b)] + ar)
      && At(w.plane, e - CloseSize(Keep(b.bt)), Close(Keep(b.bt)))
      && (!b.IfElse? ==> p + HeadSize(b) + Size(env, b.body, k) == e - CloseSize(Keep(b.bt)))
  {
    hide At, Gen, Size, HeadSize, CloseSize, Close, ElseCode, ElseSize, Enter, CalleesIn, AtomOk, AtomSupported, LabelOf, EndOf, Keep, Laid, BodyOk, Inner;
    LaidArm(w.plane, env, b, p, keeps, tgts);
  }

  /** The else-arm. */
  lemma ElsePartsAt(w: World, linked: set<nat>, env: Env, b: Body, p: int, keeps: seq<bool>, tgts: seq<nat>, ar: seq<nat>)
    requires b.IfElse? && |tgts| == |keeps| == |ar| && p >= 0 && BodyOk(env, b, |keeps|) && Supported(b, keeps, ar)
    requires BodyOk(env, b.body, |keeps| + 1) && BodyOk(env, b.els, |keeps| + 1) && CalleesIn(w, linked, BodyCalls(b.els))
    requires var l := LabelOf(env, b, p, keeps);
      At(w.plane, p + HeadSize(b), Inner(env, b, p, keeps, Somes(tgts), Somes(tgts), Some(l), Some(l)))
    ensures var e, k := EndOf(env, b, p, keeps), [Keep(b.bt)] + keeps;
      var q := p + HeadSize(b) + Size(env, b.body, k);
      var q2 := q + ElseSize() + |Enter()|;
      && At(w.plane, q, ElseCode(q, Some(e)))
      && CodeAt(w, linked, env, b.els, q2, k, [e] + tgts, [Arity(b.bt)] + ar)
      && q2 + Size(env, b.els, k) == e - CloseSize(Keep(b.bt))
  {
    hide At, Gen, Size, HeadSize, CloseSize, Close, ElseCode, ElseSize, Enter, CalleesIn, AtomOk, AtomSupported, EndOf, Keep, Laid, BodyOk, Inner;
    LaidElse(w.plane, env, b, p, keeps, tgts);
  }

  // ---------- the induction ----------

  /** Body code run from a related state ends the way the interpreter does. */
  lemma {:induction false} SimBody(w: World, linked: set<nat>, env: Env, b: Body, keeps: seq<bool>, tgts: seq<nat>, ar: seq<nat>,
                                   c: Cpu, base: int, vs: seq<Value>, ls: seq<Value>, fuel: nat)
    requires Setting(w, linked, env, keeps, tgts, ar, c) && CodeAt(w, linked, env, b, c.pc, keeps, tgts, ar)
    requires Rep(c, base, vs, ls) && |ls| == env.clocals
    ensures Ends(w.plane, c, c.pc + Size(env, b, keeps), base, tgts, Eval(w.fs, b, ar, vs, ls, fuel))
    decreases fuel, 1, b, 3
  {
    hide At, Gen, GenAtom, Size, AtomSize, Reaches, Rep, Below, Ends, CalleesIn, Linked, WorldOk, AtomAt, OutcomeOk, Supported, BodyOk,
         Eval, EvalFirst, EndOf, CodeAt, Laid, Then, AtomByte, Head, HeadSize, Inner, LabelOf, OtherOf;
    EvalIs(w.fs, b, ar, vs, ls, fuel);
    if b.Done? {
      CodeAtSupported(w, linked, env, b, c.pc, keeps, tgts, ar);
      ReachesRefl(w.plane, c);
      SizeParts(env, b, keeps);
      BelowRefl(c, base);
      EndsNow(w.plane, c, c, base, tgts, vs, ls);
    } else if b.Atomic? {
      AtomicParts(w, linked, env, b.atom, b.next, c.pc, keeps, tgts, ar);
      SimFirstAtom(w, linked, env, b, keeps, tgts, ar, c, base, vs, ls, fuel);
      SimThen(w, linked, env, b, keeps, tgts, ar, c, c.pc + 7 + AtomSize(env, b.atom, keeps), base, EvalFirst(w.fs, b, ar, vs, ls, fuel), fuel, ls);
    } else {
      NestedParts(w, linked, env, b, c.pc, keeps, tgts, ar);
      SimNested(w, linked, env, b, keeps, tgts, ar, c, base, vs, ls, fuel);
      SimThen(w, linked, env, b, keeps, tgts, ar, c, EndOf(env, b, c.pc, keeps), base, EvalFirst(w.fs, b, ar, vs, ls, fuel), fuel, ls);
    }
  }

  lemma EvalIs(fs: seq<Func>, b: Body, ar: seq<nat>, vs: seq<Value>, ls: seq<Value>, fuel: nat)
    ensures Eval(fs, b, ar, vs, ls, fuel)
         == if b.Done? then Next(vs, ls) else Then(fs, EvalFirst(fs, b, ar, vs, ls, fuel), b, ar, fuel)
  {
    hide EvalFirst, Then;
  }

  lemma SimFirstAtom(w: World, linked: set<nat>, env: Env, b: Body, keeps: seq<bool>, tgts: seq<nat>, ar: seq<nat>,
                     c: Cpu, base: int, vs: seq<Value>, ls: seq<Value>, fuel: nat)
    requires b.Atomic? && Setting(w, linked, env, keeps, tgts, ar, c) && CodeAt(w, linked, env, b, c.pc, keeps, tgts, ar)
    requires Rep(c, base, vs, ls) && |ls| == env.clocals
    ensures AtomOk(env, b.atom, |keeps|)
    ensures var o := EvalFirst(w.fs, b, ar, vs, ls, fuel);
      && Ends(w.plane, c, c.pc + 7 + AtomSize(env, b.atom, keeps), base, tgts, o)
      && (o.Next? ==> |o.ls| == |ls|)
    decreases fuel, 1, b, 2
  {
    hide At, Gen, GenAtom, Size, AtomSize, Reaches, Rep, Below, Ends, CalleesIn, Linked, WorldOk, AtomAt, OutcomeOk, Supported, BodyOk, EvalAtom;
    AtomicParts(w, linked, env, b.atom, b.next, c.pc, keeps, tgts, ar);
    RunDbg(w.plane, AtomByte(b.atom), c);
    var c1 := c.(pc := c.pc + 7);
    RepPc(c, c1.pc, base, vs, ls);
    BelowRefl(c, base);
    BelowPc(c, c, c1.pc, base);
    SimAtom(w, linked, env, b.atom, keeps, tgts, ar, c1, base, vs, ls, fuel);
    EndsAfter(w.plane, c, c1, c1.pc + AtomSize(env, b.atom, keeps), base, tgts, EvalAtom(w.fs, b.atom, ar, vs, ls, fuel));
  }

  /** A structured instruction. */
  lemma SimNested(w: World, linked: set<nat>, env: Env, b: Body, keeps: seq<bool>, tgts: seq<nat>, ar: seq<nat>,
                  c: Cpu, base: int, vs: seq<Value>, ls: seq<Value>, fuel: nat)
    requires Nested(b) && Setting(w, linked, env, keeps, tgts, ar, c) && CodeAt(w, linked, env, b, c.pc, keeps, tgts, ar)
    requires Rep(c, base, vs, ls) && |ls| == env.clocals && BodyOk(env, b, |keeps|)
    ensures var o := EvalFirst(w.fs, b, ar, vs, ls, fuel);
      && Ends(w.plane, c, EndOf(env, b, c.pc, keeps), base, tgts, o)
      && (o.Next? ==> |o.ls| == |ls|)
    decreases fuel, 1, b, 2
  {
    hide At, Gen, Reaches, Rep, Below, Ends, CalleesIn, Linked, WorldOk, Supported, BodyOk, CodeAt, EvalFirst, EndOf;
    FirstLocals(w.fs, b, ar, vs, ls, fuel);
    match b
    case Loop(_, _, _) => SimLoopAt(w, linked, env, b, keeps, tgts, ar, c, base, vs, ls, fuel);
    case Block(_, _, _) => SimBlock(w, linked, env, b, keeps, tgts, ar, c, base, vs, ls, fuel);
    case If(_, _, _) => SimIf(w, linked, env, b, keeps, tgts, ar, c, base, vs, ls, fuel);
    case IfElse(_, _, _, _) => SimIfElse(w, linked, env, b, keeps, tgts, ar, c, base, vs, ls, fuel);
  }

  lemma FirstLocals(fs: seq<Func>, b: Body, ar: seq<nat>, vs: seq<Value>, ls: seq<Value>, fuel: nat)
    requires !b.Done? && |ar| > 0
    ensures var o := EvalFirst(fs, b, ar, vs, ls, fuel);
      o.Next? ==> |o.ls| == |ls|
  {
    hide EvalFirst;
  }

  lemma BelowRefl(c: Cpu, b: int)
    ensures Below(c, c, b)
  {
  }

  /** What follows an instruction, when the instruction did not transfer control. */
  lemma SimThen(w: World, linked: set<nat>, env: Env, b: Body, keeps: seq<bool>, tgts: seq<nat>, ar: seq<nat>,
                c: Cpu, mid: int, base: int, o: Outcome, fuel: nat, ls: seq<Value>)
    requires !b.Done? && Setting(w, linked, env, keeps, tgts, ar, c) && CodeAt(w, linked, env, b.next, mid, keeps, tgts, ar)
    requires Ends(w.plane, c, mid, base, tgts, o) && (o.Next? ==> |o.ls| == env.clocals)
    ensures Ends(w.plane, c, mid + Size(env, b.next, keeps), base, tgts, Then(w.fs, o, b, ar, fuel))
    decreases fuel, 1, b, 0
  {
    hide At, Gen, Size, Reaches, Rep, Below, CalleesIn, Linked, WorldOk, Supported, BodyOk, Eval;
    var end := mid + Size(env, b.next, keeps);
    if o.Next? {
      var c1 :| Reaches(w.plane, c, c1) && c1.pc == mid && Rep(c1, base, o.vs, o.ls) && Preserves(c, c1, base);
      SimBody(w, linked, env, b.next, keeps, tgts, ar, c1, base, o.vs, o.ls, fuel);
      EndsAfter(w.plane, c, c1, end, base, tgts, Eval(w.fs, b.next, ar, o.vs, o.ls, fuel));
    } else {
      EndsElsewhere(w.plane, c, mid, end, base, tgts, o);
    }
  }

  /** An arm inside its frame. */
  lemma SimArm(w: World, linked: set<nat>, env: Env, arm: Body, k: bool, n: nat, l: nat, keeps: seq<bool>, tgts: seq<nat>, ar: seq<nat>,
               c: Cpu, c1: Cpu, base: int, ls: seq<Value>, fuel: nat)
    requires Setting(w, linked, env, keeps, tgts, ar, c) && n <= 1
    requires c1.rs == [base] + c.rs && CodeAt(w, linked, env, arm, c1.pc, [k] + keeps, [l] + tgts, [n] + ar)
    requires Rep(c1, base, [], ls) && |ls| == env.clocals
    ensures var o := Eval(w.fs, arm, [n] + ar, [], ls, fuel);
      && Ends(w.plane, c1, c1.pc + Size(env, arm, [k] + keeps), base, [l] + tgts, o)
      && (o.Next? || o.Branch? ==> |o.ls| == |ls|)
      && (o.Branch? ==> o.depth <= |tgts| && (o.depth == 0 ==> |o.results| == n))
    decreases fuel, 1, arm, 4
  {
    hide At, Gen, Size, Reaches, Rep, Below, CalleesIn, Linked, WorldOk, Supported, BodyOk, Eval, CodeAt, Ends;
    SimBody(w, linked, env, arm, [k] + keeps, [l] + tgts, [n] + ar, c1, base, [], ls, fuel);
  }

  lemma SimBlock(w: World, linked: set<nat>, env: Env, b: Body, keeps: seq<bool>, tgts: seq<nat>, ar: seq<nat>,
                 c: Cpu, base: int, vs: seq<Value>, ls: seq<Value>, fuel: nat)
    requires b.Block? && Setting(w, linked, env, keeps, tgts, ar, c) && CodeAt(w, linked, env, b, c.pc, keeps, tgts, ar)
    requires Rep(c, base, vs, ls) && |ls| == env.clocals
    ensures BodyOk(env, b, |keeps|) && Ends(w.plane, c, EndOf(env, b, c.pc, keeps), base, tgts, EvalFirst(w.fs, b, ar, vs, ls, fuel))
    decreases fuel, 1, b, 1
  {
    hide At, Gen, Size, Reaches, Rep, Below, CalleesIn, Linked, WorldOk, OutcomeOk, Inner, InnerSize, EndOf, CloseSize, Close,
         Ends, Spilled, Enter, Dbg, Keep, BodyOk, CodeAt, Exit;
    var p := c.pc;
    CodeAtSupported(w, linked, env, b, p, keeps, tgts, ar);
    NestedParts(w, linked, env, b, p, keeps, tgts, ar);
    InnerPartsAt(w, linked, env, b, p, keeps, tgts, ar);
    var e := EndOf(env, b, p, keeps);
    AtSplit(w.plane, p, Dbg(BLOCK), Enter());
    RunDbg(w.plane, BLOCK, c);
    var c0 := c.(pc := p + 7);
    StepPc(c, c0, base, vs, ls);
    var c1 := EnterArm(w.plane, c0, base, vs, ls);
    SimArm(w, linked, env, b.body, Keep(b.bt), Arity(b.bt), e, keeps, tgts, ar, c, c1, base + |vs| + 1, ls, fuel);
    var o := Eval(w.fs, b.body, [Arity(b.bt)] + ar, [], ls, fuel);
    FinishArm(w.plane, c0, c1, e - CloseSize(Keep(b.bt)), base, vs, tgts, e, o, b.bt);
    EndsAfter(w.plane, c, c0, e, base, tgts, Exit(o, Arity(b.bt), vs));
  }

  lemma CodeAtSupported(w: World, linked: set<nat>, env: Env, b: Body, p: int, keeps: seq<bool>, tgts: seq<nat>, ar: seq<nat>)
    requires |tgts| == |keeps| == |ar| && CodeAt(w, linked, env, b, p, keeps, tgts, ar)
    ensures Supported(b, keeps, ar) && BodyOk(env, b, |keeps|) && p >= 0
  {
  }

  lemma StepPc(c: Cpu, c0: Cpu, b: int, vs: seq<Value>, ls: seq<Value>)
    requires Rep(c, b, vs, ls) && c0 == c.(pc := c0.pc)
    ensures Rep(c0, b, vs, ls) && Preserves(c, c0, b)
  {
  }

  lemma SimLoopAt(w: World, linked: set<nat>, env: Env, b: Body, keeps: seq<bool>, tgts: seq<nat>, ar: seq<nat>,
                  c: Cpu, base: int, vs: seq<Value>, ls: seq<Value>, fuel: nat)
    requires b.Loop? && Setting(w, linked, env, keeps, tgts, ar, c) && CodeAt(w, linked, env, b, c.pc, keeps, tgts, ar)
    requires Rep(c, base, vs, ls) && |ls| == env.clocals
    ensures BodyOk(env, b, |keeps|) && Ends(w.plane, c, EndOf(env, b, c.pc, keeps), base, tgts, EvalFirst(w.fs, b, ar, vs, ls, fuel))
    decreases fuel, 1, b, 1
  {
    hide At, Gen, Size, Reaches, Rep, Below, CalleesIn, Linked, WorldOk, OutcomeOk, Inner, InnerSize, EndOf, CloseSize, Close,
         Ends, Spilled, Enter, Dbg, Keep, BodyOk, CodeAt, Exit, EvalLoop;
    var p := c.pc;
    CodeAtSupported(w, linked, env, b, p, keeps, tgts, ar);
    NestedParts(w, linked, env, b, p, keeps, tgts, ar);
    AtSplit(w.plane, p, Dbg(LOOP), Enter());
    RunDbg(w.plane, LOOP, c);
    var c0 := c.(pc := p + 7);
    StepPc(c, c0, base, vs, ls);
    SimLoop(w, linked, env, b, p, keeps, tgts, ar, c0, base, vs, ls, fuel);
    var o := EvalLoop(w.fs, b, ar, vs, ls, fuel);
    EndsAfter(w.plane, c, c0, EndOf(env, b, p, keeps), base, tgts, o);
  }

  /** From a loop's head: every branch back is another iteration of the interpreter's. */
  lemma SimLoop(w: World, linked: set<nat>, env: Env, b: Body, p: nat, keeps: seq<bool>, tgts: seq<nat>, ar: seq<nat>,
                c: Cpu, base: int, vs: seq<Value>, ls: seq<Value>, fuel: nat)
    requires b.Loop? && Setting(w, linked, env, keeps, tgts, ar, c) && BodyOk(env, b, |keeps|) && Supported(b, keeps, ar)
    requires c.pc == p + 7 && At(w.plane, p + 7, Enter()) && CalleesIn(w, linked, BodyCalls(b.body))
    requires At(w.plane, p + HeadSize(b), Inner(env, b, p, keeps, Somes(tgts), Somes(tgts), Some(p + 7), Some(p + 7)))
    requires Rep(c, base, vs, ls) && |ls| == env.clocals
    ensures Ends(w.plane, c, EndOf(env, b, p, keeps), base, tgts, EvalLoop(w.fs, b, ar, vs, ls, fuel))
    decreases fuel, 1, b, 0
  {
    hide At, Gen, Size, Reaches, Rep, Below, CalleesIn, Linked, WorldOk, OutcomeOk, Inner, InnerSize, EndOf, CloseSize, Close,
         Ends, Spilled, Enter, Keep, BodyOk, CodeAt, Exit, Supported, Eval;
    ArmsOk(env, b, |keeps|);
    InnerPartsAt(w, linked, env, b, p, keeps, tgts, ar);
    var e := EndOf(env, b, p, keeps);
    var c1 := EnterArm(w.plane, c, base, vs, ls);
    SimArm(w, linked, env, b.body, Keep(b.bt), 0, p + 7, keeps, tgts, ar, c, c1, base + |vs| + 1, ls, fuel);
    var o := Eval(w.fs, b.body, [0] + ar, [], ls, fuel);
    var close := e - CloseSize(Keep(b.bt));
    if o.Branch? && o.depth == 0 {
      if fuel == 0 {
        EndsStuck(w.plane, c, e, base, tgts);
      } else {
        var c2 := LoopBack(w.plane, c, c1, close, base, vs, tgts, p + 7, o);
        SimLoop(w, linked, env, b, p, keeps, tgts, ar, c2, base, vs, o.ls, fuel - 1);
        EndsAfter(w.plane, c, c2, e, base, tgts, EvalLoop(w.fs, b, ar, vs, o.ls, fuel - 1));
      }
    } else {
      FinishArm(w.plane, c, c1, close, base, vs, tgts, p + 7, o, b.bt);
    }
  }

  lemma SimIf(w: World, linked: set<nat>, env: Env, b: Body, keeps: seq<bool>, tgts: seq<nat>, ar: seq<nat>,
              c: Cpu, base: int, vs: seq<Value>, ls: seq<Value>, fuel: nat)
    requires b.If? && Setting(w, linked, env, keeps, tgts, ar, c) && CodeAt(w, linked, env, b, c.pc, keeps, tgts, ar)
    requires Rep(c, base, vs, ls) && |ls| == env.clocals
    ensures BodyOk(env, b, |keeps|) && Ends(w.plane, c, EndOf(env, b, c.pc, keeps), base, tgts, EvalFirst(w.fs, b, ar, vs, ls, fuel))
    decreases fuel, 1, b, 1
  {
    hide At, Gen, Size, Reaches, Rep, Below, CalleesIn, Linked, WorldOk, OutcomeOk, Inner, InnerSize, EndOf, CloseSize, Close,
         Ends, Spilled, Enter, Dbg, Keep, BodyOk, CodeAt, Exit, IfTest, JzCode;
    var p := c.pc;
    CodeAtSupported(w, linked, env, b, p, keeps, tgts, ar);
    if |vs| < 1 || Last(vs).w != W32 || Arity(b.bt) != 0 {
      EndsStuck(w.plane, c, EndOf(env, b, p, keeps), base, tgts);
    } else {
      NestedParts(w, linked, env, b, p, keeps, tgts, ar);
      InnerPartsAt(w, linked, env, b, p, keeps, tgts, ar);
      var e, us := EndOf(env, b, p, keeps), Pop(vs, 1);
      AtSplit(w.plane, p, Dbg(IF) + Asm(IfTest()) + JzCode(e - (p + 13 + |Asm(IfTest())|)), Enter());
      var c0 := RunIfHead(w.plane, c, e, base, vs, ls);
      if Last(vs).n == 0 {
        EndsNow(w.plane, c, c0, base, tgts, us, ls);
      } else {
        var c1 := EnterArm(w.plane, c0, base, us, ls);
        SimArm(w, linked, env, b.body, Keep(b.bt), 0, e, keeps, tgts, ar, c0, c1, base + |us| + 1, ls, fuel);
        var o := Eval(w.fs, b.body, [0] + ar, [], ls, fuel);
        FinishArm(w.plane, c0, c1, e - CloseSize(Keep(b.bt)), base, us, tgts, e, o, b.bt);
        EndsAfter(w.plane, c, c0, e, base, tgts, Exit(o, 0, us));
      }
    }
  }

  lemma SimIfElse(w: World, linked: set<nat>, env: Env, b: Body, keeps: seq<bool>, tgts: seq<nat>, ar: seq<nat>,
                  c: Cpu, base: int, vs: seq<Value>, ls: seq<Value>, fuel: nat)
    requires b.IfElse? && Setting(w, linked, env, keeps, tgts, ar, c) && CodeAt(w, linked, env, b, c.pc, keeps, tgts, ar)
    requires Rep(c, base, vs, ls) && |ls| == env.clocals
    ensures BodyOk(env, b, |keeps|) && Ends(w.plane, c, EndOf(env, b, c.pc, keeps), base, tgts, EvalFirst(w.fs, b, ar, vs, ls, fuel))
    decreases fuel, 1, b, 1
  {
    hide At, Gen, Size, Reaches, Rep, Below, CalleesIn, Linked, WorldOk, OutcomeOk, Inner, InnerSize, EndOf, CloseSize, Close,
         Ends, Spilled, Enter, Dbg, BodyOk, CodeAt, Exit, IfTest, JzCode, ElseSize, ElseCode, Eval, EvalLoop, EvalAtom, NoFall;
    var p := c.pc;
    CodeAtSupported(w, linked, env, b, p, keeps, tgts, ar);
    if |vs| < 1 || Last(vs).w != W32 {
      EndsStuck(w.plane, c, EndOf(env, b, p, keeps), base, tgts);
    } else {
      NestedParts(w, linked, env, b, p, keeps, tgts, ar);
      InnerPartsAt(w, linked, env, b, p, keeps, tgts, ar);
      ElsePartsAt(w, linked, env, b, p, keeps, tgts, ar);
      var e, us, other, n := EndOf(env, b, p, keeps), Pop(vs, 1), OtherOf(env, b, p, keeps), Arity(b.bt);
      AtSplit(w.plane, p, Dbg(IF) + Asm(IfTest()) + JzCode(other - (p + 13 + |Asm(IfTest())|)), Enter());
      var c0 := RunIfHead(w.plane, c, other, base, vs, ls);
      var arm := if Last(vs).n != 0 then b.body else b.els;
      var o := Eval(w.fs, arm, [n] + ar, [], ls, fuel);
      if Last(vs).n != 0 {
        ArmsOk(env, b, |keeps|);
        SimThenArm(w, linked, env, b, p, e, keeps, tgts, ar, c0, base, us, ls, fuel);
      } else {
        ElseAt(w.plane, other - ElseSize(), Some(e));
        var c1 := EnterArm(w.plane, c0, base, us, ls);
        SimArm(w, linked, env, b.els, Keep(b.bt), n, e, keeps, tgts, ar, c0, c1, base + |us| + 1, ls, fuel);
        FinishArm(w.plane, c0, c1, e - CloseSize(Keep(b.bt)), base, us, tgts, e, o, b.bt);
      }
      EndsAfter(w.plane, c, c0, e, base, tgts, Exit(o, n, us));
    }
  }

  /** The then-arm of an if with an else-arm. */
  lemma SimThenArm(w: World, linked: set<nat>, env: Env, b: Body, p: nat, e: nat, keeps: seq<bool>, tgts: seq<nat>, ar: seq<nat>,
                   c0: Cpu, base: int, us: seq<Value>, ls: seq<Value>, fuel: nat)
    requires b.IfElse? && Setting(w, linked, env, keeps, tgts, ar, c0) && BodyOk(env, b, |keeps|) && BodyOk(env, b.body, |keeps| + 1)
    requires Keep(b.bt) || NoFall(b.body)
    requires var k := [Keep(b.bt)] + keeps;
      var q := p + HeadSize(b) + Size(env, b.body, k);
      && c0.pc == p + HeadSize(b) - |Enter()| && At(w.plane, c0.pc, Enter())
      && CodeAt(w, linked, env, b.body, p + HeadSize(b), k, [e] + tgts, [Arity(b.bt)] + ar)
      && At(w.plane, q, ElseCode(q, Some(e)))
    requires Rep(c0, base, us, ls) && |ls| == env.clocals
    ensures Ends(w.plane, c0, e, base, tgts, Exit(Eval(w.fs, b.body, [Arity(b.bt)] + ar, [], ls, fuel), Arity(b.bt), us))
    decreases fuel, 1, b, 0
  {
    hide At, Gen, Size, HeadSize, Reaches, Rep, Below, CalleesIn, Linked, WorldOk, OutcomeOk, Ends, Spilled, Enter, BodyOk, CodeAt, ElseCode, NoFall, Supported, Eval;
    var n := Arity(b.bt);
    var q := p + HeadSize(b) + Size(env, b.body, [Keep(b.bt)] + keeps);
    var c1 := EnterArm(w.plane, c0, base, us, ls);
    SimArm(w, linked, env, b.body, Keep(b.bt), n, e, keeps, tgts, ar, c0, c1, base + |us| + 1, ls, fuel);
    var o := Eval(w.fs, b.body, [n] + ar, [], ls, fuel);
    if o.Next? {
      if !Keep(b.bt) {
        NoFallNeverEnds(w.fs, b.body, [n] + ar, [], ls, fuel);
      } else if |o.vs| == 1 {
        ElseArm(w.plane, c0, c1, q, e, base, us, tgts, e, o);
      } else {
        EndsStuck(w.plane, c0, e, base, tgts);
      }
    } else {
      LiftArm(w.plane, c0, c1, q, e, base, us, tgts, e, o, n);
    }
  }

  // ---------- instructions ----------

  lemma SimAtom(w: World, linked: set<nat>, env: Env, a: Atom, keeps: seq<bool>, tgts: seq<nat>, ar: seq<nat>,
                c: Cpu, base: int, vs: seq<Value>, ls: seq<Value>, fuel: nat)
    requires Setting(w, linked, env, keeps, tgts, ar, c) && AtomAt(w, linked, env, a, c.pc, keeps, tgts, ar)
    requires Rep(c, base, vs, ls) && |ls| == env.clocals
    ensures Ends(w.plane, c, c.pc + AtomSize(env, a, keeps), base, tgts, EvalAtom(w.fs, a, ar, vs, ls, fuel))
    ensures var o := EvalAtom(w.fs, a, ar, vs, ls, fuel);
      o.Next? ==> |o.ls| == |ls|
    decreases fuel, 0, 1
  {
    hide At, Asm, Cells, Reaches, Rep, Below, Ends, CalleesIn, Linked, EvalOp, OpCode, FlagOk, LeaveCode, JumpCode, JzCode, BrIfTest,
         TableHead, Entry, Entries, CallSetup, CallCleanup, BranchTableSlot, Invoke;
    var end := c.pc + AtomSize(env, a, keeps);
    match a
    case Plain(op) =>
      SimOp(op, c, base, vs, ls);
      SimCode(w.plane, OpCode(op), c, base, tgts, EvalOp(op, vs, ls));
    case Br(d) => SimBr(w, linked, env, a, keeps, tgts, ar, c, base, vs, ls, fuel);
    case BrIf(d) => SimBr(w, linked, env, a, keeps, tgts, ar, c, base, vs, ls, fuel);
    case BrTable(ts, d) => SimTable(w, linked, env, a, keeps, tgts, ar, c, base, vs, ls, fuel);
    case Return =>
      if Last(ar) <= |vs| {
        SimReturn(w.plane, c, end, base, vs, ls, |keeps|, tgts, Top(vs, Last(ar)));
      } else {
        EndsStuck(w.plane, c, end, base, tgts);
      }
    case Call(f) => SimCall(w, linked, env, f, keeps, tgts, ar, c, base, vs, ls, fuel);
  }

  lemma SimBr(w: World, linked: set<nat>, env: Env, a: Atom, keeps: seq<bool>, tgts: seq<nat>, ar: seq<nat>,
              c: Cpu, base: int, vs: seq<Value>, ls: seq<Value>, fuel: nat)
    requires a.Br? || a.BrIf?
    requires Setting(w, linked, env, keeps, tgts, ar, c) && AtomAt(w, linked, env, a, c.pc, keeps, tgts, ar)
    requires Rep(c, base, vs, ls) && |ls| == env.clocals
    ensures Ends(w.plane, c, c.pc + AtomSize(env, a, keeps), base, tgts, EvalAtom(w.fs, a, ar, vs, ls, fuel))
  {
    hide At, Asm, Reaches, Rep, Below, Ends, CalleesIn, Linked, FlagOk, LeaveCode, JumpCode, JzCode, BrIfTest, WorldOk;
    var end := c.pc + AtomSize(env, a, keeps);
    var d := a.depth;
    EndsStuck(w.plane, c, end, base, tgts);
    if a.Br? {
      if ar[d] <= |vs| {
        SimBranch(w.plane, c, end, base, vs, ls, d, keeps[d], tgts, ar);
      }
    } else if |vs| >= 1 && Last(vs).w == W32 && (Last(vs).n != 0 ==> ar[d] <= |vs| - 1) {
      SimBrIf(w.plane, c, base, vs, ls, d, keeps[d], tgts, ar);
    }
  }

  lemma SimTable(w: World, linked: set<nat>, env: Env, a: Atom, keeps: seq<bool>, tgts: seq<nat>, ar: seq<nat>,
                 c: Cpu, base: int, vs: seq<Value>, ls: seq<Value>, fuel: nat)
    requires a.BrTable?
    requires Setting(w, linked, env, keeps, tgts, ar, c) && AtomAt(w, linked, env, a, c.pc, keeps, tgts, ar)
    requires Rep(c, base, vs, ls) && |ls| == env.clocals
    ensures Ends(w.plane, c, c.pc + AtomSize(env, a, keeps), base, tgts, EvalAtom(w.fs, a, ar, vs, ls, fuel))
  {
    hide At, Reaches, Rep, Below, Ends, CalleesIn, Linked, TableHead, Entry, Entries, FlagOk;
    var end := c.pc + AtomSize(env, a, keeps);
    EndsStuck(w.plane, c, end, base, tgts);
    if |vs| >= 1 && Last(vs).w == W32 {
      var k := Selected(a.targets, a.default, Last(vs).n);
      assert k < |ar| && ar[k] <= 1 && FlagOk(keeps[a.default], k, ar);
      if ar[k] <= |vs| - 1 {
        SimBrTable(w.plane, env, c, end, base, vs, ls, a.targets, a.default, keeps[a.default], tgts, ar);
      }
    }
  }

  lemma InvokeArity(fs: seq<Func>, f: nat, args: seq<Value>, fuel: nat)
    requires f < |fs| && fs[f].Defined?
    ensures var o := Invoke(fs, f, args, fuel);
      (o.Returned? ==> |o.results| == fs[f].arity) && !o.Next? && !o.Branch?
  {
    hide Eval;
  }

  /** A direct call, given that the callee's code does what the interpreter does. */
  lemma SimCall(w: World, linked: set<nat>, env: Env, f: U32, keeps: seq<bool>, tgts: seq<nat>, ar: seq<nat>,
                c: Cpu, base: int, vs: seq<Value>, ls: seq<Value>, fuel: nat)
    requires Setting(w, linked, env, keeps, tgts, ar, c) && AtomAt(w, linked, env, Call(f), c.pc, keeps, tgts, ar)
    requires Rep(c, base, vs, ls) && |ls| == env.clocals
    ensures Ends(w.plane, c, c.pc + AtomSize(env, Call(f), keeps), base, tgts, EvalAtom(w.fs, Call(f), ar, vs, ls, fuel))
    decreases fuel, 0, 0
  {
    hide At, Asm, Cells, Reaches, Rep, Below, Ends, CallSetup, CallCleanup, Invoke, AtCall, CallEnds, BodyOk, Supported, GenFn, WorldOk, Linked, CalleesIn, Locals,
         GenAtom, OutcomeOk;
    var end := c.pc + AtomSize(env, Call(f), keeps);
    EndsStuck(w.plane, c, end, base, tgts);
    CalleeOf(w, linked, f);
    if w.fs[f].Defined? && |vs| >= w.fs[f].cparams && fuel > 0 {
      var n := w.fs[f].cparams;
      SigOf(w, f);
      var s1, s2 := CallSetup(env, f), CallCleanup(env, f);
      CallParts(w, linked, env, f, keeps, tgts, ar, c.pc);
      var c2, c3 := ReachCallee(w, env, f, c, base, vs, ls);
      SimFn(w, linked, f, c3, Top(vs, n), fuel - 1);
      InvokeArity(w.fs, f, Top(vs, n), fuel - 1);
      CallBack(w, env, f, keeps, tgts, c, c2, c3, base, vs, ls, Invoke(w.fs, f, Top(vs, n), fuel - 1));
    }
  }

  lemma CallParts(w: World, linked: set<nat>, env: Env, f: U32, keeps: seq<bool>, tgts: seq<nat>, ar: seq<nat>, p: int)
    requires |tgts| == |keeps| == |ar| && AtomAt(w, linked, env, Call(f), p, keeps, tgts, ar) && f < |env.sigs|
    ensures f < |env.sigs| && AtomOk(env, Call(f), |keeps|)
    ensures var s1, s2 := CallSetup(env, f), CallCleanup(env, f);
      var q := p + |Asm(s1)|;
      && At(w.plane, p, Asm(s1)) && At(w.plane, q, Cells(J(CallTable(8 * f - (q + 6))))) && At(w.plane, q + 6, Asm(s2))
      && AtomSize(env, Call(f), keeps) == |Asm(s1)| + 6 + |Asm(s2)|
  {
    hide At, Asm, CallSetup, CallCleanup, CalleesIn, Cells, GenAtom, AtomSize, AtomOk, AtomSupported;
    var s1, s2 := CallSetup(env, f), CallCleanup(env, f);
    GenCall(env, f, p, keeps, Somes(tgts), Somes(tgts));
    AtSplit3(w.plane, p, Asm(s1), Cells(J(CallTable(8 * f - (p + |Asm(s1)| + 6)))), Asm(s2));
  }

  lemma SigOf(w: World, f: nat)
    requires WorldOk(w) && f < |w.fs| && w.fs[f].Defined?
    ensures f >= w.imports && w.fs[f].arity <= 1 && f < |w.sigs| && w.sigs[f] == Sig(w.fs[f].cparams, w.fs[f].arity == 1)
  {
  }

  /** From a call instruction's code to the callee's entry. */
  lemma ReachCallee(w: World, env: Env, f: nat, c: Cpu, base: int, vs: seq<Value>, ls: seq<Value>) returns (c2: Cpu, c3: Cpu)
    requires f < |env.sigs| && f >= env.imports && Rep(c, base, vs, ls) && env.sigs[f].cparams <= |vs|
    requires At(w.plane, c.pc, Asm(CallSetup(env, f)))
    requires var q := c.pc + |Asm(CallSetup(env, f))|;
      At(w.plane, q, Cells(J(CallTable(8 * f - (q + 6)))))
    requires 8 * f < |w.plane| && w.plane[8 * f].Ptr? && w.plane[8 * f].a != 0
    ensures c2.pc == c.pc + |Asm(CallSetup(env, f))| && AtCall(env, c, c2, base, vs, ls, env.sigs[f].cparams)
    ensures c3 == c2.(pc := w.plane[8 * f].a, rs := [c2.pc + 6] + c2.rs)
    ensures Reaches(w.plane, c, c3) && Locals(c3, Top(vs, env.sigs[f].cparams))
  {
    hide At, Asm, Cells, Reaches, Rep, CallSetup, Exec, AtCall, Locals;
    var n := env.sigs[f].cparams;
    var c1 := ExecCallSetup(env, f, c, base, vs, ls);
    RunCode(w.plane, CallSetup(env, f), c, c1);
    c2 := c1.(pc := c.pc + |Asm(CallSetup(env, f))|);
    RunCallTable(w.plane, c2, f);
    c3 := c2.(pc := w.plane[8 * f].a, rs := [c2.pc + 6] + c2.rs);
    ReachesTrans(w.plane, c, c2, c3);
    AtCallPc(env, c, c1, c2, base, vs, ls, n);
    ArgsThere(env, c, c2, c3, base, vs, ls, n);
  }

  lemma CalleeOf(w: World, linked: set<nat>, f: U32)
    requires CalleesIn(w, linked, CallsOf(Call(f))) && Linked(w, linked)
    ensures f < |w.fs| && (w.fs[f].Defined? ==> f in linked && Ready(w, f))
  {
    hide BodyOk, Supported, GenFn, At;
    assert CallsOf(Call(f))[0] == f;
  }

  lemma AtCallPc(env: Env, c: Cpu, c1: Cpu, c2: Cpu, b: int, vs: seq<Value>, ls: seq<Value>, n: nat)
    requires n <= |vs| && AtCall(env, c, c1, b, vs, ls, n) && c2 == c1.(pc := c2.pc)
    ensures AtCall(env, c, c2, b, vs, ls, n)
  {
  }

  lemma ArgsThere(env: Env, c: Cpu, c2: Cpu, c3: Cpu, b: int, vs: seq<Value>, ls: seq<Value>, n: nat)
    requires n <= |vs| && AtCall(env, c, c2, b, vs, ls, n) && c3 == c2.(pc := c3.pc, rs := c3.rs)
    ensures Locals(c3, Top(vs, n))
  {
  }

  /** From the callee's ending to the caller's next instruction. */
  lemma CallBack(w: World, env: Env, f: nat, keeps: seq<bool>, tgts: seq<nat>, c: Cpu, c2: Cpu, c3: Cpu,
                 base: int, vs: seq<Value>, ls: seq<Value>, o: Outcome)
    requires f < |env.sigs| && env.sigs[f].cparams <= |vs| && Rep(c, base, vs, ls) && |ls| == env.clocals
    requires Reaches(w.plane, c, c3) && AtCall(env, c, c2, base, vs, ls, env.sigs[f].cparams)
    requires c3 == c2.(pc := c3.pc, rs := [c2.pc + 6] + c2.rs) && CallEnds(w.plane, c3, o)
    requires At(w.plane, c2.pc + 6, Asm(CallCleanup(env, f)))
    requires (o.Returned? ==> |o.results| <= 1 && env.sigs[f].hasReturn == (|o.results| == 1)) && !o.Next? && !o.Branch?
    ensures Ends(w.plane, c, c2.pc + 6 + |Asm(CallCleanup(env, f))|, base, tgts,
                 match o case Returned(rs) => Next(Pop(vs, env.sigs[f].cparams) + rs, ls)
                         case Trapped => Trapped case NoFuel => NoFuel case _ => Stuck)
  {
    hide At, Asm, Reaches, Rep, Below, CallCleanup, Exec, AtCall, Faults, InRax;
    var n := env.sigs[f].cparams;
    match o
    case Returned(rs) =>
      var c4 :| Reaches(w.plane, c3, c4) && Gone(c3, c4, c3.rdi, 0, rs);
      assert c4.rs == c2.rs && c4.pc == c2.pc + 6;
      assert |c4.rs| > 0 by { AtCallStack(env, c, c2, base, vs, ls, n); }
      var c5 := ExecCallCleanup(env, f, c4);
      RunCode(w.plane, CallCleanup(env, f), c4, c5);
      var c6 := c5.(pc := c4.pc + |Asm(CallCleanup(env, f))|);
      ReachesTrans(w.plane, c, c3, c4);
      ReachesTrans(w.plane, c, c4, c6);
      AfterCall(env, c, c2, c3, c4, c6, base, vs, ls, n, rs, env.sigs[f].hasReturn);
      EndsNow(w.plane, c, c6, base, tgts, Pop(vs, n) + rs, ls);
    case Trapped => ReachesFault(w.plane, c, c3);
    case _ =>
  }

  lemma AtCallStack(env: Env, c: Cpu, c2: Cpu, b: int, vs: seq<Value>, ls: seq<Value>, n: nat)
    requires n <= |vs| && AtCall(env, c, c2, b, vs, ls, n)
    ensures |c2.rs| > 0
  {
  }

  /** A linked function, entered with its arguments in its first locals, returns what the interpreter
      returns, to the caller's address, with everything of the caller's as it was. */
  lemma SimFn(w: World, linked: set<nat>, f: nat, c: Cpu, args: seq<Value>, fuel: nat)
    requires WorldOk(w) && Linked(w, linked) && f in linked && Ready(w, f)
    requires c.pc == w.plane[8 * f].a && |c.rs| > 0 && Locals(c, args) && |args| == w.fs[f].cparams
    ensures CallEnds(w.plane, c, Invoke(w.fs, f, args, fuel))
    decreases fuel, 2
  {
    hide At, Gen, GenFn, FnEnd, Reaches, Rep, Below, Ends, CalleesIn, BodyOk, Supported, Prologue, Close, Cells, CloseSize, Size, Eval, CallEnds, Locals, Laid;
    var env, fn := FnEnv(w, f), w.fs[f];
    var ls := args + Zeros(fn.locals);
    var p1 := c.pc + |Prologue(env, fn.cparams)|;
    var close := p1 + Size(env, fn.body, [true]);
    var l := close + CloseSize(true);
    LaidFn(w.plane, env, fn.cparams, fn.body, c.pc);
    var c1 := RunPrologue(w.plane, env, c, args, fn.locals);
    LinkedCallees(w, linked, f);
    SimBody(w, linked, env, fn.body, [true], [l], [fn.arity], c1, c.rdi + 1, [], ls, fuel);
    FnEnds(w.plane, c, c1, close, Eval(w.fs, fn.body, [fn.arity], [], ls, fuel), fn.arity);
  }

  lemma LinkedCallees(w: World, linked: set<nat>, f: nat)
    requires Linked(w, linked) && f in linked
    ensures f < |w.fs| && w.fs[f].Defined? && CalleesIn(w, linked, BodyCalls(w.fs[f].body))
  {
    hide CalleesIn, At, BodyOk, Supported, GenFn;
  }
}
