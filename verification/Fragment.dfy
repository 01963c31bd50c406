/** The bodies whose meaning the emitted code keeps, and the loaded program they run in. */
module Fragment {
  import opened Words
  import opened Wasm
  import opened X86
  import opened Layout
  import opened ControlSim

  /** A branch uses the carry flag of its label's block type; a branch table uses the default's for
      every target. */
  predicate AtomSupported(a: Atom, keeps: seq<bool>, ar: seq<nat>)
    requires |keeps| == |ar|
  {
    match a
    case Br(d) => d < |ar| ==> FlagOk(keeps[d], d, ar)
    case BrIf(d) => d < |ar| ==> FlagOk(keeps[d], d, ar)
    case BrTable(ts, d) =>
      d < |ar| ==> FlagOk(keeps[d], d, ar) && forall i :: 0 <= i < |ts| && ts[i] < |ar| ==> FlagOk(keeps[d], ts[i], ar)
    case _ => true
  }

  predicate Transfers(a: Atom) {
    a.Br? || a.BrTable? || a.Return? || a == Plain(Unreachable)
  }

  /** The end of b is not reached by falling through. */
  predicate NoFall(b: Body) {
    match b
    case Done => false
    case Atomic(a, next) => Transfers(a) || NoFall(next)
    case _ => NoFall(b.next)
  }

  /** The arity of b's label: a branch to a loop carries nothing. */
  function LabelArity(b: Body): nat
    requires Nested(b)
  {
    if b.Loop? then 0 else Arity(b.bt)
  }

  /** `else` always leaves its block as if it had a result, so a then-arm without one must not reach it. */
  predicate Supported(b: Body, keeps: seq<bool>, ar: seq<nat>)
    requires |keeps| == |ar|
  {
    match b
    case Done => true
    case Atomic(a, next) => AtomSupported(a, keeps, ar) && Supported(next, keeps, ar)
    case IfElse(bt, body, els, next) =>
      && (Keep(bt) || NoFall(body))
      && Supported(body, [Keep(bt)] + keeps, [Arity(bt)] + ar)
      && Supported(els, [Keep(bt)] + keeps, [Arity(bt)] + ar)
      && Supported(next, keeps, ar)
    case _ =>
      && Supported(b.body, [Keep(b.bt)] + keeps, [LabelArity(b)] + ar)
      && Supported(b.next, keeps, ar)
  }

  lemma {:induction false} NoFallNeverEnds(fs: seq<Func>, b: Body, ar: seq<nat>, vs: seq<Value>, ls: seq<Value>, fuel: nat)
    requires NoFall(b)
    ensures !Eval(fs, b, ar, vs, ls, fuel).Next?
    decreases fuel, b
  {
    hide EvalOp, OutcomeOk, BranchTo, Exit;
    if b.Atomic? && Transfers(b.atom) {
      TransferNeverEnds(fs, b.atom, ar, vs, ls, fuel);
    } else {
      forall o: Outcome | o.Next? ensures !Then(fs, o, b, ar, fuel).Next? {
        NoFallNeverEnds(fs, b.next, ar, o.vs, o.ls, fuel);
      }
    }
  }

  lemma TransferNeverEnds(fs: seq<Func>, a: Atom, ar: seq<nat>, vs: seq<Value>, ls: seq<Value>, fuel: nat)
    requires Transfers(a)
    ensures !EvalAtom(fs, a, ar, vs, ls, fuel).Next?
  {
  }

  // ---------- the loaded program ----------

  /** The executable plane, and the module it was compiled from. */
  datatype World = World(plane: seq<Cell>, imports: nat, sigs: seq<Sig>, fs: seq<Func>)

  function FnEnv(w: World, f: nat): Env
    requires f < |w.fs| && w.fs[f].Defined?
  {
    Env(w.imports, w.sigs, w.fs[f].cparams + |w.fs[f].locals|)
  }

  ghost predicate WorldOk(w: World) {
    && |w.plane| < T32 && |w.fs| == |w.sigs|
    && 8 * |w.sigs| + 8 < |w.plane| && w.plane[8 * |w.sigs| + 8] == Extern(BranchTable)
    && forall f :: 0 <= f < |w.fs| && w.fs[f].Defined? ==>
         f >= w.imports && w.fs[f].arity <= 1 && w.sigs[f] == Sig(w.fs[f].cparams, w.fs[f].arity == 1)
  }

  /** Function f is compiled: its table entry points at its code. */
  ghost predicate Present(w: World, f: nat) {
    && f < |w.fs| && w.fs[f].Defined? && 8 * f < |w.plane|
    && w.plane[8 * f].Ptr? && w.plane[8 * f].a != 0
    && BodyOk(FnEnv(w, f), w.fs[f].body, 1)
    && At(w.plane, w.plane[8 * f].a, GenFn(FnEnv(w, f), w.fs[f].cparams, w.fs[f].body, w.plane[8 * f].a))
  }

  /** And its code means what its body does. */
  ghost predicate Ready(w: World, f: nat) {
    Present(w, f) && Supported(w.fs[f].body, [true], [w.fs[f].arity])
  }

  ghost predicate CalleesIn(w: World, linked: set<nat>, calls: seq<nat>) {
    forall i :: 0 <= i < |calls| ==> calls[i] < |w.fs| && (calls[i] in linked || w.fs[calls[i]].Import?)
  }

  /** Every linked function is compiled, and so is everything it calls. */
  ghost predicate Linked(w: World, linked: set<nat>) {
    forall f :: f in linked ==> Ready(w, f) && CalleesIn(w, linked, BodyCalls(w.fs[f].body))
  }
}
