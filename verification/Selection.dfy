/** Describing only some of a module's functions: what a run does without the others, it does. */
module Selection {
  import opened Wasm
  import opened Fragment

  /** fs' leaves out some of the functions of fs. */
  predicate PartOf(fs': seq<Func>, fs: seq<Func>) {
    |fs'| == |fs| && forall f :: 0 <= f < |fs| ==> fs'[f].Import? || fs'[f] == fs[f]
  }

  /** The functions whose code means what their bodies do. */
  function SupportedOnly(fs: seq<Func>): (r: seq<Func>)
    ensures PartOf(r, fs)
    ensures forall f :: 0 <= f < |fs| && r[f].Defined? ==> Supported(r[f].body, [true], [r[f].arity])
  {
    seq(|fs|, f requires 0 <= f < |fs| =>
      if fs[f].Defined? && Supported(fs[f].body, [true], [fs[f].arity]) then fs[f] else Import)
  }

  /** A run that does not need the functions left out is the same run. */
  lemma {:induction false} PartInvoke(fs': seq<Func>, fs: seq<Func>, f: nat, args: seq<Value>, fuel: nat)
    requires PartOf(fs', fs) && f < |fs| && fs'[f].Defined? && !Invoke(fs', f, args, fuel).Stuck?
    ensures Invoke(fs, f, args, fuel) == Invoke(fs', f, args, fuel)
    decreases fuel, 2, 0
  {
    hide Eval;
    PartEval(fs', fs, fs[f].body, [fs[f].arity], [], args + Zeros(fs[f].locals), fuel);
  }

  lemma {:induction false} PartEval(fs': seq<Func>, fs: seq<Func>, b: Body, ar: seq<nat>, vs: seq<Value>, ls: seq<Value>, fuel: nat)
    requires PartOf(fs', fs) && !Eval(fs', b, ar, vs, ls, fuel).Stuck?
    ensures Eval(fs, b, ar, vs, ls, fuel) == Eval(fs', b, ar, vs, ls, fuel)
    decreases fuel, 1, b, 2
  {
    hide EvalFirst, PartOf, OutcomeOk;
    if !b.Done? {
      PartFirst(fs', fs, b, ar, vs, ls, fuel);
      var o := EvalFirst(fs', b, ar, vs, ls, fuel);
      if o.Next? { PartEval(fs', fs, b.next, ar, o.vs, o.ls, fuel); }
    }
  }

  lemma PartFirst(fs': seq<Func>, fs: seq<Func>, b: Body, ar: seq<nat>, vs: seq<Value>, ls: seq<Value>, fuel: nat)
    requires PartOf(fs', fs) && !b.Done? && !EvalFirst(fs', b, ar, vs, ls, fuel).Stuck?
    ensures EvalFirst(fs, b, ar, vs, ls, fuel) == EvalFirst(fs', b, ar, vs, ls, fuel)
    decreases fuel, 1, b, 1
  {
    hide Eval, EvalAtom, EvalLoop, PartOf, OutcomeOk;
    match b
    case Atomic(a, _) => PartAtom(fs', fs, a, ar, vs, ls, fuel);
    case Block(bt, body, _) => PartEval(fs', fs, body, [Arity(bt)] + ar, [], ls, fuel);
    case Loop(_, _, _) => PartLoop(fs', fs, b, ar, vs, ls, fuel);
    case If(bt, thn, _) =>
      if Last(vs).n != 0 { PartEval(fs', fs, thn, [0] + ar, [], ls, fuel); }
    case IfElse(bt, thn, els, _) =>
      PartEval(fs', fs, if Last(vs).n != 0 then thn else els, [Arity(bt)] + ar, [], ls, fuel);
  }

  lemma PartLoop(fs': seq<Func>, fs: seq<Func>, b: Body, ar: seq<nat>, vs: seq<Value>, ls: seq<Value>, fuel: nat)
    requires PartOf(fs', fs) && b.Loop? && !EvalLoop(fs', b, ar, vs, ls, fuel).Stuck?
    ensures EvalLoop(fs, b, ar, vs, ls, fuel) == EvalLoop(fs', b, ar, vs, ls, fuel)
    decreases fuel, 1, b, 0
  {
    hide Eval, PartOf, OutcomeOk;
    PartEval(fs', fs, b.body, [0] + ar, [], ls, fuel);
    var o := Eval(fs', b.body, [0] + ar, [], ls, fuel);
    if o.Branch? && o.depth == 0 && fuel > 0 { PartLoop(fs', fs, b, ar, vs, o.ls, fuel - 1); }
  }

  lemma PartAtom(fs': seq<Func>, fs: seq<Func>, a: Atom, ar: seq<nat>, vs: seq<Value>, ls: seq<Value>, fuel: nat)
    requires PartOf(fs', fs) && !EvalAtom(fs', a, ar, vs, ls, fuel).Stuck?
    ensures EvalAtom(fs, a, ar, vs, ls, fuel) == EvalAtom(fs', a, ar, vs, ls, fuel)
    decreases fuel, 0, 0
  {
    hide Invoke, EvalOp, BranchTo;
    if a.Call? && fuel > 0 {
      assert fs'[a.fn] == fs[a.fn];
      PartInvoke(fs', fs, a.fn, Top(vs, fs[a.fn].cparams), fuel - 1);
    }
  }
}
