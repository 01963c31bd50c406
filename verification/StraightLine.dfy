/** Straight-line programs: running a list of plain operations. */
module StraightLine {
  import opened Words
  import opened Wasm

  function Straight(ops: seq<Op>, next: Body): Body {
    if |ops| == 0 then next else Atomic(Plain(ops[0]), Straight(ops[1..], next))
  }

  function RunOps(ops: seq<Op>, vs: seq<Value>, ls: seq<Value>): (r: Outcome)
    decreases |ops|
  {
    if |ops| == 0 then Next(vs, ls)
    else
      var o := EvalOp(ops[0], vs, ls);
      if o.Next? then RunOps(ops[1..], o.vs, o.ls) else o
  }

  lemma {:induction false} StraightEval(fs: seq<Func>, ops: seq<Op>, next: Body, ar: seq<nat>, vs: seq<Value>, ls: seq<Value>, fuel: nat)
    requires RunOps(ops, vs, ls).Next?
    ensures var o := RunOps(ops, vs, ls);
      Eval(fs, Straight(ops, next), ar, vs, ls, fuel) == Eval(fs, next, ar, o.vs, o.ls, fuel)
    decreases |ops|
  {
    hide EvalOp, Eval;
    if |ops| > 0 {
      var o := EvalOp(ops[0], vs, ls);
      var b := Straight(ops, next);
      StraightEval(fs, ops[1..], next, ar, o.vs, o.ls, fuel);
      AtomStep(fs, Plain(ops[0]), b.next, ar, vs, ls, fuel);
    }
  }

  lemma AtomStep(fs: seq<Func>, a: Atom, next: Body, ar: seq<nat>, vs: seq<Value>, ls: seq<Value>, fuel: nat)
    ensures var o := EvalAtom(fs, a, ar, vs, ls, fuel);
      Eval(fs, Atomic(a, next), ar, vs, ls, fuel) == if o.Next? then Eval(fs, next, ar, o.vs, o.ls, fuel) else o
  {
    hide EvalAtom;
  }

  /** One step of RunOps. */
  lemma OpsStep(op: Op, ops: seq<Op>, vs: seq<Value>, ls: seq<Value>, vs': seq<Value>, ls': seq<Value>)
    requires EvalOp(op, vs, ls) == Next(vs', ls')
    ensures RunOps([op] + ops, vs, ls) == RunOps(ops, vs', ls')
  {
    hide EvalOp;
    assert ([op] + ops)[1..] == ops;
  }

  lemma GetStep(i: U32, ops: seq<Op>, vs: seq<Value>, ls: seq<Value>)
    requires i < |ls|
    ensures RunOps([GetLocal(i)] + ops, vs, ls) == RunOps(ops, vs + [ls[i]], ls)
  {
    hide RunOps;
    OpsStep(GetLocal(i), ops, vs, ls, vs + [ls[i]], ls);
  }

  lemma SetStep(i: U32, ops: seq<Op>, vs: seq<Value>, v: Value, ls: seq<Value>)
    requires i < |ls|
    ensures RunOps([SetLocal(i)] + ops, vs + [v], ls) == RunOps(ops, vs, ls[i := v])
  {
    hide RunOps;
    assert Pop(vs + [v], 1) == vs;
    OpsStep(SetLocal(i), ops, vs + [v], ls, vs, ls[i := v]);
  }

  lemma PushStep(v: Value, ops: seq<Op>, vs: seq<Value>, ls: seq<Value>)
    ensures RunOps([Const(v)] + ops, vs, ls) == RunOps(ops, vs + [v], ls)
  {
    hide RunOps;
    OpsStep(Const(v), ops, vs, ls, vs + [v], ls);
  }

  lemma DropStep(ops: seq<Op>, vs: seq<Value>, v: Value, ls: seq<Value>)
    ensures RunOps([Drop] + ops, vs + [v], ls) == RunOps(ops, vs, ls)
  {
    hide RunOps;
    assert Pop(vs + [v], 1) == vs;
    OpsStep(Drop, ops, vs + [v], ls, vs, ls);
  }

  lemma OpsDone(vs: seq<Value>, ls: seq<Value>)
    ensures RunOps([], vs, ls) == Next(vs, ls)
  {
  }

  lemma EvalThen(fs: seq<Func>, b: Body, ar: seq<nat>, vs: seq<Value>, ls: seq<Value>, fuel: nat)
    requires !b.Done?
    ensures var o := EvalFirst(fs, b, ar, vs, ls, fuel);
      Eval(fs, b, ar, vs, ls, fuel) == if o.Next? then Eval(fs, b.next, ar, o.vs, o.ls, fuel) else o
  {
    hide EvalFirst;
  }

  lemma DoneStep(fs: seq<Func>, ar: seq<nat>, vs: seq<Value>, ls: seq<Value>, fuel: nat)
    ensures Eval(fs, Done, ar, vs, ls, fuel) == Next(vs, ls)
  {
  }
}
