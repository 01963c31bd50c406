/** Two programs of the specification test fac.wast, recursive and iterative factorial, from their
    instructions to the machine: for every argument, not only the one the test uses. */
module Factorial {
  import opened Words
  import opened Wasm
  import opened X86
  import opened Layout
  import opened LebProofs
  import opened Emitter
  import opened Emission
  import opened Closure
  import opened ControlSim
  import opened Fragment
  import opened EndToEnd
  import opened Encoding
  import opened Runtime
  import opened Selection
  import opened Payloads
  import opened Sizes
  import opened W = WasmContext
  import opened StraightLine

  predicate OpsFine(env: Env, ops: seq<Op>) {
    forall i :: 0 <= i < |ops| ==> OpOk(env, ops[i]) && Readable(OpAtom(Plain(ops[i])))
  }

  lemma {:induction false} StraightFine(env: Env, ops: seq<Op>, next: Body, keeps: seq<bool>, ar: seq<nat>)
    requires OpsFine(env, ops) && |keeps| == |ar|
    requires BodyOk(env, next, |keeps|) && Supported(next, keeps, ar) && ReadableBody(next)
    ensures var b := Straight(ops, next);
      BodyOk(env, b, |keeps|) && Supported(b, keeps, ar) && ReadableBody(b)
    decreases |ops|
  {
    hide OpOk, Readable;
    if |ops| > 0 {
      StraightFine(env, ops[1..], next, keeps, ar);
    }
  }

  // ---------- the programs ----------

  function C64(n: Word): Op { Const(Val(W64, n)) }

  function RecArm(): Body {
    Straight([GetLocal(0), GetLocal(0), C64(1), Bin(W64, Sub)], Atomic(Call(0), Straight([Bin(W64, Mul)], Done)))
  }

  function RecIf(): Body { IfElse(0x7e, Straight([C64(1)], Done), RecArm(), Done) }

  /** fac-rec */
  function Rec(): Func { Defined(1, 1, [], Straight([GetLocal(0), C64(0), Rel(W64, Eq)], RecIf())) }

  function IterArm(): Body {
    Straight([GetLocal(1), GetLocal(2), Bin(W64, Mul), SetLocal(2), GetLocal(1), C64(1), Bin(W64, Sub), SetLocal(1)], Done)
  }

  function IterIf(): Body { IfElse(EMPTY_BLOCK, Atomic(Br(2), Done), IterArm(), Atomic(Br(0), Done)) }

  function IterLoop(): Body { Loop(EMPTY_BLOCK, Straight([GetLocal(1), C64(0), Rel(W64, Eq)], IterIf()), Done) }

  /** fac-iter */
  function Iter(): Func {
    Defined(1, 1, [0x7e, 0x7e],
      Straight([GetLocal(0), SetLocal(1), C64(1), SetLocal(2)], Block(EMPTY_BLOCK, IterLoop(), Straight([GetLocal(2)], Done))))
  }

  function Programs(): (r: seq<Func>)
    ensures forall f :: 0 <= f < |r| ==> r[f].Defined?
  {
    [Rec(), Iter()]
  }

  // ---------- what they compute ----------

  function Fac(n: nat): nat { if n == 0 then 1 else n * Fac(n - 1) }

  function V(n: nat): Value { Val(W64, Lo(W64, n)) }

  /** Only the factors modulo 2^64 matter. */
  lemma LoMul(a: nat, b: nat)
    ensures Lo(W64, a * Lo(W64, b)) == Lo(W64, a * b)
  {
    var m, q, r := 0x1_0000_0000_0000_0000, b / 0x1_0000_0000_0000_0000, b % 0x1_0000_0000_0000_0000;
    var q2, r2 := (a * r) / m, (a * r) % m;
    assert a * b == (a * q) * m + a * r by { assert b == q * m + r; }
    assert a * b == (a * q + q2) * m + r2 by { assert a * r == q2 * m + r2; }
    ModUnique(a * b, m, a * q + q2, r2);
  }

  lemma ConstStep(n: Word, ops: seq<Op>, vs: seq<Value>, ls: seq<Value>)
    ensures RunOps([C64(n)] + ops, vs, ls) == RunOps(ops, vs + [Val(W64, n)], ls)
  {
    hide RunOps;
    PushStep(Val(W64, n), ops, vs, ls);
  }

  lemma BinStep(b: IntOp, ops: seq<Op>, vs: seq<Value>, x: Word, y: Word, r: Word, ls: seq<Value>)
    requires Binop(W64, b, x, y) == Some(r)
    ensures RunOps([Bin(W64, b)] + ops, vs + [Val(W64, x), Val(W64, y)], ls) == RunOps(ops, vs + [Val(W64, r)], ls)
  {
    hide RunOps, Binop;
    assert Pop(vs + [Val(W64, x), Val(W64, y)], 2) == vs;
    OpsStep(Bin(W64, b), ops, vs + [Val(W64, x), Val(W64, y)], ls, vs + [Val(W64, r)], ls);
  }

  lemma EqStep(ops: seq<Op>, vs: seq<Value>, x: Word, y: Word, ls: seq<Value>)
    ensures RunOps([Rel(W64, Eq)] + ops, vs + [Val(W64, x), Val(W64, y)], ls) == RunOps(ops, vs + [Bool(x == y)], ls)
  {
    hide RunOps;
    assert Pop(vs + [Val(W64, x), Val(W64, y)], 2) == vs;
    OpsStep(Rel(W64, Eq), ops, vs + [Val(W64, x), Val(W64, y)], ls, vs + [Bool(x == y)], ls);
  }

  /** local i == 0? */
  lemma TestOps(i: U32, n: Word, ls: seq<Value>)
    requires i < |ls| && ls[i] == Val(W64, n)
    ensures RunOps([GetLocal(i), C64(0), Rel(W64, Eq)], [], ls) == Next([Bool(n == 0)], ls)
  {
    hide RunOps;
    assert [GetLocal(i), C64(0), Rel(W64, Eq)] == [GetLocal(i)] + ([C64(0)] + ([Rel(W64, Eq)] + []));
    GetStep(i, [C64(0)] + ([Rel(W64, Eq)] + []), [], ls);
    assert [] + [ls[i]] == [Val(W64, n)];
    ConstStep(0, [Rel(W64, Eq)] + [], [Val(W64, n)], ls);
    assert [Val(W64, n)] + [Val(W64, 0)] == [] + [Val(W64, n), Val(W64, 0)];
    EqStep([], [], n, 0, ls);
    OpsDone([] + [Bool(n == 0)], ls);
  }

  // ---------- fac-rec ----------

  lemma RecArmOps(n: Word, ls: seq<Value>)
    requires ls == [Val(W64, n)] && n > 0
    ensures RunOps([GetLocal(0), GetLocal(0), C64(1), Bin(W64, Sub)], [], ls) == Next([Val(W64, n), Val(W64, n - 1)], ls)
  {
    hide RunOps;
    var v := Val(W64, n);
    assert [GetLocal(0), GetLocal(0), C64(1), Bin(W64, Sub)] == [GetLocal(0)] + ([GetLocal(0)] + ([C64(1)] + ([Bin(W64, Sub)] + [])));
    GetStep(0, [GetLocal(0)] + ([C64(1)] + ([Bin(W64, Sub)] + [])), [], ls);
    GetStep(0, [C64(1)] + ([Bin(W64, Sub)] + []), [] + [v], ls);
    ConstStep(1, [Bin(W64, Sub)] + [], [] + [v] + [v], ls);
    assert [] + [v] + [v] + [Val(W64, 1)] == [v] + [v, Val(W64, 1)];
    BinStep(Sub, [], [v], n, 1, n - 1, ls);
    OpsDone([v] + [Val(W64, n - 1)], ls);
    assert [v] + [Val(W64, n - 1)] == [v, Val(W64, n - 1)];
  }

  lemma MulOps(x: Word, y: Word, ls: seq<Value>)
    ensures RunOps([Bin(W64, Mul)], [Val(W64, x), Val(W64, y)], ls) == Next([Val(W64, Lo(W64, x * y))], ls)
  {
    hide RunOps;
    assert [Bin(W64, Mul)] == [Bin(W64, Mul)] + [] && [Val(W64, x), Val(W64, y)] == [] + [Val(W64, x), Val(W64, y)];
    BinStep(Mul, [], [], x, y, Lo(W64, x * y), ls);
    OpsDone([] + [Val(W64, Lo(W64, x * y))], ls);
  }

  /** An if with a result, on a lone condition. */
  lemma IfElseStep(fs: seq<Func>, b: Body, ar: seq<nat>, c: bool, ls: seq<Value>, fuel: nat)
    requires b.IfElse?
    ensures var o := Exit(Eval(fs, if c then b.body else b.els, [Arity(b.bt)] + ar, [], ls, fuel), Arity(b.bt), []);
      Eval(fs, b, ar, [Bool(c)], ls, fuel) == if o.Next? then Eval(fs, b.next, ar, o.vs, o.ls, fuel) else o
  {
    hide Eval, Exit;
    assert Pop([Bool(c)], 1) == [];
    EvalThen(fs, b, ar, [Bool(c)], ls, fuel);
  }

  /** The recursive call. */
  lemma CallStep(fs: seq<Func>, ar: seq<nat>, x: Value, y: Value, r: Value, ls: seq<Value>, fuel: nat)
    requires |fs| > 0 && fs[0].Defined? && fs[0].cparams == 1 && fuel > 0
    requires Invoke(fs, 0, [y], fuel - 1) == Returned([r])
    ensures EvalAtom(fs, Call(0), ar, [x, y], ls, fuel) == Next([x, r], ls)
  {
    hide Invoke;
    assert Top([x, y], 1) == [y] && Pop([x, y], 1) == [x];
  }

  lemma RecArmEval(fs: seq<Func>, n: Word, f: Word, ar: seq<nat>, fuel: nat)
    requires |fs| > 0 && fs[0].Defined? && fs[0].cparams == 1 && fuel > 0 && n > 0
    requires Invoke(fs, 0, [Val(W64, n - 1)], fuel - 1) == Returned([Val(W64, f)])
    ensures Eval(fs, RecArm(), ar, [], [Val(W64, n)], fuel) == Next([Val(W64, Lo(W64, n * f))], [Val(W64, n)])
  {
    hide Invoke, Eval, RunOps, EvalAtom, Straight;
    var ls := [Val(W64, n)];
    RecArmOps(n, ls);
    var tail := Straight([Bin(W64, Mul)], Done);
    StraightEval(fs, [GetLocal(0), GetLocal(0), C64(1), Bin(W64, Sub)], Atomic(Call(0), tail), ar, [], ls, fuel);
    CallStep(fs, ar, Val(W64, n), Val(W64, n - 1), Val(W64, f), ls, fuel);
    AtomStep(fs, Call(0), tail, ar, [Val(W64, n), Val(W64, n - 1)], ls, fuel);
    MulOps(n, f, ls);
    StraightEval(fs, [Bin(W64, Mul)], Done, ar, [Val(W64, n), Val(W64, f)], ls, fuel);
    DoneStep(fs, ar, [Val(W64, Lo(W64, n * f))], ls, fuel);
  }

  /** The body of fac-rec, given what its chosen arm leaves. */
  lemma RecBodyEval(fs: seq<Func>, n: Word, r: Value, fuel: nat)
    requires Eval(fs, if n == 0 then Straight([C64(1)], Done) else RecArm(), [1, 1], [], [Val(W64, n)], fuel) == Next([r], [Val(W64, n)])
    ensures Eval(fs, Rec().body, [1], [], [Val(W64, n)], fuel) == Next([r], [Val(W64, n)])
  {
    hide Eval, RunOps, Straight, RecArm;
    var ls := [Val(W64, n)];
    TestOps(0, n, ls);
    StraightEval(fs, [GetLocal(0), C64(0), Rel(W64, Eq)], RecIf(), [1], [], ls, fuel);
    IfElseStep(fs, RecIf(), [1], n == 0, ls, fuel);
    assert [1] + [1] == [1, 1];
    assert [] + [r] == [r];
    DoneStep(fs, [1], [r], ls, fuel);
  }

  lemma OneEval(fs: seq<Func>, ar: seq<nat>, ls: seq<Value>, fuel: nat)
    ensures Eval(fs, Straight([C64(1)], Done), ar, [], ls, fuel) == Next([Val(W64, 1)], ls)
  {
    hide Eval, RunOps, Straight;
    var none: seq<Value> := [];
    assert [C64(1)] == [C64(1)] + [] && none + [Val(W64, 1)] == [Val(W64, 1)];
    ConstStep(1, [], none, ls);
    OpsDone([Val(W64, 1)], ls);
    StraightEval(fs, [C64(1)], Done, ar, [], ls, fuel);
    DoneStep(fs, ar, [Val(W64, 1)], ls, fuel);
  }

  lemma RecInvoke(n: Word, r: Value, fuel: nat)
    requires Eval(Programs(), Rec().body, [1], [], [Val(W64, n)], fuel) == Next([r], [Val(W64, n)])
    ensures Invoke(Programs(), 0, [Val(W64, n)], fuel) == Returned([r])
  {
    hide Eval, Straight, RecIf, Iter;
    assert [Val(W64, n)] + Zeros([]) == [Val(W64, n)];
  }

  /** fac-rec returns n! modulo 2^64, for every n, given fuel for n nested calls. */
  lemma {:induction false} RecComputes(n: Word, fuel: nat)
    requires fuel >= n
    ensures Invoke(Programs(), 0, [Val(W64, n)], fuel) == Returned([V(Fac(n))])
    decreases n
  {
    hide Invoke, Eval, Straight, RecIf, RecArm, Iter, Lo;
    if n == 0 {
      OneEval(Programs(), [1, 1], [Val(W64, n)], fuel);
      assert Fac(0) == 1;
      RecBodyEval(Programs(), n, Val(W64, 1), fuel);
    } else {
      RecComputes(n - 1, fuel - 1);
      var f := Lo(W64, Fac(n - 1));
      RecArmEval(Programs(), n, f, [1, 1], fuel);
      LoMul(n, Fac(n - 1));
      RecBodyEval(Programs(), n, V(Fac(n)), fuel);
    }
    RecInvoke(n, V(Fac(n)), fuel);
  }

  // ---------- fac-iter ----------

  function Vars(n: Word, i: Word, r: Word): seq<Value> { [Val(W64, n), Val(W64, i), Val(W64, r)] }

  lemma IterArmOps(n: Word, i: Word, r: Word)
    requires i > 0
    ensures RunOps([GetLocal(1), GetLocal(2), Bin(W64, Mul), SetLocal(2), GetLocal(1), C64(1), Bin(W64, Sub), SetLocal(1)], [], Vars(n, i, r))
         == Next([], Vars(n, i - 1, Lo(W64, i * r)))
  {
    hide RunOps;
    var none: seq<Value> := [];
    var ls, p := Vars(n, i, r), Lo(W64, i * r);
    var ls1 := Vars(n, i, p);
    var o8: seq<Op> := [SetLocal(1)] + [];
    var o7 := [Bin(W64, Sub)] + o8;
    var o6 := [C64(1)] + o7;
    var o5 := [GetLocal(1)] + o6;
    var o4 := [SetLocal(2)] + o5;
    var o3 := [Bin(W64, Mul)] + o4;
    var o2 := [GetLocal(2)] + o3;
    assert [GetLocal(1), GetLocal(2), Bin(W64, Mul), SetLocal(2), GetLocal(1), C64(1), Bin(W64, Sub), SetLocal(1)] == [GetLocal(1)] + o2;
    GetStep(1, o2, none, ls);
    GetStep(2, o3, none + [Val(W64, i)], ls);
    assert none + [Val(W64, i)] + [Val(W64, r)] == none + [Val(W64, i), Val(W64, r)];
    BinStep(Mul, o4, none, i, r, p, ls);
    SetStep(2, o5, none, Val(W64, p), ls);
    assert ls[2 := Val(W64, p)] == ls1;
    GetStep(1, o6, none, ls1);
    ConstStep(1, o7, none + [Val(W64, i)], ls1);
    assert none + [Val(W64, i)] + [Val(W64, 1)] == none + [Val(W64, i), Val(W64, 1)];
    BinStep(Sub, o8, none, i, 1, i - 1, ls1);
    SetStep(1, [], none, Val(W64, i - 1), ls1);
    assert ls1[1 := Val(W64, i - 1)] == Vars(n, i - 1, p);
    OpsDone(none, Vars(n, i - 1, p));
  }

  /** Branching out of the void then-arm with depth 2 leaves the loop's body with depth 1. */
  lemma OutOfLoop(fs: seq<Func>, ls: seq<Value>, fuel: nat)
    ensures Eval(fs, IterIf(), [0, 0, 1], [Bool(true)], ls, fuel) == Branch(1, [], ls)
  {
    hide Eval, IterArm;
    var ar := [0] + [0, 0, 1];
    assert ar == [0, 0, 0, 1];
    assert BranchTo(2, ar, [], ls) == Branch(2, [], ls);
    AtomStep(fs, Br(2), Done, ar, [], ls, fuel);
    IfElseStep(fs, IterIf(), [0, 0, 1], true, ls, fuel);
  }

  lemma Again(fs: seq<Func>, n: Word, i: Word, r: Word, fuel: nat)
    requires i > 0
    ensures Eval(fs, IterIf(), [0, 0, 1], [Bool(false)], Vars(n, i, r), fuel) == Branch(0, [], Vars(n, i - 1, Lo(W64, i * r)))
  {
    hide Eval, Straight, RunOps, Vars;
    var ls1 := Vars(n, i - 1, Lo(W64, i * r));
    var ar := [0] + [0, 0, 1];
    IterArmOps(n, i, r);
    StraightEval(fs, [GetLocal(1), GetLocal(2), Bin(W64, Mul), SetLocal(2), GetLocal(1), C64(1), Bin(W64, Sub), SetLocal(1)], Done, ar, [],
                 Vars(n, i, r), fuel);
    DoneStep(fs, ar, [], ls1, fuel);
    IfElseStep(fs, IterIf(), [0, 0, 1], false, Vars(n, i, r), fuel);
    var none: seq<Value> := [];
    assert none + none == none;
    assert BranchTo(0, [0, 0, 1], none, ls1) == Branch(0, none, ls1);
    AtomStep(fs, Br(0), Done, [0, 0, 1], [], ls1, fuel);
  }

  lemma LoopBodyEval(fs: seq<Func>, n: Word, i: Word, r: Word, fuel: nat)
    ensures Eval(fs, IterLoop().body, [0, 0, 1], [], Vars(n, i, r), fuel)
         == if i == 0 then Branch(1, [], Vars(n, i, r)) else Branch(0, [], Vars(n, i - 1, Lo(W64, i * r)))
  {
    hide Eval, Straight, RunOps, IterIf, Lo;
    var ls := Vars(n, i, r);
    TestOps(1, i, ls);
    StraightEval(fs, [GetLocal(1), C64(0), Rel(W64, Eq)], IterIf(), [0, 0, 1], [], ls, fuel);
    if i == 0 { OutOfLoop(fs, ls, fuel); } else { Again(fs, n, i, r, fuel); }
  }

  /** From i on, the loop multiplies by i! and leaves through the block. */
  lemma {:induction false} LoopComputes(fs: seq<Func>, n: Word, i: Word, r: Word, fuel: nat)
    requires fuel >= i
    ensures EvalLoop(fs, IterLoop(), [0, 1], [], Vars(n, i, r), fuel) == Branch(0, [], Vars(n, 0, Lo(W64, r * Fac(i))))
    decreases i
  {
    hide Eval, Straight, IterIf, Lo, Vars;
    LoopBodyEval(fs, n, i, r, fuel);
    assert [0] + [0, 1] == [0, 0, 1];
    if i == 0 {
      assert Fac(0) == 1 && Lo(W64, r * 1) == r;
    } else {
      var p := Lo(W64, i * r);
      LoopComputes(fs, n, i - 1, p, fuel - 1);
      FacStep(i, r);
    }
  }

  lemma FacStep(i: Word, r: Word)
    requires i > 0
    ensures Lo(W64, Lo(W64, i * r) * Fac(i - 1)) == Lo(W64, r * Fac(i))
  {
    hide Lo;
    LoMul(Fac(i - 1), i * r);
    MulTurn(i, r, Fac(i - 1));
  }

  lemma MulTurn(i: nat, r: nat, f: nat)
    ensures f * (i * r) == r * (i * f) && Lo(W64, i * r) * f == f * Lo(W64, i * r)
  {
    hide Lo;
  }

  lemma StartOps(n: Word)
    ensures RunOps([GetLocal(0), SetLocal(1), C64(1), SetLocal(2)], [], Vars(n, 0, 0)) == Next([], Vars(n, n, 1))
  {
    hide RunOps;
    var none: seq<Value> := [];
    var ls := Vars(n, 0, 0);
    var o4: seq<Op> := [SetLocal(2)] + [];
    var o3 := [C64(1)] + o4;
    var o2 := [SetLocal(1)] + o3;
    assert [GetLocal(0), SetLocal(1), C64(1), SetLocal(2)] == [GetLocal(0)] + o2;
    GetStep(0, o2, none, ls);
    SetStep(1, o3, none, Val(W64, n), ls);
    assert ls[1 := Val(W64, n)] == Vars(n, n, 0);
    ConstStep(1, o4, none, Vars(n, n, 0));
    SetStep(2, [], none, Val(W64, 1), Vars(n, n, 0));
    assert Vars(n, n, 0)[2 := Val(W64, 1)] == Vars(n, n, 1);
    OpsDone(none, Vars(n, n, 1));
  }

  /** The block around the loop. */
  lemma BlockComputes(fs: seq<Func>, n: Word, fuel: nat)
    requires fuel >= n
    ensures Eval(fs, Block(EMPTY_BLOCK, IterLoop(), Straight([GetLocal(2)], Done)), [1], [], Vars(n, n, 1), fuel)
         == Next([V(Fac(n))], Vars(n, 0, Lo(W64, Fac(n))))
  {
    hide Eval, EvalLoop, RunOps, Straight, Lo, Fac;
    var b := Block(EMPTY_BLOCK, IterLoop(), Straight([GetLocal(2)], Done));
    var none: seq<Value> := [];
    var ls := Vars(n, 0, Lo(W64, Fac(n)));
    LoopComputes(fs, n, n, 1, fuel);
    assert 1 * Fac(n) == Fac(n);
    assert [0] + [1] == [0, 1];
    EvalThen(fs, IterLoop(), [0, 1], [], Vars(n, n, 1), fuel);
    assert EvalFirst(fs, b, [1], [], Vars(n, n, 1), fuel) == Next([], ls);
    EvalThen(fs, b, [1], [], Vars(n, n, 1), fuel);
    assert [GetLocal(2)] == [GetLocal(2)] + [];
    GetStep(2, [], none, ls);
    assert none + [ls[2]] == [V(Fac(n))];
    OpsDone([V(Fac(n))], ls);
    StraightEval(fs, [GetLocal(2)], Done, [1], [], ls, fuel);
    DoneStep(fs, [1], [V(Fac(n))], ls, fuel);
  }

  lemma IterInvoke(n: Word, r: Value, ls: seq<Value>, fuel: nat)
    requires Eval(Programs(), Iter().body, [1], [], Vars(n, 0, 0), fuel) == Next([r], ls)
    ensures Invoke(Programs(), 1, [Val(W64, n)], fuel) == Returned([r])
  {
    hide Eval, Straight, IterLoop, Rec;
    assert [Val(W64, n)] + Zeros([0x7e, 0x7e]) == Vars(n, 0, 0);
  }

  /** fac-iter returns n! modulo 2^64, for every n, given fuel for n iterations. */
  lemma IterComputes(n: Word, fuel: nat)
    requires fuel >= n
    ensures Invoke(Programs(), 1, [Val(W64, n)], fuel) == Returned([V(Fac(n))])
  {
    hide Invoke, Eval, Straight, IterLoop, Rec, Lo, RunOps;
    StartOps(n);
    BlockComputes(Programs(), n, fuel);
    StraightEval(Programs(), [GetLocal(0), SetLocal(1), C64(1), SetLocal(2)],
                 Block(EMPTY_BLOCK, IterLoop(), Straight([GetLocal(2)], Done)), [1], [], Vars(n, 0, 0), fuel);
    IterInvoke(n, V(Fac(n)), Vars(n, 0, Lo(W64, Fac(n))), fuel);
  }

  // ---------- compiled ----------

  lemma SmallReadable(n: Word)
    requires n < 64
    ensures Readable(OpAtom(Plain(C64(n))))
  {
  }

  lemma RecCompilable()
    ensures Compilable(0, FacModule().sigs, Rec()) && Supported(Rec().body, [true], [1])
  {
    hide SignExtends, EncodeS, Straight, RecArm, Iter, CodeOf;
    SmallReadable(0);
    SmallReadable(1);
    var sigs := FacModule().sigs;
    assert |sigs| == 2;
    var env := Env(0, sigs, 1);
    var k, a := [Keep(0x7e)] + [true], [Arity(0x7e)] + [1];
    RecArmFine(env, k, a);
    StraightFine(env, [C64(1)], Done, k, a);
    assert BodyOk(env, RecIf(), 1) && Supported(RecIf(), [true], [1]) && ReadableBody(RecIf());
    StraightFine(env, [GetLocal(0), C64(0), Rel(W64, Eq)], RecIf(), [true], [1]);
  }

  lemma RecArmFine(env: Env, k: seq<bool>, a: seq<nat>)
    requires |k| == |a| && env.clocals == 1 && |env.sigs| == 2
    ensures BodyOk(env, RecArm(), |k|) && Supported(RecArm(), k, a) && ReadableBody(RecArm())
  {
    hide SignExtends, EncodeS, Straight;
    SmallReadable(1);
    StraightFine(env, [Bin(W64, Mul)], Done, k, a);
    StraightFine(env, [GetLocal(0), GetLocal(0), C64(1), Bin(W64, Sub)], Atomic(Call(0), Straight([Bin(W64, Mul)], Done)), k, a);
  }

  lemma IterIfFine(env: Env)
    requires env.clocals == 3
    ensures var k, a := [false, false, true], [0, 0, 1];
      BodyOk(env, IterIf(), 3) && Supported(IterIf(), k, a) && ReadableBody(IterIf())
  {
    hide SignExtends, EncodeS, Straight;
    SmallReadable(1);
    var k, a := [Keep(EMPTY_BLOCK)] + [false, false, true], [Arity(EMPTY_BLOCK)] + [0, 0, 1];
    assert k == [false, false, false, true] && a == [0, 0, 0, 1];
    StraightFine(env, [GetLocal(1), GetLocal(2), Bin(W64, Mul), SetLocal(2), GetLocal(1), C64(1), Bin(W64, Sub), SetLocal(1)], Done, k, a);
    var b := IterIf();
    assert BodyOk(env, b.body, 4) && BodyOk(env, b.els, 4) && BodyOk(env, b.next, 3);
    assert NoFall(b.body) && Supported(b.body, k, a) && Supported(b.next, [false, false, true], [0, 0, 1]);
  }

  /** The then-arm of fac-iter's void if leaves by a branch, so it is supported. */
  lemma IterCompilable()
    ensures Compilable(0, FacModule().sigs, Iter()) && Supported(Iter().body, [true], [1])
  {
    hide SignExtends, EncodeS, Straight, Rec, CodeOf, IterIf;
    SmallReadable(0);
    SmallReadable(1);
    var sigs := FacModule().sigs;
    var env := Env(0, sigs, 3);
    IterIfFine(env);
    StraightFine(env, [GetLocal(1), C64(0), Rel(W64, Eq)], IterIf(), [false, false, true], [0, 0, 1]);
    assert [Keep(EMPTY_BLOCK)] + [false, true] == [false, false, true] && [0] + [0, 1] == [0, 0, 1];
    assert BodyOk(env, IterLoop(), 2) && Supported(IterLoop(), [false, true], [0, 1]) && ReadableBody(IterLoop());
    var last := Straight([GetLocal(2)], Done);
    StraightFine(env, [GetLocal(2)], Done, [true], [1]);
    assert [Keep(EMPTY_BLOCK)] + [true] == [false, true] && [Arity(EMPTY_BLOCK)] + [1] == [0, 1];
    var b := Block(EMPTY_BLOCK, IterLoop(), last);
    assert BodyOk(env, b, 1) && Supported(b, [true], [1]) && ReadableBody(b);
    StraightFine(env, [GetLocal(0), SetLocal(1), C64(1), SetLocal(2)], b, [true], [1]);
  }

  lemma {:induction false} SinglesTotal(tys: seq<U8>)
    ensures Total(seq(|tys|, i requires 0 <= i < |tys| => LocalEntry(1, tys[i]))) == |tys|
    decreases |tys|
  {
    var gs := seq(|tys|, i requires 0 <= i < |tys| => LocalEntry(1, tys[i]));
    if |tys| > 0 {
      var init := tys[..|tys| - 1];
      SinglesTotal(init);
      assert gs[..|gs| - 1] == seq(|init|, i requires 0 <= i < |init| => LocalEntry(1, init[i]));
    }
  }

  /** The module of the two programs. */
  function FacModule(): Program { ModuleOf(0, Programs()) }

  lemma FacMatches()
    ensures Matches(FacModule(), Programs()) && LocalsFit(FacModule()) && SupportedOnly(Programs()) == Programs()
  {
    hide Compilable, Matches, CodeOf, Supported, Straight, RecIf, IterLoop;
    RecCompilable();
    IterCompilable();
    ModuleMatches(0, Programs());
    FrameSizes();
    var r := SupportedOnly(Programs());
    assert r[0] == Rec() && r[1] == Iter();
  }

  lemma FrameSizes()
    ensures LocalsFit(FacModule())
  {
    hide Flatten, EncodeAll, Total, Straight, RecIf, IterLoop;
    var pg := FacModule();
    SinglesTotal([]);
    SinglesTotal([0x7e, 0x7e]);
    assert pg.codes[0] == CodeOf(Rec()) && pg.codes[1] == CodeOf(Iter());
  }

  // ---------- how big they are ----------

  lemma {:induction false} StraightWeights(env: Env, ops: seq<Op>, next: Body)
    ensures Weight(env, Straight(ops, next)) == 207 * |ops| + Weight(env, next)
    ensures BodyBytes(Straight(ops, next)) == 11 * |ops| + BodyBytes(next)
    ensures BodyCalls(Straight(ops, next)) == BodyCalls(next)
    decreases |ops|
  {
    if |ops| > 0 { StraightWeights(env, ops[1..], next); }
  }

  lemma NoneWeights(env: Env)
    ensures Weight(env, Done) == BodyBytes(Done) == 0 && BodyCalls(Done) == []
  {
  }

  lemma NestedWeights(env: Env, b: Body)
    requires Nested(b)
    ensures b.IfElse? ==>
      && Weight(env, b) == 500 + Weight(env, b.body) + Weight(env, b.els) + Weight(env, b.next)
      && BodyBytes(b) == 4 + BodyBytes(b.body) + BodyBytes(b.els) + BodyBytes(b.next)
      && BodyCalls(b) == BodyCalls(b.body) + BodyCalls(b.els) + BodyCalls(b.next)
    ensures !b.IfElse? ==>
      && Weight(env, b) == 500 + Weight(env, b.body) + Weight(env, b.next)
      && BodyBytes(b) == 3 + BodyBytes(b.body) + BodyBytes(b.next)
      && BodyCalls(b) == BodyCalls(b.body) + BodyCalls(b.next)
  {
  }

  lemma AtomicWeights(env: Env, a: Atom, next: Body)
    ensures Weight(env, Atomic(a, next)) == 7 + AtomWeight(env, a) + Weight(env, next)
    ensures BodyBytes(Atomic(a, next)) == AtomBytes(a) + BodyBytes(next)
    ensures BodyCalls(Atomic(a, next)) == CallsOf(a) + BodyCalls(next)
  {
  }

  lemma RecSize(env: Env)
    requires |env.sigs| == 2 && env.sigs[0].cparams == 1
    ensures Weight(env, Rec().body) <= 4000 && BodyBytes(Rec().body) <= 200 && BodyCalls(Rec().body) == [0]
  {
    hide Weight, BodyBytes, BodyCalls, Straight;
    NoneWeights(env);
    StraightWeights(env, [Bin(W64, Mul)], Done);
    AtomicWeights(env, Call(0), Straight([Bin(W64, Mul)], Done));
    StraightWeights(env, [GetLocal(0), GetLocal(0), C64(1), Bin(W64, Sub)], Atomic(Call(0), Straight([Bin(W64, Mul)], Done)));
    StraightWeights(env, [C64(1)], Done);
    NestedWeights(env, RecIf());
    StraightWeights(env, [GetLocal(0), C64(0), Rel(W64, Eq)], RecIf());
    var none: seq<nat> := [];
    assert none + [0] + none == [0] && CallsOf(Call(0)) + none == [0];
  }

  lemma IterSize(env: Env)
    ensures Weight(env, Iter().body) <= 8000 && BodyBytes(Iter().body) <= 400 && BodyCalls(Iter().body) == []
  {
    hide Weight, BodyBytes, BodyCalls, Straight;
    var none: seq<nat> := [];
    assert none + none == none && none + none + none == none;
    NoneWeights(env);
    StraightWeights(env, [GetLocal(1), GetLocal(2), Bin(W64, Mul), SetLocal(2), GetLocal(1), C64(1), Bin(W64, Sub), SetLocal(1)], Done);
    AtomicWeights(env, Br(2), Done);
    AtomicWeights(env, Br(0), Done);
    NestedWeights(env, IterIf());
    StraightWeights(env, [GetLocal(1), C64(0), Rel(W64, Eq)], IterIf());
    NestedWeights(env, IterLoop());
    var last := Straight([GetLocal(2)], Done);
    StraightWeights(env, [GetLocal(2)], Done);
    NestedWeights(env, Block(EMPTY_BLOCK, IterLoop(), last));
    StraightWeights(env, [GetLocal(0), SetLocal(1), C64(1), SetLocal(2)], Block(EMPTY_BLOCK, IterLoop(), last));
  }

  /** Either program compiles, to at most 10000 bytes: fac-rec only calls itself. */
  lemma FacCompiles(f: nat, code: seq<Cell>)
    requires f < 2 && PlaneOk(FacModule(), code) && IsNull(code, f) && |code| > 0
    ensures f < |FacModule().sigs| && Compile(FacModule(), code, f).Some? && |Compile(FacModule(), code, f).value| <= |code| + 10000
  {
    hide EmitFn, PlaneOk, Matches, FnMatches, BodyCalls, FnCode, Rec, Iter, ModuleOf, LocalsFit, Weight, BodyBytes, IsNull, Supported;
    var pg, fs := FacModule(), Programs();
    FacMatches();
    SigsOfPrograms(f);
    MatchAt(pg, fs, f);
    EmitFnMatches(pg, code, f, fs[f]);
    FacCalls(f);
    FnProgress(pg, code, f);
    FacCodeSize(pg, f, fs[f], |code|);
    var em := EmitFn(pg, code, f).value;
    if f == 0 {
      SkipSelf(pg, code, FnCode(pg, f, fs[f], |code|), em.code);
    } else {
      NoCalls(pg, em.code);
    }
  }

  lemma FacCalls(f: nat)
    requires f < 2
    ensures f < |Programs()| && Programs()[f].Defined?
    ensures BodyCalls(Programs()[f].body) == if f == 0 then [0] else []
  {
    hide BodyCalls, Straight, RecIf, IterLoop;
    var env := Env(0, [Sig(1, true), Sig(1, true)], 1);
    RecSize(env);
    IterSize(env);
  }

  lemma FacWeight(env: Env, f: nat)
    requires f < 2 && |env.sigs| == 2 && env.sigs[0].cparams == 1
    ensures f < |Programs()| && Programs()[f].Defined? && Weight(env, Programs()[f].body) <= 8000
  {
    hide Weight, Straight, RecIf, IterLoop;
    RecSize(env);
    IterSize(env);
  }

  lemma FacCodeSize(pg: Program, f: nat, fn: Func, p: nat)
    requires f < 2 && pg == FacModule() && f < |Programs()| && fn == Programs()[f] && FnMatches(pg, f, fn)
    ensures |FnCode(pg, f, fn, p)| <= 10000
  {
    MatchFacts(pg, f, fn);
    hide BodyEncoded, Matches, GenFn, Weight, Expand, CodeOf, Programs, ModuleOf, BodyOk;
    SigsOfPrograms(0);
    FacWeight(EnvOf(pg, f), f);
    FnBound(EnvOf(pg, f), fn.cparams, fn.body, p);
  }

  /** A function that only calls itself needs nothing else compiled. */
  lemma SkipSelf(pg: Program, code: seq<Cell>, gen: seq<Cell>, code': seq<Cell>)
    requires |code| > 0 && PlaneOk(pg, code') && code' == code[0 := Ptr(|code|)] + gen
    ensures CompileCalls(pg, code', [0]) == Some(code')
  {
    hide PlaneOk, Compile, Nulls;
    var none: seq<nat> := [];
    assert code'[8 * 0] == Ptr(|code|);
    assert [0][1..] == none;
  }

  lemma NoCalls(pg: Program, code: seq<Cell>)
    requires PlaneOk(pg, code)
    ensures CompileCalls(pg, code, []) == Some(code)
  {
  }

  // ---------- from the sections of a module to the result ----------

  function FacTypes(): seq<U8> { TypePayload(Programs()) }

  function FacDecls(): seq<U8> { DeclPayload(0, 2) }

  function FacCode(): seq<U8> { CodePayload(FacModule().codes) }

  /** The encoded sections load to the module. */
  lemma FacLoads()
    ensures Loads(FacTypes(), [], FacDecls(), FacCode()) == Some(FacModule())
  {
    hide Loads, TypePayload, DeclPayload, CodePayload, Encodable, Straight, RecIf, IterLoop, ModuleOf, CodeOf, BodyBytes, ReadableBody, Weight, BodyCalls, Compilable;
    var env := Env(0, [Sig(1, true), Sig(1, true)], 1);
    RecSize(env);
    IterSize(env);
    RecCompilable();
    IterCompilable();
    CompilableReadable(Rec());
    CompilableReadable(Iter());
    SmallEncodable(Rec());
    SmallEncodable(Iter());
    assert Programs()[0] == Rec() && Programs()[1] == Iter();
    ModuleLoads(0, Programs());
    assert Numbers(0, 0) == [];
  }

  lemma CompilableReadable(fn: Func)
    requires Compilable(0, FacModule().sigs, fn)
    ensures fn.Defined? && ReadableBody(fn.body)
  {
    hide BodyOk, ModuleOf;
  }

  /** Loading the two programs from their sections into a plane of the original's size or larger,
      compiling one of them and calling it with n: it always succeeds, and the machine, entered at the
      function's address with n in its first local, returns with n! modulo 2^64 in rax. */
  method CallFactorial(n: Word, iterative: bool, rgexec: array<Cell>) returns (ok: bool, c: Cpu)
    requires 128 * 4096 <= rgexec.Length <= J.MAX_PLANE
    modifies rgexec
    ensures ok
    ensures AtEntry(rgexec[..], if iterative then 1 else 0, c, [Val(W64, n)], -1)
    ensures exists c' :: Reaches(rgexec[..], c, c') && c'.pc == -1 && c'.rax == Lo(W64, Fac(n))
  {
    hide Invoke, Loaded, Behaves, Fac, Lo, ModuleOf, Matches, LocalsFit, Programs, CodeStart, Compile, IsNull, Reaches, Loads, AtEntry,
         TypePayload, DeclPayload, CodePayload, SupportedOnly, StackRight, Closed, DoneOnly;
    var f := if iterative then 1 else 0;
    FacLoads();
    FacMatches();
    SigsOfPrograms(f);
    FacStart();
    var jw := Open(FacTypes(), [], FacDecls(), FacCode(), rgexec, [], Programs());
    LoadedPlane(jw);
    FacCompiles(f, jw.Code());
    ok, c := ExternCallFn(jw, f, [Val(W64, n)], -1, Programs());
    if iterative { IterComputes(n, n); } else { RecComputes(n, n); }
    EntryStack(rgexec[..], f, c, [Val(W64, n)], -1);
    ReturnsIt(rgexec[..], c, V(Fac(n)), Invoke(Programs(), f, [Val(W64, n)], n), n);
  }

  /** Table and helpers, then globals, of which there are none, take one page. */
  lemma FacStart()
    ensures CodeStart(FacModule(), 0) == 4096
  {
    hide ModuleOf;
    SigsOfPrograms(0);
  }

  lemma LoadedPlane(jw: J.JitWriter)
    requires Loaded(jw, Programs())
    ensures jw.Valid() && PlaneOk(jw.pctxt, jw.Code())
  {
    hide PlaneOk, Matches, TableOk, LocalsFit;
  }

  lemma EntryStack(plane: seq<Cell>, f: nat, c: Cpu, args: seq<Value>, exit: int)
    requires AtEntry(plane, f, c, args, exit)
    ensures c.rs == [exit]
  {
  }

  lemma SigsOfPrograms(f: nat)
    requires f < 2
    ensures var pg := FacModule();
      && pg.imports == 0 && |pg.sigs| == 2 && |pg.codes| == 2 && pg.sigs[0].cparams == 1 && pg.sigs[1].cparams == 1 && |Programs()| == 2
      && Programs()[f].Defined?
  {
    hide CodeOf, Straight, RecIf, IterLoop;
  }

  lemma ReturnsIt(plane: seq<Cell>, c: Cpu, v: Value, o: Outcome, fuel: nat)
    requires Behaves(plane, c, -1, o, fuel) && o == Returned([v]) && c.rs == [-1]
    ensures exists c' :: Reaches(plane, c, c') && c'.pc == -1 && c'.rax == v.n
  {
    hide Reaches;
    var c' :| Reaches(plane, c, c') && Gone(c, c', c.rdi, 0, [v]);
  }
}
