/** The source language: the integer and control fragment of WebAssembly Core 1.0, and its
    structured interpreter (sections 4.3.2, 4.4.1, 4.4.3, 4.4.5 and 4.4.6). */
module Wasm {
  import opened Words

  datatype RawValue = Val(w: Width, n: nat)

  /** An i32 or an i64, held as an unsigned number of its own width. */
  type Value = v: RawValue | v.n < Mod(v.w) witness Val(W32, 0)

  datatype IntOp = Add | Sub | Mul | DivS | DivU | RemS | RemU | And | Or | Xor | Shifted(s: ShiftOp)

  datatype RelOp = Eq | Ne | LtS | LtU | GtS | GtU | LeS | LeU | GeS | GeU

  datatype UnOp = Clz | Ctz | PopCount

  /** Instructions that neither transfer control nor call. */
  datatype Op =
    | Nop | Unreachable | Drop | Select
    | Const(v: Value)
    | GetLocal(idx: U32) | SetLocal(idx: U32) | TeeLocal(idx: U32)
    | Eqz(w: Width) | Rel(w: Width, rel: RelOp) | Un(w: Width, un: UnOp) | Bin(w: Width, bin: IntOp)
    | WrapI64 | ExtendS | ExtendU

  datatype Atom =
    | Plain(op: Op)
    | Br(depth: U32) | BrIf(depth: U32) | BrTable(targets: seq<U32>, default: U32)
    | Return
    | Call(fn: U32)

  /** The block type byte: 0x40 for no result, otherwise the type of the one result. */
  type BlockType = U8
  const EMPTY_BLOCK: BlockType := 0x40

  function Arity(bt: BlockType): nat { if bt == EMPTY_BLOCK then 0 else 1 }

  /** A sequence of instructions, with the bodies of structured instructions nested in it. */
  datatype Body =
    | Done
    | Atomic(atom: Atom, next: Body)
    | Block(bt: BlockType, body: Body, next: Body)
    | Loop(bt: BlockType, body: Body, next: Body)
    | If(bt: BlockType, body: Body, next: Body)
    | IfElse(bt: BlockType, body: Body, els: Body, next: Body)

  datatype Func =
    | Import
    | Defined(cparams: nat, arity: nat, locals: seq<U8>, body: Body)

  // ---------- numeric instructions (section 4.3.2) ----------

  function Bool(b: bool): Value { Val(W32, if b then 1 else 0) }

  function Binop(w: Width, op: IntOp, a: nat, b: nat): (r: Option<Word>)
    requires a < Mod(w) && b < Mod(w)
    ensures r.Some? ==> r.value < Mod(w)
  {
    match op
    case Add => Some(Lo(w, a + b))
    case Sub => Some(Lo(w, a - b))
    case Mul => Some(Lo(w, a * b))
    case DivU => if b == 0 then None else Some(Lo(w, a / b))
    case RemU => if b == 0 then None else Some(Lo(w, a % b))
    case DivS =>
      if b == 0 then None
      else
        var q := TDiv(Signed(w, a), Signed(w, b));
        if q == Half(w) then None else Some(Lo(w, q))
    case RemS =>
      if b == 0 then None
      else
        var i, j := Signed(w, a), Signed(w, b);
        Some(Lo(w, i - j * TDiv(i, j)))
    case And => Some(Lo(w, BitwiseW(AndBits, w, a, b)))
    case Or => Some(Lo(w, BitwiseW(OrBits, w, a, b)))
    case Xor => Some(Lo(w, BitwiseW(XorBits, w, a, b)))
    case Shifted(s) => Some(Shift(s, w, a, b % Bits(w)))
  }

  predicate Relop(w: Width, op: RelOp, a: nat, b: nat) {
    match op
    case Eq => a == b
    case Ne => a != b
    case LtU => a < b
    case GtU => a > b
    case LeU => a <= b
    case GeU => a >= b
    case LtS => Signed(w, a) < Signed(w, b)
    case GtS => Signed(w, a) > Signed(w, b)
    case LeS => Signed(w, a) <= Signed(w, b)
    case GeS => Signed(w, a) >= Signed(w, b)
  }

  function Unop(w: Width, op: UnOp, a: nat): (r: Word)
    ensures r < Mod(w)
  {
    match op
    case Clz => LeadingZeros(a, Bits(w))
    case Ctz => TrailingZeros(a, Bits(w))
    case PopCount => Popcnt(a, Bits(w))
  }

  // ---------- the interpreter ----------

  datatype Option<+T> = None | Some(value: T)

  /** How the execution of an instruction sequence ends.  `Stuck` is what validation rules out;
      `NoFuel` only says that the bound on loop iterations and call depth was too small. */
  datatype Outcome =
    | Next(vs: seq<Value>, ls: seq<Value>)
    | Branch(depth: nat, results: seq<Value>, ls: seq<Value>)
    | Returned(results: seq<Value>)
    | Trapped
    | Stuck
    | NoFuel

  function Last<T>(s: seq<T>): T
    requires |s| > 0
  {
    s[|s| - 1]
  }

  function Pop<T>(s: seq<T>, n: nat): seq<T>
    requires n <= |s|
  {
    s[..|s| - n]
  }

  function Top<T>(s: seq<T>, n: nat): seq<T>
    requires n <= |s|
  {
    s[|s| - n..]
  }

  function EvalOp(op: Op, vs: seq<Value>, ls: seq<Value>): (r: Outcome)
    ensures r.Next? || r.Trapped? || r.Stuck?
    ensures r.Next? ==> |r.ls| == |ls|
  {
    var h := |vs|;
    match op
    case Nop => Next(vs, ls)
    case Unreachable => Trapped
    case Drop => if h < 1 then Stuck else Next(Pop(vs, 1), ls)
    case Select =>
      if h < 3 || vs[h - 1].w != W32 then Stuck
      else Next(Pop(vs, 3) + [if vs[h - 1].n != 0 then vs[h - 3] else vs[h - 2]], ls)
    case Const(v) => Next(vs + [v], ls)
    case GetLocal(i) => if i < |ls| then Next(vs + [ls[i]], ls) else Stuck
    case SetLocal(i) => if i < |ls| && h >= 1 then Next(Pop(vs, 1), ls[i := vs[h - 1]]) else Stuck
    case TeeLocal(i) => if i < |ls| && h >= 1 then Next(vs, ls[i := vs[h - 1]]) else Stuck
    case Eqz(w) => if h < 1 || vs[h - 1].w != w then Stuck else Next(Pop(vs, 1) + [Bool(vs[h - 1].n == 0)], ls)
    case Un(w, u) =>
      if h < 1 || vs[h - 1].w != w then Stuck else Next(Pop(vs, 1) + [Val(w, Unop(w, u, vs[h - 1].n))], ls)
    case Rel(w, r) =>
      if h < 2 || vs[h - 2].w != w || vs[h - 1].w != w then Stuck
      else Next(Pop(vs, 2) + [Bool(Relop(w, r, vs[h - 2].n, vs[h - 1].n))], ls)
    case Bin(w, b) =>
      if h < 2 || vs[h - 2].w != w || vs[h - 1].w != w then Stuck
      else (match Binop(w, b, vs[h - 2].n, vs[h - 1].n)
            case None => Trapped
            case Some(n) => Next(Pop(vs, 2) + [Val(w, n)], ls))
    case WrapI64 => if h < 1 || vs[h - 1].w != W64 then Stuck else Next(Pop(vs, 1) + [Val(W32, Lo(W32, vs[h - 1].n))], ls)
    case ExtendU => if h < 1 || vs[h - 1].w != W32 then Stuck else Next(Pop(vs, 1) + [Val(W64, vs[h - 1].n)], ls)
    case ExtendS =>
      if h < 1 || vs[h - 1].w != W32 then Stuck
      else Next(Pop(vs, 1) + [Val(W64, Lo(W64, Signed(W32, vs[h - 1].n)))], ls)
  }

  function BranchTo(depth: nat, arities: seq<nat>, vs: seq<Value>, ls: seq<Value>): Outcome {
    if depth < |arities| && arities[depth] <= |vs| then Branch(depth, Top(vs, arities[depth]), ls) else Stuck
  }

  function Zero(ty: U8): Value { if ty == 0x7e then Val(W64, 0) else Val(W32, 0) }

  function Zeros(tys: seq<U8>): (zs: seq<Value>)
    ensures |zs| == |tys|
  {
    seq(|tys|, i requires 0 <= i < |tys| => Zero(tys[i]))
  }

  /** What a function body's outcome means to its caller; the body runs under one label. */
  function CallResult(o: Outcome, arity: nat): Outcome {
    match o
    case Next(vs, _) => if |vs| == arity then Returned(vs) else Stuck
    case Branch(d, rs, _) => if d == 0 then Returned(rs) else Stuck
    case _ => o
  }

  /** Leaving a block: its results join the operands that were below it. */
  function Exit(o: Outcome, arity: nat, vs: seq<Value>): Outcome {
    match o
    case Next(rs, ls) => if |rs| == arity then Next(vs + rs, ls) else Stuck
    case Branch(d, rs, ls) => if d == 0 then Next(vs + rs, ls) else Branch(d - 1, rs, ls)
    case _ => o
  }

  /** Locals keep their number, and a branch carries as many values as its label asks for. */
  predicate OutcomeOk(o: Outcome, arities: seq<nat>, ls: seq<Value>) {
    && (o.Next? || o.Branch? ==> |o.ls| == |ls|)
    && (o.Branch? ==> o.depth < |arities| && |o.results| == arities[o.depth])
    && (o.Returned? ==> |arities| > 0 && |o.results| == Last(arities))
  }

  function EvalAtom(fs: seq<Func>, a: Atom, arities: seq<nat>, vs: seq<Value>, ls: seq<Value>, fuel: nat): (r: Outcome)
    ensures |arities| > 0 ==> OutcomeOk(r, arities, ls)
    decreases fuel, 0, 0
  {
    var h := |vs|;
    match a
    case Plain(op) => EvalOp(op, vs, ls)
    case Br(d) => BranchTo(d, arities, vs, ls)
    case BrIf(d) =>
      if h < 1 || vs[h - 1].w != W32 then Stuck
      else if vs[h - 1].n != 0 then BranchTo(d, arities, Pop(vs, 1), ls)
      else Next(Pop(vs, 1), ls)
    case BrTable(ts, d) =>
      if h < 1 || vs[h - 1].w != W32 then Stuck
      else BranchTo(if vs[h - 1].n < |ts| then ts[vs[h - 1].n] else d, arities, Pop(vs, 1), ls)
    case Return =>
      if |arities| > 0 && Last(arities) <= h then Returned(Top(vs, Last(arities))) else Stuck
    case Call(f) =>
      if f >= |fs| || fs[f].Import? || h < fs[f].cparams then Stuck
      else if fuel == 0 then NoFuel
      else
        (match Invoke(fs, f, Top(vs, fs[f].cparams), fuel - 1)
         case Returned(rs) => Next(Pop(vs, fs[f].cparams) + rs, ls)
         case Trapped => Trapped
         case NoFuel => NoFuel
         case _ => Stuck)
  }

  /** Runs a function on its arguments: they become its first locals, the declared locals start at zero. */
  function Invoke(fs: seq<Func>, f: nat, args: seq<Value>, fuel: nat): Outcome
    requires f < |fs| && fs[f].Defined?
    decreases fuel, 2, 0
  {
    CallResult(Eval(fs, fs[f].body, [fs[f].arity], [], args + Zeros(fs[f].locals), fuel), fs[f].arity)
  }

  /** A sequence of instructions: the first one, then the rest unless it transferred control. */
  function Eval(fs: seq<Func>, b: Body, arities: seq<nat>, vs: seq<Value>, ls: seq<Value>, fuel: nat): (r: Outcome)
    ensures |arities| > 0 ==> OutcomeOk(r, arities, ls)
    decreases fuel, 1, b, 2
  {
    if b.Done? then Next(vs, ls) else Then(fs, EvalFirst(fs, b, arities, vs, ls, fuel), b, arities, fuel)
  }

  /** The first instruction of a sequence.  A structured instruction runs its body on an empty stack
      under one more label. */
  function EvalFirst(fs: seq<Func>, b: Body, arities: seq<nat>, vs: seq<Value>, ls: seq<Value>, fuel: nat): (r: Outcome)
    requires !b.Done?
    ensures |arities| > 0 ==> OutcomeOk(r, arities, ls)
    decreases fuel, 1, b, 1
  {
    match b
    case Atomic(a, _) => EvalAtom(fs, a, arities, vs, ls, fuel)
    case Block(bt, body, _) => Exit(Eval(fs, body, [Arity(bt)] + arities, [], ls, fuel), Arity(bt), vs)
    case Loop(_, _, _) => EvalLoop(fs, b, arities, vs, ls, fuel)
    case If(bt, thn, _) =>
      if |vs| < 1 || Last(vs).w != W32 || Arity(bt) != 0 then Stuck
      else if Last(vs).n == 0 then Next(Pop(vs, 1), ls)
      else Exit(Eval(fs, thn, [0] + arities, [], ls, fuel), 0, Pop(vs, 1))
    case IfElse(bt, thn, els, _) =>
      if |vs| < 1 || Last(vs).w != W32 then Stuck
      else
        var arm := if Last(vs).n != 0 then thn else els;
        Exit(Eval(fs, arm, [Arity(bt)] + arities, [], ls, fuel), Arity(bt), Pop(vs, 1))
  }

  /** Continues after b's first instruction, unless it transferred control. */
  function Then(fs: seq<Func>, o: Outcome, b: Body, arities: seq<nat>, fuel: nat): (r: Outcome)
    requires !b.Done?
    ensures o.Next? && |arities| > 0 ==> OutcomeOk(r, arities, o.ls)
    ensures !o.Next? ==> r == o
    decreases fuel, 1, b, 0
  {
    if o.Next? then Eval(fs, b.next, arities, o.vs, o.ls, fuel) else o
  }

  /** A branch to a loop's label carries no values and starts the body again. */
  function EvalLoop(fs: seq<Func>, b: Body, arities: seq<nat>, vs: seq<Value>, ls: seq<Value>, fuel: nat): (r: Outcome)
    requires b.Loop?
    ensures |arities| > 0 ==> OutcomeOk(r, arities, ls)
    decreases fuel, 1, b, 0
  {
    var o := Eval(fs, b.body, [0] + arities, [], ls, fuel);
    if o.Branch? && o.depth == 0 then
      if fuel == 0 then NoFuel else EvalLoop(fs, b, arities, vs, o.ls, fuel - 1)
    else
      Exit(o, Arity(b.bt), vs)
  }
}
