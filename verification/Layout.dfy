/** What a body compiles to when every branch target is known in advance: the specification of the
    one-pass emitter, which has to patch its forward branches afterwards. */
module Layout {
  import opened Words
  import opened Wasm
  import opened X86
  import opened Codegen

  datatype Sig = Sig(cparams: nat, hasReturn: bool)

  /** What the compilation of one function depends on: how many functions are imports, every
      function's signature, and the number of locals (parameters included) of this one. */
  datatype Env = Env(imports: nat, sigs: seq<Sig>, clocals: nat)

  /** The branch table helper's pointer is the second after the function table. */
  function BranchTableSlot(env: Env): nat { 8 * |env.sigs| + 8 }

  function Keep(bt: BlockType): bool { bt != EMPTY_BLOCK }

  // ---------- well-formed bodies ----------

  predicate OpOk(env: Env, op: Op) {
    match op
    case GetLocal(i) => i < env.clocals
    case SetLocal(i) => i < env.clocals
    case TeeLocal(i) => i < env.clocals
    case _ => true
  }

  predicate DepthsOk(ts: seq<nat>, n: nat) {
    forall i :: 0 <= i < |ts| ==> ts[i] < n
  }

  /** What the emitter verifies of an instruction under n labels. */
  predicate AtomOk(env: Env, a: Atom, n: nat) {
    match a
    case Plain(op) => OpOk(env, op)
    case Br(d) => d < n
    case BrIf(d) => d < n
    case BrTable(ts, d) => d < n && DepthsOk(ts, n)
    case Return => true
    case Call(f) => f < |env.sigs|
  }

  predicate BodyOk(env: Env, b: Body, n: nat) {
    match b
    case Done => true
    case Atomic(a, next) => AtomOk(env, a, n) && BodyOk(env, next, n)
    case IfElse(_, body, els, next) => BodyOk(env, body, n + 1) && BodyOk(env, els, n + 1) && BodyOk(env, next, n)
    case _ => BodyOk(env, b.body, n + 1) && BodyOk(env, b.next, n)
  }

  function CallsOf(a: Atom): seq<nat> { if a.Call? then [a.fn] else [] }

  /** The functions a body calls directly, in the order of the call instructions. */
  function BodyCalls(b: Body): seq<nat> {
    match b
    case Done => []
    case Atomic(a, next) => CallsOf(a) + BodyCalls(next)
    case IfElse(_, body, els, next) => BodyCalls(body) + BodyCalls(els) + BodyCalls(next)
    case _ => BodyCalls(b.body) + BodyCalls(b.next)
  }

  // ---------- pieces of code ----------

  /** mov r12, opcode: emitted before every opcode. */
  function Dbg(opcode: nat): (s: seq<Cell>)
    ensures |s| == 7
  {
    Cells(R(MovR12(opcode)))
  }

  function Field(d: int): (s: seq<Cell>)
    ensures |s| == 4
  {
    [Rel32(d)] + Tails(3)
  }

  /** A jump at q; one whose target is not known yet jumps to itself. */
  function JumpCode(q: nat, target: Option<nat>): (s: seq<Cell>)
    ensures |s| == 5
  {
    Cells(J(Jmp)) + Field(if target.Some? then target.value - (q + 5) else -5)
  }

  function JzCode(d: int): (s: seq<Cell>)
    ensures |s| == 6
  {
    Cells(J(Jz)) + Field(d)
  }

  /** Leaving the d innermost blocks, then the one the branch is to. */
  function LeaveCode(d: nat, keep: bool): seq<Instr> {
    if d == 0 then LeaveBlock(keep) else LeaveBlock(true) + LeaveCode(d - 1, keep)
  }

  function LeaveSize(d: nat, keep: bool): nat { |Asm(LeaveCode(d, keep))| }

  function BrIfTest(): seq<Instr> { [A(TestRax)] + PopContract() }

  function IfTest(): seq<Instr> { [P(SubRdi(1)), A(TestRax), M(MovRaxMem)] }

  function Entry(depth: nat, target: Option<nat>): (s: seq<Cell>)
    ensures |s| == 16
  {
    [Qword(depth)] + Tails(7) + [Ptr(if target.Some? then target.value else 0)] + Tails(7)
  }

  function Entries(ts: seq<nat>, at: seq<Option<nat>>): (s: seq<Cell>)
    requires DepthsOk(ts, |at|)
    ensures |s| == 16 * |ts|
  {
    if |ts| == 0 then [] else Entry(ts[0], at[ts[0]]) + Entries(ts[1..], at)
  }

  function TableHead(env: Env, q: nat, count: nat, keep: bool): (s: seq<Cell>)
    ensures |s| == 21
  {
    Cells(J(LeaRcxRip(6))) + Cells(J(JmpHelper(BranchTableSlot(env) - (q + 13))))
    + [Dword(count)] + Tails(3) + [Dword(if keep then 1 else 0)] + Tails(3)
  }

  function SetArgs(n: nat): seq<Instr> {
    if n == 0 then [] else [M(StoreLocal(n - 1))] + PopContract() + SetArgs(n - 1)
  }

  /** Arguments into fresh locals, the operand stack spilled and its pointer saved. */
  function CallSetup(env: Env, f: nat): seq<Instr>
    requires f < |env.sigs|
  {
    [P(AddRbx(env.clocals))] + SetArgs(env.sigs[f].cparams) + EnterBlock()
    + if f < env.imports then [R(MovEcxImm(f))] else []
  }

  function CallCleanup(env: Env, f: nat): seq<Instr>
    requires f < |env.sigs|
  {
    [P(PopRdi), P(SubRbx(env.clocals))] + if env.sigs[f].hasReturn then [] else PopContract()
  }

  function AtomSize(env: Env, a: Atom, keeps: seq<bool>): nat
    requires AtomOk(env, a, |keeps|)
  {
    match a
    case Plain(op) => |Asm(OpCode(op))|
    case Br(d) => LeaveSize(d, keeps[d]) + 5
    case BrIf(d) => |Asm(BrIfTest())| + 6 + LeaveSize(d, keeps[d]) + 5
    case BrTable(ts, d) => 37 + 16 * |ts|
    case Return => |Asm([P(AddRsp(|keeps|))])| + 1
    case Call(f) => |Asm(CallSetup(env, f))| + 6 + |Asm(CallCleanup(env, f))|
  }

  /** Code of an instruction at p.  `rt` are the targets that relative branches use and `at` those
      that branch tables use: the emitter patches the two kinds one after the other. */
  function GenAtom(env: Env, a: Atom, p: nat, keeps: seq<bool>, rt: seq<Option<nat>>, at: seq<Option<nat>>): (s: seq<Cell>)
    requires AtomOk(env, a, |keeps|) && |rt| == |keeps| == |at|
    ensures |s| == AtomSize(env, a, keeps)
  {
    match a
    case Plain(op) => Asm(OpCode(op))
    case Br(d) => Asm(LeaveCode(d, keeps[d])) + JumpCode(p + LeaveSize(d, keeps[d]), rt[d])
    case BrIf(d) =>
      var n, m := LeaveSize(d, keeps[d]), |Asm(BrIfTest())|;
      Asm(BrIfTest()) + JzCode(n + 5) + Asm(LeaveCode(d, keeps[d])) + JumpCode(p + m + 6 + n, rt[d])
    case BrTable(ts, d) =>
      TableHead(env, p, |ts|, keeps[d]) + Entry(d, at[d]) + Entries(ts, at)
    case Return => Asm([P(AddRsp(|keeps|))]) + Cells(J(Ret))
    case Call(f) =>
      var n := |Asm(CallSetup(env, f))|;
      Asm(CallSetup(env, f)) + Cells(J(CallTable(8 * f - (p + n + 6)))) + Asm(CallCleanup(env, f))
  }

  // ---------- opcode numbers ----------

  function RelIndex(r: RelOp): nat {
    match r
    case Eq => 0 case Ne => 1 case LtS => 2 case LtU => 3 case GtS => 4 case GtU => 5
    case LeS => 6 case LeU => 7 case GeS => 8 case GeU => 9
  }

  function BinIndex(b: IntOp): nat {
    match b
    case Add => 0 case Sub => 1 case Mul => 2 case DivS => 3 case DivU => 4 case RemS => 5 case RemU => 6
    case And => 7 case Or => 8 case Xor => 9
    case Shifted(s) =>
      (match s case Shl => 10 case ShrS => 11 case ShrU => 12 case Rotl => 13 case Rotr => 14)
  }

  function UnIndex(u: UnOp): nat { match u case Clz => 0 case Ctz => 1 case PopCount => 2 }

  function OpByte(op: Op): nat {
    match op
    case Unreachable => 0x00
    case Nop => 0x01
    case Drop => 0x1a
    case Select => 0x1b
    case GetLocal(_) => 0x20
    case SetLocal(_) => 0x21
    case TeeLocal(_) => 0x22
    case Const(v) => if v.w.W32? then 0x41 else 0x42
    case Eqz(w) => if w.W32? then 0x45 else 0x50
    case Rel(w, r) => (if w.W32? then 0x46 else 0x51) + RelIndex(r)
    case Un(w, u) => (if w.W32? then 0x67 else 0x79) + UnIndex(u)
    case Bin(w, b) => (if w.W32? then 0x6a else 0x7c) + BinIndex(b)
    case WrapI64 => 0xa7
    case ExtendS => 0xac
    case ExtendU => 0xad
  }

  function AtomByte(a: Atom): nat {
    match a
    case Plain(op) => OpByte(op)
    case Br(_) => 0x0c
    case BrIf(_) => 0x0d
    case BrTable(_, _) => 0x0e
    case Return => 0x0f
    case Call(_) => 0x10
  }

  const BLOCK := 0x02
  const LOOP := 0x03
  const IF := 0x04
  const ELSE := 0x05
  const END := 0x0b

  // ---------- structured code ----------

  function Enter(): (s: seq<Cell>) { Asm(EnterBlock()) }

  /** Code up to the first instruction of b's (first) body; a false condition jumps to `other`. */
  function Head(b: Body, p: nat, other: int): (s: seq<Cell>)
    requires Nested(b)
    ensures |s| == HeadSize(b)
  {
    if b.Block? then Dbg(BLOCK) + Enter()
    else if b.Loop? then Dbg(LOOP) + Enter()
    else Dbg(IF) + Asm(IfTest()) + JzCode(other - (p + 13 + |Asm(IfTest())|)) + Enter()
  }

  predicate Nested(b: Body) { !b.Done? && !b.Atomic? }

  function HeadSize(b: Body): nat
    requires Nested(b)
  {
    if b.Block? || b.Loop? then 7 + |Enter()| else 13 + |Asm(IfTest())| + |Enter()|
  }

  /** The end of a then-arm that is followed by an else-arm, at q. */
  function ElseCode(q: nat, target: Option<nat>): (s: seq<Cell>)
    ensures |s| == ElseSize() + |Enter()|
  {
    Dbg(ELSE) + Asm(LeaveBlock(true)) + JumpCode(q + 7 + |Asm(LeaveBlock(true))|, target) + Enter()
  }

  /** Up to where the else-arm starts. */
  function ElseSize(): nat { 7 + |Asm(LeaveBlock(true))| + 5 }

  function Close(keep: bool): (s: seq<Cell>)
    ensures |s| == CloseSize(keep)
  {
    Dbg(END) + Asm(LeaveBlock(keep))
  }

  function CloseSize(keep: bool): nat { 7 + |Asm(LeaveBlock(keep))| }

  lemma BodyOkParts(env: Env, b: Body, n: nat)
    requires Nested(b) && BodyOk(env, b, n)
    ensures BodyOk(env, b.body, n + 1) && BodyOk(env, b.next, n)
    ensures b.IfElse? ==> BodyOk(env, b.els, n + 1)
  {
    hide AtomOk;
  }

  /** Size of everything from b's body to the end of its block. */
  function InnerSize(env: Env, b: Body, keeps: seq<bool>): nat
    requires Nested(b) && BodyOk(env, b, |keeps|)
    decreases b, 0
  {
    var k := [Keep(b.bt)] + keeps;
    Size(env, b.body, k)
    + (if b.IfElse? then ElseSize() + |Enter()| + Size(env, b.els, k) else 0)
    + CloseSize(Keep(b.bt))
  }

  function Size(env: Env, b: Body, keeps: seq<bool>): nat
    requires BodyOk(env, b, |keeps|)
    decreases b, 1
  {
    match b
    case Done => 0
    case Atomic(a, next) => 7 + AtomSize(env, a, keeps) + Size(env, next, keeps)
    case _ => HeadSize(b) + InnerSize(env, b, keeps) + Size(env, b.next, keeps)
  }

  lemma SizeParts(env: Env, b: Body, keeps: seq<bool>)
    requires BodyOk(env, b, |keeps|)
    ensures b.Done? ==> Size(env, b, keeps) == 0
    ensures b.Atomic? ==>
      && AtomOk(env, b.atom, |keeps|) && BodyOk(env, b.next, |keeps|)
      && Size(env, b, keeps) == 7 + AtomSize(env, b.atom, keeps) + Size(env, b.next, keeps)
    ensures Nested(b) ==>
      && BodyOk(env, b.next, |keeps|)
      && Size(env, b, keeps) == HeadSize(b) + InnerSize(env, b, keeps) + Size(env, b.next, keeps)
  {
    hide AtomOk, AtomSize, HeadSize, InnerSize;
  }

  /** Where control goes after b's block: just past the leave code of its end. */
  function EndOf(env: Env, b: Body, p: nat, keeps: seq<bool>): nat
    requires Nested(b) && BodyOk(env, b, |keeps|)
  {
    p + HeadSize(b) + InnerSize(env, b, keeps)
  }

  /** Where a branch to b's label goes. */
  function LabelOf(env: Env, b: Body, p: nat, keeps: seq<bool>): nat
    requires Nested(b) && BodyOk(env, b, |keeps|)
  {
    if b.Loop? then p + 7 else EndOf(env, b, p, keeps)
  }

  /** Where a false condition goes. */
  function OtherOf(env: Env, b: Body, p: nat, keeps: seq<bool>): nat
    requires Nested(b) && BodyOk(env, b, |keeps|)
  {
    if b.IfElse? then p + HeadSize(b) + Size(env, b.body, [Keep(b.bt)] + keeps) + ElseSize()
    else EndOf(env, b, p, keeps)
  }

  /** From b's body to the end of its block, given the label's targets. */
  function Inner(env: Env, b: Body, p: nat, keeps: seq<bool>, rt: seq<Option<nat>>, at: seq<Option<nat>>,
                 lr: Option<nat>, la: Option<nat>): (s: seq<Cell>)
    requires Nested(b) && BodyOk(env, b, |keeps|) && |rt| == |keeps| == |at|
    ensures |s| == InnerSize(env, b, keeps)
    decreases b, 0
  {
    hide HeadSize, ElseSize, CloseSize, Close, ElseCode, Enter, AtomOk, AtomSize, Keep, Size, BodyOk;
    BodyOkParts(env, b, |keeps|);
    var k, r, t := [Keep(b.bt)] + keeps, [lr] + rt, [la] + at;
    var q := p + HeadSize(b) + Size(env, b.body, k);
    Gen(env, b.body, p + HeadSize(b), k, r, t)
    + (if b.IfElse? then ElseCode(q, lr) + Gen(env, b.els, q + ElseSize() + |Enter()|, k, r, t) else [])
    + Close(Keep(b.bt))
  }

  function Gen(env: Env, b: Body, p: nat, keeps: seq<bool>, rt: seq<Option<nat>>, at: seq<Option<nat>>): (s: seq<Cell>)
    requires BodyOk(env, b, |keeps|) && |rt| == |keeps| == |at|
    ensures |s| == Size(env, b, keeps)
    decreases b, 1
  {
    hide AtomOk, AtomByte, AtomSize, GenAtom, Dbg, HeadSize, InnerSize, Head, EndOf, OtherOf, LabelOf, Size, BodyOk;
    SizeParts(env, b, keeps);
    match b
    case Done => []
    case Atomic(a, next) =>
      Dbg(AtomByte(a)) + GenAtom(env, a, p + 7, keeps, rt, at)
      + Gen(env, next, p + 7 + AtomSize(env, a, keeps), keeps, rt, at)
    case _ =>
      var l := Some(LabelOf(env, b, p, keeps));
      Head(b, p, OtherOf(env, b, p, keeps)) + Inner(env, b, p, keeps, rt, at, l, l)
      + Gen(env, b.next, EndOf(env, b, p, keeps), keeps, rt, at)
  }

  // The defining equations of Gen and Inner, one case at a time.

  lemma GenAtomic(env: Env, a: Atom, next: Body, p: nat, keeps: seq<bool>, rt: seq<Option<nat>>, at: seq<Option<nat>>)
    requires BodyOk(env, Atomic(a, next), |keeps|) && |rt| == |keeps| == |at|
    ensures AtomOk(env, a, |keeps|) && BodyOk(env, next, |keeps|)
    ensures Gen(env, Atomic(a, next), p, keeps, rt, at)
         == Dbg(AtomByte(a)) + GenAtom(env, a, p + 7, keeps, rt, at)
            + Gen(env, next, p + 7 + AtomSize(env, a, keeps), keeps, rt, at)
  {
    hide GenAtom, AtomSize, AtomByte, AtomOk, Size, Dbg;
  }

  lemma GenCall(env: Env, f: U32, p: nat, keeps: seq<bool>, rt: seq<Option<nat>>, at: seq<Option<nat>>)
    requires AtomOk(env, Call(f), |keeps|) && |rt| == |keeps| == |at|
    ensures f < |env.sigs|
    ensures var s1, s2 := CallSetup(env, f), CallCleanup(env, f);
      && GenAtom(env, Call(f), p, keeps, rt, at)
         == Asm(s1) + Cells(J(CallTable(8 * f - (p + |Asm(s1)| + 6)))) + Asm(s2)
      && AtomSize(env, Call(f), keeps) == |Asm(s1)| + 6 + |Asm(s2)|
  {
    hide Asm, CallSetup, CallCleanup, Cells, Off;
  }

  lemma GenNested(env: Env, b: Body, p: nat, keeps: seq<bool>, rt: seq<Option<nat>>, at: seq<Option<nat>>, l: Option<nat>)
    requires Nested(b) && BodyOk(env, b, |keeps|) && |rt| == |keeps| == |at|
    requires l == Some(LabelOf(env, b, p, keeps))
    ensures BodyOk(env, b.next, |keeps|)
    ensures Gen(env, b, p, keeps, rt, at)
         == Head(b, p, OtherOf(env, b, p, keeps)) + Inner(env, b, p, keeps, rt, at, l, l)
            + Gen(env, b.next, EndOf(env, b, p, keeps), keeps, rt, at)
  {
    hide Size, Head, HeadSize, OtherOf, LabelOf, EndOf, Inner, InnerSize, AtomOk;
  }

  // ---------- whole functions ----------

  const NONE_TYPE: BlockType := 0

  function Prologue(env: Env, cparams: nat): (s: seq<Cell>)
    requires cparams <= env.clocals
  {
    (if env.clocals > cparams then Cells(X(ZeroLocals(cparams, env.clocals - cparams))) else []) + Enter()
  }

  /** Where a branch to the function's own label goes: the final `ret`. */
  function FnEnd(env: Env, cparams: nat, b: Body, p: nat): nat
    requires cparams <= env.clocals && BodyOk(env, b, 1)
  {
    p + |Prologue(env, cparams)| + Size(env, b, [true]) + CloseSize(true)
  }

  function GenFn(env: Env, cparams: nat, b: Body, p: nat): (s: seq<Cell>)
    requires cparams <= env.clocals && BodyOk(env, b, 1)
  {
    var l := [Some(FnEnd(env, cparams, b, p))];
    Prologue(env, cparams) + Gen(env, b, p + |Prologue(env, cparams)|, [true], l, l) + Close(true) + Cells(J(Ret))
  }
}
