/** The instruction sequences the JIT emits for each operation. */
module Codegen {
  import opened Words
  import opened Wasm
  import opened X86

  /** Spill the cached top of the operand stack. */
  function PushExpand(): seq<Instr> { [M(MovMemRax), P(AddRdi)] }

  /** Reload the cached top from memory; leaves the flags alone. */
  function PopContract(): seq<Instr> { [M(MovRaxBelow), P(LeaRdi)] }

  function PopSecondParam(swap: bool): seq<Instr> {
    if swap then [M(MovRcxRax), M(MovRaxBelow), P(SubRdi(1))] else [M(MovRcxBelow), P(SubRdi(1))]
  }

  function EnterBlock(): seq<Instr> { PushExpand() + [P(PushRdi)] }

  function LeaveBlock(hasReturn: bool): seq<Instr> {
    [P(PopRdi)] + if hasReturn then [] else PopContract()
  }

  function CondOf(r: RelOp): Cond {
    match r
    case Eq => CondE case Ne => CondNE
    case LtS => CondL case LtU => CondB
    case GtS => CondG case GtU => CondA
    case LeS => CondLE case LeU => CondBE
    case GeS => CondGE case GeU => CondAE
  }

  function Compare(w: Width, cc: Cond): seq<Instr> {
    [M(MovRcxBelow), P(SubRdi(1)), A(CmpRcxRax(w)), R(MovImm(W32, 1)), J(JccShort(cc, 2)), A(ZeroRax(W32))]
  }

  function EqzCode(w: Width): seq<Instr> {
    [if w.W32? then A(TestEax) else A(TestRax), R(MovImm(W32, 1)), J(JccShort(CondE, 2)), A(ZeroRax(W32))]
  }

  function SelectCode(): seq<Instr> {
    [P(SubRdi(2)), A(ZeroRcx), A(TestEax), J(JccShort(CondNE, 4)), P(AddRcx8), M(MovRaxIndexed)]
  }

  /** Branchless absolute value of rax. */
  function AbsCode(w: Width): seq<Instr> { [R(Cdq(w)), A(XorRaxRdx(w)), A(SubRaxRdx(w))] }

  /** Divides the second operand by rax. */
  function DivideCode(w: Width, signed: bool, modulo: bool): seq<Instr> {
    [P(SubRdi(1)), X(XchgMem(w))]
    + (if signed then [R(Cdq(w)), X(IdivMem(w))] else [A(ZeroEdx), X(DivMem(w))])
    + if modulo then [R(MovRaxRdx(w))] else []
  }

  /** div and rem; the divisor of a signed remainder is first replaced by its absolute value. */
  function DivCode(w: Width, signed: bool, modulo: bool): seq<Instr> {
    (if signed && modulo then AbsCode(w) else []) + DivideCode(w, signed, modulo)
  }

  function BinCode(w: Width, b: IntOp): seq<Instr> {
    match b
    case Add => PopSecondParam(false) + [A(Alu(AluAdd, w))]
    case Sub => PopSecondParam(true) + [A(Alu(AluSub, w))]
    case Mul => [X(MulBelow(w)), P(SubRdi(1))]
    case And => PopSecondParam(false) + [A(Alu(AluBits(AndBits), w))]
    case Or => PopSecondParam(false) + [A(Alu(AluBits(OrBits), w))]
    case Xor => PopSecondParam(false) + [A(Alu(AluBits(XorBits), w))]
    case Shifted(s) => PopSecondParam(true) + [A(Alu(AluShift(s), w))]
    case DivS => DivCode(w, true, false)
    case DivU => DivCode(w, false, false)
    case RemS => DivCode(w, true, true)
    case RemU => DivCode(w, false, true)
  }

  function UnCode(w: Width, u: UnOp): seq<Instr> {
    match u
    case Clz => [A(Lzcnt(w))]
    case Ctz => [A(Tzcnt(w))]
    case PopCount => [if w.W32? then M(MovMemEax) else M(MovMemRax), X(PopcntMem(w))]
  }

  function OpCode(op: Op): seq<Instr> {
    match op
    case Nop => []
    case Unreachable => [J(Ud2)]
    case Drop => PopContract()
    case Select => SelectCode()
    case Const(v) => PushExpand() + [if v.n == 0 then A(ZeroRax(v.w)) else R(MovImm(v.w, v.n))]
    case GetLocal(i) => PushExpand() + [M(LoadLocal(i))]
    case SetLocal(i) => [M(StoreLocal(i))] + PopContract()
    case TeeLocal(i) => [M(StoreLocal(i))]
    case Eqz(w) => EqzCode(w)
    case Rel(w, r) => Compare(w, CondOf(r))
    case Un(w, u) => UnCode(w, u)
    case Bin(w, b) => BinCode(w, b)
    case WrapI64 => [M(MovEaxEax)]
    case ExtendU => []   // relies on the upper half of every i32 being zero
    case ExtendS => [M(MovMemEax), M(MovsxdRaxMem)]
  }
}
