/** The target: the x86-64 instructions the JIT emits, an executable plane of byte-addressed
    cells, and a small-step machine over them.

    Addresses in the plane are byte offsets from its start.  The operand stack (rdi) and the
    locals (rbx) are separate regions of 8-byte slots, and rdi and rbx count slots, so `sub rdi, 8`
    moves rdi by one.  `rs` is the machine stack, its top first. */
module X86 {
  import opened Words

  datatype Cond = CondE | CondNE | CondL | CondLE | CondG | CondGE | CondB | CondBE | CondA | CondAE

  datatype AluOp = AluAdd | AluSub | AluBits(b: BitOp) | AluShift(s: ShiftOp)

  /** Instructions by class. */
  datatype Instr = M(move: Move) | R(regOp: RegOp) | P(pointer: Pointer) | A(arith: Arith) | X(memArith: MemArith) | J(jump: Jump)

  /** Data movement; flags untouched. */
  datatype Move =
    | MovMemRax  // mov [rdi], rax
    | MovMemEax  // mov [rdi], eax
    | MovRaxBelow  // mov rax, [rdi-8]
    | MovRaxMem  // mov rax, [rdi]
    | MovRcxBelow  // mov rcx, [rdi-8]
    | MovRcxRax  // mov rcx, rax
    | MovEaxEax  // mov eax, eax
    | MovsxdRaxMem  // movsxd rax, dword ptr [rdi]
    | MovRaxIndexed  // mov rax, [rdi+rcx]
    | StoreLocal(idx: nat)  // mov [rbx+8*idx], rax
    | LoadLocal(idx: nat)  // mov rax, [rbx+8*idx]

  /** Registers only; flags untouched. */
  datatype RegOp =
    | MovRaxRdx(w: Width)  // mov eax/rax, edx/rdx
    | MovImm(w: Width, imm: nat)  // mov eax/rax, imm
    | MovEcxImm(imm: nat)  // mov ecx, imm
    | MovR12(imm: nat)  // mov r12, imm
    | Cdq(w: Width)  // cdq / cqo

  /** Stack pointers. */
  datatype Pointer =
    | AddRdi  // add rdi, 8
    | SubRdi(slots: nat)  // sub rdi, 8*slots
    | LeaRdi  // lea rdi, [rdi-8]
    | PushRdi
    | PopRdi
    | AddRbx(slots: nat)
    | SubRbx(slots: nat)
    | AddRsp(slots: nat)
    | AddRcx8  // add rcx, 8

  /** Arithmetic and flags. */
  datatype Arith =
    | ZeroRax(w: Width)  // xor eax, eax / xor rax, rax
    | ZeroRcx  // xor rcx, rcx
    | ZeroEdx  // xor edx, edx
    | TestRax
    | TestEax
    | CmpRcxRax(w: Width)
    | Alu(op: AluOp, w: Width)  // op rax, rcx (shifts count in cl)
    | XorRaxRdx(w: Width)
    | SubRaxRdx(w: Width)
    | Tzcnt(w: Width)
    | Lzcnt(w: Width)

  /** Arithmetic on a memory operand. */
  datatype MemArith =
    | MulBelow(w: Width)  // mul [rdi-8]
    | XchgMem(w: Width)  // xchg eax/rax, [rdi]
    | IdivMem(w: Width)
    | DivMem(w: Width)
    | PopcntMem(w: Width)
    | ZeroLocals(first: nat, count: nat)  // xor eax,eax; mov rdx,rdi; lea rdi,[rbx+8*first]; mov rcx,count; rep stosq; mov rdi,rdx

  /** Control transfer. */
  datatype Jump =
    | Ud2
    | JccShort(cc: Cond, skip: nat)  // jcc rel8
    | Jz
    | Jmp
    | CallTable(rel: int)  // call [rip+rel]
    | LeaRcxRip(rel: int)  // lea rcx, [rip+rel]
    | JmpHelper(rel: int)  // jmp [rip+rel]
    | Ret

  function Rex(w: Width): nat { if w.W64? then 1 else 0 }

  /** Encoded length in bytes, not counting a patchable rel32 field. */
  function Len(i: Instr): (n: nat)
    ensures n > 0
  {
    match i
    case M(o) =>
      (match o
       case MovMemRax | MovRaxMem | MovRcxRax | MovsxdRaxMem => 3
       case MovMemEax | MovEaxEax => 2
       case MovRaxBelow | MovRcxBelow | MovRaxIndexed => 4
       case StoreLocal(_) | LoadLocal(_) => 7)
    case R(o) =>
      (match o
       case MovRaxRdx(w) => 2 + Rex(w)
       case MovImm(w, _) => if w.W32? then 5 else 10
       case MovEcxImm(_) => 5
       case MovR12(_) => 7
       case Cdq(w) => 1 + Rex(w))
    case P(o) =>
      (match o
       case AddRdi | SubRdi(_) | LeaRdi | AddRcx8 => 4
       case PushRdi | PopRdi => 1
       case AddRbx(_) | SubRbx(_) | AddRsp(_) => 7)
    case A(o) =>
      (match o
       case ZeroRax(w) => 2 + Rex(w)
       case CmpRcxRax(w) => 2 + Rex(w)
       case Alu(_, w) => 2 + Rex(w)
       case XorRaxRdx(w) => 2 + Rex(w)
       case SubRaxRdx(w) => 2 + Rex(w)
       case ZeroRcx | TestRax => 3
       case ZeroEdx | TestEax => 2
       case Tzcnt(w) => 4 + Rex(w)
       case Lzcnt(w) => 4 + Rex(w))
    case X(o) =>
      (match o
       case MulBelow(w) => 3 + Rex(w)
       case XchgMem(w) => 2 + Rex(w)
       case IdivMem(w) => 2 + Rex(w)
       case DivMem(w) => 2 + Rex(w)
       case PopcntMem(w) => 4 + Rex(w)
       case ZeroLocals(_, _) => 25)
    case J(o) =>
      (match o
       case Ud2 | JccShort(_, _) | Jz => 2
       case Jmp | Ret => 1
       case CallTable(_) | JmpHelper(_) => 6
       case LeaRcxRip(_) => 7)
  }

  /** What one byte of the plane holds: the first byte of an instruction, pointer or patchable
      field, or a later byte of one. */
  datatype Helper = WasmToC | CallIndirectShim | BranchTable | U64ToF32 | U64ToF64 | GrowMemoryOp | F32ToU64Trunc | F64ToU64Trunc

  datatype Cell =
    | Ins(i: Instr)
    | Rel32(d: int)
    | Dword(n: nat)
    | Qword(q: nat)
    | Ptr(a: nat)        // an 8-byte pointer into the plane; 0 is null
    | Extern(h: Helper)  // an 8-byte pointer to a routine outside the plane
    | Hlt                // never written
    | Tail

  // ---------- machine state ----------

  datatype Flags = Undefined | Flags(zf: bool, cf: bool, sf: bool, of: bool)

  type Memory = map<int, Word>

  datatype Cpu = Cpu(pc: int, rax: Word, rcx: Word, rdx: Word, rdi: int, rbx: int, fl: Flags,
                     mem: Memory, loc: Memory, rs: seq<int>)

  function Rd(m: Memory, a: int): Word { if a in m then m[a] else 0 }

  /** A 4-byte store changes the low half of the slot. */
  function Store32(m: Memory, a: int, v: Word): Memory {
    m[a := Rd(m, a) / T32 * T32 + v % T32]
  }

  function StoreW(w: Width, m: Memory, a: int, v: Word): Memory {
    if w.W32? then Store32(m, a, v) else m[a := v]
  }

  function AfterSub(w: Width, a: Word, b: Word): Flags {
    var d := Lo(w, a - b);
    Flags(d == 0, a < b, d >= Half(w), Signed(w, a) - Signed(w, b) != Signed(w, d))
  }

  function AfterTest(w: Width, x: Word): Flags {
    Flags(x == 0, false, x >= Half(w), false)
  }

  predicate Holds(cc: Cond, f: Flags)
    requires f.Flags?
  {
    match cc
    case CondE => f.zf
    case CondNE => !f.zf
    case CondL => f.sf != f.of
    case CondLE => f.zf || f.sf != f.of
    case CondG => !f.zf && f.sf == f.of
    case CondGE => f.sf == f.of
    case CondB => f.cf
    case CondBE => f.cf || f.zf
    case CondA => !f.cf && !f.zf
    case CondAE => !f.cf
  }

  datatype Result = Go(c: Cpu) | Fault | Bad

  function AluResult(op: AluOp, w: Width, a: Word, cx: Word): Word {
    match op
    case AluAdd => Lo(w, a + cx)
    case AluSub => Lo(w, a - cx)
    case AluBits(b) => Lo(w, BitwiseW(b, w, a, cx))
    case AluShift(s) => Shift(s, w, a, (cx % 256) % Bits(w))
  }

  /** Signed division of the double-width number rdx:rax; #DE when the quotient does not fit. */
  function Idiv(w: Width, hi: Word, lo: Word, divisor: Word, c: Cpu): Result
    requires hi < Mod(w) && lo < Mod(w)
  {
    var n := Signed(w, hi) * Mod(w) + lo;
    var d := Signed(w, divisor);
    if d == 0 then Fault
    else
      var q := TDiv(n, d);
      if 0 <= q + Half(w) < Mod(w) then Go(c.(rax := Lo(w, q), rdx := Lo(w, n - q * d), fl := Undefined)) else Fault
  }

  function Div(w: Width, hi: Word, lo: Word, divisor: Word, c: Cpu): Result {
    var n := hi * Mod(w) + lo;
    if divisor == 0 || n / divisor >= Mod(w) then Fault
    else Go(c.(rax := Lo(w, n / divisor), rdx := Lo(w, n % divisor), fl := Undefined))
  }

  function ZeroRange(m: Memory, a: int, n: nat): Memory {
    if n == 0 then m else ZeroRange(m, a, n - 1)[a + n - 1 := 0]
  }

  function DoMove(i: Move, c: Cpu): Result {
    match i
    case MovMemRax => Go(c.(mem := c.mem[c.rdi := c.rax]))
    case MovMemEax => Go(c.(mem := Store32(c.mem, c.rdi, c.rax)))
    case MovRaxBelow => Go(c.(rax := Rd(c.mem, c.rdi - 1)))
    case MovRaxMem => Go(c.(rax := Rd(c.mem, c.rdi)))
    case MovRcxBelow => Go(c.(rcx := Rd(c.mem, c.rdi - 1)))
    case MovRcxRax => Go(c.(rcx := c.rax))
    case MovEaxEax => Go(c.(rax := Lo(W32, c.rax)))
    case MovsxdRaxMem => Go(c.(rax := Lo(W64, Signed(W32, Rd(c.mem, c.rdi) % T32))))
    case MovRaxIndexed => if c.rcx % 8 == 0 then Go(c.(rax := Rd(c.mem, c.rdi + c.rcx / 8))) else Bad
    case StoreLocal(n) => Go(c.(loc := c.loc[c.rbx + n := c.rax]))
    case LoadLocal(n) => Go(c.(rax := Rd(c.loc, c.rbx + n)))
  }

  function DoRegOp(i: RegOp, c: Cpu): Result {
    match i
    case MovRaxRdx(w) => Go(c.(rax := Lo(w, c.rdx)))
    case MovImm(w, v) => Go(c.(rax := Lo(w, v)))
    case MovEcxImm(v) => Go(c.(rcx := Lo(W32, v)))
    case MovR12(_) => Go(c)
    case Cdq(w) => Go(c.(rdx := if Lo(w, c.rax) < Half(w) then 0 else Mod(w) - 1))
  }

  function DoPointer(i: Pointer, c: Cpu): Result {
    match i
    case AddRdi => Go(c.(rdi := c.rdi + 1, fl := Undefined))
    case SubRdi(n) => Go(c.(rdi := c.rdi - n, fl := Undefined))
    case LeaRdi => Go(c.(rdi := c.rdi - 1))
    case PushRdi => Go(c.(rs := [c.rdi] + c.rs))
    case PopRdi => if |c.rs| == 0 then Bad else Go(c.(rdi := c.rs[0], rs := c.rs[1..]))
    case AddRbx(n) => Go(c.(rbx := c.rbx + n, fl := Undefined))
    case SubRbx(n) => Go(c.(rbx := c.rbx - n, fl := Undefined))
    case AddRsp(n) => if n <= |c.rs| then Go(c.(rs := c.rs[n..], fl := Undefined)) else Bad
    case AddRcx8 => Go(c.(rcx := Lo(W64, c.rcx + 8), fl := Undefined))
  }

  function DoArith(i: Arith, c: Cpu): Result {
    match i
    case ZeroRax(_) => Go(c.(rax := 0, fl := Undefined))
    case ZeroRcx => Go(c.(rcx := 0, fl := Undefined))
    case ZeroEdx => Go(c.(rdx := 0, fl := Undefined))
    case TestRax => Go(c.(fl := AfterTest(W64, c.rax)))
    case TestEax => Go(c.(fl := AfterTest(W32, Lo(W32, c.rax))))
    case CmpRcxRax(w) => Go(c.(fl := AfterSub(w, Lo(w, c.rcx), Lo(w, c.rax))))
    case Alu(op, w) => Go(c.(rax := AluResult(op, w, Lo(w, c.rax), Lo(w, c.rcx)), fl := Undefined))
    case XorRaxRdx(w) => Go(c.(rax := BitwiseW(XorBits, w, Lo(w, c.rax), Lo(w, c.rdx)), fl := Undefined))
    case SubRaxRdx(w) => Go(c.(rax := Lo(w, c.rax - c.rdx), fl := Undefined))
    case Tzcnt(w) => Go(c.(rax := TrailingZeros(Lo(w, c.rax), Bits(w)), fl := Undefined))
    case Lzcnt(w) => Go(c.(rax := LeadingZeros(Lo(w, c.rax), Bits(w)), fl := Undefined))
  }

  function DoMemArith(i: MemArith, c: Cpu): Result {
    match i
    case MulBelow(w) =>
      var p := Lo(w, c.rax) * Lo(w, Rd(c.mem, c.rdi - 1));
      Go(c.(rax := Lo(w, p), rdx := Lo(w, p / Mod(w)), fl := Undefined))
    case XchgMem(w) => Go(c.(rax := Lo(w, Rd(c.mem, c.rdi)), mem := StoreW(w, c.mem, c.rdi, c.rax)))
    case IdivMem(w) => Idiv(w, Lo(w, c.rdx), Lo(w, c.rax), Lo(w, Rd(c.mem, c.rdi)), c)
    case DivMem(w) => Div(w, Lo(w, c.rdx), Lo(w, c.rax), Lo(w, Rd(c.mem, c.rdi)), c)
    case PopcntMem(w) => Go(c.(rax := Popcnt(Lo(w, Rd(c.mem, c.rdi)), Bits(w)), fl := Undefined))
    case ZeroLocals(first, n) =>
      Go(c.(rax := 0, rcx := 0, rdx := Lo(W64, c.rdi), fl := Undefined, loc := ZeroRange(c.loc, c.rbx + first, n)))
  }

  /** The effect of an instruction that does not transfer control (pc is left to the caller). */
  function Do(i: Instr, c: Cpu): Result {
    match i
    case M(o) => DoMove(o, c)
    case R(o) => DoRegOp(o, c)
    case P(o) => DoPointer(o, c)
    case A(o) => DoArith(o, c)
    case X(o) => DoMemArith(o, c)
    case J(o) => if o.Ud2? then Fault else Bad
  }

  /** The BranchTable routine: rax indexes the table at rcx; leave as many blocks as the entry says,
      carrying one operand when the header's flag is set, and jump to the entry's address. */
  function BranchTableProc(plane: seq<Cell>, c: Cpu): Result {
    var t := c.rcx;
    if t + 24 > |plane| || !plane[t].Dword? || !plane[t + 4].Dword? then Bad
    else
      var edx := Lo(W32, c.rax);
      var off := if edx < plane[t].n then Lo(W32, 16 * (edx + 1)) else 0;
      if t + 24 + off > |plane| || !plane[t + 8 + off].Qword? || !plane[t + 16 + off].Ptr? then Bad
      else
        var dist := Lo(W32, plane[t + 8 + off].q);
        if dist >= |c.rs| then Bad
        else
          var base := c.rs[dist];
          var c1 := c.(pc := plane[t + 16 + off].a, rdx := off, rs := c.rs[dist + 1..], fl := Undefined);
          if plane[t + 4].n != 0 then Go(c1.(rax := Rd(c.mem, c.rdi - 1), rdi := base))
          else Go(c1.(rdi := base - 1, rax := Rd(c.mem, base - 1)))
  }

  /** One machine step: fetch at pc, then execute. */
  function Step(plane: seq<Cell>, c: Cpu): Result {
    if !(0 <= c.pc < |plane|) || !plane[c.pc].Ins? then Bad
    else
      match plane[c.pc].i
      case J(Jmp) =>
        if c.pc + 1 < |plane| && plane[c.pc + 1].Rel32? then Go(c.(pc := c.pc + 5 + plane[c.pc + 1].d)) else Bad
      case J(Jz) =>
        if c.pc + 2 < |plane| && plane[c.pc + 2].Rel32? && c.fl.Flags?
        then Go(c.(pc := c.pc + 6 + if c.fl.zf then plane[c.pc + 2].d else 0)) else Bad
      case J(JccShort(cc, rel)) =>
        if c.fl.Flags? then Go(c.(pc := c.pc + 2 + if Holds(cc, c.fl) then rel else 0)) else Bad
      case J(CallTable(rel)) =>
        var slot := c.pc + 6 + rel;
        if 0 <= slot < |plane| && plane[slot].Ptr? && plane[slot].a != 0
        then Go(c.(pc := plane[slot].a, rs := [c.pc + 6] + c.rs)) else Bad
      case J(LeaRcxRip(rel)) => Go(c.(pc := c.pc + 7, rcx := Lo(W64, c.pc + 7 + rel)))
      case J(JmpHelper(rel)) =>
        var slot := c.pc + 6 + rel;
        if 0 <= slot < |plane| && plane[slot] == Extern(BranchTable) then BranchTableProc(plane, c) else Bad
      case J(Ret) => if |c.rs| == 0 then Bad else Go(c.(pc := c.rs[0], rs := c.rs[1..]))
      case i =>
        match Do(i, c)
        case Go(c') => Go(c'.(pc := c.pc + Len(i)))
        case r => r
  }

  function Run(plane: seq<Cell>, c: Cpu, n: nat): Result
    decreases n
  {
    if n == 0 then Go(c)
    else
      match Step(plane, c)
      case Go(c') => Run(plane, c', n - 1)
      case r => r
  }

  lemma {:induction false} RunAdd(plane: seq<Cell>, c: Cpu, m: nat, n: nat)
    requires Run(plane, c, m).Go?
    ensures Run(plane, c, m + n) == Run(plane, Run(plane, c, m).c, n)
    decreases m
  {
    if m > 0 {
      RunAdd(plane, Step(plane, c).c, m - 1, n);
    }
  }

  ghost predicate Reaches(plane: seq<Cell>, c: Cpu, c': Cpu) {
    exists n: nat :: Run(plane, c, n) == Go(c')
  }

  ghost predicate Faults(plane: seq<Cell>, c: Cpu) {
    exists n: nat :: Run(plane, c, n) == Fault
  }

  lemma ReachesTrans(plane: seq<Cell>, c: Cpu, c1: Cpu, c2: Cpu)
    requires Reaches(plane, c, c1) && Reaches(plane, c1, c2)
    ensures Reaches(plane, c, c2)
  {
    var m: nat :| Run(plane, c, m) == Go(c1);
    var n: nat :| Run(plane, c1, n) == Go(c2);
    RunAdd(plane, c, m, n);
    assert Run(plane, c, m + n) == Go(c2);
  }

  lemma ReachesFault(plane: seq<Cell>, c: Cpu, c1: Cpu)
    requires Reaches(plane, c, c1) && Faults(plane, c1)
    ensures Faults(plane, c)
  {
    var m: nat :| Run(plane, c, m) == Go(c1);
    var n: nat :| Run(plane, c1, n) == Fault;
    RunAdd(plane, c, m, n);
    assert Run(plane, c, m + n) == Fault;
  }

  lemma ReachesRefl(plane: seq<Cell>, c: Cpu)
    ensures Reaches(plane, c, c)
  {
    assert Run(plane, c, 0) == Go(c);
  }

  lemma ReachesStep(plane: seq<Cell>, c: Cpu, c': Cpu)
    requires Step(plane, c) == Go(c')
    ensures Reaches(plane, c, c')
  {
    assert Run(plane, c', 0) == Go(c');
    assert Run(plane, c, 1) == Go(c');
  }

  // ---------- straight-line code ----------

  function Tails(n: nat): (s: seq<Cell>)
    ensures |s| == n
  {
    seq(n, _ => Tail)
  }

  function Cells(i: Instr): (s: seq<Cell>)
    ensures |s| == Len(i) && s[0] == Ins(i)
  {
    [Ins(i)] + Tails(Len(i) - 1)
  }

  /** Byte offset of the k-th instruction of a straight-line sequence. */
  function Off(code: seq<Instr>, k: nat): nat
    requires k <= |code|
  {
    if k == 0 then 0 else Off(code, k - 1) + Len(code[k - 1])
  }

  function Asm(code: seq<Instr>): (s: seq<Cell>)
    ensures |s| == Off(code, |code|)
  {
    if |code| == 0 then [] else OffPrefix(code, |code| - 1); Asm(code[..|code| - 1]) + Cells(code[|code| - 1])
  }

  lemma {:induction false} OffPrefix(code: seq<Instr>, k: nat)
    requires k < |code|
    ensures Off(code[..|code| - 1], k) == Off(code, k)
  {
    if k > 0 { OffPrefix(code, k - 1); }
  }

  lemma {:induction false} AsmAt(code: seq<Instr>, k: nat)
    requires k < |code|
    ensures Off(code, k) < |Asm(code)| && Asm(code)[Off(code, k)] == Ins(code[k])
  {
    if k < |code| - 1 {
      AsmAt(code[..|code| - 1], k);
      OffPrefix(code, k);
    } else {
      OffPrefix(code, k);
    }
  }

  predicate IsShort(i: Instr) { i.J? && i.jump.JccShort? }

  /** Runs the instructions of `code` from the k-th on; a short jump skips exactly the next one. */
  function Exec(code: seq<Instr>, k: nat, c: Cpu): Result
    requires k <= |code|
    decreases |code| - k
  {
    if k == |code| then Go(c)
    else if IsShort(code[k]) then
      if !c.fl.Flags? then Bad
      else if !Holds(code[k].jump.cc, c.fl) then Exec(code, k + 1, c)
      else if k + 1 < |code| && Len(code[k + 1]) == code[k].jump.skip then Exec(code, k + 2, c) else Bad
    else
      match Do(code[k], c)
      case Go(c') => Exec(code, k + 1, c')
      case r => r
  }

  ghost predicate NoShortJump(code: seq<Instr>) {
    forall k :: 0 <= k < |code| ==> !IsShort(code[k])
  }

  /** Code without short jumps runs to its end before what follows it starts. */
  lemma ExecAppend(a: seq<Instr>, b: seq<Instr>, c: Cpu)
    requires NoShortJump(a)
    ensures Exec(a, 0, c).Go? ==> Exec(a + b, 0, c) == Exec(b, 0, Exec(a, 0, c).c)
    ensures !Exec(a, 0, c).Go? ==> Exec(a + b, 0, c) == Exec(a, 0, c)
  {
    ExecAppendFrom(a, b, 0, c);
  }

  lemma {:induction false} ExecAppendFrom(a: seq<Instr>, b: seq<Instr>, k: nat, c: Cpu)
    requires NoShortJump(a) && k <= |a|
    ensures Exec(a, k, c).Go? ==> Exec(a + b, k, c) == Exec(b, 0, Exec(a, k, c).c)
    ensures !Exec(a, k, c).Go? ==> Exec(a + b, k, c) == Exec(a, k, c)
    decreases |a| - k
  {
    if k == |a| {
      ExecShift(a, b, 0, c);
    } else {
      assert (a + b)[k] == a[k];
      if Do(a[k], c).Go? { ExecAppendFrom(a, b, k + 1, Do(a[k], c).c); }
    }
  }

  lemma {:induction false} ExecShift(a: seq<Instr>, b: seq<Instr>, j: nat, c: Cpu)
    requires j <= |b|
    ensures Exec(a + b, |a| + j, c) == Exec(b, j, c)
    decreases |b| - j
  {
    if j < |b| {
      assert (a + b)[|a| + j] == b[j];
      if IsShort(b[j]) {
        if c.fl.Flags? {
          if !Holds(b[j].jump.cc, c.fl) { ExecShift(a, b, j + 1, c); }
          else if j + 1 < |b| { assert (a + b)[|a| + j + 1] == b[j + 1]; ExecShift(a, b, j + 2, c); }
        }
      } else if Do(b[j], c).Go? {
        ExecShift(a, b, j + 1, Do(b[j], c).c);
      }
    }
  }

  lemma ExecOne(i: Instr, c: Cpu, c1: Cpu)
    requires !i.J? && Do(i, c) == Go(c1)
    ensures Exec([i], 0, c) == Go(c1)
  {
    assert Exec([i], 1, c1) == Go(c1);
  }

  lemma ExecTwo(s: seq<Instr>, c: Cpu, c1: Cpu, c2: Cpu)
    requires |s| == 2 && !s[0].J? && !s[1].J?
    requires Do(s[0], c) == Go(c1) && Do(s[1], c1) == Go(c2)
    ensures Exec(s, 0, c) == Go(c2)
  {
    assert Exec(s, 1, c1) == Exec(s, 2, c2);
  }

  lemma ExecThree(s: seq<Instr>, c: Cpu, c1: Cpu, c2: Cpu, c3: Cpu)
    requires |s| == 3 && !s[0].J? && !s[1].J? && !s[2].J?
    requires Do(s[0], c) == Go(c1) && Do(s[1], c1) == Go(c2) && Do(s[2], c2) == Go(c3)
    ensures Exec(s, 0, c) == Go(c3)
  {
    assert Exec(s, 2, c2) == Exec(s, 3, c3);
  }

  /** The code bytes `s` are in the plane at p. */
  ghost predicate At(plane: seq<Cell>, p: int, s: seq<Cell>) {
    0 <= p && p + |s| <= |plane| && forall i :: 0 <= i < |s| ==> plane[p + i] == s[i]
  }

  /** Straight-line code in the plane does what `Exec` says. */
  lemma {:induction false} RunAsm(plane: seq<Cell>, code: seq<Instr>, k: nat, c: Cpu, p: int)
    requires k <= |code| && At(plane, p, Asm(code)) && c.pc == p + Off(code, k)
    ensures Exec(code, k, c).Go? ==> Reaches(plane, c, Exec(code, k, c).c.(pc := p + |Asm(code)|))
    ensures Exec(code, k, c).Fault? ==> Faults(plane, c)
    decreases |code| - k
  {
    if k == |code| {
      ReachesRefl(plane, c);
    } else {
      AsmAt(code, k);
      assert plane[c.pc] == Ins(code[k]);
      assert Off(code, k + 1) == Off(code, k) + Len(code[k]);
      var r := Exec(code, k, c);
      if IsShort(code[k]) {
        if !r.Bad? {
          var j := if Holds(code[k].jump.cc, c.fl) then k + 2 else k + 1;
          var c1 := c.(pc := p + Off(code, j));
          assert Step(plane, c) == Go(c1);
          ReachesStep(plane, c, c1);
          ExecPc(code, j, c, c1.pc);
          RunAsm(plane, code, j, c1, p);
          if r.Go? { ReachesTrans(plane, c, c1, r.c.(pc := p + |Asm(code)|)); }
          if r.Fault? { ReachesFault(plane, c, c1); }
        }
      } else if Do(code[k], c).Go? {
        var c0 := Do(code[k], c).c;
        var c1 := c0.(pc := p + Off(code, k + 1));
        assert Step(plane, c) == Go(c1);
        ReachesStep(plane, c, c1);
        ExecPc(code, k + 1, c0, c1.pc);
        RunAsm(plane, code, k + 1, c1, p);
        if r.Go? { ReachesTrans(plane, c, c1, r.c.(pc := p + |Asm(code)|)); }
        if r.Fault? { ReachesFault(plane, c, c1); }
      } else if r.Fault? {
        assert Step(plane, c) == Fault;
        assert Run(plane, c, 1) == Fault;
      }
    }
  }

  function WithPc(r: Result, pc: int): Result {
    match r
    case Go(c) => Go(c.(pc := pc))
    case _ => r
  }

  lemma DoPc(i: Instr, c: Cpu, pc: int)
    ensures Do(i, c.(pc := pc)) == WithPc(Do(i, c), pc)
  {
    match i
    case M(o) => DoMovePc(o, c, pc);
    case R(o) => assert DoRegOp(o, c.(pc := pc)) == WithPc(DoRegOp(o, c), pc);
    case P(o) => DoPointerPc(o, c, pc);
    case A(o) => DoArithPc(o, c, pc);
    case X(o) => DoMemArithPc(o, c, pc);
    case J(o) =>
  }

  lemma DoMovePc(o: Move, c: Cpu, pc: int)
    ensures DoMove(o, c.(pc := pc)) == WithPc(DoMove(o, c), pc)
  {
  }

  lemma DoPointerPc(o: Pointer, c: Cpu, pc: int)
    ensures DoPointer(o, c.(pc := pc)) == WithPc(DoPointer(o, c), pc)
  {
  }

  lemma DoArithPc(o: Arith, c: Cpu, pc: int)
    ensures DoArith(o, c.(pc := pc)) == WithPc(DoArith(o, c), pc)
  {
  }

  lemma DoMemArithPc(o: MemArith, c: Cpu, pc: int)
    ensures DoMemArith(o, c.(pc := pc)) == WithPc(DoMemArith(o, c), pc)
  {
  }

  /** Straight-line code does not depend on where it is. */
  lemma {:induction false} ExecPc(code: seq<Instr>, k: nat, c: Cpu, pc: int)
    requires k <= |code|
    ensures Exec(code, k, c.(pc := pc)) == WithPc(Exec(code, k, c), pc)
    decreases |code| - k
  {
    if k < |code| {
      if IsShort(code[k]) {
        if c.fl.Flags? {
          if !Holds(code[k].jump.cc, c.fl) { ExecPc(code, k + 1, c, pc); }
          else if k + 1 < |code| { ExecPc(code, k + 2, c, pc); }
        }
      } else {
        DoPc(code[k], c, pc);
        if Do(code[k], c).Go? { ExecPc(code, k + 1, Do(code[k], c).c, pc); }
      }
    }
  }
}
