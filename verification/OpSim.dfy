/** The representation of interpreter frames by registers and memory, and the proof that the code
    of every plain operation keeps it. */
module OpSim {
  import opened Words
  import opened Wasm
  import opened X86
  import opened Codegen

  /** The frame with base b holds the operands vs: the top one is cached in rax, the others follow
      the unused slot at b, and rdi is one past them.  An i32 is zero-extended wherever it is. */
  ghost predicate Operands(c: Cpu, b: int, vs: seq<Value>) {
    && c.rdi == b + |vs|
    && (|vs| > 0 ==> c.rax == Last(vs).n)
    && forall i :: 0 <= i < |vs| - 1 ==> Rd(c.mem, b + 1 + i) == vs[i].n
  }

  ghost predicate Locals(c: Cpu, ls: seq<Value>) {
    forall i :: 0 <= i < |ls| ==> Rd(c.loc, c.rbx + i) == ls[i].n
  }

  ghost predicate Rep(c: Cpu, b: int, vs: seq<Value>, ls: seq<Value>) {
    Operands(c, b, vs) && Locals(c, ls)
  }

  /** Nothing below the frame changed: operand memory under b, locals under rbx. */
  ghost predicate Below(c: Cpu, c': Cpu, b: int) {
    && c'.rbx == c.rbx
    && (forall a :: a < b ==> Rd(c'.mem, a) == Rd(c.mem, a))
    && forall a :: a < c.rbx ==> Rd(c'.loc, a) == Rd(c.loc, a)
  }

  ghost predicate Preserves(c: Cpu, c': Cpu, b: int) {
    Below(c, c', b) && c'.rs == c.rs
  }

  /** Code `s` run from c does what the interpreter did. */
  ghost predicate Simulates(s: seq<Instr>, c: Cpu, b: int, o: Outcome) {
    var r := Exec(s, 0, c);
    match o
    case Next(vs, ls) => r.Go? && Rep(r.c, b, vs, ls) && Preserves(c, r.c, b)
    case Trapped => r.Fault?
    case _ => true
  }

  lemma SimConst(v: Value, c: Cpu, b: int, vs: seq<Value>, ls: seq<Value>)
    requires Rep(c, b, vs, ls)
    ensures Simulates(OpCode(Const(v)), c, b, EvalOp(Const(v), vs, ls))
  {
    var s := OpCode(Const(v));
    var c1 := Do(s[0], c).c;
    var c2 := Do(s[1], c1).c;
    var c3 := Do(s[2], c2).c;
    assert Exec(s, 0, c) == Exec(s, 1, c1) == Exec(s, 2, c2) == Exec(s, 3, c3);
  }

  lemma SimGetLocal(i: U32, c: Cpu, b: int, vs: seq<Value>, ls: seq<Value>)
    requires Rep(c, b, vs, ls)
    ensures Simulates(OpCode(GetLocal(i)), c, b, EvalOp(GetLocal(i), vs, ls))
  {
    var s := OpCode(GetLocal(i));
    var c1 := Do(s[0], c).c;
    var c2 := Do(s[1], c1).c;
    var c3 := Do(s[2], c2).c;
    assert Exec(s, 0, c) == Exec(s, 1, c1) == Exec(s, 2, c2) == Exec(s, 3, c3);
  }

  lemma ExecContract(c: Cpu)
    ensures Exec(PopContract(), 0, c) == Go(c.(rax := Rd(c.mem, c.rdi - 1), rdi := c.rdi - 1))
  {
    hide Exec, DoRegOp, DoArith, DoMemArith, Rd;
    var c1 := c.(rax := Rd(c.mem, c.rdi - 1));
    assert DoMove(MovRaxBelow, c) == Go(c1) && DoPointer(LeaRdi, c1) == Go(c1.(rdi := c.rdi - 1));
    ExecTwo(PopContract(), c, c1, c1.(rdi := c.rdi - 1));
  }

  lemma ExecSetLocal(i: U32, c: Cpu)
    ensures var c1 := c.(loc := c.loc[c.rbx + i := c.rax]);
      && Exec(OpCode(TeeLocal(i)), 0, c) == Go(c1)
      && Exec(OpCode(SetLocal(i)), 0, c) == Go(c1.(rax := Rd(c.mem, c.rdi - 1), rdi := c.rdi - 1))
  {
    hide Exec, Rd, PopContract;
    var c1 := c.(loc := c.loc[c.rbx + i := c.rax]);
    ExecOne(M(StoreLocal(i)), c, c1);
    ExecAppend([M(StoreLocal(i))], PopContract(), c);
    ExecContract(c1);
  }

  lemma LocalSet(c: Cpu, c1: Cpu, b: int, vs: seq<Value>, ls: seq<Value>, i: nat)
    requires Rep(c, b, vs, ls) && i < |ls| && |vs| > 0 && c1 == c.(loc := c.loc[c.rbx + i := c.rax])
    ensures Rep(c1, b, vs, ls[i := Last(vs)]) && Preserves(c, c1, b)
  {
  }

  /** The frame without its top operand. */
  lemma PopFrame(c: Cpu, c1: Cpu, b: int, vs: seq<Value>, ls: seq<Value>)
    requires Rep(c, b, vs, ls) && |vs| > 0
    requires c1 == c.(rdi := c.rdi - 1, rax := Rd(c.mem, c.rdi - 1), fl := c1.fl, pc := c1.pc)
    ensures Rep(c1, b, Pop(vs, 1), ls) && Preserves(c, c1, b)
  {
    TopThree(c, b, vs);
  }

  lemma SimSetLocal(i: U32, c: Cpu, b: int, vs: seq<Value>, ls: seq<Value>)
    requires Rep(c, b, vs, ls)
    ensures Simulates(OpCode(SetLocal(i)), c, b, EvalOp(SetLocal(i), vs, ls))
    ensures Simulates(OpCode(TeeLocal(i)), c, b, EvalOp(TeeLocal(i), vs, ls))
  {
    hide Exec, Rep, Rd, OpCode, Below;
    if i < |ls| && |vs| > 0 {
      var c1 := c.(loc := c.loc[c.rbx + i := c.rax]);
      ExecSetLocal(i, c);
      LocalSet(c, c1, b, vs, ls, i);
      PopFrame(c1, c1.(rax := Rd(c.mem, c.rdi - 1), rdi := c.rdi - 1), b, vs, ls[i := Last(vs)]);
      BelowTwice(c, c1, c1.(rax := Rd(c.mem, c.rdi - 1), rdi := c.rdi - 1), b);
    }
  }

  lemma BelowTwice(c: Cpu, c1: Cpu, c2: Cpu, b: int)
    requires Below(c, c1, b) && Below(c1, c2, b)
    ensures Below(c, c2, b)
  {
    forall a | a < b ensures Rd(c2.mem, a) == Rd(c.mem, a) {
      assert Rd(c1.mem, a) == Rd(c.mem, a);
    }
    forall a | a < c.rbx ensures Rd(c2.loc, a) == Rd(c.loc, a) {
      assert Rd(c1.loc, a) == Rd(c.loc, a);
    }
  }

  lemma SimDrop(c: Cpu, b: int, vs: seq<Value>, ls: seq<Value>)
    requires Rep(c, b, vs, ls)
    ensures Simulates(OpCode(Drop), c, b, EvalOp(Drop, vs, ls))
  {
    hide Exec, Rep, Rd, PopContract, Below;
    if |vs| > 0 {
      ExecContract(c);
      PopFrame(c, c.(rax := Rd(c.mem, c.rdi - 1), rdi := c.rdi - 1), b, vs, ls);
    }
  }

  /** The top n operands are replaced by the one number v. */
  ghost predicate Replaces(c: Cpu, c': Cpu, n: nat, v: nat) {
    && c'.rax == v && c'.rdi == c.rdi - n + 1
    && c'.loc == c.loc && c'.rbx == c.rbx && c'.rs == c.rs
    && forall a :: a < c.rdi - n + 1 ==> Rd(c'.mem, a) == Rd(c.mem, a)
  }

  lemma Replaced(s: seq<Instr>, c: Cpu, c': Cpu, b: int, vs: seq<Value>, ls: seq<Value>, n: nat, v: Value)
    requires Rep(c, b, vs, ls) && 0 < n <= |vs| && Exec(s, 0, c) == Go(c') && Replaces(c, c', n, v.n)
    ensures Simulates(s, c, b, Next(Pop(vs, n) + [v], ls))
  {
  }

  /** Where the three topmost operands are. */
  lemma TopThree(c: Cpu, b: int, vs: seq<Value>)
    requires Operands(c, b, vs)
    ensures |vs| >= 2 ==> Rd(c.mem, c.rdi - 1) == vs[|vs| - 2].n
    ensures |vs| >= 3 ==> Rd(c.mem, c.rdi - 2) == vs[|vs| - 3].n
  {
    if |vs| >= 2 { assert Rd(c.mem, b + 1 + (|vs| - 2)) == vs[|vs| - 2].n; }
    if |vs| >= 3 { assert Rd(c.mem, b + 1 + (|vs| - 3)) == vs[|vs| - 3].n; }
  }

  lemma ExecSelect(c: Cpu) returns (c': Cpu)
    requires c.rax < T32
    ensures Exec(SelectCode(), 0, c) == Go(c')
    ensures Replaces(c, c', 3, Rd(c.mem, if c.rax != 0 then c.rdi - 2 else c.rdi - 1))
  {
    var s := SelectCode();
    var c1 := c.(rdi := c.rdi - 2, rcx := 0, fl := Undefined);
    assert Exec(s, 0, c) == Exec(s, 2, c1);
    var c2 := c1.(fl := AfterTest(W32, c.rax));
    assert Exec(s, 2, c1) == Exec(s, 3, c2);
    var c3 := if c.rax != 0 then c2 else c2.(rcx := 8, fl := Undefined);
    if c.rax != 0 { assert Exec(s, 3, c2) == Exec(s, 5, c3); } else { assert Exec(s, 3, c2) == Exec(s, 4, c2) == Exec(s, 5, c3); }
    c' := c3.(rax := Rd(c.mem, c3.rdi + c3.rcx / 8));
    assert Exec(s, 5, c3) == Exec(s, 6, c');
  }

  lemma ExecEqz(w: Width, c: Cpu) returns (c': Cpu)
    requires c.rax < Mod(w)
    ensures Exec(EqzCode(w), 0, c) == Go(c') && Replaces(c, c', 1, Bool(c.rax == 0).n)
  {
    var s := EqzCode(w);
    var c2 := c.(rax := 1, fl := AfterTest(w, c.rax));
    assert Exec(s, 0, c) == Exec(s, 2, c2);
    if c.rax == 0 {
      c' := c2;
      assert Exec(s, 2, c2) == Exec(s, 4, c');
    } else {
      c' := c2.(rax := 0, fl := Undefined);
      assert Exec(s, 2, c2) == Exec(s, 3, c2) == Exec(s, 4, c');
    }
  }

  /** The flags left by `cmp` decide every WebAssembly comparison. */
  lemma CompareFlags(w: Width, r: RelOp, a: Word, b: Word)
    requires a < Mod(w) && b < Mod(w)
    ensures Holds(CondOf(r), AfterSub(w, a, b)) <==> Relop(w, r, a, b)
  {
    var d := Lo(w, a - b);
    assert d == if a < b then a - b + Mod(w) else a - b;
  }

  /** mov eax, 1; jcc +2; xor eax, eax: a flag condition as 0 or 1. */
  lemma ExecSetcc(w: Width, cc: Cond, c: Cpu) returns (c': Cpu)
    requires c.fl.Flags?
    ensures Exec(Compare(w, cc), 3, c) == Go(c')
    ensures c' == c.(rax := if Holds(cc, c.fl) then 1 else 0, fl := c'.fl)
  {
    var s := Compare(w, cc);
    var c4 := c.(rax := 1);
    assert Exec(s, 3, c) == Exec(s, 4, c4);
    if Holds(cc, c.fl) {
      c' := c4;
      assert Exec(s, 4, c4) == Exec(s, 6, c');
    } else {
      c' := c4.(rax := 0, fl := Undefined);
      assert Exec(s, 4, c4) == Exec(s, 5, c4) == Exec(s, 6, c');
    }
  }

  lemma ExecCmp(w: Width, cc: Cond, c: Cpu, c3: Cpu)
    requires c.rax < Mod(w) && Rd(c.mem, c.rdi - 1) < Mod(w)
    requires c3 == c.(rcx := Rd(c.mem, c.rdi - 1), rdi := c.rdi - 1, fl := AfterSub(w, Rd(c.mem, c.rdi - 1), c.rax))
    ensures Exec(Compare(w, cc), 0, c) == Exec(Compare(w, cc), 3, c3)
  {
    hide Rd, AfterSub, AluResult, Holds;
    var s := Compare(w, cc);
    var c2 := c.(rcx := Rd(c.mem, c.rdi - 1), rdi := c.rdi - 1, fl := Undefined);
    assert Exec(s, 0, c) == Exec(s, 2, c2);
    assert Exec(s, 2, c2) == Exec(s, 3, c3);
  }

  lemma ExecCompare(w: Width, r: RelOp, c: Cpu) returns (c': Cpu)
    requires c.rax < Mod(w) && Rd(c.mem, c.rdi - 1) < Mod(w)
    ensures Exec(Compare(w, CondOf(r)), 0, c) == Go(c')
    ensures Replaces(c, c', 2, Bool(Relop(w, r, Rd(c.mem, c.rdi - 1), c.rax)).n)
  {
    var x := Rd(c.mem, c.rdi - 1);
    var c3 := c.(rcx := x, rdi := c.rdi - 1, fl := AfterSub(w, x, c.rax));
    ExecCmp(w, CondOf(r), c, c3);
    CompareFlags(w, r, x, c.rax);
    c' := ExecSetcc(w, CondOf(r), c3);
  }

  lemma ExecCount(w: Width, u: UnOp, c: Cpu) returns (c': Cpu)
    requires c.rax < Mod(w) && !u.PopCount?
    ensures Exec(UnCode(w, u), 0, c) == Go(c') && Replaces(c, c', 1, Unop(w, u, c.rax))
  {
    var s := UnCode(w, u);
    c' := c.(rax := Unop(w, u, c.rax), fl := Undefined);
    assert Exec(s, 0, c) == Exec(s, 1, c');
  }

  lemma ExecPopcnt(w: Width, c: Cpu) returns (c': Cpu)
    requires c.rax < Mod(w)
    ensures Exec(UnCode(w, PopCount), 0, c) == Go(c') && Replaces(c, c', 1, Unop(w, PopCount, c.rax))
  {
    var s := UnCode(w, PopCount);
    var c1 := c.(mem := StoreW(w, c.mem, c.rdi, c.rax));
    c' := c1.(rax := Unop(w, PopCount, c.rax), fl := Undefined);
    PopcntSteps(w, c, c1, c');
    ExecTwo(s, c, c1, c');
  }

  lemma PopcntSteps(w: Width, c: Cpu, c1: Cpu, c2: Cpu)
    requires c.rax < Mod(w)
    requires c1 == c.(mem := StoreW(w, c.mem, c.rdi, c.rax)) && c2 == c1.(rax := Unop(w, PopCount, c.rax), fl := Undefined)
    ensures Do(if w.W32? then M(MovMemEax) else M(MovMemRax), c) == Go(c1) && Do(X(PopcntMem(w)), c1) == Go(c2)
    ensures forall a :: a < c.rdi ==> Rd(c1.mem, a) == Rd(c.mem, a)
  {
    hide Lo, StoreW, Store32, Rd, Unop, DoRegOp, DoPointer, DoArith;
    StoredLow(w, c.mem, c.rdi, c.rax);
    UnopPopcnt(w, c.rax);
    StoreWIs(w, c);
  }

  lemma UnopPopcnt(w: Width, a: nat)
    ensures Unop(w, PopCount, a) == Popcnt(a, Bits(w))
  {
  }

  lemma StoreWIs(w: Width, c: Cpu)
    ensures StoreW(w, c.mem, c.rdi, c.rax) == if w.W32? then Store32(c.mem, c.rdi, c.rax) else c.mem[c.rdi := c.rax]
  {
  }

  lemma StoredLow(w: Width, m: Memory, a: int, v: Word)
    requires v < Mod(w)
    ensures var m' := StoreW(w, m, a, v);
      Lo(w, Rd(m', a)) == v && forall b :: b < a ==> Rd(m', b) == Rd(m, b)
  {
  }

  lemma ExecWrap(c: Cpu) returns (c': Cpu)
    ensures Exec(OpCode(WrapI64), 0, c) == Go(c') && Replaces(c, c', 1, Lo(W32, c.rax))
  {
    c' := c.(rax := Lo(W32, c.rax));
    assert Exec(OpCode(WrapI64), 0, c) == Exec(OpCode(WrapI64), 1, c');
  }

  lemma ExecExtendS(c: Cpu) returns (c': Cpu)
    requires c.rax < T32
    ensures Exec(OpCode(ExtendS), 0, c) == Go(c') && Replaces(c, c', 1, Lo(W64, Signed(W32, c.rax)))
  {
    var s := OpCode(ExtendS);
    var c1 := c.(mem := Store32(c.mem, c.rdi, c.rax));
    assert Rd(c1.mem, c.rdi) % T32 == c.rax;
    c' := c1.(rax := Lo(W64, Signed(W32, c.rax)));
    assert Exec(s, 0, c) == Exec(s, 1, c1) == Exec(s, 2, c');
  }

  lemma ExecAlu(w: Width, swap: bool, op: AluOp, c: Cpu) returns (c': Cpu)
    requires c.rax < Mod(w) && Rd(c.mem, c.rdi - 1) < Mod(w)
    ensures Exec(PopSecondParam(swap) + [A(Alu(op, w))], 0, c) == Go(c')
    ensures var x, y := Rd(c.mem, c.rdi - 1), c.rax;
      Replaces(c, c', 2, if swap then AluResult(op, w, x, y) else AluResult(op, w, y, x))
  {
    var x, y := Rd(c.mem, c.rdi - 1), c.rax;
    var s := PopSecondParam(swap) + [A(Alu(op, w))];
    if swap {
      var c1 := c.(rcx := y, rax := x);
      assert Exec(s, 0, c) == Exec(s, 2, c1);
      var c2 := c1.(rdi := c.rdi - 1, fl := Undefined);
      c' := c2.(rax := AluResult(op, w, x, y));
      assert Exec(s, 2, c1) == Exec(s, 3, c2);
      assert Exec(s, 3, c2) == Exec(s, 4, c');
    } else {
      var c1 := c.(rcx := x, rdi := c.rdi - 1, fl := Undefined);
      assert Exec(s, 0, c) == Exec(s, 2, c1);
      c' := c1.(rax := AluResult(op, w, y, x));
      assert Exec(s, 2, c1) == Exec(s, 3, c');
    }
  }

  /** x86 counts shifts in cl modulo the width; WebAssembly takes the count modulo the width. */
  lemma ShiftCount(w: Width, y: nat)
    ensures (y % 256) % Bits(w) == y % Bits(w)
  {
    var q, r := y / 256, y % 256;
    if w.W32? {
      ModUnique(y, 32, 8 * q + r / 32, r % 32);
    } else {
      ModUnique(y, 64, 4 * q + r / 64, r % 64);
    }
  }

  /** The commutative operations leave the operands unswapped; the others swap them first. */
  lemma ExecSimpleBin(w: Width, b: IntOp, c: Cpu) returns (c': Cpu)
    requires c.rax < Mod(w) && Rd(c.mem, c.rdi - 1) < Mod(w)
    requires b.Add? || b.Sub? || b.And? || b.Or? || b.Xor? || b.Shifted?
    ensures Exec(BinCode(w, b), 0, c) == Go(c')
    ensures Replaces(c, c', 2, Binop(w, b, Rd(c.mem, c.rdi - 1), c.rax).value)
  {
    var x, y := Rd(c.mem, c.rdi - 1), c.rax;
    match b
    case Add => c' := ExecAlu(w, false, AluAdd, c);
    case Sub => c' := ExecAlu(w, true, AluSub, c);
    case And => c' := ExecAlu(w, false, AluBits(AndBits), c); BitwiseCommutes(AndBits, x, y, Bits(w));
    case Or => c' := ExecAlu(w, false, AluBits(OrBits), c); BitwiseCommutes(OrBits, x, y, Bits(w));
    case Xor => c' := ExecAlu(w, false, AluBits(XorBits), c); BitwiseCommutes(XorBits, x, y, Bits(w));
    case Shifted(sh) => c' := ExecAlu(w, true, AluShift(sh), c); ShiftCount(w, y);
  }

  lemma DoMul(w: Width, c: Cpu) returns (hi: Word)
    requires c.rax < Mod(w) && Rd(c.mem, c.rdi - 1) < Mod(w)
    ensures Do(X(MulBelow(w)), c) == Go(c.(rax := Lo(w, Rd(c.mem, c.rdi - 1) * c.rax), rdx := hi, fl := Undefined))
  {
    var x, y := Rd(c.mem, c.rdi - 1), c.rax;
    assert Lo(w, x) == x && Lo(w, y) == y;
    assert y * x == x * y;
    hi := Lo(w, y * x / Mod(w));
  }

  lemma ExecMul(w: Width, c: Cpu) returns (c': Cpu)
    requires c.rax < Mod(w) && Rd(c.mem, c.rdi - 1) < Mod(w)
    ensures Exec(BinCode(w, Mul), 0, c) == Go(c')
    ensures Replaces(c, c', 2, Lo(w, Rd(c.mem, c.rdi - 1) * c.rax))
  {
    var hi := DoMul(w, c);
    c' := ExecThenDrop(X(MulBelow(w)), c, Lo(w, Rd(c.mem, c.rdi - 1) * c.rax), hi);
  }

  lemma ExecThenDrop(i: Instr, c: Cpu, lo: Word, hi: Word) returns (c': Cpu)
    requires !i.J? && Do(i, c) == Go(c.(rax := lo, rdx := hi, fl := Undefined))
    ensures Exec([i, P(SubRdi(1))], 0, c) == Go(c') && Replaces(c, c', 2, lo)
  {
    var s := [i, P(SubRdi(1))];
    var c1 := c.(rax := lo, rdx := hi, fl := Undefined);
    c' := c1.(rdi := c.rdi - 1);
    assert Exec(s, 0, c) == Exec(s, 1, c1);
    assert Exec(s, 1, c1) == Exec(s, 2, c');
  }

  // ---------- division ----------

  lemma DoIdiv(w: Width, c: Cpu, x: Word, y: Word)
    requires x < Mod(w) && y < Mod(w) && c.rax == x && Rd(c.mem, c.rdi) % Mod(w) == y
    requires c.rdx == if x < Half(w) then 0 else Mod(w) - 1
    ensures Do(X(IdivMem(w)), c) ==
      var i, j := Signed(w, x), Signed(w, y);
      if j == 0 || TDiv(i, j) == Half(w) then Fault
      else Go(c.(rax := Lo(w, TDiv(i, j)), rdx := Lo(w, i - TDiv(i, j) * j), fl := Undefined))
  {
    var i, j := Signed(w, x), Signed(w, y);
    assert Signed(w, c.rdx) * Mod(w) + x == i;
    if j != 0 { TDivBound(i, j); }
  }

  lemma TDivBound(i: int, j: int)
    requires j != 0
    ensures 0 <= TDiv(i, j) + Abs(i) && TDiv(i, j) <= Abs(i)
  {
    var a, b := Abs(i), Abs(j);
    assert a == (a / b) * b + a % b;
    if a / b > a { MulGrows(a / b, b); }
  }

  lemma MulGrows(q: nat, b: nat)
    requires b > 0
    ensures q * b >= q
  {
  }

  /** Fetching the dividend and storing the divisor where div expects it. */
  lemma ExecXchg(w: Width, c: Cpu) returns (c': Cpu)
    requires c.rax < Mod(w) && Rd(c.mem, c.rdi - 1) < Mod(w)
    ensures Exec([P(SubRdi(1)), X(XchgMem(w))], 0, c) == Go(c')
    ensures c' == c.(rax := Rd(c.mem, c.rdi - 1), rdi := c.rdi - 1, fl := c'.fl, mem := c'.mem)
    ensures Rd(c'.mem, c'.rdi) % Mod(w) == c.rax
    ensures forall a :: a < c.rdi - 1 ==> Rd(c'.mem, a) == Rd(c.mem, a)
  {
    var s := [P(SubRdi(1)), X(XchgMem(w))];
    var c1 := c.(rdi := c.rdi - 1, fl := Undefined);
    assert Exec(s, 0, c) == Exec(s, 1, c1);
    c' := c1.(rax := Rd(c.mem, c.rdi - 1), mem := StoreW(w, c.mem, c.rdi - 1, c.rax));
    assert Do(s[1], c1) == Go(c');
    assert Exec(s, 1, c1) == Exec(s, 2, c');
  }

  datatype Quotient = Trap | Quotient(q: int, r: int)

  function Divide(w: Width, signed: bool, x: nat, y: nat): Quotient {
    if !signed then
      if y == 0 then Trap else Quotient(x / y, x % y)
    else
      var i, j := Signed(w, x), Signed(w, y);
      if j == 0 || TDiv(i, j) == Half(w) then Trap else Quotient(TDiv(i, j), i - TDiv(i, j) * j)
  }

  lemma DoDiv(w: Width, c: Cpu, x: Word, y: Word)
    requires x < Mod(w) && y < Mod(w) && c.rax == x && Rd(c.mem, c.rdi) % Mod(w) == y
    requires c.rdx == 0
    ensures Do(X(DivMem(w)), c) ==
      if y == 0 then Fault else Go(c.(rax := Lo(w, x / y), rdx := Lo(w, x % y), fl := Undefined))
  {
    if y != 0 { TDivBound(x, y); }
  }

  ghost predicate Divided(w: Width, r: Result, c: Cpu, d: Quotient) {
    match d
    case Trap => r.Fault?
    case Quotient(q, m) =>
      r.Go? && r.c == c.(rax := Lo(w, q), rdx := Lo(w, m), fl := r.c.fl)
  }

  lemma ExecDivInstr(w: Width, signed: bool, c: Cpu, x: Word, y: Word)
    requires x < Mod(w) && y < Mod(w) && c.rax == x && Rd(c.mem, c.rdi) % Mod(w) == y
    ensures Divided(w, Exec(if signed then [R(Cdq(w)), X(IdivMem(w))] else [A(ZeroEdx), X(DivMem(w))], 0, c), c, Divide(w, signed, x, y))
  {
    if signed {
      var s := [R(Cdq(w)), X(IdivMem(w))];
      var c1 := c.(rdx := if x < Half(w) then 0 else Mod(w) - 1);
      assert Exec(s, 0, c) == Exec(s, 1, c1);
      DoIdiv(w, c1, x, y);
      ExecLast(s, c1);
    } else {
      var s := [A(ZeroEdx), X(DivMem(w))];
      var c1 := c.(rdx := 0, fl := Undefined);
      assert Exec(s, 0, c) == Exec(s, 1, c1);
      DoDiv(w, c1, x, y);
      ExecLast(s, c1);
    }
  }

  lemma ExecLast(s: seq<Instr>, c: Cpu)
    requires |s| > 0 && !IsShort(s[|s| - 1])
    ensures Exec(s, |s| - 1, c) == Do(s[|s| - 1], c)
  {
  }

  function Picked(d: Quotient, modulo: bool): int
    requires d.Quotient?
  {
    if modulo then d.r else d.q
  }

  lemma ExecDivide(w: Width, signed: bool, modulo: bool, c: Cpu) returns (c': Cpu)
    requires c.rax < Mod(w) && Rd(c.mem, c.rdi - 1) < Mod(w)
    ensures var d := Divide(w, signed, Rd(c.mem, c.rdi - 1), c.rax);
      if d.Trap? then Exec(DivideCode(w, signed, modulo), 0, c).Fault?
      else Exec(DivideCode(w, signed, modulo), 0, c) == Go(c') && Replaces(c, c', 2, Lo(w, Picked(d, modulo)))
  {
    var x, y := Rd(c.mem, c.rdi - 1), c.rax;
    var s0 := [P(SubRdi(1)), X(XchgMem(w))];
    var s1 := if signed then [R(Cdq(w)), X(IdivMem(w))] else [A(ZeroEdx), X(DivMem(w))];
    var s2 := if modulo then [R(MovRaxRdx(w))] else [];
    var c1 := ExecXchg(w, c);
    ExecDivInstr(w, signed, c1, x, y);
    ExecAppend(s0, s1, c);
    ExecAppend(s0 + s1, s2, c);
    c' := c;
    var r := Exec(s1, 0, c1);
    if r.Go? {
      c' := if modulo then r.c.(rax := r.c.rdx) else r.c;
      ExecPick(w, modulo, r.c);
    }
  }

  lemma ExecPick(w: Width, modulo: bool, c: Cpu)
    requires c.rdx < Mod(w)
    ensures Exec(if modulo then [R(MovRaxRdx(w))] else [], 0, c) == Go(if modulo then c.(rax := c.rdx) else c)
  {
    if modulo {
      assert Exec([R(MovRaxRdx(w))], 0, c) == Exec([R(MovRaxRdx(w))], 1, c.(rax := c.rdx));
    }
  }

  /** |y| as an unsigned w-bit number; the most negative number is its own absolute value. */
  function AbsWord(w: Width, y: nat): (r: nat)
    requires y < Mod(w)
    ensures r < Mod(w)
  {
    if y < Half(w) then y else Mod(w) - y
  }

  /** rdx after cdq: all zeros or all ones. */
  function SignMask(w: Width, y: nat): Word { if y < Half(w) then 0 else Mod(w) - 1 }

  /** (y ^ mask) - mask is |y|. */
  lemma XorSubMask(w: Width, y: nat)
    requires y < Mod(w)
    ensures var x := BitwiseW(XorBits, w, y, SignMask(w, y));
      x == (if y < Half(w) then y else Mod(w) - 1 - y) && Lo(w, x - SignMask(w, y)) == AbsWord(w, y)
  {
    XorMask(w, y);
    var x := BitwiseW(XorBits, w, y, SignMask(w, y));
    if y >= Half(w) { assert x - SignMask(w, y) == 0 - y; }
  }

  lemma XorMask(w: Width, y: nat)
    requires y < Mod(w)
    ensures BitwiseW(XorBits, w, y, 0) == y
    ensures BitwiseW(XorBits, w, y, Mod(w) - 1) == Mod(w) - 1 - y
  {
    Pow2Widths();
    XorZero(y, Bits(w));
    XorOnes(y, Bits(w));
  }

  lemma DoAbs(w: Width, c: Cpu, m: Word, x: Word)
    requires c.rax < Mod(w) && m == SignMask(w, c.rax) && x == BitwiseW(XorBits, w, c.rax, m)
    ensures Do(R(Cdq(w)), c) == Go(c.(rdx := m))
    ensures Do(A(XorRaxRdx(w)), c.(rdx := m)) == Go(c.(rdx := m, rax := x, fl := Undefined))
    ensures Do(A(SubRaxRdx(w)), c.(rdx := m, rax := x, fl := Undefined)) == Go(c.(rdx := m, rax := Lo(w, x - m), fl := Undefined))
  {
    assert Lo(w, c.rax) == c.rax && Lo(w, m) == m;
  }

  lemma ExecAbs(w: Width, c: Cpu) returns (c': Cpu)
    requires c.rax < Mod(w)
    ensures Exec(AbsCode(w), 0, c) == Go(c')
    ensures c' == c.(rax := AbsWord(w, c.rax), rdx := c'.rdx, fl := c'.fl)
  {
    var m := SignMask(w, c.rax);
    var x := BitwiseW(XorBits, w, c.rax, m);
    c' := c.(rdx := m, rax := AbsWord(w, c.rax), fl := Undefined);
    XorSubMask(w, c.rax);
    DoAbs(w, c, m, x);
    ExecThree(AbsCode(w), c, c.(rdx := m), c.(rdx := m, rax := x, fl := Undefined), c');
  }

  /** Dividing by |b| instead of b leaves the remainder as it is and never overflows. */
  lemma RemainderByAbs(w: Width, x: nat, y: nat)
    requires x < Mod(w) && y < Mod(w)
    ensures var d := Divide(w, true, x, AbsWord(w, y));
      match Binop(w, RemS, x, y)
      case None => d.Trap?
      case Some(n) => d.Quotient? && Lo(w, d.r) == n
  {
    var i, j, j' := Signed(w, x), Signed(w, y), Signed(w, AbsWord(w, y));
    if y != 0 {
      assert j' == j || j' == -j;
      if j' == -j { TDivNegate(i, j); }
      assert TDiv(i, j') != Half(w) by { NoOverflow(w, i, j'); }
      assert TDiv(i, j') * j' == j * TDiv(i, j);
    }
  }

  lemma TDivNegate(i: int, j: int)
    requires j != 0
    ensures TDiv(i, -j) * -j == TDiv(i, j) * j
  {
    var q := Abs(i) / Abs(j);
    assert Abs(-j) == Abs(j);
    if i == 0 { assert q == 0; } else { assert TDiv(i, -j) == -TDiv(i, j); }
  }

  lemma NoOverflow(w: Width, i: int, j: int)
    requires 0 <= i + Half(w) < Mod(w)
    requires j > 0 || j == 0 - Half(w)
    ensures TDiv(i, j) != Half(w)
  {
    if (i < 0) != (j < 0) {
      QuotientNonNegative(Abs(i), Abs(j));
    } else if j > 0 {
      TDivBound(i, j);
    } else {
      HalfOver(Abs(i), Half(w));
    }
  }

  lemma QuotientNonNegative(a: nat, b: nat)
    requires b > 0
    ensures a / b >= 0
  {
  }

  lemma HalfOver(a: nat, h: nat)
    requires 1 < h && a <= h
    ensures a / h <= 1
  {
    if a == h { ModUnique(a, h, 1, 0); } else { ModUnique(a, h, 0, a); }
  }

  lemma ExecRemS(w: Width, c: Cpu) returns (c': Cpu)
    requires c.rax < Mod(w) && Rd(c.mem, c.rdi - 1) < Mod(w)
    ensures match Binop(w, RemS, Rd(c.mem, c.rdi - 1), c.rax)
      case None => Exec(BinCode(w, RemS), 0, c).Fault?
      case Some(n) => Exec(BinCode(w, RemS), 0, c) == Go(c') && Replaces(c, c', 2, n)
  {
    hide Exec, DivideCode, TDiv, Rd, Half;
    var c1 := ExecAbs(w, c);
    ExecAppend(AbsCode(w), DivideCode(w, true, true), c);
    RemainderByAbs(w, Rd(c.mem, c.rdi - 1), c.rax);
    c' := ExecDivide(w, true, true, c1);
  }

  /** Every division and remainder: the WebAssembly result, and a fault exactly on a WebAssembly trap. */
  lemma ExecDiv(w: Width, b: IntOp, c: Cpu) returns (c': Cpu)
    requires c.rax < Mod(w) && Rd(c.mem, c.rdi - 1) < Mod(w)
    requires b.DivS? || b.DivU? || b.RemS? || b.RemU?
    ensures match Binop(w, b, Rd(c.mem, c.rdi - 1), c.rax)
      case None => Exec(BinCode(w, b), 0, c).Fault?
      case Some(n) => Exec(BinCode(w, b), 0, c) == Go(c') && Replaces(c, c', 2, n)
  {
    if b.RemS? {
      c' := ExecRemS(w, c);
    } else {
      var signed, modulo := b.DivS?, b.RemU?;
      assert BinCode(w, b) == DivideCode(w, signed, modulo);
      c' := ExecDivide(w, signed, modulo, c);
    }
  }

  // ---------- every plain operation ----------

  /** Every binary operation: its result replaces the two operands, or it faults. */
  lemma ExecBin(w: Width, b: IntOp, c: Cpu) returns (c': Cpu)
    requires c.rax < Mod(w) && Rd(c.mem, c.rdi - 1) < Mod(w)
    ensures match Binop(w, b, Rd(c.mem, c.rdi - 1), c.rax)
      case None => Exec(BinCode(w, b), 0, c).Fault?
      case Some(n) => Exec(BinCode(w, b), 0, c) == Go(c') && Replaces(c, c', 2, n)
  {
    hide Exec, BinCode, Replaces, Rd, BitwiseW, Shift, TDiv;
    if b.Mul? { c' := ExecMul(w, c); }
    else if b.DivS? || b.DivU? || b.RemS? || b.RemU? { c' := ExecDiv(w, b, c); }
    else { c' := ExecSimpleBin(w, b, c); }
  }

  lemma SimBin(w: Width, b: IntOp, c: Cpu, base: int, vs: seq<Value>, ls: seq<Value>)
    requires Rep(c, base, vs, ls)
    ensures Simulates(OpCode(Bin(w, b)), c, base, EvalOp(Bin(w, b), vs, ls))
  {
    hide Exec, BinCode, Replaces, Binop, Rd;
    var h := |vs|;
    if h >= 2 && vs[h - 2].w == w && vs[h - 1].w == w {
      TopThree(c, base, vs);
      var r := Binop(w, b, vs[h - 2].n, vs[h - 1].n);
      var c' := ExecBin(w, b, c);
      if r.Some? { Replaced(OpCode(Bin(w, b)), c, c', base, vs, ls, 2, Val(w, r.value)); }
    }
  }

  lemma SimTopOne(op: Op, c: Cpu, b: int, vs: seq<Value>, ls: seq<Value>)
    requires Rep(c, b, vs, ls) && (op.Eqz? || op.Un? || op.WrapI64? || op.ExtendS?)
    ensures Simulates(OpCode(op), c, b, EvalOp(op, vs, ls))
  {
    if EvalOp(op, vs, ls).Next? {
      var v := Last(EvalOp(op, vs, ls).vs);
      var c' := c;
      match op
      case Eqz(w) => c' := ExecEqz(w, c);
      case Un(w, u) => if u.PopCount? { c' := ExecPopcnt(w, c); } else { c' := ExecCount(w, u, c); }
      case WrapI64 => c' := ExecWrap(c);
      case ExtendS => c' := ExecExtendS(c);
      Replaced(OpCode(op), c, c', b, vs, ls, 1, v);
    }
  }

  /** `i64.extend_u/i32` emits nothing: the upper half of an i32 is already zero. */
  lemma SimExtendU(c: Cpu, b: int, vs: seq<Value>, ls: seq<Value>)
    requires Rep(c, b, vs, ls)
    ensures Simulates(OpCode(ExtendU), c, b, EvalOp(ExtendU, vs, ls))
  {
  }

  lemma SimSelectRel(op: Op, c: Cpu, b: int, vs: seq<Value>, ls: seq<Value>)
    requires Rep(c, b, vs, ls) && (op.Select? || op.Rel?)
    ensures Simulates(OpCode(op), c, b, EvalOp(op, vs, ls))
  {
    if EvalOp(op, vs, ls).Next? {
      TopThree(c, b, vs);
      var v := Last(EvalOp(op, vs, ls).vs);
      if op.Select? {
        var c' := ExecSelect(c);
        Replaced(OpCode(op), c, c', b, vs, ls, 3, v);
      } else {
        var c' := ExecCompare(op.w, op.rel, c);
        Replaced(OpCode(op), c, c', b, vs, ls, 2, v);
      }
    }
  }

  /** The code of every plain operation keeps the representation, and faults exactly where the
      interpreter traps. */
  lemma SimOp(op: Op, c: Cpu, b: int, vs: seq<Value>, ls: seq<Value>)
    requires Rep(c, b, vs, ls)
    ensures Simulates(OpCode(op), c, b, EvalOp(op, vs, ls))
  {
    match op
    case Nop =>
    case Unreachable =>
    case Drop => SimDrop(c, b, vs, ls);
    case Select => SimSelectRel(op, c, b, vs, ls);
    case Const(v) => SimConst(v, c, b, vs, ls);
    case GetLocal(i) => SimGetLocal(i, c, b, vs, ls);
    case SetLocal(i) => SimSetLocal(i, c, b, vs, ls);
    case TeeLocal(i) => SimSetLocal(i, c, b, vs, ls);
    case Eqz(w) => SimTopOne(op, c, b, vs, ls);
    case Rel(w, r) => SimSelectRel(op, c, b, vs, ls);
    case Un(w, u) => SimTopOne(op, c, b, vs, ls);
    case Bin(w, o) => SimBin(w, o, c, b, vs, ls);
    case WrapI64 => SimTopOne(op, c, b, vs, ls);
    case ExtendU => SimExtendU(c, b, vs, ls);
    case ExtendS => SimTopOne(op, c, b, vs, ls);
  }
}
