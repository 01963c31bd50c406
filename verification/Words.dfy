/** Fixed-width machine words as bounded naturals, and the integer arithmetic that
    both WebAssembly and x86-64 are defined in terms of. */
module Words {
  const T32: int := 0x1_0000_0000
  const T64: int := 0x1_0000_0000_0000_0000

  type U8 = x: nat | x < 256
  type U32 = x: nat | x < T32
  type Word = x: nat | x < T64

  datatype Width = W32 | W64

  function Bits(w: Width): nat { if w.W32? then 32 else 64 }

  function Mod(w: Width): nat { if w.W32? then T32 else T64 }

  function Half(w: Width): nat { if w.W32? then 0x8000_0000 else 0x8000_0000_0000_0000 }

  /** The low `Bits(w)` bits of x, zero-extended: what writing a register of width w leaves in it. */
  function Lo(w: Width, x: int): (r: Word)
    ensures r < Mod(w)
    ensures 0 <= x < Mod(w) ==> r == x
  {
    if w.W32? then x % 0x1_0000_0000 else x % 0x1_0000_0000_0000_0000
  }

  function Signed(w: Width, a: nat): int {
    if w.W32? then
      if a < 0x8000_0000 then a else a - 0x1_0000_0000
    else if a < 0x8000_0000_0000_0000 then a else a - 0x1_0000_0000_0000_0000
  }

  /** Division that truncates toward zero, as C, WebAssembly and x86 have it. */
  function TDiv(a: int, b: int): int
    requires b != 0
  {
    if (a < 0) == (b < 0) then Abs(a) / Abs(b) else -(Abs(a) / Abs(b))
  }

  function Abs(a: int): nat { if a < 0 then -a else a }

  function Pow2(n: nat): (r: nat)
    ensures r > 0
  {
    if n == 0 then 1 else 2 * Pow2(n - 1)
  }

  /** Bitwise operations on the low n bits, one bit at a time. */
  datatype BitOp = AndBits | OrBits | XorBits

  function OneBit(op: BitOp, x: nat, y: nat): (r: nat)
    ensures r < 2
  {
    match op
    case AndBits => if x == 1 && y == 1 then 1 else 0
    case OrBits => if x + y == 0 then 0 else 1
    case XorBits => (x + y) % 2
  }

  function Bitwise(op: BitOp, a: nat, b: nat, n: nat): (r: nat)
    ensures r < Pow2(n)
  {
    if n == 0 then 0 else OneBit(op, a % 2, b % 2) + 2 * Bitwise(op, a / 2, b / 2, n - 1)
  }

  lemma Pow2Widths()
    ensures Pow2(32) == T32 && Pow2(64) == T64
  {
    assert Pow2(8) == 256;
    assert Pow2(16) == 65536 by { Pow2Add(8, 8); }
    assert Pow2(32) == T32 by { Pow2Add(16, 16); }
    assert Pow2(64) == T64 by { Pow2Add(32, 32); }
  }

  lemma {:induction false} Pow2Add(a: nat, b: nat)
    ensures Pow2(a + b) == Pow2(a) * Pow2(b)
  {
    if a > 0 {
      Pow2Add(a - 1, b);
      assert Pow2(a + b) == 2 * (Pow2(a - 1) * Pow2(b));
    }
  }

  lemma {:induction false} Pow2Grows(a: nat, b: nat)
    requires a <= b
    ensures Pow2(a) <= Pow2(b)
    decreases b - a
  {
    if a < b { Pow2Grows(a + 1, b); }
  }

  lemma MulSwap(a: int, b: int, c: int)
    ensures a * (b * c) == b * (a * c)
  {
  }

  function BitwiseW(op: BitOp, w: Width, a: nat, b: nat): (r: Word)
    ensures r < Mod(w)
  {
    Pow2Widths();
    Bitwise(op, a, b, Bits(w))
  }

  function Popcnt(a: nat, n: nat): (r: nat)
    ensures r <= n
  {
    if n == 0 then 0 else a % 2 + Popcnt(a / 2, n - 1)
  }

  function TrailingZeros(a: nat, n: nat): (r: nat)
    ensures r <= n
  {
    if n == 0 || a % 2 == 1 then 0 else 1 + TrailingZeros(a / 2, n - 1)
  }

  function LeadingZeros(a: nat, n: nat): (r: nat)
    ensures r <= n
  {
    if n == 0 || a >= Pow2(n - 1) then 0 else 1 + LeadingZeros(a, n - 1)
  }

  datatype ShiftOp = Shl | ShrS | ShrU | Rotl | Rotr

  /** Shifts and rotations of a w-bit word by a count already reduced below the width. */
  function Shift(op: ShiftOp, w: Width, a: nat, k: nat): Word
    requires k < Bits(w)
  {
    match op
    case Shl => Lo(w, a * Pow2(k))
    case ShrU => Lo(w, a / Pow2(k))
    case ShrS => Lo(w, Signed(w, a) / Pow2(k))
    case Rotl => Lo(w, a * Pow2(k) + a / Pow2(Bits(w) - k))
    case Rotr => Lo(w, a * Pow2(Bits(w) - k) + a / Pow2(k))
  }

  lemma {:induction false} BitwiseCommutes(op: BitOp, a: nat, b: nat, n: nat)
    ensures Bitwise(op, a, b, n) == Bitwise(op, b, a, n)
  {
    if n > 0 { BitwiseCommutes(op, a / 2, b / 2, n - 1); }
  }

  /** x ^ 0 == x. */
  lemma {:induction false} XorZero(a: nat, n: nat)
    requires a < Pow2(n)
    ensures Bitwise(XorBits, a, 0, n) == a
  {
    if n > 0 {
      XorZero(a / 2, n - 1);
    }
  }

  /** x ^ -1 is the one's complement of x. */
  lemma {:induction false} XorOnes(a: nat, n: nat)
    requires a < Pow2(n)
    ensures Bitwise(XorBits, a, Pow2(n) - 1, n) == Pow2(n) - 1 - a
  {
    if n > 0 {
      var m := Pow2(n - 1);
      XorOnes(a / 2, n - 1);
      assert (2 * m - 1) / 2 == m - 1 && (2 * m - 1) % 2 == 1;
    }
  }

  /** Or-ing together two values whose bits do not overlap adds them. */
  lemma {:induction false} OrDisjoint(a: nat, m: nat, s: nat, n: nat)
    requires s <= n && a < Pow2(s)
    ensures Bitwise(OrBits, a, m * Pow2(s), n) == a + (m * Pow2(s)) % Pow2(n)
  {
    if s == 0 {
      OrZero(m, n);
    } else {
      var h, p := m * Pow2(s - 1), Pow2(n - 1);
      assert m * Pow2(s) == 2 * h;
      OrDisjoint(a / 2, m, s - 1, n - 1);
      DoubleMod(h, p);
      assert (2 * h) % 2 == 0 && (2 * h) / 2 == h;
      assert OneBit(OrBits, a % 2, 0) == a % 2;
    }
  }

  lemma {:induction false} OrZero(m: nat, n: nat)
    ensures Bitwise(OrBits, 0, m, n) == m % Pow2(n)
  {
    if n > 0 {
      OrZero(m / 2, n - 1);
      DoubleMod(m / 2, Pow2(n - 1));
      var q, p := m / 2, Pow2(n - 1);
      assert m == 2 * q + m % 2;
      OddMod(q, p, m % 2);
    }
  }

  lemma DoubleMod(h: nat, p: nat)
    requires p > 0
    ensures (2 * h) % (2 * p) == 2 * (h % p)
  {
    OddMod(h, p, 0);
  }

  lemma OddMod(h: nat, p: nat, r: nat)
    requires p > 0 && r < 2
    ensures (2 * h + r) % (2 * p) == 2 * (h % p) + r
  {
    var q, t := h / p, h % p;
    assert h == q * p + t;
    ModUnique(2 * h + r, 2 * p, q, 2 * t + r);
  }

  lemma ModUnique(x: nat, d: nat, q: nat, r: nat)
    requires d > 0 && r < d && x == q * d + r
    ensures x % d == r && x / d == q
  {
    var q', r' := x / d, x % d;
    assert x == q' * d + r';
    if q > q' { MulStep(q, q', d); }
    if q < q' { MulStep(q', q, d); }
  }

  lemma MulStep(q: nat, q': nat, d: nat)
    requires q > q'
    ensures q * d >= q' * d + d
  {
    assert q * d == q' * d + (q - q') * d;
    assert (q - q') * d == d + (q - q' - 1) * d;
  }
}
