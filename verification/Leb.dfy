/** The LEB128 readers, and the integer encodings of WebAssembly Core 1.0, section 5.2.2. */
module Leb {
  import opened Words

  // ---------- the format ----------

  /** s encodes v as an unsigned n-bit integer; redundant high bytes are allowed. */
  predicate IsU(n: nat, s: seq<U8>, v: nat) {
    |s| > 0
    && if |s| == 1 then s[0] < 128 && s[0] < Pow2(n) && v == s[0]
       else s[0] >= 128 && n > 7 && v % 128 == s[0] - 128 && IsU(n - 7, s[1..], v / 128)
  }

  /** s encodes v as a signed n-bit integer. */
  predicate IsS(n: nat, s: seq<U8>, v: int)
    requires n > 0
  {
    |s| > 0
    && if |s| == 1 then
         || (s[0] < 64 && s[0] < Pow2(n - 1) && v == s[0])
         || (64 <= s[0] < 128 && s[0] + Pow2(n - 1) >= 128 && v + 128 == s[0])
       else s[0] >= 128 && n > 7 && v % 128 == s[0] - 128 && IsS(n - 7, s[1..], v / 128)
  }

  // ---------- what the readers compute ----------

  /** How many bytes a reader takes: up to the first one without the continuation bit, at most max. */
  function Taken(s: seq<U8>, max: nat): (n: nat)
    ensures n <= max && n <= |s|
    decreases max
  {
    if max == 0 || |s| == 0 then 0
    else if s[0] < 128 then 1
    else 1 + Taken(s[1..], max - 1)
  }

  /** The little-endian value of the low seven bits of the first n bytes. */
  function Raw(s: seq<U8>, n: nat): (r: nat)
    requires n <= |s|
    ensures r < Pow2(7 * n)
  {
    if n == 0 then 0 else RawStep(n); s[0] % 128 + 128 * Raw(s[1..], n - 1)
  }

  lemma RawStep(n: nat)
    requires n > 0
    ensures Pow2(7 * n) == 128 * Pow2(7 * (n - 1))
  {
    assert Pow2(7) == 128;
    Pow2Add(7, 7 * (n - 1));
  }

  /** The most bytes a reader of width w takes. */
  function MaxBytes(w: Width): nat { if w.W32? then 5 else 10 }

  /** The value read, and the number of bytes taken. */
  function ReadU(w: Width, s: seq<U8>): (r: (Word, nat))
    ensures r.0 < Mod(w) && r.1 <= |s| && (|s| > 0 ==> r.1 > 0)
  {
    var n := Taken(s, MaxBytes(w));
    (Lo(w, Raw(s, n)), n)
  }

  /** `~0 << shift` in 32-bit int: the shift count is taken modulo 32, as the processor does. */
  function SignFill(w: Width, shift: nat): nat {
    Pow2Widths();
    Pow2Grows(shift % 32, 32);
    Mod(w) - Pow2(shift % 32)
  }

  /** Bit 0x40 of a byte. */
  predicate SignBit(b: U8) { (b / 64) % 2 == 1 }

  function ReadS(w: Width, s: seq<U8>): (r: (Word, nat))
    ensures r.0 < Mod(w) && r.1 <= |s|
  {
    var n := Taken(s, MaxBytes(w));
    var r := Lo(w, Raw(s, n));
    (if n > 0 && 7 * n < Bits(w) && SignBit(s[n - 1]) then BitwiseW(OrBits, w, r, SignFill(w, 7 * n)) else r, n)
  }

  // ---------- the readers ----------

  lemma {:induction false} RawSnoc(s: seq<U8>, n: nat)
    requires n < |s|
    ensures Raw(s, n + 1) == Raw(s, n) + (s[n] % 128) * Pow2(7 * n)
    decreases n
  {
    if n > 0 {
      var d, p, q := s[n] % 128, Pow2(7 * (n - 1)), Pow2(7 * n);
      RawSnoc(s[1..], n - 1);
      assert s[1..][n - 1] == s[n];
      RawStep(n);
      MulSwap(128, d, p);
      RawSnocArith(s[0] % 128, Raw(s[1..], n - 1), d * p, d * q);
    } else {
      assert Raw(s[1..], 0) == 0;
    }
  }

  lemma RawSnocArith(h: nat, r: nat, x: nat, y: nat)
    requires y == 128 * x
    ensures h + 128 * (r + x) == h + 128 * r + y
  {
  }

  lemma {:induction false} TakenAll(s: seq<U8>, i: nat, max: nat)
    requires i <= |s| && i <= max && forall k :: 0 <= k < i ==> s[k] >= 128
    ensures Taken(s, max) == i + Taken(s[i..], max - i)
    decreases i
  {
    if i > 0 {
      TakenAll(s[1..], i - 1, max - 1);
      assert s[1..][i - 1..] == s[i..];
    } else {
      assert s[0..] == s;
    }
  }

  /** The step of every reader: the new seven bits are or-ed in above the ones read so far. */
  lemma OrStep(w: Width, s: seq<U8>, i: nat)
    requires i < |s| && 7 * i < Bits(w)
    ensures BitwiseW(OrBits, w, Lo(w, Raw(s, i)), Lo(w, (s[i] % 128) * Pow2(7 * i))) == Lo(w, Raw(s, i + 1))
  {
    var a, m, p := Raw(s, i), s[i] % 128, Pow2(7 * i);
    RawSnoc(s, i);
    Pow2Widths();
    Pow2Grows(7 * i, Bits(w));
    OrStepAt(w, a, m, p, i);
  }

  lemma OrStepAt(w: Width, a: nat, m: nat, p: nat, i: nat)
    requires 7 * i < Bits(w) && p == Pow2(7 * i) && a < p <= Mod(w)
    ensures BitwiseW(OrBits, w, Lo(w, a), Lo(w, m * p)) == Lo(w, a + m * p)
  {
    Pow2Widths();
    OrDisjoint(a, m, 7 * i, Bits(w));
    OrLow(a, m * p, Bits(w));
    AddLow(w, a, m, 7 * i);
  }

  /** Only the low n bits of an operand matter. */
  lemma {:induction false} OrLow(a: nat, b: nat, n: nat)
    ensures Bitwise(OrBits, a, b % Pow2(n), n) == Bitwise(OrBits, a, b, n)
  {
    if n > 0 {
      OrLow(a / 2, b / 2, n - 1);
      OddMod(b / 2, Pow2(n - 1), b % 2);
      var h := (b / 2) % Pow2(n - 1);
      assert b == 2 * (b / 2) + b % 2;
      assert b % Pow2(n) == 2 * h + b % 2;
      assert (2 * h + b % 2) / 2 == h && (2 * h + b % 2) % 2 == b % 2;
    }
  }

  /** a + (m * 2^k) mod 2^N == (a + m * 2^k) mod 2^N when a < 2^k. */
  lemma AddLow(w: Width, a: nat, m: nat, k: nat)
    requires k < Bits(w) && a < Pow2(k)
    ensures a + (m * Pow2(k)) % Mod(w) == (a + m * Pow2(k)) % Mod(w)
  {
    Pow2Widths();
    Pow2Add(Bits(w) - k, k);
    AddLowBy(a, m, Pow2(k), Pow2(Bits(w) - k), Mod(w));
  }

  lemma AddLowBy(a: nat, m: nat, p: nat, r: nat, d: nat)
    requires r > 0 && a < p && d == r * p && d > 0
    ensures a + (m * p) % d == (a + m * p) % d
  {
    var q, t := ModSplit(m, r);
    Distribute(q, r, t, p);
    MulStep(r, t, p);
    AddBelow(a, m * p, d, q, t * p, p);
  }

  lemma ModSplit(m: nat, r: nat) returns (q: nat, t: nat)
    requires r > 0
    ensures m == q * r + t && t < r
  {
    q, t := m / r, m % r;
  }

  lemma AddBelow(a: nat, x: nat, d: nat, q: nat, y: nat, p: nat)
    requires d > 0 && x == q * d + y && y + p <= d && a < p
    ensures a + x % d == (a + x) % d
  {
    ModUnique(x, d, q, y);
    ModUnique(a + x, d, q, a + y);
  }

  lemma Distribute(q: nat, r: nat, t: nat, p: nat)
    ensures (q * r + t) * p == q * (r * p) + t * p
  {
  }

  lemma RawNothing(s: seq<U8>)
    ensures Raw(s, 0) == 0 && !SignBit(0)
  {
  }

  lemma ReadDone(s: seq<U8>, i: nat, max: nat)
    requires i <= |s| && i <= max && forall k :: 0 <= k < i ==> s[k] >= 128
    requires i == max || i == |s| || s[i] < 128
    ensures Taken(s, max) == if i < max && i < |s| then i + 1 else i
  {
    TakenAll(s, i, max);
  }

  /** safe_read_buffer for varuint32 and varuint64: takes at most five (ten) bytes, fewer when the
      buffer ends, and returns the value of what it took modulo the width. */
  method ReadUnsigned(w: Width, data: seq<U8>, pos: nat, cb: nat) returns (ret: Word, pos': nat, cb': nat)
    requires pos + cb <= |data|
    ensures var (v, n) := ReadU(w, data[pos..pos + cb]);
      ret == v && pos' == pos + n && cb' == cb - n
  {
    ghost var s := data[pos..pos + cb];
    ret, pos', cb' := 0, pos, cb;
    var shift, ib := 0, 0;
    while ib < MaxBytes(w) && cb' > 0
      invariant ib <= MaxBytes(w) && ib <= cb && pos' == pos + ib && cb' == cb - ib && shift == 7 * ib
      invariant ret == Lo(w, Raw(s, ib))
      invariant forall k :: 0 <= k < ib ==> s[k] >= 128
    {
      assert data[pos'] == s[ib];
      OrStep(w, s, ib);
      ret := BitwiseW(OrBits, w, ret, Lo(w, (data[pos'] % 128) * Pow2(shift)));
      shift := shift + 7;
      var continues := data[pos'] >= 128;
      pos', cb' := pos' + 1, cb' - 1;
      if !continues {
        ReadDone(s, ib, MaxBytes(w));
        return;
      }
      ib := ib + 1;
    }
    ReadDone(s, ib, MaxBytes(w));
  }

  /** safe_read_buffer for varint32 and varint64; the result is the two's-complement word. */
  method ReadSigned(w: Width, data: seq<U8>, pos: nat, cb: nat) returns (ret: Word, pos': nat, cb': nat)
    requires pos + cb <= |data|
    ensures var (v, n) := ReadS(w, data[pos..pos + cb]);
      ret == v && pos' == pos + n && cb' == cb - n
  {
    hide Raw, Bitwise, BitwiseW, SignBit, Taken, SignFill;
    ghost var s := data[pos..pos + cb];
    ret, pos', cb' := 0, pos, cb;
    RawNothing(s);
    var shift, ib, byteLast, continues := 0, 0, 0, true;
    while ib < MaxBytes(w) && cb' > 0 && continues
      invariant ib <= MaxBytes(w) && ib <= cb && pos' == pos + ib && cb' == cb - ib && shift == 7 * ib
      invariant ret == Lo(w, Raw(s, ib))
      invariant ib > 0 ==> byteLast == s[ib - 1]
      invariant ib == 0 ==> byteLast == 0 && continues
      invariant forall k :: 0 <= k < ib && (continues || k < ib - 1) ==> s[k] >= 128
      invariant !continues ==> ib > 0 && s[ib - 1] < 128
      decreases cb'
    {
      assert data[pos'] == s[ib];
      OrStep(w, s, ib);
      byteLast := data[pos'];
      ret := BitwiseW(OrBits, w, ret, Lo(w, (byteLast % 128) * Pow2(shift)));
      shift := shift + 7;
      continues := byteLast >= 128;
      pos', cb', ib := pos' + 1, cb' - 1, ib + 1;
    }
    ReadDone(s, if continues then ib else ib - 1, MaxBytes(w));
    assert Taken(s, MaxBytes(w)) == ib;
    if shift < Bits(w) && SignBit(byteLast) {
      ret := BitwiseW(OrBits, w, ret, SignFill(w, shift));
    }
  }
}
