/** The readers invert the encodings of section 5.2.2; the signed 64-bit one not always. */
module LebProofs {
  import opened Words
  import opened Leb

  /** All bytes but the last have the continuation bit. */
  predicate Chain(s: seq<U8>) {
    |s| > 0 && s[|s| - 1] < 128 && forall k :: 0 <= k < |s| - 1 ==> s[k] >= 128
  }

  lemma {:induction false} TakenChain(s: seq<U8>, rest: seq<U8>, max: nat)
    requires Chain(s) && |s| <= max
    ensures Taken(s + rest, max) == |s|
    decreases |s|
  {
    if |s| > 1 {
      assert (s + rest)[1..] == s[1..] + rest;
      assert Chain(s[1..]);
      TakenChain(s[1..], rest, max - 1);
    }
  }

  lemma {:induction false} RawPrefix(s: seq<U8>, rest: seq<U8>, n: nat)
    requires n <= |s|
    ensures Raw(s + rest, n) == Raw(s, n)
    decreases n
  {
    if n > 0 {
      assert (s + rest)[1..] == s[1..] + rest;
      RawPrefix(s[1..], rest, n - 1);
    }
  }

  lemma Pow7(n: nat)
    requires n >= 7
    ensures Pow2(n) == 128 * Pow2(n - 7)
  {
    assert Pow2(7) == 128;
    Pow2Add(7, n - 7);
  }

  // ---------- unsigned ----------

  lemma {:induction false} UnsignedDenotes(n: nat, s: seq<U8>, v: nat)
    requires n > 0 && IsU(n, s, v)
    ensures Chain(s) && 7 * (|s| - 1) < n && v < Pow2(n) && Raw(s, |s|) == v
    decreases |s|
  {
    if |s| == 1 {
      assert Raw(s[1..], 0) == 0;
    } else {
      UnsignedDenotes(n - 7, s[1..], v / 128);
      Pow7(n);
    }
  }

  /** Reading an unsigned integer returns the encoded value and takes exactly its bytes, whatever
      follows and however it was padded. */
  lemma UnsignedRoundTrip(w: Width, s: seq<U8>, v: nat, rest: seq<U8>)
    requires IsU(Bits(w), s, v)
    ensures ReadU(w, s + rest) == (v, |s|)
  {
    UnsignedDenotes(Bits(w), s, v);
    Pow2Widths();
    TakenChain(s, rest, MaxBytes(w));
    RawPrefix(s, rest, |s|);
  }

  /** The shortest encoding. */
  function EncodeU(v: nat): (s: seq<U8>)
    ensures |s| > 0
  {
    if v < 128 then [v] else [128 + v % 128] + EncodeU(v / 128)
  }

  lemma {:induction false} EncodeUEncodes(n: nat, v: nat)
    requires v < Pow2(n)
    ensures IsU(n, EncodeU(v), v)
    decreases v
  {
    if v >= 128 {
      assert Pow2(7) == 128;
      if n <= 7 { Pow2Grows(n, 7); assert false; }
      Pow7(n);
      EncodeUEncodes(n - 7, v / 128);
      assert EncodeU(v)[1..] == EncodeU(v / 128);
    }
  }

  // ---------- signed ----------

  function Negative(s: seq<U8>): bool
    requires |s| > 0
  {
    SignBit(s[|s| - 1])
  }

  lemma {:induction false} SignedDenotes(n: nat, s: seq<U8>, v: int)
    requires n > 0 && IsS(n, s, v)
    ensures Chain(s) && 7 * (|s| - 1) < n
    ensures v == Raw(s, |s|) - if Negative(s) then Pow2(7 * |s|) else 0
    ensures 0 <= v + Pow2(n - 1) < Pow2(n) && (v < 0 <==> Negative(s))
    decreases |s|
  {
    if |s| == 1 {
      SignedOne(n, s, v);
    } else {
      hide Pow2, SignBit;
      var t := s[1..];
      SignedDenotes(n - 7, t, v / 128);
      assert t[|t| - 1] == s[|s| - 1];
      RawStep(|s|);
      Pow7(n);
      Pow7(n - 1);
      SignedStep(v, s[0] - 128, Raw(t, |t|), if Negative(s) then Pow2(7 * |t|) else 0, Pow2(n - 8), Pow2(n - 7));
    }
  }

  lemma SignedOne(n: nat, s: seq<U8>, v: int)
    requires n > 0 && |s| == 1 && IsS(n, s, v)
    ensures Chain(s) && v == Raw(s, 1) - if Negative(s) then Pow2(7) else 0
    ensures 0 <= v + Pow2(n - 1) < Pow2(n) && (v < 0 <==> Negative(s))
  {
    assert Raw(s[1..], 0) == 0;
    assert Pow2(7) == 128;
  }

  lemma SignedStep(v: int, low: nat, raw: nat, sign: nat, half: nat, full: nat)
    requires low < 128 && v % 128 == low && v / 128 == raw - sign && 0 <= v / 128 + half < full
    ensures v == low + 128 * raw - 128 * sign && 0 <= v + 128 * half < 128 * full
    ensures v < 0 <==> v / 128 < 0
  {
  }

  lemma {:induction false} OrOnes(a: nat, n: nat)
    ensures Bitwise(OrBits, a, Pow2(n) - 1, n) == Pow2(n) - 1
  {
    if n > 0 {
      OrOnes(a / 2, n - 1);
      var m := Pow2(n - 1);
      assert (2 * m - 1) / 2 == m - 1 && (2 * m - 1) % 2 == 1;
    }
  }

  /** Or-ing in the mask of all bits from k up keeps only the low k bits of the other operand. */
  lemma {:induction false} OrHighMask(a: nat, k: nat, n: nat)
    requires k <= n && Pow2(k) <= Pow2(n)
    ensures Bitwise(OrBits, a, Pow2(n) - Pow2(k), n) == LowOf(a, k) + Pow2(n) - Pow2(k)
    decreases k
  {
    hide Bitwise, Pow2;
    if k == 0 {
      Pow2Zero();
      OrOnes(a, n);
    } else {
      var p, q := Pow2(n - 1), Pow2(k - 1);
      Pow2Double(n);
      Pow2Double(k);
      Pow2Grows(k - 1, n - 1);
      OrHighMask(a / 2, k - 1, n - 1);
      OrEven(a, p - q, n);
    }
  }

  /** The low k bits of a. */
  function LowOf(a: nat, k: nat): nat {
    if k == 0 then 0 else a % 2 + 2 * LowOf(a / 2, k - 1)
  }

  lemma {:induction false} LowOfMod(a: nat, k: nat)
    ensures LowOf(a, k) == a % Pow2(k)
  {
    if k > 0 {
      LowOfMod(a / 2, k - 1);
      HalveMod(a, Pow2(k - 1));
    }
  }

  lemma Pow2Zero()
    ensures Pow2(0) == 1
  {
  }

  lemma Pow2Double(n: nat)
    requires n > 0
    ensures Pow2(n) == 2 * Pow2(n - 1)
  {
  }

  lemma OrEven(a: nat, h: nat, n: nat)
    requires n > 0
    ensures Bitwise(OrBits, a, 2 * h, n) == a % 2 + 2 * Bitwise(OrBits, a / 2, h, n - 1)
  {
    assert (2 * h) / 2 == h && (2 * h) % 2 == 0;
  }

  lemma HalveMod(a: nat, q: nat)
    requires q > 0
    ensures a % (2 * q) == 2 * ((a / 2) % q) + a % 2
  {
    OddMod(a / 2, q, a % 2);
    assert a == 2 * (a / 2) + a % 2;
  }

  /** The encodings the signed readers get right: all of them at 32 bits; at 64 bits not the negative
      ones of five to nine bytes, unless the value is within the wrapped shift's range. */
  predicate SignExtends(w: Width, s: seq<U8>, v: int) {
    w.W32? || v >= 0 || |s| <= 4 || |s| == 10 || v + Pow2((7 * |s|) % 32) >= 0
  }

  lemma ReadSOf(w: Width, s: seq<U8>, v: int, rest: seq<U8>)
    requires IsS(Bits(w), s, v)
    ensures ReadS(w, s + rest).1 == |s|
    ensures ReadS(w, s + rest).0 ==
      var r := Lo(w, Raw(s, |s|));
      if 7 * |s| < Bits(w) && v < 0 then BitwiseW(OrBits, w, r, SignFill(w, 7 * |s|)) else r
  {
    hide Raw, BitwiseW, SignFill, IsS, SignBit;
    SignedDenotes(Bits(w), s, v);
    TakenChain(s, rest, MaxBytes(w));
    RawPrefix(s, rest, |s|);
    assert (s + rest)[|s| - 1] == s[|s| - 1];
  }

  /** The word a negative number of n bytes is read as. */
  lemma FilledWord(w: Width, raw: nat, k: nat)
    requires k < 32
    ensures Pow2(k) <= Mod(w)
    ensures BitwiseW(OrBits, w, Lo(w, raw), Mod(w) - Pow2(k)) == Lo(w, raw) % Pow2(k) + Mod(w) - Pow2(k)
  {
    Pow2Widths();
    Pow2Grows(k, Bits(w));
    OrHighMask(Lo(w, raw), k, Bits(w));
    LowOfMod(Lo(w, raw), k);
  }

  lemma LastByteBits(w: Width, s: seq<U8>, v: int)
    requires IsS(Bits(w), s, v) && 7 * |s| >= Bits(w)
    ensures Lo(w, Raw(s, |s|)) == Lo(w, v)
  {
    SignedDenotes(Bits(w), s, v);
    Pow2Widths();
    var x := 7 * |s| - Bits(w);
    Pow2Add(x, Bits(w));
    if Negative(s) {
      if w.W32? { assert Raw(s, |s|) == v + Pow2(x) * 0x1_0000_0000; }
      else { assert Raw(s, |s|) == v + Pow2(x) * 0x1_0000_0000_0000_0000; }
      LoShift(w, v, Pow2(x));
    }
  }

  lemma LoShift(w: Width, v: int, q: nat)
    ensures Lo(w, v + q * Mod(w)) == Lo(w, v)
  {
  }

  /** The word read for a negative number whose sign the reader extends. */
  lemma NegativeWord(w: Width, s: seq<U8>, v: int, rest: seq<U8>)
    requires IsS(Bits(w), s, v) && v < 0 && 7 * |s| < Bits(w)
    ensures var k := (7 * |s|) % 32;
      && Pow2(k) <= Mod(w) && Raw(s, |s|) == v + Pow2(7 * |s|)
      && ReadS(w, s + rest).0 == Raw(s, |s|) % Pow2(k) + Mod(w) - Pow2(k)
  {
    hide Raw, BitwiseW, IsS, SignBit, ReadS;
    var n := 7 * |s|;
    ReadSOf(w, s, v, rest);
    SignedDenotes(Bits(w), s, v);
    Pow2Widths();
    Pow2Grows(n, Bits(w));
    FilledWord(w, Raw(s, |s|), n % 32);
  }

  /** With x == v + 2^n for a negative v, the low k bits of x below all ones is v again exactly when
      v has no more than k significant bits. */
  lemma LowBits(v: int, k: nat, n: nat, m: nat)
    requires v < 0 && k <= n && v + Pow2(n) >= 0 && Pow2(n) <= m
    ensures (v + Pow2(n)) % Pow2(k) + m - Pow2(k) == v + m <==> v + Pow2(k) >= 0
  {
    var p, q := Pow2(k), Pow2(n - k);
    Pow2Add(n - k, k);
    if v + p >= 0 {
      MulStep(q, 0, p);
      assert v + q * p == (q - 1) * p + (v + p) by { assert (q - 1) * p == q * p - p; }
      ModUnique(v + q * p, p, q - 1, v + p);
    }
  }

  lemma LoNegative(w: Width, v: int)
    requires v < 0 && v + Mod(w) >= 0
    ensures Lo(w, v) == v + Mod(w)
  {
  }

  lemma SignedNegative(w: Width, s: seq<U8>, v: int, rest: seq<U8>)
    requires IsS(Bits(w), s, v) && v < 0 && 7 * |s| < Bits(w)
    ensures ReadS(w, s + rest).0 == Lo(w, v) <==> v + Pow2((7 * |s|) % 32) >= 0
  {
    hide Raw, BitwiseW, IsS, SignBit, ReadS, Pow2, Lo, IsU;
    var n := 7 * |s|;
    SignedDenotes(Bits(w), s, v);
    NegativeWord(w, s, v, rest);
    Pow2Widths();
    Pow2Grows(n, Bits(w));
    LoNegative(w, v);
    LowBits(v, n % 32, n, Mod(w));
  }

  /** The wrapped shift of a short encoding is the shift itself, and then no value is out of range. */
  lemma ShortFits(w: Width, s: seq<U8>, v: int)
    requires IsS(Bits(w), s, v) && v < 0 && 7 * |s| < Bits(w) && (w.W32? || |s| <= 4)
    ensures v + Pow2((7 * |s|) % 32) >= 0
  {
    hide Pow2, IsS;
    SignedDenotes(Bits(w), s, v);
    assert (7 * |s|) % 32 == 7 * |s|;
  }

  /** Reading a signed integer takes exactly its bytes, and returns the encoded value if and only if
      the reader extends its sign correctly: always at 32 bits, and at 64 bits unless the encoding has
      five to nine bytes of a negative number too small for the wrapped shift. */
  lemma SignedRoundTrip(w: Width, s: seq<U8>, v: int, rest: seq<U8>)
    requires IsS(Bits(w), s, v)
    ensures ReadS(w, s + rest).1 == |s|
    ensures ReadS(w, s + rest).0 == Lo(w, v) <==> SignExtends(w, s, v)
  {
    hide Raw, BitwiseW, IsS, SignBit, ReadS, Pow2, Lo;
    ReadSOf(w, s, v, rest);
    SignedDenotes(Bits(w), s, v);
    if 7 * |s| >= Bits(w) {
      LastByteBits(w, s, v);
    } else if v < 0 {
      SignedNegative(w, s, v, rest);
      if w.W32? || |s| <= 4 { ShortFits(w, s, v); }
    } else {
      ShortPositive(w, s, v);
    }
  }

  lemma ShortPositive(w: Width, s: seq<U8>, v: int)
    requires IsS(Bits(w), s, v) && v >= 0 && 7 * |s| < Bits(w)
    ensures Lo(w, Raw(s, |s|)) == Lo(w, v)
  {
    hide Pow2, IsS, Raw;
    SignedDenotes(Bits(w), s, v);
  }

  /** The shortest encoding. */
  function EncodeS(v: int): (s: seq<U8>)
    ensures |s| > 0
    decreases if v < 0 then 0 - v else v
  {
    if -64 <= v < 64 then [v % 128] else [128 + v % 128] + EncodeS(v / 128)
  }

  lemma {:induction false} EncodeSEncodes(n: nat, v: int)
    requires n > 0 && 0 <= v + Pow2(n - 1) < 2 * Pow2(n - 1)
    ensures IsS(n, EncodeS(v), v)
    decreases if v < 0 then 0 - v else v
  {
    if !(-64 <= v < 64) {
      assert Pow2(6) == 64;
      if n <= 7 { Pow2Grows(n - 1, 6); assert false; }
      Pow7(n - 1);
      EncodeSEncodes(n - 7, v / 128);
      assert EncodeS(v)[1..] == EncodeS(v / 128);
    }
  }

  const MISREAD: seq<U8> := [0x80, 0x80, 0x80, 0x80, 0x70]

  lemma MisreadEncodes()
    ensures IsS(64, MISREAD, -0x1_0000_0000)
  {
    hide Bitwise;
    var s := MISREAD;
    assert Pow2(7) == 128;
    Pow2Grows(7, 35);
    assert IsS(36, s[4..], -16);
    assert s[3..][1..] == s[4..];
    assert IsS(43, s[3..], -0x800);
    assert s[2..][1..] == s[3..];
    assert IsS(50, s[2..], -0x4_0000);
    assert s[1..][1..] == s[2..];
    assert IsS(57, s[1..], -0x200_0000);
  }

  /** i64.const -4294967296, in its shortest encoding, is read as -8. */
  lemma Signed64Misread()
    ensures IsS(64, MISREAD, -0x1_0000_0000) && ReadS(W64, MISREAD) == (0xFFFF_FFFF_FFFF_FFF8, 5)
  {
    hide IsS, Raw, ReadS, Bitwise, BitwiseW, Pow2;
    MisreadEncodes();
    assert MISREAD + [] == MISREAD;
    ReadSOf(W64, MISREAD, -0x1_0000_0000, []);
    NegativeWord(W64, MISREAD, -0x1_0000_0000, []);
    SmallPowers();
  }

  lemma SmallPowers()
    ensures Pow2(3) == 8 && Pow2(35) == 0x8_0000_0000
  {
    Pow2Widths();
    Pow2Add(32, 3);
  }
}
