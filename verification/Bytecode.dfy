/** A function's bytecode: opcodes with their immediates, as CompileFn fetches them, and as the binary
    format of WebAssembly Core 1.0, section 5.4, encodes them. */
module Bytecode {
  import opened Words
  import opened Wasm
  import opened Layout
  import opened Leb
  import opened LebProofs
  import opened Emitter

  // ---------- decoding ----------

  const RELATIONS: seq<RelOp> := [Eq, Ne, LtS, LtU, GtS, GtU, LeS, LeU, GeS, GeU]
  const UNARIES: seq<UnOp> := [Clz, Ctz, PopCount]
  const BINARIES: seq<IntOp> :=
    [Add, Sub, Mul, DivS, DivU, RemS, RemU, And, Or, Xor, Shifted(Shl), Shifted(ShrS), Shifted(ShrU), Shifted(Rotl), Shifted(Rotr)]

  /** The operations without immediates, by opcode. */
  function PlainOf(b: U8): Option<Op> {
    if b == 0x00 then Some(Unreachable)
    else if b == 0x01 then Some(Nop)
    else if b == 0x1a then Some(Drop)
    else if b == 0x1b then Some(Select)
    else if b == 0x45 then Some(Eqz(W32))
    else if 0x46 <= b <= 0x4f then Some(Rel(W32, RELATIONS[b - 0x46]))
    else if b == 0x50 then Some(Eqz(W64))
    else if 0x51 <= b <= 0x5a then Some(Rel(W64, RELATIONS[b - 0x51]))
    else if 0x67 <= b <= 0x69 then Some(Un(W32, UNARIES[b - 0x67]))
    else if 0x6a <= b <= 0x78 then Some(Bin(W32, BINARIES[b - 0x6a]))
    else if 0x79 <= b <= 0x7b then Some(Un(W64, UNARIES[b - 0x79]))
    else if 0x7c <= b <= 0x8a then Some(Bin(W64, BINARIES[b - 0x7c]))
    else if b == 0xa7 then Some(WrapI64)
    else if b == 0xac then Some(ExtendS)
    else if b == 0xad then Some(ExtendU)
    else None
  }

  predicate IsIndexed(b: U8) { b in [0x0c, 0x0d, 0x10, 0x20, 0x21, 0x22] }

  /** The instructions with one index. */
  function IndexedOf(b: U8, v: U32): Atom
    requires IsIndexed(b)
  {
    if b == 0x0c then Br(v)
    else if b == 0x0d then BrIf(v)
    else if b == 0x10 then Call(v)
    else if b == 0x20 then Plain(GetLocal(v))
    else if b == 0x21 then Plain(SetLocal(v))
    else Plain(TeeLocal(v))
  }

  function OpenOf(b: U8, bt: U8): Opcode { if b == BLOCK then OpBlock(bt) else if b == LOOP then OpLoop(bt) else OpIf(bt) }

  /** k varuint32s in a row. */
  function ReadMany(s: seq<U8>, k: nat): (r: (seq<U32>, nat))
    ensures |r.0| == k && r.1 <= |s|
    decreases k
  {
    if k == 0 then ([], 0)
    else
      var (v, n) := ReadU(W32, s);
      var (vs, m) := ReadMany(s[n..], k - 1);
      ([v] + vs, n + m)
  }

  function ReadTable(s: seq<U8>): (r: (Atom, nat))
    ensures r.1 <= |s| && r.0.BrTable?
  {
    hide ReadU, ReadMany;
    var (count, n0) := ReadU(W32, s);
    var (ts, n1) := ReadMany(s[n0..], count);
    var (d, n2) := ReadU(W32, s[n0 + n1..]);
    (BrTable(ts, d), n0 + n1 + n2)
  }

  function ReadConst(w: Width, s: seq<U8>): (r: (Atom, nat))
    ensures r.1 <= |s|
  {
    var (c, m) := ReadS(w, s);
    (Plain(Const(Val(w, c))), m)
  }

  /** One opcode and the number of its bytes.  None is a throw, or an opcode that is not modelled. */
  function DecodeOp(s: seq<U8>): (r: Option<(Opcode, nat)>)
    requires |s| > 0
    ensures r.Some? ==> 0 < r.value.1 <= |s|
  {
    var b, t := s[0], s[1..];
    if b == BLOCK || b == LOOP || b == IF then (if |t| == 0 then None else Some((OpenOf(b, t[0]), 2)))
    else if b == ELSE then Some((OpElse, 1))
    else if b == END then Some((OpEnd, 1))
    else if IsIndexed(b) then var (v, n) := ReadU(W32, t); Some((OpAtom(IndexedOf(b, v)), 1 + n))
    else if b == 0x0e then var (a, n) := ReadTable(t); Some((OpAtom(a), 1 + n))
    else if b == 0x0f then Some((OpAtom(Return), 1))
    else if b == 0x41 then var (a, n) := ReadConst(W32, t); Some((OpAtom(a), 1 + n))
    else if b == 0x42 then var (a, n) := ReadConst(W64, t); Some((OpAtom(a), 1 + n))
    else if PlainOf(b).Some? then Some((OpAtom(Plain(PlainOf(b).value)), 1))
    else None
  }

  function DecodeAll(s: seq<U8>): Option<seq<Opcode>>
    decreases |s|
  {
    if |s| == 0 then Some([])
    else
      match DecodeOp(s)
      case None => None
      case Some((op, n)) =>
        match DecodeAll(s[n..])
        case None => None
        case Some(ops) => Some([op] + ops)
  }

  // ---------- fetching ----------

  /** The cursor after n bytes of the cb bytes at pos. */
  lemma SliceAfter(data: seq<U8>, pos: nat, cb: nat, n: nat)
    requires pos + cb <= |data| && n <= cb
    ensures data[pos..pos + cb][n..] == data[pos + n..pos + n + (cb - n)]
  {
  }

  method FetchTargets(data: seq<U8>, pos: nat, cb: nat, count: nat) returns (ts: seq<U32>, pos': nat, cb': nat)
    requires pos + cb <= |data|
    ensures var (vs, n) := ReadMany(data[pos..pos + cb], count);
      ts == vs && pos' == pos + n && cb' == cb - n
  {
    hide ReadU;
    ghost var s := data[pos..pos + cb];
    ghost var (all, total) := ReadMany(s, count);
    ts, pos', cb' := [], pos, cb;
    assert s[0..] == s;
    for itarget := 0 to count
      invariant pos' + cb' == pos + cb && pos <= pos' && |ts| == itarget
      invariant var (vs, n) := ReadMany(data[pos'..pos' + cb'], count - itarget);
        ts + vs == all && pos' - pos + n == total
    {
      ghost var p, c := pos', cb';
      var v: Word;
      v, pos', cb' := ReadUnsigned(W32, data, pos', cb');
      SliceAfter(data, p, c, pos' - p);
      ReadManyStep(data[p..p + c], count - itarget);
      Assoc(ts, [v as U32], ReadMany(data[pos'..pos' + cb'], count - itarget - 1).0);
      ts := ts + [v];
    }
    assert ts + [] == ts;
  }

  lemma ReadManyStep(s: seq<U8>, k: nat)
    requires k > 0
    ensures var (v, n) := ReadU(W32, s);
      var (vs, m) := ReadMany(s[n..], k - 1);
      ReadMany(s, k) == ([v as U32] + vs, n + m)
  {
  }

  method FetchTable(data: seq<U8>, pos: nat, cb: nat) returns (a: Atom, pos': nat, cb': nat)
    requires pos + cb <= |data|
    ensures var (t, n) := ReadTable(data[pos..pos + cb]);
      a == t && pos' == pos + n && cb' == cb - n
  {
    hide ReadU, ReadMany;
    var count: Word, d: Word, ts: seq<U32>;
    count, pos', cb' := ReadUnsigned(W32, data, pos, cb);
    SliceAfter(data, pos, cb, pos' - pos);
    ts, pos', cb' := FetchTargets(data, pos', cb', count);
    SliceAfter(data, pos, cb, pos' - pos);
    d, pos', cb' := ReadUnsigned(W32, data, pos', cb');
    a := BrTable(ts, d);
  }

  /** Takes one opcode and its immediates off the cb > 0 bytes at pos. */
  method FetchOp(data: seq<U8>, pos: nat, cb: nat) returns (op: Option<Opcode>, pos': nat, cb': nat)
    requires 0 < cb && pos + cb <= |data|
    ensures match DecodeOp(data[pos..pos + cb])
      case None => op == None
      case Some((o, n)) => op == Some(o) && pos' == pos + n && cb' == cb - n
  {
    hide ReadU, ReadS, ReadTable, PlainOf;
    var b := data[pos];
    pos', cb' := pos + 1, cb - 1;
    SliceAfter(data, pos, cb, 1);
    var v: Word, a: Atom;
    if b == BLOCK || b == LOOP || b == IF {
      if cb' < 1 { return None, pos', cb'; }
      return Some(OpenOf(b, data[pos'])), pos' + 1, cb' - 1;
    } else if b == ELSE {
      return Some(OpElse), pos', cb';
    } else if b == END {
      return Some(OpEnd), pos', cb';
    } else if IsIndexed(b) {
      v, pos', cb' := ReadUnsigned(W32, data, pos', cb');
      op := Some(OpAtom(IndexedOf(b, v)));
    } else if b == 0x0e {
      a, pos', cb' := FetchTable(data, pos', cb');
      op := Some(OpAtom(a));
    } else if b == 0x0f {
      op := Some(OpAtom(Return));
    } else if b == 0x41 {
      v, pos', cb' := ReadSigned(W32, data, pos', cb');
      op := Some(OpAtom(Plain(Const(Val(W32, v)))));
    } else if b == 0x42 {
      v, pos', cb' := ReadSigned(W64, data, pos', cb');
      op := Some(OpAtom(Plain(Const(Val(W64, v)))));
    } else {
      var plain := PlainOf(b);
      if plain.None? { return None, pos', cb'; }
      op := Some(OpAtom(Plain(plain.value)));
    }
  }

  // ---------- the binary format ----------

  function CodeByte(op: Opcode): nat {
    match op
    case OpBlock(_) => BLOCK
    case OpLoop(_) => LOOP
    case OpIf(_) => IF
    case OpElse => ELSE
    case OpEnd => END
    case OpAtom(a) => AtomByte(a)
  }

  function Flat(parts: seq<seq<U8>>): seq<U8> {
    if |parts| == 0 then [] else parts[0] + Flat(parts[1..])
  }

  predicate UsEncoded(parts: seq<seq<U8>>, vs: seq<nat>) {
    |parts| == |vs| && forall i :: 0 <= i < |vs| ==> IsU(32, parts[i], vs[i])
  }

  /** An encoding of v that the reader also extends correctly (`LebProofs.SignedRoundTrip`). */
  predicate ConstEncoded(v: Value, s: seq<U8>) {
    IsS(Bits(v.w), s, Signed(v.w, v.n)) && SignExtends(v.w, s, Signed(v.w, v.n))
  }

  /** s encodes the immediates of a; redundant LEB128 bytes are allowed. */
  ghost predicate ImmediatesOf(a: Atom, s: seq<U8>) {
    match a
    case Br(d) => IsU(32, s, d)
    case BrIf(d) => IsU(32, s, d)
    case BrTable(ts, d) => exists parts :: UsEncoded(parts, [|ts|] + ts + [d]) && s == Flat(parts)
    case Return => s == []
    case Call(f) => IsU(32, s, f)
    case Plain(GetLocal(i)) => IsU(32, s, i)
    case Plain(SetLocal(i)) => IsU(32, s, i)
    case Plain(TeeLocal(i)) => IsU(32, s, i)
    case Plain(Const(v)) => ConstEncoded(v, s)
    case Plain(_) => s == []
  }

  ghost predicate OpEncoded(op: Opcode, s: seq<U8>) {
    && |s| > 0 && s[0] == CodeByte(op)
    && match op
       case OpBlock(bt) => s[1..] == [bt]
       case OpLoop(bt) => s[1..] == [bt]
       case OpIf(bt) => s[1..] == [bt]
       case OpElse => s[1..] == []
       case OpEnd => s[1..] == []
       case OpAtom(a) => ImmediatesOf(a, s[1..])
  }

  ghost predicate AllEncoded(ops: seq<Opcode>, parts: seq<seq<U8>>) {
    |parts| == |ops| && forall i :: 0 <= i < |ops| ==> OpEncoded(ops[i], parts[i])
  }

  // ---------- decoding inverts encoding ----------

  lemma {:induction false} ReadManyEncoded(parts: seq<seq<U8>>, vs: seq<nat>, rest: seq<U8>)
    requires UsEncoded(parts, vs)
    ensures ReadMany(Flat(parts) + rest, |vs|) == (vs, |Flat(parts)|)
    decreases |vs|
  {
    hide IsU, ReadU;
    if |vs| > 0 {
      var tail := Flat(parts[1..]) + rest;
      assert Flat(parts) + rest == parts[0] + tail;
      UnsignedRoundTrip(W32, parts[0], vs[0], tail);
      assert (parts[0] + tail)[|parts[0]|..] == tail;
      ReadManyEncoded(parts[1..], vs[1..], rest);
      assert [vs[0]] + vs[1..] == vs;
    }
  }

  lemma {:induction false} FlatAppend(a: seq<seq<U8>>, b: seq<seq<U8>>)
    ensures Flat(a + b) == Flat(a) + Flat(b)
    decreases |a|
  {
    if |a| == 0 {
      assert a + b == b;
    } else {
      assert (a + b)[1..] == a[1..] + b;
      FlatAppend(a[1..], b);
    }
  }

  lemma FlatOne(p: seq<U8>)
    ensures Flat([p]) == p
  {
    assert Flat([p]) == p + Flat([]);
  }

  lemma TableEncoded(parts: seq<seq<U8>>, ts: seq<U32>, d: U32, rest: seq<U8>)
    requires UsEncoded(parts, [|ts|] + ts + [d])
    ensures ReadTable(Flat(parts) + rest) == (BrTable(ts, d), |Flat(parts)|)
  {
    hide IsU, ReadU, ReadMany, Flat;
    var n := |ts|;
    var first, mid, last := parts[0], parts[1..n + 1], parts[n + 1];
    assert parts == [first] + mid + [last];
    FlatAppend([first] + mid, [last]);
    FlatAppend([first], mid);
    FlatOne(first);
    FlatOne(last);
    assert IsU(32, last, d) && IsU(32, first, n);
    assert UsEncoded(mid, ts);
    TableParts(first, Flat(mid), last, mid, ts, d, rest);
    assert Flat(parts) + rest == first + (Flat(mid) + (last + rest));
  }

  lemma TableParts(f: seq<U8>, m: seq<U8>, l: seq<U8>, mid: seq<seq<U8>>, ts: seq<U32>, d: U32, rest: seq<U8>)
    requires IsU(32, f, |ts|) && UsEncoded(mid, ts) && m == Flat(mid) && IsU(32, l, d)
    ensures ReadTable(f + (m + (l + rest))) == (BrTable(ts, d), |f| + |m| + |l|)
  {
    hide IsU, ReadU, ReadMany, Flat, UsEncoded, ReadTable;
    var s := f + (m + (l + rest));
    AfterTwo(f, m, l + rest);
    var r := l + rest;
    UnsignedRoundTrip(W32, f, |ts|, m + r);
    ReadManyEncoded(mid, ts, r);
    UnsignedRoundTrip(W32, l, d, rest);
    ReadTableIs(s, ts, |f|, |m|, d, |l|);
  }

  lemma AfterTwo<T>(f: seq<T>, m: seq<T>, r: seq<T>)
    ensures (f + (m + r))[|f|..] == m + r && (f + (m + r))[|f| + |m|..] == r
  {
  }

  lemma ReadTableIs(s: seq<U8>, ts: seq<U32>, n0: nat, n1: nat, d: U32, n2: nat)
    requires n0 + n1 <= |s| && ReadU(W32, s) == (|ts|, n0)
    requires ReadMany(s[n0..], |ts|) == (ts, n1) && ReadU(W32, s[n0 + n1..]) == (d, n2)
    ensures ReadTable(s) == (BrTable(ts, d), n0 + n1 + n2)
  {
    hide ReadU, ReadMany;
  }

  lemma LoSigned(w: Width, n: nat)
    requires n < Mod(w)
    ensures Lo(w, Signed(w, n)) == n
  {
  }

  lemma ConstRoundTrip(v: Value, s: seq<U8>, rest: seq<U8>)
    requires ConstEncoded(v, s)
    ensures ReadConst(v.w, s + rest) == (Plain(Const(v)), |s|)
  {
    hide IsS, ReadS, SignExtends, Signed;
    SignedRoundTrip(v.w, s, Signed(v.w, v.n), rest);
    LoSigned(v.w, v.n);
  }

  lemma PlainRoundTrip(op: Op)
    requires !op.GetLocal? && !op.SetLocal? && !op.TeeLocal? && !op.Const?
    ensures OpByte(op) < 256 && PlainOf(OpByte(op)) == Some(op)
    ensures var b := OpByte(op);
      !IsIndexed(b) && b !in [BLOCK, LOOP, IF, ELSE, END, 0x0e, 0x0f, 0x41, 0x42]
  {
  }

  lemma AtomRoundTrip(a: Atom, s: seq<U8>, t: seq<U8>, rest: seq<U8>)
    requires s == [AtomByte(a) as U8] + t && ImmediatesOf(a, t)
    ensures DecodeOp(s + rest) == Some((OpAtom(a), |s|))
  {
    hide IsU, ReadU, ReadTable, ReadConst, ReadMany, PlainOf, OpByte, ConstEncoded;
    assert (s + rest)[1..] == t + rest;
    match a
    case BrTable(ts, d) =>
      var parts :| UsEncoded(parts, [|ts|] + ts + [d]) && t == Flat(parts);
      TableEncoded(parts, ts, d, rest);
    case Return =>
    case Br(v) => UnsignedRoundTrip(W32, t, v, rest);
    case BrIf(v) => UnsignedRoundTrip(W32, t, v, rest);
    case Call(v) => UnsignedRoundTrip(W32, t, v, rest);
    case Plain(op) => PlainAtomRoundTrip(op, s, t, rest);
  }

  lemma PlainAtomRoundTrip(op: Op, s: seq<U8>, t: seq<U8>, rest: seq<U8>)
    requires s == [AtomByte(Plain(op)) as U8] + t && ImmediatesOf(Plain(op), t)
    ensures DecodeOp(s + rest) == Some((OpAtom(Plain(op)), |s|))
  {
    hide IsU, ReadU, ReadTable, ReadConst, ReadMany, PlainOf, ConstEncoded;
    assert (s + rest)[1..] == t + rest;
    match op
    case GetLocal(v) => UnsignedRoundTrip(W32, t, v, rest);
    case SetLocal(v) => UnsignedRoundTrip(W32, t, v, rest);
    case TeeLocal(v) => UnsignedRoundTrip(W32, t, v, rest);
    case Const(v) => ConstRoundTrip(v, t, rest);
    case _ => PlainRoundTrip(op);
  }

  /** Fetching an opcode inverts the binary format: every encoding of an instruction is decoded to it
      and consumed exactly. */
  lemma OpRoundTrip(op: Opcode, s: seq<U8>, rest: seq<U8>)
    requires OpEncoded(op, s)
    ensures DecodeOp(s + rest) == Some((op, |s|))
  {
    hide ImmediatesOf, ReadU, ReadTable, ReadConst, PlainOf, AtomByte;
    assert s == [s[0]] + s[1..];
    if op.OpAtom? { AtomRoundTrip(op.atom, s, s[1..], rest); }
  }

  /** Decoding the concatenated encodings of a list of opcodes gives back the list. */
  lemma {:induction false} DecodeRoundTrip(ops: seq<Opcode>, parts: seq<seq<U8>>)
    requires AllEncoded(ops, parts)
    ensures DecodeAll(Flat(parts)) == Some(ops)
    decreases |ops|
  {
    hide OpEncoded, DecodeOp;
    if |ops| > 0 {
      var tail := Flat(parts[1..]);
      OpRoundTrip(ops[0], parts[0], tail);
      assert (parts[0] + tail)[|parts[0]|..] == tail;
      DecodeRoundTrip(ops[1..], parts[1..]);
      assert [ops[0]] + ops[1..] == ops;
    }
  }
}
