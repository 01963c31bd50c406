/** The sections of a module for any list of functions: loading them gives back what was encoded. */
module Payloads {
  import opened Words
  import opened Wasm
  import opened Leb
  import opened LebProofs
  import opened Emitter
  import opened Bytecode
  import opened Emission
  import opened Sections
  import opened Canonical
  import opened WasmContext
  import opened Encoding

  // ---------- encoders ----------

  /** The compiler only asks how many parameters there are and whether there is a result. */
  function TypeOf(fn: Func): FnType {
    if fn.Defined? then FnType(seq(fn.cparams, _ => 0x7f), if fn.arity == 1 then Some(0x7f) else None) else FnType([], None)
  }

  function EncodeType(t: FnType): seq<U8> {
    [FUNC] + (EncodeU(|t.cparams|) + (t.cparams + ([|Results(t)|] + Results(t))))
  }

  function TypesOf(fs: seq<Func>): (r: seq<FnType>)
    ensures |r| == |fs|
  {
    seq(|fs|, i requires 0 <= i < |fs| => TypeOf(fs[i]))
  }

  function EncodeTypes(ts: seq<FnType>): (r: seq<seq<U8>>)
    ensures |r| == |ts|
  {
    seq(|ts|, i requires 0 <= i < |ts| => EncodeType(ts[i]))
  }

  function EncodeLocal(g: LocalEntry): seq<U8> { EncodeU(g.count) + [g.ty] }

  function EncodeLocals(gs: seq<LocalEntry>): (r: seq<seq<U8>>)
    ensures |r| == |gs|
  {
    seq(|gs|, i requires 0 <= i < |gs| => EncodeLocal(gs[i]))
  }

  function CodeInside(c: Code): seq<U8> { EncodeU(|c.groups|) + (Flat(EncodeLocals(c.groups)) + c.bytes) }

  function EncodeCode(c: Code): seq<U8> { EncodeU(|CodeInside(c)|) + CodeInside(c) }

  function EncodeCodes(cs: seq<Code>): (r: seq<seq<U8>>)
    ensures |r| == |cs|
  {
    seq(|cs|, i requires 0 <= i < |cs| => EncodeCode(cs[i]))
  }

  /** The numbers from lo up to hi. */
  function Numbers(lo: nat, hi: nat): (r: seq<U32>)
    requires lo <= hi < T32
    ensures |r| == hi - lo
  {
    seq(hi - lo, i requires 0 <= i < hi - lo => lo + i)
  }

  /** Function f has type f. */
  function TypePayload(fs: seq<Func>): seq<U8> { EncodeU(|fs|) + Flat(EncodeTypes(TypesOf(fs))) }

  function DeclPayload(imports: nat, n: nat): seq<U8>
    requires imports <= n < T32
  {
    EncodeU(n - imports) + Flat(EncodeMany(Numbers(imports, n)))
  }

  function CodePayload(cs: seq<Code>): seq<U8> { EncodeU(|cs|) + Flat(EncodeCodes(cs)) }

  // ---------- what they encode ----------

  lemma TypeIsEncoded(t: FnType)
    requires |t.cparams| < T32
    ensures UnpaddedType(t, EncodeType(t))
  {
    hide IsU, EncodeU;
    var n: U8 := |Results(t)|;
    U32Encoded(|t.cparams|);
    SmallU(n);
    assert TypeEncoded(t, EncodeU(|t.cparams|), [n], EncodeType(t));
  }

  lemma SmallU(n: nat)
    requires n < 128
    ensures IsU(32, [n], n)
  {
    assert EncodeU(n) == [n];
    U32Encoded(n);
  }

  lemma TypesAreEncoded(ts: seq<FnType>)
    requires forall i :: 0 <= i < |ts| ==> |ts[i].cparams| < T32
    ensures TypesEncoded(ts, EncodeTypes(ts))
  {
    hide UnpaddedType, EncodeType;
    forall i | 0 <= i < |ts| ensures UnpaddedType(ts[i], EncodeTypes(ts)[i]) { TypeIsEncoded(ts[i]); }
  }

  lemma LocalsAreEncoded(gs: seq<LocalEntry>)
    ensures LocalsEncoded(gs, EncodeLocals(gs))
  {
    hide IsU, EncodeU;
    forall i | 0 <= i < |gs| ensures LocalEncoded(gs[i], EncodeLocals(gs)[i]) {
      U32Encoded(gs[i].count);
      assert EncodeLocal(gs[i])[..|EncodeLocal(gs[i])| - 1] == EncodeU(gs[i].count);
    }
  }

  /** A body that fits the format: its sizes are 32-bit numbers, and it ends with `end`. */
  predicate CodeFits(c: Code) {
    |c.groups| < T32 && |CodeInside(c)| < T32 && |c.bytes| > 0 && c.bytes[|c.bytes| - 1] == END_OP
  }

  lemma CodeIsEncoded(c: Code)
    requires CodeFits(c)
    ensures CodeEncoded(c, EncodeCode(c))
  {
    hide IsU, EncodeU, Flat, EncodeLocals, LocalsEncoded;
    LocalsAreEncoded(c.groups);
    U32Encoded(|c.groups|);
    U32Encoded(|CodeInside(c)|);
  }

  lemma CodesAreEncoded(cs: seq<Code>)
    requires forall i :: 0 <= i < |cs| ==> CodeFits(cs[i])
    ensures CodesEncoded(cs, EncodeCodes(cs))
  {
    hide CodeEncoded, EncodeCode, CodeFits;
    forall i | 0 <= i < |cs| ensures CodeEncoded(cs[i], EncodeCodes(cs)[i]) { CodeIsEncoded(cs[i]); }
  }

  /** The bytecode of a body ends with `end`. */
  lemma EndsWithEnd(ops: seq<Opcode>)
    ensures var s := Flat(EncodeAll(ops + [OpEnd]));
      |s| > 0 && s[|s| - 1] == END_OP
  {
    hide Flat, EncodeOp;
    assert EncodeAll(ops + [OpEnd]) == EncodeAll(ops) + [EncodeOp(OpEnd)];
    FlatAppend(EncodeAll(ops), [EncodeOp(OpEnd)]);
    FlatOne(EncodeOp(OpEnd));
    assert EncodeOp(OpEnd) == [END_OP] by { EndByte(); }
  }

  lemma EndByte()
    ensures EncodeOp(OpEnd) == [END_OP]
  {
  }

  // ---------- how long encodings get ----------

  lemma ULength(v: U32)
    ensures |EncodeU(v)| <= 5
  {
    hide IsU, EncodeU;
    U32Encoded(v);
    UnsignedDenotes(32, EncodeU(v), v);
  }

  lemma SLength(w: Width, n: nat)
    requires n < Mod(w)
    ensures |EncodeS(Signed(w, n))| <= 10
  {
    hide IsS, EncodeS;
    SignedRange(w, n);
    EncodeSEncodes(Bits(w), Signed(w, n));
    SignedDenotes(Bits(w), EncodeS(Signed(w, n)), Signed(w, n));
  }

  lemma {:induction false} FlatLength(parts: seq<seq<U8>>, m: nat)
    requires forall i :: 0 <= i < |parts| ==> |parts[i]| <= m
    ensures |Flat(parts)| <= m * |parts|
    decreases |parts|
  {
    if |parts| > 0 { FlatLength(parts[1..], m); }
  }

  lemma ManyLength(vs: seq<nat>)
    requires forall i :: 0 <= i < |vs| ==> vs[i] < T32
    ensures |Flat(EncodeMany(vs))| <= 5 * |vs|
  {
    hide EncodeU;
    forall i | 0 <= i < |vs| ensures |EncodeMany(vs)[i]| <= 5 { ULength(vs[i]); }
    FlatLength(EncodeMany(vs), 5);
  }

  function AtomBytes(a: Atom): nat { if a.BrTable? then 11 + 5 * |a.targets| else 11 }

  lemma AtomLength(a: Atom)
    requires a.BrTable? ==> |a.targets| < T32
    ensures |EncodeOp(OpAtom(a))| <= AtomBytes(a)
  {
    hide EncodeU, EncodeS, Signed, EncodeMany, Flat;
    match a
    case Br(d) => ULength(d);
    case BrIf(d) => ULength(d);
    case BrTable(ts, d) => ManyLength([|ts|] + ts + [d]);
    case Call(f) => ULength(f);
    case Plain(GetLocal(i)) => ULength(i);
    case Plain(SetLocal(i)) => ULength(i);
    case Plain(TeeLocal(i)) => ULength(i);
    case Plain(Const(v)) => SLength(v.w, v.n);
    case _ =>
  }

  /** At least the number of bytes of a body's encoding. */
  function BodyBytes(b: Body): nat {
    match b
    case Done => 0
    case Atomic(a, next) => AtomBytes(a) + BodyBytes(next)
    case IfElse(_, body, els, next) => 4 + BodyBytes(body) + BodyBytes(els) + BodyBytes(next)
    case _ => 3 + BodyBytes(b.body) + BodyBytes(b.next)
  }

  lemma AllBoth(a: seq<Opcode>, b: seq<Opcode>)
    ensures |Flat(EncodeAll(a + b))| == |Flat(EncodeAll(a))| + |Flat(EncodeAll(b))|
  {
    hide Flat, EncodeOp;
    assert EncodeAll(a + b) == EncodeAll(a) + EncodeAll(b);
    FlatAppend(EncodeAll(a), EncodeAll(b));
  }

  lemma AllOne(op: Opcode)
    ensures |Flat(EncodeAll([op]))| == |EncodeOp(op)|
  {
    hide Flat, EncodeOp;
    assert EncodeAll([op]) == [EncodeOp(op)];
    FlatOne(EncodeOp(op));
  }

  lemma FrameLength(op: Opcode)
    requires !op.OpAtom?
    ensures |EncodeOp(op)| == if op.OpElse? || op.OpEnd? then 1 else 2
  {
  }

  lemma {:induction false} BodyLength(b: Body)
    requires ReadableBody(b)
    ensures |Flat(EncodeAll(Flatten(b)))| <= BodyBytes(b)
    decreases b
  {
    hide EncodeAll, Flat, EncodeOp, Readable, AtomBytes;
    match b
    case Done => NoBytes();
    case Atomic(a, next) =>
      BodyLength(next);
      AtomLength(a) by { TableReadable(a); }
      AllOne(OpAtom(a));
      AllBoth([OpAtom(a)], Flatten(next));
    case IfElse(bt, body, els, next) =>
      BodyLength(body);
      BodyLength(els);
      BodyLength(next);
      OneFrame(OpIf(bt));
      OneFrame(OpElse);
      OneFrame(OpEnd);
      AllBoth([OpIf(bt)], Flatten(body));
      AllBoth([OpIf(bt)] + Flatten(body), [OpElse]);
      AllBoth([OpIf(bt)] + Flatten(body) + [OpElse], Flatten(els));
      AllBoth([OpIf(bt)] + Flatten(body) + [OpElse] + Flatten(els), [OpEnd]);
      AllBoth([OpIf(bt)] + Flatten(body) + [OpElse] + Flatten(els) + [OpEnd], Flatten(next));
    case _ =>
      BodyLength(b.body);
      BodyLength(b.next);
      var open := OpenOp(b);
      OneFrame(open);
      OneFrame(OpEnd);
      AllBoth([open], Flatten(b.body));
      AllBoth([open] + Flatten(b.body), [OpEnd]);
      AllBoth([open] + Flatten(b.body) + [OpEnd], Flatten(b.next));
  }

  lemma NoBytes()
    ensures Flat(EncodeAll([])) == []
  {
  }

  lemma OneFrame(op: Opcode)
    requires !op.OpAtom?
    ensures |Flat(EncodeAll([op]))| == if op.OpElse? || op.OpEnd? then 1 else 2
  {
    hide EncodeAll, Flat, EncodeOp;
    AllOne(op);
    FrameLength(op);
  }

  lemma TableReadable(a: Atom)
    requires Readable(OpAtom(a))
    ensures a.BrTable? ==> |a.targets| < T32
  {
    hide SignExtends, EncodeS;
  }

  lemma LocalsLength(gs: seq<LocalEntry>)
    ensures |Flat(EncodeLocals(gs))| <= 6 * |gs|
  {
    hide EncodeU;
    forall i | 0 <= i < |gs| ensures |EncodeLocals(gs)[i]| <= 6 { ULength(gs[i].count); }
    FlatLength(EncodeLocals(gs), 6);
  }

  /** A function is encodable unless it is huge. */
  lemma SmallEncodable(fn: Func)
    requires fn.Defined? && fn.cparams < T32 && ReadableBody(fn.body) && 6 + 6 * |fn.locals| + BodyBytes(fn.body) < T32
    ensures Encodable(fn)
  {
    hide EncodeAll, Flat, EncodeOp, EncodeU, EncodeLocals, BodyBytes, Flatten, ReadableBody;
    var c := CodeOf(fn);
    BodyLength(fn.body);
    OneFrame(OpEnd);
    AllBoth(Flatten(fn.body), [OpEnd]);
    ULength(|c.groups|);
    LocalsLength(c.groups);
  }

  // ---------- whole modules ----------

  /** A function that has an encoding. */
  predicate Encodable(fn: Func) {
    fn.Defined? && fn.cparams < T32 && |fn.locals| < T32 && |CodeInside(CodeOf(fn))| < T32
  }

  lemma FnCodeFits(fn: Func)
    requires Encodable(fn)
    ensures CodeFits(CodeOf(fn))
  {
    hide Flatten, EncodeAll, Flat, CodeInside;
    EndsWithEnd(Flatten(fn.body));
  }

  lemma SigsOfTypes(imports: nat, fs: seq<Func>)
    requires imports <= |fs| < T32 && forall f :: 0 <= f < |fs| && fs[f].Defined? ==> fs[f].arity <= 1
    requires forall f :: imports <= f < |fs| ==> fs[f].Defined?
    ensures var es := Numbers(0, imports) + Numbers(imports, |fs|);
      && AllBelow(Numbers(0, imports), |fs|) && AllBelow(Numbers(imports, |fs|), |fs|) && AllBelow(es, |fs|)
      && Sigs(TypesOf(fs), es) == ModuleOf(imports, fs).sigs
  {
    hide CodeOf;
    var es := Numbers(0, imports) + Numbers(imports, |fs|);
    assert forall f :: 0 <= f < |fs| ==> es[f] == f;
    var a, b := Sigs(TypesOf(fs), es), ModuleOf(imports, fs).sigs;
    forall f | 0 <= f < |fs| ensures a[f] == b[f] {
      assert es[f] == f && TypesOf(fs)[f] == TypeOf(fs[f]);
    }
  }

  lemma TypesSmall(fs: seq<Func>)
    requires forall f :: 0 <= f < |fs| && fs[f].Defined? ==> fs[f].cparams < T32
    ensures forall i :: 0 <= i < |TypesOf(fs)| ==> |TypesOf(fs)[i].cparams| < T32
  {
  }

  /** Loading the encoded sections of a module gives the compiler the module. */
  lemma ModuleLoads(imports: nat, fs: seq<Func>)
    requires imports <= |fs| < T32 && (forall f :: 0 <= f < imports ==> fs[f].Import?)
    requires forall f :: imports <= f < |fs| ==> fs[f].Defined? && Encodable(fs[f]) && fs[f].arity <= 1
    ensures var pg := ModuleOf(imports, fs);
      Loads(TypePayload(fs), Numbers(0, imports), DeclPayload(imports, |fs|), CodePayload(pg.codes)) == Some(pg)
  {
    hide TypesEncoded, CodesEncoded, UsEncoded, IsU, EncodeU, Flat, Loads, Sigs, AllBelow, EncodeTypes, EncodeCodes, EncodeMany, Encodable, CodeFits, CodeOf;
    var pg := ModuleOf(imports, fs);
    var ts, ds := TypesOf(fs), Numbers(imports, |fs|);
    forall f | imports <= f < |fs| ensures fs[f].cparams < T32 { EncodableParams(fs[f]); }
    TypesSmall(fs);
    TypesAreEncoded(ts);
    U32Encoded(|fs|);
    ManyEncoded(ds);
    U32Encoded(|ds|);
    forall i | 0 <= i < |pg.codes| ensures CodeFits(pg.codes[i]) { FnCodeFits(fs[imports + i]); }
    CodesAreEncoded(pg.codes);
    U32Encoded(|pg.codes|);
    SigsOfTypes(imports, fs);
    LoadsEncoded(ts, EncodeTypes(ts), EncodeU(|fs|), Numbers(0, imports), ds, EncodeMany(ds), EncodeU(|ds|), pg.codes, EncodeCodes(pg.codes), EncodeU(|pg.codes|));
  }

  lemma EncodableParams(fn: Func)
    requires fn.Defined? && Encodable(fn)
    ensures fn.cparams < T32
  {
    hide CodeInside, CodeOf;
  }
}
