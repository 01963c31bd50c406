/** An encoder for modules of the modelled instructions: whatever it writes is loaded as it was. */
module Encoding {
  import opened Words
  import opened Wasm
  import opened Layout
  import opened Leb
  import opened LebProofs
  import opened Emitter
  import opened Bytecode
  import opened Emission
  import opened EndToEnd

  function EncodeMany(vs: seq<nat>): (r: seq<seq<U8>>)
    ensures |r| == |vs|
  {
    seq(|vs|, i requires 0 <= i < |vs| => EncodeU(vs[i]))
  }

  function EncodeImmediates(a: Atom): seq<U8> {
    match a
    case Br(d) => EncodeU(d)
    case BrIf(d) => EncodeU(d)
    case BrTable(ts, d) => Flat(EncodeMany([|ts|] + ts + [d]))
    case Return => []
    case Call(f) => EncodeU(f)
    case Plain(GetLocal(i)) => EncodeU(i)
    case Plain(SetLocal(i)) => EncodeU(i)
    case Plain(TeeLocal(i)) => EncodeU(i)
    case Plain(Const(v)) => EncodeS(Signed(v.w, v.n))
    case Plain(_) => []
  }

  function EncodeOp(op: Opcode): seq<U8> {
    match op
    case OpBlock(bt) => [BLOCK, bt]
    case OpLoop(bt) => [LOOP, bt]
    case OpIf(bt) => [IF, bt]
    case OpElse => [ELSE]
    case OpEnd => [END]
    case OpAtom(a) => ByteBelow(a); [AtomByte(a)] + EncodeImmediates(a)
  }

  lemma ByteBelow(a: Atom)
    ensures AtomByte(a) < 256
  {
  }

  /** The constants the loader reads back from their shortest encoding, and tables of a size that fits. */
  predicate Readable(op: Opcode) {
    && (op.OpAtom? && op.atom.BrTable? ==> |op.atom.targets| < T32)
    && (op.OpAtom? && op.atom.Plain? && op.atom.op.Const? ==>
          var v := op.atom.op.v; SignExtends(v.w, EncodeS(Signed(v.w, v.n)), Signed(v.w, v.n)))
  }

  lemma ManyEncoded(vs: seq<nat>)
    requires forall i :: 0 <= i < |vs| ==> vs[i] < T32
    ensures UsEncoded(EncodeMany(vs), vs)
  {
    hide IsU, EncodeU;
    forall i | 0 <= i < |vs| ensures IsU(32, EncodeMany(vs)[i], vs[i]) { U32Encoded(vs[i]); }
  }

  lemma U32Encoded(v: U32)
    ensures IsU(32, EncodeU(v), v)
  {
    Pow2Widths();
    EncodeUEncodes(32, v);
  }

  lemma SignedRange(w: Width, n: nat)
    requires n < Mod(w)
    ensures 0 <= Signed(w, n) + Pow2(Bits(w) - 1) < 2 * Pow2(Bits(w) - 1)
  {
    Pow2Widths();
    Pow2Double(32);
    Pow2Double(64);
  }

  lemma ImmediatesEncoded(a: Atom)
    requires Readable(OpAtom(a))
    ensures ImmediatesOf(a, EncodeImmediates(a))
  {
    hide IsU, EncodeU, IsS, EncodeS, SignExtends, Flat, EncodeMany, UsEncoded;
    match a
    case Br(d) => U32Encoded(d);
    case BrIf(d) => U32Encoded(d);
    case BrTable(ts, d) => ManyEncoded([|ts|] + ts + [d]);
    case Call(f) => U32Encoded(f);
    case Plain(GetLocal(i)) => U32Encoded(i);
    case Plain(SetLocal(i)) => U32Encoded(i);
    case Plain(TeeLocal(i)) => U32Encoded(i);
    case Plain(Const(v)) =>
      SignedRange(v.w, v.n);
      EncodeSEncodes(Bits(v.w), Signed(v.w, v.n));
    case _ =>
  }

  /** What the encoder writes is an encoding of the instruction. */
  lemma OpIsEncoded(op: Opcode)
    requires Readable(op)
    ensures OpEncoded(op, EncodeOp(op))
  {
    hide ImmediatesOf, EncodeImmediates, AtomByte, Readable;
    if op.OpAtom? {
      ImmediatesEncoded(op.atom);
      assert EncodeOp(op)[1..] == EncodeImmediates(op.atom);
    }
  }

  predicate AllReadable(ops: seq<Opcode>) {
    forall i :: 0 <= i < |ops| ==> Readable(ops[i])
  }

  /** Every constant and table of a body is readable. */
  predicate ReadableBody(b: Body) {
    match b
    case Done => true
    case Atomic(a, next) => Readable(OpAtom(a)) && ReadableBody(next)
    case IfElse(_, body, els, next) => ReadableBody(body) && ReadableBody(els) && ReadableBody(next)
    case _ => ReadableBody(b.body) && ReadableBody(b.next)
  }

  lemma ReadableAppend(a: seq<Opcode>, b: seq<Opcode>)
    requires AllReadable(a) && AllReadable(b)
    ensures AllReadable(a + b)
  {
    hide Readable;
  }

  lemma PlainReadable(op: Opcode)
    requires !op.OpAtom?
    ensures AllReadable([op])
  {
  }

  lemma {:induction false} BodyReadable(b: Body)
    requires ReadableBody(b)
    ensures AllReadable(Flatten(b))
    decreases b
  {
    hide AllReadable, Readable;
    match b
    case Done => NoneReadable();
    case Atomic(a, next) =>
      BodyReadable(next);
      assert AllReadable([OpAtom(a)]) by { OneReadable(OpAtom(a)); }
      ReadableAppend([OpAtom(a)], Flatten(next));
    case IfElse(bt, body, els, next) =>
      BodyReadable(body);
      BodyReadable(els);
      BodyReadable(next);
      PlainReadable(OpIf(bt));
      PlainReadable(OpElse);
      PlainReadable(OpEnd);
      ReadableAppend([OpIf(bt)], Flatten(body));
      ReadableAppend([OpIf(bt)] + Flatten(body), [OpElse]);
      ReadableAppend([OpIf(bt)] + Flatten(body) + [OpElse], Flatten(els));
      ReadableAppend([OpIf(bt)] + Flatten(body) + [OpElse] + Flatten(els), [OpEnd]);
      ReadableAppend([OpIf(bt)] + Flatten(body) + [OpElse] + Flatten(els) + [OpEnd], Flatten(next));
    case _ =>
      BodyReadable(b.body);
      BodyReadable(b.next);
      var open := OpenOp(b);
      PlainReadable(open);
      PlainReadable(OpEnd);
      ReadableAppend([open], Flatten(b.body));
      ReadableAppend([open] + Flatten(b.body), [OpEnd]);
      ReadableAppend([open] + Flatten(b.body) + [OpEnd], Flatten(b.next));
  }

  lemma NoneReadable()
    ensures AllReadable([])
  {
  }

  lemma OneReadable(op: Opcode)
    requires Readable(op)
    ensures AllReadable([op])
  {
    hide Readable;
  }

  function EncodeAll(ops: seq<Opcode>): (r: seq<seq<U8>>)
    ensures |r| == |ops|
  {
    seq(|ops|, i requires 0 <= i < |ops| => EncodeOp(ops[i]))
  }

  /** Decoding after encoding is the identity. */
  lemma EncodedDecodes(ops: seq<Opcode>)
    requires AllReadable(ops)
    ensures AllEncoded(ops, EncodeAll(ops))
    ensures DecodeAll(Flat(EncodeAll(ops))) == Some(ops)
  {
    hide OpEncoded, EncodeOp, Readable, DecodeAll;
    forall i | 0 <= i < |ops| ensures OpEncoded(ops[i], EncodeAll(ops)[i]) { OpIsEncoded(ops[i]); }
    DecodeRoundTrip(ops, EncodeAll(ops));
  }

  // ---------- modules ----------

  function CodeOf(fn: Func): Code
    requires fn.Defined?
  {
    Code(seq(|fn.locals|, i requires 0 <= i < |fn.locals| => LocalEntry(1, fn.locals[i])), Flat(EncodeAll(Flatten(fn.body) + [OpEnd])))
  }

  function SigOfFn(fn: Func): Sig { if fn.Defined? then Sig(fn.cparams, fn.arity == 1) else Sig(0, false) }

  /** The module of some imports and these functions. */
  function ModuleOf(imports: nat, fs: seq<Func>): Program
    requires imports <= |fs| && forall f :: imports <= f < |fs| ==> fs[f].Defined?
  {
    Program(imports, seq(|fs|, f requires 0 <= f < |fs| => SigOfFn(fs[f])),
            seq(|fs| - imports, i requires 0 <= i < |fs| - imports => CodeOf(fs[imports + i])))
  }

  lemma {:induction false} SingleLocals(tys: seq<U8>)
    ensures Expand(seq(|tys|, i requires 0 <= i < |tys| => LocalEntry(1, tys[i]))) == tys
    decreases |tys|
  {
    var gs := seq(|tys|, i requires 0 <= i < |tys| => LocalEntry(1, tys[i]));
    if |tys| > 0 {
      var init := tys[..|tys| - 1];
      SingleLocals(init);
      assert gs[..|gs| - 1] == seq(|init|, i requires 0 <= i < |init| => LocalEntry(1, init[i]));
      assert init + [tys[|tys| - 1]] == tys;
    }
  }

  /** What a function has to be for the compiler to accept its encoding. */
  ghost predicate Compilable(imports: nat, sigs: seq<Sig>, fn: Func) {
    && fn.Defined? && fn.arity <= 1 && ReadableBody(fn.body)
    && BodyOk(Env(imports, sigs, fn.cparams + |fn.locals|), fn.body, 1)
  }

  lemma BodyIsEncoded(b: Body)
    requires ReadableBody(b)
    ensures BodyEncoded(b, Flat(EncodeAll(Flatten(b) + [OpEnd])))
  {
    hide Flatten, AllEncoded, Flat, AllReadable;
    BodyReadable(b);
    PlainReadable(OpEnd);
    ReadableAppend(Flatten(b), [OpEnd]);
    EncodedDecodes(Flatten(b) + [OpEnd]);
  }

  /** Every list of well-formed functions is what some module describes. */
  lemma ModuleMatches(imports: nat, fs: seq<Func>)
    requires imports <= |fs| && (forall f :: 0 <= f < imports ==> fs[f].Import?)
    requires forall f :: imports <= f < |fs| ==> fs[f].Defined?
    requires forall f :: imports <= f < |fs| ==> Compilable(imports, ModuleOf(imports, fs).sigs, fs[f])
    ensures Matches(ModuleOf(imports, fs), fs)
  {
    hide Compilable, FnMatches, CodeOf, SigOfFn;
    forall f | imports <= f < |fs| ensures FnMatches(ModuleOf(imports, fs), f, fs[f]) {
      FnIsMatched(imports, fs, f);
    }
  }

  lemma FnIsMatched(imports: nat, fs: seq<Func>, f: nat)
    requires imports <= f < |fs| && (forall g :: imports <= g < |fs| ==> fs[g].Defined?)
    requires Compilable(imports, ModuleOf(imports, fs).sigs, fs[f])
    ensures FnMatches(ModuleOf(imports, fs), f, fs[f])
  {
    hide BodyEncoded, BodyOk, Expand, ReadableBody, Flatten, Flat;
    var pg, fn := ModuleOf(imports, fs), fs[f];
    assert pg.codes[f - imports] == CodeOf(fn);
    BodyIsEncoded(fn.body);
    SingleLocals(fn.locals);
    assert EnvOf(pg, f) == Env(imports, pg.sigs, fn.cparams + |fn.locals|);
  }
}
