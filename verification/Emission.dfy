/** Emission driven by bytecode, and what it leaves alone. */
module Emission {
  import opened Words
  import opened Wasm
  import opened X86
  import opened Codegen
  import opened Layout
  import opened Fixups
  import opened Emitter
  import opened Bytecode

  /** A run of locals of one type. */
  datatype LocalEntry = LocalEntry(count: U32, ty: U8)

  datatype Code = Code(groups: seq<LocalEntry>, bytes: seq<U8>)

  /** A loaded module: `codes` holds the functions after the imports. */
  datatype Program = Program(imports: nat, sigs: seq<Sig>, codes: seq<Code>)

  function Total(groups: seq<LocalEntry>): nat {
    if |groups| == 0 then 0 else Total(groups[..|groups| - 1]) + groups[|groups| - 1].count
  }

  function EnvOf(pg: Program, f: nat): Env
    requires f < |pg.sigs| && pg.imports <= f < pg.imports + |pg.codes|
  {
    Env(pg.imports, pg.sigs, pg.sigs[f].cparams + Total(pg.codes[f - pg.imports].groups))
  }

  /** Frames are addressed with 32-bit byte offsets that are multiples of 8. */
  predicate LocalsFit(pg: Program) {
    forall f :: pg.imports <= f < |pg.sigs| && f < pg.imports + |pg.codes| ==> EnvOf(pg, f).clocals < 0x1000_0000
  }

  function EmitBytes(env: Env, em: Em, s: seq<U8>): Option<Em>
    decreases |s|
  {
    if |s| == 0 then Some(em)
    else
      match DecodeOp(s)
      case None => None
      case Some((op, n)) =>
        match EmitOp(env, em, op)
        case None => None
        case Some(em') => EmitBytes(env, em', s[n..])
  }

  /** Fetching and emitting alternate; that is the same as decoding everything first. */
  lemma {:induction false} EmitBytesDecodes(env: Env, em: Em, s: seq<U8>)
    ensures DecodeAll(s).Some? ==> EmitBytes(env, em, s) == EmitAll(env, em, DecodeAll(s).value)
    ensures DecodeAll(s).None? ==> EmitBytes(env, em, s).None?
    decreases |s|
  {
    hide DecodeOp, EmitOp;
    if |s| > 0 && DecodeOp(s).Some? {
      var (op, n) := DecodeOp(s).value;
      if EmitOp(env, em, op).Some? { EmitBytesDecodes(env, EmitOp(env, em, op).value, s[n..]); }
      if DecodeAll(s[n..]).Some? {
        var ops := DecodeAll(s[n..]).value;
        assert ([op] + ops)[1..] == ops;
      }
    }
  }

  // ---------- what emission cannot touch ----------

  /** Every pending field, and every known branch target, is in the code from lo to hi. */
  predicate FieldsIn(ctls: seq<Ctl>, lo: nat, hi: nat) {
    forall j :: 0 <= j < |ctls| ==>
      && Within(ctls[j].rels, lo, hi) && Within(ctls[j].abss, lo, hi)
      && (ctls[j].target.Some? ==> ctls[j].target.value <= hi)
  }

  /** em' continues em, whose function starts at lo. */
  predicate Continues(em: Em, em': Em, lo: nat) {
    lo <= |em.code| <= |em'.code| && em'.code[..lo] == em.code[..lo] && FieldsIn(em'.ctls, lo, |em'.code|)
  }

  lemma {:induction false} PatchAllKeeps(kind: Kind, code: seq<Cell>, fields: seq<nat>, t: nat, lo: nat)
    requires lo <= |code| && Within(fields, lo, |code|)
    ensures PatchAll(kind, 0, code, fields, t)[..lo] == code[..lo]
    decreases |fields|
  {
    if |fields| > 0 {
      PatchAllKeeps(kind, Patch(kind, 0, code, fields[0], t), fields[1..], t, lo);
    }
  }

  lemma WithinAppend(f: seq<nat>, g: seq<nat>, lo: nat, hi: nat, hi': nat)
    requires Within(f, lo, hi) && Within(g, lo, hi') && hi <= hi'
    ensures Within(f + g, lo, hi') && Within(f, lo, hi')
  {
  }

  lemma AtomContinues(env: Env, em: Em, a: Atom, lo: nat)
    requires FieldsIn(em.ctls, lo, |em.code|) && lo <= |em.code| && EmitAtom(env, em, a).Some?
    ensures Continues(em, EmitAtom(env, em, a).value, lo)
  {
    hide GenAtom, AtomSize, AtomFields, AtomOk, AtomByte, Within, Keeps, TargetsOf;
    var em1 := EmitAtom(env, em, a).value;
    var p, k := |em.code| + 7, Keeps(em.ctls);
    forall j | 0 <= j < |em.ctls|
      ensures Within(em1.ctls[j].rels, lo, |em1.code|) && Within(em1.ctls[j].abss, lo, |em1.code|)
      ensures em1.ctls[j].target == em.ctls[j].target
    {
      AtomFieldsIn(Relative, env, a, p, k, j, lo);
      AtomFieldsIn(Absolute, env, a, p, k, j, lo);
      WithinAppend(em.ctls[j].rels, AtomFields(Relative, env, a, p, k, j), lo, |em.code|, |em1.code|);
      WithinAppend(em.ctls[j].abss, AtomFields(Absolute, env, a, p, k, j), lo, |em.code|, |em1.code|);
    }
  }

  lemma AtomFieldsIn(kind: Kind, env: Env, a: Atom, p: nat, keeps: seq<bool>, j: nat, lo: nat)
    requires AtomOk(env, a, |keeps|) && lo <= p
    ensures Within(AtomFields(kind, env, a, p, keeps, j), lo, p + AtomSize(env, a, keeps))
  {
    hide AtomOk, AtomSize;
    assert Within(AtomFields(kind, env, a, p, keeps, j), p, p + AtomSize(env, a, keeps));
  }

  lemma FieldsGrow(ctls: seq<Ctl>, lo: nat, hi: nat, hi': nat)
    requires FieldsIn(ctls, lo, hi) && hi <= hi'
    ensures FieldsIn(ctls, lo, hi')
  {
  }

  lemma OpenContinues(env: Env, em: Em, em': Em, c: Ctl, code: seq<Cell>, lo: nat)
    requires lo <= |em.code| && FieldsIn(em.ctls, lo, |em.code|)
    requires em' == Em(em.code + code, [c] + em.ctls, em.calls)
    requires Within(c.rels, lo, |em'.code|) && Within(c.abss, lo, |em'.code|)
    requires c.target.Some? ==> c.target.value <= |em'.code|
    ensures Continues(em, em', lo)
  {
    FieldsGrow(em.ctls, lo, |em.code|, |em'.code|);
  }

  lemma BlockContinues(env: Env, em: Em, bt: BlockType, loop: bool, lo: nat)
    requires lo <= |em.code| && FieldsIn(em.ctls, lo, |em.code|)
    ensures Continues(em, EmitOpen(em, bt, loop), lo)
  {
    hide FieldsIn, Enter, Continues;
    var d, em1 := Dbg(if loop then LOOP else BLOCK), EmitOpen(em, bt, loop);
    Assoc(em.code, d, Enter());
    OpenContinues(env, em, em1, em1.ctls[0], d + Enter(), lo);
  }

  lemma IfContinues(env: Env, em: Em, bt: BlockType, lo: nat)
    requires lo <= |em.code| && FieldsIn(em.ctls, lo, |em.code|)
    ensures Continues(em, EmitIf(em, bt), lo)
  {
    hide FieldsIn, Enter, Continues, Asm, Dbg, JzCode;
    var em1 := EmitIf(em, bt);
    var d, t, j := Dbg(IF), Asm(IfTest()), JzCode(0);
    assert em.code + d + t + j + Enter() == em.code + (d + t + j + Enter());
    OpenContinues(env, em, em1, em1.ctls[0], d + t + j + Enter(), lo);
  }

  lemma ElseContinues(env: Env, em: Em, lo: nat)
    requires lo <= |em.code| && FieldsIn(em.ctls, lo, |em.code|) && EmitElse(em).Some?
    ensures Continues(em, EmitElse(em).value, lo)
  {
    hide Enter, Asm, Dbg, JumpCode;
    var top, em1 := em.ctls[0], EmitElse(em).value;
    var n := |em.code| + |Dbg(ELSE)| + |Asm(LeaveBlock(true))|;
    WithinAppend(top.rels, [n + 1], lo, |em.code|, n + 5);
    FieldsGrow(em.ctls, lo, |em.code|, |em1.code|);
  }

  lemma EndContinues(env: Env, em: Em, lo: nat)
    requires lo <= |em.code| && FieldsIn(em.ctls, lo, |em.code|) && EmitEnd(em).Some?
    ensures Continues(em, EmitEnd(em).value, lo)
  {
    hide Close, PatchAll;
    var top, em1 := em.ctls[0], EmitEnd(em).value;
    var code := em.code + Close(Keep(top.bt));
    FieldsGrow(em.ctls, lo, |em.code|, |code|);
    PatchAllKeeps(Relative, code, top.rels, |code|, lo);
    PatchAllKeeps(Absolute, PatchAll(Relative, 0, code, top.rels, |code|), top.abss, |code|, lo);
  }

  /** No opcode changes code before its own function, on any bytecode whatsoever. */
  lemma OpContinues(env: Env, em: Em, op: Opcode, lo: nat)
    requires lo <= |em.code| && FieldsIn(em.ctls, lo, |em.code|) && EmitOp(env, em, op).Some?
    ensures Continues(em, EmitOp(env, em, op).value, lo)
  {
    hide FieldsIn, Continues, EmitElse, EmitIf, EmitEnd, EmitOpen, EmitAtom;
    match op
    case OpBlock(bt) => BlockContinues(env, em, bt, false, lo);
    case OpLoop(bt) => BlockContinues(env, em, bt, true, lo);
    case OpIf(bt) => IfContinues(env, em, bt, lo);
    case OpElse => ElseContinues(env, em, lo);
    case OpEnd => EndContinues(env, em, lo);
    case OpAtom(a) => AtomContinues(env, em, a, lo);
  }

  lemma {:induction false} BytesContinue(env: Env, em: Em, s: seq<U8>, lo: nat)
    requires lo <= |em.code| && FieldsIn(em.ctls, lo, |em.code|) && EmitBytes(env, em, s).Some?
    ensures Continues(em, EmitBytes(env, em, s).value, lo)
    decreases |s|
  {
    hide EmitOp, DecodeOp, FieldsIn;
    if |s| > 0 {
      var (op, n) := DecodeOp(s).value;
      var em1 := EmitOp(env, em, op).value;
      OpContinues(env, em, op, lo);
      BytesContinue(env, em1, s[n..], lo);
    }
  }
}
