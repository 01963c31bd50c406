/** Equations that the imperative emitter is proved with. */
module JitSpec {
  import opened Words
  import opened Wasm
  import opened X86
  import opened Codegen
  import opened Layout
  import opened Fixups
  import opened Emitter
  import opened Bytecode
  import opened Emission
  import opened Closure

  lemma {:induction false} AsmAppend(a: seq<Instr>, b: seq<Instr>)
    ensures Asm(a + b) == Asm(a) + Asm(b)
    decreases |b|
  {
    hide Cells, Off, Len;
    if |b| == 0 {
      assert a + b == a;
    } else {
      var c := b[..|b| - 1];
      assert (a + b)[..|a + b| - 1] == a + c;
      AsmAppend(a, c);
      Assoc(Asm(a), Asm(c), Cells(b[|b| - 1]));
    }
  }

  lemma LeaveCodeStep(code: seq<Cell>, d: nat, keep: bool)
    requires d > 0
    ensures Asm(LeaveCode(d, keep)) == Asm(LeaveBlock(true)) + Asm(LeaveCode(d - 1, keep))
    ensures code + Asm(LeaveCode(d, keep)) == code + Asm(LeaveBlock(true)) + Asm(LeaveCode(d - 1, keep))
  {
    hide Asm;
    AsmAppend(LeaveBlock(true), LeaveCode(d - 1, keep));
    Assoc(code, Asm(LeaveBlock(true)), Asm(LeaveCode(d - 1, keep)));
  }

  lemma LeaveCodeLast(keep: bool)
    ensures LeaveCode(0, keep) == LeaveBlock(keep)
  {
  }

  lemma Assoc5<T>(x: seq<T>, a: seq<T>, b: seq<T>, c: seq<T>, d: seq<T>)
    ensures x + a + b + c + d == x + (a + (b + c) + d) == x + (a + b + (c + d)) == x + (a + b + c + d)
  {
  }

  lemma SetArgsStep(code: seq<Cell>, n: nat)
    requires n > 0
    ensures code + Asm(SetArgs(n)) == code + (Asm([M(StoreLocal(n - 1))]) + Asm(PopContract())) + Asm(SetArgs(n - 1))
  {
    hide Asm;
    var a, b, c := [M(StoreLocal(n - 1))], PopContract(), SetArgs(n - 1);
    AsmAppend(a, b);
    AsmAppend(a + b, c);
    Assoc(code, Asm(a + b), Asm(c));
  }

  lemma SetArgsLast()
    ensures Asm(SetArgs(0)) == []
  {
  }

  lemma CallSetupParts(env: Env, f: nat)
    requires f < |env.sigs|
    ensures Asm(CallSetup(env, f)) == Asm([P(AddRbx(env.clocals))]) + Asm(SetArgs(env.sigs[f].cparams)) + Enter()
              + if f < env.imports then Asm([R(MovEcxImm(f))]) else []
  {
    hide Asm, SetArgs, EnterBlock;
    var a, b, c, d := [P(AddRbx(env.clocals))], SetArgs(env.sigs[f].cparams), EnterBlock(), if f < env.imports then [R(MovEcxImm(f))] else [];
    AsmAppend(a, b);
    AsmAppend(a + b, c);
    AsmAppend(a + b + c, d);
    AsmNone();
  }

  lemma AsmNone()
    ensures Asm([]) == []
  {
  }

  lemma CallCleanupParts(env: Env, f: nat)
    requires f < |env.sigs|
    ensures Asm(CallCleanup(env, f))
         == Asm([P(PopRdi), P(SubRbx(env.clocals))]) + if env.sigs[f].hasReturn then [] else Asm(PopContract())
  {
    hide Asm, PopContract;
    AsmAppend([P(PopRdi), P(SubRbx(env.clocals))], if env.sigs[f].hasReturn then [] else PopContract());
    AsmNone();
  }

  // ---------- fixup lists ----------

  /** Adds a relative fixup to label d, unless its address is known. */
  function AddRel(ctls: seq<Ctl>, d: nat, field: nat): (r: seq<Ctl>)
    requires d < |ctls|
    ensures |r| == |ctls|
  {
    if ctls[d].target.Some? then ctls else ctls[d := ctls[d].(rels := ctls[d].rels + [field])]
  }

  function AddAbs(ctls: seq<Ctl>, d: nat, field: nat): (r: seq<Ctl>)
    requires d < |ctls|
    ensures |r| == |ctls| && forall j :: 0 <= j < |ctls| ==> r[j] == Collect(ctls[j], [], When(d == j, field))
  {
    NothingCollected(ctls);
    if ctls[d].target.Some? then ctls else ctls[d := ctls[d].(abss := ctls[d].abss + [field])]
  }

  lemma NothingCollected(ctls: seq<Ctl>)
    ensures forall j :: 0 <= j < |ctls| ==> Collect(ctls[j], [], []) == ctls[j] && ctls[j].rels + [] == ctls[j].rels
  {
    forall j | 0 <= j < |ctls| ensures Collect(ctls[j], [], []) == ctls[j] && ctls[j].rels + [] == ctls[j].rels {
      assert ctls[j].rels + [] == ctls[j].rels && ctls[j].abss + [] == ctls[j].abss;
    }
  }

  lemma NoFields()
    ensures var none: seq<nat> := []; none + none == none
  {
  }

  /** The lists after writing table entries from q on, one at a time. */
  function EntriesAdded(ctls: seq<Ctl>, ts: seq<nat>, q: nat): (r: seq<Ctl>)
    requires DepthsOk(ts, |ctls|)
    ensures |r| == |ctls|
    decreases |ts|
  {
    if |ts| == 0 then ctls else EntriesAdded(AddAbs(ctls, ts[0], q + 8), ts[1..], q + 16)
  }

  lemma {:induction false} EntriesAddedAt(ctls: seq<Ctl>, ts: seq<nat>, q: nat, j: nat)
    requires DepthsOk(ts, |ctls|) && j < |ctls|
    ensures EntriesAdded(ctls, ts, q)[j] == Collect(ctls[j], [], EntryFields(ts, q, j))
    decreases |ts|
  {
    hide Collect;
    if |ts| == 0 {
      NothingCollected(ctls);
    } else {
      var c := AddAbs(ctls, ts[0], q + 8);
      EntriesAddedAt(c, ts[1..], q + 16, j);
      CollectTwice(ctls[j], [], When(ts[0] == j, q + 8), [], EntryFields(ts[1..], q + 16, j));
      NoFields();
    }
  }

  /** A branch adds one fixup. */
  lemma AfterBranch(env: Env, a: Atom, p: nat, ctls: seq<Ctl>, d: U32, field: nat)
    requires (a == Br(d) || a == BrIf(d)) && AtomOk(env, a, |ctls|)
    requires field == p + LeaveSize(d, Keeps(ctls)[d]) + (if a.BrIf? then |Asm(BrIfTest())| + 6 else 0) + 1
    ensures AfterAtom(env, a, p, ctls) == AddRel(ctls, d, field)
  {
    hide LeaveSize, Asm, BrIfTest, Keeps;
    var r := AfterAtom(env, a, p, ctls);
    forall j | 0 <= j < |ctls| ensures r[j] == AddRel(ctls, d, field)[j] {
      assert ctls[j].rels + [] == ctls[j].rels && ctls[j].abss + [] == ctls[j].abss;
    }
  }

  lemma AfterTable(env: Env, ts: seq<U32>, d: U32, p: nat, ctls: seq<Ctl>)
    requires AtomOk(env, BrTable(ts, d), |ctls|)
    ensures AfterAtom(env, BrTable(ts, d), p, ctls) == EntriesAdded(AddAbs(ctls, d, p + 29), ts, p + 37)
  {
    hide Collect, EntriesAdded, EntryFields;
    var c := AddAbs(ctls, d, p + 29);
    var r := AfterAtom(env, BrTable(ts, d), p, ctls);
    forall j | 0 <= j < |ctls| ensures r[j] == EntriesAdded(c, ts, p + 37)[j] {
      EntriesAddedAt(c, ts, p + 37, j);
      CollectTwice(ctls[j], [], When(d == j, p + 29), [], EntryFields(ts, p + 37, j));
      NoFields();
    }
  }

  /** Other instructions add none. */
  lemma AfterOther(env: Env, a: Atom, p: nat, ctls: seq<Ctl>)
    requires !a.Br? && !a.BrIf? && !a.BrTable? && AtomOk(env, a, |ctls|)
    ensures AfterAtom(env, a, p, ctls) == ctls
  {
    NothingCollected(ctls);
  }

  lemma EntryIs(code: seq<Cell>, d: nat, target: Option<nat>)
    ensures code + ([Qword(d)] + Tails(7)) + ([Ptr(if target.Some? then target.value else 0)] + Tails(7)) == code + Entry(d, target)
  {
  }

  lemma TableIs(env: Env, ts: seq<U32>, d: U32, p: nat, ctls: seq<Ctl>)
    requires AtomOk(env, BrTable(ts, d), |ctls|)
    ensures var t := TargetsOf(ctls);
      GenAtom(env, BrTable(ts, d), p, Keeps(ctls), t, t)
      == TableHead(env, p, |ts|, ctls[d].bt != EMPTY_BLOCK) + Entry(d, ctls[d].target) + Entries(ts, t)
  {
    hide TableHead, Entry, Entries;
  }

  lemma EntriesStep(code: seq<Cell>, ts: seq<nat>, ctls: seq<Ctl>, q: nat)
    requires DepthsOk(ts, |ctls|) && |ts| > 0
    ensures ts[0] < |ctls|
    ensures var c := AddAbs(ctls, ts[0], q + 8);
      && TargetsOf(c) == TargetsOf(ctls) && DepthsOk(ts[1..], |ctls|)
      && code + Entries(ts, TargetsOf(ctls)) == code + Entry(ts[0], ctls[ts[0]].target) + Entries(ts[1..], TargetsOf(ctls))
      && EntriesAdded(ctls, ts, q) == EntriesAdded(c, ts[1..], q + 16)
  {
    hide Entry;
  }

  lemma EntriesEnd(code: seq<Cell>, ctls: seq<Ctl>, q: nat)
    ensures code + Entries([], TargetsOf(ctls)) == code && EntriesAdded(ctls, [], q) == ctls
  {
  }

  lemma AddAbsTargets(ctls: seq<Ctl>, d: nat, field: nat)
    requires d < |ctls|
    ensures TargetsOf(AddAbs(ctls, d, field)) == TargetsOf(ctls)
  {
  }

  /** The conditional jump of br_if, pointed just past the branch. */
  lemma SkipPatched(pre: seq<Cell>, test: seq<Cell>, rest: seq<Cell>)
    ensures var code := pre + (test + JzCode(-6)) + rest;
      Patch(Relative, 0, code, |pre| + |test| + 2, |code|) == pre + (test + JzCode(|rest|) + rest)
  {
    hide PatchAll;
    var q := |pre| + |test|;
    var code := pre + (test + JzCode(-6)) + rest;
    PatchOne(Relative, 0, code, q + 2, |code|);
    PatchLeft(Relative, 0, pre + (test + JzCode(-6)), rest, [q + 2], |code|);
    PatchRight(Relative, 0, pre, test + JzCode(-6), [q + 2], |code|);
    PatchRight(Relative, |pre|, test, JzCode(-6), [q + 2], |code|);
    PatchJz(q, -6, |code|);
    Assoc(pre, test + JzCode(|rest|), rest);
  }

  lemma GenBranch(env: Env, a: Atom, d: U32, p: nat, ctls: seq<Ctl>)
    requires (a == Br(d) || a == BrIf(d)) && AtomOk(env, a, |ctls|)
    ensures var t, k := TargetsOf(ctls), Keeps(ctls)[d];
      var n, m := LeaveSize(d, k), |Asm(BrIfTest())|;
      && (a.Br? ==>
            && GenAtom(env, a, p, Keeps(ctls), t, t) == Asm(LeaveCode(d, k)) + JumpCode(p + n, t[d])
            && AfterAtom(env, a, p, ctls) == AddRel(ctls, d, p + n + 1))
      && (a.BrIf? ==>
            && GenAtom(env, a, p, Keeps(ctls), t, t) == Asm(BrIfTest()) + JzCode(n + 5) + Asm(LeaveCode(d, k)) + JumpCode(p + m + 6 + n, t[d])
            && AfterAtom(env, a, p, ctls) == AddRel(ctls, d, p + m + 6 + n + 1))
  {
    hide AfterAtom, AddRel, Asm, JumpCode, JzCode, LeaveCode, BrIfTest, Keeps;
    var n := LeaveSize(d, Keeps(ctls)[d]);
    AfterBranch(env, a, p, ctls, d, p + n + (if a.BrIf? then |Asm(BrIfTest())| + 6 else 0) + 1);
  }

  lemma GenOther(env: Env, a: Atom, p: nat, ctls: seq<Ctl>)
    requires !a.Br? && !a.BrIf? && !a.BrTable? && AtomOk(env, a, |ctls|)
    ensures var g := GenAtom(env, a, p, Keeps(ctls), TargetsOf(ctls), TargetsOf(ctls));
      && (a.Plain? ==> g == Asm(OpCode(a.op)))
      && (a.Return? ==> g == Asm([P(AddRsp(|ctls|))]) + Cells(J(Ret)))
      && (a.Call? ==>
            && a.fn < |env.sigs|
            && g == Asm(CallSetup(env, a.fn)) + Cells(J(CallTable(8 * a.fn - (p + |Asm(CallSetup(env, a.fn))| + 6)))) + Asm(CallCleanup(env, a.fn)))
  {
    hide Asm, OpCode, CallSetup, CallCleanup, Cells;
  }

  // ---------- the translation loop ----------

  lemma StartsEmpty(lo: nat, hi: nat)
    ensures FieldsIn([Ctl(NONE_TYPE, None, [], [])], lo, hi)
  {
  }

  /** `else`, its code in one piece. */
  lemma ThenLeft(code: seq<Cell>, ctls: seq<Ctl>, calls: seq<nat>)
    requires |ctls| > 0 && |ctls[0].rels| > 0
    ensures var n := |Asm(LeaveBlock(true))|;
      var code1 := code + (Dbg(ELSE) + Asm(LeaveBlock(true)) + JumpCode(|code| + 7 + n, None));
      var rels := ctls[0].rels + [|code| + 7 + n + 1];
      EmitElse(Em(code, ctls, calls))
      == Some(Em(Patch(Relative, 0, code1, rels[0], |code1|) + Enter(), [ctls[0].(rels := rels[1..])] + ctls[1..], calls))
  {
    hide Dbg, Asm, JumpCode, Enter, Patch;
    var d, l, j := Dbg(ELSE), Asm(LeaveBlock(true)), JumpCode(|code| + 7 + |Asm(LeaveBlock(true))|, None);
    Assoc5(code, [], d, l, j);
    assert code + d + l + j == code + (d + l + j);
  }

  lemma FirstField(ctls: seq<Ctl>, lo: nat, hi: nat)
    requires FieldsIn(ctls, lo, hi) && |ctls| > 0 && |ctls[0].rels| > 0
    ensures lo <= ctls[0].rels[0] < hi
  {
  }

  lemma FieldsFrom(ctls: seq<Ctl>, lo: nat, hi: nat)
    requires FieldsIn(ctls, lo, hi)
    ensures FieldsIn(ctls, 0, hi)
  {
  }

  lemma CallsAfter(calls: seq<nat>, a: Atom)
    ensures (if a.Call? then calls + [a.fn] else calls) == calls + CallsOf(a)
  {
    if !a.Call? {
      assert calls + [] == calls;
    }
  }

  /** One turn of the loop; code never shrinks, so once there is no room there is none at the end. */
  lemma BytesStep(env: Env, em: Em, s: seq<U8>, lo: nat)
    requires |s| > 0 && lo <= |em.code| && FieldsIn(em.ctls, lo, |em.code|)
    ensures DecodeOp(s).None? ==> EmitBytes(env, em, s).None?
    ensures DecodeOp(s).Some? ==>
      var (op, n) := DecodeOp(s).value;
      var e := EmitOp(env, em, op);
      if e.None? then EmitBytes(env, em, s).None?
      else
        && EmitBytes(env, em, s) == EmitBytes(env, e.value, s[n..])
        && lo <= |em.code| <= |e.value.code| && FieldsIn(e.value.ctls, lo, |e.value.code|)
        && (EmitBytes(env, em, s).Some? ==> |e.value.code| <= |EmitBytes(env, em, s).value.code|)
  {
    hide EmitOp, DecodeOp, FieldsIn;
    if DecodeOp(s).Some? {
      var (op, n) := DecodeOp(s).value;
      if EmitOp(env, em, op).Some? {
        var em1 := EmitOp(env, em, op).value;
        OpContinues(env, em, op, lo);
        if EmitBytes(env, em1, s[n..]).Some? { BytesContinue(env, em1, s[n..], lo); }
      }
    }
  }

  lemma EnvIs(pg: Program, f: nat)
    requires f < |pg.sigs| && pg.imports <= f < pg.imports + |pg.codes|
    ensures EnvOf(pg, f) == Env(pg.imports, pg.sigs, EnvOf(pg, f).clocals) && pg.sigs[f].cparams <= EnvOf(pg, f).clocals
  {
  }

  lemma {:induction false} TotalGrows(groups: seq<LocalEntry>, n: nat)
    requires 0 < n <= |groups|
    ensures Total(groups[..n]) == Total(groups[..n - 1]) + groups[n - 1].count && Total(groups[..n]) <= Total(groups)
    decreases |groups| - n
  {
    assert groups[..n][..n - 1] == groups[..n - 1];
    if n < |groups| {
      TotalGrows(groups, n + 1);
    } else {
      assert groups[..n] == groups;
    }
  }

  lemma BodyGrows(env: Env, cparams: nat, code: seq<Cell>, bytes: seq<U8>)
    requires cparams <= env.clocals
    ensures var e := EmitBytes(env, StartFn(env, cparams, code), bytes);
      e.Some? ==> |code + Prologue(env, cparams)| <= |e.value.code|
  {
    hide EmitBytes, Prologue;
    var em := StartFn(env, cparams, code);
    if EmitBytes(env, em, bytes).Some? { BytesContinue(env, em, bytes, |code|); }
  }

  lemma CompileStep(pg: Program, code: seq<Cell>, f: nat)
    requires PlaneOk(pg, code) && f < |pg.sigs| && IsNull(code, f)
    ensures EmitFn(pg, code, f).None? ==> Compile(pg, code, f).None?
    ensures EmitFn(pg, code, f).Some? ==>
      var em := EmitFn(pg, code, f).value;
      && PlaneOk(pg, em.code) && Nulls(pg, em.code) < Nulls(pg, code)
      && Compile(pg, code, f) == CompileCalls(pg, em.code, em.calls)
      && (Compile(pg, code, f).Some? ==> |em.code| <= |Compile(pg, code, f).value|)
  {
    hide EmitFn, PlaneOk, Extends, Nulls, IsNull;
    if EmitFn(pg, code, f).Some? {
      var em := EmitFn(pg, code, f).value;
      FnProgress(pg, code, f);
      if Compile(pg, code, f).Some? {
        CallsExtend(pg, em.code, em.calls);
        SizeGrows(pg, em.code, Compile(pg, code, f).value);
      }
    }
  }

  lemma SizeGrows(pg: Program, a: seq<Cell>, b: seq<Cell>)
    requires Extends(pg, a, b)
    ensures |a| <= |b|
  {
  }

  lemma CallsStep(pg: Program, code: seq<Cell>, calls: seq<nat>)
    requires PlaneOk(pg, code) && |calls| > 0
    ensures calls[0] < |pg.sigs| && IsNull(code, calls[0]) ==>
      var c := Compile(pg, code, calls[0]);
      if c.None? then CompileCalls(pg, code, calls).None?
      else
        && PlaneOk(pg, c.value) && Nulls(pg, c.value) < Nulls(pg, code)
        && CompileCalls(pg, code, calls) == CompileCalls(pg, c.value, calls[1..])
        && (CompileCalls(pg, code, calls).Some? ==> |c.value| <= |CompileCalls(pg, code, calls).value|)
    ensures !(calls[0] < |pg.sigs| && IsNull(code, calls[0])) ==> CompileCalls(pg, code, calls) == CompileCalls(pg, code, calls[1..])
  {
    hide Compile, PlaneOk, Extends, Nulls, IsNull;
    if calls[0] < |pg.sigs| && IsNull(code, calls[0]) {
      var c := Compile(pg, code, calls[0]);
      if c.Some? && CompileCalls(pg, code, calls).Some? {
        CallsExtend(pg, c.value, calls[1..]);
        SizeGrows(pg, c.value, CompileCalls(pg, code, calls).value);
      }
    }
  }

  lemma WrapAdd(x: nat, y: nat)
    ensures (x % T32 + y) % T32 == (x + y) % T32
  {
  }

  lemma FrameFits(pg: Program, f: nat)
    requires LocalsFit(pg) && f < |pg.sigs| && pg.imports <= f < pg.imports + |pg.codes|
    ensures EnvOf(pg, f).clocals < T32 && pg.sigs[f].cparams < T32 && EnvOf(pg, f).clocals % T32 == EnvOf(pg, f).clocals
  {
  }

  /** Starting a function's code extends the plane, whatever is written after its end. */
  lemma FirstExtends(pg: Program, code: seq<Cell>, f: nat, code': seq<Cell>)
    requires PlaneOk(pg, code) && f < |pg.sigs| && IsNull(code, f) && |code| <= |code'|
    requires code'[..|code|] == code[8 * f := Ptr(|code|)]
    ensures Extends(pg, code, code') && code'[8 * f] == Ptr(|code|)
  {
    hide Extends;
    TableOnly(pg, code, f, code');
  }

  lemma EntryStays(pg: Program, a: seq<Cell>, b: seq<Cell>, f: nat, p: nat)
    requires PlaneOk(pg, a) && Extends(pg, a, b) && f < |pg.sigs| && a[8 * f] == Ptr(p) && p > 0
    ensures b[8 * f] == Ptr(p)
  {
    hide PlaneOk, Extends;
    NonNullStays(pg, a, b, f);
  }

  // ---------- the header ----------

  lemma TailKept<T>(a: seq<T>, b: seq<T>, i: nat, j: nat)
    requires i <= j <= |a| == |b| && a[i..] == b[i..]
    ensures a[j..] == b[j..]
  {
    assert a[i..][j - i..] == a[j..] && b[i..][j - i..] == b[j..];
  }

  lemma HeaderDone(pg: Program, a: seq<Cell>, b: seq<Cell>, c: seq<Cell>, start: nat)
    requires TableEnd(pg) <= start <= |a| == |b| == |c|
    requires b[..8 * |pg.sigs|] == a[..8 * |pg.sigs|] && c[..start] == b[..start]
    requires forall k :: 0 <= k < 7 ==> b[8 * |pg.sigs| + 8 * k] == Extern(HELPERS[k])
    ensures forall f :: 0 <= f < |pg.sigs| ==> c[8 * f] == a[8 * f]
    ensures forall k :: 0 <= k < 7 ==> c[8 * |pg.sigs| + 8 * k] == Extern(HELPERS[k])
  {
    var n := 8 * |pg.sigs|;
    forall f | 0 <= f < |pg.sigs| ensures c[8 * f] == a[8 * f] {
      assert a[..n][8 * f] == b[..n][8 * f] && c[..start][8 * f] == b[..start][8 * f];
    }
    forall k | 0 <= k < 7 ensures c[n + 8 * k] == Extern(HELPERS[k]) {
      assert c[..start][n + 8 * k] == b[..start][n + 8 * k];
    }
  }

  lemma HeaderIsPlane(pg: Program, c: seq<Cell>)
    requires TableEnd(pg) <= |c|
    requires forall f :: 0 <= f < |pg.sigs| ==> c[8 * f] == if f < pg.imports then Extern(WasmToC) else Ptr(0)
    requires forall k :: 0 <= k < 7 ==> c[8 * |pg.sigs| + 8 * k] == Extern(HELPERS[k])
    ensures PlaneOk(pg, c)
  {
    assert c[8 * |pg.sigs| + 8 * 1] == Extern(HELPERS[1]);
  }
}
