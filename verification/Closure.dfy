/** Compiling a function and, depth first, every function it needs that is not compiled yet.

    The plane starts with the function table: eight bytes per function, null until the function is
    compiled; an import's entry is never null.  Seven helper pointers follow. */
module Closure {
  import opened Wasm
  import opened X86
  import opened Layout
  import opened Fixups
  import opened Emitter
  import opened Bytecode
  import opened Emission

  function TableEnd(pg: Program): nat { 8 * |pg.sigs| + 56 }

  /** Up to the next multiple of 4096; the subtraction wraps in 64 bits, of which 4096 is a divisor. */
  function PageUp(x: nat): (r: nat)
    ensures x <= r < x + 4096 && r % 4096 == 0
  {
    x + (4096 - x) % 4096
  }

  function GlobalsStart(pg: Program): nat { PageUp(TableEnd(pg)) }

  function CodeStart(pg: Program, cglbls: nat): nat { PageUp(GlobalsStart(pg) + 8 * cglbls) }

  /** The pointers between the function table and the globals. */
  const HELPERS: seq<Helper> := [CallIndirectShim, BranchTable, U64ToF32, U64ToF64, GrowMemoryOp, F32ToU64Trunc, F64ToU64Trunc]

  predicate IsNull(code: seq<Cell>, f: nat) { 8 * f < |code| && code[8 * f] == Ptr(0) }

  predicate PlaneOk(pg: Program, code: seq<Cell>) {
    && TableEnd(pg) <= |code|
    && code[8 * |pg.sigs| + 8] == Extern(BranchTable)
    && (forall f :: 0 <= f < |pg.sigs| && f < pg.imports ==> code[8 * f] == Extern(WasmToC))
    && (forall f :: 0 <= f < |pg.sigs| && f >= pg.imports ==> code[8 * f].Ptr?)
  }

  lemma PlaneSize(pg: Program, code: seq<Cell>)
    requires PlaneOk(pg, code)
    ensures TableEnd(pg) <= |code|
  {
  }

  /** The functions not compiled yet. */
  function Nulls(pg: Program, code: seq<Cell>): set<nat> {
    set f: nat | f < |pg.sigs| && IsNull(code, f)
  }

  /** A compilation step: code is only appended, except that null table entries may be filled in. */
  predicate Extends(pg: Program, code: seq<Cell>, code': seq<Cell>) {
    && |code| <= |code'| && TableEnd(pg) <= |code|
    && code'[TableEnd(pg)..|code|] == code[TableEnd(pg)..]
    && (forall i :: 0 <= i < TableEnd(pg) && !(i % 8 == 0 && i < 8 * |pg.sigs| && code[i] == Ptr(0)) ==> code'[i] == code[i])
    && (forall f :: 0 <= f < |pg.sigs| && IsNull(code, f) ==> code'[8 * f].Ptr?)
  }

  lemma ExtendsTrans(pg: Program, a: seq<Cell>, b: seq<Cell>, c: seq<Cell>)
    requires Extends(pg, a, b) && Extends(pg, b, c)
    ensures Extends(pg, a, c)
  {
    assert c[TableEnd(pg)..|a|] == c[TableEnd(pg)..|b|][..|a| - TableEnd(pg)];
    assert b[TableEnd(pg)..|a|] == b[TableEnd(pg)..][..|a| - TableEnd(pg)];
  }

  lemma ExtendsKeepsOk(pg: Program, a: seq<Cell>, b: seq<Cell>)
    requires PlaneOk(pg, a) && Extends(pg, a, b)
    ensures PlaneOk(pg, b) && Nulls(pg, b) <= Nulls(pg, a)
  {
  }

  /** The code of function f, its table entry set, and the functions it calls. */
  function EmitFn(pg: Program, code: seq<Cell>, f: nat): Option<Em>
    requires f < |pg.sigs| && IsNull(code, f)
  {
    if f < pg.imports || f >= pg.imports + |pg.codes| then None
    else
      var env := EnvOf(pg, f);
      match EmitBytes(env, StartFn(env, pg.sigs[f].cparams, code[8 * f := Ptr(|code|)]), pg.codes[f - pg.imports].bytes)
      case None => None
      case Some(em) => Some(em.(code := em.code + Cells(J(Ret))))
  }

  lemma EmitFnExtends(pg: Program, code: seq<Cell>, f: nat)
    requires PlaneOk(pg, code) && f < |pg.sigs| && IsNull(code, f) && EmitFn(pg, code, f).Some?
    ensures Extends(pg, code, EmitFn(pg, code, f).value.code)
    ensures EmitFn(pg, code, f).value.code[8 * f] == Ptr(|code|)
  {
    hide EmitBytes, Prologue;
    var env := EnvOf(pg, f);
    var em0 := StartFn(env, pg.sigs[f].cparams, code[8 * f := Ptr(|code|)]);
    BytesContinue(env, em0, pg.codes[f - pg.imports].bytes, |code|);
    var code' := EmitFn(pg, code, f).value.code;
    assert code'[..|code|] == code[8 * f := Ptr(|code|)];
    TableOnly(pg, code, f, code');
  }

  lemma TableOnly(pg: Program, code: seq<Cell>, f: nat, code': seq<Cell>)
    requires TableEnd(pg) <= |code| <= |code'| && f < |pg.sigs| && IsNull(code, f)
    requires code'[..|code|] == code[8 * f := Ptr(|code|)]
    ensures Extends(pg, code, code') && code'[8 * f] == Ptr(|code|)
  {
    assert forall i :: 0 <= i < |code| ==> code'[i] == code'[..|code|][i];
  }

  lemma FnProgress(pg: Program, code: seq<Cell>, f: nat)
    requires PlaneOk(pg, code) && f < |pg.sigs| && IsNull(code, f) && EmitFn(pg, code, f).Some?
    ensures var code' := EmitFn(pg, code, f).value.code;
      PlaneOk(pg, code') && Extends(pg, code, code') && Nulls(pg, code') < Nulls(pg, code)
  {
    hide EmitFn, PlaneOk, Extends;
    var code' := EmitFn(pg, code, f).value.code;
    EmitFnExtends(pg, code, f);
    ExtendsKeepsOk(pg, code, code');
    assert f in Nulls(pg, code) && f !in Nulls(pg, code');
  }

  /** CompileFn on values: emit the function, then compile the callees that are still null, in order.
      Null entries only ever become fewer, which is why this ends. */
  function Compile(pg: Program, code: seq<Cell>, f: nat): (r: Option<seq<Cell>>)
    requires PlaneOk(pg, code) && f < |pg.sigs| && IsNull(code, f)
    ensures r.Some? ==> PlaneOk(pg, r.value) && Nulls(pg, r.value) < Nulls(pg, code)
    decreases Nulls(pg, code), 0
  {
    hide EmitFn, PlaneOk, Extends, Nulls, IsNull;
    match EmitFn(pg, code, f)
    case None => None
    case Some(em) => FnProgress(pg, code, f); CompileCalls(pg, em.code, em.calls)
  }

  function CompileCalls(pg: Program, code: seq<Cell>, calls: seq<nat>): (r: Option<seq<Cell>>)
    requires PlaneOk(pg, code)
    ensures r.Some? ==> PlaneOk(pg, r.value) && Nulls(pg, r.value) <= Nulls(pg, code)
    decreases Nulls(pg, code), 1, |calls|
  {
    hide PlaneOk, Extends, Nulls, IsNull;
    if |calls| == 0 then Some(code)
    else if calls[0] < |pg.sigs| && IsNull(code, calls[0]) then
      match Compile(pg, code, calls[0])
      case None => None
      case Some(code') => CompileCalls(pg, code', calls[1..])
    else CompileCalls(pg, code, calls[1..])
  }

  // ---------- what compilation changes, on any bytecode ----------

  lemma {:induction false} CompileExtends(pg: Program, code: seq<Cell>, f: nat)
    requires PlaneOk(pg, code) && f < |pg.sigs| && IsNull(code, f) && Compile(pg, code, f).Some?
    ensures Extends(pg, code, Compile(pg, code, f).value) && !IsNull(Compile(pg, code, f).value, f)
    decreases Nulls(pg, code), 0
  {
    hide EmitFn, PlaneOk, Extends, Nulls;
    var em := EmitFn(pg, code, f).value;
    FnProgress(pg, code, f);
    CallsExtend(pg, em.code, em.calls);
    ExtendsTrans(pg, code, em.code, Compile(pg, code, f).value);
    EmitFnExtends(pg, code, f);
    NonNullStays(pg, em.code, Compile(pg, code, f).value, f);
  }

  lemma NonNullStays(pg: Program, a: seq<Cell>, b: seq<Cell>, f: nat)
    requires PlaneOk(pg, a) && Extends(pg, a, b) && f < |pg.sigs| && !IsNull(a, f)
    ensures !IsNull(b, f) && b[8 * f] == a[8 * f]
  {
  }

  lemma {:induction false} CallsExtend(pg: Program, code: seq<Cell>, calls: seq<nat>)
    requires PlaneOk(pg, code) && CompileCalls(pg, code, calls).Some?
    ensures Extends(pg, code, CompileCalls(pg, code, calls).value)
    decreases Nulls(pg, code), 1, |calls|
  {
    hide PlaneOk, Extends, Nulls, IsNull, Compile;
    if |calls| == 0 {
      ExtendsRefl(pg, code);
    } else if calls[0] < |pg.sigs| && IsNull(code, calls[0]) {
      var code1 := Compile(pg, code, calls[0]).value;
      CompileExtends(pg, code, calls[0]);
      CallsExtend(pg, code1, calls[1..]);
      ExtendsTrans(pg, code, code1, CompileCalls(pg, code, calls).value);
    } else {
      CallsExtend(pg, code, calls[1..]);
    }
  }

  lemma ExtendsRefl(pg: Program, code: seq<Cell>)
    requires PlaneOk(pg, code)
    ensures Extends(pg, code, code)
  {
  }

  function CallsIn(ops: seq<Opcode>): (r: seq<nat>) {
    if |ops| == 0 then [] else (if ops[0].OpAtom? then CallsOf(ops[0].atom) else []) + CallsIn(ops[1..])
  }

  /** The functions that function f's bytecode calls directly. */
  function Callees(pg: Program, f: nat): seq<nat> {
    if pg.imports <= f < pg.imports + |pg.codes| && DecodeAll(pg.codes[f - pg.imports].bytes).Some?
    then CallsIn(DecodeAll(pg.codes[f - pg.imports].bytes).value) else []
  }

  lemma OpCalls(env: Env, em: Em, op: Opcode)
    requires EmitOp(env, em, op).Some?
    ensures EmitOp(env, em, op).value.calls == em.calls + if op.OpAtom? then CallsOf(op.atom) else []
    ensures op.OpAtom? && op.atom.Call? ==> op.atom.fn < |env.sigs|
  {
    hide GenAtom, AtomSize, AfterAtom, PatchAll, Close, Enter, Asm, JumpCode, JzCode, Dbg, AtomByte;
    assert em.calls + [] == em.calls;
  }

  lemma {:induction false} AllCalls(env: Env, em: Em, ops: seq<Opcode>)
    requires EmitAll(env, em, ops).Some?
    ensures EmitAll(env, em, ops).value.calls == em.calls + CallsIn(ops)
    ensures forall i :: 0 <= i < |CallsIn(ops)| ==> CallsIn(ops)[i] < |env.sigs|
    decreases |ops|
  {
    hide EmitOp;
    if |ops| == 0 {
      assert em.calls + [] == em.calls;
    } else {
      var em1 := EmitOp(env, em, ops[0]).value;
      OpCalls(env, em, ops[0]);
      AllCalls(env, em1, ops[1..]);
      Assoc(em.calls, if ops[0].OpAtom? then CallsOf(ops[0].atom) else [], CallsIn(ops[1..]));
    }
  }

  lemma EmitFnCalls(pg: Program, code: seq<Cell>, f: nat)
    requires f < |pg.sigs| && IsNull(code, f) && EmitFn(pg, code, f).Some?
    ensures EmitFn(pg, code, f).value.calls == Callees(pg, f)
    ensures forall i :: 0 <= i < |Callees(pg, f)| ==> Callees(pg, f)[i] < |pg.sigs|
  {
    hide EmitBytes, EmitAll, DecodeAll, Prologue, CallsIn;
    var env := EnvOf(pg, f);
    var em0 := StartFn(env, pg.sigs[f].cparams, code[8 * f := Ptr(|code|)]);
    EmitBytesDecodes(env, em0, pg.codes[f - pg.imports].bytes);
    AllCalls(env, em0, DecodeAll(pg.codes[f - pg.imports].bytes).value);
    assert [] + Callees(pg, f) == Callees(pg, f);
  }

  predicate NewlyCompiled(pg: Program, code: seq<Cell>, code': seq<Cell>, g: nat) {
    g < |pg.sigs| && IsNull(code, g) && !IsNull(code', g)
  }

  predicate NoneNull(pg: Program, code: seq<Cell>, fs: seq<nat>) {
    forall i :: 0 <= i < |fs| ==> fs[i] < |pg.sigs| && !IsNull(code, fs[i])
  }

  /** Everything compiled on the way from `code` to code' has all its direct callees compiled. */
  ghost predicate CalleesDone(pg: Program, code: seq<Cell>, code': seq<Cell>) {
    forall g: nat :: NewlyCompiled(pg, code, code', g) ==> NoneNull(pg, code', Callees(pg, g))
  }

  lemma DoneTrans(pg: Program, a: seq<Cell>, b: seq<Cell>, c: seq<Cell>)
    requires PlaneOk(pg, a) && PlaneOk(pg, b) && Extends(pg, a, b) && Extends(pg, b, c)
    requires CalleesDone(pg, a, b) && CalleesDone(pg, b, c)
    ensures CalleesDone(pg, a, c)
  {
    hide PlaneOk, Extends, IsNull, Callees;
    forall g: nat | NewlyCompiled(pg, a, c, g) ensures NoneNull(pg, c, Callees(pg, g)) {
      if !IsNull(b, g) { NoneNullStays(pg, b, c, Callees(pg, g)); }
    }
  }

  lemma NoneNullStays(pg: Program, a: seq<Cell>, b: seq<Cell>, fs: seq<nat>)
    requires PlaneOk(pg, a) && Extends(pg, a, b) && NoneNull(pg, a, fs)
    ensures NoneNull(pg, b, fs)
  {
    hide PlaneOk, Extends, IsNull;
    forall i | 0 <= i < |fs| ensures !IsNull(b, fs[i]) { NonNullStays(pg, a, b, fs[i]); }
  }

  /** A successful compilation leaves no call from a newly compiled function to a null entry. */
  lemma {:induction false} CompileCloses(pg: Program, code: seq<Cell>, f: nat)
    requires PlaneOk(pg, code) && f < |pg.sigs| && IsNull(code, f) && Compile(pg, code, f).Some?
    ensures CalleesDone(pg, code, Compile(pg, code, f).value)
    decreases Nulls(pg, code), 0
  {
    hide EmitFn, PlaneOk, Extends, Nulls, IsNull, Callees, NoneNull;
    var em, code' := EmitFn(pg, code, f).value, Compile(pg, code, f).value;
    FnProgress(pg, code, f);
    EmitFnCalls(pg, code, f);
    CallsClose(pg, em.code, em.calls);
    forall g: nat | NewlyCompiled(pg, code, code', g) ensures NoneNull(pg, code', Callees(pg, g)) {
      if g != f { OnlyOne(pg, code, f, g); }
    }
  }

  lemma OnlyOne(pg: Program, code: seq<Cell>, f: nat, g: nat)
    requires PlaneOk(pg, code) && f < |pg.sigs| && g < |pg.sigs| && f != g && IsNull(code, f) && EmitFn(pg, code, f).Some?
    ensures IsNull(EmitFn(pg, code, f).value.code, g) <==> IsNull(code, g)
  {
    hide EmitBytes, Prologue;
    var env := EnvOf(pg, f);
    var em0 := StartFn(env, pg.sigs[f].cparams, code[8 * f := Ptr(|code|)]);
    BytesContinue(env, em0, pg.codes[f - pg.imports].bytes, |code|);
    var code' := EmitFn(pg, code, f).value.code;
    assert code'[..|code|] == code[8 * f := Ptr(|code|)];
    assert code'[8 * g] == code'[..|code|][8 * g];
  }

  lemma {:induction false} CallsClose(pg: Program, code: seq<Cell>, calls: seq<nat>)
    requires PlaneOk(pg, code) && CompileCalls(pg, code, calls).Some?
    requires forall i :: 0 <= i < |calls| ==> calls[i] < |pg.sigs|
    ensures CalleesDone(pg, code, CompileCalls(pg, code, calls).value)
    ensures NoneNull(pg, CompileCalls(pg, code, calls).value, calls)
    decreases Nulls(pg, code), 1, |calls|
  {
    hide PlaneOk, Extends, Nulls, IsNull, Compile, Callees;
    if |calls| > 0 {
      var code1, code' := code, CompileCalls(pg, code, calls).value;
      if IsNull(code, calls[0]) {
        code1 := Compile(pg, code, calls[0]).value;
        CompileExtends(pg, code, calls[0]);
        CompileCloses(pg, code, calls[0]);
      } else {
        ExtendsRefl(pg, code);
      }
      CallsClose(pg, code1, calls[1..]);
      CallsExtend(pg, code1, calls[1..]);
      NonNullStays(pg, code1, code', calls[0]);
      DoneTrans(pg, code, code1, code');
    }
  }

  ghost predicate ClosedUnderCalls(pg: Program, s: set<nat>) {
    forall g :: g in s ==> forall i :: 0 <= i < |Callees(pg, g)| ==> Callees(pg, g)[i] in s
  }

  /** Only functions reachable from f by direct calls are compiled, none of them an import. */
  lemma {:induction false} CompileReaches(pg: Program, code: seq<Cell>, f: nat, s: set<nat>)
    requires PlaneOk(pg, code) && f < |pg.sigs| && IsNull(code, f) && Compile(pg, code, f).Some?
    requires f in s && ClosedUnderCalls(pg, s)
    ensures forall g: nat :: NewlyCompiled(pg, code, Compile(pg, code, f).value, g) ==> g in s && g >= pg.imports
    decreases Nulls(pg, code), 0
  {
    hide EmitFn, PlaneOk, Extends, Nulls, IsNull, Callees;
    var em, code' := EmitFn(pg, code, f).value, Compile(pg, code, f).value;
    FnProgress(pg, code, f);
    EmitFnCalls(pg, code, f);
    CallsReach(pg, em.code, em.calls, s);
    forall g: nat | NewlyCompiled(pg, code, code', g) ensures g in s && g >= pg.imports {
      ImportsNotNull(pg, code, g);
      if g != f { OnlyOne(pg, code, f, g); }
    }
  }

  lemma ImportsNotNull(pg: Program, code: seq<Cell>, g: nat)
    requires PlaneOk(pg, code) && g < |pg.sigs| && IsNull(code, g)
    ensures g >= pg.imports
  {
  }

  lemma {:induction false} CallsReach(pg: Program, code: seq<Cell>, calls: seq<nat>, s: set<nat>)
    requires PlaneOk(pg, code) && CompileCalls(pg, code, calls).Some?
    requires ClosedUnderCalls(pg, s) && forall i :: 0 <= i < |calls| ==> calls[i] in s
    ensures forall g: nat :: NewlyCompiled(pg, code, CompileCalls(pg, code, calls).value, g) ==> g in s && g >= pg.imports
    decreases Nulls(pg, code), 1, |calls|
  {
    hide PlaneOk, Extends, Nulls, IsNull, Compile, Callees, ClosedUnderCalls;
    if |calls| > 0 {
      var code' := CompileCalls(pg, code, calls).value;
      if calls[0] < |pg.sigs| && IsNull(code, calls[0]) {
        var code1 := Compile(pg, code, calls[0]).value;
        CompileReaches(pg, code, calls[0], s);
        CallsReach(pg, code1, calls[1..], s);
        forall g: nat | NewlyCompiled(pg, code, code', g) ensures g in s && g >= pg.imports {
          assert NewlyCompiled(pg, code, code1, g) || NewlyCompiled(pg, code1, code', g);
        }
      } else {
        CallsReach(pg, code, calls[1..], s);
      }
    }
  }
}
