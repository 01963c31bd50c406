/** The emitter as an object: an executable plane, a cursor, and the methods that write code at it. */
module JitWriter {
  import opened Words
  import opened Wasm
  import opened X86
  import opened Codegen
  import opened Layout
  import opened Fixups
  import opened Emitter
  import opened Bytecode
  import opened Emission
  import opened Closure
  import opened JitSpec

  /** With planes no larger than this every rel32 fits. */
  const MAX_PLANE: nat := 0x7FFF_FFF0

  predicate FitsInt32(d: int) { -0x8000_0000 <= d < 0x8000_0000 }

  class JitWriter {
    const pctxt: Program
    const plane: array<Cell>
    var cur: nat

    /** Lays out the plane: function table, helper pointers, globals on a page of their own, and the
        code from the next page on.  The header has to fit, which the original does not check. */
    constructor (pctxt: Program, rgexec: array<Cell>, glbls: seq<Word>)
      requires pctxt.imports <= |pctxt.sigs| && CodeStart(pctxt, |glbls|) <= rgexec.Length <= MAX_PLANE
      modifies rgexec
      ensures this.pctxt == pctxt && plane == rgexec && Valid()
      ensures cur == CodeStart(pctxt, |glbls|) && cur % 4096 == 0
      ensures forall f :: 0 <= f < |pctxt.sigs| ==> Code()[8 * f] == if f < pctxt.imports then Extern(WasmToC) else Ptr(0)
      ensures forall k :: 0 <= k < 7 ==> Code()[8 * |pctxt.sigs| + 8 * k] == Extern(HELPERS[k])
      ensures forall i :: 0 <= i < |glbls| ==> Code()[GlobalsStart(pctxt) + 8 * i] == Qword(glbls[i])
      ensures plane[cur..] == old(rgexec[..])[cur..]
      ensures PlaneOk(pctxt, Code())
    {
      this.pctxt := pctxt;
      plane := rgexec;
      cur := CodeStart(pctxt, |glbls|);
      new;
      ClearHeader();
      ghost var cleared := plane[..];
      FillImports();
      ghost var imported := plane[..];
      TailKept(cleared, imported, 8 * |pctxt.sigs|, cur);
      FillHelpers();
      ghost var helped := plane[..];
      TailKept(imported, helped, TableEnd(pctxt), cur);
      FillGlobals(GlobalsStart(pctxt), glbls);
      HeaderDone(pctxt, imported, helped, plane[..], GlobalsStart(pctxt));
      assert forall i :: 0 <= i < cur ==> Code()[i] == plane[..][i];
      HeaderIsPlane(pctxt, Code());
    }

    method ClearHeader()
      requires Valid() && TableEnd(pctxt) <= cur
      modifies plane
      ensures forall f :: 0 <= f < |pctxt.sigs| ==> plane[8 * f] == Ptr(0)
      ensures plane[cur..] == old(plane[cur..])
    {
      for i := 0 to cur
        invariant plane[cur..] == old(plane[cur..])
        invariant forall f :: 0 <= f < |pctxt.sigs| && 8 * f < i ==> plane[8 * f] == Ptr(0)
      {
        plane[i] := if i % 8 != 0 then Tail else if i < 8 * |pctxt.sigs| then Ptr(0) else Qword(0);
      }
    }

    method FillImports()
      requires Valid() && TableEnd(pctxt) <= cur && pctxt.imports <= |pctxt.sigs|
      modifies plane
      ensures forall f :: 0 <= f < |pctxt.sigs| ==> plane[8 * f] == if f < pctxt.imports then Extern(WasmToC) else old(plane[8 * f])
      ensures plane[8 * |pctxt.sigs|..] == old(plane[8 * |pctxt.sigs|..])
    {
      for iimportfn := 0 to pctxt.imports
        invariant plane[8 * |pctxt.sigs|..] == old(plane[8 * |pctxt.sigs|..])
        invariant forall f :: 0 <= f < |pctxt.sigs| ==> plane[8 * f] == if f < iimportfn then Extern(WasmToC) else old(plane[8 * f])
      {
        plane[8 * iimportfn] := Extern(WasmToC);
      }
    }

    method FillHelpers()
      requires Valid() && TableEnd(pctxt) <= cur
      modifies plane
      ensures forall k :: 0 <= k < 7 ==> plane[8 * |pctxt.sigs| + 8 * k] == Extern(HELPERS[k])
      ensures plane[..8 * |pctxt.sigs|] == old(plane[..8 * |pctxt.sigs|])
      ensures plane[TableEnd(pctxt)..] == old(plane[TableEnd(pctxt)..])
    {
      var at := 8 * |pctxt.sigs|;
      for k := 0 to 7
        invariant plane[..at] == old(plane[..at]) && plane[at + 56..] == old(plane[at + 56..])
        invariant forall j :: 0 <= j < k ==> plane[at + 8 * j] == Extern(HELPERS[j])
      {
        plane[at + 8 * k] := Extern(HELPERS[k]);
      }
    }

    method FillGlobals(start: nat, glbls: seq<Word>)
      requires Valid() && start + 8 * |glbls| <= cur
      modifies plane
      ensures forall i :: 0 <= i < |glbls| ==> plane[start + 8 * i] == Qword(glbls[i])
      ensures plane[..start] == old(plane[..start]) && plane[cur..] == old(plane[cur..])
    {
      for iglbl := 0 to |glbls|
        invariant plane[..start] == old(plane[..start]) && plane[cur..] == old(plane[cur..])
        invariant forall j :: 0 <= j < iglbl ==> plane[start + 8 * j] == Qword(glbls[j])
      {
        plane[start + 8 * iglbl] := Qword(glbls[iglbl]);
      }
    }

    ghost predicate Valid()
      reads this
    {
      cur <= plane.Length <= MAX_PLANE
    }

    /** Everything written so far. */
    ghost function Code(): (r: seq<Cell>)
      requires Valid()
      reads this, plane
      ensures |r| == cur
    {
      plane[..cur]
    }

    /** Nothing below lo has changed. */
    twostate predicate Kept(lo: nat)
      requires lo <= plane.Length
      reads this, plane
    {
      lo <= cur && plane[..lo] == old(plane[..lo])
    }

    /** A method has appended s; or it has failed, which it does exactly when s does not fit.  Either way
        what was there before is still there. */
    twostate predicate Appended(ok: bool, s: seq<Cell>)
      requires old(Valid())
      reads this, plane
    {
      && Valid() && Kept(old(cur))
      && (ok <==> old(cur) + |s| <= plane.Length)
      && (ok ==> Code() == old(Code()) + s)
    }

    method SafePushCode(code: seq<Cell>) returns (ok: bool)
      requires Valid()
      modifies this`cur, plane
      ensures Appended(ok, code)
    {
      if cur + |code| > plane.Length { return false; }
      var i := 0;
      while i < |code|
        modifies plane
        invariant i <= |code| && plane[..cur] == old(plane[..cur]) && plane[cur..cur + i] == code[..i]
      {
        plane[cur + i] := code[i];
        i := i + 1;
      }
      assert plane[..cur + i] == plane[..cur] + plane[cur..cur + i];
      cur := cur + i;
      return true;
    }

    /** Writes s1 and then s2. */
    method Push2(s1: seq<Cell>, s2: seq<Cell>) returns (ok: bool)
      requires Valid()
      modifies this`cur, plane
      ensures Appended(ok, s1 + s2)
    {
      ok := SafePushCode(s1);
      if !ok { return; }
      ok := SafePushCode(s2);
      if ok { Assoc(old(Code()), s1, s2); }
    }

    method PushExpandStack() returns (ok: bool)
      requires Valid()
      modifies this`cur, plane
      ensures Appended(ok, Asm(PushExpand()))
    {
      ok := SafePushCode(Asm(PushExpand()));
    }

    method PopContractStack() returns (ok: bool)
      requires Valid()
      modifies this`cur, plane
      ensures Appended(ok, Asm(PopContract()))
    {
      ok := SafePushCode(Asm(PopContract()));
    }

    method SetDbgReg(opcode: nat) returns (ok: bool)
      requires Valid()
      modifies this`cur, plane
      ensures Appended(ok, Dbg(opcode))
    {
      ok := SafePushCode(Cells(R(MovR12(opcode))));
    }

    method EnterBlock() returns (ok: bool)
      requires Valid()
      modifies this`cur, plane
      ensures Appended(ok, Enter())
    {
      AsmAppend(PushExpand(), [P(PushRdi)]);
      ok := PushExpandStack();
      if !ok { return; }
      ok := SafePushCode(Asm([P(PushRdi)]));
      if ok { Assoc(old(Code()), Asm(PushExpand()), Asm([P(PushRdi)])); }
    }

    method LeaveBlock(hasReturn: bool) returns (ok: bool)
      requires Valid()
      modifies this`cur, plane
      ensures Appended(ok, Asm(Codegen.LeaveBlock(hasReturn)))
    {
      AsmAppend([P(PopRdi)], if hasReturn then [] else PopContract());
      ok := SafePushCode(Asm([P(PopRdi)]));
      if !ok { return; }
      if !hasReturn {
        ok := PopContractStack();
        if ok { Assoc(old(Code()), Asm([P(PopRdi)]), Asm(PopContract())); }
      }
    }

    /** Leaves the `depth` innermost blocks, then the one branched to. */
    method LeaveBlocks(depth: nat, keep: bool) returns (ok: bool)
      requires Valid()
      modifies this`cur, plane
      ensures Appended(ok, Asm(LeaveCode(depth, keep)))
    {
      hide Asm, LeaveCode, Codegen.LeaveBlock;
      ghost var all := old(Code()) + Asm(LeaveCode(depth, keep));
      var idepth := 0;
      while idepth < depth
        invariant idepth <= depth && Valid() && Kept(old(cur))
        invariant Code() + Asm(LeaveCode(depth - idepth, keep)) == all
      {
        LeaveCodeStep(Code(), depth - idepth, keep);
        ok := LeaveBlock(true);
        if !ok { return; }
        idepth := idepth + 1;
      }
      LeaveCodeLast(keep);
      ok := LeaveBlock(keep);
    }

    /** Writes a rel32 jump and returns the address of its displacement. */
    method Jump(target: Option<nat>) returns (ok: bool, field: nat)
      requires Valid() && (target.Some? ==> target.value <= cur)
      modifies this`cur, plane
      ensures Appended(ok, JumpCode(old(cur), target))
      ensures ok ==> field == old(cur) + 1
    {
      var offset: int := -5;
      if target.Some? { offset := target.value - (cur + 5); }
      if !FitsInt32(offset) { return false, 0; }
      ok := SafePushCode(Cells(J(Jmp)));
      field := cur;
      if !ok { return; }
      ok := SafePushCode(Field(offset));
      if ok { Assoc(old(Code()), Cells(J(Jmp)), Field(offset)); }
    }

    /** Pops the condition, jumps if it is zero (to where is not known yet), and enters the block. */
    method EnterIf() returns (ok: bool, field: nat)
      requires Valid()
      modifies this`cur, plane
      ensures Appended(ok, Asm(IfTest()) + JzCode(0) + Enter())
      ensures ok ==> field == old(cur) + |Asm(IfTest())| + 2
    {
      hide Asm, Enter, IfTest;
      field := 0;
      ok := SafePushCode(Asm(IfTest()));
      if !ok { return; }
      ok := SafePushCode(Cells(J(Jz)));
      field := cur;
      if !ok { return; }
      ok := SafePushCode(Field(0));
      if !ok { return; }
      ok := EnterBlock();
      if ok { Assoc5(old(Code()), Asm(IfTest()), Cells(J(Jz)), Field(0), Enter()); }
    }

    /** Pops the condition and jumps over what follows if it is zero; the distance is patched in later. */
    method JumpNIf() returns (ok: bool, field: nat)
      requires Valid()
      modifies this`cur, plane
      ensures Appended(ok, Asm(BrIfTest()) + JzCode(-6))
      ensures ok ==> field == old(cur) + |Asm(BrIfTest())| + 2
    {
      hide Asm, PopContract, Cells, Field;
      AsmAppend([A(TestRax)], PopContract());
      field := 0;
      ok := SafePushCode(Asm([A(TestRax)]));
      if !ok { return; }
      ok := PopContractStack();
      if !ok { return; }
      ok := SafePushCode(Cells(J(Jz)));
      field := cur;
      if !ok { return; }
      ok := SafePushCode(Field(-6));
      if ok { Assoc5(old(Code()), Asm([A(TestRax)]), Asm(PopContract()), Cells(J(Jz)), Field(-6)); }
    }

    /** Points the field at address a to t. */
    method PatchField(kind: Kind, a: nat, t: nat)
      requires Valid() && a < cur && t <= cur
      modifies plane
      ensures Code() == Patch(kind, 0, old(Code()), a, t) && plane[..a] == old(plane[..a])
    {
      assert kind.Relative? ==> FitsInt32(t - (a + 4));
      plane[a] := Patched(kind, a, t);
    }

    /** Points every field in the list to the cursor. */
    method PatchFields(kind: Kind, fields: seq<nat>, ghost lo: nat)
      requires Valid() && lo <= cur && Within(fields, lo, cur)
      modifies plane
      ensures Code() == PatchAll(kind, 0, old(Code()), fields, cur) && Kept(lo)
    {
      hide Patch;
      var i := 0;
      assert fields[0..] == fields;
      while i < |fields|
        modifies plane
        invariant i <= |fields| && Kept(lo)
        invariant PatchAll(kind, 0, Code(), fields[i..], cur) == PatchAll(kind, 0, old(Code()), fields, cur)
      {
        assert fields[i..][1..] == fields[i + 1..];
        ghost var was := plane[..fields[i]];
        PatchField(kind, fields[i], cur);
        assert plane[..lo] == plane[..fields[i]][..lo] == was[..lo];
        i := i + 1;
      }
    }

    /** Pops the n topmost operands into the first locals of the new frame, the last one first. */
    method PopArguments(n: nat) returns (ok: bool)
      requires Valid()
      modifies this`cur, plane
      ensures Appended(ok, Asm(SetArgs(n)))
    {
      hide Asm, SetArgs, PopContract;
      ghost var all := old(Code()) + Asm(SetArgs(n));
      var cargs := n;
      while cargs > 0
        invariant 0 <= cargs <= n && Valid() && Kept(old(cur))
        invariant Code() + Asm(SetArgs(cargs)) == all
      {
        SetArgsStep(Code(), cargs);
        ok := Push2(Asm([M(StoreLocal(cargs - 1))]), Asm(PopContract()));
        if !ok { return; }
        cargs := cargs - 1;
      }
      SetArgsLast();
      assert Code() + [] == Code();
      return true;
    }

    /** Locals for the callee, its arguments, and the caller's operand stack saved. */
    method PrepareCall(env: Env, f: nat) returns (ok: bool)
      requires Valid() && f < |env.sigs|
      modifies this`cur, plane
      ensures Appended(ok, Asm(CallSetup(env, f)))
    {
      hide Asm, CallSetup, SetArgs, Codegen.EnterBlock, PopContract, Enter;
      CallSetupParts(env, f);
      ok := SafePushCode(Asm([P(AddRbx(env.clocals))]));
      if !ok { return; }
      ok := PopArguments(env.sigs[f].cparams);
      if !ok { return; }
      ok := EnterBlock();
      if !ok { return; }
      if f < env.imports {
        ok := SafePushCode(Asm([R(MovEcxImm(f))]));
        if !ok { return; }
      }
      Assoc5(old(Code()), Asm([P(AddRbx(env.clocals))]), Asm(SetArgs(env.sigs[f].cparams)), Enter(),
             if f < env.imports then Asm([R(MovEcxImm(f))]) else []);
    }

    method CleanUpCall(env: Env, f: nat) returns (ok: bool)
      requires Valid() && f < |env.sigs|
      modifies this`cur, plane
      ensures Appended(ok, Asm(CallCleanup(env, f)))
    {
      hide Asm, CallCleanup, PopContract;
      CallCleanupParts(env, f);
      ok := SafePushCode(Asm([P(PopRdi), P(SubRbx(env.clocals))]));
      if !ok { return; }
      if !env.sigs[f].hasReturn {
        ok := PopContractStack();
        if ok { Assoc(old(Code()), Asm([P(PopRdi), P(SubRbx(env.clocals))]), Asm(PopContract())); }
      }
    }

    /** A direct call through the function table. */
    method CallIfn(env: Env, f: nat) returns (ok: bool)
      requires Valid() && f < |env.sigs| && 8 * |env.sigs| <= cur
      modifies this`cur, plane
      ensures var s1, s2 := CallSetup(env, f), CallCleanup(env, f);
        Appended(ok, Asm(s1) + Cells(J(CallTable(8 * f - (old(cur) + |Asm(s1)| + 6)))) + Asm(s2))
    {
      hide Asm, CallSetup, CallCleanup;
      ok := PrepareCall(env, f);
      if !ok { return; }
      var offset: int := 8 * f - (cur + 6);
      if !FitsInt32(offset) { return false; }
      ghost var call := Cells(J(CallTable(offset)));
      ghost var q := cur;
      ok := SafePushCode(Cells(J(CallTable(offset))));
      assert plane[..old(cur)] == plane[..q][..old(cur)];
      if !ok { return; }
      ok := CleanUpCall(env, f);
      if ok { Assoc5(old(Code()), [], Asm(CallSetup(env, f)), call, Asm(CallCleanup(env, f))); }
    }

    /** One branch table entry; an unknown address is left null and remembered as an absolute fixup. */
    method PushEntry(d: nat, ctls: seq<Ctl>) returns (ok: bool, ctls': seq<Ctl>)
      requires Valid() && d < |ctls|
      modifies this`cur, plane
      ensures Appended(ok, Entry(d, ctls[d].target))
      ensures ok ==> ctls' == AddAbs(ctls, d, old(cur) + 8)
    {
      ctls' := ctls;
      ok := SafePushCode([Qword(d)] + Tails(7));
      if !ok { return; }
      var address := [Ptr(if ctls[d].target.Some? then ctls[d].target.value else 0)] + Tails(7);
      ok := SafePushCode(address);
      if !ok { return; }
      if ctls[d].target.None? {
        ctls' := ctls[d := ctls[d].(abss := ctls[d].abss + [cur - 8])];
      }
      EntryIs(old(Code()), d, ctls[d].target);
    }

    method PushEntries(ts: seq<U32>, ctls: seq<Ctl>) returns (ok: bool, ctls': seq<Ctl>)
      requires Valid() && DepthsOk(ts, |ctls|)
      modifies this`cur, plane
      ensures Appended(ok, Entries(ts, TargetsOf(ctls)))
      ensures ok ==> ctls' == EntriesAdded(ctls, ts, old(cur))
    {
      hide Entries, Entry, AddAbs, EntriesAdded;
      ctls' := ctls;
      ghost var t := TargetsOf(ctls);
      ghost var all := Code() + Entries(ts, t);
      var itarget := 0;
      assert ts[0..] == ts;
      while itarget < |ts|
        invariant itarget <= |ts| && Valid() && Kept(old(cur)) && |ctls'| == |ctls| && TargetsOf(ctls') == t
        invariant Code() + Entries(ts[itarget..], t) == all
        invariant EntriesAdded(ctls', ts[itarget..], cur) == EntriesAdded(ctls, ts, old(cur))
      {
        EntriesStep(Code(), ts[itarget..], ctls', cur);
        assert ts[itarget..][1..] == ts[itarget + 1..];
        ok, ctls' := PushEntry(ts[itarget], ctls');
        if !ok { return; }
        itarget := itarget + 1;
      }
      EntriesEnd(Code(), ctls', cur);
      return true, ctls';
    }

    /** The branch table: the code that calls the helper, a header, the default, then every target. */
    method BranchTable(env: Env, ts: seq<U32>, d: U32, ctls: seq<Ctl>) returns (ok: bool, ctls': seq<Ctl>)
      requires Valid() && AtomOk(env, BrTable(ts, d), |ctls|) && 8 * |env.sigs| + 8 <= cur
      modifies this`cur, plane
      ensures var t := TargetsOf(ctls);
        Appended(ok, GenAtom(env, BrTable(ts, d), old(cur), Keeps(ctls), t, t))
      ensures ok ==> ctls' == AfterAtom(env, BrTable(ts, d), old(cur), ctls)
    {
      hide Entries, Entry, TableHead, AddAbs, EntriesAdded, AfterAtom, GenAtom, DepthsOk;
      ctls' := ctls;
      TableIs(env, ts, d, cur, ctls);
      AfterTable(env, ts, d, cur, ctls);
      var rel: int := BranchTableSlot(env) - (cur + 13);
      if !FitsInt32(rel) { return false, ctls; }
      var head := TableHead(env, cur, |ts|, ctls[d].bt != EMPTY_BLOCK);
      ok := SafePushCode(head);
      if !ok { return; }
      ok, ctls' := PushEntry(d, ctls);
      if !ok { return; }
      AddAbsTargets(ctls, d, old(cur) + 29);
      ok, ctls' := PushEntries(ts, ctls');
      if ok { Assoc4(old(Code()), head, Entry(d, ctls[d].target), Entries(ts, TargetsOf(ctls))); }
    }

    // ---------- one opcode ----------

    /** The plane and the block stack are what the emitter on values says; a failure is one of its
        failures or a lack of room. */
    ghost predicate StateIs(e: Option<Em>, ok: bool, ctls: seq<Ctl>, calls: seq<nat>)
      reads this, plane
    {
      && Valid()
      && (ok <==> e.Some? && |e.value.code| <= plane.Length)
      && (ok ==> e.value == Em(Code(), ctls, calls))
    }

    method CompileBlock(bt: BlockType, loop: bool, ctls: seq<Ctl>, ghost calls: seq<nat>, ghost lo: nat) returns (ok: bool, ctls': seq<Ctl>)
      requires Valid() && lo <= cur
      modifies this`cur, plane
      ensures StateIs(Some(EmitOpen(Em(old(Code()), ctls, calls), bt, loop)), ok, ctls', calls)
      ensures Kept(lo)
    {
      hide Enter, Dbg;
      ctls' := ctls;
      ok := SetDbgReg(if loop then LOOP else BLOCK);
      if !ok { return; }
      ctls' := [Ctl(bt, if loop then Some(cur) else None, [], [])] + ctls;
      ok := EnterBlock();
    }

    method CompileIf(bt: BlockType, ctls: seq<Ctl>, ghost calls: seq<nat>, ghost lo: nat) returns (ok: bool, ctls': seq<Ctl>)
      requires Valid() && lo <= cur
      modifies this`cur, plane
      ensures StateIs(Some(EmitIf(Em(old(Code()), ctls, calls), bt)), ok, ctls', calls)
      ensures Kept(lo)
    {
      hide Enter, Dbg, Asm, JzCode, IfTest;
      ctls' := ctls;
      ok := SetDbgReg(IF);
      if !ok { return; }
      var field: nat;
      ok, field := EnterIf();
      if !ok { return; }
      ctls' := [Ctl(bt, None, [field], [])] + ctls;
      Assoc5(old(Code()), Dbg(IF), Asm(IfTest()), JzCode(0), Enter());
    }

    /** The end of a then-arm: leaves the block and jumps to where is not known yet. */
    method LeaveThen() returns (ok: bool, field: nat)
      requires Valid()
      modifies this`cur, plane
      ensures var n := |Asm(Codegen.LeaveBlock(true))|;
        && Appended(ok, Dbg(ELSE) + Asm(Codegen.LeaveBlock(true)) + JumpCode(old(cur) + 7 + n, None))
        && (ok ==> field == old(cur) + 7 + n + 1)
    {
      hide Dbg, Asm, JumpCode, Codegen.LeaveBlock;
      field := 0;
      ok := SetDbgReg(ELSE);
      if !ok { return; }
      ghost var q := cur;
      ok := LeaveBlock(true);
      assert plane[..old(cur)] == plane[..q][..old(cur)];
      if !ok { return; }
      q := cur;
      ok, field := Jump(None);
      assert plane[..old(cur)] == plane[..q][..old(cur)];
      if ok { Assoc5(old(Code()), [], Dbg(ELSE), Asm(Codegen.LeaveBlock(true)), JumpCode(q, None)); }
    }

    method CompileElse(ctls: seq<Ctl>, ghost calls: seq<nat>, ghost lo: nat) returns (ok: bool, ctls': seq<Ctl>)
      requires Valid() && lo <= cur && FieldsIn(ctls, lo, cur)
      modifies this`cur, plane
      ensures StateIs(EmitElse(Em(old(Code()), ctls, calls)), ok, ctls', calls)
      ensures Kept(lo)
    {
      hide Enter, Dbg, Asm, JumpCode, Codegen.LeaveBlock, FieldsIn;
      ctls' := ctls;
      if |ctls| == 0 || |ctls[0].rels| == 0 { return false, ctls; }
      FirstField(ctls, lo, cur);
      var field: nat;
      ok, field := LeaveThen();
      ThenLeft(old(Code()), ctls, calls);
      assert plane[..lo] == plane[..old(cur)][..lo];
      if !ok { return; }
      var rels := ctls[0].rels + [field];
      ghost var was := plane[..rels[0]];
      PatchField(Relative, rels[0], cur);
      assert plane[..lo] == plane[..rels[0]][..lo] == was[..lo];
      ctls' := [ctls[0].(rels := rels[1..])] + ctls[1..];
      ghost var q := cur;
      ok := EnterBlock();
      assert plane[..lo] == plane[..q][..lo];
    }

    method CompileEnd(ctls: seq<Ctl>, ghost calls: seq<nat>, ghost lo: nat) returns (ok: bool, ctls': seq<Ctl>)
      requires Valid() && lo <= cur && FieldsIn(ctls, lo, cur)
      modifies this`cur, plane
      ensures StateIs(EmitEnd(Em(old(Code()), ctls, calls)), ok, ctls', calls)
      ensures Kept(lo)
    {
      hide Dbg, Asm, PatchAll, Codegen.LeaveBlock;
      ctls' := ctls;
      if |ctls| == 0 { return false, ctls; }
      var top := ctls[0];
      ok := SetDbgReg(END);
      if !ok { return; }
      if |ctls| > 1 {
        ok := LeaveBlock(top.bt != EMPTY_BLOCK);
      } else {
        if top.bt != NONE_TYPE { return false, ctls; }
        ok := LeaveBlock(true);
      }
      if !ok { return; }
      Assoc(old(Code()), Dbg(END), Asm(Codegen.LeaveBlock(Keep(top.bt))));
      PatchFields(Relative, top.rels, lo);
      PatchFields(Absolute, top.abss, lo);
      ctls' := ctls[1..];
    }

    /** Leaves the blocks and jumps; a fixup is recorded when the label's address is not known. */
    method Branch(d: U32, ctls: seq<Ctl>) returns (ok: bool, ctls': seq<Ctl>)
      requires Valid() && d < |ctls| && FieldsIn(ctls, 0, cur)
      modifies this`cur, plane
      ensures var n := LeaveSize(d, Keeps(ctls)[d]);
        && Appended(ok, Asm(LeaveCode(d, Keeps(ctls)[d])) + JumpCode(old(cur) + n, TargetsOf(ctls)[d]))
        && (ok ==> ctls' == AddRel(ctls, d, old(cur) + n + 1))
    {
      hide Asm, LeaveCode, JumpCode;
      ctls' := ctls;
      var keep := ctls[d].bt != EMPTY_BLOCK;
      ok := LeaveBlocks(d, keep);
      if !ok { return; }
      var field: nat;
      ghost var q := cur;
      ok, field := Jump(ctls[d].target);
      if !ok { return; }
      if ctls[d].target.None? {
        ctls' := ctls[d := ctls[d].(rels := ctls[d].rels + [field])];
      }
      Assoc(old(Code()), Asm(LeaveCode(d, keep)), JumpCode(q, ctls[d].target));
    }

    method BranchIf(d: U32, ctls: seq<Ctl>) returns (ok: bool, ctls': seq<Ctl>)
      requires Valid() && d < |ctls| && FieldsIn(ctls, 0, cur)
      modifies this`cur, plane
      ensures var n, m := LeaveSize(d, Keeps(ctls)[d]), |Asm(BrIfTest())|;
        && Appended(ok, Asm(BrIfTest()) + JzCode(n + 5) + Asm(LeaveCode(d, Keeps(ctls)[d])) + JumpCode(old(cur) + m + 6 + n, TargetsOf(ctls)[d]))
        && (ok ==> ctls' == AddRel(ctls, d, old(cur) + m + 6 + n + 1))
    {
      hide Asm, LeaveCode, JumpCode, BrIfTest, JzCode, Keeps;
      ctls' := ctls;
      var field: nat;
      ok, field := JumpNIf();
      if !ok { return; }
      FieldsGrow(ctls, 0, old(cur), cur);
      ok, ctls' := Branch(d, ctls);
      if !ok { return; }
      ghost var keep := Keeps(ctls)[d];
      ghost var n := LeaveSize(d, keep);
      ghost var leave, jump := Asm(LeaveCode(d, keep)), JumpCode(old(cur) + |Asm(BrIfTest())| + 6 + n, TargetsOf(ctls)[d]);
      assert Code() == old(Code()) + (Asm(BrIfTest()) + JzCode(-6)) + (leave + jump);
      SkipPatched(old(Code()), Asm(BrIfTest()), leave + jump);
      PatchField(Relative, field, cur);
      Assoc5(old(Code()), Asm(BrIfTest()), JzCode(n + 5), leave, jump);
    }

    /** The code of an instruction that is not structured, and the fixups it adds. */
    method AtomCode(env: Env, a: Atom, ctls: seq<Ctl>) returns (ok: bool, ctls': seq<Ctl>)
      requires Valid() && AtomOk(env, a, |ctls|) && FieldsIn(ctls, 0, cur) && 8 * |env.sigs| + 8 <= cur
      modifies this`cur, plane
      ensures Appended(ok, GenAtom(env, a, old(cur), Keeps(ctls), TargetsOf(ctls), TargetsOf(ctls)))
      ensures ok ==> ctls' == AfterAtom(env, a, old(cur), ctls)
    {
      hide Asm, LeaveCode, JumpCode, BrIfTest, JzCode, Keeps, GenAtom, AfterAtom, AddRel;
      ctls' := ctls;
      ghost var p := cur;
      match a {
        case Br(d) =>
          ok, ctls' := Branch(d, ctls);
          GenBranch(env, a, d, p, ctls);
        case BrIf(d) =>
          ok, ctls' := BranchIf(d, ctls);
          GenBranch(env, a, d, p, ctls);
        case BrTable(ts, d) =>
          ok, ctls' := BranchTable(env, ts, d, ctls);
        case Return =>
          ok := Push2(Asm([P(AddRsp(|ctls|))]), Cells(J(Ret)));
          AfterOther(env, a, p, ctls);
          GenOther(env, a, p, ctls);
        case Call(f) =>
          ok := CallIfn(env, f);
          AfterOther(env, a, p, ctls);
          GenOther(env, a, p, ctls);
        case Plain(op) =>
          ok := SafePushCode(Asm(OpCode(op)));
          AfterOther(env, a, p, ctls);
          GenOther(env, a, p, ctls);
      }
    }

    /** An instruction that is not structured. */
    method CompileAtom(env: Env, a: Atom, ctls: seq<Ctl>, calls: seq<nat>, ghost lo: nat) returns (ok: bool, ctls': seq<Ctl>, calls': seq<nat>)
      requires Valid() && lo <= cur && FieldsIn(ctls, lo, cur) && 8 * |env.sigs| + 8 <= cur
      modifies this`cur, plane
      ensures StateIs(EmitAtom(env, Em(old(Code()), ctls, calls), a), ok, ctls', calls')
      ensures Kept(lo)
    {
      hide Dbg, GenAtom, AfterAtom, AtomByte, AtomOk, FieldsIn, CallsOf;
      ctls', calls' := ctls, calls;
      if !AtomOk(env, a, |ctls|) { return false, ctls, calls; }
      ok := SetDbgReg(AtomByte(a));
      if !ok { return; }
      FieldsFrom(ctls, lo, old(cur));
      FieldsGrow(ctls, 0, old(cur), cur);
      if a.Call? { calls' := calls + [a.fn]; }
      CallsAfter(calls, a);
      ghost var q := cur;
      ok, ctls' := AtomCode(env, a, ctls);
      assert plane[..old(cur)] == plane[..q][..old(cur)];
    }

    method CompileOp(env: Env, op: Opcode, ctls: seq<Ctl>, calls: seq<nat>, ghost lo: nat) returns (ok: bool, ctls': seq<Ctl>, calls': seq<nat>)
      requires Valid() && lo <= cur && FieldsIn(ctls, lo, cur) && 8 * |env.sigs| + 8 <= cur
      modifies this`cur, plane
      ensures StateIs(EmitOp(env, Em(old(Code()), ctls, calls), op), ok, ctls', calls')
      ensures Kept(lo)
    {
      hide EmitOpen, EmitIf, EmitElse, EmitEnd, EmitAtom, FieldsIn;
      calls' := calls;
      match op {
        case OpBlock(bt) => ok, ctls' := CompileBlock(bt, false, ctls, calls, lo);
        case OpLoop(bt) => ok, ctls' := CompileBlock(bt, true, ctls, calls, lo);
        case OpIf(bt) => ok, ctls' := CompileIf(bt, ctls, calls, lo);
        case OpElse => ok, ctls' := CompileElse(ctls, calls, lo);
        case OpEnd => ok, ctls' := CompileEnd(ctls, calls, lo);
        case OpAtom(a) => ok, ctls', calls' := CompileAtom(env, a, ctls, calls, lo);
      }
    }

    // ---------- a function, and everything it needs ----------

    /** Translates a whole body, opcode by opcode.  Patches stay inside the code from lo on. */
    method CompileBody(env: Env, bytes: seq<U8>, ghost lo: nat) returns (ok: bool, ghost ctls: seq<Ctl>, calls: seq<nat>)
      requires Valid() && 8 * |env.sigs| + 8 <= cur && lo <= cur
      modifies this`cur, plane
      ensures StateIs(EmitBytes(env, Em(old(Code()), [Ctl(NONE_TYPE, None, [], [])], []), bytes), ok, ctls, calls)
      ensures Kept(lo)
    {
      hide EmitOp, DecodeOp, FieldsIn;
      var open: seq<Ctl> := [Ctl(NONE_TYPE, None, [], [])];
      ghost var result := EmitBytes(env, Em(Code(), open, []), bytes);
      var pop: nat, cb: nat := 0, |bytes|;
      calls := [];
      ctls := open;
      assert bytes[pop..pop + cb] == bytes;
      assert FieldsIn(open, lo, cur) by { StartsEmpty(lo, cur); }
      while cb > 0
        invariant Valid() && Kept(lo) && pop + cb == |bytes| && 8 * |env.sigs| + 8 <= cur
        invariant FieldsIn(open, lo, cur)
        invariant EmitBytes(env, Em(Code(), open, calls), bytes[pop..pop + cb]) == result
        decreases cb
      {
        ghost var em, rest := Em(Code(), open, calls), bytes[pop..pop + cb];
        BytesStep(env, em, rest, lo);
        var op: Option<Opcode>;
        op, pop, cb := FetchOp(bytes, pop, cb);
        if op.None? { return false, open, calls; }
        ok, open, calls := CompileOp(env, op.value, open, calls, lo);
        ctls := open;
        if !ok { return; }
        assert bytes[pop..pop + cb] == rest[DecodeOp(rest).value.1..];
      }
      ok := true;
      ctls := open;
    }

    /** Zeroes the locals that are not parameters and saves the operand stack pointer. */
    method FnPrologue(env: Env, cparams: nat) returns (ok: bool)
      requires Valid() && cparams <= env.clocals
      modifies this`cur, plane
      ensures Appended(ok, Prologue(env, cparams))
    {
      hide Enter, Cells;
      ok := true;
      if env.clocals > cparams {
        ok := SafePushCode(Cells(X(ZeroLocals(cparams, env.clocals - cparams))));
        if !ok { return; }
        ok := EnterBlock();
        if ok { Assoc(old(Code()), Cells(X(ZeroLocals(cparams, env.clocals - cparams))), Enter()); }
      } else {
        ok := EnterBlock();
        assert [] + Enter() == Enter();
      }
    }

    /** Parameters and declared locals, counted in 32 bits. */
    method CountLocals(f: nat) returns (clocals: nat)
      requires pctxt.imports <= f < |pctxt.sigs| && f < pctxt.imports + |pctxt.codes| && pctxt.sigs[f].cparams < T32
      ensures clocals == EnvOf(pctxt, f).clocals % T32
    {
      var groups := pctxt.codes[f - pctxt.imports].groups;
      clocals := pctxt.sigs[f].cparams;
      for ilocalInfo := 0 to |groups|
        invariant clocals == (pctxt.sigs[f].cparams + Total(groups[..ilocalInfo])) % T32
      {
        TotalGrows(groups, ilocalInfo + 1);
        WrapAdd(pctxt.sigs[f].cparams + Total(groups[..ilocalInfo]), groups[ilocalInfo].count);
        clocals := (clocals + groups[ilocalInfo].count) % T32;
      }
      assert groups[..|groups|] == groups;
    }

    /** A function's code was started: its entry points at where the code was then. */
    twostate predicate Begun(ifn: nat)
      requires old(Valid()) && 8 * ifn < old(cur)
      reads this, plane
    {
      old(cur) <= cur <= plane.Length && plane[..old(cur)] == old(plane[..cur])[8 * ifn := Ptr(old(cur))]
    }

    /** Compiles one function: its table entry, then its code.  On failure the entry is left pointing at
        whatever code was written. */
    method CompileOne(ifn: nat) returns (ok: bool, ghost ctls: seq<Ctl>, calls: seq<nat>)
      requires Valid() && LocalsFit(pctxt) && PlaneOk(pctxt, Code()) && ifn < |pctxt.sigs| && IsNull(Code(), ifn)
      modifies this`cur, plane
      ensures StateIs(EmitFn(pctxt, old(Code()), ifn), ok, ctls, calls)
      ensures if pctxt.imports <= ifn < pctxt.imports + |pctxt.codes| then Begun(ifn) else Code() == old(Code())
    {
      hide EmitBytes, Prologue, PlaneOk, LocalsFit, EnvOf, Cells;
      ctls, calls := [], [];
      if ifn < pctxt.imports || ifn >= pctxt.imports + |pctxt.codes| { return false, [], []; }
      PlaneSize(pctxt, Code());
      plane[8 * ifn] := Ptr(cur);
      ghost var code := Code();
      FrameFits(pctxt, ifn);
      var clocals := CountLocals(ifn);
      var env, cparams := Env(pctxt.imports, pctxt.sigs, clocals), pctxt.sigs[ifn].cparams;
      EnvIs(pctxt, ifn);
      BodyGrows(env, cparams, code, pctxt.codes[ifn - pctxt.imports].bytes);
      ok := FnPrologue(env, cparams);
      if !ok { return; }
      ghost var q := cur;
      ok, ctls, calls := CompileBody(env, pctxt.codes[ifn - pctxt.imports].bytes, old(cur));
      if !ok { return; }
      q := cur;
      ok := SafePushCode(Cells(J(Ret)));
      assert plane[..old(cur)] == plane[..q][..old(cur)];
    }

    /** Compiles a function and, depth first, every direct callee that is not compiled yet.  It fails
        exactly when the emitter on values does, or when the code does not fit in the plane.  Whether it
        fails or not, what was compiled before is as it was, and the function's entry is set, so that a
        failed compilation is not tried again but its half-written code entered. */
    method CompileFn(ifn: nat) returns (ok: bool)
      requires Valid() && LocalsFit(pctxt) && PlaneOk(pctxt, Code()) && ifn < |pctxt.sigs| && IsNull(Code(), ifn)
      modifies this`cur, plane
      ensures Valid()
      ensures var r := Compile(pctxt, old(Code()), ifn);
        && (ok <==> r.Some? && |r.value| <= plane.Length)
        && (ok ==> Code() == r.value)
      ensures Extends(pctxt, old(Code()), Code())
      ensures pctxt.imports <= ifn < pctxt.imports + |pctxt.codes| ==> Code()[8 * ifn] == Ptr(old(cur))
      decreases Nulls(pctxt, Code())
    {
      hide EmitFn, PlaneOk, LocalsFit, Extends, Nulls, IsNull;
      ghost var start := Code();
      ghost var ctls: seq<Ctl>;
      var vecifnCompile: seq<nat>;
      ok, ctls, vecifnCompile := CompileOne(ifn);
      CompileStep(pctxt, start, ifn);
      ExtendsRefl(pctxt, start);
      PlaneSize(pctxt, start);
      ghost var begun := pctxt.imports <= ifn < pctxt.imports + |pctxt.codes|;
      if begun { FirstExtends(pctxt, start, ifn, Code()); }
      if !ok { return; }
      ghost var first := Code();
      ghost var result := CompileCalls(pctxt, Code(), vecifnCompile);
      var i := 0;
      assert vecifnCompile[i..] == vecifnCompile;
      ExtendsRefl(pctxt, first);
      while i < |vecifnCompile|
        invariant Valid() && i <= |vecifnCompile|
        invariant PlaneOk(pctxt, Code()) && Nulls(pctxt, Code()) < Nulls(pctxt, start) && Extends(pctxt, first, Code())
        invariant CompileCalls(pctxt, Code(), vecifnCompile[i..]) == result
      {
        ghost var rest := vecifnCompile[i..];
        var ifnCompile := vecifnCompile[i];
        assert rest[0] == ifnCompile && rest[1..] == vecifnCompile[i + 1..];
        CallsStep(pctxt, Code(), rest);
        var needed := ifnCompile < |pctxt.sigs|;
        if needed { needed := EntryIsNull(ifnCompile); }
        if needed {
          ghost var before := Code();
          ok := CompileFn(ifnCompile);
          ExtendsTrans(pctxt, first, before, Code());
          if !ok { break; }
        }
        i := i + 1;
      }
      ExtendsTrans(pctxt, start, first, Code());
      if begun { EntryStays(pctxt, first, Code(), ifn, |start|); }
    }

    /** Whether a function table entry is still null. */
    method EntryIsNull(f: nat) returns (yes: bool)
      requires Valid() && PlaneOk(pctxt, Code()) && f < |pctxt.sigs|
      ensures yes <==> IsNull(Code(), f)
    {
      yes := plane[8 * f] == Ptr(0);
    }
  }
}
