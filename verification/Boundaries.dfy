/** The starts of opcodes in a function's code are exactly where `mov r12` instructions are. */
module Boundaries {
  import opened Wasm
  import opened X86
  import opened Codegen
  import opened Layout
  import opened Emitter
  import opened Between
  import opened Points

  predicate IsOpcode(pt: Option<Point>) { pt.Some? && pt.value.Opcode? }

  lemma AtomNoDbg(env: Env, a: Atom, p: nat, keeps: seq<bool>, rt: seq<Option<nat>>, at: seq<Option<nat>>)
    requires AtomOk(env, a, |keeps|) && |rt| == |keeps| == |at|
    ensures NoDbg(GenAtom(env, a, p, keeps, rt, at))
  {
    hide NoDbg, Asm, JumpCode, JzCode, TableHead, Entry, Entries, Cells, CallSetup, CallCleanup, OpCode, LeaveCode;
    match a
    case Plain(op) => OpMute(op); AsmNoDbg(OpCode(op));
    case Br(d) => BranchNoDbg(d, keeps[d], p + LeaveSize(d, keeps[d]), rt[d]);
    case BrIf(d) =>
      var q := p + |Asm(BrIfTest())| + 6 + LeaveSize(d, keeps[d]);
      BranchNoDbg(d, keeps[d], q, rt[d]);
      TestNoDbg(LeaveSize(d, keeps[d]) + 5);
      NoDbgBoth(Asm(BrIfTest()) + JzCode(LeaveSize(d, keeps[d]) + 5), Asm(LeaveCode(d, keeps[d])));
      NoDbgBoth(Asm(BrIfTest()) + JzCode(LeaveSize(d, keeps[d]) + 5) + Asm(LeaveCode(d, keeps[d])), JumpCode(q, rt[d]));
    case BrTable(ts, d) =>
      HeadNoDbg(env, p, |ts|, keeps[d], d, at[d]);
      EntriesNoDbg(ts, at);
      NoDbgBoth(TableHead(env, p, |ts|, keeps[d]) + Entry(d, at[d]), Entries(ts, at));
    case Return => ReturnNoDbg(|keeps|);
    case Call(f) =>
      CallMute(env, f);
      AsmNoDbg(CallSetup(env, f));
      AsmNoDbg(CallCleanup(env, f));
      var j := Cells(J(CallTable(8 * f - (p + |Asm(CallSetup(env, f))| + 6))));
      CellsNoDbg(J(CallTable(8 * f - (p + |Asm(CallSetup(env, f))| + 6))));
      NoDbgBoth(Asm(CallSetup(env, f)), j);
      NoDbgBoth(Asm(CallSetup(env, f)) + j, Asm(CallCleanup(env, f)));
  }

  lemma CellsNoDbg(i: Instr)
    requires !Speaks(i)
    ensures NoDbg(Cells(i))
  {
  }

  lemma BranchNoDbg(d: nat, keep: bool, q: nat, target: Option<nat>)
    ensures NoDbg(Asm(LeaveCode(d, keep))) && NoDbg(JumpCode(q, target))
    ensures NoDbg(Asm(LeaveCode(d, keep)) + JumpCode(q, target))
  {
    hide NoDbg, Asm, JumpCode, LeaveCode;
    LeaveMute(d, keep);
    AsmNoDbg(LeaveCode(d, keep));
    JumpNoDbg(q, target);
    NoDbgBoth(Asm(LeaveCode(d, keep)), JumpCode(q, target));
  }

  lemma JzNoDbg(d: int)
    ensures NoDbg(JzCode(d))
  {
  }

  lemma TestNoDbg(d: int)
    ensures NoDbg(Asm(BrIfTest()) + JzCode(d)) && NoDbg(Asm(IfTest()) + JzCode(d))
  {
    hide NoDbg, Asm, JzCode;
    AsmNoDbg(BrIfTest());
    AsmNoDbg(IfTest());
    JzNoDbg(d);
    NoDbgBoth(Asm(BrIfTest()), JzCode(d));
    NoDbgBoth(Asm(IfTest()), JzCode(d));
  }

  lemma ReturnNoDbg(n: nat)
    ensures NoDbg(Asm([P(AddRsp(n))]) + Cells(J(Ret)))
  {
    hide NoDbg, Asm;
    AsmNoDbg([P(AddRsp(n))]);
    CellsNoDbg(J(Ret));
    NoDbgBoth(Asm([P(AddRsp(n))]), Cells(J(Ret)));
  }

  lemma EnterNoDbg()
    ensures NoDbg(Enter())
  {
    hide NoDbg, Asm;
    AsmNoDbg(EnterBlock());
  }

  lemma LeaveNoDbg(keep: bool)
    ensures NoDbg(Asm(LeaveBlock(keep)))
  {
    hide NoDbg, Asm;
    AsmNoDbg(LeaveBlock(keep));
  }

  /** An opcode's code: its start, and nothing that looks like one after it. */
  ghost predicate Started(s: seq<Cell>) { |s| > 0 && IsDbg(s[0]) && forall i :: 0 < i < |s| ==> !IsDbg(s[i]) }

  lemma StartedBy(opcode: nat, rest: seq<Cell>)
    requires NoDbg(rest)
    ensures Started(Dbg(opcode) + rest)
  {
  }

  lemma CloseStarted(keep: bool)
    ensures Started(Close(keep))
  {
    hide Asm, Dbg, Started, NoDbg;
    LeaveNoDbg(keep);
    StartedBy(END, Asm(LeaveBlock(keep)));
  }

  lemma HeadStarted(b: Body, p: nat, other: int)
    requires Nested(b)
    ensures Started(Head(b, p, other))
  {
    hide Asm, Dbg, Started, NoDbg, JzCode, Enter;
    EnterNoDbg();
    StartedBy(BLOCK, Enter());
    StartedBy(LOOP, Enter());
    var d := other - (p + 13 + |Asm(IfTest())|);
    TestNoDbg(d);
    NoDbgBoth(Asm(IfTest()) + JzCode(d), Enter());
    StartedBy(IF, Asm(IfTest()) + JzCode(d) + Enter());
    Assoc4(Dbg(IF), Asm(IfTest()), JzCode(d), Enter());
  }

  lemma ElseStarted(q: nat, target: Option<nat>)
    ensures Started(ElseCode(q, target))
  {
    hide Asm, Dbg, Started, NoDbg, JumpCode, Enter;
    var lv, j := Asm(LeaveBlock(true)), JumpCode(q + 7 + |Asm(LeaveBlock(true))|, target);
    LeaveNoDbg(true);
    JumpNoDbg(q + 7 + |lv|, target);
    EnterNoDbg();
    NoDbgBoth(lv, j);
    NoDbgBoth(lv + j, Enter());
    StartedBy(ELSE, lv + j + Enter());
    Assoc4(Dbg(ELSE), lv, j, Enter());
  }

  // ---------- bodies ----------

  /** In the code of a body the opcode starts are the cells that hold `mov r12`. */
  lemma {:induction false} GenStarts(env: Env, b: Body, p: nat, keeps: seq<bool>, rt: seq<Option<nat>>, at: seq<Option<nat>>, q: int)
    requires BodyOk(env, b, |keeps|) && |rt| == |keeps| == |at| && p <= q < p + Size(env, b, keeps)
    ensures IsDbg(Gen(env, b, p, keeps, rt, at)[q - p]) <==> IsOpcode(BodyPoint(env, b, p, keeps, q))
    decreases b, 2
  {
    hide Gen, GenAtom, AtomSize, AtomByte, AtomOk, Size, InnerSize, Inner, Head, HeadSize, OtherOf, LabelOf, EndOf, Dbg, IsDbg, NoDbg, CallReturn, InnerPoint;
    if b.Atomic? {
      SizeParts(env, b, keeps);
      AtomicStarts(env, b, p, keeps, rt, at, q);
    } else if !b.Done? {
      NestedSize(env, b, p, keeps);
      var l, e := Some(LabelOf(env, b, p, keeps)), EndOf(env, b, p, keeps);
      GenNested(env, b, p, keeps, rt, at, l);
      EndIs(env, b, p, keeps);
      var h := Head(b, p, OtherOf(env, b, p, keeps));
      HeadStarted(b, p, OtherOf(env, b, p, keeps));
      if q < p + HeadSize(b) {
        assert Gen(env, b, p, keeps, rt, at)[q - p] == h[q - p];
      } else if q < e {
        InnerStarts(env, b, p, keeps, rt, at, l, q);
        assert Gen(env, b, p, keeps, rt, at)[q - p] == Inner(env, b, p, keeps, rt, at, l, l)[q - p - HeadSize(b)];
      } else {
        GenStarts(env, b.next, e, keeps, rt, at, q);
        assert Gen(env, b, p, keeps, rt, at)[q - p] == Gen(env, b.next, e, keeps, rt, at)[q - e];
      }
    } else {
      SizeParts(env, b, keeps);
    }
  }

  lemma EndIs(env: Env, b: Body, p: nat, keeps: seq<bool>)
    requires Nested(b) && BodyOk(env, b, |keeps|)
    ensures EndOf(env, b, p, keeps) == p + HeadSize(b) + InnerSize(env, b, keeps)
  {
    hide HeadSize, InnerSize, BodyOk;
  }

  lemma AtomicPoint(env: Env, b: Body, p: nat, keeps: seq<bool>, q: int)
    requires b.Atomic? && BodyOk(env, b, |keeps|) && BodyOk(env, b.next, |keeps|) && AtomOk(env, b.atom, |keeps|)
    ensures var e, r := p + 7 + AtomSize(env, b.atom, keeps), BodyPoint(env, b, p, keeps, q);
      if q < e then IsOpcode(r) <==> q == p else r == BodyPoint(env, b.next, e, keeps, q)
  {
    hide AtomSize, AtomOk, Size, CallReturn, BodyOk;
  }

  lemma AtomicStarts(env: Env, b: Body, p: nat, keeps: seq<bool>, rt: seq<Option<nat>>, at: seq<Option<nat>>, q: int)
    requires b.Atomic? && BodyOk(env, b, |keeps|) && BodyOk(env, b.next, |keeps|) && AtomOk(env, b.atom, |keeps|) && |rt| == |keeps| == |at|
    requires p <= q < p + Size(env, b, keeps) && Size(env, b, keeps) == 7 + AtomSize(env, b.atom, keeps) + Size(env, b.next, keeps)
    ensures IsDbg(Gen(env, b, p, keeps, rt, at)[q - p]) <==> IsOpcode(BodyPoint(env, b, p, keeps, q))
    decreases b, 0
  {
    hide Gen, GenAtom, AtomSize, AtomByte, AtomOk, Size, Dbg, IsDbg, NoDbg, CallReturn, BodyOk, BodyPoint;
    var a, e := b.atom, p + 7 + AtomSize(env, b.atom, keeps);
    GenAtomic(env, a, b.next, p, keeps, rt, at);
    var g := GenAtom(env, a, p + 7, keeps, rt, at);
    AtomNoDbg(env, a, p + 7, keeps, rt, at);
    StartedBy(AtomByte(a), g);
    AtomicPoint(env, b, p, keeps, q);
    PickTwo(Dbg(AtomByte(a)) + g, Gen(env, b.next, e, keeps, rt, at), q - p);
    if q >= e {
      GenStarts(env, b.next, e, keeps, rt, at, q);
    }
  }

  lemma InnerStarts(env: Env, b: Body, p: nat, keeps: seq<bool>, rt: seq<Option<nat>>, at: seq<Option<nat>>, l: Option<nat>, q: int)
    requires Nested(b) && BodyOk(env, b, |keeps|) && |rt| == |keeps| == |at|
    requires p + HeadSize(b) <= q < p + HeadSize(b) + InnerSize(env, b, keeps)
    ensures IsDbg(Inner(env, b, p, keeps, rt, at, l, l)[q - p - HeadSize(b)]) <==> IsOpcode(InnerPoint(env, b, p, keeps, q))
    decreases b, 1
  {
    hide Gen, AtomOk, Size, Head, HeadSize, Close, CloseSize, ElseCode, ElseSize, Enter, IsDbg, BodyOk, Keep, BodyPoint, Started, ArmsCode;
    BodyOkParts(env, b, |keeps|);
    var k, r, t, p1 := [Keep(b.bt)] + keeps, [l] + rt, [l] + at, p + HeadSize(b);
    var u := p1 + Size(env, b.body, k);
    ArmSizes(env, b, p, keeps);
    EndIs(env, b, p, keeps);
    var g, z := Gen(env, b.body, p1, k, r, t), Close(Keep(b.bt));
    assert Inner(env, b, p, keeps, rt, at, l, l) == g + ArmsCode(env, b, u, k, r, t, l) + z by { InnerIs(env, b, p, keeps, rt, at, l); }
    PickThree(g, ArmsCode(env, b, u, k, r, t, l), z, q - p1);
    CloseStarts(Keep(b.bt));
    if q < u {
      GenStarts(env, b.body, p1, k, r, t, q);
    } else if b.IfElse? && q < u + ElseSize() + |Enter()| + Size(env, b.els, k) {
      ElsStarts(env, b, u, k, r, t, l, q);
    }
  }

  /** What is between the first arm and the end. */
  function ArmsCode(env: Env, b: Body, u: nat, k: seq<bool>, r: seq<Option<nat>>, t: seq<Option<nat>>, l: Option<nat>): (s: seq<Cell>)
    requires Nested(b) && (b.IfElse? ==> BodyOk(env, b.els, |k|)) && |r| == |k| == |t|
    ensures |s| == if b.IfElse? then ElseSize() + |Enter()| + Size(env, b.els, k) else 0
  {
    hide Gen, Size, ElseCode, ElseSize, Enter, BodyOk;
    if b.IfElse? then ElseCode(u, l) + Gen(env, b.els, u + ElseSize() + |Enter()|, k, r, t) else []
  }

  lemma InnerIs(env: Env, b: Body, p: nat, keeps: seq<bool>, rt: seq<Option<nat>>, at: seq<Option<nat>>, l: Option<nat>)
    requires Nested(b) && BodyOk(env, b, |keeps|) && |rt| == |keeps| == |at|
    requires BodyOk(env, b.body, |keeps| + 1) && (b.IfElse? ==> BodyOk(env, b.els, |keeps| + 1))
    ensures var k, r, t, p1 := [Keep(b.bt)] + keeps, [l] + rt, [l] + at, p + HeadSize(b);
      Inner(env, b, p, keeps, rt, at, l, l)
      == Gen(env, b.body, p1, k, r, t) + ArmsCode(env, b, p1 + Size(env, b.body, k), k, r, t, l) + Close(Keep(b.bt))
  {
    hide Gen, Size, HeadSize, Close, CloseSize, ElseCode, ElseSize, Enter, BodyOk, Keep;
  }

  lemma PickTwo<T>(a: seq<T>, b: seq<T>, i: nat)
    requires i < |a| + |b|
    ensures (a + b)[i] == if i < |a| then a[i] else b[i - |a|]
  {
  }

  lemma PickThree<T>(a: seq<T>, b: seq<T>, c: seq<T>, i: nat)
    requires i < |a| + |b| + |c|
    ensures (a + b + c)[i] == if i < |a| then a[i] else if i < |a| + |b| then b[i - |a|] else c[i - |a| - |b|]
  {
  }

  lemma CloseStarts(keep: bool)
    ensures forall i :: 0 <= i < CloseSize(keep) ==> (IsDbg(Close(keep)[i]) <==> i == 0)
  {
    hide Close, CloseSize, IsDbg;
    CloseStarted(keep);
  }

  lemma ElsStarts(env: Env, b: Body, u: nat, k: seq<bool>, r: seq<Option<nat>>, t: seq<Option<nat>>, l: Option<nat>, q: int)
    requires b.IfElse? && BodyOk(env, b.els, |k|) && |r| == |k| == |t|
    requires u <= q < u + ElseSize() + |Enter()| + Size(env, b.els, k)
    ensures var v := u + ElseSize() + |Enter()|;
      IsDbg(ArmsCode(env, b, u, k, r, t, l)[q - u])
      <==> q == u || (q >= v && IsOpcode(BodyPoint(env, b.els, v, k, q)))
    decreases b, 0
  {
    hide Gen, Size, ElseCode, ElseSize, Enter, IsDbg, BodyOk, BodyPoint;
    var v := u + ElseSize() + |Enter()|;
    ElseStarted(u, l);
    if q >= v {
      GenStarts(env, b.els, v, k, r, t, q);
    } else {
      assert ArmsCode(env, b, u, k, r, t, l)[q - u] == ElseCode(u, l)[q - u];
    }
  }

  /** The same for a whole function. */
  lemma FnStarts(pl: Place, q: int)
    requires PlaceOk(pl) && pl.a <= q <= RetAt(pl)
    ensures pl.a <= RetAt(pl) && |GenFn(pl.env, pl.cparams, pl.body, pl.a)| == RetAt(pl) + 1 - pl.a
    ensures IsDbg(GenFn(pl.env, pl.cparams, pl.body, pl.a)[q - pl.a]) <==> IsOpcode(PointIn(pl, q))
  {
    hide Gen, Size, Prologue, Close, CloseSize, IsDbg, BodyPoint, BodyOk;
    var l := [Some(FnEnd(pl.env, pl.cparams, pl.body, pl.a))];
    PrologueSize(pl.env, pl.cparams);
    PrologueNoDbg(pl.env, pl.cparams);
    CloseStarted(true);
    CellsNoDbg(J(Ret));
    if BodyAt(pl) <= q < CloseAt(pl) {
      GenStarts(pl.env, pl.body, BodyAt(pl), [true], l, l, q);
    }
  }

  lemma PrologueNoDbg(env: Env, cparams: nat)
    requires cparams <= env.clocals
    ensures NoDbg(Prologue(env, cparams))
  {
    hide NoDbg, Enter, Cells;
    EnterNoDbg();
    if env.clocals > cparams {
      CellsNoDbg(X(ZeroLocals(cparams, env.clocals - cparams)));
      NoDbgBoth(Cells(X(ZeroLocals(cparams, env.clocals - cparams))), Enter());
    } else {
      assert [] + Enter() == Enter();
    }
  }

  /** A function in the plane: its opcodes start where the plane has `mov r12`. */
  lemma PlaneStarts(plane: seq<Cell>, pl: Place, q: int)
    requires PlaceOk(pl) && At(plane, pl.a, GenFn(pl.env, pl.cparams, pl.body, pl.a)) && pl.a <= q <= RetAt(pl)
    ensures AtDbg(plane, q) <==> IsOpcode(PointIn(pl, q))
  {
    hide PointIn, GenFn, BodyOk, RetAt, IsDbg;
    FnStarts(pl, q);
    assert plane[pl.a + (q - pl.a)] == GenFn(pl.env, pl.cparams, pl.body, pl.a)[q - pl.a];
  }
}
