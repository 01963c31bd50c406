/** The one-pass emitter on values: what every opcode does to the code emitted so far, to the stack
    of open blocks with their fixups, and to the list of functions called. */
module Emitter {
  import opened Wasm
  import opened X86
  import opened Codegen
  import opened Layout
  import opened Fixups

  /** The bytecode, one item per opcode with its immediates. */
  datatype Opcode =
    | OpBlock(bt: BlockType) | OpLoop(bt: BlockType) | OpIf(bt: BlockType) | OpElse | OpEnd
    | OpAtom(atom: Atom)

  function Flatten(b: Body): seq<Opcode> {
    match b
    case Done => []
    case Atomic(a, next) => [OpAtom(a)] + Flatten(next)
    case Block(bt, body, next) => [OpBlock(bt)] + Flatten(body) + [OpEnd] + Flatten(next)
    case Loop(bt, body, next) => [OpLoop(bt)] + Flatten(body) + [OpEnd] + Flatten(next)
    case If(bt, body, next) => [OpIf(bt)] + Flatten(body) + [OpEnd] + Flatten(next)
    case IfElse(bt, body, els, next) =>
      [OpIf(bt)] + Flatten(body) + [OpElse] + Flatten(els) + [OpEnd] + Flatten(next)
  }

  /** An open block: its type, its branch target when that is already known (loops), and the
      addresses of the fields that wait for it. */
  datatype Ctl = Ctl(bt: BlockType, target: Option<nat>, rels: seq<nat>, abss: seq<nat>)

  /** `ctls` has the innermost block first. */
  datatype Em = Em(code: seq<Cell>, ctls: seq<Ctl>, calls: seq<nat>)

  function Keeps(ctls: seq<Ctl>): (r: seq<bool>)
    ensures |r| == |ctls|
  {
    seq(|ctls|, i requires 0 <= i < |ctls| => Keep(ctls[i].bt))
  }

  function TargetsOf(ctls: seq<Ctl>): (r: Targets)
    ensures |r| == |ctls|
  {
    seq(|ctls|, i requires 0 <= i < |ctls| => ctls[i].target)
  }

  /** A label whose address is unknown collects the fields that refer to it. */
  function Collect(ctl: Ctl, rels: seq<nat>, abss: seq<nat>): Ctl {
    if ctl.target.Some? then ctl else ctl.(rels := ctl.rels + rels, abss := ctl.abss + abss)
  }

  function AfterAtom(env: Env, a: Atom, p: nat, ctls: seq<Ctl>): (r: seq<Ctl>)
    requires AtomOk(env, a, |ctls|)
    ensures |r| == |ctls|
  {
    var k := Keeps(ctls);
    seq(|ctls|, j requires 0 <= j < |ctls| =>
      Collect(ctls[j], AtomFields(Relative, env, a, p, k, j), AtomFields(Absolute, env, a, p, k, j)))
  }

  function EmitAtom(env: Env, em: Em, a: Atom): Option<Em> {
    if !AtomOk(env, a, |em.ctls|) then None
    else
      var code := em.code + Dbg(AtomByte(a));
      var t := TargetsOf(em.ctls);
      Some(Em(code + GenAtom(env, a, |code|, Keeps(em.ctls), t, t), AfterAtom(env, a, |code|, em.ctls), em.calls + CallsOf(a)))
  }

  function EmitOpen(em: Em, bt: BlockType, loop: bool): Em {
    var code := em.code + Dbg(if loop then LOOP else BLOCK);
    Em(code + Enter(), [Ctl(bt, if loop then Some(|code|) else None, [], [])] + em.ctls, em.calls)
  }

  function EmitIf(em: Em, bt: BlockType): Em {
    var code := em.code + Dbg(IF) + Asm(IfTest());
    Em(code + JzCode(0) + Enter(), [Ctl(bt, None, [|code| + 2], [])] + em.ctls, em.calls)
  }

  /** Ends the then-arm with a jump to the end, and points the first pending fixup, the condition's
      jump, here. */
  function EmitElse(em: Em): Option<Em> {
    if |em.ctls| == 0 || |em.ctls[0].rels| == 0 then None
    else
      var top := em.ctls[0];
      var code := em.code + Dbg(ELSE) + Asm(LeaveBlock(true));
      var code1 := code + JumpCode(|code|, None);
      var rels := top.rels + [|code| + 1];
      var code2 := Patch(Relative, 0, code1, rels[0], |code1|);
      Some(Em(code2 + Enter(), [top.(rels := rels[1..])] + em.ctls[1..], em.calls))
  }

  /** The leave code, then every pending fixup of the block points here. */
  function EmitEnd(em: Em): Option<Em> {
    if |em.ctls| == 0 || (|em.ctls| == 1 && em.ctls[0].bt != NONE_TYPE) then None
    else
      var top := em.ctls[0];
      var code := em.code + Close(Keep(top.bt));
      var code1 := PatchAll(Relative, 0, code, top.rels, |code|);
      Some(Em(PatchAll(Absolute, 0, code1, top.abss, |code|), em.ctls[1..], em.calls))
  }

  function EmitOp(env: Env, em: Em, op: Opcode): Option<Em> {
    match op
    case OpBlock(bt) => Some(EmitOpen(em, bt, false))
    case OpLoop(bt) => Some(EmitOpen(em, bt, true))
    case OpIf(bt) => Some(EmitIf(em, bt))
    case OpElse => EmitElse(em)
    case OpEnd => EmitEnd(em)
    case OpAtom(a) => EmitAtom(env, em, a)
  }

  function EmitAll(env: Env, em: Em, ops: seq<Opcode>): Option<Em>
    decreases |ops|
  {
    if |ops| == 0 then Some(em)
    else
      match EmitOp(env, em, ops[0])
      case None => None
      case Some(em') => EmitAll(env, em', ops[1..])
  }

  // ---------- the emitter meets the layout ----------

  function AfterBody(env: Env, b: Body, p: nat, ctls: seq<Ctl>): (r: seq<Ctl>)
    requires BodyOk(env, b, |ctls|)
    ensures |r| == |ctls|
  {
    var k := Keeps(ctls);
    seq(|ctls|, j requires 0 <= j < |ctls| =>
      Collect(ctls[j], Fields(Relative, env, b, p, k, j), Fields(Absolute, env, b, p, k, j)))
  }

  /** The state after the opcodes of a whole body: its laid-out code, with the targets of the open
      blocks still missing and their fields collected. */
  function EmittedBody(env: Env, em: Em, b: Body): Em
    requires BodyOk(env, b, |em.ctls|)
  {
    var t := TargetsOf(em.ctls);
    Em(em.code + Gen(env, b, |em.code|, Keeps(em.ctls), t, t),
       AfterBody(env, b, |em.code|, em.ctls), em.calls + BodyCalls(b))
  }

  lemma CollectTwice(c: Ctl, r1: seq<nat>, a1: seq<nat>, r2: seq<nat>, a2: seq<nat>)
    ensures Collect(Collect(c, r1, a1), r2, a2) == Collect(c, r1 + r2, a1 + a2)
  {
    if c.target.None? {
      assert c.rels + r1 + r2 == c.rels + (r1 + r2);
      assert c.abss + a1 + a2 == c.abss + (a1 + a2);
    }
  }

  lemma AfterAtomic(env: Env, a: Atom, next: Body, p: nat, q: nat, ctls: seq<Ctl>, ctls1: seq<Ctl>)
    requires BodyOk(env, Atomic(a, next), |ctls|) && BodyOk(env, next, |ctls|) && AtomOk(env, a, |ctls|)
    requires q == p + 7 + AtomSize(env, a, Keeps(ctls)) && ctls1 == AfterAtom(env, a, p + 7, ctls)
    ensures AfterBody(env, Atomic(a, next), p, ctls) == AfterBody(env, next, q, ctls1)
  {
    hide AtomSize, AtomFields, AtomOk, Collect, BodyOk, Keeps, Fields;
    var k := Keeps(ctls);
    AfterAtomKeeps(env, a, p + 7, ctls);
    forall j | 0 <= j < |ctls|
      ensures AfterBody(env, Atomic(a, next), p, ctls)[j] == AfterBody(env, next, q, ctls1)[j]
    {
      FieldsAtomic(Relative, env, a, next, p, k, j);
      FieldsAtomic(Absolute, env, a, next, p, k, j);
      CollectTwice(ctls[j], AtomFields(Relative, env, a, p + 7, k, j), AtomFields(Absolute, env, a, p + 7, k, j),
                   Fields(Relative, env, next, q, k, j), Fields(Absolute, env, next, q, k, j));
    }
  }

  lemma AfterAtomKeeps(env: Env, a: Atom, p: nat, ctls: seq<Ctl>)
    requires AtomOk(env, a, |ctls|)
    ensures Keeps(AfterAtom(env, a, p, ctls)) == Keeps(ctls)
    ensures TargetsOf(AfterAtom(env, a, p, ctls)) == TargetsOf(ctls)
  {
    hide AtomFields, AtomOk;
  }

  lemma EmittedAtomic(env: Env, em: Em, a: Atom, next: Body)
    requires BodyOk(env, Atomic(a, next), |em.ctls|)
    ensures EmitAtom(env, em, a).Some?
    ensures |EmitAtom(env, em, a).value.ctls| == |em.ctls| && BodyOk(env, next, |em.ctls|)
    ensures EmittedBody(env, em, Atomic(a, next)) == EmittedBody(env, EmitAtom(env, em, a).value, next)
  {
    hide GenAtom, AtomSize, AtomFields, AtomByte, AtomOk, Size, Gen, AfterAtom, AfterBody, Keeps, TargetsOf, BodyOk, CallsOf, Dbg;
    var k, t, p := Keeps(em.ctls), TargetsOf(em.ctls), |em.code|;
    GenAtomic(env, a, next, p, k, t, t);
    var em1 := EmitAtom(env, em, a).value;
    var q := p + 7 + AtomSize(env, a, k);
    AfterAtomKeeps(env, a, p + 7, em.ctls);
    AfterAtomic(env, a, next, p, q, em.ctls, em1.ctls);
    Assoc4(em.code, Dbg(AtomByte(a)), GenAtom(env, a, p + 7, k, t, t), Gen(env, next, q, k, t, t));
    Assoc(em.calls, CallsOf(a), BodyCalls(next));
  }

  // ---------- structured instructions ----------

  function OpenOp(b: Body): Opcode
    requires Nested(b)
  {
    if b.Block? then OpBlock(b.bt) else if b.Loop? then OpLoop(b.bt) else OpIf(b.bt)
  }

  function Opened(em: Em, b: Body): Em
    requires Nested(b)
  {
    if b.Block? then EmitOpen(em, b.bt, false) else if b.Loop? then EmitOpen(em, b.bt, true) else EmitIf(em, b.bt)
  }

  /** Address of the condition jump's field. */
  function JzField(p: nat): nat { p + 7 + |Asm(IfTest())| + 2 }

  /** The condition's jump before it is patched. */
  function HoleHead(b: Body, p: nat): seq<Cell>
    requires Nested(b)
  {
    Head(b, p, p + 13 + |Asm(IfTest())|)
  }

  function OpenTarget(b: Body, p: nat): Option<nat> { if b.Loop? then Some(p + 7) else None }

  lemma OpenedIs(em: Em, b: Body)
    requires Nested(b)
    ensures var p := |em.code|;
      Opened(em, b) == Em(em.code + HoleHead(b, p),
                          [Ctl(b.bt, OpenTarget(b, p), if b.If? || b.IfElse? then [JzField(p)] else [], [])] + em.ctls, em.calls)
  {
    hide Enter, IfTest;
    var p := |em.code|;
    if b.If? || b.IfElse? {
      assert em.code + Dbg(IF) + Asm(IfTest()) + JzCode(0) + Enter() == em.code + (Dbg(IF) + Asm(IfTest()) + JzCode(0) + Enter());
    } else {
      var d := if b.Loop? then Dbg(LOOP) else Dbg(BLOCK);
      assert em.code + d + Enter() == em.code + (d + Enter());
    }
  }

  function AfterInner(env: Env, b: Body, p: nat, ctls: seq<Ctl>): (r: seq<Ctl>)
    requires Nested(b) && BodyOk(env, b, |ctls|)
    ensures |r| == |ctls|
  {
    var k := Keeps(ctls);
    seq(|ctls|, j requires 0 <= j < |ctls| =>
      Collect(ctls[j], InnerFields(Relative, env, b, p, k, j + 1), InnerFields(Absolute, env, b, p, k, j + 1)))
  }

  function InnerCalls(b: Body): seq<nat>
    requires Nested(b)
  {
    BodyCalls(b.body) + if b.IfElse? then BodyCalls(b.els) else []
  }

  /** b's own entry on the stack of open blocks, just before its `end`. */
  function OwnCtl(env: Env, b: Body, k: seq<bool>, p: nat): Ctl
    requires Nested(b) && BodyOk(env, b, |k|)
  {
    Collect(Ctl(b.bt, OpenTarget(b, p), if b.If? then [JzField(p)] else [], []),
            InnerFields(Relative, env, b, p, k, 0), InnerFields(Absolute, env, b, p, k, 0))
  }

  /** The state just before b's `end`, relative to the one before b. */
  function BeforeEnd(env: Env, em: Em, b: Body, rest: seq<Cell>): Em
    requires Nested(b) && BodyOk(env, b, |em.ctls|)
  {
    var k, p := Keeps(em.ctls), |em.code|;
    Em(em.code + (if b.IfElse? then Head(b, p, OtherOf(env, b, p, k)) else HoleHead(b, p)) + rest,
       [OwnCtl(env, b, k, p)] + AfterInner(env, b, p, em.ctls),
       em.calls + InnerCalls(b))
  }

  function AfterEnd(env: Env, em: Em, b: Body): Em
    requires Nested(b) && BodyOk(env, b, |em.ctls|)
  {
    var k, t, p := Keeps(em.ctls), TargetsOf(em.ctls), |em.code|;
    var l := Some(LabelOf(env, b, p, k));
    Em(em.code + (Head(b, p, OtherOf(env, b, p, k)) + Inner(env, b, p, k, t, t, l, l)),
       AfterInner(env, b, p, em.ctls), em.calls + InnerCalls(b))
  }

  /** Continuing with the instructions after b's block. */
  lemma EmittedNested(env: Env, em: Em, b: Body)
    requires Nested(b) && BodyOk(env, b, |em.ctls|)
    ensures BodyOk(env, b.next, |em.ctls|)
    ensures EmittedBody(env, em, b) == EmittedBody(env, AfterEnd(env, em, b), b.next)
  {
    hide Gen, Size, Head, HeadSize, Inner, InnerSize, InnerFields, Fields, LabelOf, OtherOf, EndOf, BodyOk, AfterInner, AfterBody, Keeps, TargetsOf,
         BodyCalls, InnerCalls;
    BodyOkParts(env, b, |em.ctls|);
    var em1 := AfterEnd(env, em, b);
    var k, t, p := Keeps(em.ctls), TargetsOf(em.ctls), |em.code|;
    var l, q := Some(LabelOf(env, b, p, k)), EndOf(env, b, p, k);
    GenNested(env, b, p, k, t, t, l);
    EndOfSize(env, b, p, k);
    AfterInnerKeeps(env, b, p, em.ctls);
    AfterNested(env, b, p, q, em.ctls, em1.ctls);
    var h, i, g := Head(b, p, OtherOf(env, b, p, k)), Inner(env, b, p, k, t, t, l, l), Gen(env, b.next, q, k, t, t);
    Assoc(em.code, h + i, g);
    BodyCallsNested(b);
    Assoc(em.calls, InnerCalls(b), BodyCalls(b.next));
  }

  lemma BodyCallsNested(b: Body)
    requires Nested(b)
    ensures BodyCalls(b) == InnerCalls(b) + BodyCalls(b.next)
  {
  }

  lemma AfterInnerKeeps(env: Env, b: Body, p: nat, ctls: seq<Ctl>)
    requires Nested(b) && BodyOk(env, b, |ctls|)
    ensures Keeps(AfterInner(env, b, p, ctls)) == Keeps(ctls)
    ensures TargetsOf(AfterInner(env, b, p, ctls)) == TargetsOf(ctls)
  {
    hide InnerFields, BodyOk, Keep, Nested;
    forall j | 0 <= j < |ctls|
      ensures AfterInner(env, b, p, ctls)[j].bt == ctls[j].bt && AfterInner(env, b, p, ctls)[j].target == ctls[j].target
    {
    }
    KeepsEqual(ctls, AfterInner(env, b, p, ctls));
  }

  lemma KeepsEqual(ctls: seq<Ctl>, ctls': seq<Ctl>)
    requires |ctls'| == |ctls| && forall j :: 0 <= j < |ctls| ==> ctls'[j].bt == ctls[j].bt && ctls'[j].target == ctls[j].target
    ensures Keeps(ctls') == Keeps(ctls) && TargetsOf(ctls') == TargetsOf(ctls)
  {
    hide Keep;
  }

  lemma AfterNested(env: Env, b: Body, p: nat, q: nat, ctls: seq<Ctl>, ctls1: seq<Ctl>)
    requires Nested(b) && BodyOk(env, b, |ctls|) && BodyOk(env, b.next, |ctls|)
    requires q == EndOf(env, b, p, Keeps(ctls)) && ctls1 == AfterInner(env, b, p, ctls)
    ensures AfterBody(env, b, p, ctls) == AfterBody(env, b.next, q, ctls1)
  {
    hide InnerFields, Collect, BodyOk, Keeps, Fields, EndOf;
    var k := Keeps(ctls);
    AfterInnerKeeps(env, b, p, ctls);
    forall j | 0 <= j < |ctls|
      ensures AfterBody(env, b, p, ctls)[j] == AfterBody(env, b.next, q, ctls1)[j]
    {
      FieldsNested(Relative, env, b, p, k, j);
      FieldsNested(Absolute, env, b, p, k, j);
      CollectTwice(ctls[j], InnerFields(Relative, env, b, p, k, j + 1), InnerFields(Absolute, env, b, p, k, j + 1),
                   Fields(Relative, env, b.next, q, k, j), Fields(Absolute, env, b.next, q, k, j));
    }
  }

  /** The condition's jump is patched in the head. */
  lemma PatchHole(pre: seq<Cell>, b: Body, m: seq<Cell>, t: nat)
    requires b.If? || b.IfElse?
    ensures PatchAll(Relative, 0, pre + HoleHead(b, |pre|) + m, [JzField(|pre|)], t) == pre + Head(b, |pre|, t) + m
  {
    hide Dbg, IfTest, JzCode, Enter, Asm, PatchAll;
    var p := |pre|;
    var d := Dbg(IF) + Asm(IfTest());
    var q := p + |d|;
    PatchLeft(Relative, 0, pre + HoleHead(b, p), m, [q + 2], t);
    PatchRight(Relative, 0, pre, HoleHead(b, p), [q + 2], t);
    PatchLeft(Relative, p, d + JzCode(0), Enter(), [q + 2], t);
    PatchRight(Relative, p, d, JzCode(0), [q + 2], t);
    PatchJz(q, 0, t);
  }

  /** Patching the fields of one kind that refer to a block's own label. */
  lemma ResolveKind(kind: Kind, env: Env, b: Body, p: nat, keeps: seq<bool>, t: Targets, pre: seq<Cell>, lr: Option<nat>, la: Option<nat>, e: nat)
    requires Nested(b) && BodyOk(env, b, |keeps|) && |t| == |keeps| && |pre| == p + HeadSize(b)
    requires if kind.Relative? then lr.None? else la.None?
    ensures PatchAll(kind, 0, pre + Inner(env, b, p, keeps, t, t, lr, la), InnerFields(kind, env, b, p, keeps, 0), e)
         == pre + Inner(env, b, p, keeps, t, t, if kind.Relative? then Some(e) else lr, if kind.Absolute? then Some(e) else la)
  {
    hide Inner, InnerFields, HeadSize, InnerSize, BodyOk, PatchAll, Within, Fields, Size, Gen, Resolve;
    InnerFieldsWithin(kind, env, b, p, keeps, 0);
    PatchRight(kind, 0, pre, Inner(env, b, p, keeps, t, t, lr, la), InnerFields(kind, env, b, p, keeps, 0), e);
    PatchInner(kind, env, b, p, keeps, t, t, lr, la, 0, e);
  }

  /** Patching both kinds of fields inside a block with the block's own address. */
  lemma ResolveOwn(env: Env, b: Body, p: nat, keeps: seq<bool>, t: Targets, pre: seq<Cell>, e: nat)
    requires Nested(b) && BodyOk(env, b, |keeps|) && |t| == |keeps| && |pre| == p + HeadSize(b)
    ensures PatchAll(Absolute, 0,
              PatchAll(Relative, 0, pre + Inner(env, b, p, keeps, t, t, None, None), InnerFields(Relative, env, b, p, keeps, 0), e),
              InnerFields(Absolute, env, b, p, keeps, 0), e)
         == pre + Inner(env, b, p, keeps, t, t, Some(e), Some(e))
  {
    hide Inner, InnerFields, HeadSize, InnerSize, BodyOk, PatchAll, Nested;
    ResolveKind(Relative, env, b, p, keeps, t, pre, None, None, e);
    ResolveKind(Absolute, env, b, p, keeps, t, pre, Some(e), None, e);
  }

  lemma PatchesOfIf(env: Env, b: Body, k: seq<bool>, t: Targets, pre: seq<Cell>, e: nat)
    requires b.If? && BodyOk(env, b, |k|) && |t| == |k|
    ensures var p := |pre|;
      PatchAll(Absolute, 0,
        PatchAll(Relative, 0, pre + HoleHead(b, p) + Inner(env, b, p, k, t, t, None, None),
                 [JzField(p)] + InnerFields(Relative, env, b, p, k, 0), e),
        InnerFields(Absolute, env, b, p, k, 0), e)
      == pre + Head(b, p, e) + Inner(env, b, p, k, t, t, Some(e), Some(e))
  {
    hide Inner, InnerFields, Head, HeadSize, InnerSize, BodyOk, PatchAll, JzField, HoleHead;
    var p := |pre|;
    var i0 := Inner(env, b, p, k, t, t, None, None);
    PatchAppend(Relative, 0, pre + HoleHead(b, p) + i0, [JzField(p)], InnerFields(Relative, env, b, p, k, 0), e);
    PatchHole(pre, b, i0, e);
    ResolveOwn(env, b, p, k, t, pre + Head(b, p, e), e);
  }

  /** Before `end` is patched: the head, then the inside with the block's own label still open. */
  function OpenCode(env: Env, b: Body, k: seq<bool>, t: Targets, pre: seq<Cell>): seq<Cell>
    requires Nested(b) && BodyOk(env, b, |k|) && |t| == |k|
  {
    var p := |pre|;
    var l := OpenTarget(b, p);
    pre + (if b.IfElse? then Head(b, p, OtherOf(env, b, p, k)) else HoleHead(b, p)) + Inner(env, b, p, k, t, t, l, l)
  }

  /** The patches at `end`, from the code before them to the laid-out code. */
  lemma PatchesAtEnd(env: Env, b: Body, k: seq<bool>, t: Targets, pre: seq<Cell>)
    requires Nested(b) && BodyOk(env, b, |k|) && |t| == |k|
    ensures var p, l := |pre|, Some(LabelOf(env, b, |pre|, k));
      var code, ctl, e := OpenCode(env, b, k, t, pre), OwnCtl(env, b, k, p), EndOf(env, b, p, k);
      && |code| == e
      && PatchAll(Absolute, 0, PatchAll(Relative, 0, code, ctl.rels, e), ctl.abss, e)
         == pre + Head(b, p, OtherOf(env, b, p, k)) + Inner(env, b, p, k, t, t, l, l)
  {
    hide Inner, InnerFields, HeadSize, InnerSize, BodyOk, PatchAll, JzField, Size, ElseSize, Enter, Dbg, EndOf, IfTest;
    var p := |pre|;
    var e := EndOf(env, b, p, k);
    EndOfSize(env, b, p, k);
    var f, g := InnerFields(Relative, env, b, p, k, 0), InnerFields(Absolute, env, b, p, k, 0);
    assert [] + f == f && [] + g == g;
    if b.Loop? {
      PatchNothing(OpenCode(env, b, k, t, pre), e);
    } else if b.If? {
      PatchesOfIf(env, b, k, t, pre, e);
    } else {
      var h := Head(b, p, OtherOf(env, b, p, k));
      ResolveOwn(env, b, p, k, t, pre + h, e);
    }
  }

  lemma OpenCodeIs(env: Env, b: Body, k: seq<bool>, t: Targets, pre: seq<Cell>, code: seq<Cell>, i: seq<Cell>)
    requires Nested(b) && BodyOk(env, b, |k|) && |t| == |k|
    requires var l := OpenTarget(b, |pre|);
      i + Close(Keep(b.bt)) == Inner(env, b, |pre|, k, t, t, l, l)
    requires code == pre + (if b.IfElse? then Head(b, |pre|, OtherOf(env, b, |pre|, k)) else HoleHead(b, |pre|)) + i
    ensures code + Close(Keep(b.bt)) == OpenCode(env, b, k, t, pre)
  {
    hide Inner, HoleHead, Head, BodyOk, OtherOf, Close, OpenTarget, Keep;
    var h := if b.IfElse? then Head(b, |pre|, OtherOf(env, b, |pre|, k)) else HoleHead(b, |pre|);
    Assoc(pre + h, i, Close(Keep(b.bt)));
  }

  lemma Assoc<T>(a: seq<T>, b: seq<T>, c: seq<T>)
    ensures a + b + c == a + (b + c)
  {
  }

  lemma Assoc4<T>(a: seq<T>, b: seq<T>, c: seq<T>, d: seq<T>)
    ensures a + b + c + d == a + (b + c + d)
  {
  }

  lemma OwnCtlBt(env: Env, b: Body, k: seq<bool>, p: nat)
    requires Nested(b) && BodyOk(env, b, |k|)
    ensures OwnCtl(env, b, k, p).bt == b.bt
  {
    hide InnerFields, BodyOk;
  }

  lemma PatchNothing(code: seq<Cell>, e: nat)
    ensures PatchAll(Absolute, 0, PatchAll(Relative, 0, code, [], e), [], e) == code
  {
  }

  /** `end` resolves the block's own label everywhere inside the block. */
  lemma EmitEndOf(env: Env, em: Em, b: Body, em2: Em, i: seq<Cell>)
    requires Nested(b) && BodyOk(env, b, |em.ctls|) && |em.ctls| > 0
    requires var t := TargetsOf(em.ctls);
      var l := OpenTarget(b, |em.code|);
      i + Close(Keep(b.bt)) == Inner(env, b, |em.code|, Keeps(em.ctls), t, t, l, l)
    requires em2 == BeforeEnd(env, em, b, i)
    ensures EmitEnd(em2) == Some(AfterEnd(env, em, b))
  {
    hide OwnCtl, OpenCode, Inner, InnerFields, HoleHead, Head, BodyOk, AfterInner, PatchAll, OtherOf, LabelOf, Close, OpenTarget, JzField, Keeps, TargetsOf, InnerCalls, EndOf;
    var k, t, p := Keeps(em.ctls), TargetsOf(em.ctls), |em.code|;
    OpenCodeIs(env, b, k, t, em.code, em2.code, i);
    PatchesAtEnd(env, b, k, t, em.code);
    OwnCtlBt(env, b, k, p);
    var lab := Some(LabelOf(env, b, p, k));
    assert em.code + Head(b, p, OtherOf(env, b, p, k)) + Inner(env, b, p, k, t, t, lab, lab)
        == em.code + (Head(b, p, OtherOf(env, b, p, k)) + Inner(env, b, p, k, t, t, lab, lab));
    assert em2.ctls[1..] == AfterInner(env, b, p, em.ctls);
  }

  // ---------- the arms of a block ----------

  /** What an arm adds to the fixups of the blocks around it. */
  function AfterArm(env: Env, arm: Body, p: nat, k: seq<bool>, ctls: seq<Ctl>): (r: seq<Ctl>)
    requires |k| == |ctls| + 1 && BodyOk(env, arm, |k|)
    ensures |r| == |ctls|
  {
    seq(|ctls|, j requires 0 <= j < |ctls| =>
      Collect(ctls[j], Fields(Relative, env, arm, p, k, j + 1), Fields(Absolute, env, arm, p, k, j + 1)))
  }

  lemma KeepsCons(c: Ctl, ctls: seq<Ctl>)
    ensures Keeps([c] + ctls) == [Keep(c.bt)] + Keeps(ctls)
    ensures TargetsOf([c] + ctls) == [c.target] + TargetsOf(ctls)
  {
    hide Keep;
  }

  lemma ArmFields(env: Env, arm: Body, p: nat, c: Ctl, ctls: seq<Ctl>, k: seq<bool>)
    requires BodyOk(env, arm, |ctls| + 1) && k == Keeps([c] + ctls) && |k| == |ctls| + 1
    ensures AfterBody(env, arm, p, [c] + ctls)
         == [Collect(c, Fields(Relative, env, arm, p, k, 0), Fields(Absolute, env, arm, p, k, 0))] + AfterArm(env, arm, p, k, ctls)
  {
    hide Fields, Collect, BodyOk, Keeps;
    var all := [c] + ctls;
    forall j | 0 <= j < |ctls| ensures AfterBody(env, arm, p, all)[j + 1] == AfterArm(env, arm, p, k, ctls)[j] {
      assert all[j + 1] == ctls[j];
    }
  }

  lemma EmittedArm(env: Env, em: Em, arm: Body, c: Ctl, ctls: seq<Ctl>, k: seq<bool>, t: Targets)
    requires em.ctls == [c] + ctls && BodyOk(env, arm, |ctls| + 1)
    requires k == [Keep(c.bt)] + Keeps(ctls) && t == [c.target] + TargetsOf(ctls)
    ensures EmittedBody(env, em, arm)
         == Em(em.code + Gen(env, arm, |em.code|, k, t, t),
               [Collect(c, Fields(Relative, env, arm, |em.code|, k, 0), Fields(Absolute, env, arm, |em.code|, k, 0))]
               + AfterArm(env, arm, |em.code|, k, ctls),
               em.calls + BodyCalls(arm))
  {
    hide Gen, Fields, Collect, BodyOk, Keep, Keeps, TargetsOf, BodyCalls, AfterBody, AfterArm;
    KeepsCons(c, ctls);
    ArmFields(env, arm, |em.code|, c, ctls, k);
  }

  lemma InnerOneArm(env: Env, b: Body, p: nat, k: seq<bool>, t: Targets, l: Option<nat>)
    requires Nested(b) && !b.IfElse? && BodyOk(env, b, |k|) && BodyOk(env, b.body, |k| + 1) && |t| == |k|
    ensures var kk, p1 := [Keep(b.bt)] + k, p + HeadSize(b);
      && Gen(env, b.body, p1, kk, [l] + t, [l] + t) + Close(Keep(b.bt)) == Inner(env, b, p, k, t, t, l, l)
      && forall kind, j :: InnerFields(kind, env, b, p, k, j) == Fields(kind, env, b.body, p1, kk, j)
  {
    hide Gen, Fields, HeadSize, Close, BodyOk, Keep, InnerSize, Size;
    var kk, p1 := [Keep(b.bt)] + k, p + HeadSize(b);
    var g := Gen(env, b.body, p1, kk, [l] + t, [l] + t);
    assert g + [] == g;
    forall kind, j ensures InnerFields(kind, env, b, p, k, j) == Fields(kind, env, b.body, p1, kk, j) {
      var f := Fields(kind, env, b.body, p1, kk, j);
      assert f + [] == f;
    }
  }

  /** One arm: the opening opcode and the arm lead to the state before `end`. */
  lemma EmittedOneArm(env: Env, em: Em, b: Body)
    requires Nested(b) && !b.IfElse? && BodyOk(env, b, |em.ctls|) && BodyOk(env, b.body, |em.ctls| + 1)
    ensures var k, t, p := Keeps(em.ctls), TargetsOf(em.ctls), |em.code|;
      var l := OpenTarget(b, p);
      var i := Gen(env, b.body, p + HeadSize(b), [Keep(b.bt)] + k, [l] + t, [l] + t);
      && |Opened(em, b).ctls| == |em.ctls| + 1
      && i + Close(Keep(b.bt)) == Inner(env, b, p, k, t, t, l, l)
      && EmittedBody(env, Opened(em, b), b.body) == BeforeEnd(env, em, b, i)
  {
    hide Gen, Fields, InnerFields, Inner, Head, HeadSize, BodyOk, Keeps, TargetsOf, Collect, JzField, Close, OpenTarget, Keep, EmittedBody, Opened, Size, Within;
    var k, t, p := Keeps(em.ctls), TargetsOf(em.ctls), |em.code|;
    var l := OpenTarget(b, p);
    var c := Ctl(b.bt, l, if b.If? || b.IfElse? then [JzField(p)] else [], []);
    OpenedIs(em, b);
    EmittedArm(env, Opened(em, b), b.body, c, em.ctls, [Keep(b.bt)] + k, [l] + t);
    InnerOneArm(env, b, p, k, t, l);
  }

  lemma AfterArmKeeps(env: Env, arm: Body, p: nat, k: seq<bool>, ctls: seq<Ctl>)
    requires |k| == |ctls| + 1 && BodyOk(env, arm, |k|)
    ensures Keeps(AfterArm(env, arm, p, k, ctls)) == Keeps(ctls)
    ensures TargetsOf(AfterArm(env, arm, p, k, ctls)) == TargetsOf(ctls)
  {
    hide Fields, BodyOk, Keep;
    var ctls' := AfterArm(env, arm, p, k, ctls);
    forall j | 0 <= j < |ctls| ensures ctls'[j].bt == ctls[j].bt && ctls'[j].target == ctls[j].target {
    }
    KeepsEqual(ctls, ctls');
  }

  /** `else`: the condition's jump is patched to the start of the else-arm. */
  lemma ElsePatched(em2: Em, b: Body, pre: seq<Cell>, g: seq<Cell>, f: seq<nat>, a: seq<nat>, ctls: seq<Ctl>)
    requires b.IfElse?
    requires em2.code == pre + HoleHead(b, |pre|) + g && em2.ctls == [Ctl(b.bt, None, [JzField(|pre|)] + f, a)] + ctls
    ensures var q := |pre| + HeadSize(b) + |g|;
      EmitElse(em2) == Some(Em(pre + Head(b, |pre|, q + ElseSize()) + (g + ElseCode(q, None)),
                               [Ctl(b.bt, None, f + ElseField(Relative, q, 0), a)] + ctls, em2.calls))
  {
    hide Head, HoleHead, JzField, Asm, Enter, Dbg, PatchAll;
    var p := |pre|;
    var q := p + HeadSize(b) + |g|;
    var d, lv := Dbg(ELSE), Asm(LeaveBlock(true));
    HoleHeadSize(b, p);
    assert |em2.code| == q;
    var code := em2.code + d + lv;
    var j := JumpCode(|code|, None);
    var x := pre + HoleHead(b, p);
    Regroup(x, g, d, lv, j);
    assert code + j == x + (g + (d + lv + j));
    PatchOne(Relative, 0, code + j, JzField(p), q + ElseSize());
    PatchHole(pre, b, g + (d + lv + j), q + ElseSize());
    Assoc(pre + Head(b, p, q + ElseSize()), g + (d + lv + j), Enter());
    Assoc(g, d + lv + j, Enter());
    assert em2.ctls[0].rels + [|code| + 1] == [JzField(p)] + (f + [|code| + 1]);
  }

  lemma HoleHeadSize(b: Body, p: nat)
    requires Nested(b)
    ensures |HoleHead(b, p)| == HeadSize(b)
  {
    hide Head, HeadSize, IfTest;
  }

  lemma Regroup<T>(x: seq<T>, g: seq<T>, d: seq<T>, l: seq<T>, j: seq<T>)
    ensures x + g + d + l + j == x + (g + (d + l + j))
  {
  }

  /** InnerFields of an if with an else-arm, taken apart. */
  lemma TwoArmFields(kind: Kind, env: Env, b: Body, p: nat, k: seq<bool>, j: nat)
    requires b.IfElse? && BodyOk(env, b, |k|) && BodyOk(env, b.body, |k| + 1) && BodyOk(env, b.els, |k| + 1)
    ensures var kk, p1 := [Keep(b.bt)] + k, p + HeadSize(b);
      var q := p1 + Size(env, b.body, kk);
      InnerFields(kind, env, b, p, k, j)
      == Fields(kind, env, b.body, p1, kk, j) + ElseField(kind, q, j) + Fields(kind, env, b.els, q + ElseSize() + |Enter()|, kk, j)
  {
    hide Fields, HeadSize, BodyOk, Keep, Size, ElseSize, Enter, ElseField;
    var kk, p1 := [Keep(b.bt)] + k, p + HeadSize(b);
    var q := p1 + Size(env, b.body, kk);
    Assoc(Fields(kind, env, b.body, p1, kk, j), ElseField(kind, q, j), Fields(kind, env, b.els, q + ElseSize() + |Enter()|, kk, j));
  }

  lemma AfterTwoArms(env: Env, b: Body, p: nat, ctls: seq<Ctl>, k: seq<bool>)
    requires b.IfElse? && BodyOk(env, b, |ctls|) && BodyOk(env, b.body, |ctls| + 1) && BodyOk(env, b.els, |ctls| + 1)
    requires k == [Keep(b.bt)] + Keeps(ctls)
    ensures var p1 := p + HeadSize(b);
      var q2 := p1 + Size(env, b.body, k) + ElseSize() + |Enter()|;
      AfterArm(env, b.els, q2, k, AfterArm(env, b.body, p1, k, ctls)) == AfterInner(env, b, p, ctls)
  {
    hide Fields, InnerFields, HeadSize, BodyOk, Keep, Size, ElseSize, Enter, Collect, Keeps;
    var p1 := p + HeadSize(b);
    var q := p1 + Size(env, b.body, k);
    var q2 := q + ElseSize() + |Enter()|;
    var c1 := AfterArm(env, b.body, p1, k, ctls);
    forall j | 0 <= j < |ctls|
      ensures AfterArm(env, b.els, q2, k, c1)[j] == AfterInner(env, b, p, ctls)[j]
    {
      TwoArmFields(Relative, env, b, p, Keeps(ctls), j + 1);
      TwoArmFields(Absolute, env, b, p, Keeps(ctls), j + 1);
      var f, g := Fields(Relative, env, b.body, p1, k, j + 1), Fields(Absolute, env, b.body, p1, k, j + 1);
      assert f + [] == f && g + [] == g;
      CollectTwice(ctls[j], f, g, Fields(Relative, env, b.els, q2, k, j + 1), Fields(Absolute, env, b.els, q2, k, j + 1));
    }
  }

  /** Two arms: the then-arm, `else` and the else-arm lead to the state before `end`. */
  lemma EmittedTwoArms(env: Env, em: Em, b: Body) returns (em3: Em)
    requires b.IfElse? && BodyOk(env, b, |em.ctls|) && BodyOk(env, b.body, |em.ctls| + 1) && BodyOk(env, b.els, |em.ctls| + 1)
    requires |em.ctls| > 0 && |Opened(em, b).ctls| == |em.ctls| + 1
    ensures EmitElse(EmittedBody(env, Opened(em, b), b.body)) == Some(em3)
    ensures |em3.ctls| == |em.ctls| + 1
    ensures EmitEnd(EmittedBody(env, em3, b.els)) == Some(AfterEnd(env, em, b))
  {
    hide Gen, Fields, InnerFields, Inner, Head, HeadSize, BodyOk, Keeps, TargetsOf, JzField, Close, Keep, EmittedBody, Opened,
         ElseCode, HoleHead, ElseField, ElseSize, Enter, AfterArm, AfterInner, EmitElse, Size, EmitEnd, AfterEnd, BeforeEnd;
    var k, t, p := Keeps(em.ctls), TargetsOf(em.ctls), |em.code|;
    var kk, tt, p1 := [Keep(b.bt)] + k, [None] + t, p + HeadSize(b);
    var c := Ctl(b.bt, None, [JzField(p)], []);
    OpenedIs(em, b);
    HoleHeadSize(b, p);
    EmittedArm(env, Opened(em, b), b.body, c, em.ctls, kk, tt);
    var g := Gen(env, b.body, p1, kk, tt, tt);
    var f, a := Fields(Relative, env, b.body, p1, kk, 0), Fields(Absolute, env, b.body, p1, kk, 0);
    assert [] + a == a;
    var ctls1 := AfterArm(env, b.body, p1, kk, em.ctls);
    var em2 := EmittedBody(env, Opened(em, b), b.body);
    ElsePatched(em2, b, em.code, g, f, a, ctls1);
    em3 := EmitElse(em2).value;
    var q := p1 + |g|;
    AfterArmKeeps(env, b.body, p1, kk, em.ctls);
    EmittedArm(env, em3, b.els, Ctl(b.bt, None, f + ElseField(Relative, q, 0), a), ctls1, kk, tt);
    var i := EmittedTwoArmsIs(env, em, b, em3, EmittedBody(env, em3, b.els));
    EmitEndOf(env, em, b, EmittedBody(env, em3, b.els), i);
  }

  lemma OwnCtlTwoArms(env: Env, b: Body, p: nat, k: seq<bool>)
    requires b.IfElse? && BodyOk(env, b, |k|) && BodyOk(env, b.body, |k| + 1) && BodyOk(env, b.els, |k| + 1)
    ensures var kk, p1 := [Keep(b.bt)] + k, p + HeadSize(b);
      var q := p1 + Size(env, b.body, kk);
      var q2 := q + ElseSize() + |Enter()|;
      OwnCtl(env, b, k, p)
      == Collect(Ctl(b.bt, None, Fields(Relative, env, b.body, p1, kk, 0) + ElseField(Relative, q, 0), Fields(Absolute, env, b.body, p1, kk, 0)),
                 Fields(Relative, env, b.els, q2, kk, 0), Fields(Absolute, env, b.els, q2, kk, 0))
  {
    hide Fields, InnerFields, HeadSize, BodyOk, Keep, Size, ElseSize, Enter;
    var kk, p1 := [Keep(b.bt)] + k, p + HeadSize(b);
    var q := p1 + Size(env, b.body, kk);
    var f, a := Fields(Relative, env, b.body, p1, kk, 0), Fields(Absolute, env, b.body, p1, kk, 0);
    TwoArmFields(Relative, env, b, p, k, 0);
    TwoArmFields(Absolute, env, b, p, k, 0);
    assert a + ElseField(Absolute, q, 0) == a;
    CollectTwice(Ctl(b.bt, None, [], []), f + ElseField(Relative, q, 0), a,
                 Fields(Relative, env, b.els, q + ElseSize() + |Enter()|, kk, 0), Fields(Absolute, env, b.els, q + ElseSize() + |Enter()|, kk, 0));
    assert [] + (f + ElseField(Relative, q, 0)) == f + ElseField(Relative, q, 0) && [] + a == a;
  }

  lemma EmittedTwoArmsIs(env: Env, em: Em, b: Body, em3: Em, em4: Em) returns (i: seq<Cell>)
    requires b.IfElse? && BodyOk(env, b, |em.ctls|) && BodyOk(env, b.body, |em.ctls| + 1) && BodyOk(env, b.els, |em.ctls| + 1)
    requires var k, t, p := Keeps(em.ctls), TargetsOf(em.ctls), |em.code|;
      var kk, tt, p1 := [Keep(b.bt)] + k, [None] + t, p + HeadSize(b);
      var g := Gen(env, b.body, p1, kk, tt, tt);
      var f, a := Fields(Relative, env, b.body, p1, kk, 0), Fields(Absolute, env, b.body, p1, kk, 0);
      var q := p1 + |g|;
      var q2 := q + ElseSize() + |Enter()|;
      && em3.code == em.code + Head(b, p, q + ElseSize()) + (g + ElseCode(q, None))
      && em3.calls == em.calls + BodyCalls(b.body)
      && em4 == Em(em3.code + Gen(env, b.els, q2, kk, tt, tt),
                   [Collect(Ctl(b.bt, None, f + ElseField(Relative, q, 0), a),
                            Fields(Relative, env, b.els, q2, kk, 0), Fields(Absolute, env, b.els, q2, kk, 0))]
                   + AfterArm(env, b.els, q2, kk, AfterArm(env, b.body, p1, kk, em.ctls)),
                   em3.calls + BodyCalls(b.els))
    ensures var k, t, p := Keeps(em.ctls), TargetsOf(em.ctls), |em.code|;
      i + Close(Keep(b.bt)) == Inner(env, b, p, k, t, t, None, None) && em4 == BeforeEnd(env, em, b, i)
  {
    hide Gen, Fields, InnerFields, Head, HeadSize, BodyOk, Keeps, TargetsOf, JzField, Close, Keep,
         ElseCode, HoleHead, ElseSize, Enter, AfterArm, AfterInner, Size, OwnCtl, Collect, ElseField;
    var k, t, p := Keeps(em.ctls), TargetsOf(em.ctls), |em.code|;
    var kk, tt, p1 := [Keep(b.bt)] + k, [None] + t, p + HeadSize(b);
    var g := Gen(env, b.body, p1, kk, tt, tt);
    var q := p1 + |g|;
    var g2 := Gen(env, b.els, q + ElseSize() + |Enter()|, kk, tt, tt);
    i := g + (ElseCode(q, None) + g2);
    Assoc(g, ElseCode(q, None), g2);
    Assoc(em.code + Head(b, p, q + ElseSize()), g + ElseCode(q, None), g2);
    Assoc(em.calls, BodyCalls(b.body), BodyCalls(b.els));
    AfterTwoArms(env, b, p, em.ctls, kk);
    OwnCtlTwoArms(env, b, p, k);
    assert OtherOf(env, b, p, k) == q + ElseSize();
    assert i + Close(Keep(b.bt)) == Inner(env, b, p, k, t, t, None, None);
    assert em4 == BeforeEnd(env, em, b, i);
  }

  lemma EmittedDone(env: Env, em: Em)
    ensures EmittedBody(env, em, Done) == em
  {
    hide Keep;
    var ctls' := AfterBody(env, Done, |em.code|, em.ctls);
    forall j | 0 <= j < |em.ctls| ensures ctls'[j] == em.ctls[j] {
      assert em.ctls[j].rels + [] == em.ctls[j].rels && em.ctls[j].abss + [] == em.ctls[j].abss;
    }
    assert ctls' == em.ctls;
    assert em.code + [] == em.code && em.calls + [] == em.calls;
  }

  lemma EmitCons(env: Env, em: Em, op: Opcode, ops: seq<Opcode>, em': Em)
    requires EmitOp(env, em, op) == Some(em')
    ensures EmitAll(env, em, [op] + ops) == EmitAll(env, em', ops)
  {
    hide EmitOp;
    assert ([op] + ops)[1..] == ops;
  }

  lemma FlattenNested(b: Body, rest: seq<Opcode>)
    requires Nested(b)
    ensures Flatten(b) + rest
         == [OpenOp(b)] + (Flatten(b.body)
            + ((if b.IfElse? then [OpElse] + (Flatten(b.els) + [OpEnd]) else [OpEnd]) + (Flatten(b.next) + rest)))
  {
  }

  /** One pass with patching emits exactly the layout: compiling a well-formed body never fails, and
      leaves the code the layout prescribes, the open fields of the enclosing blocks collected. */
  lemma {:induction false} EmitBody(env: Env, em: Em, b: Body, rest: seq<Opcode>)
    requires BodyOk(env, b, |em.ctls|) && |em.ctls| > 0
    ensures EmitAll(env, em, Flatten(b) + rest) == EmitAll(env, EmittedBody(env, em, b), rest)
    decreases b
  {
    hide EmitAll, EmittedBody, EmitAtom, BodyOk, EmittedBody, Opened, EmitEnd, EmitElse, AfterEnd, BeforeEnd, Gen, Inner;
    match b
    case Done =>
      EmittedDone(env, em);
      assert Flatten(b) + rest == rest;
    case Atomic(a, next) =>
      EmittedAtomic(env, em, a, next);
      Assoc([OpAtom(a)], Flatten(next), rest);
      EmitCons(env, em, OpAtom(a), Flatten(next) + rest, EmitAtom(env, em, a).value);
      EmitBody(env, EmitAtom(env, em, a).value, next, rest);
    case _ =>
      BodyOkParts(env, b, |em.ctls|);
      FlattenNested(b, rest);
      var rest1 := Flatten(b.next) + rest;
      var em3 := AfterEnd(env, em, b);
      EmitArms(env, em, b, rest1);
      EmittedNested(env, em, b);
      AfterEndDepth(env, em, b);
      EmitBody(env, em3, b.next, rest);
  }

  lemma AfterEndDepth(env: Env, em: Em, b: Body)
    requires Nested(b) && BodyOk(env, b, |em.ctls|)
    ensures |AfterEnd(env, em, b).ctls| == |em.ctls|
  {
    hide Gen, Inner, Head, BodyOk;
  }

  lemma OpenStep(env: Env, em: Em, b: Body)
    requires Nested(b)
    ensures EmitOp(env, em, OpenOp(b)) == Some(Opened(em, b)) && |Opened(em, b).ctls| == |em.ctls| + 1
  {
    hide Enter, IfTest, Dbg, JzCode, Asm;
  }

  lemma EndOneArm(env: Env, em: Em, b: Body)
    requires Nested(b) && !b.IfElse? && BodyOk(env, b, |em.ctls|) && BodyOk(env, b.body, |em.ctls| + 1) && |em.ctls| > 0
    requires |Opened(em, b).ctls| == |em.ctls| + 1
    ensures EmitEnd(EmittedBody(env, Opened(em, b), b.body)) == Some(AfterEnd(env, em, b))
  {
    hide Gen, Inner, HeadSize, BodyOk, Keeps, TargetsOf, Close, Keep, EmittedBody, Opened, EmitEnd, AfterEnd, BeforeEnd, OpenTarget;
    var k, t, p := Keeps(em.ctls), TargetsOf(em.ctls), |em.code|;
    var l := OpenTarget(b, p);
    EmittedOneArm(env, em, b);
    EmitEndOf(env, em, b, EmittedBody(env, Opened(em, b), b.body), Gen(env, b.body, p + HeadSize(b), [Keep(b.bt)] + k, [l] + t, [l] + t));
  }

  lemma EmitArms(env: Env, em: Em, b: Body, rest: seq<Opcode>)
    requires Nested(b) && BodyOk(env, b, |em.ctls|) && |em.ctls| > 0
    ensures EmitAll(env, em, [OpenOp(b)] + (Flatten(b.body)
              + ((if b.IfElse? then [OpElse] + (Flatten(b.els) + [OpEnd]) else [OpEnd]) + rest)))
         == EmitAll(env, AfterEnd(env, em, b), rest)
    decreases b, 0
  {
    hide EmitAll, EmittedBody, BodyOk, EmitEnd, EmitElse, AfterEnd, BeforeEnd, Gen, Inner, HeadSize, Close, Opened;
    BodyOkParts(env, b, |em.ctls|);
    var em1 := Opened(em, b);
    var tail := (if b.IfElse? then [OpElse] + (Flatten(b.els) + [OpEnd]) else [OpEnd]) + rest;
    OpenStep(env, em, b);
    EmitCons(env, em, OpenOp(b), Flatten(b.body) + tail, em1);
    EmitBody(env, em1, b.body, tail);
    var em2 := EmittedBody(env, em1, b.body);
    if b.IfElse? {
      var em3 := EmittedTwoArms(env, em, b);
      Assoc([OpElse], Flatten(b.els) + [OpEnd], rest);
      Assoc(Flatten(b.els), [OpEnd], rest);
      EmitCons(env, em2, OpElse, Flatten(b.els) + ([OpEnd] + rest), em3);
      EmitBody(env, em3, b.els, [OpEnd] + rest);
      EmitCons(env, EmittedBody(env, em3, b.els), OpEnd, rest, AfterEnd(env, em, b));
    } else {
      EndOneArm(env, em, b);
      EmitCons(env, em2, OpEnd, rest, AfterEnd(env, em, b));
    }
  }

  // ---------- a whole function ----------

  function StartFn(env: Env, cparams: nat, code: seq<Cell>): Em
    requires cparams <= env.clocals
  {
    Em(code + Prologue(env, cparams), [Ctl(NONE_TYPE, None, [], [])], [])
  }

  lemma PatchFn(env: Env, b: Body, p: nat, pre: seq<Cell>, e: nat)
    requires BodyOk(env, b, 1) && |pre| == p
    ensures PatchAll(Absolute, 0,
              PatchAll(Relative, 0, pre + Gen(env, b, p, [true], [None], [None]) + Close(true), Fields(Relative, env, b, p, [true], 0), e),
              Fields(Absolute, env, b, p, [true], 0), e)
         == pre + Gen(env, b, p, [true], [Some(e)], [Some(e)]) + Close(true)
  {
    hide Gen, Fields, PatchAll, Close, BodyOk, Size;
    var k := [true];
    var open: Targets, known: Targets := [None], [Some(e)];
    assert Resolve(true, open, 0, e) == known && Resolve(false, open, 0, e) == open && Resolve(false, known, 0, e) == known;
    var g0, g1 := Gen(env, b, p, k, [None], [None]), Gen(env, b, p, k, [Some(e)], [None]);
    FieldsWithin(Relative, env, b, p, k, 0);
    FieldsWithin(Absolute, env, b, p, k, 0);
    PatchLeft(Relative, 0, pre + g0, Close(true), Fields(Relative, env, b, p, k, 0), e);
    PatchRight(Relative, 0, pre, g0, Fields(Relative, env, b, p, k, 0), e);
    PatchGen(Relative, env, b, p, k, [None], [None], 0, e);
    PatchLeft(Absolute, 0, pre + g1, Close(true), Fields(Absolute, env, b, p, k, 0), e);
    PatchRight(Absolute, 0, pre, g1, Fields(Absolute, env, b, p, k, 0), e);
    PatchGen(Absolute, env, b, p, k, [Some(e)], [None], 0, e);
  }

  lemma EmittedFn(env: Env, cparams: nat, b: Body, code: seq<Cell>)
    requires cparams <= env.clocals && BodyOk(env, b, 1)
    ensures var pre := code + Prologue(env, cparams);
      EmittedBody(env, StartFn(env, cparams, code), b)
      == Em(pre + Gen(env, b, |pre|, [true], [None], [None]),
            [Ctl(NONE_TYPE, None, Fields(Relative, env, b, |pre|, [true], 0), Fields(Absolute, env, b, |pre|, [true], 0))], BodyCalls(b))
  {
    hide Gen, Fields, BodyOk, BodyCalls, Prologue;
    var em := StartFn(env, cparams, code);
    assert Keeps(em.ctls) == [true] && TargetsOf(em.ctls) == [None];
    var f, a := Fields(Relative, env, b, |em.code|, [true], 0), Fields(Absolute, env, b, |em.code|, [true], 0);
    assert [] + f == f && [] + a == a && [] + BodyCalls(b) == BodyCalls(b);
  }

  lemma EndFn(env: Env, cparams: nat, b: Body, code: seq<Cell>)
    requires cparams <= env.clocals && BodyOk(env, b, 1)
    ensures var em := EmitEnd(EmittedBody(env, StartFn(env, cparams, code), b));
      em.Some? && em.value.code + Cells(J(Ret)) == code + GenFn(env, cparams, b, |code|) && em.value.ctls == [] && em.value.calls == BodyCalls(b)
  {
    hide Gen, Fields, BodyOk, BodyCalls, Prologue, PatchAll, Size, EmittedBody, StartFn, Close, Cells;
    var pre := code + Prologue(env, cparams);
    EmittedFn(env, cparams, b, code);
    var e := FnEnd(env, cparams, b, |code|);
    PatchFn(env, b, |pre|, pre, e);
    assert |pre + Gen(env, b, |pre|, [true], [None], [None]) + Close(true)| == e;
    var g := Gen(env, b, |pre|, [true], [Some(e)], [Some(e)]);
    assert code + (Prologue(env, cparams) + g + Close(true) + Cells(J(Ret))) == pre + g + Close(true) + Cells(J(Ret));
  }

  /** Compiling a whole well-formed function body appends exactly its layout, leaves no open block
      and no fixup, and records its calls in order. */
  lemma EmitFunction(env: Env, cparams: nat, b: Body, code: seq<Cell>)
    requires cparams <= env.clocals && BodyOk(env, b, 1)
    ensures var em := EmitAll(env, StartFn(env, cparams, code), Flatten(b) + [OpEnd]);
      em.Some? && em.value.code + Cells(J(Ret)) == code + GenFn(env, cparams, b, |code|) && em.value.ctls == [] && em.value.calls == BodyCalls(b)
  {
    hide GenFn, BodyOk, EmittedBody, EmitEnd, BodyCalls, Cells;
    var em0 := StartFn(env, cparams, code);
    EmitBody(env, em0, b, [OpEnd]);
    EndFn(env, cparams, b, code);
    var em2 := EmittedBody(env, em0, b);
    EmitCons(env, em2, OpEnd, [], EmitEnd(em2).value);
    assert [OpEnd] + [] == [OpEnd];
  }
}
