/** Patching: which fields of a body's code refer to a label, and what writing the label's address
    into all of them makes of the code. */
module Fixups {
  import opened Words
  import opened Wasm
  import opened X86
  import opened Codegen
  import opened Layout

  /** Fields are relative (rel32 of a jump) or absolute (an address in a branch table). */
  datatype Kind = Relative | Absolute

  type Targets = seq<Option<nat>>

  function Patched(kind: Kind, a: nat, t: nat): Cell {
    if kind.Relative? then Rel32(t - (a + 4)) else Ptr(t)
  }

  /** Writes t into the field at address a of the code segment that starts at `base`. */
  function Patch(kind: Kind, base: nat, code: seq<Cell>, a: nat, t: nat): (r: seq<Cell>)
    ensures |r| == |code|
  {
    if base <= a < base + |code| then code[a - base := Patched(kind, a, t)] else code
  }

  function PatchAll(kind: Kind, base: nat, code: seq<Cell>, fields: seq<nat>, t: nat): (r: seq<Cell>)
    ensures |r| == |code|
    decreases |fields|
  {
    if |fields| == 0 then code else PatchAll(kind, base, Patch(kind, base, code, fields[0], t), fields[1..], t)
  }

  predicate Within(fields: seq<nat>, lo: nat, hi: nat) {
    forall i :: 0 <= i < |fields| ==> lo <= fields[i] < hi
  }

  lemma {:induction false} PatchLeft(kind: Kind, base: nat, a: seq<Cell>, b: seq<Cell>, fields: seq<nat>, t: nat)
    requires Within(fields, base, base + |a|)
    ensures PatchAll(kind, base, a + b, fields, t) == PatchAll(kind, base, a, fields, t) + b
    decreases |fields|
  {
    if |fields| > 0 {
      assert Patch(kind, base, a + b, fields[0], t) == Patch(kind, base, a, fields[0], t) + b;
      PatchLeft(kind, base, Patch(kind, base, a, fields[0], t), b, fields[1..], t);
    }
  }

  lemma {:induction false} PatchRight(kind: Kind, base: nat, a: seq<Cell>, b: seq<Cell>, fields: seq<nat>, t: nat)
    requires Within(fields, base + |a|, base + |a| + |b|)
    ensures PatchAll(kind, base, a + b, fields, t) == a + PatchAll(kind, base + |a|, b, fields, t)
    decreases |fields|
  {
    if |fields| > 0 {
      assert Patch(kind, base, a + b, fields[0], t) == a + Patch(kind, base + |a|, b, fields[0], t);
      PatchRight(kind, base, a, Patch(kind, base + |a|, b, fields[0], t), fields[1..], t);
    }
  }

  lemma {:induction false} PatchAppend(kind: Kind, base: nat, code: seq<Cell>, f: seq<nat>, g: seq<nat>, t: nat)
    ensures PatchAll(kind, base, code, f + g, t) == PatchAll(kind, base, PatchAll(kind, base, code, f, t), g, t)
    decreases |f|
  {
    if |f| == 0 {
      assert f + g == g;
    } else {
      assert (f + g)[1..] == f[1..] + g;
      PatchAppend(kind, base, Patch(kind, base, code, f[0], t), f[1..], g, t);
    }
  }

  /** Patching two adjacent segments, each with its own fields. */
  lemma PatchBoth(kind: Kind, base: nat, a: seq<Cell>, b: seq<Cell>, f: seq<nat>, g: seq<nat>, t: nat)
    requires Within(f, base, base + |a|) && Within(g, base + |a|, base + |a| + |b|)
    ensures PatchAll(kind, base, a + b, f + g, t)
         == PatchAll(kind, base, a, f, t) + PatchAll(kind, base + |a|, b, g, t)
  {
    PatchAppend(kind, base, a + b, f, g, t);
    PatchLeft(kind, base, a, b, f, t);
    PatchRight(kind, base, PatchAll(kind, base, a, f, t), b, g, t);
  }

  // ---------- the fields that refer to a label ----------

  function When(c: bool, field: nat): (r: seq<nat>) { if c then [field] else [] }

  function EntryFields(ts: seq<nat>, q: nat, j: nat): (r: seq<nat>)
    ensures Within(r, q, q + 16 * |ts|)
  {
    if |ts| == 0 then [] else When(ts[0] == j, q + 8) + EntryFields(ts[1..], q + 16, j)
  }

  /** Fields of an instruction at p that refer to label j, in the order they are emitted. */
  function AtomFields(kind: Kind, env: Env, a: Atom, p: nat, keeps: seq<bool>, j: nat): (r: seq<nat>)
    requires AtomOk(env, a, |keeps|)
    ensures Within(r, p, p + AtomSize(env, a, keeps))
  {
    match a
    case Br(d) => When(kind.Relative? && d == j, p + LeaveSize(d, keeps[d]) + 1)
    case BrIf(d) => When(kind.Relative? && d == j, p + |Asm(BrIfTest())| + 6 + LeaveSize(d, keeps[d]) + 1)
    case BrTable(ts, d) =>
      if kind.Relative? then [] else When(d == j, p + 29) + EntryFields(ts, p + 37, j)
    case _ => []
  }

  /** The jump over an else-arm goes to the end of the block, whose label is 0 inside it. */
  function ElseField(kind: Kind, q: nat, j: nat): (r: seq<nat>)
    ensures Within(r, q, q + ElseSize() + |Enter()|)
  {
    When(kind.Relative? && j == 0, q + ElseSize() - 4)
  }

  /** Fields between b's head and the end of its block; label 0 is b's own. */
  function InnerFields(kind: Kind, env: Env, b: Body, p: nat, keeps: seq<bool>, j: nat): seq<nat>
    requires Nested(b) && BodyOk(env, b, |keeps|)
    decreases b, 0
  {
    var k := [Keep(b.bt)] + keeps;
    var q := p + HeadSize(b) + Size(env, b.body, k);
    Fields(kind, env, b.body, p + HeadSize(b), k, j)
    + (if b.IfElse?
       then ElseField(kind, q, j) + Fields(kind, env, b.els, q + ElseSize() + |Enter()|, k, j)
       else [])
  }

  function Fields(kind: Kind, env: Env, b: Body, p: nat, keeps: seq<bool>, j: nat): seq<nat>
    requires BodyOk(env, b, |keeps|)
    decreases b, 1
  {
    match b
    case Done => []
    case Atomic(a, next) =>
      AtomFields(kind, env, a, p + 7, keeps, j) + Fields(kind, env, next, p + 7 + AtomSize(env, a, keeps), keeps, j)
    case _ =>
      InnerFields(kind, env, b, p, keeps, j + 1) + Fields(kind, env, b.next, EndOf(env, b, p, keeps), keeps, j)
  }

  lemma WithinNone(lo: nat, hi: nat)
    ensures Within([], lo, hi)
  {
  }

  lemma WithinBoth(f: seq<nat>, g: seq<nat>, lo: nat, mid: nat, hi: nat)
    requires Within(f, lo, mid) && Within(g, mid, hi) && lo <= mid <= hi
    ensures Within(f + g, lo, hi)
  {
  }

  lemma WithinFrom(f: seq<nat>, lo: nat, lo': nat, hi: nat)
    requires Within(f, lo', hi) && lo <= lo'
    ensures Within(f, lo, hi)
  {
  }

  lemma {:induction false} FieldsWithin(kind: Kind, env: Env, b: Body, p: nat, keeps: seq<bool>, j: nat)
    requires BodyOk(env, b, |keeps|)
    ensures Within(Fields(kind, env, b, p, keeps, j), p, p + Size(env, b, keeps))
    decreases b, 1
  {
    hide AtomOk, AtomSize, AtomFields, InnerFields, InnerSize, HeadSize, EndOf, Within;
    match b
    case Done =>
      WithinNone(p, p);
    case Atomic(a, next) =>
      var q := p + 7 + AtomSize(env, a, keeps);
      FieldsWithin(kind, env, next, q, keeps, j);
      WithinFrom(AtomFields(kind, env, a, p + 7, keeps, j), p, p + 7, q);
      WithinBoth(AtomFields(kind, env, a, p + 7, keeps, j), Fields(kind, env, next, q, keeps, j), p, q, p + Size(env, b, keeps));
    case _ =>
      var q := EndOf(env, b, p, keeps);
      EndOfSize(env, b, p, keeps);
      InnerFieldsWithin(kind, env, b, p, keeps, j + 1);
      FieldsWithin(kind, env, b.next, q, keeps, j);
      WithinFrom(InnerFields(kind, env, b, p, keeps, j + 1), p, p + HeadSize(b), q);
      WithinBoth(InnerFields(kind, env, b, p, keeps, j + 1), Fields(kind, env, b.next, q, keeps, j), p, q, p + Size(env, b, keeps));
  }

  lemma InnerFieldsWithin(kind: Kind, env: Env, b: Body, p: nat, keeps: seq<bool>, j: nat)
    requires Nested(b) && BodyOk(env, b, |keeps|)
    ensures Within(InnerFields(kind, env, b, p, keeps, j), p + HeadSize(b), p + HeadSize(b) + InnerSize(env, b, keeps))
    decreases b, 0
  {
    hide Fields, HeadSize, ElseSize, CloseSize, Enter, Keep, Size, BodyOk, ElseField;
    BodyOkParts(env, b, |keeps|);
    var k := [Keep(b.bt)] + keeps;
    var p1 := p + HeadSize(b);
    var q := p1 + Size(env, b.body, k);
    FieldsWithin(kind, env, b.body, p1, k, j);
    if b.IfElse? {
      FieldsWithin(kind, env, b.els, q + ElseSize() + |Enter()|, k, j);
    }
  }

  lemma FieldsAtomic(kind: Kind, env: Env, a: Atom, next: Body, p: nat, keeps: seq<bool>, j: nat)
    requires BodyOk(env, Atomic(a, next), |keeps|) && AtomOk(env, a, |keeps|) && BodyOk(env, next, |keeps|)
    ensures Fields(kind, env, Atomic(a, next), p, keeps, j)
         == AtomFields(kind, env, a, p + 7, keeps, j) + Fields(kind, env, next, p + 7 + AtomSize(env, a, keeps), keeps, j)
  {
    hide AtomOk, AtomSize, AtomFields;
  }

  lemma FieldsNested(kind: Kind, env: Env, b: Body, p: nat, keeps: seq<bool>, j: nat)
    requires Nested(b) && BodyOk(env, b, |keeps|)
    ensures BodyOk(env, b.next, |keeps|)
    ensures Fields(kind, env, b, p, keeps, j)
         == InnerFields(kind, env, b, p, keeps, j + 1) + Fields(kind, env, b.next, EndOf(env, b, p, keeps), keeps, j)
  {
    hide Size, HeadSize, EndOf, InnerSize, InnerFields, AtomOk, Within;
  }

  lemma EndOfSize(env: Env, b: Body, p: nat, keeps: seq<bool>)
    requires Nested(b) && BodyOk(env, b, |keeps|)
    ensures EndOf(env, b, p, keeps) == p + HeadSize(b) + InnerSize(env, b, keeps)
  {
    hide BodyOk, HeadSize, InnerSize;
  }

  // ---------- patching them ----------

  function Resolve(yes: bool, ts: Targets, j: nat, t: nat): (r: Targets)
    requires j < |ts|
    ensures |r| == |ts|
  {
    if yes then ts[j := Some(t)] else ts
  }

  predicate Unresolved(kind: Kind, rt: Targets, at: Targets, j: nat)
    requires |rt| == |at|
  {
    j < |rt| && if kind.Relative? then rt[j].None? else at[j].None?
  }

  lemma PatchOne(kind: Kind, base: nat, code: seq<Cell>, a: nat, t: nat)
    ensures PatchAll(kind, base, code, [a], t) == Patch(kind, base, code, a, t)
  {
  }

  lemma PatchNone(kind: Kind, base: nat, code: seq<Cell>, t: nat)
    ensures PatchAll(kind, base, code, [], t) == code
  {
  }

  lemma PatchJump(q: nat, t: nat)
    ensures PatchAll(Relative, q, JumpCode(q, None), [q + 1], t) == JumpCode(q, Some(t))
  {
    PatchOne(Relative, q, JumpCode(q, None), q + 1, t);
  }

  lemma PatchJz(q: nat, d: int, t: nat)
    ensures PatchAll(Relative, q, JzCode(d), [q + 2], t) == JzCode(t - (q + 6))
  {
    PatchOne(Relative, q, JzCode(d), q + 2, t);
  }

  lemma PatchEntry(q: nat, d: nat, at: Targets, j: nat, t: nat)
    requires d < |at| && j < |at| && at[j].None?
    ensures PatchAll(Absolute, q, Entry(d, at[d]), When(d == j, q + 8), t) == Entry(d, at[j := Some(t)][d])
  {
    if d == j { PatchOne(Absolute, q, Entry(d, None), q + 8, t); }
  }

  lemma {:induction false} PatchEntries(ts: seq<nat>, q: nat, at: Targets, j: nat, t: nat)
    requires DepthsOk(ts, |at|) && j < |at| && at[j].None?
    ensures PatchAll(Absolute, q, Entries(ts, at), EntryFields(ts, q, j), t) == Entries(ts, at[j := Some(t)])
  {
    if |ts| > 0 {
      PatchBoth(Absolute, q, Entry(ts[0], at[ts[0]]), Entries(ts[1..], at), When(ts[0] == j, q + 8), EntryFields(ts[1..], q + 16, j), t);
      PatchEntry(q, ts[0], at, j, t);
      PatchEntries(ts[1..], q + 16, at, j, t);
    }
  }

  lemma PatchTable(env: Env, ts: seq<U32>, d: U32, p: nat, keeps: seq<bool>, rt: Targets, at: Targets, j: nat, t: nat)
    requires AtomOk(env, BrTable(ts, d), |keeps|) && |rt| == |keeps| == |at| && j < |at| && at[j].None?
    ensures PatchAll(Absolute, p, GenAtom(env, BrTable(ts, d), p, keeps, rt, at),
                     AtomFields(Absolute, env, BrTable(ts, d), p, keeps, j), t)
         == GenAtom(env, BrTable(ts, d), p, keeps, rt, at[j := Some(t)])
  {
    var h, e, r := TableHead(env, p, |ts|, keeps[d]), Entry(d, at[d]), Entries(ts, at);
    var f, g := When(d == j, p + 29), EntryFields(ts, p + 37, j);
    PatchBoth(Absolute, p, h + e, r, f, g, t);
    PatchRight(Absolute, p, h, e, f, t);
    PatchEntry(p + 21, d, at, j, t);
    PatchEntries(ts, p + 37, at, j, t);
  }

  lemma PatchJumpAfter(h: seq<Cell>, p: nat, t: nat)
    ensures PatchAll(Relative, p, h + JumpCode(p + |h|, None), [p + |h| + 1], t) == h + JumpCode(p + |h|, Some(t))
  {
    PatchRight(Relative, p, h, JumpCode(p + |h|, None), [p + |h| + 1], t);
    PatchJump(p + |h|, t);
  }

  lemma PatchAtomRel(env: Env, a: Atom, p: nat, keeps: seq<bool>, rt: Targets, at: Targets, j: nat, t: nat)
    requires AtomOk(env, a, |keeps|) && |rt| == |keeps| == |at| && j < |rt| && rt[j].None?
    ensures PatchAll(Relative, p, GenAtom(env, a, p, keeps, rt, at), AtomFields(Relative, env, a, p, keeps, j), t)
         == GenAtom(env, a, p, keeps, rt[j := Some(t)], at)
  {
    hide PatchAll, Asm, JumpCode, JzCode, LeaveCode, OpCode, BrIfTest, CallSetup, CallCleanup, TableHead, Entry, Entries;
    if a.Br? && a.depth == j {
      PatchJumpAfter(Asm(LeaveCode(j, keeps[j])), p, t);
    } else if a.BrIf? && a.depth == j {
      PatchBrIf(env, p, keeps, rt, at, j, t);
    } else {
      PatchNone(Relative, p, GenAtom(env, a, p, keeps, rt, at), t);
    }
  }

  lemma PatchBrIf(env: Env, p: nat, keeps: seq<bool>, rt: Targets, at: Targets, j: U32, t: nat)
    requires |rt| == |keeps| == |at| && j < |rt| && rt[j].None?
    ensures PatchAll(Relative, p, GenAtom(env, BrIf(j), p, keeps, rt, at), AtomFields(Relative, env, BrIf(j), p, keeps, j), t)
         == GenAtom(env, BrIf(j), p, keeps, rt[j := Some(t)], at)
  {
    hide JumpCode, JzCode, LeaveCode, BrIfTest, PatchAll, Asm, OpCode, CallSetup, CallCleanup, TableHead, Entry, Entries;
    var n := LeaveSize(j, keeps[j]);
    PatchJumpAfter(Asm(BrIfTest()) + JzCode(n + 5) + Asm(LeaveCode(j, keeps[j])), p, t);
  }

  lemma PatchAtom(kind: Kind, env: Env, a: Atom, p: nat, keeps: seq<bool>, rt: Targets, at: Targets, j: nat, t: nat)
    requires AtomOk(env, a, |keeps|) && |rt| == |keeps| == |at| && Unresolved(kind, rt, at, j)
    ensures PatchAll(kind, p, GenAtom(env, a, p, keeps, rt, at), AtomFields(kind, env, a, p, keeps, j), t)
         == GenAtom(env, a, p, keeps, Resolve(kind.Relative?, rt, j, t), Resolve(kind.Absolute?, at, j, t))
  {
    if kind.Relative? {
      PatchAtomRel(env, a, p, keeps, rt, at, j, t);
    } else if a.BrTable? {
      PatchTable(env, a.targets, a.default, p, keeps, rt, at, j, t);
    }
  }

  lemma PatchElse(q: nat, lr: Option<nat>, j: nat, kind: Kind, t: nat)
    requires kind.Relative? && j == 0 ==> lr.None?
    ensures PatchAll(kind, q, ElseCode(q, lr), ElseField(kind, q, j), t)
         == ElseCode(q, if kind.Relative? && j == 0 then Some(t) else lr)
  {
    if kind.Relative? && j == 0 {
      var h := Dbg(ELSE) + Asm(LeaveBlock(true));
      var u := q + |h|;
      PatchLeft(Relative, q, h + JumpCode(u, None), Enter(), [u + 1], t);
      PatchRight(Relative, q, h, JumpCode(u, None), [u + 1], t);
      PatchJump(u, t);
    }
  }

  /** Patching code that follows a header. */
  lemma PatchAfterHead(kind: Kind, base: nat, h: seq<Cell>, m: seq<Cell>, r: seq<Cell>, f: seq<nat>, g: seq<nat>, t: nat)
    requires Within(f, base + |h|, base + |h| + |m|) && Within(g, base + |h| + |m|, base + |h| + |m| + |r|)
    ensures PatchAll(kind, base, h + m + r, f + g, t)
         == h + PatchAll(kind, base + |h|, m, f, t) + PatchAll(kind, base + |h| + |m|, r, g, t)
  {
    PatchBoth(kind, base, h + m, r, f, g, t);
    PatchRight(kind, base, h, m, f, t);
  }

  /** Patching every field that refers to an enclosing label gives the code generated with that
      label's address known. */
  lemma {:induction false} PatchGen(kind: Kind, env: Env, b: Body, p: nat, keeps: seq<bool>, rt: Targets, at: Targets, j: nat, t: nat)
    requires BodyOk(env, b, |keeps|) && |rt| == |keeps| == |at| && Unresolved(kind, rt, at, j)
    ensures PatchAll(kind, p, Gen(env, b, p, keeps, rt, at), Fields(kind, env, b, p, keeps, j), t)
         == Gen(env, b, p, keeps, Resolve(kind.Relative?, rt, j, t), Resolve(kind.Absolute?, at, j, t))
    decreases b, 2
  {
    hide GenAtom, AtomSize, AtomFields, AtomByte, AtomOk, Size, InnerSize, Inner, InnerFields, Resolve, PatchAll, Within;
    match b
    case Done =>
    case Atomic(a, next) =>
      var q := p + 7 + AtomSize(env, a, keeps);
      FieldsWithin(kind, env, next, q, keeps, j);
      PatchAfterHead(kind, p, Dbg(AtomByte(a)), GenAtom(env, a, p + 7, keeps, rt, at), Gen(env, next, q, keeps, rt, at),
                     AtomFields(kind, env, a, p + 7, keeps, j), Fields(kind, env, next, q, keeps, j), t);
      PatchAtom(kind, env, a, p + 7, keeps, rt, at, j, t);
      PatchGen(kind, env, next, q, keeps, rt, at, j, t);
    case _ => PatchNested(kind, env, b, p, keeps, rt, at, j, t);
  }

  lemma PatchNested(kind: Kind, env: Env, b: Body, p: nat, keeps: seq<bool>, rt: Targets, at: Targets, j: nat, t: nat)
    requires Nested(b) && BodyOk(env, b, |keeps|) && |rt| == |keeps| == |at| && Unresolved(kind, rt, at, j)
    ensures PatchAll(kind, p, Gen(env, b, p, keeps, rt, at), Fields(kind, env, b, p, keeps, j), t)
         == Gen(env, b, p, keeps, Resolve(kind.Relative?, rt, j, t), Resolve(kind.Absolute?, at, j, t))
    decreases b, 1
  {
    hide Gen, Fields, HeadSize, Head, LabelOf, OtherOf, EndOf, Size, InnerSize, Inner, InnerFields, PatchAll, AtomOk;
    var l, q := Some(LabelOf(env, b, p, keeps)), EndOf(env, b, p, keeps);
    var rt', at' := Resolve(kind.Relative?, rt, j, t), Resolve(kind.Absolute?, at, j, t);
    GenNested(env, b, p, keeps, rt, at, l);
    GenNested(env, b, p, keeps, rt', at', l);
    FieldsNested(kind, env, b, p, keeps, j);
    EndOfSize(env, b, p, keeps);
    InnerFieldsWithin(kind, env, b, p, keeps, j + 1);
    FieldsWithin(kind, env, b.next, q, keeps, j);
    PatchAfterHead(kind, p, Head(b, p, OtherOf(env, b, p, keeps)), Inner(env, b, p, keeps, rt, at, l, l),
                   Gen(env, b.next, q, keeps, rt, at),
                   InnerFields(kind, env, b, p, keeps, j + 1), Fields(kind, env, b.next, q, keeps, j), t);
    PatchInner(kind, env, b, p, keeps, rt, at, l, l, j + 1, t);
    PatchGen(kind, env, b.next, q, keeps, rt, at, j, t);
  }

  /** The same for the code inside a block; label 0 is the block's own. */
  lemma PatchInner(kind: Kind, env: Env, b: Body, p: nat, keeps: seq<bool>, rt: Targets, at: Targets,
                   lr: Option<nat>, la: Option<nat>, j: nat, t: nat)
    requires Nested(b) && BodyOk(env, b, |keeps|) && |rt| == |keeps| == |at|
    requires Unresolved(kind, [lr] + rt, [la] + at, j)
    ensures PatchAll(kind, p + HeadSize(b), Inner(env, b, p, keeps, rt, at, lr, la), InnerFields(kind, env, b, p, keeps, j), t)
         == Inner(env, b, p, keeps,
                  if j > 0 then Resolve(kind.Relative?, rt, j - 1, t) else rt,
                  if j > 0 then Resolve(kind.Absolute?, at, j - 1, t) else at,
                  if j == 0 && kind.Relative? then Some(t) else lr,
                  if j == 0 && kind.Absolute? then Some(t) else la)
    decreases b, 0
  {
    hide Gen, Fields, HeadSize, Close, ElseCode, ElseSize, Enter, Size, InnerSize, PatchAll, Within, EndOf, Inner, InnerFields, BodyOk, Resolve;
    var k, r, a, p1 := [Keep(b.bt)] + keeps, [lr] + rt, [la] + at, p + HeadSize(b);
    var rt', at' := if j > 0 then Resolve(kind.Relative?, rt, j - 1, t) else rt, if j > 0 then Resolve(kind.Absolute?, at, j - 1, t) else at;
    var lr', la' := if j == 0 && kind.Relative? then Some(t) else lr, if j == 0 && kind.Absolute? then Some(t) else la;
    ResolveCons(kind.Relative?, lr, rt, j, t);
    ResolveCons(kind.Absolute?, la, at, j, t);
    BodyOkParts(env, b, |keeps|);
    PatchGen(kind, env, b.body, p1, k, r, a, j, t);
    InnerParts(env, b, p, keeps, rt, at, lr, la);
    InnerParts(env, b, p, keeps, rt', at', lr', la');
    InnerFieldParts(kind, env, b, p, keeps, j);
    var g, f := Gen(env, b.body, p1, k, r, a), Fields(kind, env, b.body, p1, k, j);
    FieldsWithin(kind, env, b.body, p1, k, j);
    if b.IfElse? {
      var q := p1 + Size(env, b.body, k);
      var q2 := q + ElseSize() + |Enter()|;
      FieldsWithin(kind, env, b.els, q2, k, j);
      PatchGen(kind, env, b.els, q2, k, r, a, j, t);
      PatchElse(q, lr, j, kind, t);
      PatchArms(kind, p1, g, ElseCode(q, lr), Gen(env, b.els, q2, k, r, a), Close(Keep(b.bt)),
                f, ElseField(kind, q, j), Fields(kind, env, b.els, q2, k, j), t);
    } else {
      PatchOnlyArm(kind, p1, g, Close(Keep(b.bt)), f, t);
    }
  }

  lemma InnerParts(env: Env, b: Body, p: nat, keeps: seq<bool>, rt: Targets, at: Targets, lr: Option<nat>, la: Option<nat>)
    requires Nested(b) && BodyOk(env, b, |keeps|) && |rt| == |keeps| == |at|
    requires BodyOk(env, b.body, |keeps| + 1) && (b.IfElse? ==> BodyOk(env, b.els, |keeps| + 1))
    ensures var k, r, a := [Keep(b.bt)] + keeps, [lr] + rt, [la] + at;
      var p1 := p + HeadSize(b);
      var q := p1 + Size(env, b.body, k);
      var e := if b.IfElse? then ElseCode(q, lr) + Gen(env, b.els, q + ElseSize() + |Enter()|, k, r, a) else [];
      Inner(env, b, p, keeps, rt, at, lr, la) == Gen(env, b.body, p1, k, r, a) + e + Close(Keep(b.bt))
  {
    hide Gen, HeadSize, Close, ElseCode, ElseSize, Enter, Size, InnerSize, BodyOk, Keep;
  }

  lemma InnerFieldParts(kind: Kind, env: Env, b: Body, p: nat, keeps: seq<bool>, j: nat)
    requires Nested(b) && BodyOk(env, b, |keeps|)
    requires BodyOk(env, b.body, |keeps| + 1) && (b.IfElse? ==> BodyOk(env, b.els, |keeps| + 1))
    ensures var k, p1 := [Keep(b.bt)] + keeps, p + HeadSize(b);
      var q := p1 + Size(env, b.body, k);
      var f := if b.IfElse? then ElseField(kind, q, j) + Fields(kind, env, b.els, q + ElseSize() + |Enter()|, k, j) else [];
      InnerFields(kind, env, b, p, keeps, j) == Fields(kind, env, b.body, p1, k, j) + f
  {
    hide Fields, HeadSize, ElseSize, Enter, Size, InnerSize, Within, BodyOk, ElseField, Keep;
  }

  lemma ResolveCons(yes: bool, l: Option<nat>, ts: Targets, j: nat, t: nat)
    requires j <= |ts|
    ensures Resolve(yes, [l] + ts, j, t)
         == [if yes && j == 0 then Some(t) else l] + if j > 0 then Resolve(yes, ts, j - 1, t) else ts
  {
  }

  lemma PatchArms(kind: Kind, base: nat, g: seq<Cell>, e: seq<Cell>, g2: seq<Cell>, z: seq<Cell>,
                  f: seq<nat>, ef: seq<nat>, f2: seq<nat>, t: nat)
    requires Within(f, base, base + |g|) && Within(ef, base + |g|, base + |g| + |e|)
    requires Within(f2, base + |g| + |e|, base + |g| + |e| + |g2|)
    ensures PatchAll(kind, base, g + (e + g2) + z, f + (ef + f2), t)
         == PatchAll(kind, base, g, f, t)
            + (PatchAll(kind, base + |g|, e, ef, t) + PatchAll(kind, base + |g| + |e|, g2, f2, t)) + z
  {
    hide PatchAll;
    PatchBoth(kind, base + |g|, e, g2, ef, f2, t);
    PatchBoth(kind, base, g, e + g2, f, ef + f2, t);
    PatchLeft(kind, base, g + (e + g2), z, f + (ef + f2), t);
  }

  lemma PatchOnlyArm(kind: Kind, base: nat, g: seq<Cell>, z: seq<Cell>, f: seq<nat>, t: nat)
    requires Within(f, base, base + |g|)
    ensures PatchAll(kind, base, g + [] + z, f + [], t) == PatchAll(kind, base, g, f, t) + [] + z
  {
    assert g + [] == g && f + [] == f;
    PatchLeft(kind, base, g, z, f, t);
  }
}
