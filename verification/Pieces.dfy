/** Where the pieces of a body's code are in the plane. */
module Pieces {
  import opened Wasm
  import opened X86
  import opened Codegen
  import opened Layout
  import opened ControlSim
  import opened TableSim

  /** The code of b is in the plane at p, its labels leading to tgts. */
  ghost predicate Laid(plane: seq<Cell>, env: Env, b: Body, p: int, keeps: seq<bool>, tgts: seq<nat>)
    requires |tgts| == |keeps|
  {
    p >= 0 && BodyOk(env, b, |keeps|) && At(plane, p, Gen(env, b, p, keeps, Somes(tgts), Somes(tgts)))
  }

  lemma LaidAtomic(plane: seq<Cell>, env: Env, a: Atom, next: Body, p: int, keeps: seq<bool>, tgts: seq<nat>)
    requires |tgts| == |keeps| && Laid(plane, env, Atomic(a, next), p, keeps, tgts)
    ensures p >= 0 && AtomOk(env, a, |keeps|) && BodyOk(env, next, |keeps|)
    ensures At(plane, p, Dbg(AtomByte(a))) && At(plane, p + 7, GenAtom(env, a, p + 7, keeps, Somes(tgts), Somes(tgts)))
    ensures Laid(plane, env, next, p + 7 + AtomSize(env, a, keeps), keeps, tgts)
    ensures Size(env, Atomic(a, next), keeps) == 7 + AtomSize(env, a, keeps) + Size(env, next, keeps)
  {
    hide At, GenAtom, Gen, AtomSize, AtomOk, AtomByte, Dbg;
    var t := Somes(tgts);
    GenAtomic(env, a, next, p, keeps, t, t);
    AtSplit3(plane, p, Dbg(AtomByte(a)), GenAtom(env, a, p + 7, keeps, t, t), Gen(env, next, p + 7 + AtomSize(env, a, keeps), keeps, t, t));
  }

  /** The parts of a structured instruction's code. */
  lemma LaidNested(plane: seq<Cell>, env: Env, b: Body, p: int, keeps: seq<bool>, tgts: seq<nat>)
    requires Nested(b) && |tgts| == |keeps| && Laid(plane, env, b, p, keeps, tgts)
    ensures BodyOk(env, b, |keeps|) && BodyOk(env, b.next, |keeps|) && p >= 0
    ensures At(plane, p, Head(b, p, OtherOf(env, b, p, keeps)))
    ensures var l, e := LabelOf(env, b, p, keeps), EndOf(env, b, p, keeps);
      && At(plane, p + HeadSize(b), Inner(env, b, p, keeps, Somes(tgts), Somes(tgts), Some(l), Some(l)))
      && Laid(plane, env, b.next, e, keeps, tgts)
      && e + Size(env, b.next, keeps) == p + Size(env, b, keeps)
  {
    hide At, Gen, Inner, InnerSize, Head, HeadSize, LabelOf, OtherOf, AtomOk;
    var t, l, e := Somes(tgts), Some(LabelOf(env, b, p, keeps)), EndOf(env, b, p, keeps);
    GenNested(env, b, p, keeps, t, t, l);
    AtSplit3(plane, p, Head(b, p, OtherOf(env, b, p, keeps)), Inner(env, b, p, keeps, t, t, l, l), Gen(env, b.next, e, keeps, t, t));
  }

  lemma SomesCons(t: nat, ts: seq<nat>)
    ensures Somes([t] + ts) == [Some(t)] + Somes(ts)
  {
  }

  lemma ArmsOk(env: Env, b: Body, n: nat)
    requires Nested(b) && BodyOk(env, b, n)
    ensures BodyOk(env, b.body, n + 1) && (b.IfElse? ==> BodyOk(env, b.els, n + 1))
  {
    hide AtomOk;
  }

  lemma EndOfIs(env: Env, b: Body, p: int, keeps: seq<bool>)
    requires Nested(b) && p >= 0 && BodyOk(env, b, |keeps|) && BodyOk(env, b.body, |keeps| + 1) && (b.IfElse? ==> BodyOk(env, b.els, |keeps| + 1))
    ensures var k := [Keep(b.bt)] + keeps;
      EndOf(env, b, p, keeps) == p + HeadSize(b) + Size(env, b.body, k)
        + (if b.IfElse? then ElseSize() + |Enter()| + Size(env, b.els, k) else 0) + CloseSize(Keep(b.bt))
  {
    hide Size, HeadSize, CloseSize, ElseSize, Enter, Keep, BodyOk;
  }

  /** The first arm inside a block, under the block's label, and the block's end. */
  lemma LaidArm(plane: seq<Cell>, env: Env, b: Body, p: int, keeps: seq<bool>, tgts: seq<nat>)
    requires Nested(b) && |tgts| == |keeps| && p >= 0 && BodyOk(env, b, |keeps|)
    requires BodyOk(env, b.body, |keeps| + 1) && (b.IfElse? ==> BodyOk(env, b.els, |keeps| + 1))
    requires var l := LabelOf(env, b, p, keeps);
      At(plane, p + HeadSize(b), Inner(env, b, p, keeps, Somes(tgts), Somes(tgts), Some(l), Some(l)))
    ensures var l, e, k := LabelOf(env, b, p, keeps), EndOf(env, b, p, keeps), [Keep(b.bt)] + keeps;
      && Laid(plane, env, b.body, p + HeadSize(b), k, [l] + tgts)
      && At(plane, e - CloseSize(Keep(b.bt)), Close(Keep(b.bt)))
      && (!b.IfElse? ==> p + HeadSize(b) + Size(env, b.body, k) == e - CloseSize(Keep(b.bt)))
  {
    hide At, Gen, Size, HeadSize, CloseSize, Close, ElseCode, ElseSize, Enter, AtomOk, LabelOf, Keep, BodyOk;
    var l, t, k := LabelOf(env, b, p, keeps), Somes(tgts), [Keep(b.bt)] + keeps;
    var tt := [Some(l)] + t;
    SomesCons(l, tgts);
    var p1 := p + HeadSize(b);
    var q := p1 + Size(env, b.body, k);
    var rest := if b.IfElse? then ElseCode(q, Some(l)) + Gen(env, b.els, q + ElseSize() + |Enter()|, k, tt, tt) else [];
    EndOfIs(env, b, p, keeps);
    AtSplit3(plane, p1, Gen(env, b.body, p1, k, tt, tt), rest, Close(Keep(b.bt)));
  }

  /** The else-arm. */
  lemma LaidElse(plane: seq<Cell>, env: Env, b: Body, p: int, keeps: seq<bool>, tgts: seq<nat>)
    requires b.IfElse? && |tgts| == |keeps| && p >= 0 && BodyOk(env, b, |keeps|)
    requires BodyOk(env, b.body, |keeps| + 1) && BodyOk(env, b.els, |keeps| + 1)
    requires var l := LabelOf(env, b, p, keeps);
      At(plane, p + HeadSize(b), Inner(env, b, p, keeps, Somes(tgts), Somes(tgts), Some(l), Some(l)))
    ensures var l, k := LabelOf(env, b, p, keeps), [Keep(b.bt)] + keeps;
      var q := p + HeadSize(b) + Size(env, b.body, k);
      var q2 := q + ElseSize() + |Enter()|;
      && At(plane, q, ElseCode(q, Some(l)))
      && Laid(plane, env, b.els, q2, k, [l] + tgts)
      && q2 + Size(env, b.els, k) == EndOf(env, b, p, keeps) - CloseSize(Keep(b.bt))
  {
    hide At, Gen, Size, HeadSize, CloseSize, Close, ElseCode, ElseSize, Enter, AtomOk, LabelOf, Keep, BodyOk;
    var l, t, k := LabelOf(env, b, p, keeps), Somes(tgts), [Keep(b.bt)] + keeps;
    var tt := [Some(l)] + t;
    SomesCons(l, tgts);
    var p1 := p + HeadSize(b);
    var q := p1 + Size(env, b.body, k);
    var q2 := q + ElseSize() + |Enter()|;
    var ec, g2 := ElseCode(q, Some(l)), Gen(env, b.els, q2, k, tt, tt);
    EndOfIs(env, b, p, keeps);
    AtSplit3(plane, p1, Gen(env, b.body, p1, k, tt, tt), ec + g2, Close(Keep(b.bt)));
    AtSplit(plane, q, ec, g2);
  }

  lemma ElseParts(plane: seq<Cell>, q: int, target: nat)
    requires q >= 0 && At(plane, q, ElseCode(q, Some(target)))
    ensures At(plane, q, Dbg(ELSE))
    ensures At(plane, q + 7, Asm(LeaveCode(0, true)) + JumpCode(q + 7 + LeaveSize(0, true), Some(target)))
  {
    hide At, Asm, JumpCode, Dbg, Enter;
    var l, j := Asm(LeaveBlock(true)), JumpCode(q + 7 + |Asm(LeaveBlock(true))|, Some(target));
    assert LeaveCode(0, true) == LeaveBlock(true);
    AtSplit(plane, q, Dbg(ELSE) + l + j, Enter());
    assert Dbg(ELSE) + l + j == Dbg(ELSE) + (l + j);
    AtSplit(plane, q, Dbg(ELSE), l + j);
  }

  lemma ElseAt(plane: seq<Cell>, q: nat, target: Option<nat>)
    requires At(plane, q, ElseCode(q, target))
    ensures At(plane, q + ElseSize(), Enter())
  {
    hide At, Dbg, Asm, JumpCode;
    AtSplit(plane, q, Dbg(ELSE) + Asm(LeaveBlock(true)) + JumpCode(q + 7 + |Asm(LeaveBlock(true))|, target), Enter());
  }

  /** The parts of a whole function's code. */
  lemma LaidFn(plane: seq<Cell>, env: Env, cparams: nat, body: Body, p: nat)
    requires cparams <= env.clocals && BodyOk(env, body, 1) && At(plane, p, GenFn(env, cparams, body, p))
    ensures var p1 := p + |Prologue(env, cparams)|;
      var close := p1 + Size(env, body, [true]);
      && At(plane, p, Prologue(env, cparams))
      && Laid(plane, env, body, p1, [true], [close + CloseSize(true)])
      && At(plane, close, Close(true) + Cells(J(Ret)))
      && FnEnd(env, cparams, body, p) == close + CloseSize(true)
  {
    hide At, Gen, Prologue, Close, Cells, CloseSize, Size, BodyOk;
    var l := FnEnd(env, cparams, body, p);
    var pro := Prologue(env, cparams);
    assert Somes([l]) == [Some(l)];
    AtSplit4(plane, p, pro, Gen(env, body, p + |pro|, [true], [Some(l)], [Some(l)]), Close(true), Cells(J(Ret)));
  }
}
