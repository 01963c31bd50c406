/** The types of all operands on the frames of a function, at every address its code passes through:
    what validation says there, extended from instructions to the code laid out for them. */
module Shapes {
  import opened Words
  import opened Wasm
  import opened Layout
  import opened Points
  import opened Typing

  /** Types of the operands of every open frame, innermost first. */
  type Shape = seq<seq<Width>>

  /** A function's code, and what its body is checked against. */
  datatype Checked = Checked(pl: Place, fts: seq<Option<FType>>, locals: seq<Width>, ret: seq<Width>)

  /** The code of b at p with the operand types st before it; `outer` are the types of the frames around
      it, one fewer than there are labels. */
  datatype Spot = Spot(b: Body, p: nat, keeps: seq<bool>, tgts: seq<nat>, labels: seq<seq<Width>>, st: seq<Width>, outer: Shape)

  function CtxAt(fn: Checked, s: Spot): Ctx { Ctx(fn.fts, fn.locals, s.labels) }

  function CheckAt(fn: Checked, s: Spot): End { Check(CtxAt(fn, s), s.b, s.st) }

  function FirstAt(fn: Checked, s: Spot): End
    requires !s.b.Done?
  {
    CheckFirst(CtxAt(fn, s), s.b, s.st)
  }

  function Yields(bt: BlockType): seq<Width> { if BlockTypes(bt).Some? then BlockTypes(bt).value else [] }

  function LabelTypes(b: Body): seq<Width>
    requires Nested(b)
  {
    if b.Loop? then [] else Yields(b.bt)
  }

  /** The operands that stay in the frame around b; an if pops its condition. */
  function Around(b: Body, st: seq<Width>): seq<Width> {
    if (b.If? || b.IfElse?) && |st| > 0 then Pop(st, 1) else st
  }

  /** What follows the first instruction. */
  function After(fn: Checked, s: Spot, st: seq<Width>): Spot
    requires !s.b.Done? && BodyOk(fn.pl.env, s.b, |s.keeps|)
  {
    s.(b := s.b.next, st := st,
       p := if s.b.Atomic? then s.p + 7 + AtomSize(fn.pl.env, s.b.atom, s.keeps) else EndOf(fn.pl.env, s.b, s.p, s.keeps))
  }

  /** The first arm of a structured instruction. */
  function ArmOf(fn: Checked, s: Spot): Spot
    requires Nested(s.b) && BodyOk(fn.pl.env, s.b, |s.keeps|)
  {
    Spot(s.b.body, s.p + HeadSize(s.b), [Keep(s.b.bt)] + s.keeps, [LabelOf(fn.pl.env, s.b, s.p, s.keeps)] + s.tgts,
         [LabelTypes(s.b)] + s.labels, [], [Around(s.b, s.st)] + s.outer)
  }

  function ArmEnd(fn: Checked, s: Spot): nat
    requires Nested(s.b) && BodyOk(fn.pl.env, s.b, |s.keeps|)
  {
    s.p + HeadSize(s.b) + Size(fn.pl.env, s.b.body, [Keep(s.b.bt)] + s.keeps)
  }

  function ElseOf(fn: Checked, s: Spot): Spot
    requires s.b.IfElse? && BodyOk(fn.pl.env, s.b, |s.keeps|)
  {
    ArmOf(fn, s).(b := s.b.els, p := ArmEnd(fn, s) + ElseSize() + |Enter()|)
  }

  /** The operands the call's arguments are taken from, without them. */
  function Waiting(fn: Checked, a: Atom, st: seq<Width>): seq<Width> {
    if a.Call? && a.fn < |fn.fts| && fn.fts[a.fn].Some? && |fn.fts[a.fn].value.params| <= |st|
    then Pop(st, |fn.fts[a.fn].value.params|) else st
  }

  /** At the end of the spot's code; `None` where validation knows that control does not get. */
  function EndShape(fn: Checked, s: Spot): Option<Shape> {
    match CheckAt(fn, s)
    case Falls(t) => Some([t] + s.outer)
    case _ => None
  }

  /** At the address q inside the spot's code. */
  function BodyShape(fn: Checked, s: Spot, q: int): Option<Shape>
    requires BodyOk(fn.pl.env, s.b, |s.keeps|)
    decreases s.b, 2
  {
    hide Size, HeadSize, InnerSize, AtomSize, CheckFirst;
    match s.b
    case Done => None
    case Atomic(a, _) =>
      if q == s.p then Some([s.st] + s.outer)
      else if q < s.p + 7 + AtomSize(fn.pl.env, a, s.keeps) then Some([Waiting(fn, a, s.st)] + s.outer)
      else NextShape(fn, s, q)
    case _ =>
      if q == s.p || (s.b.Loop? && q == s.p + 7) then Some([s.st] + s.outer)
      else if q < EndOf(fn.pl.env, s.b, s.p, s.keeps) then InnerShape(fn, s, q)
      else NextShape(fn, s, q)
  }

  function NextShape(fn: Checked, s: Spot, q: int): Option<Shape>
    requires !s.b.Done? && BodyOk(fn.pl.env, s.b, |s.keeps|)
    decreases s.b, 1
  {
    hide Size, HeadSize, InnerSize, AtomSize, CheckFirst, AtomOk;
    match FirstAt(fn, s)
    case Falls(st) => BodyShape(fn, After(fn, s, st), q)
    case _ => None
  }

  function InnerShape(fn: Checked, s: Spot, q: int): Option<Shape>
    requires Nested(s.b) && BodyOk(fn.pl.env, s.b, |s.keeps|)
    decreases s.b, 0
  {
    hide Size, HeadSize, ElseSize, Enter, CheckAt, LabelOf;
    if q < ArmEnd(fn, s) then BodyShape(fn, ArmOf(fn, s), q)
    else if q == ArmEnd(fn, s) then EndShape(fn, ArmOf(fn, s))
    else if !s.b.IfElse? then None
    else if q == ArmEnd(fn, s) + ElseSize() then Some([Around(s.b, s.st)] + s.outer)
    else
      var els := ElseOf(fn, s);
      if q < els.p + Size(fn.pl.env, els.b, els.keeps) then BodyShape(fn, els, q) else EndShape(fn, els)
  }

  function WholeSpot(fn: Checked): Spot
    requires PlaceOk(fn.pl)
  {
    Spot(fn.pl.body, BodyAt(fn.pl), [true], [RetAt(fn.pl)], [fn.ret], [], [])
  }

  /** At the address q of the function's code. */
  function FnShape(fn: Checked, q: int): Option<Shape>
    requires PlaceOk(fn.pl)
  {
    if BodyAt(fn.pl) <= q < CloseAt(fn.pl) then BodyShape(fn, WholeSpot(fn), q)
    else if q == CloseAt(fn.pl) then EndShape(fn, WholeSpot(fn)) else None
  }

  // ---------- the parts of a function ----------

  /** The spot is a part of the function that is checked. */
  ghost predicate Shaped(fn: Checked, s: Spot) {
    && PlaceOk(fn.pl) && BodyOk(fn.pl.env, s.b, |s.keeps|)
    && (forall q: int :: s.p <= q < s.p + Size(fn.pl.env, s.b, s.keeps) ==> FnShape(fn, q) == BodyShape(fn, s, q))
    && FnShape(fn, s.p + Size(fn.pl.env, s.b, s.keeps)) == EndShape(fn, s)
  }

  lemma WholeShaped(fn: Checked)
    requires PlaceOk(fn.pl)
    ensures Shaped(fn, WholeSpot(fn))
  {
    hide Size, Prologue, CloseSize, BodyShape, EndShape, BodyOk;
  }

  lemma EndIsNext(fn: Checked, s: Spot, st: seq<Width>)
    requires !s.b.Done? && BodyOk(fn.pl.env, s.b, |s.keeps|) && FirstAt(fn, s) == Falls(st)
    ensures EndShape(fn, s) == EndShape(fn, After(fn, s, st))
    ensures CheckAt(fn, s) == CheckAt(fn, After(fn, s, st))
  {
    hide CheckFirst, BodyOk, AtomSize, EndOf, Check;
    CheckIs(CtxAt(fn, s), s.b, s.st);
  }

  lemma AtomicShape(fn: Checked, s: Spot, q: int)
    requires s.b.Atomic? && BodyOk(fn.pl.env, s.b, |s.keeps|) && AtomOk(fn.pl.env, s.b.atom, |s.keeps|)
    ensures q >= s.p + 7 + AtomSize(fn.pl.env, s.b.atom, s.keeps) ==> BodyShape(fn, s, q) == NextShape(fn, s, q)
    ensures s.p < q < s.p + 7 + AtomSize(fn.pl.env, s.b.atom, s.keeps) ==> BodyShape(fn, s, q) == Some([Waiting(fn, s.b.atom, s.st)] + s.outer)
    ensures BodyShape(fn, s, s.p) == Some([s.st] + s.outer)
  {
    hide AtomOk, AtomSize, NextShape, Waiting, BodyOk;
  }

  lemma NestedShape(fn: Checked, s: Spot, q: int)
    requires Nested(s.b) && BodyOk(fn.pl.env, s.b, |s.keeps|) && s.p + 7 < s.p + HeadSize(s.b) <= EndOf(fn.pl.env, s.b, s.p, s.keeps)
    ensures q >= EndOf(fn.pl.env, s.b, s.p, s.keeps) ==> BodyShape(fn, s, q) == NextShape(fn, s, q)
    ensures s.p + HeadSize(s.b) <= q < EndOf(fn.pl.env, s.b, s.p, s.keeps) ==> BodyShape(fn, s, q) == InnerShape(fn, s, q)
    ensures BodyShape(fn, s, s.p) == Some([s.st] + s.outer)
    ensures s.b.Loop? ==> BodyShape(fn, s, s.p + 7) == Some([s.st] + s.outer)
  {
    hide HeadSize, EndOf, NextShape, InnerShape, BodyOk;
  }

  lemma NextIs(fn: Checked, s: Spot, st: seq<Width>, q: int)
    requires !s.b.Done? && BodyOk(fn.pl.env, s.b, |s.keeps|) && BodyOk(fn.pl.env, s.b.next, |s.keeps|) && FirstAt(fn, s) == Falls(st)
    ensures NextShape(fn, s, q) == BodyShape(fn, After(fn, s, st), q)
  {
    hide BodyShape, After, BodyOk, FirstAt;
  }

  lemma ShapedAtomic(fn: Checked, s: Spot, st: seq<Width>)
    requires s.b.Atomic? && Shaped(fn, s) && FirstAt(fn, s) == Falls(st)
    ensures BodyOk(fn.pl.env, s.b.next, |s.keeps|) && Shaped(fn, After(fn, s, st))
  {
    hide FnShape, BodyShape, EndShape, AtomSize, AtomOk, Size, BodyOk, PlaceOk, FirstAt, NextShape;
    SizeParts(fn.pl.env, s.b, s.keeps);
    var t := After(fn, s, st);
    EndIsNext(fn, s, st);
    forall q: int | t.p <= q < t.p + Size(fn.pl.env, t.b, t.keeps) ensures FnShape(fn, q) == BodyShape(fn, t, q) {
      AtomicShape(fn, s, q);
      NextIs(fn, s, st, q);
    }
  }

  lemma ShapedNested(fn: Checked, s: Spot, st: seq<Width>)
    requires Nested(s.b) && Shaped(fn, s) && FirstAt(fn, s) == Falls(st)
    ensures BodyOk(fn.pl.env, s.b.next, |s.keeps|) && Shaped(fn, After(fn, s, st))
  {
    hide FnShape, BodyShape, EndShape, HeadSize, EndOf, Size, BodyOk, PlaceOk, FirstAt, NextShape, InnerShape;
    NestedSize(fn.pl.env, s.b, s.p, s.keeps);
    var t := After(fn, s, st);
    EndIsNext(fn, s, st);
    forall q: int | t.p <= q < t.p + Size(fn.pl.env, t.b, t.keeps) ensures FnShape(fn, q) == BodyShape(fn, t, q) {
      NestedShape(fn, s, q);
      NextIs(fn, s, st, q);
    }
  }

  /** Inside a structured instruction. */
  lemma ShapedInner(fn: Checked, s: Spot, q: int)
    requires Nested(s.b) && Shaped(fn, s) && s.p + HeadSize(s.b) <= q < EndOf(fn.pl.env, s.b, s.p, s.keeps)
    ensures FnShape(fn, q) == InnerShape(fn, s, q)
  {
    hide FnShape, BodyShape, EndShape, HeadSize, EndOf, Size, BodyOk, PlaceOk, InnerShape;
    NestedSize(fn.pl.env, s.b, s.p, s.keeps);
    NestedShape(fn, s, q);
  }

  lemma ShapedArm(fn: Checked, s: Spot)
    requires Nested(s.b) && Shaped(fn, s)
    ensures BodyOk(fn.pl.env, s.b.body, |s.keeps| + 1) && Shaped(fn, ArmOf(fn, s))
  {
    hide FnShape, BodyShape, EndShape, HeadSize, EndOf, Size, BodyOk, PlaceOk, LabelOf, Keep, Around, CloseSize, ElseSize, Enter, Shaped;
    ShapedOk(fn, s);
    BodyOkParts(fn.pl.env, s.b, |s.keeps|);
    ArmSizes(fn.pl.env, s.b, s.p, s.keeps);
    var t, u := ArmOf(fn, s), ArmEnd(fn, s);
    ShapedInner(fn, s, u);
    forall q: int | t.p <= q < u ensures FnShape(fn, q) == BodyShape(fn, t, q) {
      ShapedInner(fn, s, q);
    }
    IsShaped(fn, t);
  }

  lemma ShapedElse(fn: Checked, s: Spot)
    requires s.b.IfElse? && Shaped(fn, s)
    ensures BodyOk(fn.pl.env, s.b.els, |s.keeps| + 1) && Shaped(fn, ElseOf(fn, s))
    ensures FnShape(fn, ArmEnd(fn, s) + ElseSize()) == Some([Around(s.b, s.st)] + s.outer)
  {
    hide FnShape, BodyShape, EndShape, HeadSize, EndOf, Size, BodyOk, PlaceOk, LabelOf, Keep, Around, CloseSize, ElseSize, Enter, Shaped;
    ShapedOk(fn, s);
    BodyOkParts(fn.pl.env, s.b, |s.keeps|);
    ArmSizes(fn.pl.env, s.b, s.p, s.keeps);
    var t := ElseOf(fn, s);
    var z := t.p + Size(fn.pl.env, t.b, t.keeps);
    ShapedInner(fn, s, ArmEnd(fn, s) + ElseSize());
    ShapedInner(fn, s, z);
    forall q: int | t.p <= q < z ensures FnShape(fn, q) == BodyShape(fn, t, q) {
      ShapedInner(fn, s, q);
    }
    IsShaped(fn, t);
  }

  lemma ShapedOk(fn: Checked, s: Spot)
    requires Shaped(fn, s)
    ensures PlaceOk(fn.pl) && BodyOk(fn.pl.env, s.b, |s.keeps|)
  {
  }

  lemma IsShaped(fn: Checked, s: Spot)
    requires PlaceOk(fn.pl) && BodyOk(fn.pl.env, s.b, |s.keeps|)
    requires forall q: int :: s.p <= q < s.p + Size(fn.pl.env, s.b, s.keeps) ==> FnShape(fn, q) == BodyShape(fn, s, q)
    requires FnShape(fn, s.p + Size(fn.pl.env, s.b, s.keeps)) == EndShape(fn, s)
    ensures Shaped(fn, s)
  {
  }

  lemma StartShape(fn: Checked, s: Spot)
    requires Shaped(fn, s)
    ensures FnShape(fn, s.p) == Some([s.st] + s.outer)
  {
    hide FnShape, HeadSize, InnerSize, AtomSize, AtomOk, PlaceOk, BodyOk;
    if s.b.Done? {
      SizeParts(fn.pl.env, s.b, s.keeps);
    } else {
      SizePositive(fn.pl.env, s.b, s.keeps);
    }
  }
}
