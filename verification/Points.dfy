/** The addresses inside a function's code that control passes through between one opcode and the
    next, and how many words the function has saved on the machine stack there. */
module Points {
  import opened Words
  import opened Wasm
  import opened X86
  import opened Codegen
  import opened Layout

  /** The start of an opcode under k labels; a place under k labels that is jumped or called to; the
      return address of a call under k labels. */
  datatype Point = Opcode(k: nat) | Target(k: nat) | ReturnTo(k: nat, callee: nat)

  /** One saved rdi for every label, and one more during a call. */
  function Saved(pt: Point): nat { if pt.ReturnTo? then pt.k + 1 else pt.k }

  function CallReturn(env: Env, f: nat, p: nat): nat
    requires f < |env.sigs|
  {
    p + 7 + |Asm(CallSetup(env, f))| + 6
  }

  /** What q is in the code of b at p. */
  function BodyPoint(env: Env, b: Body, p: nat, keeps: seq<bool>, q: int): Option<Point>
    requires BodyOk(env, b, |keeps|)
    decreases b, 1
  {
    hide Size, HeadSize, InnerSize, AtomSize, CallReturn;
    match b
    case Done => None
    case Atomic(a, next) =>
      var e := p + 7 + AtomSize(env, a, keeps);
      if q == p then Some(Opcode(|keeps|))
      else if q < e then if a.Call? && q == CallReturn(env, a.fn, p) then Some(ReturnTo(|keeps|, a.fn)) else None
      else BodyPoint(env, next, e, keeps, q)
    case _ =>
      if q == p then Some(Opcode(|keeps|))
      else if b.Loop? && q == p + 7 then Some(Target(|keeps|))
      else if q < p + HeadSize(b) then None
      else if q < EndOf(env, b, p, keeps) then InnerPoint(env, b, p, keeps, q)
      else BodyPoint(env, b.next, EndOf(env, b, p, keeps), keeps, q)
  }

  /** What q is between the head and the end of a structured instruction. */
  function InnerPoint(env: Env, b: Body, p: nat, keeps: seq<bool>, q: int): Option<Point>
    requires Nested(b) && BodyOk(env, b, |keeps|)
    decreases b, 0
  {
    hide Size, HeadSize, ElseSize, Enter;
    var k := [Keep(b.bt)] + keeps;
    var u := p + HeadSize(b) + Size(env, b.body, k);
    if q < u then BodyPoint(env, b.body, p + HeadSize(b), k, q)
    else if q == u then Some(Opcode(|k|))
    else if !b.IfElse? then None
    else if q == u + ElseSize() then Some(Target(|keeps|))
    else
      var v := u + ElseSize() + |Enter()|;
      if q < v then None
      else if q < v + Size(env, b.els, k) then BodyPoint(env, b.els, v, k, q)
      else if q == v + Size(env, b.els, k) then Some(Opcode(|k|)) else None
  }

  // ---------- whole functions ----------

  /** A function's code: its body, laid out from address a on. */
  datatype Place = Place(env: Env, cparams: nat, body: Body, a: nat)

  predicate PlaceOk(pl: Place) { pl.cparams <= pl.env.clocals && BodyOk(pl.env, pl.body, 1) }

  function BodyAt(pl: Place): nat
    requires PlaceOk(pl)
  {
    pl.a + |Prologue(pl.env, pl.cparams)|
  }

  /** The function's last `end`. */
  function CloseAt(pl: Place): nat
    requires PlaceOk(pl)
  {
    BodyAt(pl) + Size(pl.env, pl.body, [true])
  }

  /** The function's last `ret`. */
  function RetAt(pl: Place): nat
    requires PlaceOk(pl)
  {
    CloseAt(pl) + CloseSize(true)
  }

  function PointIn(pl: Place, q: int): Option<Point>
    requires PlaceOk(pl)
  {
    if q == pl.a then Some(Target(0))
    else if q < BodyAt(pl) then None
    else if q < CloseAt(pl) then BodyPoint(pl.env, pl.body, BodyAt(pl), [true], q)
    else if q == CloseAt(pl) then Some(Opcode(1))
    else if q == RetAt(pl) then Some(Target(0)) else None
  }

  // ---------- the parts of a function ----------

  /** The code of b at p is part of the function, under |keeps| labels. */
  ghost predicate Inside(pl: Place, b: Body, p: nat, keeps: seq<bool>) {
    && PlaceOk(pl) && BodyOk(pl.env, b, |keeps|)
    && (forall q: int :: p <= q < p + Size(pl.env, b, keeps) ==> PointIn(pl, q) == BodyPoint(pl.env, b, p, keeps, q))
    && PointIn(pl, p + Size(pl.env, b, keeps)) == Some(Opcode(|keeps|))
  }

  /** Every label leads to a point with its own number of labels around it. */
  ghost predicate LabelsOk(pl: Place, tgts: seq<nat>) {
    && PlaceOk(pl)
    && forall i :: 0 <= i < |tgts| ==>
         PointIn(pl, tgts[i]) in {Some(Opcode(|tgts| - 1 - i)), Some(Target(|tgts| - 1 - i))}
  }

  lemma PrologueSize(env: Env, cparams: nat)
    requires cparams <= env.clocals
    ensures |Prologue(env, cparams)| > 0
  {
    assert |Enter()| == Off(EnterBlock(), 3) > 0;
  }

  lemma WholeInside(pl: Place)
    requires PlaceOk(pl)
    ensures Inside(pl, pl.body, BodyAt(pl), [true])
    ensures PointIn(pl, CloseAt(pl)) == Some(Opcode(1)) && LabelsOk(pl, [RetAt(pl)])
  {
    hide Size, Prologue, CloseSize, BodyPoint, BodyOk;
    PrologueSize(pl.env, pl.cparams);
    CloseGrows(true);
  }

  lemma CloseGrows(keep: bool)
    ensures CloseSize(keep) > 7
  {
    assert Off(LeaveBlock(keep), 1) == 1;
    OffGrows(LeaveBlock(keep), 1);
  }

  lemma {:induction false} OffGrows(code: seq<Instr>, k: nat)
    requires k <= |code|
    ensures Off(code, k) <= Off(code, |code|)
    decreases |code| - k
  {
    if k < |code| { OffGrows(code, k + 1); }
  }

  /** A part starts with an opcode: its own first one, or the one after it. */
  lemma StartPoint(pl: Place, b: Body, p: nat, keeps: seq<bool>)
    requires Inside(pl, b, p, keeps)
    ensures PointIn(pl, p) == Some(Opcode(|keeps|))
  {
    hide PointIn, PlaceOk, HeadSize, InnerSize, AtomSize, AtomOk;
    if !b.Done? {
      SizePositive(pl.env, b, keeps);
      assert BodyPoint(pl.env, b, p, keeps, p) == Some(Opcode(|keeps|));
    }
  }

  lemma SizePositive(env: Env, b: Body, keeps: seq<bool>)
    requires BodyOk(env, b, |keeps|) && !b.Done?
    ensures Size(env, b, keeps) >= 7
  {
    hide InnerSize, AtomSize, AtomOk, Asm;
  }

  lemma AtomicInside(pl: Place, a: Atom, next: Body, p: nat, keeps: seq<bool>)
    requires Inside(pl, Atomic(a, next), p, keeps)
    ensures AtomOk(pl.env, a, |keeps|) && BodyOk(pl.env, next, |keeps|)
    ensures Inside(pl, next, p + 7 + AtomSize(pl.env, a, keeps), keeps)
    ensures a.Call? ==> a.fn < |pl.env.sigs| && PointIn(pl, CallReturn(pl.env, a.fn, p)) == Some(ReturnTo(|keeps|, a.fn))
  {
    hide PointIn, PlaceOk, AtomOk, AtomSize, CallReturn, Size, BodyOk;
    var b := Atomic(a, next);
    SizeParts(pl.env, b, keeps);
    var e := p + 7 + AtomSize(pl.env, a, keeps);
    forall q: int | e <= q < e + Size(pl.env, next, keeps) ensures PointIn(pl, q) == BodyPoint(pl.env, next, e, keeps, q) {
      assert PointIn(pl, q) == BodyPoint(pl.env, b, p, keeps, q);
    }
    if a.Call? {
      assert a.fn < |pl.env.sigs| by { CallIsOk(pl.env, a.fn, |keeps|); }
      CallReturnIn(pl.env, a.fn, p, keeps);
      var r := CallReturn(pl.env, a.fn, p);
      assert PointIn(pl, r) == BodyPoint(pl.env, b, p, keeps, r);
    }
  }

  lemma CallIsOk(env: Env, f: U32, n: nat)
    requires AtomOk(env, Call(f), n)
    ensures f < |env.sigs|
  {
  }

  lemma CallReturnIn(env: Env, f: U32, p: nat, keeps: seq<bool>)
    requires AtomOk(env, Call(f), |keeps|) && f < |env.sigs|
    ensures p < CallReturn(env, f, p) < p + 7 + AtomSize(env, Call(f), keeps)
  {
    hide Asm, CallSetup;
    var s := CallCleanup(env, f);
    assert Off(s, 1) == 1;
    OffGrows(s, 1);
  }

  lemma NestedPoint(env: Env, b: Body, p: nat, keeps: seq<bool>, q: int)
    requires Nested(b) && BodyOk(env, b, |keeps|) && BodyOk(env, b.next, |keeps|) && HeadSize(b) > 7
    requires p + HeadSize(b) <= EndOf(env, b, p, keeps)
    ensures p + HeadSize(b) <= q < EndOf(env, b, p, keeps) ==> BodyPoint(env, b, p, keeps, q) == InnerPoint(env, b, p, keeps, q)
    ensures EndOf(env, b, p, keeps) <= q ==> BodyPoint(env, b, p, keeps, q) == BodyPoint(env, b.next, EndOf(env, b, p, keeps), keeps, q)
    ensures b.Loop? && q == p + 7 ==> BodyPoint(env, b, p, keeps, q) == Some(Target(|keeps|))
  {
    hide AtomOk, InnerSize, HeadSize, InnerPoint, EndOf, Size, BodyOk;
  }

  /** A structured instruction, what follows it and what is in it. */
  lemma NestedInside(pl: Place, b: Body, p: nat, keeps: seq<bool>)
    requires Nested(b) && Inside(pl, b, p, keeps)
    ensures BodyOk(pl.env, b.next, |keeps|)
    ensures Inside(pl, b.next, EndOf(pl.env, b, p, keeps), keeps)
    ensures b.Loop? ==> PointIn(pl, p + 7) == Some(Target(|keeps|))
    ensures forall q: int :: p + HeadSize(b) <= q < EndOf(pl.env, b, p, keeps) ==> PointIn(pl, q) == InnerPoint(pl.env, b, p, keeps, q)
  {
    hide PointIn, PlaceOk, InnerSize, HeadSize, InnerPoint, EndOf, BodyPoint, Size, BodyOk;
    var e := EndOf(pl.env, b, p, keeps);
    NestedSize(pl.env, b, p, keeps);
    forall q: int | e <= q < e + Size(pl.env, b.next, keeps) ensures PointIn(pl, q) == BodyPoint(pl.env, b.next, e, keeps, q) {
      assert PointIn(pl, q) == BodyPoint(pl.env, b, p, keeps, q);
      NestedPoint(pl.env, b, p, keeps, q);
    }
    forall q: int | p + HeadSize(b) <= q < e ensures PointIn(pl, q) == InnerPoint(pl.env, b, p, keeps, q) {
      assert PointIn(pl, q) == BodyPoint(pl.env, b, p, keeps, q);
      NestedPoint(pl.env, b, p, keeps, q);
    }
    if b.Loop? {
      assert PointIn(pl, p + 7) == BodyPoint(pl.env, b, p, keeps, p + 7);
      NestedPoint(pl.env, b, p, keeps, p + 7);
    }
  }

  lemma NestedSize(env: Env, b: Body, p: nat, keeps: seq<bool>)
    requires Nested(b) && BodyOk(env, b, |keeps|)
    ensures BodyOk(env, b.next, |keeps|)
    ensures p + Size(env, b, keeps) == EndOf(env, b, p, keeps) + Size(env, b.next, keeps)
    ensures HeadSize(b) > 7 && p + HeadSize(b) < EndOf(env, b, p, keeps)
  {
    hide AtomOk, Asm;
    hide InnerSize;
    HeadPositive(b);
    InnerPositive(env, b, keeps);
  }

  lemma HeadPositive(b: Body)
    requires Nested(b)
    ensures HeadSize(b) > 7
  {
    assert |Enter()| == Off(EnterBlock(), 3) > 0;
  }

  lemma InnerPositive(env: Env, b: Body, keeps: seq<bool>)
    requires Nested(b) && BodyOk(env, b, |keeps|)
    ensures InnerSize(env, b, keeps) > 0
  {
    hide Size, BodyOk, Enter, ElseSize, Asm;
  }

  lemma ArmInside(pl: Place, b: Body, p: nat, keeps: seq<bool>)
    requires Nested(b) && Inside(pl, b, p, keeps)
    requires BodyOk(pl.env, b.body, |keeps| + 1) && (b.IfElse? ==> BodyOk(pl.env, b.els, |keeps| + 1))
    ensures Inside(pl, b.body, p + HeadSize(b), [Keep(b.bt)] + keeps)
  {
    hide PointIn, PlaceOk, AtomOk, HeadSize, Size, EndOf, BodyPoint, BodyOk, CloseSize, ElseSize, Enter;
    NestedInside(pl, b, p, keeps);
    var u := p + HeadSize(b) + Size(pl.env, b.body, [Keep(b.bt)] + keeps);
    ArmSizes(pl.env, b, p, keeps);
    assert PointIn(pl, u) == InnerPoint(pl.env, b, p, keeps, u);
  }

  lemma ElseInside(pl: Place, b: Body, p: nat, keeps: seq<bool>)
    requires b.IfElse? && Inside(pl, b, p, keeps)
    requires BodyOk(pl.env, b.body, |keeps| + 1) && BodyOk(pl.env, b.els, |keeps| + 1)
    ensures var k := [Keep(b.bt)] + keeps;
      var u := p + HeadSize(b) + Size(pl.env, b.body, k);
      && PointIn(pl, u + ElseSize()) == Some(Target(|keeps|))
      && Inside(pl, b.els, u + ElseSize() + |Enter()|, k)
  {
    hide PointIn, PlaceOk, AtomOk, HeadSize, Size, EndOf, BodyPoint, BodyOk, CloseSize, ElseSize, Enter;
    NestedInside(pl, b, p, keeps);
    var k := [Keep(b.bt)] + keeps;
    var u := p + HeadSize(b) + Size(pl.env, b.body, k);
    var v := u + ElseSize() + |Enter()|;
    ArmSizes(pl.env, b, p, keeps);
    assert PointIn(pl, u + ElseSize()) == InnerPoint(pl.env, b, p, keeps, u + ElseSize());
    var z := v + Size(pl.env, b.els, k);
    assert PointIn(pl, z) == InnerPoint(pl.env, b, p, keeps, z);
  }

  lemma ArmSizes(env: Env, b: Body, p: nat, keeps: seq<bool>)
    requires Nested(b) && BodyOk(env, b, |keeps|)
    requires BodyOk(env, b.body, |keeps| + 1) && (b.IfElse? ==> BodyOk(env, b.els, |keeps| + 1))
    ensures var k := [Keep(b.bt)] + keeps;
      EndOf(env, b, p, keeps) == p + HeadSize(b) + Size(env, b.body, k)
        + (if b.IfElse? then ElseSize() + |Enter()| + Size(env, b.els, k) else 0) + CloseSize(Keep(b.bt))
    ensures ElseSize() > 7 && CloseSize(Keep(b.bt)) > 7 && |Enter()| > 0
  {
    hide Size, HeadSize, BodyOk;
    assert |Enter()| == Off(EnterBlock(), 3) > 0;
    CloseGrows(Keep(b.bt));
  }
}
