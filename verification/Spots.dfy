/** Finding the instruction an address belongs to, with everything that is known there: the code, the
    labels and where they lead, and the operand types of all frames. */
module Spots {
  import opened Words
  import opened Wasm
  import opened Layout
  import opened Pieces
  import opened Fragment
  import opened Meaning
  import opened Points
  import opened OpcodeSteps
  import opened BodySteps
  import opened Typing
  import opened Shapes

  /** A branch to a label arrives with the frame around its block, the label's operands on top; the
      function's own label leads to its `ret`. */
  ghost predicate LabelShapes(fn: Checked, labels: seq<seq<Width>>, tgts: seq<nat>, outer: Shape) {
    && PlaceOk(fn.pl) && |tgts| == |labels| == |outer| + 1
    && tgts[|outer|] == RetAt(fn.pl) && labels[|outer|] == fn.ret
    && (forall i :: 0 <= i < |labels| ==> |labels[i]| <= 1)
    && (forall i :: 0 <= i < |outer| ==> FnShape(fn, tgts[i]) == Some([outer[i] + labels[i]] + outer[i + 1..]))
  }

  lemma LabelShapesCons(fn: Checked, labels: seq<seq<Width>>, tgts: seq<nat>, outer: Shape, l: seq<Width>, t: nat, us: seq<Width>)
    requires LabelShapes(fn, labels, tgts, outer) && |l| <= 1 && FnShape(fn, t) == Some([us + l] + outer)
    ensures LabelShapes(fn, [l] + labels, [t] + tgts, [us] + outer)
  {
    hide FnShape, RetAt, PlaceOk;
    var ls, ts, os := [l] + labels, [t] + tgts, [us] + outer;
    forall i | 0 <= i < |os| ensures FnShape(fn, ts[i]) == Some([os[i] + ls[i]] + os[i + 1..]) {
      if i > 0 {
        assert os[i + 1..] == outer[i..] && os[i] == outer[i - 1] && ls[i] == labels[i - 1] && ts[i] == tgts[i - 1];
      }
    }
  }

  /** The spot is in the plane, its code is supported, and validation accepts it. */
  ghost predicate There(w: World, linked: set<nat>, fn: Checked, s: Spot) {
    && Here(w, linked, fn.pl, s.b, s.p, s.keeps, s.tgts) && |s.labels| == |s.keeps|
    && Shaped(fn, s) && LabelShapes(fn, s.labels, s.tgts, s.outer)
    && Supported(s.b, s.keeps, Arities(s.labels)) && CheckAt(fn, s) != Ill && CalleesIn(w, linked, BodyCalls(s.b))
  }

  lemma ThereFacts(w: World, linked: set<nat>, fn: Checked, s: Spot)
    requires There(w, linked, fn, s)
    ensures PlaceOk(fn.pl) && BodyOk(fn.pl.env, s.b, |s.keeps|) && |s.keeps| == |s.tgts| == |s.labels| == |s.outer| + 1
    ensures PointIn(fn.pl, s.p) == Some(Opcode(|s.keeps|)) && FnShape(fn, s.p) == Some([s.st] + s.outer)
    ensures !s.b.Done? ==> FirstAt(fn, s) != Ill
    ensures Here(w, linked, fn.pl, s.b, s.p, s.keeps, s.tgts)
  {
    hide CalleesIn, PointIn, FnShape, Shaped, Laid, Inside, Supported, CheckFirst, CallsOk, Helped, LabelsOk, BodyOk, PlaceOk;
    ShapedOk(fn, s);
    StartShape(fn, s);
    StartPoint(fn.pl, s.b, s.p, s.keeps);
    if !s.b.Done? { CheckIs(CtxAt(fn, s), s.b, s.st); }
  }

  /** After an unstructured instruction that can be followed. */
  lemma ThereAtomic(w: World, linked: set<nat>, fn: Checked, s: Spot, st: seq<Width>)
    requires s.b.Atomic? && There(w, linked, fn, s) && BodyOk(fn.pl.env, s.b, |s.keeps|) && FirstAt(fn, s) == Falls(st)
    ensures There(w, linked, fn, After(fn, s, st))
  {
    hide CalleesIn, PointIn, Shaped, LabelShapes, Supported, Here, FirstAt, AtomSize, BodyOk, Inside, AtomSupported;
    HereAtomic(w, linked, fn.pl, s.b, s.p, s.keeps, s.tgts);
    ShapedAtomic(fn, s, st);
    EndIsNext(fn, s, st);
    CalleesSplit(w, linked, CallsOf(s.b.atom), BodyCalls(s.b.next));
    SupportedNext(s.b, s.keeps, Arities(s.labels));
  }

  lemma SupportedNext(b: Body, keeps: seq<bool>, ar: seq<nat>)
    requires !b.Done? && |keeps| == |ar| && Supported(b, keeps, ar)
    ensures Supported(b.next, keeps, ar) && (b.Atomic? ==> AtomSupported(b.atom, keeps, ar))
    ensures Nested(b) ==> Supported(b.body, [Keep(b.bt)] + keeps, [LabelArity(b)] + ar)
    ensures b.IfElse? ==> Supported(b.els, [Keep(b.bt)] + keeps, [LabelArity(b)] + ar) && (Keep(b.bt) || NoFall(b.body))
  {
    hide AtomSupported, NoFall;
  }

  /** What validation says of a structured instruction. */
  lemma NestedChecked(ctx: Ctx, b: Body, st: seq<Width>)
    requires Nested(b) && CheckFirst(ctx, b, st) != Ill
    ensures |Yields(b.bt)| == Arity(b.bt) && |LabelTypes(b)| == LabelArity(b) && (Keep(b.bt) <==> |Yields(b.bt)| == 1)
    ensures CheckFirst(ctx, b, st) == Falls(Around(b, st) + Yields(b.bt))
    ensures ArmOk(ctx, b.body, LabelTypes(b), Yields(b.bt)) && (b.IfElse? ==> ArmOk(ctx, b.els, LabelTypes(b), Yields(b.bt)))
    ensures b.If? || b.IfElse? ==> |st| > 0
    ensures b.If? ==> Yields(b.bt) == []
  {
    hide ArmOk;
    if b.If? { assert Around(b, st) + [] == Around(b, st); }
  }

  lemma ThereNested(w: World, linked: set<nat>, fn: Checked, s: Spot)
    requires Nested(s.b) && There(w, linked, fn, s) && BodyOk(fn.pl.env, s.b, |s.keeps|)
    ensures var st := Around(s.b, s.st) + Yields(s.b.bt);
      FirstAt(fn, s) == Falls(st) && There(w, linked, fn, After(fn, s, st))
  {
    hide CalleesIn, PointIn, Shaped, LabelShapes, Supported, Here, CheckFirst, EndOf, BodyOk, Inside, Around, Yields, LabelOf;
    ThereFacts(w, linked, fn, s);
    NestedChecked(CtxAt(fn, s), s.b, s.st);
    HereNested(w, linked, fn.pl, s.b, s.p, s.keeps, s.tgts);
    ShapedNested(fn, s, Around(s.b, s.st) + Yields(s.b.bt));
    EndIsNext(fn, s, Around(s.b, s.st) + Yields(s.b.bt));
    CalleesSplitNested(w, linked, s.b);
    SupportedNext(s.b, s.keeps, Arities(s.labels));
  }

  lemma AritiesCons(l: seq<Width>, labels: seq<seq<Width>>)
    ensures Arities([l] + labels) == [|l|] + Arities(labels)
  {
  }

  /** A branch to the label of a structured instruction. */
  lemma OwnLabel(w: World, linked: set<nat>, fn: Checked, s: Spot)
    requires Nested(s.b) && There(w, linked, fn, s) && BodyOk(fn.pl.env, s.b, |s.keeps|)
    ensures PlaceOk(fn.pl)
    ensures FnShape(fn, LabelOf(fn.pl.env, s.b, s.p, s.keeps)) == Some([Around(s.b, s.st) + LabelTypes(s.b)] + s.outer)
  {
    hide CalleesIn, PointIn, Shaped, LabelShapes, Supported, Here, CheckFirst, EndOf, BodyOk, Inside, FnShape, There, HeadSize;
    ThereFacts(w, linked, fn, s);
    ThereNested(w, linked, fn, s);
    var st := Around(s.b, s.st) + Yields(s.b.bt);
    ThereFacts(w, linked, fn, After(fn, s, st));
    if s.b.Loop? {
      LoopShape(w, linked, fn, s);
      assert Around(s.b, s.st) + [] == s.st;
    }
  }

  lemma LoopShape(w: World, linked: set<nat>, fn: Checked, s: Spot)
    requires s.b.Loop? && There(w, linked, fn, s)
    ensures PlaceOk(fn.pl) && FnShape(fn, s.p + 7) == Some([s.st] + s.outer)
  {
    hide CalleesIn, PointIn, LabelShapes, Supported, Here, CheckAt, EndOf, BodyOk, FnShape, BodyShape, HeadSize, PlaceOk, Size;
    NestedSize(fn.pl.env, s.b, s.p, s.keeps);
    NestedShape(fn, s, s.p + 7);
  }

  lemma ThereArm(w: World, linked: set<nat>, fn: Checked, s: Spot)
    requires Nested(s.b) && There(w, linked, fn, s) && BodyOk(fn.pl.env, s.b, |s.keeps|)
    ensures There(w, linked, fn, ArmOf(fn, s))
    ensures CheckAt(fn, ArmOf(fn, s)) in {Falls(Yields(s.b.bt)), Never}
  {
    hide CalleesIn, PointIn, Shaped, LabelShapes, Supported, Here, CheckFirst, EndOf, BodyOk, Inside, Around, Yields, LabelOf, LabelTypes, HeadSize, FnShape, Keep, Check;
    ThereFacts(w, linked, fn, s);
    NestedChecked(CtxAt(fn, s), s.b, s.st);
    HereArm(w, linked, fn.pl, s.b, s.p, s.keeps, s.tgts);
    ShapedArm(fn, s);
    OwnLabel(w, linked, fn, s);
    LabelShapesCons(fn, s.labels, s.tgts, s.outer, LabelTypes(s.b), LabelOf(fn.pl.env, s.b, s.p, s.keeps), Around(s.b, s.st));
    CalleesSplitNested(w, linked, s.b);
    SupportedNext(s.b, s.keeps, Arities(s.labels));
    AritiesCons(LabelTypes(s.b), s.labels);
  }

  lemma ThereElse(w: World, linked: set<nat>, fn: Checked, s: Spot)
    requires s.b.IfElse? && There(w, linked, fn, s) && BodyOk(fn.pl.env, s.b, |s.keeps|)
    ensures There(w, linked, fn, ElseOf(fn, s))
    ensures CheckAt(fn, ElseOf(fn, s)) in {Falls(Yields(s.b.bt)), Never}
  {
    hide CalleesIn, PointIn, Shaped, LabelShapes, Supported, Here, CheckFirst, BodyOk, Inside, Around, Yields, LabelTypes, HeadSize, FnShape, Keep, Check, ElseSize, Enter, Size;
    ThereFacts(w, linked, fn, s);
    NestedChecked(CtxAt(fn, s), s.b, s.st);
    HereElse(w, linked, fn.pl, s.b, s.p, s.keeps, s.tgts);
    ShapedElse(fn, s);
    OwnLabel(w, linked, fn, s);
    LabelShapesCons(fn, s.labels, s.tgts, s.outer, LabelTypes(s.b), LabelOf(fn.pl.env, s.b, s.p, s.keeps), Around(s.b, s.st));
    CalleesSplitNested(w, linked, s.b);
    SupportedNext(s.b, s.keeps, Arities(s.labels));
    AritiesCons(LabelTypes(s.b), s.labels);
  }

  // ---------- where an address belongs ----------

  /** q is in the code of the spot's first instruction, outside of its arms. */
  predicate Owns(fn: Checked, s: Spot, q: int)
    requires BodyOk(fn.pl.env, s.b, |s.keeps|)
  {
    if s.b.Done? then false
    else if s.b.Atomic? then q == s.p || (s.b.atom.Call? && s.b.atom.fn < |fn.pl.env.sigs| && q == CallReturn(fn.pl.env, s.b.atom.fn, s.p))
    else
      || q == s.p || (s.b.Loop? && q == s.p + 7) || q == ArmEnd(fn, s)
      || (s.b.IfElse? && q == ArmEnd(fn, s) + ElseSize())
      || (s.b.IfElse? && q == ElseOf(fn, s).p + Size(fn.pl.env, s.b.els, ElseOf(fn, s).keeps))
  }

  /** Every point that validation gives operand types is the point of some instruction. */
  lemma {:induction false} Locate(w: World, linked: set<nat>, fn: Checked, s: Spot, q: int) returns (t: Spot)
    requires There(w, linked, fn, s) && BodyOk(fn.pl.env, s.b, |s.keeps|)
    requires BodyPoint(fn.pl.env, s.b, s.p, s.keeps, q).Some? && BodyShape(fn, s, q).Some?
    ensures There(w, linked, fn, t) && BodyOk(fn.pl.env, t.b, |t.keeps|) && Owns(fn, t, q)
    ensures BodyShape(fn, t, q) == BodyShape(fn, s, q)
    ensures BodyPoint(fn.pl.env, t.b, t.p, t.keeps, q) == BodyPoint(fn.pl.env, s.b, s.p, s.keeps, q)
    decreases s.b, 1
  {
    hide There, Size, AtomSize, HeadSize, EndOf, InnerPoint, CallReturn, BodyOk, FirstAt, InnerShape, Waiting;
    t := s;
    if s.b.Atomic? {
      SizeParts(fn.pl.env, s.b, s.keeps);
      if q >= s.p + 7 + AtomSize(fn.pl.env, s.b.atom, s.keeps) {
        var st := FirstAt(fn, s).st;
        ThereAtomic(w, linked, fn, s, st);
        t := Locate(w, linked, fn, After(fn, s, st), q);
      }
    } else if s.b.Done? {
    } else if q != s.p && !(s.b.Loop? && q == s.p + 7) {
      NestedSize(fn.pl.env, s.b, s.p, s.keeps);
      if q >= EndOf(fn.pl.env, s.b, s.p, s.keeps) {
        ThereNested(w, linked, fn, s);
        t := Locate(w, linked, fn, After(fn, s, FirstAt(fn, s).st), q);
      } else {
        t := LocateInner(w, linked, fn, s, q);
      }
    }
  }

  lemma LocateInner(w: World, linked: set<nat>, fn: Checked, s: Spot, q: int) returns (t: Spot)
    requires Nested(s.b) && There(w, linked, fn, s) && BodyOk(fn.pl.env, s.b, |s.keeps|)
    requires s.p + HeadSize(s.b) <= q < EndOf(fn.pl.env, s.b, s.p, s.keeps) && HeadSize(s.b) > 7
    requires InnerPoint(fn.pl.env, s.b, s.p, s.keeps, q).Some? && InnerShape(fn, s, q).Some?
    ensures There(w, linked, fn, t) && BodyOk(fn.pl.env, t.b, |t.keeps|) && Owns(fn, t, q)
    ensures BodyShape(fn, t, q) == InnerShape(fn, s, q)
    ensures BodyPoint(fn.pl.env, t.b, t.p, t.keeps, q) == InnerPoint(fn.pl.env, s.b, s.p, s.keeps, q)
    decreases s.b, 0
  {
    hide There, Size, HeadSize, EndOf, BodyPoint, BodyShape, EndShape, BodyOk, ElseSize, Enter, LabelOf, Keep, Around, LabelTypes;
    t := s;
    BodyOkParts(fn.pl.env, s.b, |s.keeps|);
    ArmSizes(fn.pl.env, s.b, s.p, s.keeps);
    if q < ArmEnd(fn, s) {
      ThereArm(w, linked, fn, s);
      t := Locate(w, linked, fn, ArmOf(fn, s), q);
    } else if s.b.IfElse? && ElseOf(fn, s).p <= q < ElseOf(fn, s).p + Size(fn.pl.env, s.b.els, ElseOf(fn, s).keeps) {
      ThereElse(w, linked, fn, s);
      t := Locate(w, linked, fn, ElseOf(fn, s), q);
    } else {
      NestedShape(fn, s, q);
      NestedSize(fn.pl.env, s.b, s.p, s.keeps);
      NestedPoint(fn.pl.env, s.b, s.p, s.keeps, q);
    }
  }
}
