/** From bytecode to behaviour: what compilation leaves in the plane for the functions of a module that
    are described, whatever else is in the module, and what running it does. */
module EndToEnd {
  import opened Words
  import opened Wasm
  import opened X86
  import opened Layout
  import opened Emitter
  import opened Bytecode
  import opened Emission
  import opened Closure
  import opened OpSim
  import opened CallSim
  import opened Fragment
  import opened Meaning
  import opened Endless
  import opened Points
  import opened OpcodeSteps
  import opened Depth
  import opened Typing
  import opened TypedRuns

  /** The types of the declared locals, group by group. */
  function Expand(groups: seq<LocalEntry>): (r: seq<U8>)
    ensures |r| == Total(groups)
  {
    if |groups| == 0 then []
    else
      var g := groups[|groups| - 1];
      Expand(groups[..|groups| - 1]) + seq(g.count, _ => g.ty)
  }

  /** The bytes are an encoding of the body and its final `end` (sections 5.4.5 and 5.4.6). */
  ghost predicate BodyEncoded(b: Body, bytes: seq<U8>) {
    exists parts :: AllEncoded(Flatten(b) + [OpEnd], parts) && bytes == Flat(parts)
  }

  /** The module's entry for f is the encoding of the well-formed function fn. */
  ghost predicate FnMatches(pg: Program, f: nat, fn: Func) {
    && pg.imports <= f < |pg.sigs| && f < pg.imports + |pg.codes|
    && fn.Defined? && fn.arity <= 1 && pg.sigs[f] == Sig(fn.cparams, fn.arity == 1)
    && fn.locals == Expand(pg.codes[f - pg.imports].groups)
    && BodyEncoded(fn.body, pg.codes[f - pg.imports].bytes)
    && BodyOk(EnvOf(pg, f), fn.body, 1)
  }

  /** The code laid out for function f at p. */
  ghost function FnCode(pg: Program, f: nat, fn: Func, p: nat): seq<Cell>
    requires FnMatches(pg, f, fn)
  {
    GenFn(EnvOf(pg, f), fn.cparams, fn.body, p)
  }

  lemma MatchFacts(pg: Program, f: nat, fn: Func)
    requires FnMatches(pg, f, fn)
    ensures pg.imports <= f < |pg.sigs| && f < pg.imports + |pg.codes| && fn.Defined?
  {
    hide BodyEncoded, BodyOk;
  }

  /** fs describes functions of the module.  A function it leaves out, because it is an import or for
      whatever other reason, is an `Import` there. */
  ghost predicate Matches(pg: Program, fs: seq<Func>) {
    && |fs| == |pg.sigs|
    && forall f :: 0 <= f < |fs| && fs[f].Defined? ==> FnMatches(pg, f, fs[f])
  }

  lemma MatchAt(pg: Program, fs: seq<Func>, g: nat)
    requires Matches(pg, fs) && g < |fs| && fs[g].Defined?
    ensures FnMatches(pg, g, fs[g])
  {
    hide FnMatches;
  }

  /** Described functions call described functions and imports only. */
  ghost predicate Closed(pg: Program, fs: seq<Func>) {
    forall f :: 0 <= f < |fs| && fs[f].Defined? ==> CallsDescribed(pg, fs, BodyCalls(fs[f].body))
  }

  predicate CallsDescribed(pg: Program, fs: seq<Func>, calls: seq<nat>) {
    forall i :: 0 <= i < |calls| ==> calls[i] < pg.imports || (calls[i] < |fs| && fs[calls[i]].Defined?)
  }

  // ---------- compilation succeeds ----------

  /** The code emitted for an encoded function is its layout. */
  lemma EmitFnMatches(pg: Program, code: seq<Cell>, f: nat, fn: Func)
    requires FnMatches(pg, f, fn) && IsNull(code, f)
    ensures EmitFn(pg, code, f) == Some(Em(code[8 * f := Ptr(|code|)] + FnCode(pg, f, fn, |code|), [], BodyCalls(fn.body)))
  {
    hide BodyOk, GenFn, Flatten, EmitAll, DecodeAll, AllEncoded, Flat, EmitBytes, StartFn, BodyCalls, Expand;
    var env, bytes := EnvOf(pg, f), pg.codes[f - pg.imports].bytes;
    var ops := Flatten(fn.body) + [OpEnd];
    var parts :| AllEncoded(ops, parts) && bytes == Flat(parts);
    DecodeRoundTrip(ops, parts);
    var start := code[8 * f := Ptr(|code|)];
    EmitBytesDecodes(env, StartFn(env, fn.cparams, start), bytes);
    EmitFunction(env, fn.cparams, fn.body, start);
  }

  lemma CalleesAre(pg: Program, code: seq<Cell>, f: nat, fn: Func)
    requires FnMatches(pg, f, fn) && IsNull(code, f)
    ensures fn.Defined? && Callees(pg, f) == BodyCalls(fn.body)
    ensures forall i :: 0 <= i < |BodyCalls(fn.body)| ==> BodyCalls(fn.body)[i] < |pg.sigs|
  {
    hide FnMatches, IsNull, FnCode, BodyCalls, EmitFn, Callees;
    MatchFacts(pg, f, fn);
    EmitFnMatches(pg, code, f, fn);
    EmitFnCalls(pg, code, f);
  }

  /** A closed set of well-formed functions compiles: every check in CompileFn passes. */
  lemma {:induction false} CompileSucceeds(pg: Program, fs: seq<Func>, code: seq<Cell>, f: nat)
    requires Matches(pg, fs) && Closed(pg, fs) && PlaneOk(pg, code) && f < |fs| && fs[f].Defined? && IsNull(code, f)
    ensures f < |pg.sigs| && Compile(pg, code, f).Some?
    decreases Nulls(pg, code), 0
  {
    hide EmitFn, PlaneOk, Extends, Nulls, IsNull, FnMatches, BodyCalls, FnCode, Callees, CallsDescribed;
    MatchFacts(pg, f, fs[f]);
    EmitFnMatches(pg, code, f, fs[f]);
    CalleesAre(pg, code, f, fs[f]);
    FnProgress(pg, code, f);
    CallsSucceed(pg, fs, EmitFn(pg, code, f).value.code, BodyCalls(fs[f].body));
  }

  lemma {:induction false} CallsSucceed(pg: Program, fs: seq<Func>, code: seq<Cell>, calls: seq<nat>)
    requires Matches(pg, fs) && Closed(pg, fs) && PlaneOk(pg, code) && CallsDescribed(pg, fs, calls)
    ensures CompileCalls(pg, code, calls).Some?
    decreases Nulls(pg, code), 1, |calls|
  {
    hide PlaneOk, Extends, Nulls, IsNull, Compile, Matches, Closed;
    if |calls| > 0 {
      var code1 := code;
      if calls[0] < |pg.sigs| && IsNull(code, calls[0]) {
        ImportsNotNull(pg, code, calls[0]);
        CompileSucceeds(pg, fs, code, calls[0]);
        code1 := Compile(pg, code, calls[0]).value;
      }
      CallsSucceed(pg, fs, code1, calls[1..]);
    }
  }

  // ---------- what the table points at ----------

  /** g's table entry points at the code laid out for it. */
  ghost predicate Placed(pg: Program, fs: seq<Func>, code: seq<Cell>, g: nat) {
    && g < |pg.sigs| && g < |fs| && FnMatches(pg, g, fs[g])
    && 8 * g < |code| && code[8 * g].Ptr? && code[8 * g].a >= TableEnd(pg)
    && At(code, code[8 * g].a, FnCode(pg, g, fs[g], code[8 * g].a))
  }

  lemma AtStays(pg: Program, a: seq<Cell>, b: seq<Cell>, p: int, s: seq<Cell>)
    requires Extends(pg, a, b) && p >= TableEnd(pg) && At(a, p, s)
    ensures At(b, p, s)
  {
    forall i | 0 <= i < |s| ensures b[p + i] == s[i] {
      assert b[p + i] == b[TableEnd(pg)..|a|][p + i - TableEnd(pg)];
      assert a[p + i] == a[TableEnd(pg)..][p + i - TableEnd(pg)];
    }
  }

  lemma PlacedStays(pg: Program, fs: seq<Func>, a: seq<Cell>, b: seq<Cell>, g: nat)
    requires PlaneOk(pg, a) && Extends(pg, a, b) && Placed(pg, fs, a, g)
    ensures Placed(pg, fs, b, g)
  {
    hide PlaneOk, At, FnCode, FnMatches, Extends;
    NotNullPlaced(pg, fs, a, g);
    NonNullStays(pg, a, b, g);
    SizeOf(pg, a, b);
    AtStays(pg, a, b, a[8 * g].a, FnCode(pg, g, fs[g], a[8 * g].a));
  }

  lemma SizeOf(pg: Program, a: seq<Cell>, b: seq<Cell>)
    requires Extends(pg, a, b)
    ensures TableEnd(pg) <= |a| <= |b|
  {
  }

  lemma NotNullPlaced(pg: Program, fs: seq<Func>, code: seq<Cell>, g: nat)
    requires Placed(pg, fs, code, g)
    ensures g < |pg.sigs| && g < |fs| && FnMatches(pg, g, fs[g]) && !IsNull(code, g)
  {
    hide At, FnMatches, FnCode;
  }

  /** Where g's code ends. */
  ghost function FnStop(pg: Program, fs: seq<Func>, code: seq<Cell>, g: nat): nat
    requires Placed(pg, fs, code, g)
  {
    code[8 * g].a + |FnCode(pg, g, fs[g], code[8 * g].a)|
  }

  /** The code of g and that of h do not overlap. */
  ghost predicate Disjoint(pg: Program, fs: seq<Func>, code: seq<Cell>, g: nat, h: nat) {
    && Placed(pg, fs, code, g) && Placed(pg, fs, code, h)
    && (FnStop(pg, fs, code, g) <= code[8 * h].a || FnStop(pg, fs, code, h) <= code[8 * g].a)
  }

  predicate Filled(fs: seq<Func>, code: seq<Cell>, g: nat) { g < |fs| && fs[g].Defined? && !IsNull(code, g) }

  /** Every entry of a described function that is not null points at that function's code, whose callees
      are not null either; no two of them share code. */
  ghost predicate TableOk(pg: Program, fs: seq<Func>, code: seq<Cell>) {
    && (forall g: nat :: Filled(fs, code, g) ==> Placed(pg, fs, code, g) && NoneNull(pg, code, Callees(pg, g)))
    && (forall g: nat, h: nat :: Filled(fs, code, g) && Filled(fs, code, h) && g != h ==> Disjoint(pg, fs, code, g, h))
  }

  predicate Newly(pg: Program, fs: seq<Func>, code: seq<Cell>, code': seq<Cell>, g: nat) {
    NewlyCompiled(pg, code, code', g) && g < |fs| && fs[g].Defined?
  }

  ghost predicate PlacedFrom(pg: Program, fs: seq<Func>, code: seq<Cell>, g: nat, lo: nat) {
    Placed(pg, fs, code, g) && code[8 * g].a >= lo
  }

  /** What was compiled between two planes is placed after the first, without overlaps. */
  ghost predicate NewPlaced(pg: Program, fs: seq<Func>, code: seq<Cell>, code': seq<Cell>) {
    && (forall g: nat :: Newly(pg, fs, code, code', g) ==> PlacedFrom(pg, fs, code', g, |code|))
    && (forall g: nat, h: nat :: Newly(pg, fs, code, code', g) && Newly(pg, fs, code, code', h) && g != h ==> Disjoint(pg, fs, code', g, h))
  }

  lemma StopIn(pg: Program, fs: seq<Func>, code: seq<Cell>, g: nat)
    requires Placed(pg, fs, code, g)
    ensures FnStop(pg, fs, code, g) <= |code|
  {
    hide FnMatches, FnCode;
  }

  /** Placed functions stay where they are. */
  lemma StopStays(pg: Program, fs: seq<Func>, a: seq<Cell>, b: seq<Cell>, g: nat)
    requires PlaneOk(pg, a) && Extends(pg, a, b) && Placed(pg, fs, a, g)
    ensures Placed(pg, fs, b, g) && a[8 * g].a == b[8 * g].a && FnStop(pg, fs, a, g) == FnStop(pg, fs, b, g) <= |a|
  {
    hide PlaneOk, At, FnCode, FnMatches, Extends;
    PlacedStays(pg, fs, a, b, g);
    NotNullPlaced(pg, fs, a, g);
    NonNullStays(pg, a, b, g);
    StopIn(pg, fs, a, g);
  }

  lemma DisjointStays(pg: Program, fs: seq<Func>, a: seq<Cell>, b: seq<Cell>, g: nat, h: nat)
    requires PlaneOk(pg, a) && Extends(pg, a, b) && Disjoint(pg, fs, a, g, h)
    ensures Disjoint(pg, fs, b, g, h)
  {
    hide PlaneOk, Placed, FnStop, Extends;
    StopStays(pg, fs, a, b, g);
    StopStays(pg, fs, a, b, h);
  }

  /** A function placed before and one placed after a point do not overlap. */
  lemma DisjointAcross(pg: Program, fs: seq<Func>, a: seq<Cell>, b: seq<Cell>, g: nat, h: nat)
    requires PlaneOk(pg, a) && Extends(pg, a, b) && Placed(pg, fs, a, g) && Placed(pg, fs, b, h) && b[8 * h].a >= |a|
    ensures Disjoint(pg, fs, b, g, h) && Disjoint(pg, fs, b, h, g)
  {
    hide PlaneOk, Placed, FnStop, Extends;
    StopStays(pg, fs, a, b, g);
  }

  lemma NewPlacedTrans(pg: Program, fs: seq<Func>, a: seq<Cell>, b: seq<Cell>, c: seq<Cell>)
    requires PlaneOk(pg, b) && Extends(pg, a, b) && Extends(pg, b, c)
    requires NewPlaced(pg, fs, a, b) && NewPlaced(pg, fs, b, c)
    ensures NewPlaced(pg, fs, a, c)
  {
    hide PlaneOk, Extends, IsNull, Placed, FnMatches, Disjoint, FnStop;
    SizeOf(pg, a, b);
    forall g: nat | Newly(pg, fs, a, c, g) ensures PlacedFrom(pg, fs, c, g, |a|) {
      assert Newly(pg, fs, a, b, g) || Newly(pg, fs, b, c, g);
      if !IsNull(b, g) { StopStays(pg, fs, b, c, g); }
    }
    forall g: nat, h: nat | Newly(pg, fs, a, c, g) && Newly(pg, fs, a, c, h) && g != h ensures Disjoint(pg, fs, c, g, h) {
      assert Newly(pg, fs, a, b, g) || Newly(pg, fs, b, c, g);
      assert Newly(pg, fs, a, b, h) || Newly(pg, fs, b, c, h);
      if !IsNull(b, g) && !IsNull(b, h) { DisjointStays(pg, fs, b, c, g, h); }
      else if !IsNull(b, g) { DisjointAcross(pg, fs, b, c, g, h); }
      else if !IsNull(b, h) { DisjointAcross(pg, fs, b, c, h, g); }
    }
  }

  lemma FirstPlaced(pg: Program, fs: seq<Func>, code: seq<Cell>, f: nat)
    requires Matches(pg, fs) && PlaneOk(pg, code) && f < |pg.sigs| && IsNull(code, f) && EmitFn(pg, code, f).Some?
    ensures NewPlaced(pg, fs, code, EmitFn(pg, code, f).value.code)
  {
    hide PlaneOk, EmitFn, FnMatches, FnCode, IsNull, BodyCalls, At, Disjoint;
    var code1 := EmitFn(pg, code, f).value.code;
    PlaneSize(pg, code);
    forall g: nat | Newly(pg, fs, code, code1, g) ensures g == f && PlacedFrom(pg, fs, code1, g, |code|) {
      if g != f {
        OnlyOne(pg, code, f, g);
      } else {
        EmitFnMatches(pg, code, f, fs[f]);
        AtEnd(code[8 * f := Ptr(|code|)], FnCode(pg, f, fs[f], |code|));
      }
    }
  }

  lemma AtEnd(a: seq<Cell>, s: seq<Cell>)
    ensures At(a + s, |a|, s)
  {
  }

  lemma {:induction false} CompilePlaces(pg: Program, fs: seq<Func>, code: seq<Cell>, f: nat)
    requires Matches(pg, fs) && PlaneOk(pg, code) && f < |pg.sigs| && IsNull(code, f) && Compile(pg, code, f).Some?
    ensures NewPlaced(pg, fs, code, Compile(pg, code, f).value)
    decreases Nulls(pg, code), 0
  {
    hide EmitFn, PlaneOk, Extends, Nulls, IsNull, Matches, NewPlaced;
    var em := EmitFn(pg, code, f).value;
    FirstPlaced(pg, fs, code, f);
    FnProgress(pg, code, f);
    CallsPlace(pg, fs, em.code, em.calls);
    CallsExtend(pg, em.code, em.calls);
    NewPlacedTrans(pg, fs, code, em.code, Compile(pg, code, f).value);
  }

  lemma {:induction false} CallsPlace(pg: Program, fs: seq<Func>, code: seq<Cell>, calls: seq<nat>)
    requires Matches(pg, fs) && PlaneOk(pg, code) && CompileCalls(pg, code, calls).Some?
    ensures NewPlaced(pg, fs, code, CompileCalls(pg, code, calls).value)
    decreases Nulls(pg, code), 1, |calls|
  {
    hide PlaneOk, Extends, Nulls, IsNull, Compile, Matches, NewPlaced;
    if |calls| == 0 {
      NothingPlaced(pg, fs, code);
    } else if calls[0] < |pg.sigs| && IsNull(code, calls[0]) {
      var code1 := Compile(pg, code, calls[0]).value;
      CompilePlaces(pg, fs, code, calls[0]);
      CompileExtends(pg, code, calls[0]);
      CallsPlace(pg, fs, code1, calls[1..]);
      CallsExtend(pg, code1, calls[1..]);
      NewPlacedTrans(pg, fs, code, code1, CompileCalls(pg, code, calls).value);
    } else {
      CallsPlace(pg, fs, code, calls[1..]);
    }
  }

  lemma NothingPlaced(pg: Program, fs: seq<Func>, code: seq<Cell>)
    ensures NewPlaced(pg, fs, code, code)
  {
    hide Placed, Disjoint, IsNull;
  }

  /** The table invariant survives every compilation, of described functions and of others. */
  lemma CompileKeepsTable(pg: Program, fs: seq<Func>, code: seq<Cell>, f: nat)
    requires Matches(pg, fs) && PlaneOk(pg, code) && TableOk(pg, fs, code) && f < |pg.sigs| && IsNull(code, f)
    requires Compile(pg, code, f).Some?
    ensures var code' := Compile(pg, code, f).value;
      TableOk(pg, fs, code') && Extends(pg, code, code') && !IsNull(code', f)
  {
    hide EmitFn, PlaneOk, Extends, Nulls, IsNull, Matches, Placed, NoneNull, Callees, Compile, FnStop, Disjoint;
    var code' := Compile(pg, code, f).value;
    CompileExtends(pg, code, f);
    CompilePlaces(pg, fs, code, f);
    CompileCloses(pg, code, f);
    MatchSize(pg, fs);
    forall g: nat | Filled(fs, code', g) ensures Placed(pg, fs, code', g) && NoneNull(pg, code', Callees(pg, g)) {
      assert Filled(fs, code, g) || Newly(pg, fs, code, code', g);
      if !IsNull(code, g) {
        PlacedStays(pg, fs, code, code', g);
        NoneNullStays(pg, code, code', Callees(pg, g));
      }
    }
    forall g: nat, h: nat | Filled(fs, code', g) && Filled(fs, code', h) && g != h ensures Disjoint(pg, fs, code', g, h) {
      assert Filled(fs, code, g) || Newly(pg, fs, code, code', g);
      assert Filled(fs, code, h) || Newly(pg, fs, code, code', h);
      if !IsNull(code, g) && !IsNull(code, h) { DisjointStays(pg, fs, code, code', g, h); }
      else if !IsNull(code, g) { DisjointAcross(pg, fs, code, code', g, h); }
      else if !IsNull(code, h) { DisjointAcross(pg, fs, code, code', h, g); }
    }
  }

  lemma MatchSize(pg: Program, fs: seq<Func>)
    requires Matches(pg, fs)
    ensures |fs| == |pg.sigs|
  {
  }

  // ---------- the compiled plane ----------

  /** The described functions that are compiled. */
  function Compiled(fs: seq<Func>, code: seq<Cell>): set<nat> {
    set g: nat | g < |fs| && Filled(fs, code, g)
  }

  function WorldOf(pg: Program, fs: seq<Func>, plane: seq<Cell>): World { World(plane, pg.imports, pg.sigs, fs) }

  lemma WorldIsOk(pg: Program, fs: seq<Func>, plane: seq<Cell>)
    requires Matches(pg, fs) && PlaneOk(pg, plane) && |plane| < T32
    ensures WorldOk(WorldOf(pg, fs, plane))
  {
    hide BodyEncoded, BodyOk, Expand;
    forall f | 0 <= f < |fs| && fs[f].Defined?
      ensures f >= pg.imports && fs[f].arity <= 1 && pg.sigs[f] == Sig(fs[f].cparams, fs[f].arity == 1)
    {
      assert FnMatches(pg, f, fs[f]);
    }
  }

  lemma PlacedIsPresent(pg: Program, fs: seq<Func>, plane: seq<Cell>, g: nat)
    requires Placed(pg, fs, plane, g)
    ensures Present(WorldOf(pg, fs, plane), g)
  {
    MatchFacts(pg, g, fs[g]);
    hide Matches, BodyEncoded, BodyOk, GenFn, At;
    assert FnEnv(WorldOf(pg, fs, plane), g) == EnvOf(pg, g);
  }

  /** Every described function is one whose code means what its body does. */
  predicate AllSupported(fs: seq<Func>) {
    forall f :: 0 <= f < |fs| && fs[f].Defined? ==> Supported(fs[f].body, [true], [fs[f].arity])
  }

  /** When the table invariant holds, the compiled functions are linked. */
  lemma TableLinks(pg: Program, fs: seq<Func>, plane: seq<Cell>)
    requires Matches(pg, fs) && AllSupported(fs) && TableOk(pg, fs, plane)
    ensures Linked(WorldOf(pg, fs, plane), Compiled(fs, plane))
  {
    hide PlaneOk, Present, Placed, NoneNull, Callees, FnMatches, IsNull, Supported, Disjoint;
    var w := WorldOf(pg, fs, plane);
    var linked := Compiled(fs, plane);
    forall g | g in linked ensures g < |fs| && fs[g].Defined? && Ready(w, g) && CalleesIn(w, linked, BodyCalls(fs[g].body)) {
      PlacedIsPresent(pg, fs, plane, g);
      CalleesLinked(pg, fs, plane, g);
    }
  }

  lemma CalleesLinked(pg: Program, fs: seq<Func>, plane: seq<Cell>, g: nat)
    requires Matches(pg, fs) && g < |fs| && fs[g].Defined? && NoneNull(pg, plane, Callees(pg, g))
    ensures CalleesIn(WorldOf(pg, fs, plane), Compiled(fs, plane), BodyCalls(fs[g].body))
    ensures NoneNull(pg, plane, BodyCalls(fs[g].body))
  {
    MatchAt(pg, fs, g);
    MatchFacts(pg, g, fs[g]);
    hide FnMatches, Callees, BodyCalls;
    CalleesAre(pg, NullPlane(pg), g, fs[g]);
  }

  /** A plane whose table is all null. */
  function NullPlane(pg: Program): (r: seq<Cell>)
    ensures forall f: nat :: f < |pg.sigs| ==> IsNull(r, f)
  {
    seq(8 * |pg.sigs|, _ => Ptr(0))
  }

  lemma PadKeeps(pg: Program, fs: seq<Func>, code: seq<Cell>, plane: seq<Cell>)
    requires Matches(pg, fs) && PlaneOk(pg, code) && TableOk(pg, fs, code) && code <= plane
    ensures PlaneOk(pg, plane) && TableOk(pg, fs, plane)
  {
    hide Placed, NoneNull, Callees, FnMatches, IsNull, PlaneOk, Extends, Disjoint;
    PadExtends(pg, code, plane);
    ExtendsKeepsOk(pg, code, plane);
    forall g: nat | Filled(fs, plane, g) ensures Placed(pg, fs, plane, g) && NoneNull(pg, plane, Callees(pg, g)) {
      PadNulls(pg, code, plane, g);
      PlacedStays(pg, fs, code, plane, g);
      NoneNullStays(pg, code, plane, Callees(pg, g));
    }
    forall g: nat, h: nat | Filled(fs, plane, g) && Filled(fs, plane, h) && g != h ensures Disjoint(pg, fs, plane, g, h) {
      PadNulls(pg, code, plane, g);
      PadNulls(pg, code, plane, h);
      DisjointStays(pg, fs, code, plane, g, h);
    }
  }

  lemma PadExtends(pg: Program, code: seq<Cell>, plane: seq<Cell>)
    requires PlaneOk(pg, code) && code <= plane
    ensures Extends(pg, code, plane)
  {
    assert forall i :: 0 <= i < |code| ==> plane[i] == code[i];
  }

  lemma PadNulls(pg: Program, code: seq<Cell>, plane: seq<Cell>, g: nat)
    requires PlaneOk(pg, code) && code <= plane && g < |pg.sigs|
    ensures IsNull(plane, g) <==> IsNull(code, g)
  {
  }

  /** A plane whose table satisfies the invariant is a linked program. */
  lemma PlaneLinks(pg: Program, fs: seq<Func>, code: seq<Cell>, f: nat, plane: seq<Cell>)
    requires Matches(pg, fs) && AllSupported(fs) && PlaneOk(pg, code) && TableOk(pg, fs, code) && code <= plane && |plane| < T32
    requires Filled(fs, code, f)
    ensures var w, linked := WorldOf(pg, fs, plane), Compiled(fs, plane);
      WorldOk(w) && Linked(w, linked) && f in linked && Ready(w, f)
  {
    hide PlaneOk, TableOk, FnMatches, Linked, Ready, IsNull, WorldOk, Extends, AllSupported;
    PadKeeps(pg, fs, code, plane);
    PadNulls(pg, code, plane, f);
    WorldIsOk(pg, fs, plane);
    TableLinks(pg, fs, plane);
    LinkedReady(WorldOf(pg, fs, plane), Compiled(fs, plane), f);
  }

  /** Calling a compiled function: whatever else was compiled before, the machine does what the
      interpreter says, for every argument list and every recursion depth; while the interpreter needs
      more fuel it keeps running, and when it stops it has stopped as the interpreter does. */
  lemma CompiledRuns(pg: Program, fs: seq<Func>, code: seq<Cell>, f: nat, plane: seq<Cell>, c: Cpu, args: seq<Value>, fuel: nat)
    requires Matches(pg, fs) && AllSupported(fs) && PlaneOk(pg, code) && TableOk(pg, fs, code) && code <= plane && |plane| < T32
    requires Filled(fs, code, f)
    requires 8 * f < |plane| && plane[8 * f].Ptr? && c.pc == plane[8 * f].a
    requires |c.rs| > 0 && Locals(c, args) && |args| == fs[f].cparams
    ensures CallEnds(plane, c, Invoke(fs, f, args, fuel))
    ensures Invoke(fs, f, args, fuel) == NoFuel ==> RunsOn(plane, c, fuel)
    ensures !Run(plane, c, fuel).Go? && NoCode(plane, c.rs[0]) ==>
      StoppedLike(plane, c, Invoke(fs, f, args, fuel), Run(plane, c, fuel))
  {
    hide PlaneOk, TableOk, Matches, Linked, Ready, IsNull, Locals, CallEnds, Invoke, WorldOk, RunsOn, StoppedLike, Run, AllSupported;
    PlaneLinks(pg, fs, code, f, plane);
    var w, linked := WorldOf(pg, fs, plane), Compiled(fs, plane);
    SimFn(w, linked, f, c, args, fuel);
    if Invoke(fs, f, args, fuel) == NoFuel { LongFn(w, linked, f, c, args, fuel); }
    if !Run(plane, c, fuel).Go? && NoCode(plane, c.rs[0]) { StopsAlike(w, linked, f, c, args, fuel); }
  }

  lemma LinkedReady(w: World, linked: set<nat>, f: nat)
    requires Linked(w, linked) && f in linked
    ensures Ready(w, f)
  {
    hide Ready, CalleesIn;
  }

  // ---------- the machine stack ----------

  lemma CalleesPlanted(pg: Program, fs: seq<Func>, plane: seq<Cell>, calls: seq<nat>)
    requires PlaneOk(pg, plane) && TableOk(pg, fs, plane) && NoneNull(pg, plane, calls) && CallsDescribed(pg, fs, calls) && |fs| == |pg.sigs|
    ensures CallsOk(WorldOf(pg, fs, plane), Compiled(fs, plane), calls)
  {
    hide Disjoint, Callees, TableOk, IsNull;
    var w, linked := WorldOf(pg, fs, plane), Compiled(fs, plane);
    forall i | 0 <= i < |calls|
      ensures 8 * calls[i] < |plane|
      ensures if calls[i] in linked then plane[8 * calls[i]].Ptr? && plane[8 * calls[i]].a != 0 else plane[8 * calls[i]] == Extern(WasmToC)
    {
      if calls[i] in linked {
        TablePlaced(pg, fs, plane, calls[i]);
        PlacedPtr(pg, fs, plane, calls[i]);
      }
    }
  }

  lemma TablePlaced(pg: Program, fs: seq<Func>, plane: seq<Cell>, g: nat)
    requires TableOk(pg, fs, plane) && Filled(fs, plane, g)
    ensures Placed(pg, fs, plane, g) && NoneNull(pg, plane, Callees(pg, g))
  {
    hide Placed, NoneNull, Callees, Disjoint;
  }

  lemma PlacedPtr(pg: Program, fs: seq<Func>, plane: seq<Cell>, g: nat)
    requires Placed(pg, fs, plane, g)
    ensures 8 * g < |plane| && plane[8 * g].Ptr? && plane[8 * g].a != 0
  {
    hide FnMatches, FnCode, At;
  }

  /** The table's functions as places of the plane. */
  lemma PlacedStop(pg: Program, fs: seq<Func>, plane: seq<Cell>, g: nat)
    requires Placed(pg, fs, plane, g)
    ensures var w := WorldOf(pg, fs, plane);
      && HasPlace(w, g) && PlaceOk(PlaceOf(w, g)) && PlaceOf(w, g).a == plane[8 * g].a
      && RetAt(PlaceOf(w, g)) + 1 == FnStop(pg, fs, plane, g)
  {
    MatchFacts(pg, g, fs[g]);
    hide Matches, BodyEncoded, BodyOk, At, Gen, Size, Prologue, Close, CloseSize;
    assert FnEnv(WorldOf(pg, fs, plane), g) == EnvOf(pg, g);
  }

  lemma DisjointApart(pg: Program, fs: seq<Func>, plane: seq<Cell>, g: nat, h: nat)
    requires Disjoint(pg, fs, plane, g, h)
    ensures var w := WorldOf(pg, fs, plane);
      Apart(w, g, h)
  {
    hide Placed, PlaceOk, PlaceOf, HasPlace, FnStop, RetAt;
    PlacedStop(pg, fs, plane, g);
    PlacedStop(pg, fs, plane, h);
  }

  /** The described functions that are compiled form a program that the stack discipline holds for. */
  lemma TablePlants(pg: Program, fs: seq<Func>, plane: seq<Cell>)
    requires Matches(pg, fs) && Closed(pg, fs) && PlaneOk(pg, plane) && TableOk(pg, fs, plane) && |plane| < T32
    ensures Planted(WorldOf(pg, fs, plane), Compiled(fs, plane))
  {
    hide PlaneOk, Present, Placed, NoneNull, Callees, FnMatches, IsNull, Disjoint, Apart, CallsOk, CallsDescribed, TableOk, PlaceOk, PlaceOf;
    var w := WorldOf(pg, fs, plane);
    var linked := Compiled(fs, plane);
    HelperThere(pg, plane);
    forall g | g in linked ensures Present(w, g) && CallsOk(w, linked, BodyCalls(fs[g].body)) {
      TablePlaced(pg, fs, plane, g);
      PlacedIsPresent(pg, fs, plane, g);
      CalleesLinked(pg, fs, plane, g);
      CalleesPlanted(pg, fs, plane, BodyCalls(fs[g].body));
    }
    forall g, h | g in linked && h in linked && g != h ensures Apart(w, g, h) {
      TableDisjoint(pg, fs, plane, g, h);
      DisjointApart(pg, fs, plane, g, h);
    }
  }

  lemma HelperThere(pg: Program, plane: seq<Cell>)
    requires PlaneOk(pg, plane)
    ensures 8 * |pg.sigs| + 8 < |plane| && plane[8 * |pg.sigs| + 8] == Extern(BranchTable)
  {
  }

  lemma TableDisjoint(pg: Program, fs: seq<Func>, plane: seq<Cell>, g: nat, h: nat)
    requires TableOk(pg, fs, plane) && Filled(fs, plane, g) && Filled(fs, plane, h) && g != h
    ensures Disjoint(pg, fs, plane, g, h)
  {
    hide Placed, NoneNull, Callees, Disjoint;
  }

  /** A compiled function of a closed description, called with anything: the machine stack is as it
      should be after every number of steps.  Nothing is asked of the bodies but that they are
      well-formed. */
  lemma CompiledDepth(pg: Program, fs: seq<Func>, code: seq<Cell>, f: nat, plane: seq<Cell>, c: Cpu, n: nat)
    requires Matches(pg, fs) && Closed(pg, fs) && PlaneOk(pg, code) && TableOk(pg, fs, code) && code <= plane && |plane| < T32
    requires Filled(fs, code, f) && 8 * f < |plane| && plane[8 * f].Ptr? && c.pc == plane[8 * f].a && |c.rs| > 0
    ensures var w, linked := WorldOf(pg, fs, plane), Compiled(fs, plane);
      Planted(w, linked) && f in linked && DepthAt(w, linked, c.rs, c, n)
  {
    hide PlaneOk, TableOk, FnMatches, IsNull, Planted, Extends, Closed, DepthOk, Ended, Run;
    PadKeeps(pg, fs, code, plane);
    PadNulls(pg, code, plane, f);
    TablePlants(pg, fs, plane);
    StackDepth(WorldOf(pg, fs, plane), Compiled(fs, plane), f, c, n);
  }

  // ---------- types ----------

  /** A compiled function of a closed and valid description, called with arguments of its parameter types:
      after every number of steps all values have their types. */
  lemma CompiledTypes(pg: Program, fs: seq<Func>, fts: seq<Option<FType>>, code: seq<Cell>, f: nat, plane: seq<Cell>, c: Cpu, args: seq<Value>, n: nat)
    requires Matches(pg, fs) && Closed(pg, fs) && AllSupported(fs) && PlaneOk(pg, code) && TableOk(pg, fs, code) && code <= plane && |plane| < T32
    requires Filled(fs, code, f) && 8 * f < |plane| && plane[8 * f].Ptr? && c.pc == plane[8 * f].a && |c.rs| > 0
    requires ModuleTyped(fts, fs) && f < |fts| && fts[f].Some? && Locals(c, args) && HasTypes(args, fts[f].value.params)
    ensures var w, linked := WorldOf(pg, fs, plane), Compiled(fs, plane);
      Validated(w, linked, fts) && Has(linked, fts, f) && TypesAfter(w, linked, fts, f, c.rs, c, n)
  {
    hide PlaneOk, TableOk, FnMatches, IsNull, Planted, Extends, Closed, Linked, WorldOk, Ready, ModuleTyped, AllSupported, TypesOk, Finished, Run, HasTypes, Locals;
    PadKeeps(pg, fs, code, plane);
    PlaneLinks(pg, fs, code, f, plane);
    TablePlants(pg, fs, plane);
    TypeSafety(WorldOf(pg, fs, plane), Compiled(fs, plane), fts, f, c, args, n);
  }
}
