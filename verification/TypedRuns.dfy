/** Type safety of compiled code, in every reachable state: at the start of an opcode, rax, the operand
    slots and the locals hold values of the types that validation gives them there, in the running
    function and in every function that waits for it. */
module TypedRuns {
  import opened Words
  import opened Wasm
  import opened X86
  import opened OpSim
  import opened Layout
  import opened ControlSim
  import opened Pieces
  import opened Fragment
  import opened Between
  import opened Points
  import opened OpcodeSteps
  import opened Depth
  import opened Typing
  import opened Shapes
  import opened Frames
  import opened TypedSteps
  import opened TypedCalls
  import opened TypedFns

  // ---------- the program ----------

  /** The linked functions are supported and in the plane, and the module is valid. */
  ghost predicate Validated(w: World, linked: set<nat>, fts: seq<Option<FType>>) {
    WorldOk(w) && Linked(w, linked) && Planted(w, linked) && ModuleTyped(fts, w.fs)
  }

  predicate Has(linked: set<nat>, fts: seq<Option<FType>>, g: nat) { g in linked && g < |fts| && fts[g].Some? }

  lemma HasFn(w: World, linked: set<nat>, fts: seq<Option<FType>>, g: nat)
    requires Validated(w, linked, fts) && Has(linked, fts, g)
    ensures HasPlace(w, g) && PlaceOk(PlaceOf(w, g)) && FnHere(w, linked, PlaceOf(w, g)) && Ready(w, g)
    ensures FnTyped(fts, fts[g].value, w.fs[g]) && CalleesIn(w, linked, BodyCalls(w.fs[g].body))
  {
    hide Planted, FnHere, Ready, CalleesIn, FnTyped, PlaceOk, WorldOk;
    PlantedFn(w, linked, g);
  }

  ghost function View(w: World, linked: set<nat>, fts: seq<Option<FType>>, g: nat): (fn: Checked)
    requires Validated(w, linked, fts) && Has(linked, fts, g)
    ensures PlaceOk(fn.pl)
  {
    hide Validated, PlaceOk, FnHere, Ready, CalleesIn;
    HasFn(w, linked, fts, g);
    Checked(PlaceOf(w, g), fts, fts[g].value.params + ZeroTypes(w.fs[g].locals), fts[g].value.ret)
  }

  lemma ViewSound(w: World, linked: set<nat>, fts: seq<Option<FType>>, g: nat)
    requires Validated(w, linked, fts) && Has(linked, fts, g)
    ensures FnSound(w, linked, View(w, linked, fts, g)) && |View(w, linked, fts, g).locals| == View(w, linked, fts, g).pl.env.clocals
    ensures HasPlace(w, g) && View(w, linked, fts, g).pl == PlaceOf(w, g)
    ensures forall q: int :: FnPoint(w, linked, g, q) == PointIn(View(w, linked, fts, g).pl, q)
  {
    hide Planted, FnHere, Present, CalleesIn, PlaceOk, Check, Supported, PointIn, Linked;
    HasFn(w, linked, fts, g);
    var pl := PlantedPlace(w, linked, g);
    assert w.fs[g].arity <= 1;
  }

  // ---------- the waiting functions ----------

  /** rs starts with a return address in h, which is waiting for g under k labels; h's operands are all in
      memory below lim, and its locals right below rbx. */
  ghost predicate Caller(w: World, linked: set<nat>, fts: seq<Option<FType>>, h: nat, k: nat, g: nat, rs: seq<int>, lim: int, rbx: int,
                         m: Memory, loc: Memory): (r: bool)
    requires Validated(w, linked, fts)
    ensures r ==> k + 2 < |rs| && Has(linked, fts, h)
  {
    hide Validated, PlaceOk, FnShape, PointIn;
    && 0 < k && k + 2 < |rs| && Has(linked, fts, h)
    && var fn := View(w, linked, fts, h);
      && PointIn(fn.pl, rs[0]) == Some(ReturnTo(k, g)) && FnShape(fn, rs[0]).Some? && |FnShape(fn, rs[0]).value| == k
      && rs[1] <= lim && Resting(m, rs[1..], FnShape(fn, rs[0]).value) && LocalsFit(loc, rbx - |fn.locals|, fn.locals)
  }

  /** The functions waiting for g, out to the caller of f0 with the machine stack rs0. */
  ghost predicate Callers(w: World, linked: set<nat>, fts: seq<Option<FType>>, f0: nat, rs0: seq<int>, g: nat, rs: seq<int>, lim: int, rbx: int, m: Memory, loc: Memory)
    requires Validated(w, linked, fts)
    decreases |rs|
  {
    hide Validated, Resting, LocalsFit, View, FnShape, PlaceOk, PointIn;
    || (rs == rs0 && g == f0)
    || exists h, k: nat :: Caller(w, linked, fts, h, k, g, rs, lim, rbx, m, loc)
         && Callers(w, linked, fts, f0, rs0, h, rs[k + 2..], rs[k + 1] - 1, rbx - |View(w, linked, fts, h).locals|, m, loc)
  }

  lemma CallerSame(w: World, linked: set<nat>, fts: seq<Option<FType>>, h: nat, k: nat, g: nat, rs: seq<int>, lim: int, rbx: int,
                   m: Memory, loc: Memory, m': Memory, loc': Memory)
    requires Validated(w, linked, fts) && Caller(w, linked, fts, h, k, g, rs, lim, rbx, m, loc)
    requires (forall a :: a < lim ==> Rd(m', a) == Rd(m, a)) && forall a :: a < rbx ==> Rd(loc', a) == Rd(loc, a)
    ensures Caller(w, linked, fts, h, k, g, rs, lim, rbx, m', loc')
    ensures k + 2 < |rs| && rs[k + 1] <= lim
  {
    hide Validated, Rd, View, FnShape, PointIn, PlaceOk, Resting, LocalsFit;
    var fn := View(w, linked, fts, h);
    var sh := FnShape(fn, rs[0]).value;
    RestingSame(m, m', rs[1..], sh);
    RestingBottom(m, rs[1..], sh);
    LocalsFitSame(loc, loc', rbx - |fn.locals|, fn.locals, rbx);
  }

  lemma CallersOf(w: World, linked: set<nat>, fts: seq<Option<FType>>, f0: nat, rs0: seq<int>, g: nat, rs: seq<int>, lim: int, rbx: int,
                  m: Memory, loc: Memory) returns (h: nat, k: nat)
    requires Validated(w, linked, fts) && Callers(w, linked, fts, f0, rs0, g, rs, lim, rbx, m, loc) && !(rs == rs0 && g == f0)
    ensures Caller(w, linked, fts, h, k, g, rs, lim, rbx, m, loc)
    ensures Callers(w, linked, fts, f0, rs0, h, rs[k + 2..], rs[k + 1] - 1, rbx - |View(w, linked, fts, h).locals|, m, loc)
  {
    hide Validated, View, Caller;
    h, k :| Caller(w, linked, fts, h, k, g, rs, lim, rbx, m, loc)
      && Callers(w, linked, fts, f0, rs0, h, rs[k + 2..], rs[k + 1] - 1, rbx - |View(w, linked, fts, h).locals|, m, loc);
  }

  lemma CallersNone(w: World, linked: set<nat>, fts: seq<Option<FType>>, f0: nat, rs0: seq<int>, lim: int, rbx: int, m: Memory, loc: Memory)
    requires Validated(w, linked, fts)
    ensures Callers(w, linked, fts, f0, rs0, f0, rs0, lim, rbx, m, loc)
  {
    hide Validated, View, Caller;
  }

  lemma CallersStep(w: World, linked: set<nat>, fts: seq<Option<FType>>, f0: nat, rs0: seq<int>, h: nat, k: nat, g: nat, rs: seq<int>, lim: int, rbx: int,
                    m: Memory, loc: Memory)
    requires Validated(w, linked, fts) && Caller(w, linked, fts, h, k, g, rs, lim, rbx, m, loc)
    requires Callers(w, linked, fts, f0, rs0, h, rs[k + 2..], rs[k + 1] - 1, rbx - |View(w, linked, fts, h).locals|, m, loc)
    ensures Callers(w, linked, fts, f0, rs0, g, rs, lim, rbx, m, loc)
  {
    hide Validated, View, Caller;
  }

  /** What is written above lim and rbx does not touch them. */
  lemma {:induction false} CallersSame(w: World, linked: set<nat>, fts: seq<Option<FType>>, f0: nat, rs0: seq<int>, g: nat, rs: seq<int>, lim: int, rbx: int,
                                       m: Memory, loc: Memory, m': Memory, loc': Memory)
    requires Validated(w, linked, fts) && Callers(w, linked, fts, f0, rs0, g, rs, lim, rbx, m, loc)
    requires (forall a :: a < lim ==> Rd(m', a) == Rd(m, a)) && forall a :: a < rbx ==> Rd(loc', a) == Rd(loc, a)
    ensures Callers(w, linked, fts, f0, rs0, g, rs, lim, rbx, m', loc')
    decreases |rs|
  {
    hide Validated, Rd, View, Caller, Callers;
    if rs == rs0 && g == f0 {
      CallersNone(w, linked, fts, f0, rs0, lim, rbx, m', loc');
    } else {
      var h, k := CallersOf(w, linked, fts, f0, rs0, g, rs, lim, rbx, m, loc);
      CallerSame(w, linked, fts, h, k, g, rs, lim, rbx, m, loc, m', loc');
      CallersSame(w, linked, fts, f0, rs0, h, rs[k + 2..], rs[k + 1] - 1, rbx - |View(w, linked, fts, h).locals|, m, loc, m', loc');
      CallersStep(w, linked, fts, f0, rs0, h, k, g, rs, lim, rbx, m', loc');
    }
  }

  function LimOf(rs: seq<int>): int { if |rs| > 1 then rs[1] else 0 }

  lemma CallersLim(w: World, linked: set<nat>, fts: seq<Option<FType>>, f0: nat, rs0: seq<int>, g: nat, rs: seq<int>, lim: int, rbx: int, m: Memory, loc: Memory)
    requires Validated(w, linked, fts) && Callers(w, linked, fts, f0, rs0, g, rs, lim, rbx, m, loc)
    ensures Callers(w, linked, fts, f0, rs0, g, rs, LimOf(rs), rbx, m, loc)
  {
    hide Validated, View, Resting, LocalsFit, FnShape, PointIn, PlaceOk, Callers;
    if rs == rs0 && g == f0 {
      CallersNone(w, linked, fts, f0, rs0, LimOf(rs), rbx, m, loc);
    } else {
      var h, k := CallersOf(w, linked, fts, f0, rs0, g, rs, lim, rbx, m, loc);
      assert Caller(w, linked, fts, h, k, g, rs, LimOf(rs), rbx, m, loc);
      CallersStep(w, linked, fts, f0, rs0, h, k, g, rs, LimOf(rs), rbx, m, loc);
    }
  }

  // ---------- a typed state ----------

  /** At a point under k labels of g: as many frames, with operands of the types that validation gives
      them; and under them the functions that wait. */
  ghost predicate Running(w: World, linked: set<nat>, fts: seq<Option<FType>>, f0: nat, rs0: seq<int>, g: nat, k: nat, c: Cpu)
    requires Validated(w, linked, fts) && Has(linked, fts, g)
  {
    hide Validated, FnShape, InFrame, Callers, PlaceOk;
    var fn := View(w, linked, fts, g);
    && FnShape(fn, c.pc).Some? && 0 < k < |c.rs| && |FnShape(fn, c.pc).value| == k
    && InFrame(c, fn.locals, FnShape(fn, c.pc).value)
    && Callers(w, linked, fts, f0, rs0, g, c.rs[k..], c.rs[k - 1] - 1, c.rbx, c.mem, c.loc)
  }

  /** At g's entry, with its arguments. */
  ghost predicate Entering(w: World, linked: set<nat>, fts: seq<Option<FType>>, f0: nat, rs0: seq<int>, g: nat, c: Cpu)
    requires Validated(w, linked, fts) && Has(linked, fts, g)
  {
    hide Validated, Callers;
    && |c.rs| > 0 && LocalsFit(c.loc, c.rbx, fts[g].value.params)
    && Callers(w, linked, fts, f0, rs0, g, c.rs, c.rdi, c.rbx, c.mem, c.loc)
  }

  /** At g's `ret`, with its result. */
  ghost predicate Leaving(w: World, linked: set<nat>, fts: seq<Option<FType>>, f0: nat, rs0: seq<int>, g: nat, c: Cpu)
    requires Validated(w, linked, fts) && Has(linked, fts, g)
  {
    hide Validated, Callers;
    && |c.rs| > 0 && Yielded(c.rax, fts[g].value.ret)
    && Callers(w, linked, fts, f0, rs0, g, c.rs, LimOf(c.rs), c.rbx, c.mem, c.loc)
  }

  /** Back in g from a call of f. */
  ghost predicate Resuming(w: World, linked: set<nat>, fts: seq<Option<FType>>, f0: nat, rs0: seq<int>, g: nat, k: nat, f: nat, c: Cpu)
    requires Validated(w, linked, fts) && Has(linked, fts, g)
  {
    hide Validated, FnShape, Callers, PlaceOk, Waits;
    var fn := View(w, linked, fts, g);
    && Has(linked, fts, f) && FnShape(fn, c.pc).Some? && 0 < k && k + 1 < |c.rs| && |FnShape(fn, c.pc).value| == k
    && Waits(c, fn.pl.env, fn.locals, FnShape(fn, c.pc).value, fts[f].value.ret)
    && Callers(w, linked, fts, f0, rs0, g, c.rs[k + 1..], c.rs[k] - 1, c.rbx - |fn.locals|, c.mem, c.loc)
  }

  ghost predicate TypedAt(w: World, linked: set<nat>, fts: seq<Option<FType>>, f0: nat, rs0: seq<int>, g: nat, c: Cpu)
    requires Validated(w, linked, fts)
  {
    hide Validated, Running, Entering, Leaving, Resuming, PointIn, PlaceOk;
    && Has(linked, fts, g)
    && var pl := View(w, linked, fts, g).pl;
      match PointIn(pl, c.pc)
      case None => false
      case Some(Opcode(k)) => Running(w, linked, fts, f0, rs0, g, k, c)
      case Some(Target(k)) =>
        if k > 0 then Running(w, linked, fts, f0, rs0, g, k, c)
        else if c.pc == pl.a then Entering(w, linked, fts, f0, rs0, g, c)
        else c.pc == RetAt(pl) && Leaving(w, linked, fts, f0, rs0, g, c)
      case Some(ReturnTo(k, f)) => Resuming(w, linked, fts, f0, rs0, g, k, f, c)
  }

  /** The outermost call has returned, with a result of its type. */
  ghost predicate Exits(rs0: seq<int>, ret: seq<Width>, c: Cpu) {
    |rs0| > 0 && c.pc == rs0[0] && c.rs == rs0[1..] && Yielded(c.rax, ret)
  }

  ghost predicate Proceeds(w: World, linked: set<nat>, fts: seq<Option<FType>>, f0: nat, rs0: seq<int>, c: Cpu)
    requires Validated(w, linked, fts) && Has(linked, fts, f0)
  {
    hide Validated, TypedAt;
    Exits(rs0, fts[f0].value.ret, c) || exists h :: TypedAt(w, linked, fts, f0, rs0, h, c)
  }

  // ---------- one segment ----------

  lemma RunningStays(w: World, linked: set<nat>, fts: seq<Option<FType>>, f0: nat, rs0: seq<int>, g: nat, k: nat, c: Cpu, c': Cpu)
    requires Validated(w, linked, fts) && Has(linked, fts, g) && Has(linked, fts, f0) && Running(w, linked, fts, f0, rs0, g, k, c)
    requires StaysTyped(View(w, linked, fts, g), c, c', k)
    ensures Proceeds(w, linked, fts, f0, rs0, c')
  {
    hide Validated, FnShape, InFrame, Callers, PlaceOk, View, PointIn, Rd, Resuming, Entering, Exits;
    var fn := View(w, linked, fts, g);
    CallersSame(w, linked, fts, f0, rs0, g, c.rs[k..], c.rs[k - 1] - 1, c.rbx, c.mem, c.loc, c'.mem, c'.loc);
    if AtPoint(fn, c, c', k) {
      var d := |FnShape(fn, c'.pc).value|;
      assert c'.rs[d - 1..][0] == c'.rs[d - 1] && c.rs[k - 1..][0] == c.rs[k - 1];
      assert c'.rs[d - 1..][1..] == c'.rs[d..] && c.rs[k - 1..][1..] == c.rs[k..];
      assert Running(w, linked, fts, f0, rs0, g, d, c');
    } else {
      RetPoint(fn.pl);
      RetIsLast(fn.pl);
      ViewParts(w, linked, fts, g);
      CallersLim(w, linked, fts, f0, rs0, g, c'.rs, c.rs[k - 1] - 1, c'.rbx, c'.mem, c'.loc);
      assert Leaving(w, linked, fts, f0, rs0, g, c');
    }
    assert TypedAt(w, linked, fts, f0, rs0, g, c');
  }

  lemma RetIsLast(pl: Place)
    requires PlaceOk(pl)
    ensures pl.a < RetAt(pl)
  {
    hide Size, Prologue, BodyOk, CloseSize;
    PrologueSize(pl.env, pl.cparams);
  }

  lemma RunningEnters(w: World, linked: set<nat>, fts: seq<Option<FType>>, f0: nat, rs0: seq<int>, g: nat, k: nat, f: nat, c: Cpu, c': Cpu)
    requires Validated(w, linked, fts) && Has(linked, fts, g) && Has(linked, fts, f0) && Running(w, linked, fts, f0, rs0, g, k, c)
    requires EntersTyped(w, linked, View(w, linked, fts, g), c, c', k, f) && View(w, linked, fts, g).fts == fts
    requires |View(w, linked, fts, g).locals| == View(w, linked, fts, g).pl.env.clocals
    ensures Proceeds(w, linked, fts, f0, rs0, c')
  {
    hide Validated, FnShape, InFrame, PlaceOk, View, PointIn, Rd, Resting, LocalsFit, Resuming, Running, Leaving, Exits, Callers;
    var fn := View(w, linked, fts, g);
    RunningCallers(w, linked, fts, f0, rs0, g, k, c);
    assert c'.rs[2..][k..] == c'.rs[k + 2..] && c'.rs[2..][k - 1] == c'.rs[k + 1];
    CallersSame(w, linked, fts, f0, rs0, g, c.rs[k..], c.rs[k - 1] - 1, c.rbx, c.mem, c.loc, c'.mem, c'.loc);
    assert Caller(w, linked, fts, g, k, f, c'.rs, c'.rdi, c'.rbx, c'.mem, c'.loc);
    CallersStep(w, linked, fts, f0, rs0, g, k, f, c'.rs, c'.rdi, c'.rbx, c'.mem, c'.loc);
    assert Entering(w, linked, fts, f0, rs0, f, c');
    EntryIs(w, linked, fts, f);
    assert TypedAt(w, linked, fts, f0, rs0, f, c');
  }

  lemma RunningCallers(w: World, linked: set<nat>, fts: seq<Option<FType>>, f0: nat, rs0: seq<int>, g: nat, k: nat, c: Cpu)
    requires Validated(w, linked, fts) && Has(linked, fts, g) && Running(w, linked, fts, f0, rs0, g, k, c)
    ensures 0 < k < |c.rs| && Callers(w, linked, fts, f0, rs0, g, c.rs[k..], c.rs[k - 1] - 1, c.rbx, c.mem, c.loc)
  {
    hide Validated, FnShape, InFrame, PlaceOk, View, Callers;
  }

  lemma EntryIs(w: World, linked: set<nat>, fts: seq<Option<FType>>, f: nat)
    requires Validated(w, linked, fts) && Has(linked, fts, f)
    ensures 8 * f < |w.plane| && w.plane[8 * f].Ptr? && View(w, linked, fts, f).pl.a == w.plane[8 * f].a
    ensures PointIn(View(w, linked, fts, f).pl, w.plane[8 * f].a) == Some(Target(0))
  {
    hide Planted, Linked, WorldOk, ModuleTyped, PointIn, FnSound, View;
    ViewSound(w, linked, fts, f);
    EntryPoint(w, linked, f);
  }

  /** Returning from g, to the function that waits for it or out of the outermost call. */
  lemma ReturnsTo(w: World, linked: set<nat>, fts: seq<Option<FType>>, f0: nat, rs0: seq<int>, g: nat, rs: seq<int>, lim: int, c': Cpu)
    requires Validated(w, linked, fts) && Has(linked, fts, g) && Has(linked, fts, f0) && |rs| > 0 && |rs0| > 0
    requires Callers(w, linked, fts, f0, rs0, g, rs, lim, c'.rbx, c'.mem, c'.loc)
    requires c'.pc == rs[0] && c'.rs == rs[1..] && Yielded(c'.rax, fts[g].value.ret)
    ensures Proceeds(w, linked, fts, f0, rs0, c')
  {
    hide Validated, FnShape, PlaceOk, View, PointIn, Caller, Callers, TypedAt;
    if rs == rs0 && g == f0 {
      assert Exits(rs0, fts[f0].value.ret, c');
    } else {
      var h, k := CallersOf(w, linked, fts, f0, rs0, g, rs, lim, c'.rbx, c'.mem, c'.loc);
      ResumesAt(w, linked, fts, f0, rs0, h, k, g, rs, lim, c');
    }
  }

  lemma ResumesAt(w: World, linked: set<nat>, fts: seq<Option<FType>>, f0: nat, rs0: seq<int>, h: nat, k: nat, g: nat, rs: seq<int>, lim: int, c': Cpu)
    requires Validated(w, linked, fts) && Has(linked, fts, g)
    requires Caller(w, linked, fts, h, k, g, rs, lim, c'.rbx, c'.mem, c'.loc)
    requires Callers(w, linked, fts, f0, rs0, h, rs[k + 2..], rs[k + 1] - 1, c'.rbx - |View(w, linked, fts, h).locals|, c'.mem, c'.loc)
    requires c'.pc == rs[0] && c'.rs == rs[1..] && Yielded(c'.rax, fts[g].value.ret)
    ensures TypedAt(w, linked, fts, f0, rs0, h, c')
  {
    hide Validated, FnShape, PlaceOk, View, PointIn, Resting, LocalsFit, Running, Leaving, Entering, Callers;
    assert c'.rs[k + 1..] == rs[k + 2..] && c'.rs[k] == rs[k + 1];
    ViewParts(w, linked, fts, h);
    assert Resuming(w, linked, fts, f0, rs0, h, k, g, c');
  }

  lemma ViewParts(w: World, linked: set<nat>, fts: seq<Option<FType>>, g: nat)
    requires Validated(w, linked, fts) && Has(linked, fts, g)
    ensures var fn := View(w, linked, fts, g);
      |fn.locals| == fn.pl.env.clocals && fn.ret == fts[g].value.ret && fn.fts == fts
  {
    hide Validated, FnSound, PointIn, FnPoint, PlaceOf, HasPlace, PlaceOk;
    ViewSound(w, linked, fts, g);
  }

  ghost predicate Advances(w: World, linked: set<nat>, fts: seq<Option<FType>>, f0: nat, rs0: seq<int>, c: Cpu)
    requires Validated(w, linked, fts) && Has(linked, fts, f0)
  {
    hide Validated;
    Drops(w.plane, c) || exists c' :: Goes(w.plane, c, c') && Proceeds(w, linked, fts, f0, rs0, c')
  }

  lemma RunningAdvances(w: World, linked: set<nat>, fts: seq<Option<FType>>, f0: nat, rs0: seq<int>, g: nat, k: nat, c: Cpu)
    requires Validated(w, linked, fts) && Has(linked, fts, g) && Has(linked, fts, f0) && |rs0| > 0 && Running(w, linked, fts, f0, rs0, g, k, c)
    requires PointIn(View(w, linked, fts, g).pl, c.pc) in {Some(Opcode(k)), Some(Target(k))}
    ensures Advances(w, linked, fts, f0, rs0, c)
  {
    hide Validated, Running, FnShape, InFrame, PlaceOk, View, PointIn, Goes, Drops, StaysTyped, EntersTyped, FnSound, Proceeds, Callers;
    var fn := View(w, linked, fts, g);
    ViewSound(w, linked, fts, g);
    ViewParts(w, linked, fts, g);
    RunningFrame(w, linked, fts, f0, rs0, g, k, c);
    FnMovesTyped(w, linked, fn, c, FnShape(fn, c.pc).value);
    if !Drops(w.plane, c) {
      var c' :| Goes(w.plane, c, c') && ArrivesTyped(w, linked, fn, c, c', k);
      if StaysTyped(fn, c, c', k) {
        RunningStays(w, linked, fts, f0, rs0, g, k, c, c');
      } else if LeavesTyped(fn, c, c', k) {
        RunningLeaves(w, linked, fts, f0, rs0, g, k, c, c');
      } else {
        var f :| EntersTyped(w, linked, fn, c, c', k, f);
        RunningEnters(w, linked, fts, f0, rs0, g, k, f, c, c');
      }
    }
  }

  lemma RunningFrame(w: World, linked: set<nat>, fts: seq<Option<FType>>, f0: nat, rs0: seq<int>, g: nat, k: nat, c: Cpu)
    requires Validated(w, linked, fts) && Has(linked, fts, g) && Running(w, linked, fts, f0, rs0, g, k, c)
    ensures var fn := View(w, linked, fts, g);
      FnShape(fn, c.pc).Some? && 0 < k < |c.rs| && |FnShape(fn, c.pc).value| == k && InFrame(c, fn.locals, FnShape(fn, c.pc).value)
  {
    hide Validated, FnShape, InFrame, PlaceOk, View, Callers;
  }

  lemma RunningLeaves(w: World, linked: set<nat>, fts: seq<Option<FType>>, f0: nat, rs0: seq<int>, g: nat, k: nat, c: Cpu, c': Cpu)
    requires Validated(w, linked, fts) && Has(linked, fts, g) && Has(linked, fts, f0) && |rs0| > 0 && Running(w, linked, fts, f0, rs0, g, k, c)
    requires 0 < k < |c.rs| && LeavesTyped(View(w, linked, fts, g), c, c', k)
    ensures Proceeds(w, linked, fts, f0, rs0, c')
  {
    hide Validated, Running, FnShape, PlaceOk, View, Proceeds, Callers, Rd;
    RunningCallers(w, linked, fts, f0, rs0, g, k, c);
    ViewParts(w, linked, fts, g);
    CallersSame(w, linked, fts, f0, rs0, g, c.rs[k..], c.rs[k - 1] - 1, c.rbx, c.mem, c.loc, c'.mem, c'.loc);
    assert c.rs[k..][1..] == c.rs[k + 1..];
    ReturnsTo(w, linked, fts, f0, rs0, g, c.rs[k..], c.rs[k - 1] - 1, c');
  }

  lemma EnteringAdvances(w: World, linked: set<nat>, fts: seq<Option<FType>>, f0: nat, rs0: seq<int>, g: nat, c: Cpu)
    requires Validated(w, linked, fts) && Has(linked, fts, g) && Has(linked, fts, f0) && Entering(w, linked, fts, f0, rs0, g, c)
    requires c.pc == View(w, linked, fts, g).pl.a
    ensures Advances(w, linked, fts, f0, rs0, c)
  {
    hide Validated, FnShape, InFrame, PlaceOk, PointIn, Goes, Drops, FnSound, Callers, Rd, LocalsFit, FnPoint, HasPlace, PlaceOf, Entering, View, Leaving, Resuming;
    var fn := View(w, linked, fts, g);
    EnteringIs(w, linked, fts, f0, rs0, g, c);
    ViewSound(w, linked, fts, g);
    ViewParams(w, linked, fts, g);
    var c' := EntryTyped(w, linked, fn, c, fts[g].value.params);
    CallersSame(w, linked, fts, f0, rs0, g, c.rs, c.rdi, c.rbx, c.mem, c.loc, c'.mem, c'.loc);
    assert c'.rs[1..] == c.rs;
    assert Running(w, linked, fts, f0, rs0, g, 1, c');
    assert TypedAt(w, linked, fts, f0, rs0, g, c');
    assert Proceeds(w, linked, fts, f0, rs0, c');
  }

  lemma EnteringIs(w: World, linked: set<nat>, fts: seq<Option<FType>>, f0: nat, rs0: seq<int>, g: nat, c: Cpu)
    requires Validated(w, linked, fts) && Has(linked, fts, g) && Entering(w, linked, fts, f0, rs0, g, c)
    ensures |c.rs| > 0 && LocalsFit(c.loc, c.rbx, fts[g].value.params) && Callers(w, linked, fts, f0, rs0, g, c.rs, c.rdi, c.rbx, c.mem, c.loc)
  {
    hide Validated, Callers, LocalsFit;
  }

  lemma ViewParams(w: World, linked: set<nat>, fts: seq<Option<FType>>, g: nat)
    requires Validated(w, linked, fts) && Has(linked, fts, g)
    ensures fts[g].value.params <= View(w, linked, fts, g).locals && |fts[g].value.params| == View(w, linked, fts, g).pl.cparams
  {
    hide Validated, FnHere, Ready, CalleesIn, PlaceOk, Check;
    HasFn(w, linked, fts, g);
  }

  lemma LeavingAdvances(w: World, linked: set<nat>, fts: seq<Option<FType>>, f0: nat, rs0: seq<int>, g: nat, c: Cpu)
    requires Validated(w, linked, fts) && Has(linked, fts, g) && Has(linked, fts, f0) && |rs0| > 0 && Leaving(w, linked, fts, f0, rs0, g, c)
    requires c.pc == RetAt(View(w, linked, fts, g).pl)
    ensures Advances(w, linked, fts, f0, rs0, c)
  {
    hide Validated, PlaceOk, Goes, Drops, FnSound, Callers, View, Proceeds, PointIn, FnPoint, HasPlace, PlaceOf, RetAt;
    ViewSound(w, linked, fts, g);
    RetCode(w, linked, View(w, linked, fts, g));
    RetGoes(w.plane, c);
    ReturnsTo(w, linked, fts, f0, rs0, g, c.rs, LimOf(c.rs), c.(pc := c.rs[0], rs := c.rs[1..]));
  }

  lemma RetCode(w: World, linked: set<nat>, fn: Checked)
    requires FnSound(w, linked, fn) && PlaceOk(fn.pl)
    ensures At(w.plane, RetAt(fn.pl), Cells(J(Ret)))
  {
    hide FnSound, At, GenFn, Prologue, Size, Close, CloseSize, Cells, Laid, FnEnd, BodyOk, Sound, CheckAt;
    FnFacts(w, linked, fn);
    LaidFn(w.plane, fn.pl.env, fn.pl.cparams, fn.pl.body, fn.pl.a);
    AtSplit(w.plane, CloseAt(fn.pl), Close(true), Cells(J(Ret)));
  }

  lemma ResumingAdvances(w: World, linked: set<nat>, fts: seq<Option<FType>>, f0: nat, rs0: seq<int>, g: nat, k: nat, f: nat, c: Cpu)
    requires Validated(w, linked, fts) && Has(linked, fts, g) && Has(linked, fts, f0) && Resuming(w, linked, fts, f0, rs0, g, k, f, c)
    requires PointIn(View(w, linked, fts, g).pl, c.pc) == Some(ReturnTo(k, f))
    ensures Advances(w, linked, fts, f0, rs0, c)
  {
    hide Validated, FnShape, InFrame, PlaceOk, PointIn, Goes, Drops, FnSound, Callers, Rd, LocalsFit, FnPoint, HasPlace, PlaceOf, View, Leaving, Entering, Waits;
    var fn := View(w, linked, fts, g);
    ViewSound(w, linked, fts, g);
    ViewParts(w, linked, fts, g);
    var c' := FnResumes(w, linked, fn, c, FnShape(fn, c.pc).value, k, f);
    assert c'.rs[k..] == c.rs[k + 1..] && c'.rs[k - 1] == c.rs[k];
    assert Running(w, linked, fts, f0, rs0, g, k, c');
    assert TypedAt(w, linked, fts, f0, rs0, g, c');
    assert Proceeds(w, linked, fts, f0, rs0, c');
  }

  /** From a typed state the machine faults, returns from the outermost call, or gets to another. */
  lemma TypedAdvances(w: World, linked: set<nat>, fts: seq<Option<FType>>, f0: nat, rs0: seq<int>, g: nat, c: Cpu)
    requires Validated(w, linked, fts) && Has(linked, fts, f0) && |rs0| > 0 && TypedAt(w, linked, fts, f0, rs0, g, c)
    ensures Advances(w, linked, fts, f0, rs0, c)
  {
    hide Validated, Running, Entering, Leaving, Resuming, PointIn, PlaceOk, View, Advances;
    match PointIn(View(w, linked, fts, g).pl, c.pc)
    case Some(Opcode(k)) => RunningAdvances(w, linked, fts, f0, rs0, g, k, c);
    case Some(Target(k)) =>
      if k > 0 { RunningAdvances(w, linked, fts, f0, rs0, g, k, c); }
      else if c.pc == View(w, linked, fts, g).pl.a { EnteringAdvances(w, linked, fts, f0, rs0, g, c); }
      else { LeavingAdvances(w, linked, fts, f0, rs0, g, c); }
    case Some(ReturnTo(k, f)) => ResumingAdvances(w, linked, fts, f0, rs0, g, k, f, c);
  }

  // ---------- whole runs ----------

  /** The operand types that validation gives at q in the linked function g, for every open frame. */
  ghost function ShapeAt(w: World, linked: set<nat>, fts: seq<Option<FType>>, g: nat, q: int): Option<Shape>
    requires Validated(w, linked, fts) && Has(linked, fts, g)
  {
    hide Validated, PlaceOk, View, FnShape;
    FnShape(View(w, linked, fts, g), q)
  }

  ghost function LocalTypes(w: World, g: nat, ft: FType): seq<Width>
    requires g < |w.fs| && w.fs[g].Defined?
  {
    ft.params + ZeroTypes(w.fs[g].locals)
  }

  /** c is at the start of an opcode under k labels of g: validation gives types to the operands of k
      frames there; those of the current one and the locals are represented, the other frames hold such
      operands, and so do those of the functions that wait for g. */
  ghost predicate Fitting(w: World, linked: set<nat>, fts: seq<Option<FType>>, f0: nat, rs0: seq<int>, g: nat, k: nat, c: Cpu)
    requires Validated(w, linked, fts)
  {
    hide Validated, Callers, Resting, Represents, ShapeAt;
    && Has(linked, fts, g) && g < |w.fs| && w.fs[g].Defined? && ShapeAt(w, linked, fts, g, c.pc).Some?
    && var sh := ShapeAt(w, linked, fts, g, c.pc).value;
      && |sh| == k && 0 < k < |c.rs|
      && Represents(c, c.rs[0], sh[0], LocalTypes(w, g, fts[g].value)) && Resting(c.mem, c.rs, sh[1..])
      && Callers(w, linked, fts, f0, rs0, g, c.rs[k..], c.rs[k - 1] - 1, c.rbx, c.mem, c.loc)
  }

  ghost predicate TypesOk(w: World, linked: set<nat>, fts: seq<Option<FType>>, f0: nat, rs0: seq<int>, c: Cpu)
    requires Validated(w, linked, fts)
  {
    hide WorldOk, Linked, Planted, ModuleTyped, Fitting, FnPoint;
    forall g, k: nat :: g in linked && FnPoint(w, linked, g, c.pc) == Some(Opcode(k)) ==> Fitting(w, linked, fts, f0, rs0, g, k, c)
  }

  ghost predicate Finished(plane: seq<Cell>, c: Cpu, n: nat, rs0: seq<int>, ret: seq<Width>) {
    exists m: nat :: m <= n && Run(plane, c, m).Go? && Exits(rs0, ret, Run(plane, c, m).c)
  }

  /** After n steps: a fault, or the call has returned a result of its type, or the machine is running, and
      at the start of an opcode everything has the type that validation gives it. */
  ghost predicate TypesAfter(w: World, linked: set<nat>, fts: seq<Option<FType>>, f0: nat, rs0: seq<int>, c: Cpu, n: nat)
    requires Validated(w, linked, fts) && Has(linked, fts, f0)
  {
    hide Validated, TypesOk;
    || Run(w.plane, c, n).Fault?
    || (Run(w.plane, c, n).Go? && TypesOk(w, linked, fts, f0, rs0, Run(w.plane, c, n).c))
    || Finished(w.plane, c, n, rs0, fts[f0].value.ret)
  }

  lemma RunningFits(w: World, linked: set<nat>, fts: seq<Option<FType>>, f0: nat, rs0: seq<int>, g: nat, k: nat, c: Cpu)
    requires Validated(w, linked, fts) && Has(linked, fts, g) && Running(w, linked, fts, f0, rs0, g, k, c)
    ensures Fitting(w, linked, fts, f0, rs0, g, k, c)
  {
    hide Validated, FnShape, PlaceOk, Callers, Resting, Represents, FnHere, Ready, CalleesIn, Check, LocalsFit;
    HasFn(w, linked, fts, g);
    var fn := View(w, linked, fts, g);
    RepresentsFits(c, c.rs[0], FnShape(fn, c.pc).value[0], fn.locals);
  }

  lemma TypedPoint(w: World, linked: set<nat>, fts: seq<Option<FType>>, f0: nat, rs0: seq<int>, g: nat, c: Cpu)
    requires Validated(w, linked, fts) && Planted(w, linked) && TypedAt(w, linked, fts, f0, rs0, g, c)
    ensures g in linked && FnPoint(w, linked, g, c.pc).Some?
    ensures forall k: nat :: FnPoint(w, linked, g, c.pc) == Some(Opcode(k)) ==> Has(linked, fts, g) && Running(w, linked, fts, f0, rs0, g, k, c)
  {
    hide Validated, Planted, Running, Entering, Leaving, Resuming, PointIn, PlaceOk, View, FnPoint, FnSound, HasPlace, PlaceOf;
    ViewSound(w, linked, fts, g);
  }

  lemma TypedIsOk(w: World, linked: set<nat>, fts: seq<Option<FType>>, f0: nat, rs0: seq<int>, g: nat, c: Cpu)
    requires Validated(w, linked, fts) && TypedAt(w, linked, fts, f0, rs0, g, c)
    ensures TypesOk(w, linked, fts, f0, rs0, c)
  {
    hide WorldOk, Linked, Planted, ModuleTyped, Running, TypedAt, FnPoint, Fitting;
    TypedPoint(w, linked, fts, f0, rs0, g, c);
    forall h, k: nat | h in linked && FnPoint(w, linked, h, c.pc) == Some(Opcode(k)) ensures Fitting(w, linked, fts, f0, rs0, h, k, c) {
      OneOwner(w, linked, g, h, c.pc);
      RunningFits(w, linked, fts, f0, rs0, g, k, c);
    }
  }

  /** Between opcode starts there is nothing to show. */
  lemma QuietTypes(w: World, linked: set<nat>, fts: seq<Option<FType>>, f0: nat, rs0: seq<int>, c: Cpu)
    requires Validated(w, linked, fts) && !AtDbg(w.plane, c.pc)
    ensures TypesOk(w, linked, fts, f0, rs0, c)
  {
    hide WorldOk, Linked, Planted, ModuleTyped, FnPoint, Fitting, AtDbg;
    if !TypesOk(w, linked, fts, f0, rs0, c) {
      var h, k: nat :| h in linked && FnPoint(w, linked, h, c.pc) == Some(Opcode(k)) && !Fitting(w, linked, fts, f0, rs0, h, k, c);
      OpcodeIsDbg(w, linked, h, c.pc);
    }
  }

  lemma QuietAfter(w: World, linked: set<nat>, fts: seq<Option<FType>>, f0: nat, rs0: seq<int>, c: Cpu, m: nat, n: nat)
    requires Validated(w, linked, fts) && Has(linked, fts, f0) && 0 < n < m && !Run(w.plane, c, m).Bad?
    requires forall j: nat :: 0 < j < m && Run(w.plane, c, j).Go? ==> !AtDbg(w.plane, Run(w.plane, c, j).c.pc)
    ensures TypesAfter(w, linked, fts, f0, rs0, c, n)
  {
    hide Validated, TypesOk, AtDbg, Step, Run, Finished;
    if Run(w.plane, c, n).Go? {
      QuietTypes(w, linked, fts, f0, rs0, Run(w.plane, c, n).c);
    } else {
      RunStopped(w.plane, c, n, m);
    }
  }

  lemma FinishedLater(plane: seq<Cell>, c: Cpu, c1: Cpu, m: nat, n: nat, rs0: seq<int>, ret: seq<Width>)
    requires m <= n && Run(plane, c, m) == Go(c1) && Finished(plane, c1, n - m, rs0, ret)
    ensures Finished(plane, c, n, rs0, ret)
  {
    hide Exits, Step;
    var j: nat :| j <= n - m && Run(plane, c1, j).Go? && Exits(rs0, ret, Run(plane, c1, j).c);
    RunAdd(plane, c, m, j);
    assert Run(plane, c, m + j).Go?;
  }

  lemma TypesLater(w: World, linked: set<nat>, fts: seq<Option<FType>>, f0: nat, rs0: seq<int>, c: Cpu, c': Cpu, m: nat, n: nat)
    requires Validated(w, linked, fts) && Has(linked, fts, f0) && m <= n && Run(w.plane, c, m) == Go(c')
    requires TypesAfter(w, linked, fts, f0, rs0, c', n - m)
    ensures TypesAfter(w, linked, fts, f0, rs0, c, n)
  {
    hide Validated, TypesOk, Step, Run, Finished;
    RunAdd(w.plane, c, m, n - m);
    if Finished(w.plane, c', n - m, rs0, fts[f0].value.ret) { FinishedLater(w.plane, c, c', m, n, rs0, fts[f0].value.ret); }
  }

  lemma ExitsNow(w: World, linked: set<nat>, fts: seq<Option<FType>>, f0: nat, rs0: seq<int>, c: Cpu, n: nat)
    requires Validated(w, linked, fts) && Has(linked, fts, f0) && Exits(rs0, fts[f0].value.ret, c)
    ensures TypesAfter(w, linked, fts, f0, rs0, c, n)
  {
    hide Validated, TypesOk, Exits;
    assert Run(w.plane, c, 0) == Go(c);
  }

  lemma {:induction false} TypedRun(w: World, linked: set<nat>, fts: seq<Option<FType>>, f0: nat, rs0: seq<int>, g: nat, c: Cpu, n: nat)
    requires Validated(w, linked, fts) && Has(linked, fts, f0) && |rs0| > 0 && TypedAt(w, linked, fts, f0, rs0, g, c)
    ensures TypesAfter(w, linked, fts, f0, rs0, c, n)
    decreases n
  {
    hide Validated, TypesOk, TypedAt, Goes, Drops, AtDbg, Step, Run, Finished, Exits, TypesAfter;
    if n == 0 {
      TypedIsOk(w, linked, fts, f0, rs0, g, c);
      StartAfter(w, linked, fts, f0, rs0, c);
    } else {
      TypedAdvances(w, linked, fts, f0, rs0, g, c);
      if Drops(w.plane, c) {
        var m := DropsRun(w.plane, c);
        if n < m { QuietAfter(w, linked, fts, f0, rs0, c, m, n); } else { FaultAfter(w, linked, fts, f0, rs0, c, m, n); }
      } else {
        var c' :| Goes(w.plane, c, c') && Proceeds(w, linked, fts, f0, rs0, c');
        var m := GoesRun(w.plane, c, c');
        if n < m {
          QuietAfter(w, linked, fts, f0, rs0, c, m, n);
        } else {
          if Exits(rs0, fts[f0].value.ret, c') {
            ExitsNow(w, linked, fts, f0, rs0, c', n - m);
          } else {
            var h :| TypedAt(w, linked, fts, f0, rs0, h, c');
            TypedRun(w, linked, fts, f0, rs0, h, c', n - m);
          }
          TypesLater(w, linked, fts, f0, rs0, c, c', m, n);
        }
      }
    }
  }

  lemma StartAfter(w: World, linked: set<nat>, fts: seq<Option<FType>>, f0: nat, rs0: seq<int>, c: Cpu)
    requires Validated(w, linked, fts) && Has(linked, fts, f0) && TypesOk(w, linked, fts, f0, rs0, c)
    ensures TypesAfter(w, linked, fts, f0, rs0, c, 0)
  {
    hide Validated, TypesOk, Finished;
    RunNone(w.plane, c);
  }

  lemma FaultAfter(w: World, linked: set<nat>, fts: seq<Option<FType>>, f0: nat, rs0: seq<int>, c: Cpu, m: nat, n: nat)
    requires Validated(w, linked, fts) && Has(linked, fts, f0) && m <= n && Run(w.plane, c, m) == Fault
    ensures TypesAfter(w, linked, fts, f0, rs0, c, n)
  {
    hide Validated, TypesOk, Finished, Run, Step;
    RunStopped(w.plane, c, m, n);
  }

  /** A linked function of a valid module, entered with arguments of its parameter types: whatever number
      of steps the machine makes, in a run that ends or in one that does not, every i32 stays zero-extended.
      At the start of every opcode rax, the operand slots and the locals have the types that validation
      gives them, on every frame of every function that has not returned. */
  lemma TypeSafety(w: World, linked: set<nat>, fts: seq<Option<FType>>, f: nat, c: Cpu, args: seq<Value>, n: nat)
    requires Validated(w, linked, fts) && Has(linked, fts, f)
    requires 8 * f < |w.plane| && w.plane[8 * f].Ptr? && c.pc == w.plane[8 * f].a
    requires |c.rs| > 0 && Locals(c, args) && HasTypes(args, fts[f].value.params)
    ensures var r := Run(w.plane, c, n);
      || r.Fault?
      || (r.Go? && TypesOk(w, linked, fts, f, c.rs, r.c))
      || Finished(w.plane, c, n, c.rs, fts[f].value.ret)
  {
    hide Validated, TypesOk, Run, Finished, Callers, View, PointIn, PlaceOk, Running, Leaving, Resuming;
    EntryIs(w, linked, fts, f);
    ArgsFit(c, args, fts[f].value.params);
    CallersNone(w, linked, fts, f, c.rs, c.rdi, c.rbx, c.mem, c.loc);
    assert Entering(w, linked, fts, f, c.rs, f, c);
    TypedRun(w, linked, fts, f, c.rs, f, c, n);
  }
}
