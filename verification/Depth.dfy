/** The machine-stack discipline, in every reachable state: at the start of an opcode under k labels the
    machine stack holds k saved words and, right under them, the return address of the function. */
module Depth {
  import opened Words
  import opened Wasm
  import opened X86
  import opened Layout
  import opened ControlSim
  import opened Pieces
  import opened Fragment
  import opened Between
  import opened Points
  import opened Boundaries
  import opened OpcodeSteps
  import opened BodySteps

  // ---------- whole functions ----------

  ghost predicate FnHere(w: World, linked: set<nat>, pl: Place) {
    && PlaceOk(pl) && At(w.plane, pl.a, GenFn(pl.env, pl.cparams, pl.body, pl.a))
    && Helped(w.plane, pl.env) && CallsOk(w, linked, BodyCalls(pl.body))
  }

  lemma QuietZero(plane: seq<Cell>, env: Env, cparams: nat, c: Cpu) returns (c': Cpu)
    requires cparams <= env.clocals && (env.clocals > cparams ==> At(plane, c.pc, Cells(X(ZeroLocals(cparams, env.clocals - cparams)))))
    ensures Reaches(Muted(plane), c, c')
    ensures c' == c.(pc := c.pc + if env.clocals > cparams then 25 else 0, rax := c'.rax, rcx := c'.rcx, rdx := c'.rdx, fl := c'.fl,
                     loc := if env.clocals > cparams then ZeroRange(c.loc, c.rbx + cparams, env.clocals - cparams) else c.loc)
  {
    hide Reaches, Muted, ZeroRange, Lo, At;
    if env.clocals > cparams {
      var i := X(ZeroLocals(cparams, env.clocals - cparams));
      OneMuted(plane, c.pc, i);
      c' := c.(pc := c.pc + 25, rax := 0, rcx := 0, rdx := Lo(W64, c.rdi), fl := Undefined,
               loc := ZeroRange(c.loc, c.rbx + cparams, env.clocals - cparams));
      ZeroStep(Muted(plane), i, c, c');
    } else {
      c' := c;
      ReachesRefl(Muted(plane), c);
    }
  }

  lemma ZeroStep(plane: seq<Cell>, i: Instr, c: Cpu, c': Cpu)
    requires i.X? && At(plane, c.pc, Cells(i)) && Do(i, c) == Go(c'.(pc := c.pc)) && c'.pc == c.pc + Len(i)
    ensures Reaches(plane, c, c')
  {
    hide Reaches, Do;
    assert plane[c.pc + 0] == Cells(i)[0];
    ReachesStep(plane, c, c');
  }

  lemma PrologueGoes(plane: seq<Cell>, env: Env, cparams: nat, c: Cpu) returns (c': Cpu)
    requires cparams <= env.clocals && At(plane, c.pc, Prologue(env, cparams))
    ensures Goes(plane, c, c') && c'.pc == c.pc + |Prologue(env, cparams)|
    ensures c'.rdi == c.rdi + 1 && c'.rs == [c.rdi + 1] + c.rs && c'.rbx == c.rbx && c'.mem == c.mem[c.rdi := c'.rax]
    ensures c'.loc == if env.clocals > cparams then ZeroRange(c.loc, c.rbx + cparams, env.clocals - cparams) else c.loc
  {
    hide Goes, At, Reaches, Muted, Enter, Cells, ZeroRange;
    var z := if env.clocals > cparams then Cells(X(ZeroLocals(cparams, env.clocals - cparams))) else [];
    AtSplit(plane, c.pc, z, Enter());
    var c1 := QuietZero(plane, env, cparams, c);
    c' := QuietEnter(plane, c1);
    ReachesTrans(Muted(plane), c, c1, c');
    assert |c'.rs| == |c.rs| + 1;
    QuietGoes(plane, c, c');
  }

  lemma EntryMoves(w: World, linked: set<nat>, pl: Place, c: Cpu)
    requires FnHere(w, linked, pl) && c.pc == pl.a && |c.rs| > 0
    ensures Moves(w, linked, pl, c, 0)
  {
    hide PointIn, Goes, At, Reaches, Muted, Moves, BodyOk, GenFn, Laid, Inside, LabelsOk, CallsOk, Helped, Enter, Cells, Size;
    LaidFn(w.plane, pl.env, pl.cparams, pl.body, pl.a);
    WholeInside(pl);
    StartPoint(pl, pl.body, BodyAt(pl), [true]);
    var c2 := PrologueGoes(w.plane, pl.env, pl.cparams, c);
    assert c2.rs[1..] == c.rs[0..];
    StaysAt(w, linked, pl, c, c2, 0, 1);
  }

  lemma RetMoves(w: World, linked: set<nat>, pl: Place, c: Cpu)
    requires PlaceOk(pl) && At(w.plane, c.pc, Cells(J(Ret))) && |c.rs| > 0
    ensures Moves(w, linked, pl, c, 0)
  {
    hide PointIn, PlaceOk, Goes;
    var c1 := c.(pc := c.rs[0], rs := c.rs[1..]);
    RetGoes(w.plane, c);
    assert Arrives(w, linked, pl, c, c1, 0);
  }

  lemma RetGoes(plane: seq<Cell>, c: Cpu)
    requires At(plane, c.pc, Cells(J(Ret))) && |c.rs| > 0
    ensures Goes(plane, c, c.(pc := c.rs[0], rs := c.rs[1..]))
  {
    hide Reaches, Muted;
    assert plane[c.pc + 0] == Cells(J(Ret))[0];
    assert Step(plane, c) == Go(c.(pc := c.rs[0], rs := c.rs[1..]));
    ReachesRefl(Muted(plane), c.(pc := c.rs[0], rs := c.rs[1..]));
  }

  /** From any point of a function. */
  lemma FnMoves(w: World, linked: set<nat>, pl: Place, c: Cpu)
    requires FnHere(w, linked, pl) && PointIn(pl, c.pc).Some? && Saved(PointIn(pl, c.pc).value) < |c.rs|
    ensures Moves(w, linked, pl, c, Saved(PointIn(pl, c.pc).value))
  {
    hide Goes, At, Moves, BodyOk, GenFn, Laid, Inside, LabelsOk, CallsOk, Helped, BodyPoint, Size, CloseSize, Close, Cells, Prologue, FnEnd;
    LaidFn(w.plane, pl.env, pl.cparams, pl.body, pl.a);
    WholeInside(pl);
    if c.pc == pl.a {
      EntryMoves(w, linked, pl, c);
    } else if c.pc < CloseAt(pl) {
      BodyMoves(w, linked, pl, pl.body, BodyAt(pl), [true], [RetAt(pl)], c);
    } else {
      AtSplit(w.plane, CloseAt(pl), Close(true), Cells(J(Ret)));
      if c.pc == CloseAt(pl) {
        RetPoint(pl);
        EndMoves(w, linked, pl, true, c, 0);
      } else {
        RetMoves(w, linked, pl, c);
      }
    }
  }

  lemma RetPoint(pl: Place)
    requires PlaceOk(pl)
    ensures PointIn(pl, RetAt(pl)) == Some(Target(0))
  {
    hide Size, Prologue, BodyPoint, BodyOk, CloseSize;
    PrologueSize(pl.env, pl.cparams);
    CloseGrows(true);
  }

  // ---------- the program ----------

  /** Two functions' code does not overlap. */
  predicate Apart(w: World, f: nat, g: nat) {
    && HasPlace(w, f) && HasPlace(w, g) && PlaceOk(PlaceOf(w, f)) && PlaceOk(PlaceOf(w, g))
    && (RetAt(PlaceOf(w, f)) < PlaceOf(w, g).a || RetAt(PlaceOf(w, g)) < PlaceOf(w, f).a)
  }

  /** The linked functions are in the plane, each on its own, with well-formed bodies that call linked
      functions and imports only. */
  ghost predicate Planted(w: World, linked: set<nat>) {
    && |w.plane| < T32 && 8 * |w.sigs| + 8 < |w.plane| && w.plane[8 * |w.sigs| + 8] == Extern(BranchTable)
    && (forall f :: f in linked ==> Present(w, f) && CallsOk(w, linked, BodyCalls(w.fs[f].body)))
    && (forall f, g :: f in linked && g in linked && f != g ==> Apart(w, f, g))
  }

  lemma PlantedFn(w: World, linked: set<nat>, f: nat)
    requires Planted(w, linked) && f in linked
    ensures Present(w, f) && HasPlace(w, f) && FnHere(w, linked, PlaceOf(w, f)) && PlaceOk(PlaceOf(w, f))
  {
    hide At, BodyOk, GenFn, CallsOk, Apart;
  }

  /** What q is in the code of the linked function f. */
  ghost function FnPoint(w: World, linked: set<nat>, f: nat, q: int): Option<Point>
    requires Planted(w, linked) && f in linked
  {
    hide Planted, Present, FnHere, PlaceOk, PointIn, HasPlace;
    PlantedFn(w, linked, f);
    PointIn(PlaceOf(w, f), q)
  }

  lemma PlantedPlace(w: World, linked: set<nat>, g: nat) returns (pl: Place)
    requires Planted(w, linked) && g in linked
    ensures HasPlace(w, g) && pl == PlaceOf(w, g) && FnHere(w, linked, pl) && PlaceOk(pl)
    ensures forall q: int :: FnPoint(w, linked, g, q) == PointIn(pl, q)
  {
    hide Planted, Present, PointIn, FnHere, PlaceOk, HasPlace;
    PlantedFn(w, linked, g);
    pl := PlaceOf(w, g);
  }

  /** rs starts with the return address of a call of g, and below the words its caller has saved with the
      return address of that one, and so on down to the stack the outermost call was made with. */
  ghost predicate Returns(w: World, linked: set<nat>, g: nat, rs: seq<int>, rs0: seq<int>)
    requires Planted(w, linked)
    decreases |rs|
  {
    hide Planted, PointIn;
    || rs == rs0
    || (|rs| > 0 && exists h, k: nat ::
          h in linked && FnPoint(w, linked, h, rs[0]) == Some(ReturnTo(k, g)) && k + 2 < |rs| && Returns(w, linked, h, rs[k + 2..], rs0))
  }

  /** At the start of an opcode under k labels of g, exactly k words are above g's return address. */
  ghost predicate DepthOk(w: World, linked: set<nat>, rs0: seq<int>, c: Cpu)
    requires Planted(w, linked)
  {
    forall g, k: nat :: g in linked && FnPoint(w, linked, g, c.pc) == Some(Opcode(k)) ==>
      k < |c.rs| && Returns(w, linked, g, c.rs[k..], rs0)
  }

  /** Within n steps the outermost call has returned, or an import has been called. */
  ghost predicate Ended(plane: seq<Cell>, c: Cpu, n: nat, rs0: seq<int>) {
    exists m: nat :: m <= n && Run(plane, c, m).Go? && Outside(plane, Run(plane, c, m).c, rs0)
  }

  ghost predicate Outside(plane: seq<Cell>, c: Cpu, rs0: seq<int>) {
    |rs0| > 0 && ((c.pc == rs0[0] && c.rs == rs0[1..]) || AtImport(plane, c))
  }

  /** The state is at a point of g, and right under the words saved there is g's return address. */
  ghost predicate Well(w: World, linked: set<nat>, rs0: seq<int>, g: nat, c: Cpu)
    requires Planted(w, linked)
  {
    && g in linked && FnPoint(w, linked, g, c.pc).Some?
    && var k := Saved(FnPoint(w, linked, g, c.pc).value);
      k < |c.rs| && Returns(w, linked, g, c.rs[k..], rs0)
  }

  lemma PointRange(pl: Place, q: int)
    requires PlaceOk(pl) && PointIn(pl, q).Some?
    ensures pl.a <= q <= RetAt(pl)
  {
    hide Size, Prologue, BodyPoint, BodyOk, CloseSize;
  }

  /** An address is a point of at most one linked function. */
  lemma OneOwner(w: World, linked: set<nat>, f: nat, g: nat, q: int)
    requires Planted(w, linked) && f in linked && g in linked
    requires FnPoint(w, linked, f, q).Some? && FnPoint(w, linked, g, q).Some?
    ensures f == g
  {
    hide PointIn, PlaceOf, PlaceOk, FnHere, HasPlace, RetAt, Planted;
    var p := PlantedPlace(w, linked, f);
    var p' := PlantedPlace(w, linked, g);
    PointRange(p, q);
    PointRange(p', q);
    if f != g { ApartOf(w, linked, f, g); }
  }

  lemma ApartOf(w: World, linked: set<nat>, f: nat, g: nat)
    requires Planted(w, linked) && f in linked && g in linked && f != g
    ensures Apart(w, f, g)
  {
    hide Present, CallsOk, Apart;
  }

  lemma OpcodeIsDbg(w: World, linked: set<nat>, f: nat, q: int)
    requires Planted(w, linked) && f in linked && FnPoint(w, linked, f, q).Some? && FnPoint(w, linked, f, q).value.Opcode?
    ensures AtDbg(w.plane, q)
  {
    hide PointIn, Planted, Present, At, GenFn, BodyOk, RetAt, AtDbg, CallsOk, Helped;
    PlantedFn(w, linked, f);
    PointRange(PlaceOf(w, f), q);
    PlaneStarts(w.plane, PlaceOf(w, f), q);
  }

  lemma WellDepth(w: World, linked: set<nat>, rs0: seq<int>, g: nat, c: Cpu)
    requires Planted(w, linked) && Well(w, linked, rs0, g, c)
    ensures DepthOk(w, linked, rs0, c)
  {
    hide Planted, FnPoint, Returns;
    forall h, k: nat | h in linked && FnPoint(w, linked, h, c.pc) == Some(Opcode(k))
      ensures k < |c.rs| && Returns(w, linked, h, c.rs[k..], rs0)
    {
      OneOwner(w, linked, g, h, c.pc);
    }
  }

  /** Between opcode starts there is nothing to show. */
  lemma QuietDepth(w: World, linked: set<nat>, rs0: seq<int>, c: Cpu)
    requires Planted(w, linked) && !AtDbg(w.plane, c.pc)
    ensures DepthOk(w, linked, rs0, c)
  {
    hide Planted, FnPoint, Returns, AtDbg;
    if !DepthOk(w, linked, rs0, c) {
      var h, k: nat :| h in linked && FnPoint(w, linked, h, c.pc) == Some(Opcode(k)) && !(k < |c.rs| && Returns(w, linked, h, c.rs[k..], rs0));
      OpcodeIsDbg(w, linked, h, c.pc);
    }
  }

  lemma {:induction false} RunStopped(plane: seq<Cell>, c: Cpu, j: nat, m: nat)
    requires j <= m && !Run(plane, c, j).Go?
    ensures Run(plane, c, m) == Run(plane, c, j)
    decreases j
  {
    hide Step;
    assert Run(plane, c, 0).Go?;
    if Step(plane, c).Go? { RunStopped(plane, Step(plane, c).c, j - 1, m - 1); }
  }

  lemma EndedLater(plane: seq<Cell>, c: Cpu, c1: Cpu, m: nat, n: nat, rs0: seq<int>)
    requires m <= n && Run(plane, c, m) == Go(c1) && Ended(plane, c1, n - m, rs0)
    ensures Ended(plane, c, n, rs0)
  {
    hide Outside, Step;
    var j: nat :| j <= n - m && Run(plane, c1, j).Go? && Outside(plane, Run(plane, c1, j).c, rs0);
    RunAdd(plane, c, m, j);
    assert Run(plane, c, m + j).Go?;
  }

  lemma EndedNow(plane: seq<Cell>, c: Cpu, rs0: seq<int>)
    requires Outside(plane, c, rs0)
    ensures Ended(plane, c, 0, rs0)
  {
    hide Outside;
    assert Run(plane, c, 0) == Go(c);
  }

  lemma EndedMore(plane: seq<Cell>, c: Cpu, m: nat, n: nat, rs0: seq<int>)
    requires Ended(plane, c, m, rs0) && m <= n
    ensures Ended(plane, c, n, rs0)
  {
    hide Outside, Run;
  }

  // ---------- one segment ----------

  lemma StaysWell(w: World, linked: set<nat>, rs0: seq<int>, g: nat, c: Cpu, c': Cpu)
    requires Planted(w, linked) && Well(w, linked, rs0, g, c)
    requires HasPlace(w, g) && PlaceOk(PlaceOf(w, g)) && Stays(PlaceOf(w, g), c, c', Saved(FnPoint(w, linked, g, c.pc).value))
    ensures Well(w, linked, rs0, g, c')
  {
    hide Planted, Present, Returns, PointIn;
  }

  lemma EntryPoint(w: World, linked: set<nat>, f: nat)
    requires Planted(w, linked) && f in linked
    ensures 8 * f < |w.plane| && w.plane[8 * f].Ptr? && FnPoint(w, linked, f, w.plane[8 * f].a) == Some(Target(0))
  {
    hide Planted, At, GenFn, BodyOk;
    PlantedFn(w, linked, f);
  }

  lemma EntersWell(w: World, linked: set<nat>, rs0: seq<int>, g: nat, c: Cpu, c': Cpu) returns (f: nat)
    requires Planted(w, linked) && Well(w, linked, rs0, g, c)
    requires HasPlace(w, g) && PlaceOk(PlaceOf(w, g)) && Enters(w, linked, PlaceOf(w, g), c, c', Saved(FnPoint(w, linked, g, c.pc).value))
    ensures Well(w, linked, rs0, f, c')
  {
    hide Planted, Present, PointIn;
    var k := Saved(FnPoint(w, linked, g, c.pc).value);
    f :| f in linked && 8 * f < |w.plane| && w.plane[8 * f].Ptr? && c'.pc == w.plane[8 * f].a
      && |c'.rs| > k + 2 && PointIn(PlaceOf(w, g), c'.rs[0]) == Some(ReturnTo(k, f)) && c'.rs[k + 2..] == c.rs[k..];
    EntryPoint(w, linked, f);
    assert FnPoint(w, linked, g, c'.rs[0]) == Some(ReturnTo(k, f));
    assert c'.rs[0..] == c'.rs;
  }

  /** Returning: to the caller, at the point after its call, or out of the outermost call. */
  lemma LeavesWell(w: World, linked: set<nat>, rs0: seq<int>, g: nat, c: Cpu, c': Cpu) returns (h: nat)
    requires Planted(w, linked) && Well(w, linked, rs0, g, c) && |rs0| > 0
    requires Leaves(c, c', Saved(FnPoint(w, linked, g, c.pc).value))
    ensures Well(w, linked, rs0, h, c') || Outside(w.plane, c', rs0)
  {
    hide Planted, Present, PointIn, FnPoint, AtImport;
    var k := Saved(FnPoint(w, linked, g, c.pc).value);
    var rs := c.rs[k..];
    h := g;
    if rs != rs0 {
      var j: nat;
      h, j :| h in linked && FnPoint(w, linked, h, rs[0]) == Some(ReturnTo(j, g)) && j + 2 < |rs| && Returns(w, linked, h, rs[j + 2..], rs0);
      assert c'.rs[j + 1..] == rs[j + 2..];
    }
  }

  ghost predicate DepthAt(w: World, linked: set<nat>, rs0: seq<int>, c: Cpu, n: nat)
    requires Planted(w, linked)
  {
    hide Planted;
    || Run(w.plane, c, n).Fault?
    || (Run(w.plane, c, n).Go? && DepthOk(w, linked, rs0, Run(w.plane, c, n).c))
    || Ended(w.plane, c, n, rs0)
  }

  lemma DropsDepth(w: World, linked: set<nat>, rs0: seq<int>, c: Cpu, n: nat)
    requires Planted(w, linked) && Drops(w.plane, c) && n > 0
    ensures DepthAt(w, linked, rs0, c, n)
  {
    hide Planted, DepthOk, Drops, AtDbg, Step, Run;
    var m := DropsRun(w.plane, c);
    if n >= m {
      RunStopped(w.plane, c, m, n);
    } else if Run(w.plane, c, n).Go? {
      QuietDepth(w, linked, rs0, Run(w.plane, c, n).c);
    } else {
      RunStopped(w.plane, c, n, m);
    }
  }

  /** Before the next point. */
  lemma OnTheWay(w: World, linked: set<nat>, rs0: seq<int>, c: Cpu, c': Cpu, m: nat, n: nat)
    requires Planted(w, linked) && 0 < n < m && Run(w.plane, c, m) == Go(c')
    requires forall j: nat :: 0 < j < m && Run(w.plane, c, j).Go? ==> !AtDbg(w.plane, Run(w.plane, c, j).c.pc)
    ensures DepthAt(w, linked, rs0, c, n)
  {
    hide Planted, DepthOk, AtDbg, Step, Run;
    if Run(w.plane, c, n).Go? {
      QuietDepth(w, linked, rs0, Run(w.plane, c, n).c);
    } else {
      RunStopped(w.plane, c, n, m);
    }
  }

  lemma DepthLater(w: World, linked: set<nat>, rs0: seq<int>, c: Cpu, c': Cpu, m: nat, n: nat)
    requires Planted(w, linked) && m <= n && Run(w.plane, c, m) == Go(c') && DepthAt(w, linked, rs0, c', n - m)
    ensures DepthAt(w, linked, rs0, c, n)
  {
    hide Planted, DepthOk, Step, Run, Ended;
    RunAdd(w.plane, c, m, n - m);
    if Ended(w.plane, c', n - m, rs0) { EndedLater(w.plane, c, c', m, n, rs0); }
  }

  lemma {:induction false} DepthRun(w: World, linked: set<nat>, rs0: seq<int>, g: nat, c: Cpu, n: nat)
    requires Planted(w, linked) && Well(w, linked, rs0, g, c) && |rs0| > 0
    ensures DepthAt(w, linked, rs0, c, n)
    decreases n, 0
  {
    hide Planted, Present, DepthOk, Goes, Drops, AtDbg, FnHere, Step, Run, Ended, Outside, Stays, Enters, Leaves, Returns, PointIn, PlaceOk, AtImport;
    if n == 0 {
      RunNone(w.plane, c);
      WellDepth(w, linked, rs0, g, c);
    } else {
      var pl := PlantedPlace(w, linked, g);
      FnMoves(w, linked, pl, c);
      var k := Saved(PointIn(pl, c.pc).value);
      if Drops(w.plane, c) {
        DropsDepth(w, linked, rs0, c, n);
      } else {
        var c' :| Goes(w.plane, c, c') && Arrives(w, linked, pl, c, c', k);
        var m := GoesRun(w.plane, c, c');
        if n < m {
          OnTheWay(w, linked, rs0, c, c', m, n);
        } else {
          ArrivesDepth(w, linked, rs0, g, c, c', n - m);
          DepthLater(w, linked, rs0, c, c', m, n);
        }
      }
    }
  }

  lemma RunNone(plane: seq<Cell>, c: Cpu)
    ensures Run(plane, c, 0) == Go(c)
  {
  }

  lemma ArrivesDepth(w: World, linked: set<nat>, rs0: seq<int>, g: nat, c: Cpu, c': Cpu, n: nat)
    requires Planted(w, linked) && Well(w, linked, rs0, g, c) && |rs0| > 0
    requires HasPlace(w, g) && PlaceOk(PlaceOf(w, g)) && Arrives(w, linked, PlaceOf(w, g), c, c', Saved(FnPoint(w, linked, g, c.pc).value))
    ensures DepthAt(w, linked, rs0, c', n)
    decreases n, 1
  {
    hide Planted, Present, DepthOk, Step, Run, Ended, Stays, Enters, Leaves, Returns, PointIn, PlaceOk, AtImport, FnPoint, DepthAt;
    var pl, k := PlaceOf(w, g), Saved(FnPoint(w, linked, g, c.pc).value);
    if Stays(pl, c, c', k) {
      StaysWell(w, linked, rs0, g, c, c');
      DepthRun(w, linked, rs0, g, c', n);
    } else if Enters(w, linked, pl, c, c', k) {
      var f := EntersWell(w, linked, rs0, g, c, c');
      DepthRun(w, linked, rs0, f, c', n);
    } else if Leaves(c, c', k) {
      var h := LeavesWell(w, linked, rs0, g, c, c');
      if Well(w, linked, rs0, h, c') {
        DepthRun(w, linked, rs0, h, c', n);
      } else {
        OutsideDepth(w, linked, rs0, c', n);
      }
    } else {
      OutsideDepth(w, linked, rs0, c', n);
    }
  }

  lemma OutsideDepth(w: World, linked: set<nat>, rs0: seq<int>, c: Cpu, n: nat)
    requires Planted(w, linked) && Outside(w.plane, c, rs0)
    ensures DepthAt(w, linked, rs0, c, n)
  {
    hide Planted, DepthOk, Outside, Run, Ended;
    EndedNow(w.plane, c, rs0);
    EndedMore(w.plane, c, 0, n, rs0);
  }

  /** A linked function, entered with any registers, memory and machine stack, after any number of steps:
      the machine has faulted, or the call has returned to its own return address (or an import has been
      called), or the machine is running, and if it is at the start of an opcode under k labels of some
      function, k saved words and nothing else lie above that function's return address.  It never gets
      stuck on the way. */
  lemma StackDepth(w: World, linked: set<nat>, f: nat, c: Cpu, n: nat)
    requires Planted(w, linked) && f in linked && c.pc == w.plane[8 * f].a && |c.rs| > 0
    ensures var r := Run(w.plane, c, n);
      || Ended(w.plane, c, n, c.rs)
      || r.Fault?
      || (r.Go? && DepthOk(w, linked, c.rs, r.c))
  {
    hide Planted, DepthOk, FnPoint, Run, Ended;
    EntryPoint(w, linked, f);
    assert c.rs[0..] == c.rs;
    assert Well(w, linked, c.rs, f, c);
    DepthRun(w, linked, c.rs, f, c, n);
  }
}
