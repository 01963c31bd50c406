/** Calling into the module from outside: compile on demand, then enter the compiled code. */
module Runtime {
  import opened Words
  import opened Wasm
  import opened X86
  import opened Layout
  import opened Emission
  import opened Closure
  import opened OpSim
  import opened ControlSim
  import opened CallSim
  import opened Fragment
  import opened Endless
  import opened Depth
  import opened Selection
  import opened EndToEnd
  import opened Typing
  import opened TypedRuns
  import opened Sections
  import opened W = WasmContext
  import J = JitWriter

  /** What holds between calls from outside, for the functions that are described. */
  ghost predicate Loaded(jw: J.JitWriter, fs: seq<Func>)
    reads jw, jw.plane
  {
    && jw.Valid() && LocalsFit(jw.pctxt) && Matches(jw.pctxt, fs)
    && PlaneOk(jw.pctxt, jw.Code()) && TableOk(jw.pctxt, fs, jw.Code())
  }

  /** A plane whose table holds nothing but nulls and imports satisfies the table invariant. */
  lemma FreshTable(pg: Program, fs: seq<Func>, code: seq<Cell>)
    requires Matches(pg, fs) && forall g: nat :: pg.imports <= g < |pg.sigs| ==> IsNull(code, g)
    ensures TableOk(pg, fs, code)
  {
    hide Placed, NoneNull, Callees, Disjoint, FnMatches;
    forall g: nat | g < |fs| && fs[g].Defined? ensures IsNull(code, g) {
      MatchAt(pg, fs, g);
      MatchFacts(pg, g, fs[g]);
    }
  }

  /** A new plane for a module. */
  method Load(pctxt: Program, rgexec: array<Cell>, glbls: seq<Word>, ghost fs: seq<Func>) returns (jw: J.JitWriter)
    requires pctxt.imports <= |pctxt.sigs| && CodeStart(pctxt, |glbls|) <= rgexec.Length <= J.MAX_PLANE
    requires LocalsFit(pctxt) && Matches(pctxt, fs)
    modifies rgexec
    ensures fresh(jw) && jw.pctxt == pctxt && jw.plane == rgexec && Loaded(jw, fs)
    ensures |jw.Code()| == CodeStart(pctxt, |glbls|) && forall g: nat :: pctxt.imports <= g < |pctxt.sigs| ==> IsNull(jw.Code(), g)
  {
    hide Matches, LocalsFit, PlaneOk, TableOk, EnvOf;
    jw := new J.JitWriter(pctxt, rgexec, glbls);
    FreshTable(pctxt, fs, jw.Code());
  }

  /** From the sections of a module file to a plane that calls can be made into. */
  method Open(types: seq<U8>, itypes: seq<U32>, decls: seq<U8>, bodies: seq<U8>, rgexec: array<Cell>, glbls: seq<Word>, ghost fs: seq<Func>)
      returns (jw: J.JitWriter)
    requires Loads(types, itypes, decls, bodies).Some?
    requires var pg := Loads(types, itypes, decls, bodies).value;
      && CodeStart(pg, |glbls|) <= rgexec.Length <= J.MAX_PLANE && LocalsFit(pg) && Matches(pg, fs)
    modifies rgexec
    ensures fresh(jw) && jw.pctxt == Loads(types, itypes, decls, bodies).value && jw.plane == rgexec && Loaded(jw, fs)
    ensures |jw.Code()| == CodeStart(jw.pctxt, |glbls|) && forall g: nat :: jw.pctxt.imports <= g < |jw.pctxt.sigs| ==> IsNull(jw.Code(), g)
  {
    hide Loads, LocalsFit, Matches, CodeStart, PlaneOk, TableOk, IsNull;
    var ctx := new W.WasmContext();
    var ok := ctx.LoadModule(types, itypes, decls, bodies);
    ImportsFirst(types, itypes, decls, bodies);
    jw := Load(ctx.Module(), rgexec, glbls, fs);
  }

  lemma ImportsFirst(types: seq<U8>, itypes: seq<U32>, decls: seq<U8>, bodies: seq<U8>)
    requires Loads(types, itypes, decls, bodies).Some?
    ensures var pg := Loads(types, itypes, decls, bodies).value;
      pg.imports <= |pg.sigs|
  {
    hide LoadTypes, LoadDecls, LoadCode, AllBelow;
  }

  /** The locals region with the arguments at its start. */
  method PlaceArguments(args: seq<Value>) returns (loc: Memory)
    ensures forall i :: 0 <= i < |args| ==> Rd(loc, i) == args[i].n
  {
    loc := map[];
    for iarg := 0 to |args|
      invariant forall i :: 0 <= i < iarg ==> Rd(loc, i) == args[i].n
    {
      loc := loc[iarg as int := args[iarg].n];
    }
  }

  /** The machine, run from c, ends as the interpreter does with this much fuel: it returns or faults;
      it keeps going while the fuel is not enough; and once it has stopped, it has stopped alike. */
  ghost predicate Behaves(plane: seq<Cell>, c: Cpu, exit: int, o: Outcome, fuel: nat) {
    && CallEnds(plane, c, o)
    && (o == NoFuel ==> RunsOn(plane, c, fuel))
    && (!Run(plane, c, fuel).Go? && NoCode(plane, exit) ==> StoppedLike(plane, c, o, Run(plane, c, fuel)))
  }

  /** After n steps from c the machine stack is as the labels and calls say it should be. */
  ghost predicate StackRight(pg: Program, fs: seq<Func>, plane: seq<Cell>, c: Cpu, n: nat) {
    && Planted(WorldOf(pg, fs, plane), Compiled(fs, plane))
    && DepthAt(WorldOf(pg, fs, plane), Compiled(fs, plane), c.rs, c, n)
  }

  /** After n steps from the entry of f every value has the type that validation gives it. */
  ghost predicate TypesRight(pg: Program, fs: seq<Func>, plane: seq<Cell>, fts: seq<Option<FType>>, f: nat, c: Cpu, n: nat) {
    hide Validated, TypesAfter;
    && Validated(WorldOf(pg, fs, plane), Compiled(fs, plane), fts) && Has(Compiled(fs, plane), fts, f)
    && TypesAfter(WorldOf(pg, fs, plane), Compiled(fs, plane), fts, f, c.rs, c, n)
  }

  /** So it is for every typing that makes the functions valid and gives f the arguments' types, after
      every number of steps. */
  ghost predicate AlwaysTyped(pg: Program, fs: seq<Func>, plane: seq<Cell>, f: nat, c: Cpu, args: seq<Value>) {
    hide TypesRight, ModuleTyped, HasTypes;
    forall fts: seq<Option<FType>>, n: nat ::
      ModuleTyped(fts, fs) && f < |fts| && fts[f].Some? && HasTypes(args, fts[f].value.params) ==> TypesRight(pg, fs, plane, fts, f, c, n)
  }

  /** The machine is about to run function ifn on the arguments, to return to `exit`. */
  ghost predicate AtEntry(plane: seq<Cell>, ifn: nat, c: Cpu, args: seq<Value>, exit: int) {
    && 8 * ifn < |plane| && plane[8 * ifn].Ptr? && c.pc == plane[8 * ifn].a
    && c.rs == [exit] && c.rbx == 0 && Locals(c, args)
  }

  /** The functions that are compiled. */
  function DoneOnly(fs: seq<Func>, code: seq<Cell>): (r: seq<Func>)
    ensures PartOf(r, fs)
  {
    seq(|fs|, f requires 0 <= f < |fs| => if Filled(fs, code, f) then fs[f] else Import)
  }

  /** A call from outside: compiles the function if its entry is null, and gives the machine state in
      which its code is entered, `exit` being the return address.  From there the machine behaves as
      the interpreter, however deep the calls go, as long as the run stays in supported functions, and
      keeps the stack discipline in any case; the next call can rely on the same.  When the compilation
      fails, the function counts as compiled all the same, and only what was compiled before can be
      relied on. */
  method ExternCallFn(jw: J.JitWriter, ifn: nat, args: seq<Value>, exit: int, ghost fs: seq<Func>) returns (ok: bool, c: Cpu)
    requires Loaded(jw, fs) && jw.pctxt.imports <= ifn < |jw.pctxt.sigs| && |args| == jw.pctxt.sigs[ifn].cparams
    modifies jw`cur, jw.plane
    ensures jw.Valid()
    ensures ok <==> (IsNull(old(jw.Code()), ifn) ==>
      Compile(jw.pctxt, old(jw.Code()), ifn).Some? && |Compile(jw.pctxt, old(jw.Code()), ifn).value| <= jw.plane.Length)
    ensures Closed(jw.pctxt, fs) && fs[ifn].Defined? && IsNull(old(jw.Code()), ifn) ==> Compile(jw.pctxt, old(jw.Code()), ifn).Some?
    ensures ok ==> Loaded(jw, fs) && AtEntry(jw.plane[..], ifn, c, args, exit)
    ensures ok && SupportedOnly(fs)[ifn].Defined? ==>
      forall fuel: nat :: Behaves(jw.plane[..], c, exit, Invoke(SupportedOnly(fs), ifn, args, fuel), fuel)
    ensures ok && Closed(jw.pctxt, fs) && fs[ifn].Defined? ==> forall n: nat :: StackRight(jw.pctxt, fs, jw.plane[..], c, n)
    ensures ok && Closed(jw.pctxt, SupportedOnly(fs)) && SupportedOnly(fs)[ifn].Defined? ==>
      AlwaysTyped(jw.pctxt, SupportedOnly(fs), jw.plane[..], ifn, c, args)
    ensures !ok ==> Loaded(jw, DoneOnly(fs, old(jw.Code())))
    ensures !ok && ifn < jw.pctxt.imports + |jw.pctxt.codes| ==> !IsNull(jw.Code(), ifn)
  {
    hide Matches, LocalsFit, PlaneOk, TableOk, EnvOf, Compile, IsNull, Invoke, Behaves, Extends, Placed, NoneNull, Callees, FnMatches, DepthAt,
         Planted, Closed, StackRight, Supported, SupportedOnly, DoneOnly, AlwaysTyped;
    ghost var code := jw.Code();
    PlaneSize(jw.pctxt, code);
    MatchSize(jw.pctxt, fs);
    ok := true;
    var needed := jw.EntryIsNull(ifn);
    if needed {
      if Closed(jw.pctxt, fs) && fs[ifn].Defined? { CompileSucceeds(jw.pctxt, fs, code, ifn); }
      ok := jw.CompileFn(ifn);
      ExtendsKeepsOk(jw.pctxt, code, jw.Code());
      if ok { CompileKeepsTable(jw.pctxt, fs, code, ifn); } else { DoneKeeps(jw.pctxt, fs, code, jw.Code()); }
    }
    var loc := PlaceArguments(args);
    c := Cpu(0, 0, 0, 0, 0, 0, Undefined, map[], loc, [exit]);
    if !ok {
      if ifn < jw.pctxt.imports + |jw.pctxt.codes| { PtrNotNull(jw.Code(), ifn, |code|); }
      return;
    }
    EntryIsPtr(jw.pctxt, jw.Code(), ifn);
    PlaneSize(jw.pctxt, jw.Code());
    var entry := jw.plane[8 * ifn];
    c := c.(pc := entry.a);
    ghost var plane := jw.plane[..];
    if SupportedOnly(fs)[ifn].Defined? {
      forall fuel: nat ensures Behaves(plane, c, exit, Invoke(SupportedOnly(fs), ifn, args, fuel), fuel) {
        CallIsRight(jw.pctxt, fs, jw.Code(), ifn, plane, c, args, fuel);
      }
    }
    if Closed(jw.pctxt, fs) && fs[ifn].Defined? {
      forall n: nat ensures StackRight(jw.pctxt, fs, plane, c, n) {
        StackIsRight(jw.pctxt, fs, jw.Code(), ifn, plane, c, n);
      }
    }
    if Closed(jw.pctxt, SupportedOnly(fs)) && SupportedOnly(fs)[ifn].Defined? {
      TypesAreRight(jw.pctxt, fs, jw.Code(), ifn, plane, c, args);
    }
  }

  lemma PtrNotNull(code: seq<Cell>, f: nat, p: nat)
    requires 8 * f < |code| && code[8 * f] == Ptr(p) && p > 0
    ensures !IsNull(code, f)
  {
  }

  /** A part of a description is a description. */
  lemma PartMatches(pg: Program, fs': seq<Func>, fs: seq<Func>, code: seq<Cell>)
    requires PartOf(fs', fs) && Matches(pg, fs) && TableOk(pg, fs, code)
    ensures Matches(pg, fs') && TableOk(pg, fs', code)
  {
    hide FnMatches, NoneNull, Callees, At, FnCode;
    forall g: nat | Filled(fs', code, g) ensures fs'[g] == fs[g] && Placed(pg, fs', code, g) && NoneNull(pg, code, Callees(pg, g)) {
      assert Filled(fs, code, g);
    }
    forall g: nat, h: nat | Filled(fs', code, g) && Filled(fs', code, h) && g != h ensures Disjoint(pg, fs', code, g, h) {
      assert Filled(fs, code, g) && Filled(fs, code, h);
      assert Disjoint(pg, fs, code, g, h);
    }
  }

  /** What was compiled before stays good when code is added. */
  lemma DoneKeeps(pg: Program, fs: seq<Func>, a: seq<Cell>, b: seq<Cell>)
    requires Matches(pg, fs) && PlaneOk(pg, a) && TableOk(pg, fs, a) && Extends(pg, a, b)
    ensures Matches(pg, DoneOnly(fs, a)) && TableOk(pg, DoneOnly(fs, a), b)
  {
    hide FnMatches, NoneNull, Callees, PlaneOk, Extends, Placed, Disjoint;
    var fs' := DoneOnly(fs, a);
    PartMatches(pg, fs', fs, a);
    forall g: nat | Filled(fs', b, g) ensures Placed(pg, fs', b, g) && NoneNull(pg, b, Callees(pg, g)) {
      assert Filled(fs', a, g);
      PlacedStays(pg, fs', a, b, g);
      NoneNullStays(pg, a, b, Callees(pg, g));
    }
    forall g: nat, h: nat | Filled(fs', b, g) && Filled(fs', b, h) && g != h ensures Disjoint(pg, fs', b, g, h) {
      assert Filled(fs', a, g) && Filled(fs', a, h);
      DisjointStays(pg, fs', a, b, g, h);
    }
  }

  lemma EntryIsPtr(pg: Program, code: seq<Cell>, f: nat)
    requires PlaneOk(pg, code) && pg.imports <= f < |pg.sigs|
    ensures 8 * f < |code| && code[8 * f].Ptr?
  {
  }

  lemma CallIsRight(pg: Program, fs: seq<Func>, code: seq<Cell>, f: nat, plane: seq<Cell>, c: Cpu, args: seq<Value>, fuel: nat)
    requires Matches(pg, fs) && PlaneOk(pg, code) && TableOk(pg, fs, code) && f < |fs| && SupportedOnly(fs)[f].Defined? && !IsNull(code, f)
    requires code <= plane && |plane| < T32 && 8 * f < |code| && code[8 * f].Ptr? && c.pc == code[8 * f].a
    requires |c.rs| > 0 && Locals(c, args) && f < |pg.sigs| && |args| == pg.sigs[f].cparams
    ensures Behaves(plane, c, c.rs[0], Invoke(SupportedOnly(fs), f, args, fuel), fuel)
  {
    hide Matches, PlaneOk, TableOk, IsNull, CallEnds, Invoke, FnMatches, RunsOn, StoppedLike, Run, Locals, Supported, SupportedOnly;
    var fs' := SupportedOnly(fs);
    PartMatches(pg, fs', fs, code);
    MatchAt(pg, fs', f);
    ParamsAre(pg, f, fs'[f]);
    CompiledRuns(pg, fs', code, f, plane, c, args, fuel);
  }

  lemma StackIsRight(pg: Program, fs: seq<Func>, code: seq<Cell>, f: nat, plane: seq<Cell>, c: Cpu, n: nat)
    requires Matches(pg, fs) && Closed(pg, fs) && PlaneOk(pg, code) && TableOk(pg, fs, code) && f < |fs| && fs[f].Defined? && !IsNull(code, f)
    requires code <= plane && |plane| < T32 && 8 * f < |code| && code[8 * f].Ptr? && c.pc == code[8 * f].a && |c.rs| > 0
    ensures StackRight(pg, fs, plane, c, n)
  {
    hide Matches, Closed, PlaneOk, TableOk, IsNull, Planted, DepthAt;
    CompiledDepth(pg, fs, code, f, plane, c, n);
  }

  lemma TypesAreRight(pg: Program, fs: seq<Func>, code: seq<Cell>, f: nat, plane: seq<Cell>, c: Cpu, args: seq<Value>)
    requires Matches(pg, fs) && PlaneOk(pg, code) && TableOk(pg, fs, code) && f < |fs| && SupportedOnly(fs)[f].Defined? && !IsNull(code, f)
    requires Closed(pg, SupportedOnly(fs))
    requires code <= plane && |plane| < T32 && 8 * f < |code| && code[8 * f].Ptr? && c.pc == code[8 * f].a && |c.rs| > 0 && Locals(c, args)
    ensures AlwaysTyped(pg, SupportedOnly(fs), plane, f, c, args)
  {
    hide Matches, Closed, PlaneOk, TableOk, IsNull, Supported, SupportedOnly, ModuleTyped, HasTypes, Locals, Validated, TypesAfter;
    var fs' := SupportedOnly(fs);
    PartMatches(pg, fs', fs, code);
    forall fts: seq<Option<FType>>, n: nat
      | ModuleTyped(fts, fs') && f < |fts| && fts[f].Some? && HasTypes(args, fts[f].value.params)
      ensures TypesRight(pg, fs', plane, fts, f, c, n)
    {
      CompiledTypes(pg, fs', fts, code, f, plane, c, args, n);
    }
  }

  lemma ParamsAre(pg: Program, f: nat, fn: Func)
    requires FnMatches(pg, f, fn)
    ensures f < |pg.sigs| && fn.Defined? && fn.cparams == pg.sigs[f].cparams
  {
    hide BodyEncoded, BodyOk;
  }

  /** A well-typed function, called with arguments of its parameter types: whenever the machine has
      stopped, it has faulted where WebAssembly traps, or it has returned to `exit` with the result of
      the declared type in rax and everything below the call's frame as it was. */
  lemma ValidatedRuns(fts: seq<Option<FType>>, fs: seq<Func>, f: nat, args: seq<Value>, plane: seq<Cell>, c: Cpu, exit: int, n: nat)
    requires ModuleTyped(fts, fs) && f < |fs| && fts[f].Some? && HasTypes(args, fts[f].value.params) && fs[f].Defined?
    requires Behaves(plane, c, exit, Invoke(fs, f, args, n), n) && NoCode(plane, exit)
    requires !Run(plane, c, n).Go?
    ensures var o := Invoke(fs, f, args, n);
      || (o.Trapped? && Run(plane, c, n) == Fault)
      || (o.Returned? && HasTypes(o.results, fts[f].value.ret)
          && exists c' :: Reaches(plane, c, c') && Gone(c, c', c.rdi, 0, o.results))
  {
    hide Invoke, ModuleTyped, HasTypes, Run, RunsOn, Reaches, CallEnds, Gone;
    SoundInvoke(fts, fs, f, args, n);
    if Invoke(fs, f, args, n).NoFuel? { NotLonger(plane, c, n); }
  }
}
