/** The loaded module, filled in section by section. */
module WasmContext {
  import opened Words
  import opened Wasm
  import opened Leb
  import opened Bytecode
  import opened Emission
  import opened Sections
  import opened Canonical

  /** FunctionTypeEntry::operator==. */
  method SameType(a: FnType, b: FnType) returns (eq: bool)
    ensures eq <==> a == b
  {
    if a.ret.Some? != b.ret.Some? { return false; }
    if a.ret.Some? && a.ret.value != b.ret.value { return false; }
    if |a.cparams| != |b.cparams| { return false; }
    for iparam := 0 to |a.cparams|
      invariant a.cparams[..iparam] == b.cparams[..iparam]
    {
      if a.cparams[iparam] != b.cparams[iparam] { return false; }
      assert a.cparams[..iparam + 1] == a.cparams[..iparam] + [a.cparams[iparam]];
      assert b.cparams[..iparam + 1] == b.cparams[..iparam] + [b.cparams[iparam]];
    }
    assert a.cparams[..|a.cparams|] == a.cparams && b.cparams[..|a.cparams|] == b.cparams;
    return true;
  }

  class WasmContext {
    var imports: nat
    var fnTypes: seq<FnType>
    var fnEntries: seq<U32>
    var fnCode: seq<Code>

    constructor ()
      ensures imports == 0 && fnTypes == [] && fnEntries == [] && fnCode == []
    {
      imports, fnTypes, fnEntries, fnCode := 0, [], [], [];
    }

    /** What the compiler is given: the number of imports, every function's signature, the bodies. */
    function Module(): Program
      requires AllBelow(fnEntries, |fnTypes|)
      reads this
    {
      Program(imports, Sigs(fnTypes, fnEntries), fnCode)
    }

    /** The parameter types; the bytes may run out. */
    method LoadParams(data: seq<U8>, pos: nat, cb: nat, paramCount: nat) returns (ok: bool, params: seq<U8>, pos': nat, cb': nat)
      requires pos + cb <= |data|
      ensures ok <==> paramCount <= cb
      ensures ok ==> pos' == pos + paramCount && cb' == cb - paramCount && params == data[pos..pos']
    {
      params, pos', cb' := [], pos, cb;
      for iparam := 0 to paramCount
        invariant iparam <= cb && pos' == pos + iparam && cb' == cb - iparam && params == data[pos..pos']
      {
        if cb' < 1 { return false, params, pos', cb'; }
        params := params + [data[pos']];
        pos', cb' := pos' + 1, cb' - 1;
      }
      return true, params, pos', cb';
    }

    /** Appends one function type read from the cb bytes at pos. */
    method LoadFnType(data: seq<U8>, pos: nat, cb: nat) returns (ok: bool, pos': nat, cb': nat)
      requires pos + cb <= |data|
      modifies this`fnTypes
      ensures match ParseType(data[pos..pos + cb])
        case None => !ok && fnTypes == old(fnTypes)
        case Some((t, n)) => ok && fnTypes == old(fnTypes) + [t] && pos' == pos + n && cb' == cb - n
    {
      hide ReadU, ParseType;
      ghost var s := data[pos..pos + cb];
      pos', cb' := pos, cb;
      NotAType(s);
      if cb' < 1 || data[pos'] != FUNC { return false, pos', cb'; }
      pos', cb' := pos' + 1, cb' - 1;
      SliceAfter(data, pos, cb, 1);
      var paramCount: nat;
      paramCount, pos', cb' := ReadUnsigned(W32, data, pos', cb');
      ghost var first := pos' - pos;
      var params: seq<U8>;
      ok, params, pos', cb' := LoadParams(data, pos', cb', paramCount);
      if !ok || cb' < 1 { return false, pos', cb'; }
      SliceAfter(data, pos, cb, pos' - pos);
      SliceWithin(data, pos, cb, first, paramCount);
      ParseTypeOf(s, first - 1, params, data[pos'..pos' + cb']);
      var fHasReturnValue := data[pos'] == 1;
      pos', cb' := pos' + 1, cb' - 1;
      var ret := None;
      if fHasReturnValue {
        if cb' < 1 { return false, pos', cb'; }
        ret := Some(data[pos']);
        pos', cb' := pos' + 1, cb' - 1;
      }
      fnTypes := fnTypes + [FnType(params, ret)];
      return true, pos', cb';
    }

    /** The type section. */
    method LoadFnTypes(payload: seq<U8>) returns (ok: bool)
      modifies this`fnTypes
      ensures ok <==> LoadTypes(payload).Some?
      ensures ok ==> fnTypes == old(fnTypes) + LoadTypes(payload).value
    {
      hide ReadU, ParseTypes, ParseType, Continued;
      assert payload[0..0 + |payload|] == payload;
      var cfn: nat, pos: nat, cb: nat := ReadUnsigned(W32, payload, 0, |payload|);
      SliceAfter(payload, 0, |payload|, pos);
      assert payload[pos..pos + cb] == payload[pos..];
      ghost var parsed, first := ParseTypes(payload[pos..pos + cb], cfn), pos;
      ContinuedStart(parsed, fnTypes);
      while cfn > 0
        invariant pos + cb == |payload| && first <= pos
        invariant Continued(parsed, old(fnTypes), pos - first, fnTypes, ParseTypes(payload[pos..pos + cb], cfn))
        decreases cfn
      {
        ghost var p, c := pos, cb;
        TypesContinue(parsed, old(fnTypes), p - first, fnTypes, payload[p..p + c], cfn);
        ok, pos, cb := LoadFnType(payload, pos, cb);
        if !ok { return; }
        SliceAfter(payload, p, c, pos - p);
        cfn := cfn - 1;
      }
      ParseTypesNone(payload[pos..pos + cb]);
      ContinuedEnd(parsed, old(fnTypes), pos - first, fnTypes);
      return cb == 0;
    }

    /** The function section. */
    method LoadFnDecls(payload: seq<U8>) returns (ok: bool)
      modifies this`fnEntries
      ensures ok <==> LoadDecls(payload, |fnTypes|).Some?
      ensures ok ==> fnEntries == old(fnEntries) + LoadDecls(payload, |fnTypes|).value
    {
      hide ReadU, ReadMany, AllBelow, DeclsLeft;
      assert payload[0..0 + |payload|] == payload;
      var cfn: nat, pos: nat, cb: nat := ReadUnsigned(W32, payload, 0, |payload|);
      SliceAfter(payload, 0, |payload|, pos);
      ghost var first := pos;
      ghost var (all, total) := ReadMany(payload[pos..pos + cb], cfn);
      assert payload[pos..pos + cb] == payload[pos..];
      assert fnEntries + [] == fnEntries;
      DeclsNone(all, total, |fnTypes|);
      var i := 0;
      while i < cfn
        invariant 0 <= i <= cfn && pos + cb == |payload| && first <= pos
        invariant DeclsLeft(all, i, total, pos - first, ReadMany(payload[pos..pos + cb], cfn - i))
        invariant i <= |all| && fnEntries == old(fnEntries) + all[..i] && AllBelow(all[..i], |fnTypes|)
      {
        ghost var p, c := pos, cb;
        var v: Word;
        v, pos, cb := ReadUnsigned(W32, payload, pos, cb);
        SliceAfter(payload, p, c, pos - p);
        DeclsStep(all, i, total, p - first, payload[p..p + c], cfn - i, |fnTypes|);
        assert fnEntries + [v] == old(fnEntries) + all[..i + 1];
        fnEntries := fnEntries + [v];
        if v >= |fnTypes| { return false; }
        i := i + 1;
      }
      DeclsDone(all, cfn, total, pos - first, payload[pos..pos + cb]);
      return cb == 0;
    }

    /** The function imports, of which only the type indices matter here. */
    method LoadImports(itypes: seq<U32>) returns (ok: bool)
      modifies this`imports, this`fnEntries
      ensures ok <==> AllBelow(itypes, |fnTypes|)
      ensures ok ==> imports == old(imports) + |itypes| && fnEntries == old(fnEntries) + itypes
    {
      for iimport := 0 to |itypes|
        invariant imports == old(imports) + iimport && fnEntries == old(fnEntries) + itypes[..iimport]
        invariant AllBelow(itypes[..iimport], |fnTypes|)
      {
        imports := imports + 1;
        assert itypes[..iimport + 1] == itypes[..iimport] + [itypes[iimport]];
        fnEntries := fnEntries + [itypes[iimport]];
        if itypes[iimport] >= |fnTypes| { return false; }
      }
      assert itypes[..|itypes|] == itypes;
      return true;
    }

    /** One entry of the code section; its local groups and its bytecode have to fill its size exactly. */
    method LoadBody(data: seq<U8>, pos: nat, cb: nat) returns (ok: bool, pos': nat, cb': nat)
      requires pos + cb <= |data|
      modifies this`fnCode
      ensures match ParseEntry(data[pos..pos + cb])
        case None => !ok && fnCode == old(fnCode)
        case Some((c, n)) => ok && fnCode == old(fnCode) + [c] && pos' == pos + n && cb' == cb - n
    {
      hide ReadU, ParseCode;
      var cbBody: nat;
      cbBody, pos', cb' := ReadUnsigned(W32, data, pos, cb);
      if cbBody > cb' { return false, pos', cb'; }
      SliceWithin(data, pos, cb, pos' - pos, cbBody);
      var c := LoadInside(data, pos', cbBody);
      pos', cb' := pos' + cbBody, cb' - cbBody;
      if c.None? { return false, pos', cb'; }
      fnCode := fnCode + [c.value];
      return true, pos', cb';
    }

    /** Local groups, then everything that is left of the entry as bytecode. */
    method LoadInside(data: seq<U8>, pos: nat, cb: nat) returns (c: Option<Code>)
      requires pos + cb <= |data|
      ensures c == ParseCode(data[pos..pos + cb])
    {
      hide ReadU, ParseLocals;
      var clocal: nat, p: nat, cbBody: nat := ReadUnsigned(W32, data, pos, cb);
      SliceAfter(data, pos, cb, p - pos);
      var ok, groups, q, cbCode := LoadLocals(data, p, cbBody, clocal);
      if !ok { return None; }
      SliceAfter(data, pos, cb, q - pos);
      var vecbytecode := data[q..q + cbCode];
      if |vecbytecode| == 0 || vecbytecode[|vecbytecode| - 1] != END_OP { return None; }
      return Some(Code(groups, vecbytecode));
    }

    method LoadLocalEntry(data: seq<U8>, pos: nat, cb: nat) returns (le: Option<LocalEntry>, pos': nat, cb': nat)
      requires pos + cb <= |data|
      ensures match ParseLocal(data[pos..pos + cb])
        case None => le == None
        case Some((g, n)) => le == Some(g) && pos' == pos + n && cb' == cb - n
    {
      hide ReadU;
      var count: Word;
      count, pos', cb' := ReadUnsigned(W32, data, pos, cb);
      if cb' < 1 { return None, pos', cb'; }
      assert data[pos..pos + cb][pos' - pos] == data[pos'];
      return Some(LocalEntry(count, data[pos'])), pos' + 1, cb' - 1;
    }

    /** The local groups of one body. */
    method LoadLocals(data: seq<U8>, pos: nat, cb: nat, clocal: nat) returns (ok: bool, groups: seq<LocalEntry>, pos': nat, cb': nat)
      requires pos + cb <= |data|
      ensures match ParseLocals(data[pos..pos + cb], clocal)
        case None => !ok
        case Some((gs, n)) => ok && groups == gs && pos' == pos + n && cb' == cb - n
    {
      hide ParseLocal, ParseLocals, Continued;
      ghost var parsed := ParseLocals(data[pos..pos + cb], clocal);
      groups, pos', cb' := [], pos, cb;
      ContinuedStart(parsed, groups);
      for ilocal := 0 to clocal
        invariant pos' + cb' == pos + cb && pos <= pos'
        invariant Continued(parsed, [], pos' - pos, groups, ParseLocals(data[pos'..pos' + cb'], clocal - ilocal))
      {
        ghost var p, c := pos', cb';
        LocalsContinue(parsed, [], p - pos, groups, data[p..p + c], clocal - ilocal);
        var le: Option<LocalEntry>;
        le, pos', cb' := LoadLocalEntry(data, pos', cb');
        if le.None? { return false, groups, pos', cb'; }
        groups := groups + [le.value];
        SliceAfter(data, p, c, pos' - p);
      }
      ParseLocalsNone(data[pos'..pos' + cb']);
      ContinuedEnd(parsed, [], pos' - pos, groups);
      assert [] + parsed.value.0 == parsed.value.0;
      return true, groups, pos', cb';
    }

    /** The code section. */
    method LoadCodeSection(payload: seq<U8>) returns (ok: bool)
      modifies this`fnCode
      ensures ok <==> LoadCode(payload).Some?
      ensures ok ==> fnCode == old(fnCode) + LoadCode(payload).value
    {
      hide ReadU, ParseCodes, ParseEntry, Continued;
      assert payload[0..0 + |payload|] == payload;
      var cfn: nat, pos: nat, cb: nat := ReadUnsigned(W32, payload, 0, |payload|);
      SliceAfter(payload, 0, |payload|, pos);
      assert payload[pos..pos + cb] == payload[pos..];
      ghost var parsed, first := ParseCodes(payload[pos..pos + cb], cfn), pos;
      ContinuedStart(parsed, fnCode);
      while cfn > 0
        invariant pos + cb == |payload| && first <= pos
        invariant Continued(parsed, old(fnCode), pos - first, fnCode, ParseCodes(payload[pos..pos + cb], cfn))
        decreases cfn
      {
        ghost var p, c := pos, cb;
        CodesContinue(parsed, old(fnCode), p - first, fnCode, payload[p..p + c], cfn);
        ok, pos, cb := LoadBody(payload, pos, cb);
        if !ok { return; }
        SliceAfter(payload, p, c, pos - p);
        cfn := cfn - 1;
      }
      ParseCodesNone(payload[pos..pos + cb]);
      ContinuedEnd(parsed, old(fnCode), pos - first, fnCode);
      return cb == 0;
    }

    // ---------- canonical types ----------

    /** Walks down from idx, moving it to every equal type met. */
    method ITypeCanonicalFromIType(i: nat) returns (r: Option<nat>)
      ensures r == if i < |fnTypes| then Some(Canon(fnTypes, i)) else None
    {
      hide Canon;
      if i >= |fnTypes| { return None; }
      var idx := i;
      if idx == 0 { return Some(0); }
      var itrType := idx;
      while itrType != 0
        invariant 0 <= itrType <= idx <= i && fnTypes[idx] == fnTypes[i]
        invariant forall j :: itrType <= j < idx ==> fnTypes[j] != fnTypes[i]
        decreases itrType
      {
        itrType := itrType - 1;
        var same := SameType(fnTypes[itrType], fnTypes[idx]);
        if same { idx := itrType; }
      }
      return Some(idx);
    }

    /** What LoadModule does to the entries once everything is loaded. */
    method CanonicalizeEntries() returns (ok: bool)
      modifies this`fnEntries
      ensures ok <==> AllBelow(old(fnEntries), |fnTypes|)
      ensures ok ==> fnEntries == Canonicalized(fnTypes, old(fnEntries))
    {
      hide Canon;
      var entries := fnEntries;
      for f := 0 to |entries|
        invariant |fnEntries| == |entries| && entries[f..] == fnEntries[f..] && AllBelow(entries[..f], |fnTypes|)
        invariant forall g :: 0 <= g < f ==> fnEntries[g] == Canon(fnTypes, entries[..f][g])
      {
        var c := ITypeCanonicalFromIType(fnEntries[f]);
        if c.None? { return false; }
        fnEntries := fnEntries[f := c.value];
      }
      assert entries[..|entries|] == entries;
      return true;
    }

    /** Loads a module, section by section in their order, and makes the type indices canonical.  What the
        compiler gets is what the sections hold. */
    method LoadModule(types: seq<U8>, itypes: seq<U32>, decls: seq<U8>, bodies: seq<U8>) returns (ok: bool)
      requires imports == 0 && fnTypes == [] && fnEntries == [] && fnCode == []
      modifies this
      ensures ok <==> Loads(types, itypes, decls, bodies).Some?
      ensures ok ==> AllBelow(fnEntries, |fnTypes|) && Module() == Loads(types, itypes, decls, bodies).value
      ensures ok ==> LoadTypes(types) == Some(fnTypes) && LoadDecls(decls, |fnTypes|).Some?
      ensures ok ==> var entries := itypes + LoadDecls(decls, |fnTypes|).value;
        && AllBelow(entries, |fnTypes|) && fnEntries == Canonicalized(fnTypes, entries)
        && forall f, g :: 0 <= f < |entries| && 0 <= g < |entries| ==>
             (fnEntries[f] == fnEntries[g] <==> fnTypes[entries[f]] == fnTypes[entries[g]])
    {
      hide LoadTypes, LoadDecls, LoadCode, Sigs, Canonicalized, AllBelow;
      ok := LoadFnTypes(types);
      if !ok { return; }
      assert [] + LoadTypes(types).value == LoadTypes(types).value;
      ok := LoadImports(itypes);
      if !ok { return; }
      ok := LoadFnDecls(decls);
      if !ok { return; }
      ok := LoadCodeSection(bodies);
      if !ok { return; }
      assert [] + LoadCode(bodies).value == LoadCode(bodies).value;
      assert [] + itypes == itypes;
      DeclsBelow(decls, |fnTypes|);
      BelowBoth(itypes, LoadDecls(decls, |fnTypes|).value, |fnTypes|);
      ghost var entries := fnEntries;
      ok := CanonicalizeEntries();
      SigsKept(fnTypes, entries);
      forall f, g | 0 <= f < |entries| && 0 <= g < |entries|
        ensures fnEntries[f] == fnEntries[g] <==> fnTypes[entries[f]] == fnTypes[entries[g]]
      {
        EntriesCompare(fnTypes, entries, f, g);
      }
    }
  }

  /** The module that the sections hold, if they can be loaded. */
  ghost function Loads(types: seq<U8>, itypes: seq<U32>, decls: seq<U8>, bodies: seq<U8>): Option<Program> {
    match LoadTypes(types)
    case None => None
    case Some(ts) =>
      match (LoadDecls(decls, |ts|), LoadCode(bodies))
      case (Some(ds), Some(cs)) =>
        if AllBelow(itypes, |ts|) then
          DeclsBelow(decls, |ts|);
          BelowBoth(itypes, ds, |ts|);
          Some(Program(|itypes|, Sigs(ts, itypes + ds), cs))
        else None
      case _ => None
  }

  lemma DeclsBelow(decls: seq<U8>, n: nat)
    ensures LoadDecls(decls, n).Some? ==> AllBelow(LoadDecls(decls, n).value, n)
  {
    hide ReadMany, ReadU;
  }

  lemma BelowBoth(a: seq<nat>, b: seq<nat>, n: nat)
    requires AllBelow(a, n) && AllBelow(b, n)
    ensures AllBelow(a + b, n)
  {
  }

  /** Any encoding of types, imports, functions and bodies loads to them. */
  lemma LoadsEncoded(ts: seq<FnType>, tparts: seq<seq<U8>>, tz: seq<U8>, itypes: seq<U32>, ds: seq<U32>, dparts: seq<seq<U8>>, dz: seq<U8>,
                     cs: seq<Code>, cparts: seq<seq<U8>>, cz: seq<U8>)
    requires TypesEncoded(ts, tparts) && IsU(32, tz, |ts|) && UsEncoded(dparts, ds) && IsU(32, dz, |ds|)
    requires CodesEncoded(cs, cparts) && IsU(32, cz, |cs|) && AllBelow(itypes, |ts|) && AllBelow(ds, |ts|)
    ensures AllBelow(itypes + ds, |ts|)
    ensures Loads(tz + Flat(tparts), itypes, dz + Flat(dparts), cz + Flat(cparts)) == Some(Program(|itypes|, Sigs(ts, itypes + ds), cs))
  {
    hide LoadTypes, LoadDecls, LoadCode, Sigs, AllBelow, TypesEncoded, CodesEncoded, UsEncoded, IsU, Flat;
    TypesRoundTrip(ts, tparts, tz);
    DeclsRoundTrip(ds, dparts, dz, |ts|);
    CodeRoundTrip(cs, cparts, cz);
    BelowBoth(itypes, ds, |ts|);
  }

  /** The indices read so far are the first i of all of them. */
  ghost predicate DeclsLeft(all: seq<U32>, i: nat, total: nat, n: nat, left: (seq<U32>, nat)) {
    i <= |all| && all == all[..i] + left.0 && total == n + left.1
  }

  lemma DeclsNone(all: seq<U32>, total: nat, ctypes: nat)
    ensures DeclsLeft(all, 0, total, 0, (all, total)) && AllBelow(all[..0], ctypes) && all[..0] == []
  {
  }

  lemma DeclsStep(all: seq<U32>, i: nat, total: nat, n: nat, s: seq<U8>, k: nat, ctypes: nat)
    requires k > 0 && DeclsLeft(all, i, total, n, ReadMany(s, k)) && i <= |all| && AllBelow(all[..i], ctypes)
    ensures var (v, m) := ReadU(W32, s);
      && DeclsLeft(all, i + 1, total, n + m, ReadMany(s[m..], k - 1))
      && i < |all| && all[..i + 1] == all[..i] + [v as U32]
      && (if v < ctypes then AllBelow(all[..i + 1], ctypes) else !AllBelow(all, ctypes))
  {
    hide ReadU;
    ReadManyStep(s, k);
    var (v, m) := ReadU(W32, s);
    NextOf(all, i, v, ReadMany(s[m..], k - 1).0);
  }

  lemma DeclsDone(all: seq<U32>, i: nat, total: nat, n: nat, s: seq<U8>)
    requires DeclsLeft(all, i, total, n, ReadMany(s, 0))
    ensures all[..i] == all && total == n
  {
  }

  lemma SliceWithin(data: seq<U8>, pos: nat, cb: nat, n: nat, size: nat)
    requires pos + cb <= |data| && n + size <= cb
    ensures data[pos..pos + cb][n..n + size] == data[pos + n..pos + n + size]
  {
    var a, b := data[pos..pos + cb][n..n + size], data[pos + n..pos + n + size];
    assert |a| == |b| && forall i :: 0 <= i < size ==> a[i] == b[i];
  }

  lemma NextOf(all: seq<U32>, i: nat, v: U32, vs: seq<U32>)
    requires i < |all| && all == all[..i] + ([v] + vs)
    ensures all[i] == v && all[..i + 1] == all[..i] + [v] && all == all[..i + 1] + vs
  {
  }
}
