/** The type, function and code sections: what the loader makes of their bytes, and the binary format
    of WebAssembly Core 1.0, sections 5.5.4, 5.5.6 and 5.5.13, that it inverts. */
module Sections {
  import opened Words
  import opened Wasm
  import opened Leb
  import opened LebProofs
  import opened Emitter
  import opened Bytecode
  import opened Emission

  const FUNC: U8 := 0x60
  const END_OP: U8 := 0x0b

  /** A function type: parameter types and at most one result type. */
  datatype FnType = FnType(cparams: seq<U8>, ret: Option<U8>)

  // ---------- what is read ----------

  /** One item of n bytes before a list already read. */
  function Prepend<T>(x: T, n: nat, rest: Option<(seq<T>, nat)>): (r: Option<(seq<T>, nat)>)
    ensures r.Some? <==> rest.Some?
    ensures r.Some? ==> r.value.1 == n + rest.value.1 && |r.value.0| == 1 + |rest.value.0|
  {
    if rest.None? then None else Some(([x] + rest.value.0, n + rest.value.1))
  }

  function ParseType(s: seq<U8>): (r: Option<(FnType, nat)>)
    ensures r.Some? ==> 0 < r.value.1 <= |s|
  {
    if |s| < 1 || s[0] != FUNC then None
    else
      var (count, n) := ReadU(W32, s[1..]);
      var p := 1 + n + count;
      if |s| < p + 1 then None
      else if s[p] != 1 then Some((FnType(s[1 + n..p], None), p + 1))
      else if |s| < p + 2 then None
      else Some((FnType(s[1 + n..p], Some(s[p + 1])), p + 2))
  }

  function ParseTypes(s: seq<U8>, k: nat): (r: Option<(seq<FnType>, nat)>)
    ensures r.Some? ==> r.value.1 <= |s| && |r.value.0| == k
    decreases k
  {
    if k == 0 then Some(([], 0))
    else
      match ParseType(s)
      case None => None
      case Some((t, n)) => Prepend(t, n, ParseTypes(s[n..], k - 1))
  }

  /** A whole type section; trailing bytes are an error. */
  function LoadTypes(s: seq<U8>): Option<seq<FnType>> {
    var (k, n) := ReadU(W32, s);
    match ParseTypes(s[n..], k)
    case None => None
    case Some((ts, m)) => if n + m == |s| then Some(ts) else None
  }

  predicate AllBelow(vs: seq<nat>, n: nat) {
    forall i :: 0 <= i < |vs| ==> vs[i] < n
  }

  /** A whole function section; every index must name a type. */
  function LoadDecls(s: seq<U8>, ctypes: nat): Option<seq<U32>> {
    var (k, n) := ReadU(W32, s);
    var (vs, m) := ReadMany(s[n..], k);
    if AllBelow(vs, ctypes) && n + m == |s| then Some(vs) else None
  }

  function ParseLocal(s: seq<U8>): (r: Option<(LocalEntry, nat)>)
    ensures r.Some? ==> r.value.1 <= |s|
  {
    var (count, n) := ReadU(W32, s);
    if |s| < n + 1 then None else Some((LocalEntry(count, s[n]), n + 1))
  }

  function ParseLocals(s: seq<U8>, k: nat): (r: Option<(seq<LocalEntry>, nat)>)
    ensures r.Some? ==> r.value.1 <= |s| && |r.value.0| == k
    decreases k
  {
    hide ParseLocal;
    if k == 0 then Some(([], 0))
    else
      match ParseLocal(s)
      case None => None
      case Some((g, n)) => Prepend(g, n, ParseLocals(s[n..], k - 1))
  }

  /** The inside of a code entry: local groups, then bytecode that has to end with `end`. */
  function ParseCode(s: seq<U8>): Option<Code> {
    var (k, n) := ReadU(W32, s);
    match ParseLocals(s[n..], k)
    case None => None
    case Some((gs, m)) =>
      var bytes := s[n + m..];
      if |bytes| > 0 && bytes[|bytes| - 1] == END_OP then Some(Code(gs, bytes)) else None
  }

  /** A code entry: its size, then its inside. */
  function ParseEntry(s: seq<U8>): (r: Option<(Code, nat)>)
    ensures r.Some? ==> r.value.1 <= |s|
  {
    var (size, n) := ReadU(W32, s);
    if n + size > |s| then None
    else
      match ParseCode(s[n..n + size])
      case None => None
      case Some(c) => Some((c, n + size))
  }

  function ParseCodes(s: seq<U8>, k: nat): (r: Option<(seq<Code>, nat)>)
    ensures r.Some? ==> r.value.1 <= |s| && |r.value.0| == k
    decreases k
  {
    hide ParseEntry;
    if k == 0 then Some(([], 0))
    else
      match ParseEntry(s)
      case None => None
      case Some((c, n)) => Prepend(c, n, ParseCodes(s[n..], k - 1))
  }

  function LoadCode(s: seq<U8>): Option<seq<Code>> {
    var (k, n) := ReadU(W32, s);
    match ParseCodes(s[n..], k)
    case None => None
    case Some((cs, m)) => if n + m == |s| then Some(cs) else None
  }

  // ---------- the loading loops ----------

  /** What is left to parse, together with what has been appended to a vector so far (from `was` to
      `now`, over n bytes), is the whole result. */
  ghost predicate Continued<T(!new)>(all: Option<(seq<T>, nat)>, was: seq<T>, n: nat, now: seq<T>, left: Option<(seq<T>, nat)>) {
    && (all.None? <==> left.None?)
    && (all.Some? ==> was + all.value.0 == now + left.value.0 && all.value.1 == n + left.value.1)
  }

  lemma ContinuedStep<T(!new)>(all: Option<(seq<T>, nat)>, was: seq<T>, n: nat, now: seq<T>, x: T, m: nat, left: Option<(seq<T>, nat)>)
    requires Continued(all, was, n, now, Prepend(x, m, left))
    ensures Continued(all, was, n + m, now + [x], left)
  {
    if left.Some? { Assoc(now, [x], left.value.0); }
  }

  lemma ContinuedNone<T(!new)>(all: Option<(seq<T>, nat)>, was: seq<T>, n: nat, now: seq<T>)
    requires Continued(all, was, n, now, None)
    ensures all.None?
  {
  }

  lemma ContinuedStart<T(!new)>(all: Option<(seq<T>, nat)>, was: seq<T>)
    ensures Continued(all, was, 0, was, all)
  {
  }

  lemma ContinuedEnd<T(!new)>(all: Option<(seq<T>, nat)>, was: seq<T>, n: nat, now: seq<T>)
    requires Continued(all, was, n, now, Some(([], 0)))
    ensures all.Some? && was + all.value.0 == now && all.value.1 == n
  {
    assert now + [] == now;
  }

  lemma ParseTypesNone(s: seq<U8>)
    ensures ParseTypes(s, 0) == Some(([], 0))
  {
  }

  lemma ParseLocalsNone(s: seq<U8>)
    ensures ParseLocals(s, 0) == Some(([], 0))
  {
  }

  lemma ParseCodesNone(s: seq<U8>)
    ensures ParseCodes(s, 0) == Some(([], 0))
  {
  }

  lemma TypesContinue(all: Option<(seq<FnType>, nat)>, was: seq<FnType>, n: nat, now: seq<FnType>, s: seq<U8>, k: nat)
    requires k > 0 && Continued(all, was, n, now, ParseTypes(s, k))
    ensures match ParseType(s)
      case None => all.None?
      case Some((x, m)) => Continued(all, was, n + m, now + [x], ParseTypes(s[m..], k - 1))
  {
    hide ParseType, Continued;
    if ParseType(s).Some? {
      var (x, m) := ParseType(s).value;
      ContinuedStep(all, was, n, now, x, m, ParseTypes(s[m..], k - 1));
    } else {
      ContinuedNone(all, was, n, now);
    }
  }

  lemma LocalsContinue(all: Option<(seq<LocalEntry>, nat)>, was: seq<LocalEntry>, n: nat, now: seq<LocalEntry>, s: seq<U8>, k: nat)
    requires k > 0 && Continued(all, was, n, now, ParseLocals(s, k))
    ensures match ParseLocal(s)
      case None => all.None?
      case Some((x, m)) => Continued(all, was, n + m, now + [x], ParseLocals(s[m..], k - 1))
  {
    hide ParseLocal, Continued;
    if ParseLocal(s).Some? {
      var (x, m) := ParseLocal(s).value;
      ContinuedStep(all, was, n, now, x, m, ParseLocals(s[m..], k - 1));
    } else {
      ContinuedNone(all, was, n, now);
    }
  }

  lemma CodesContinue(all: Option<(seq<Code>, nat)>, was: seq<Code>, n: nat, now: seq<Code>, s: seq<U8>, k: nat)
    requires k > 0 && Continued(all, was, n, now, ParseCodes(s, k))
    ensures match ParseEntry(s)
      case None => all.None?
      case Some((x, m)) => Continued(all, was, n + m, now + [x], ParseCodes(s[m..], k - 1))
  {
    hide ParseEntry, Continued;
    if ParseEntry(s).Some? {
      var (x, m) := ParseEntry(s).value;
      ContinuedStep(all, was, n, now, x, m, ParseCodes(s[m..], k - 1));
    } else {
      ContinuedNone(all, was, n, now);
    }
  }

  // ---------- the binary format ----------

  function Results(t: FnType): seq<U8> { if t.ret.Some? then [t.ret.value] else [] }

  /** s encodes t, the parameter count as u and the result count as v. */
  predicate TypeEncoded(t: FnType, u: seq<U8>, v: seq<U8>, s: seq<U8>) {
    && IsU(32, u, |t.cparams|) && IsU(32, v, |Results(t)|)
    && s == [FUNC] + (u + (t.cparams + (v + Results(t))))
  }

  predicate LocalEncoded(g: LocalEntry, s: seq<U8>) {
    |s| > 0 && IsU(32, s[..|s| - 1], g.count) && s[|s| - 1] == g.ty
  }

  predicate LocalsEncoded(gs: seq<LocalEntry>, parts: seq<seq<U8>>) {
    |parts| == |gs| && forall i :: 0 <= i < |gs| ==> LocalEncoded(gs[i], parts[i])
  }

  /** s encodes the function body c. */
  ghost predicate CodeEncoded(c: Code, s: seq<U8>) {
    && |c.bytes| > 0 && c.bytes[|c.bytes| - 1] == END_OP
    && exists u, parts, z :: LocalsEncoded(c.groups, parts) && IsU(32, u, |c.groups|)
         && IsU(32, z, |u + (Flat(parts) + c.bytes)|) && s == z + (u + (Flat(parts) + c.bytes))
  }

  ghost predicate CodesEncoded(cs: seq<Code>, parts: seq<seq<U8>>) {
    |parts| == |cs| && forall i :: 0 <= i < |cs| ==> CodeEncoded(cs[i], parts[i])
  }

  /** s encodes t with a result count of one byte, as it is unless it is padded. */
  ghost predicate UnpaddedType(t: FnType, s: seq<U8>) {
    exists u, v :: |v| == 1 && TypeEncoded(t, u, v, s)
  }

  ghost predicate TypesEncoded(ts: seq<FnType>, parts: seq<seq<U8>>) {
    |parts| == |ts| && forall i :: 0 <= i < |ts| ==> UnpaddedType(ts[i], parts[i])
  }

  // ---------- reading inverts the format ----------

  lemma AfterThree(a: seq<U8>, b: seq<U8>, r: seq<U8>)
    ensures ([FUNC] + (a + (b + r)))[1..] == a + (b + r)
    ensures ([FUNC] + (a + (b + r)))[1 + |a|..1 + |a| + |b|] == b
    ensures ([FUNC] + (a + (b + r)))[1 + |a| + |b|..] == r
  {
  }

  lemma ParseTypeIs(s: seq<U8>, u: seq<U8>, ps: seq<U8>, tail: seq<U8>)
    requires IsU(32, u, |ps|) && |tail| > 0 && s == [FUNC] + (u + (ps + tail))
    ensures ParseType(s) ==
      if tail[0] != 1 then Some((FnType(ps, None), 1 + |u| + |ps| + 1))
      else if |tail| < 2 then None
      else Some((FnType(ps, Some(tail[1])), 1 + |u| + |ps| + 2))
  {
    hide IsU, ReadU;
    AfterThree(u, ps, tail);
    UnsignedRoundTrip(W32, u, |ps|, ps + tail);
    ParseTypeOf(s, |u|, ps, tail);
  }

  /** The early ways for a function type to be rejected. */
  lemma NotAType(s: seq<U8>)
    ensures |s| < 1 || s[0] != FUNC ==> ParseType(s).None?
    ensures |s| >= 1 && |s| < 1 + ReadU(W32, s[1..]).1 + ReadU(W32, s[1..]).0 + 1 ==> ParseType(s).None?
  {
    hide ReadU;
  }

  lemma ParseTypeOf(s: seq<U8>, n: nat, ps: seq<U8>, tail: seq<U8>)
    requires |s| == 1 + n + |ps| + |tail| && |tail| > 0 && s[0] == FUNC
    requires ReadU(W32, s[1..]) == (|ps|, n) && s[1 + n..1 + n + |ps|] == ps && s[1 + n + |ps|..] == tail
    ensures ParseType(s) ==
      if tail[0] != 1 then Some((FnType(ps, None), 1 + n + |ps| + 1))
      else if |tail| < 2 then None
      else Some((FnType(ps, Some(tail[1])), 1 + n + |ps| + 2))
  {
    hide ReadU;
    var p := 1 + n + |ps|;
    assert s[p] == s[p..][0];
    if |tail| >= 2 { assert s[p + 1] == s[p..][1]; }
  }

  lemma ShortU(v: seq<U8>, n: nat)
    requires IsU(32, v, n) && n < 2
    ensures if |v| == 1 then v == [n] else v[0] >= 128
  {
    if |v| == 1 {
      assert v == [v[0]];
    }
  }

  /** A function type is read back exactly when its result count is not padded: the loader takes that
      count for a single byte. */
  lemma TypeRoundTrip(t: FnType, u: seq<U8>, v: seq<U8>, s: seq<U8>, rest: seq<U8>)
    requires TypeEncoded(t, u, v, s)
    ensures ParseType(s + rest) == Some((t, |s|)) <==> |v| == 1
  {
    hide IsU, ReadU, ParseType;
    var tail := v + Results(t) + rest;
    ShortU(v, |Results(t)|);
    assert s + rest == [FUNC] + (u + (t.cparams + tail));
    assert |v| > 0 by { NotEmpty(v, |Results(t)|); }
    assert tail[0] == v[0];
    ParseTypeIs(s + rest, u, t.cparams, tail);
  }

  lemma NotEmpty(v: seq<U8>, n: nat)
    requires IsU(32, v, n)
    ensures |v| > 0
  {
  }

  /** The type [] -> [i32], its result count padded to two bytes, is read as [] -> []. */
  lemma PaddedResultCount()
    ensures TypeEncoded(FnType([], Some(0x7f)), [0], [0x81, 0], [FUNC, 0, 0x81, 0, 0x7f])
    ensures ParseType([FUNC, 0, 0x81, 0, 0x7f]) == Some((FnType([], None), 3))
  {
    hide ParseType;
    assert [0x81, 0][1..] == [0 as U8];
    assert Pow2(7) == 128;
    Pow2Widths();
    assert IsU(25, [0], 0);
    ParseTypeIs([FUNC, 0, 0x81, 0, 0x7f], [0], [], [0x81, 0, 0x7f]);
  }

  lemma TypeFirst(t: FnType, p: seq<U8>, rest: seq<U8>)
    requires UnpaddedType(t, p)
    ensures ParseType(p + rest) == Some((t, |p|))
  {
    hide ParseType, TypeEncoded;
    var u, v :| |v| == 1 && TypeEncoded(t, u, v, p);
    TypeRoundTrip(t, u, v, p, rest);
  }

  lemma {:induction false} TypesParsed(ts: seq<FnType>, parts: seq<seq<U8>>, rest: seq<U8>)
    requires TypesEncoded(ts, parts)
    ensures ParseTypes(Flat(parts) + rest, |ts|) == Some((ts, |Flat(parts)|))
    decreases |ts|
  {
    hide ParseType, UnpaddedType;
    if |ts| > 0 {
      var tail := Flat(parts[1..]) + rest;
      assert Flat(parts) + rest == parts[0] + tail;
      TypeFirst(ts[0], parts[0], tail);
      assert (parts[0] + tail)[|parts[0]|..] == tail;
      TypesParsed(ts[1..], parts[1..], rest);
      assert [ts[0]] + ts[1..] == ts;
    }
  }

  lemma AfterOne(a: seq<U8>, b: seq<U8>)
    ensures (a + b)[|a|..] == b
  {
  }

  /** Loading the encoding of a list of function types gives back the list, with no byte left over. */
  lemma TypesRoundTrip(ts: seq<FnType>, parts: seq<seq<U8>>, z: seq<U8>)
    requires TypesEncoded(ts, parts) && IsU(32, z, |ts|)
    ensures LoadTypes(z + Flat(parts)) == Some(ts)
  {
    hide ParseTypes, ReadU, IsU, TypesEncoded, Flat;
    UnsignedRoundTrip(W32, z, |ts|, Flat(parts));
    AfterOne(z, Flat(parts));
    TypesParsed(ts, parts, []);
    assert Flat(parts) + [] == Flat(parts);
  }

  /** Loading the encoding of a list of type indices gives back the list exactly when all are in range. */
  lemma DeclsRoundTrip(vs: seq<U32>, parts: seq<seq<U8>>, z: seq<U8>, ctypes: nat)
    requires UsEncoded(parts, vs) && IsU(32, z, |vs|)
    ensures LoadDecls(z + Flat(parts), ctypes) == if AllBelow(vs, ctypes) then Some(vs) else None
  {
    hide ReadMany, ReadU, IsU, UsEncoded, Flat, AllBelow;
    UnsignedRoundTrip(W32, z, |vs|, Flat(parts));
    AfterOne(z, Flat(parts));
    ReadManyEncoded(parts, vs, []);
    assert Flat(parts) + [] == Flat(parts);
  }

  lemma LocalFirst(g: LocalEntry, p: seq<U8>, tail: seq<U8>)
    requires LocalEncoded(g, p)
    ensures ParseLocal(p + tail) == Some((g, |p|))
  {
    hide IsU, ReadU;
    var u := p[..|p| - 1];
    assert p == u + [g.ty];
    assert p + tail == u + ([g.ty] + tail);
    UnsignedRoundTrip(W32, u, g.count, [g.ty] + tail);
  }

  lemma {:induction false} LocalsParsed(gs: seq<LocalEntry>, parts: seq<seq<U8>>, rest: seq<U8>)
    requires LocalsEncoded(gs, parts)
    ensures ParseLocals(Flat(parts) + rest, |gs|) == Some((gs, |Flat(parts)|))
    decreases |gs|
  {
    hide ParseLocal, LocalEncoded;
    if |gs| > 0 {
      var tail := Flat(parts[1..]) + rest;
      assert Flat(parts) + rest == parts[0] + tail;
      LocalFirst(gs[0], parts[0], tail);
      AfterOne(parts[0], tail);
      LocalsParsed(gs[1..], parts[1..], rest);
      assert [gs[0]] + gs[1..] == gs;
    }
  }

  lemma CodeParsed(c: Code, u: seq<U8>, parts: seq<seq<U8>>)
    requires LocalsEncoded(c.groups, parts) && IsU(32, u, |c.groups|)
    requires |c.bytes| > 0 && c.bytes[|c.bytes| - 1] == END_OP
    ensures ParseCode(u + (Flat(parts) + c.bytes)) == Some(c)
  {
    hide IsU, ReadU, ParseLocals, Flat, LocalsEncoded;
    UnsignedRoundTrip(W32, u, |c.groups|, Flat(parts) + c.bytes);
    LocalsParsed(c.groups, parts, c.bytes);
    AfterTwo(u, Flat(parts), c.bytes);
  }

  /** One code entry, whatever follows it. */
  lemma CodeFirst(c: Code, p: seq<U8>, tail: seq<U8>)
    requires CodeEncoded(c, p)
    ensures ParseEntry(p + tail) == Some((c, |p|))
  {
    hide IsU, ReadU, ParseCode, Flat, LocalsEncoded;
    var u, parts, z :| LocalsEncoded(c.groups, parts) && IsU(32, u, |c.groups|)
      && IsU(32, z, |u + (Flat(parts) + c.bytes)|) && p == z + (u + (Flat(parts) + c.bytes));
    var inner := u + (Flat(parts) + c.bytes);
    assert p + tail == z + (inner + tail);
    UnsignedRoundTrip(W32, z, |inner|, inner + tail);
    CodeParsed(c, u, parts);
    assert (z + (inner + tail))[|z|..|z| + |inner|] == inner;
  }

  lemma {:induction false} CodesParsed(cs: seq<Code>, parts: seq<seq<U8>>, rest: seq<U8>)
    requires CodesEncoded(cs, parts)
    ensures ParseCodes(Flat(parts) + rest, |cs|) == Some((cs, |Flat(parts)|))
    decreases |cs|
  {
    hide ParseEntry, CodeEncoded;
    if |cs| > 0 {
      var tail := Flat(parts[1..]) + rest;
      assert Flat(parts) + rest == parts[0] + tail;
      CodeFirst(cs[0], parts[0], tail);
      AfterOne(parts[0], tail);
      CodesParsed(cs[1..], parts[1..], rest);
      assert [cs[0]] + cs[1..] == cs;
    }
  }

  /** Loading the encoding of a list of bodies gives back the list: every bytecode vector is its own
      slice of the section, and no byte is left over. */
  lemma CodeRoundTrip(cs: seq<Code>, parts: seq<seq<U8>>, z: seq<U8>)
    requires CodesEncoded(cs, parts) && IsU(32, z, |cs|)
    ensures LoadCode(z + Flat(parts)) == Some(cs)
  {
    hide ParseCodes, ReadU, IsU, CodesEncoded, Flat;
    UnsignedRoundTrip(W32, z, |cs|, Flat(parts));
    AfterOne(z, Flat(parts));
    CodesParsed(cs, parts, []);
    assert Flat(parts) + [] == Flat(parts);
  }
}
