/** Registers and memory that hold values of given types: the current frame, and the frames around it. */
module Frames {
  import opened Words
  import opened Wasm
  import opened X86
  import opened OpSim
  import opened ControlSim
  import opened OpcodeSteps
  import opened BodySteps
  import opened Typing
  import opened Shapes

  /** There are operands of the types st on the frame with base b, and locals of the given types: an i32
      is below 2^32 in rax, in its slot and in its local. */
  ghost predicate Represents(c: Cpu, b: int, st: seq<Width>, locals: seq<Width>) {
    exists vs, ls :: Rep(c, b, vs, ls) && HasTypes(vs, st) && HasTypes(ls, locals)
  }

  ghost predicate Held(m: Memory, b: int, st: seq<Width>) {
    forall i :: 0 <= i < |st| ==> Rd(m, b + 1 + i) < Mod(st[i])
  }

  ghost predicate LocalsFit(loc: Memory, rbx: int, locals: seq<Width>) {
    forall i :: 0 <= i < |locals| ==> Rd(loc, rbx + i) < Mod(locals[i])
  }

  ghost predicate Fits(c: Cpu, b: int, st: seq<Width>) {
    && c.rdi == b + |st|
    && (|st| > 0 ==> c.rax < Mod(Last(st)))
    && forall i :: 0 <= i < |st| - 1 ==> Rd(c.mem, b + 1 + i) < Mod(st[i])
  }

  lemma RepFits(c: Cpu, b: int, vs: seq<Value>, ls: seq<Value>, st: seq<Width>, locals: seq<Width>)
    requires Rep(c, b, vs, ls) && HasTypes(vs, st) && HasTypes(ls, locals)
    ensures Fits(c, b, st) && LocalsFit(c.loc, c.rbx, locals)
  {
    forall i | 0 <= i < |locals| ensures Rd(c.loc, c.rbx + i) < Mod(locals[i]) {
      assert Rd(c.loc, c.rbx + i) == ls[i].n;
    }
    forall i | 0 <= i < |st| - 1 ensures Rd(c.mem, b + 1 + i) < Mod(st[i]) {
      assert Rd(c.mem, b + 1 + i) == vs[i].n;
    }
  }

  lemma FitsRep(c: Cpu, b: int, st: seq<Width>, locals: seq<Width>) returns (vs: seq<Value>, ls: seq<Value>)
    requires Fits(c, b, st) && LocalsFit(c.loc, c.rbx, locals)
    ensures Rep(c, b, vs, ls) && HasTypes(vs, st) && HasTypes(ls, locals)
  {
    vs := seq(|st|, i requires 0 <= i < |st| => Val(st[i], if i == |st| - 1 then c.rax else Rd(c.mem, b + 1 + i)));
    ls := seq(|locals|, i requires 0 <= i < |locals| => Val(locals[i], Rd(c.loc, c.rbx + i)));
  }

  lemma RepresentsFits(c: Cpu, b: int, st: seq<Width>, locals: seq<Width>)
    ensures Represents(c, b, st, locals) <==> Fits(c, b, st) && LocalsFit(c.loc, c.rbx, locals)
  {
    hide Rep, Fits, LocalsFit, HasTypes;
    if Fits(c, b, st) && LocalsFit(c.loc, c.rbx, locals) {
      var vs, ls := FitsRep(c, b, st, locals);
    }
    if Represents(c, b, st, locals) {
      var vs, ls :| Rep(c, b, vs, ls) && HasTypes(vs, st) && HasTypes(ls, locals);
      RepFits(c, b, vs, ls, st, locals);
    }
  }

  // ---------- the frames around the current one ----------

  /** The saved words rs are the bases of the current frame and of those around it; these hold operands
      of the types sts, all of them in memory, each just below the next. */
  ghost predicate Resting(m: Memory, rs: seq<int>, sts: Shape)
    decreases |sts|
  {
    |sts| == 0 || (|rs| >= 2 && rs[0] == rs[1] + |sts[0]| + 1 && Held(m, rs[1], sts[0]) && Resting(m, rs[1..], sts[1..]))
  }

  lemma {:induction false} RestingSame(m: Memory, m': Memory, rs: seq<int>, sts: Shape)
    requires |rs| > 0 && Resting(m, rs, sts) && forall a :: a < rs[0] ==> Rd(m', a) == Rd(m, a)
    ensures Resting(m', rs, sts)
    decreases |sts|
  {
    hide Rd;
    if |sts| > 0 {
      forall i | 0 <= i < |sts[0]| ensures Rd(m', rs[1] + 1 + i) < Mod(sts[0][i]) {
        assert Rd(m', rs[1] + 1 + i) == Rd(m, rs[1] + 1 + i);
      }
      RestingSame(m, m', rs[1..], sts[1..]);
    }
  }

  /** The frame around d others. */
  lemma {:induction false} RestingAt(m: Memory, rs: seq<int>, sts: Shape, d: nat)
    requires Resting(m, rs, sts) && d < |sts|
    ensures |rs| > d + 1 && rs[d] == rs[d + 1] + |sts[d]| + 1 && Held(m, rs[d + 1], sts[d]) && Resting(m, rs[d + 1..], sts[d + 1..])
    decreases d
  {
    hide Held;
    if d > 0 {
      RestingAt(m, rs[1..], sts[1..], d - 1);
      assert rs[1..][d - 1] == rs[d] && rs[1..][d] == rs[d + 1] && sts[1..][d - 1] == sts[d];
      assert rs[1..][d..] == rs[d + 1..] && sts[1..][d..] == sts[d + 1..];
    }
  }

  /** Bases grow upwards. */
  lemma {:induction false} RestingBottom(m: Memory, rs: seq<int>, sts: Shape)
    requires |rs| > 0 && Resting(m, rs, sts)
    ensures |rs| > |sts| && rs[|sts|] <= rs[0]
    decreases |sts|
  {
    hide Held;
    if |sts| > 0 { RestingBottom(m, rs[1..], sts[1..]); }
  }

  /** The state of a function inside |sh| blocks, itself counted as one. */
  ghost predicate InFrame(c: Cpu, locals: seq<Width>, sh: Shape) {
    && 0 < |sh| <= |c.rs| && Fits(c, c.rs[0], sh[0]) && LocalsFit(c.loc, c.rbx, locals)
    && Resting(c.mem, c.rs, sh[1..])
  }

  lemma InFrameIs(c: Cpu, locals: seq<Width>, st: seq<Width>, outer: Shape)
    requires |c.rs| > |outer|
    ensures InFrame(c, locals, [st] + outer) <==>
      Fits(c, c.rs[0], st) && LocalsFit(c.loc, c.rbx, locals) && Resting(c.mem, c.rs, outer)
  {
    hide Fits, LocalsFit, Resting;
    assert ([st] + outer)[1..] == outer;
  }

  lemma InFramePc(c: Cpu, c': Cpu, locals: seq<Width>, sh: Shape)
    requires InFrame(c, locals, sh) && c' == c.(pc := c'.pc)
    ensures InFrame(c', locals, sh)
  {
    hide Resting;
  }

  // ---------- what control code does to them ----------

  lemma EnteredFits(c: Cpu, c': Cpu, st: seq<Width>, b: int)
    requires Fits(c, b, st) && c' == Entered(c).(pc := c'.pc)
    ensures Held(c'.mem, b, st) && Fits(c', b + |st| + 1, []) && c'.rs == [b + |st| + 1] + c.rs && Below(c, c', b)
  {
  }

  lemma EnteredFrame(c: Cpu, c': Cpu, locals: seq<Width>, st: seq<Width>, outer: Shape)
    requires InFrame(c, locals, [st] + outer) && c' == Entered(c).(pc := c'.pc)
    ensures InFrame(c', locals, [[]] + ([st] + outer)) && Below(c, c', c.rs[0])
  {
    hide Held, LocalsFit, Fits, Rd;
    InFrameIs(c, locals, st, outer);
    EnteredFits(c, c', st, c.rs[0]);
    RestingSame(c.mem, c'.mem, c.rs, outer);
    RestingCons(c'.mem, c'.rs, c.rs, st, outer);
    InFrameIs(c', locals, [], [st] + outer);
  }

  lemma RestingCons(m: Memory, rs': seq<int>, rs: seq<int>, st: seq<Width>, outer: Shape)
    requires |rs| > 0 && rs' == [rs[0] + |st| + 1] + rs && Held(m, rs[0], st) && Resting(m, rs, outer)
    ensures Resting(m, rs', [st] + outer)
  {
    hide Held;
    assert rs'[1..] == rs && ([st] + outer)[1..] == outer;
  }

  lemma PoppedFrame(c: Cpu, c': Cpu, locals: seq<Width>, st: seq<Width>, outer: Shape)
    requires InFrame(c, locals, [st] + outer) && |st| > 0 && c' == Popped(c).(fl := c'.fl, pc := c'.pc)
    ensures InFrame(c', locals, [Pop(st, 1)] + outer)
  {
    hide Held, LocalsFit, Resting;
    InFrameIs(c, locals, st, outer);
    PoppedFits(c, c', c.rs[0], st);
    InFrameIs(c', locals, Pop(st, 1), outer);
  }

  lemma PoppedFits(c: Cpu, c': Cpu, b: int, st: seq<Width>)
    requires Fits(c, b, st) && |st| > 0 && c' == Popped(c).(fl := c'.fl, pc := c'.pc)
    ensures Fits(c', b, Pop(st, 1))
  {
    if |st| > 1 { assert Rd(c.mem, b + 1 + (|st| - 2)) < Mod(st[|st| - 2]); }
  }

  ghost predicate Yielded(rax: Word, ret: seq<Width>) { |ret| == 1 ==> rax < Mod(ret[0]) }

  /** Leaving d + 1 blocks with the carry flag of the label's arity. */
  lemma LeftFrame(c: Cpu, c': Cpu, keep: bool, d: nat, l: seq<Width>, locals: seq<Width>, st: seq<Width>, outer: Shape)
    requires InFrame(c, locals, [st] + outer) && d < |outer| && EndsWith(st, l) && |l| <= 1 && (keep <==> |l| == 1)
    requires d < |c.rs| && c' == Left(c, keep, c.rs[d], c.rs[d + 1..]).(pc := c'.pc, rcx := c'.rcx, rdx := c'.rdx, fl := c'.fl)
    ensures InFrame(c', locals, [outer[d] + l] + outer[d + 1..])
  {
    hide LocalsFit, Resting, Left, Fits;
    InFrameIs(c, locals, st, outer);
    RestingAt(c.mem, c.rs, outer, d);
    TopFits(c, c.rs[0], st, l);
    LeftFits(c, c', keep, c.rs[d + 1], outer[d], l, c.rs[d + 1..]);
    RestingBottom(c.mem, c.rs[d + 1..], outer[d + 1..]);
    InFrameIs(c', locals, outer[d] + l, outer[d + 1..]);
  }

  lemma TopFits(c: Cpu, b: int, st: seq<Width>, l: seq<Width>)
    requires Fits(c, b, st) && EndsWith(st, l) && |l| <= 1
    ensures Yielded(c.rax, l)
  {
    if |l| == 1 { assert Top(st, 1)[0] == l[0]; }
  }

  lemma LeftFits(c: Cpu, c': Cpu, keep: bool, b: int, us: seq<Width>, l: seq<Width>, rs: seq<int>)
    requires Held(c.mem, b, us) && Yielded(c.rax, l) && |l| <= 1 && (keep <==> |l| == 1)
    requires c' == Left(c, keep, b + |us| + 1, rs).(pc := c'.pc, rcx := c'.rcx, rdx := c'.rdx, fl := c'.fl)
    ensures Fits(c', b, us + l) && c'.rs == rs && c'.mem == c.mem && c'.loc == c.loc && c'.rbx == c.rbx
  {
    if |us| > 0 { assert Rd(c.mem, b + 1 + (|us| - 1)) < Mod(us[|us| - 1]); }
    if |l| == 0 { assert us + l == us; }
  }
}
