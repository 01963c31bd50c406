/** Running an emitted branch table through the BranchTable routine. */
module TableSim {
  import opened Words
  import opened Wasm
  import opened X86
  import opened OpSim
  import opened Layout
  import opened ControlSim

  function Somes(ts: seq<nat>): (r: seq<Option<nat>>)
    ensures |r| == |ts|
  {
    seq(|ts|, i requires 0 <= i < |ts| => Some(ts[i]))
  }

  lemma {:induction false} EntryAt(ts: seq<nat>, at: seq<Option<nat>>, i: nat)
    requires DepthsOk(ts, |at|) && i < |ts| && at[ts[i]].Some?
    ensures Entries(ts, at)[16 * i] == Qword(ts[i])
    ensures Entries(ts, at)[16 * i + 8] == Ptr(at[ts[i]].value)
    decreases |ts|
  {
    if i > 0 {
      EntryAt(ts[1..], at, i - 1);
      assert Entries(ts, at)[16 * i] == Entries(ts[1..], at)[16 * (i - 1)];
      assert Entries(ts, at)[16 * i + 8] == Entries(ts[1..], at)[16 * (i - 1) + 8];
    }
  }

  /** The table entry an index selects; index 0 is the default's. */
  function Selected(ts: seq<U32>, d: U32, x: nat): U32 { if x < |ts| then ts[x] else d }

  /** Where the pieces of the emitted table are. */
  ghost predicate TableAt(plane: seq<Cell>, t: nat, flag: bool, ts: seq<U32>, d: U32, tgts: seq<nat>)
    requires d < |tgts| && DepthsOk(ts, |tgts|)
  {
    && t + 24 + 16 * |ts| <= |plane|
    && plane[t] == Dword(|ts|) && plane[t + 4] == Dword(if flag then 1 else 0)
    && plane[t + 8] == Qword(d) && plane[t + 16] == Ptr(tgts[d])
    && forall i :: 0 <= i < |ts| ==> plane[t + 24 + 16 * i] == Qword(ts[i]) && plane[t + 32 + 16 * i] == Ptr(tgts[ts[i]])
  }

  lemma HeadCells(env: Env, p: nat, count: nat, flag: bool)
    ensures var h := TableHead(env, p, count, flag);
      && h[0] == Ins(J(LeaRcxRip(6))) && h[7] == Ins(J(JmpHelper(BranchTableSlot(env) - (p + 13))))
      && h[13] == Dword(count) && h[17] == Dword(if flag then 1 else 0)
  {
  }

  lemma EntriesInPlane(plane: seq<Cell>, q: nat, ts: seq<U32>, tgts: seq<nat>, i: nat)
    requires DepthsOk(ts, |tgts|) && At(plane, q, Entries(ts, Somes(tgts))) && i < |ts|
    ensures q + 16 * |ts| <= |plane|
    ensures plane[q + 16 * i] == Qword(ts[i]) && plane[q + 8 + 16 * i] == Ptr(tgts[ts[i]])
  {
    var r := Entries(ts, Somes(tgts));
    EntryAt(ts, Somes(tgts), i);
    assert plane[q + 16 * i] == r[16 * i] && plane[q + (16 * i + 8)] == r[16 * i + 8];
  }

  lemma TableInPlane(plane: seq<Cell>, env: Env, p: nat, flag: bool, ts: seq<U32>, d: U32, tgts: seq<nat>)
    requires d < |tgts| && DepthsOk(ts, |tgts|)
    requires At(plane, p, TableHead(env, p, |ts|, flag) + Entry(d, Some(tgts[d])) + Entries(ts, Somes(tgts)))
    ensures TableAt(plane, p + 13, flag, ts, d, tgts)
    ensures plane[p] == Ins(J(LeaRcxRip(6)))
    ensures plane[p + 7] == Ins(J(JmpHelper(BranchTableSlot(env) - (p + 13))))
  {
    hide TableHead, Entries;
    var h, e, r := TableHead(env, p, |ts|, flag), Entry(d, Some(tgts[d])), Entries(ts, Somes(tgts));
    AtSplit3(plane, p, h, e, r);
    HeadCells(env, p, |ts|, flag);
    assert plane[p + 0] == h[0] && plane[p + 7] == h[7] && plane[p + 13] == h[13] && plane[p + 17] == h[17];
    assert plane[p + 21 + 0] == e[0] && plane[p + 21 + 8] == e[8];
    forall i | 0 <= i < |ts|
      ensures plane[p + 13 + 24 + 16 * i] == Qword(ts[i]) && plane[p + 13 + 32 + 16 * i] == Ptr(tgts[ts[i]])
    {
      EntriesInPlane(plane, p + 37, ts, tgts, i);
    }
  }

  /** The routine leaves as many blocks as the selected entry says and jumps to its address. */
  lemma BranchTableDoes(plane: seq<Cell>, c: Cpu, t: nat, flag: bool, ts: seq<U32>, d: U32, tgts: seq<nat>) returns (c': Cpu)
    requires d < |tgts| && DepthsOk(ts, |tgts|) && TableAt(plane, t, flag, ts, d, tgts)
    requires |plane| < T32 && c.rcx == t && |tgts| < |c.rs|
    ensures BranchTableProc(plane, c) == Go(c')
    ensures var k := Selected(ts, d, Lo(W32, c.rax));
      c' == c.(pc := tgts[k], rs := c.rs[k + 1..], rdx := c'.rdx, fl := Undefined,
               rdi := if flag then c.rs[k] else c.rs[k] - 1,
               rax := Rd(c.mem, if flag then c.rdi - 1 else c.rs[k] - 1))
  {
    var x := Lo(W32, c.rax);
    var k := Selected(ts, d, x);
    var off := if x < |ts| then 16 * (x + 1) else 0;
    if x < |ts| {
      assert plane[t + 24 + 16 * x] == Qword(ts[x]) && plane[t + 32 + 16 * x] == Ptr(tgts[ts[x]]);
      assert Lo(W32, off) == off;
    }
    assert plane[t + 8 + off] == Qword(k) && plane[t + 16 + off] == Ptr(tgts[k]);
    assert k < |tgts|;
    c' := BranchTableProc(plane, c).c;
  }

  lemma RunTable(plane: seq<Cell>, env: Env, c: Cpu, ts: seq<U32>, d: U32, flag: bool, tgts: seq<nat>) returns (c': Cpu)
    requires d < |tgts| < |c.rs| && DepthsOk(ts, |tgts|) && |plane| < T32 && c.pc >= 0
    requires BranchTableSlot(env) < |plane| && plane[BranchTableSlot(env)] == Extern(BranchTable)
    requires At(plane, c.pc, TableHead(env, c.pc, |ts|, flag) + Entry(d, Some(tgts[d])) + Entries(ts, Somes(tgts)))
    ensures Reaches(plane, c, c')
    ensures var k := Selected(ts, d, Lo(W32, c.rax));
      && k < |tgts|
      && c' == c.(pc := tgts[k], rs := c.rs[k + 1..], rcx := c'.rcx, rdx := c'.rdx, fl := Undefined,
                  rdi := if flag then c.rs[k] else c.rs[k] - 1,
                  rax := Rd(c.mem, if flag then c.rdi - 1 else c.rs[k] - 1))
  {
    hide At, Reaches, TableHead, Entry, Entries, BranchTableProc, BranchTableSlot;
    TableInPlane(plane, env, c.pc, flag, ts, d, tgts);
    var c1 := c.(pc := c.pc + 7, rcx := c.pc + 13);
    assert Step(plane, c) == Go(c1);
    ReachesStep(plane, c, c1);
    c' := BranchTableDoes(plane, c1, c.pc + 13, flag, ts, d, tgts);
    assert Step(plane, c1) == Go(c');
    ReachesStep(plane, c1, c');
    ReachesTrans(plane, c, c1, c');
  }

  lemma TableLanded(c: Cpu, c': Cpu, b: int, results: seq<Value>, ls: seq<Value>, k: nat, flag: bool, tgts: seq<nat>, ar: seq<nat>)
    requires k < |tgts| == |ar| < |c.rs| && |results| == ar[k] <= 1 && FlagOk(flag, k, ar) && Locals(c, ls)
    requires |results| == 1 ==> Rd(c.mem, c.rdi - 1) == results[0].n
    requires c' == c.(pc := tgts[k], rs := c.rs[k + 1..], rcx := c'.rcx, rdx := c'.rdx, fl := Undefined,
                      rdi := if flag then c.rs[k] else c.rs[k] - 1,
                      rax := Rd(c.mem, if flag then c.rdi - 1 else c.rs[k] - 1))
    ensures Landed(c, c', b, k, results, ls, tgts)
  {
  }

  /** The operand a branch of arity n carries from below the table's index. */
  lemma Carried(c: Cpu, b: int, vs: seq<Value>, n: nat)
    requires Operands(c, b, vs) && |vs| > 0 && n <= 1 && n <= |vs| - 1
    ensures var results := Top(Pop(vs, 1), n);
      |results| == n && (n == 1 ==> Rd(c.mem, c.rdi - 1) == results[0].n)
  {
    TopThree(c, b, vs);
    if n == 1 { assert Top(Pop(vs, 1), 1)[0] == vs[|vs| - 2]; }
  }

  /** A branch table does what a branch to the selected depth would. */
  lemma SimBrTable(plane: seq<Cell>, env: Env, c: Cpu, end: int, b: int, vs: seq<Value>, ls: seq<Value>, ts: seq<U32>, d: U32,
                   flag: bool, tgts: seq<nat>, ar: seq<nat>)
    requires Rep(c, b, vs, ls) && |vs| > 0 && Last(vs).w == W32
    requires d < |tgts| == |ar| < |c.rs| && DepthsOk(ts, |tgts|) && |plane| < T32
    requires var k := Selected(ts, d, Last(vs).n);
      k < |ar| && ar[k] <= 1 && ar[k] <= |vs| - 1 && FlagOk(flag, k, ar)
    requires c.pc >= 0
    requires BranchTableSlot(env) < |plane| && plane[BranchTableSlot(env)] == Extern(BranchTable)
    requires At(plane, c.pc, TableHead(env, c.pc, |ts|, flag) + Entry(d, Some(tgts[d])) + Entries(ts, Somes(tgts)))
    ensures var k := Selected(ts, d, Last(vs).n);
      Ends(plane, c, end, b, tgts, Branch(k, Top(Pop(vs, 1), ar[k]), ls))
  {
    hide At, Reaches, TableHead, Entry, Entries, BranchTableSlot, Operands, Locals, Landed, FlagOk, Top;
    var k := Selected(ts, d, Last(vs).n);
    RaxIsTop(c, b, vs, ls);
    assert Lo(W32, c.rax) == Last(vs).n;
    var c2 := RunTable(plane, env, c, ts, d, flag, tgts);
    Carried(c, b, vs, ar[k]);
    TableLanded(c, c2, b, Top(Pop(vs, 1), ar[k]), ls, k, flag, tgts, ar);
  }
}
