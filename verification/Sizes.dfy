/** A bound on the size of a function's code that can be read off its body. */
module Sizes {
  import opened Wasm
  import opened X86
  import opened Codegen
  import opened Layout

  lemma LenBound(i: Instr)
    ensures Len(i) <= 25
  {
  }

  lemma {:induction false} AsmBound(code: seq<Instr>, k: nat)
    requires k <= |code|
    ensures Off(code, k) <= 25 * k
    decreases k
  {
    hide Len;
    if k > 0 {
      LenBound(code[k - 1]);
      AsmBound(code, k - 1);
    }
  }

  lemma CodeBound(code: seq<Instr>)
    ensures |Asm(code)| <= 25 * |code|
  {
    AsmBound(code, |code|);
  }

  lemma OpBound(op: Op)
    ensures |OpCode(op)| <= 8
  {
  }

  lemma {:induction false} LeaveCount(d: nat, keep: bool)
    ensures |LeaveCode(d, keep)| <= 3 * (d + 1)
    decreases d
  {
    if d > 0 { LeaveCount(d - 1, keep); }
  }

  lemma {:induction false} SetArgsCount(n: nat)
    ensures |SetArgs(n)| == 3 * n
  {
    if n > 0 { SetArgsCount(n - 1); }
  }

  /** At least the number of bytes of an instruction's code. */
  function AtomWeight(env: Env, a: Atom): nat {
    match a
    case Plain(_) => 200
    case Br(d) => 75 * (d + 1) + 5
    case BrIf(d) => 75 * (d + 1) + 86
    case BrTable(ts, _) => 37 + 16 * |ts|
    case Return => 26
    case Call(f) => if f < |env.sigs| then 75 * env.sigs[f].cparams + 231 else 0
  }

  function Weight(env: Env, b: Body): nat {
    match b
    case Done => 0
    case Atomic(a, next) => 7 + AtomWeight(env, a) + Weight(env, next)
    case IfElse(_, body, els, next) => 500 + Weight(env, body) + Weight(env, els) + Weight(env, next)
    case _ => 500 + Weight(env, b.body) + Weight(env, b.next)
  }

  lemma CallBound(env: Env, f: nat)
    requires f < |env.sigs|
    ensures |Asm(CallSetup(env, f))| + 6 + |Asm(CallCleanup(env, f))| <= 75 * env.sigs[f].cparams + 231
  {
    hide Asm, SetArgs, Off;
    SetArgsCount(env.sigs[f].cparams);
    CodeBound(CallSetup(env, f));
    CodeBound(CallCleanup(env, f));
    assert |CallSetup(env, f)| <= 5 + 3 * env.sigs[f].cparams && |CallCleanup(env, f)| <= 4;
  }

  lemma AtomBound(env: Env, a: Atom, keeps: seq<bool>)
    requires AtomOk(env, a, |keeps|)
    ensures AtomSize(env, a, keeps) <= AtomWeight(env, a)
  {
    hide Asm, OpCode, LeaveCode, CallSetup, CallCleanup, Off;
    match a
    case Plain(op) => OpBound(op); CodeBound(OpCode(op));
    case Br(d) => LeaveCount(d, keeps[d]); CodeBound(LeaveCode(d, keeps[d]));
    case BrIf(d) => LeaveCount(d, keeps[d]); CodeBound(LeaveCode(d, keeps[d])); CodeBound(BrIfTest());
    case BrTable(ts, _) =>
    case Return => CodeBound([P(AddRsp(|keeps|))]);
    case Call(f) => CallBound(env, f);
  }

  /** Heads, ends and elses. */
  lemma NestedBound(b: Body)
    requires Nested(b)
    ensures HeadSize(b) <= 163 && |Enter()| <= 75 && ElseSize() <= 87 && CloseSize(true) <= 82 && CloseSize(false) <= 82
  {
    hide Asm, Off;
    CodeBound(EnterBlock());
    CodeBound(IfTest());
    CodeBound(LeaveBlock(true));
    CodeBound(LeaveBlock(false));
  }

  lemma {:induction false} SizeBound(env: Env, b: Body, keeps: seq<bool>)
    requires BodyOk(env, b, |keeps|)
    ensures Size(env, b, keeps) <= Weight(env, b)
    decreases b
  {
    hide AtomOk, AtomSize, AtomWeight, HeadSize, CloseSize, ElseSize, Enter;
    if b.Atomic? {
      AtomBound(env, b.atom, keeps);
      SizeBound(env, b.next, keeps);
    } else if !b.Done? {
      var k := [Keep(b.bt)] + keeps;
      NestedBound(b);
      SizeBound(env, b.body, k);
      if b.IfElse? { SizeBound(env, b.els, k); }
      SizeBound(env, b.next, keeps);
      assert CloseSize(Keep(b.bt)) <= 82;
    }
  }

  /** A whole function. */
  lemma FnBound(env: Env, cparams: nat, b: Body, p: nat)
    requires cparams <= env.clocals && BodyOk(env, b, 1)
    ensures |GenFn(env, cparams, b, p)| <= Weight(env, b) + 200
  {
    hide Weight, Size, Gen, BodyOk, Asm, Off;
    SizeBound(env, b, [true]);
    CodeBound(EnterBlock());
    CodeBound(LeaveBlock(true));
  }
}
