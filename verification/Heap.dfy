/** Linear memory size: growing it, and carrying it from one call from outside to the next. */
module Heap {
  import opened Words

  const PAGE: nat := 0x1_0000
  const FAILED: U32 := 0xFFFF_FFFF

  /** resizable_limits; the page count is updated in place. */
  datatype Limits = Limits(initial: U32, max: LimitsMax)
  datatype LimitsMax = NoMax | Max(pages: U32)

  function CbMax(m: LimitsMax): nat { if m.Max? then m.pages * PAGE else T32 }

  /** A size the rest of the runtime can hold: whole pages, within the maximum, below 2^32. */
  predicate Fits(m: LimitsMax, cb: nat) { cb % PAGE == 0 && cb <= CbMax(m) && cb < T32 }

  datatype Grown = Pages(r: U32) | Throws

  /** What growing by cpages answers, and the size afterwards. */
  function Grow(m: LimitsMax, cb: nat, cpages: U32): (r: (Grown, nat)) {
    if cb + cpages * PAGE > CbMax(m) then (Pages(FAILED), cb)
    else if cb + cpages * PAGE >= T32 then (Throws, cb)
    else (Pages(cb / PAGE), cb + cpages * PAGE)
  }

  /** memory.grow (section 4.4.4): it succeeds with the old page count exactly when the new size is
      allowed, and fails with -1 exactly when it is over the maximum; in between, a size of exactly
      2^32 bytes or more under a larger maximum, the call throws. */
  lemma GrowMeets(m: LimitsMax, cb: nat, cpages: U32)
    requires Fits(m, cb)
    ensures var (g, cb') := Grow(m, cb, cpages);
      && Fits(m, cb') && cb <= cb'
      && (Fits(m, cb + cpages * PAGE) <==> g == Pages(cb / PAGE))
      && (Fits(m, cb + cpages * PAGE) ==> cb' == cb + cpages * PAGE)
      && (!Fits(m, cb + cpages * PAGE) ==> cb' == cb)
      && (g == Pages(FAILED) <==> cb + cpages * PAGE > CbMax(m))
  {
    PagesAdd(cb, cpages);
  }

  lemma PagesAdd(cb: nat, n: nat)
    requires cb % PAGE == 0
    ensures (cb + n * PAGE) % PAGE == 0
  {
  }

  /** The control block of one call from outside, and the limits it starts from and ends in. */
  class Memory {
    var limits: Limits
    var cbHeap: nat

    constructor (limits: Limits)
      ensures this.limits == limits && cbHeap == 0
    {
      this.limits := limits;
      cbHeap := 0;
    }

    ghost function Now(): State
      reads this
    {
      State(limits, cbHeap)
    }

    /** Start of a call: the product is taken in 32 bits. */
    method Enter()
      modifies this`cbHeap
      ensures cbHeap < T32 && (limits.initial * PAGE - cbHeap) % T32 == 0
      ensures limits.initial < 0x1_0000 ==> cbHeap == limits.initial * PAGE
      ensures limits.initial == 0x1_0000 ==> cbHeap == 0
    {
      cbHeap := (limits.initial * PAGE) % T32;
    }

    method GrowMemory(cpages: U32) returns (g: Grown)
      requires Fits(limits.max, cbHeap)
      modifies this`cbHeap
      ensures (g, cbHeap) == Grow(limits.max, old(cbHeap), cpages)
      ensures Now() == After(old(Now()), Grows(cpages)) && Fits(limits.max, cbHeap)
    {
      GrowMeets(limits.max, cbHeap, cpages);
      var cb, cbMax := cpages * PAGE, T32;
      if limits.max.Max? { cbMax := limits.max.pages * PAGE; }
      if cbHeap + cb > cbMax { return Pages(FAILED); }
      if cbHeap + cb >= T32 { return Throws; }
      var cbRet := cbHeap / PAGE;
      cbHeap := cbHeap + cb;
      return Pages(cbRet);
    }

    /** End of a call: the page count of the current size is written back, except for an empty memory. */
    method Leave()
      requires Fits(limits.max, cbHeap)
      modifies this`limits
      ensures cbHeap > 0 ==> limits.initial * PAGE == cbHeap
      ensures cbHeap == 0 ==> limits.initial == old(limits).initial
      ensures limits.max == old(limits).max
    {
      if cbHeap > 0 { limits := limits.(initial := cbHeap / PAGE); }
    }

    /** The end of one call and the start of the next: a valid size survives. */
    method Reenter()
      requires Fits(limits.max, cbHeap)
      modifies this
      ensures Now() == After(old(Now()), Reenters)
      ensures StateOk(old(Now())) ==> StateOk(Now()) && cbHeap == old(cbHeap)
    {
      Leave();
      Enter();
    }
  }

  /** The 32-bit product is the declared size exactly when that is below 4 GiB; a memory declared with
      the full 65536 pages is entered as empty. */
  lemma EnteredSize(initial: U32)
    ensures (initial * PAGE) % T32 == initial * PAGE <==> initial < 0x1_0000
    ensures initial == 0x1_0000 ==> (initial * PAGE) % T32 == 0
  {
  }

  // ---------- over every sequence of calls ----------

  datatype Event = Grows(cpages: U32) | Reenters

  /** The state between events: limits and current size. */
  datatype State = State(limits: Limits, cb: nat)

  function After(s: State, e: Event): State {
    match e
    case Grows(n) => s.(cb := Grow(s.limits.max, s.cb, n).1)
    case Reenters =>
      var initial := if s.cb > 0 then s.cb / PAGE else s.limits.initial;
      if initial < T32 then State(s.limits.(initial := initial), (initial * PAGE) % T32) else s
  }

  function AfterAll(s: State, es: seq<Event>): State
    decreases |es|
  {
    if |es| == 0 then s else AfterAll(After(s, es[0]), es[1..])
  }

  /** Valid: the size fits, and an empty memory is one that started empty. */
  predicate StateOk(s: State) {
    Fits(s.limits.max, s.cb) && (s.cb == 0 ==> s.limits.initial == 0)
  }

  function Requested(es: seq<Event>): nat {
    if |es| == 0 then 0 else (if es[0].Grows? then es[0].cpages else 0) + Requested(es[1..])
  }

  lemma StepKeeps(s: State, e: Event)
    requires StateOk(s)
    ensures StateOk(After(s, e)) && s.cb <= After(s, e).cb && After(s, e).limits.max == s.limits.max
    ensures e.Reenters? ==> After(s, e).cb == s.cb
  {
    if e.Grows? { GrowMeets(s.limits.max, s.cb, e.cpages); }
  }

  /** Whatever is grown and however often the module is entered again, the size stays a whole number
      of pages within the maximum, never shrinks, and a re-entry does not change it. */
  lemma {:induction false} SizeKept(s: State, es: seq<Event>)
    requires StateOk(s)
    ensures var t := AfterAll(s, es);
      StateOk(t) && s.cb <= t.cb <= s.cb + Requested(es) * PAGE && t.limits.max == s.limits.max
    decreases |es|
  {
    if |es| > 0 {
      StepKeeps(s, es[0]);
      SizeKept(After(s, es[0]), es[1..]);
    }
  }
}
