/** What the stack discipline is for: `br d` drops exactly d + 1 saved words, and `return` always finds
    the return address. */
module Transfers {
  import opened Wasm
  import opened X86
  import opened Codegen
  import opened Layout
  import opened ControlSim
  import opened Pieces
  import opened Fragment
  import opened Between
  import opened Points
  import opened OpcodeSteps
  import opened BodySteps
  import opened Depth

  const BR := 0x0c
  const RETURN := 0x0f

  /** The code at pc is that of the opcode with this number. */
  ghost predicate OpcodeIs(plane: seq<Cell>, pc: int, byte: nat) { 0 <= pc < |plane| && plane[pc] == Ins(R(MovR12(byte))) }

  /** From the start of an opcode under k labels: a return goes to the address under the k saved words; a
      branch out of d + 1 blocks drops their words, and arrives under the labels that are left. */
  ghost predicate Transferred(w: World, pl: Place, c: Cpu, c': Cpu, k: nat, byte: nat, d: nat)
    requires PlaceOk(pl)
  {
    && Goes(w.plane, c, c')
    && (byte == RETURN ==> k < |c.rs| && Leaves(c, c', k))
    && (byte == BR ==> d < k < |c.rs| && c'.rs == c.rs[d + 1..] && PointIn(pl, c'.pc) in {Some(Opcode(k - 1 - d)), Some(Target(k - 1 - d))})
  }

  lemma DbgIs(plane: seq<Cell>, p: int, opcode: nat, byte: nat)
    requires At(plane, p, Dbg(opcode)) && OpcodeIs(plane, p, byte)
    ensures opcode == byte
  {
    assert plane[p + 0] == Dbg(opcode)[0];
  }

  lemma BrTransfers(w: World, linked: set<nat>, pl: Place, b: Body, keeps: seq<bool>, tgts: seq<nat>, c: Cpu) returns (c': Cpu, d: nat)
    requires b.Atomic? && b.atom.Br? && Here(w, linked, pl, b, c.pc, keeps, tgts) && |keeps| < |c.rs|
    ensures PlaceOk(pl) && Transferred(w, pl, c, c', |keeps|, BR, d)
  {
    hide At, Asm, PointIn, PlaceOk, Reaches, Muted, Dbg, JumpCode, LeaveCode, Size, AtomSize, CallsOk, Helped, Laid, Inside, BodyOk;
    HereAtomic(w, linked, pl, b, c.pc, keeps, tgts);
    d := b.atom.depth;
    var c1 := c.(pc := c.pc + 7);
    QuietBranch(w.plane, c1, d, keeps[d], tgts[d]);
    c' := Left(c1, keeps[d], c.rs[d], c.rs[d + 1..]).(pc := tgts[d]);
    DbgGoes(w.plane, 0x0c, c, c');
  }

  lemma ReturnTransfers(w: World, linked: set<nat>, pl: Place, b: Body, keeps: seq<bool>, tgts: seq<nat>, c: Cpu) returns (c': Cpu)
    requires b.Atomic? && b.atom.Return? && Here(w, linked, pl, b, c.pc, keeps, tgts) && |keeps| < |c.rs|
    ensures PlaceOk(pl) && Transferred(w, pl, c, c', |keeps|, RETURN, 0)
  {
    hide At, Asm, PointIn, PlaceOk, Goes, Size, AtomSize, CallsOk, Helped, Laid, Inside, BodyOk, LabelsOk;
    HereAtomic(w, linked, pl, b, c.pc, keeps, tgts);
    c' := ReturnGoes(w.plane, c, |keeps|);
  }

  lemma TransferByte(a: Atom)
    ensures AtomByte(a) == BR <==> a.Br?
    ensures AtomByte(a) == RETURN <==> a.Return?
  {
  }

  lemma AtomTransfers(w: World, linked: set<nat>, pl: Place, b: Body, keeps: seq<bool>, tgts: seq<nat>, c: Cpu, byte: nat) returns (c': Cpu, d: nat)
    requires b.Atomic? && Here(w, linked, pl, b, c.pc, keeps, tgts) && |keeps| < |c.rs|
    requires byte in {BR, RETURN} && OpcodeIs(w.plane, c.pc, byte)
    ensures PlaceOk(pl) && Transferred(w, pl, c, c', |keeps|, byte, d)
  {
    hide At, Here, PointIn, PlaceOk, Transferred, Dbg, AtomByte, OpcodeIs, CallsOk, LabelsOk, Helped, Size, AtomSize, GenAtom, BodyOk;
    HereAtomic(w, linked, pl, b, c.pc, keeps, tgts);
    DbgIs(w.plane, c.pc, AtomByte(b.atom), byte);
    TransferByte(b.atom);
    if byte == BR {
      c', d := BrTransfers(w, linked, pl, b, keeps, tgts, c);
    } else {
      c' := ReturnTransfers(w, linked, pl, b, keeps, tgts, c);
      d := 0;
    }
  }

  lemma HeadByte(plane: seq<Cell>, b: Body, p: int, other: int, byte: nat)
    requires Nested(b) && p >= 0 && At(plane, p, Head(b, p, other)) && OpcodeIs(plane, p, byte)
    ensures byte != BR && byte != RETURN
  {
    hide At, Enter, Asm, JzCode, Dbg, OpcodeIs;
    if b.Block? {
      AtSplit(plane, p, Dbg(BLOCK), Enter());
      DbgIs(plane, p, BLOCK, byte);
    } else if b.Loop? {
      AtSplit(plane, p, Dbg(LOOP), Enter());
      DbgIs(plane, p, LOOP, byte);
    } else {
      SplitIf(plane, p, Dbg(IF), Asm(IfTest()), JzCode(other - (p + 13 + |Asm(IfTest())|)), Enter());
      DbgIs(plane, p, IF, byte);
    }
  }

  lemma EndByte(plane: seq<Cell>, p: int, keep: bool, byte: nat)
    requires At(plane, p, Close(keep)) && OpcodeIs(plane, p, byte)
    ensures byte != BR && byte != RETURN
  {
    hide At, Asm, Dbg, OpcodeIs;
    AtSplit(plane, p, Dbg(END), Asm(LeaveBlock(keep)));
    DbgIs(plane, p, END, byte);
  }

  lemma ElseByte(plane: seq<Cell>, p: int, e: nat, byte: nat)
    requires p >= 0 && At(plane, p, ElseCode(p, Some(e))) && OpcodeIs(plane, p, byte)
    ensures byte != BR && byte != RETURN
  {
    hide At, Dbg, OpcodeIs, ElseCode;
    ElseParts(plane, p, e);
    DbgIs(plane, p, ELSE, byte);
  }

  lemma {:induction false} BodyTransfers(w: World, linked: set<nat>, pl: Place, b: Body, p: int, keeps: seq<bool>, tgts: seq<nat>, c: Cpu, k: nat, byte: nat)
      returns (c': Cpu, d: nat)
    requires Here(w, linked, pl, b, p, keeps, tgts) && BodyOk(pl.env, b, |keeps|) && p >= 0
    requires BodyPoint(pl.env, b, p, keeps, c.pc) == Some(Opcode(k)) && k < |c.rs|
    requires byte in {BR, RETURN} && OpcodeIs(w.plane, c.pc, byte)
    ensures PlaceOk(pl) && Transferred(w, pl, c, c', k, byte, d)
    decreases b, 1
  {
    hide Here, PointIn, PlaceOk, Size, AtomSize, HeadSize, EndOf, At, Dbg, GenAtom, InnerPoint, CallReturn, Head, CallsOk, LabelsOk, Helped, AtomByte, AtomOk, OpcodeIs,
         Transferred;
    c', d := c, 0;
    if b.Atomic? {
      HereAtomic(w, linked, pl, b, p, keeps, tgts);
      if c.pc == p {
        c', d := AtomTransfers(w, linked, pl, b, keeps, tgts, c, byte);
      } else {
        c', d := BodyTransfers(w, linked, pl, b.next, p + 7 + AtomSize(pl.env, b.atom, keeps), keeps, tgts, c, k, byte);
      }
    } else {
      HereNested(w, linked, pl, b, p, keeps, tgts);
      if c.pc == p {
        HeadByte(w.plane, b, p, OtherOf(pl.env, b, p, keeps), byte);
      } else if c.pc < EndOf(pl.env, b, p, keeps) {
        c', d := InnerTransfers(w, linked, pl, b, p, keeps, tgts, c, k, byte);
      } else {
        c', d := BodyTransfers(w, linked, pl, b.next, EndOf(pl.env, b, p, keeps), keeps, tgts, c, k, byte);
      }
    }
  }

  lemma InnerTransfers(w: World, linked: set<nat>, pl: Place, b: Body, p: int, keeps: seq<bool>, tgts: seq<nat>, c: Cpu, k: nat, byte: nat)
      returns (c': Cpu, d: nat)
    requires Nested(b) && Here(w, linked, pl, b, p, keeps, tgts) && BodyOk(pl.env, b, |keeps|) && p >= 0
    requires InnerPoint(pl.env, b, p, keeps, c.pc) == Some(Opcode(k)) && k < |c.rs|
    requires byte in {BR, RETURN} && OpcodeIs(w.plane, c.pc, byte)
    ensures PlaceOk(pl) && Transferred(w, pl, c, c', k, byte, d)
    decreases b, 0
  {
    hide Here, PointIn, PlaceOk, Size, HeadSize, EndOf, At, BodyOk, ElseSize, CloseSize, Close, ElseCode, Enter, BodyPoint, Keep, OpcodeIs, Transferred;
    HereArm(w, linked, pl, b, p, keeps, tgts);
    if b.IfElse? { HereElse(w, linked, pl, b, p, keeps, tgts); }
    var l, ks := LabelOf(pl.env, b, p, keeps), [Keep(b.bt)] + keeps;
    var u := p + HeadSize(b) + Size(pl.env, b.body, ks);
    c', d := c, 0;
    if c.pc < u {
      c', d := BodyTransfers(w, linked, pl, b.body, p + HeadSize(b), ks, [l] + tgts, c, k, byte);
    } else if !b.IfElse? {
      EndByte(w.plane, c.pc, Keep(b.bt), byte);
    } else if c.pc == u {
      ElseByte(w.plane, u, EndOf(pl.env, b, p, keeps), byte);
    } else {
      var v := u + ElseSize() + |Enter()|;
      if c.pc < v + Size(pl.env, b.els, ks) {
        c', d := BodyTransfers(w, linked, pl, b.els, v, ks, [l] + tgts, c, k, byte);
      } else {
        EndByte(w.plane, c.pc, Keep(b.bt), byte);
      }
    }
  }

  /** At a `br` or a `return` of a linked function, wherever `DepthOk` says that right under k saved words
      is the return address: a return goes there, and a branch to depth d leaves k - 1 - d words above it. */
  lemma TransferExact(w: World, linked: set<nat>, g: nat, c: Cpu, k: nat, byte: nat) returns (c': Cpu, d: nat)
    requires Planted(w, linked) && g in linked && FnPoint(w, linked, g, c.pc) == Some(Opcode(k)) && k < |c.rs|
    requires byte in {BR, RETURN} && OpcodeIs(w.plane, c.pc, byte)
    ensures Goes(w.plane, c, c')
    ensures byte == RETURN ==> c'.pc == c.rs[k] && c'.rs == c.rs[k + 1..]
    ensures byte == BR ==> d < k && c'.rs == c.rs[d + 1..] && FnPoint(w, linked, g, c'.pc) in {Some(Opcode(k - 1 - d)), Some(Target(k - 1 - d))}
  {
    hide Planted, At, BodyOk, GenFn, Laid, Inside, LabelsOk, CallsOk, Helped, BodyPoint, Size, CloseSize, Close, Cells, Prologue, FnEnd, OpcodeIs, Goes;
    var pl := PlantedPlace(w, linked, g);
    LaidFn(w.plane, pl.env, pl.cparams, pl.body, pl.a);
    WholeInside(pl);
    c', d := c, 0;
    if c.pc < CloseAt(pl) {
      c', d := BodyTransfers(w, linked, pl, pl.body, BodyAt(pl), [true], [RetAt(pl)], c, k, byte);
    } else {
      AtSplit(w.plane, CloseAt(pl), Close(true), Cells(J(Ret)));
      EndByte(w.plane, CloseAt(pl), true, byte);
    }
  }
}
