// The agreed pairs are all there are: on a bus that records its traffic, every
// other pair of the table has a state from which its two forms differ.
module Disagreement {
  import opened Words
  import opened Wrappers
  import opened Registers
  import opened Bus
  import opened Isa
  import opened Operate
  import opened Staged
  import opened Static
  import opened Agreement
  import opened Endings
  import opened Differences

  // ---- The recording bus ---------------------------------------------------

  datatype Event = ReadAt(a: word) | WrittenAt(a: word, v: byte)

  // Every address holds the same byte, whatever is written.
  datatype Trace = Trace(cell: byte, log: seq<Event>, off: bool)

  function Recorded(t: Trace, e: Event): Trace { t.(log := t.log + [e]) }

  function TraceBus(): BusOps<Trace> {
    BusOps((t: Trace, a: word) => t.cell, (t: Trace, a: word) => Recorded(t, ReadAt(a)),
           (t: Trace, a: word, v: byte) => Recorded(t, WrittenAt(a, v)), (t: Trace) => t.off,
           (t: Trace, off: bool) => t.(off := off))
  }

  lemma TraceTellsApart(t: Trace)
    ensures TellsApart(TraceBus(), t)
  {
    forall a: word, b: word | Recorded(t, ReadAt(a)) == Recorded(t, ReadAt(b)) ensures a == b {
      assert Recorded(t, ReadAt(a)).log[|t.log|] == ReadAt(a);
      assert Recorded(t, ReadAt(b)).log[|t.log|] == ReadAt(b);
    }
  }

  // Memory full of ones, clear latches, and registers clear but for the flags.
  function Start(s: Status): Cpu<Trace> {
    Cpu(Core(Regs(0, 0, 0, 0, 0, s), Trace(1, [], false)), Latch(0, 0, 0, CLEAR, false, false))
  }

  function Junk(flags: Status): Unset { Unset(0, flags, 0, 0) }

  ghost predicate Differs(op: Op, m: Mode, c: Cpu<Trace>, u: Unset) {
    !Same(Drive(TraceBus(), op, m, 1, c), Run(TraceBus(), op, m, c.k, u))
  }

  // ---- A difference for every pair outside the agreed ones -------------------

  lemma SedDiffers(m: Mode)
    ensures Differs(Inherent(SED), m, Start(CLEAR), Junk(CLEAR))
  {
    assert Step(TraceBus(), Inherent(SED), m, 1, Start(CLEAR)).ended;
  }

  function TakenFlags(op: BranchOp): Status {
    Status(op.BCS?, op.BEQ?, false, false, false, false, op.BVS?, op.BMI?)
  }

  lemma BranchDiffers(op: BranchOp, m: Mode)
    ensures Differs(Branching(op), m, Start(TakenFlags(op)), Junk(CLEAR))
  {
    var c := Start(TakenFlags(op));
    assert Isa.Taken(op, c.k.r.SR);
    assert Fetch(TraceBus(), c.k).v == 1;
    BranchAgreesIff(TraceBus(), op, m, c, Junk(CLEAR));
  }

  // A left-over break flag.
  lemma AdditionDiffers(op: AddOp, m: Mode)
    requires EightModes(m)
    ensures Differs(Adding(op), m, Start(CLEAR), Junk(CLEAR.(B := true)))
  {
    hide Drive, Operand, Address, OnAddend;
    var c, u := Start(CLEAR), Junk(CLEAR.(B := true));
    TraceTellsApart(Address(TraceBus(), m, c.k).k.m);
    StaticAddAgreesIff(TraceBus(), op, m, c, u);
    StagedAddMeetsAddressing(TraceBus(), op, m, c);
    OperandStatus(m, c.k);
    AddendStatus(op, c.k.r.SR.D, Operand(TraceBus(), m, c.k, None).v, Operand(TraceBus(), m, c.k, None).k.r);
  }

  lemma OperandStatus(m: Mode, k: Core<Trace>)
    requires EightModes(m)
    ensures Operand(TraceBus(), m, k, None).k.r.SR == k.r.SR
  {
    if !m.Immediate? { AddressKeeps(TraceBus(), m, k); }
  }

  lemma AddendStatus(op: AddOp, bcd: bool, o: byte, r: Regs)
    ensures OnAddend(op, bcd, o, r).SR.B == r.SR.B
  {
  }

  // The static form writes.
  lemma ShiftDiffers(op: ShiftOp, m: Mode)
    requires RmwMode(m)
    ensures Differs(Shifting(op), m, Start(CLEAR), Junk(CLEAR))
  {
    hide Drive, Address, ShiftOnce;
    var c, bus := Start(CLEAR), TraceBus();
    StagedShiftNeverWrites(bus, op, m, c);
    var e := Address(bus, m, c.k);
    var f := Read(bus, e.k, e.addr);
    var s := ShiftOnce(op, f.v, c.k.r.SR.C);
    assert Run(bus, Shifting(op), m, c.k, Junk(CLEAR)).k.m == Recorded(f.k.m, WrittenAt(e.addr, Lo(s.v)));
    assert |Recorded(f.k.m, WrittenAt(e.addr, Lo(s.v))).log| == |f.k.m.log| + 1;
  }

  lemma NeverEndingDiffers(op: Op, m: Mode)
    requires NeverEnds(op, m)
    ensures Differs(op, m, Start(CLEAR), Junk(CLEAR))
  {
    hide Drive, Run;
    DriveNeverEnds(TraceBus(), op, m, 1, Start(CLEAR));
  }

  lemma LoadDiffers(op: ReadOp, m: Mode)
    requires (op.LDX? && m.Absolute?) || (op.LDY? && (m.ZeroPageX? || m.Absolute? || m.AbsoluteX?))
    ensures Differs(Reading(op), m, Start(CLEAR), Junk(CLEAR))
  {
    hide Drive, RunReading;
    LoadCountsOneMore(TraceBus(), op, m, Start(CLEAR), Junk(CLEAR));
  }

  // The static form reads address 0.
  lemma LogicDiffers(op: ReadOp, m: Mode)
    requires IsLogic(op) && AbsIndexed(m)
    ensures Differs(Reading(op), m, Start(CLEAR), Junk(CLEAR))
  {
    hide Drive, Gather, OnOperand;
    var c, bus, u := Start(CLEAR), TraceBus(), Junk(CLEAR);
    DriveGathers(bus, op, m, 1, c);
    GatherAny(bus, m, c);
    OnesAddress(m);
    TraceTellsApart(Address(bus, m, c.k).k.m);
    OperandElsewhere(bus, m, c.k, u.addr8);
    LogicOutcomes(op, m, c, u);
  }

  lemma OnesAddress(m: Mode)
    requires AbsIndexed(m)
    ensures Address(TraceBus(), m, Start(CLEAR).k).addr == 0x101
  {
  }

  lemma LogicOutcomes(op: ReadOp, m: Mode, c: Cpu<Trace>, u: Unset)
    requires IsLogic(op)
    ensures RunReading(TraceBus(), op, m, c.k, u).k.m == Operand(TraceBus(), m, c.k, Some(u.addr8)).k.m
    ensures forall d: Cpu<Trace> :: Consume(op, d).k.m == d.k.m
  {
    hide Operand, OnOperand;
  }

  // CMP ends in its first call on page zero, and reads through the wrong latch in
  // absolute mode.
  lemma CompareDiffers(m: Mode)
    requires m.ZeroPage? || m.ZeroPageX? || IndirectMode(m)
    ensures Differs(Reading(CMP), m, Start(CLEAR), Junk(CLEAR))
  {
    hide OnOperand, Operand, Drive;
    var c, bus := Start(CLEAR), TraceBus();
    assert ReadPlan(CMP, m, 1) == ZpFetch(true);
    Finishes(bus, Reading(CMP), m, 1, c, StepReading(bus, CMP, m, 1, c).c);
    OperandTakesTwo(bus, m, c.k, None);
  }

  lemma OperandTakesTwo<M>(bus: BusOps<M>, m: Mode, k: Core<M>, unset: Option<byte>)
    requires !m.Immediate?
    ensures Operand(bus, m, k, unset).cycles >= 2
  {
    hide Address;
  }

  lemma ReadGoesTo(op: ReadOp, m: Mode, cycle: nat, a: Cpu<Trace>, b: Cpu<Trace>)
    requires cycle <= 6 && StepReading(TraceBus(), op, m, cycle, a) == Stepped(b, false)
    ensures Drive(TraceBus(), Reading(op), m, cycle, a) == Drive(TraceBus(), Reading(op), m, cycle + 1, b)
  {
    hide StepReading;
    Continues(TraceBus(), Reading(op), m, cycle, a, b);
  }

  lemma ReadEndsIn(op: ReadOp, m: Mode, cycle: nat, a: Cpu<Trace>, b: Cpu<Trace>)
    requires cycle <= 6 && StepReading(TraceBus(), op, m, cycle, a) == Stepped(b, true)
    ensures Drive(TraceBus(), Reading(op), m, cycle, a) == Driven(b, cycle)
  {
    hide StepReading;
    Finishes(TraceBus(), Reading(op), m, cycle, a, b);
  }

  lemma CompareFetches() returns (s1: Cpu<Trace>, s2: Cpu<Trace>)
    ensures StepReading(TraceBus(), CMP, Absolute, 1, Start(CLEAR)) == Stepped(s1, false)
    ensures StepReading(TraceBus(), CMP, Absolute, 2, s1) == Stepped(s2, false)
    ensures s2.k.m.log == [ReadAt(0), ReadAt(1)] && s2.l.addr8 == 0
  {
    hide OnOperand, Drive;
    s1 := StepReading(TraceBus(), CMP, Absolute, 1, Start(CLEAR)).c;
    s2 := StepReading(TraceBus(), CMP, Absolute, 2, s1).c;
  }

  lemma CompareReads(c: Cpu<Trace>) returns (d: Cpu<Trace>)
    ensures StepReading(TraceBus(), CMP, Absolute, 3, c) == Stepped(d, true)
    ensures d.k.m.log == c.k.m.log + [ReadAt(c.l.addr8)]
  {
    hide OnOperand, Drive;
    d := StepReading(TraceBus(), CMP, Absolute, 3, c).c;
  }

  lemma CompareAbsoluteDiffers()
    ensures Differs(Reading(CMP), Absolute, Start(CLEAR), Junk(CLEAR))
  {
    hide StepReading, Drive, Run;
    var s1, s2 := CompareFetches();
    var s3 := CompareReads(s2);
    ReadGoesTo(CMP, Absolute, 1, Start(CLEAR), s1);
    ReadGoesTo(CMP, Absolute, 2, s1, s2);
    ReadEndsIn(CMP, Absolute, 3, s2, s3);
    AbsoluteOperand();
    assert s3.k.m.log[2] == ReadAt(0);
  }

  lemma AbsoluteOperand()
    ensures Run(TraceBus(), Reading(CMP), Absolute, Start(CLEAR).k, Junk(CLEAR)).k.m.log
            == [ReadAt(0), ReadAt(1), ReadAt(0x101)]
  {
  }

  // LDA (zp,X) does not read the pointer's high byte; LDA (zp),Y takes it for a low
  // one.
  lemma LoadIndexedStarts(c: Cpu<Trace>) returns (s1: Cpu<Trace>, s3: Cpu<Trace>)
    ensures StepReading(TraceBus(), LDA, IndexedIndirect, 1, c) == Stepped(s1, false)
    ensures StepReading(TraceBus(), LDA, IndexedIndirect, 2, s1) == Stepped(s1, false)
    ensures StepReading(TraceBus(), LDA, IndexedIndirect, 3, s1) == Stepped(s3, false)
    ensures |s3.k.m.log| == |c.k.m.log| + 1
  {
    hide OnOperand, Drive;
    s1 := StepReading(TraceBus(), LDA, IndexedIndirect, 1, c).c;
    s3 := StepReading(TraceBus(), LDA, IndexedIndirect, 3, s1).c;
  }

  lemma LoadIndexedEnds(c: Cpu<Trace>) returns (s4: Cpu<Trace>, s5: Cpu<Trace>)
    ensures StepReading(TraceBus(), LDA, IndexedIndirect, 4, c) == Stepped(s4, false)
    ensures StepReading(TraceBus(), LDA, IndexedIndirect, 5, s4) == Stepped(s5, true)
    ensures |s5.k.m.log| == |c.k.m.log| + 2
  {
    hide OnOperand, Drive;
    s4 := StepReading(TraceBus(), LDA, IndexedIndirect, 4, c).c;
    s5 := StepReading(TraceBus(), LDA, IndexedIndirect, 5, s4).c;
  }

  lemma LoadIndexedDiffers()
    ensures Differs(Reading(LDA), IndexedIndirect, Start(CLEAR), Junk(CLEAR))
  {
    hide StepReading, Drive, Run;
    var c, m := Start(CLEAR), IndexedIndirect;
    var s1, s3 := LoadIndexedStarts(c);
    var s4, s5 := LoadIndexedEnds(s3);
    ReadGoesTo(LDA, m, 1, c, s1);
    ReadGoesTo(LDA, m, 2, s1, s1);
    ReadGoesTo(LDA, m, 3, s1, s3);
    ReadGoesTo(LDA, m, 4, s3, s4);
    ReadEndsIn(LDA, m, 5, s4, s5);
    IndirectOperand(m);
  }

  lemma IndirectOperand(m: Mode)
    requires IndirectMode(m)
    ensures Run(TraceBus(), Reading(LDA), m, Start(CLEAR).k, Junk(CLEAR)).k.m.log
            == [ReadAt(0), ReadAt(1), ReadAt(2), ReadAt(0x101)]
  {
  }

  lemma LoadIndirectStarts(c: Cpu<Trace>) returns (s1: Cpu<Trace>, s3: Cpu<Trace>)
    ensures StepReading(TraceBus(), LDA, IndirectIndexed, 1, c) == Stepped(s1, false)
    ensures StepReading(TraceBus(), LDA, IndirectIndexed, 2, s1) == Stepped(s1, false)
    ensures StepReading(TraceBus(), LDA, IndirectIndexed, 3, s1) == Stepped(s3, false)
    ensures s3.l.addr16 == c.k.m.cell && s3.l.addr8 == Inc8(c.k.m.cell) && s3.k.r.Y == c.k.r.Y
    ensures s3.k.m == c.k.m.(log := c.k.m.log + [ReadAt(c.k.r.PC)] + [ReadAt(c.k.m.cell)])
  {
    hide OnOperand, Drive;
    s1 := StepReading(TraceBus(), LDA, IndirectIndexed, 1, c).c;
    s3 := StepReading(TraceBus(), LDA, IndirectIndexed, 3, s1).c;
  }

  lemma OrOnes()
    ensures OrLow(1, 1) == 1
  {
    assert (1 as bv8) | 1 == 1;
  }

  lemma LoadIndirectEnds(c: Cpu<Trace>) returns (d: Cpu<Trace>)
    requires c.k.m.cell == 1 && c.l.addr16 == 1 && c.k.r.Y == 0
    ensures StepReading(TraceBus(), LDA, IndirectIndexed, 4, c) == Stepped(d, true)
    ensures d.k.m.log == c.k.m.log + [ReadAt(c.l.addr8)] + [ReadAt(1)]
  {
    hide OrLow, Or8, OnOperand, Drive;
    OrOnes();
    var e := Perform(TraceBus(), PtrOr, c).c;
    assert e.l.addr16 == 1 && Index(true, e.k.r) == 0;
    assert Add16(1, 0) == 1 && SamePage(1, 1);
    hide Add16, SamePage;
    assert Perform(TraceBus(), AbsPlusRead(true), e).ended;
    d := StepReading(TraceBus(), LDA, IndirectIndexed, 4, c).c;
  }

  lemma LoadIndirectDiffers()
    ensures Differs(Reading(LDA), IndirectIndexed, Start(CLEAR), Junk(CLEAR))
  {
    hide StepReading, Drive, Run;
    var c, m := Start(CLEAR), IndirectIndexed;
    var s1, s3 := LoadIndirectStarts(c);
    var s4 := LoadIndirectEnds(s3);
    ReadGoesTo(LDA, m, 1, c, s1);
    ReadGoesTo(LDA, m, 2, s1, s1);
    ReadGoesTo(LDA, m, 3, s1, s3);
    ReadEndsIn(LDA, m, 4, s3, s4);
    IndirectOperand(m);
    assert s4.k.m.log[3] == ReadAt(1);
  }

  // ---- Exactly the agreed pairs --------------------------------------------

  lemma ReadingDiffers(op: ReadOp, m: Mode)
    requires TabledReading(op, m) && !AgreedReading(op, m)
    ensures Differs(Reading(op), m, Start(CLEAR), Junk(CLEAR))
  {
    hide Differs;
    if NeverEnds(Reading(op), m) { NeverEndingDiffers(Reading(op), m); }
    else if IsLogic(op) { LogicDiffers(op, m); }
    else if op.LDX? || op.LDY? { LoadDiffers(op, m); }
    else if op.CMP? { if m.Absolute? { CompareAbsoluteDiffers(); } else { CompareDiffers(m); } }
    else if m.IndexedIndirect? { LoadIndexedDiffers(); }
    else { LoadIndirectDiffers(); }
  }

  lemma SomewhereDiffers(op: Op, m: Mode) returns (c: Cpu<Trace>, u: Unset)
    requires Tabled(op, m) && !Agreed(op, m)
    ensures Differs(op, m, c, u)
  {
    hide Differs;
    c, u := Start(CLEAR), Junk(CLEAR);
    match op
    case Reading(o) => ReadingDiffers(o, m);
    case Adding(o) => AdditionDiffers(o, m); u := Junk(CLEAR.(B := true));
    case Storing(_) => NeverEndingDiffers(op, m);
    case Shifting(o) => ShiftDiffers(o, m);
    case Branching(o) => BranchDiffers(o, m); c := Start(TakenFlags(o));
    case Inherent(_) => SedDiffers(m);
  }

  // For every pair of the table: agreed if and only if the two forms are the same
  // from every state, whatever the latches and unset locals hold. One direction
  // holds on every bus; the other is witnessed on this one.
  lemma AgreedIff(op: Op, m: Mode)
    requires Tabled(op, m)
    ensures Agreed(op, m) <==> forall c: Cpu<Trace>, u: Unset :: !Differs(op, m, c, u)
  {
    hide Agreed;
    if Agreed(op, m) {
      forall c: Cpu<Trace>, u: Unset ensures !Differs(op, m, c, u) {
        StagedAgreesWithStatic(TraceBus(), op, m, c, u);
      }
    } else {
      var c, u := SomewhereDiffers(op, m);
    }
  }
}
