// The static handler of an instruction refines its staged one: driven to its end,
// the staged handler leaves the same registers and the same bus, and takes as many
// calls as the static one adds cycles. The bus is arbitrary, so "the same bus"
// includes the order and addresses of every access.
module Agreement {
  import opened Words
  import opened Wrappers
  import opened Registers
  import opened Bus
  import opened Isa
  import opened Operate
  import opened Staged
  import opened Static

  datatype Driven<M> = Driven(c: Cpu<M>, calls: nat) | Unfinished

  // The inner loop without interruption, from the given call on. No handler that
  // ends needs more than six calls.
  function Drive<M>(bus: BusOps<M>, op: Op, m: Mode, cycle: nat, c: Cpu<M>): Driven<M>
    decreases 7 - cycle, c
  {
    if cycle > 6 then Unfinished
    else
      var s := Step(bus, op, m, cycle, c);
      if s.ended then Driven(s.c, cycle) else Drive(bus, op, m, cycle + 1, s.c)
  }

  // One call that does not end the instruction, and one that does.
  lemma Continues<M>(bus: BusOps<M>, op: Op, m: Mode, cycle: nat, a: Cpu<M>, b: Cpu<M>)
    requires cycle <= 6 && Step(bus, op, m, cycle, a) == Stepped(b, false)
    ensures Drive(bus, op, m, cycle, a) == Drive(bus, op, m, cycle + 1, b)
  {
    hide Step;
  }

  lemma Finishes<M>(bus: BusOps<M>, op: Op, m: Mode, cycle: nat, a: Cpu<M>, b: Cpu<M>)
    requires cycle <= 6 && Step(bus, op, m, cycle, a) == Stepped(b, true)
    ensures Drive(bus, op, m, cycle, a) == Driven(b, cycle)
  {
    hide Step;
  }

  lemma DriveStops<M>(bus: BusOps<M>, op: Op, m: Mode, cycle: nat, c: Cpu<M>)
    requires cycle > 6
    ensures Drive(bus, op, m, cycle, c).Unfinished?
  {
    hide Step;
  }

  // The opcodes for which both forms do the same.
  predicate Agreed(op: Op, m: Mode) {
    match op
    case Reading(o) => AgreedReading(o, m)
    case Adding(_) => false
    case Storing(o) => AgreedStoring(o, m)
    case Bumping(_) => RmwMode(m)
    case Shifting(_) => m.Accumulator?
    case Branching(_) => false
    case Inherent(o) => m.Implied? && !o.SED?
    case Control(o) => AgreedControl(o, m)
    case BRK => m.Implied?
  }

  predicate AgreedReading(op: ReadOp, m: Mode) {
    match op
    case AND => m.Immediate? || DirectMode(m) || IndirectMode(m)
    case ORA => m.Immediate? || DirectMode(m) || IndirectMode(m)
    case EOR => m.Immediate? || DirectMode(m) || IndirectMode(m)
    case LDA => m.Immediate? || DirectMode(m) || m.AbsoluteX? || m.AbsoluteY?
    case CMP => m.Immediate? || m.AbsoluteX? || m.AbsoluteY?
    case CPX => m.Immediate? || m.ZeroPage? || m.Absolute?
    case CPY => m.Immediate? || m.ZeroPage? || m.Absolute?
    case BIT => m.ZeroPage? || m.Absolute?
    case LDX => m.Immediate? || m.ZeroPage?
    case LDY => m.Immediate? || m.ZeroPage?
  }

  predicate AgreedStoring(op: StoreOp, m: Mode) {
    match op
    case STA => DirectMode(m) || m.AbsoluteX? || m.AbsoluteY?
    case STX => m.ZeroPage? || m.ZeroPageY? || m.Absolute?
    case STY => DirectMode(m)
  }

  predicate AgreedControl(op: ControlOp, m: Mode) {
    match op
    case JMP => m.Absolute? || m.Indirect?
    case JSR => m.Absolute?
    case IRQ => false
    case NMI => false
    case _ => m.Implied?
  }

  predicate DirectMode(m: Mode) { m.ZeroPage? || m.ZeroPageX? || m.Absolute? }

  predicate IndirectMode(m: Mode) { m.IndexedIndirect? || m.IndirectIndexed? }

  // What driving and the static call must have in common.
  ghost predicate Same<M>(d: Driven<M>, s: Ran<M>) { d.Driven? && d.c.k == s.k && d.calls == s.cycles }

  // ---- Reading instructions ------------------------------------------------

  // The addressing part of a reading instruction alone.
  function Gather<M>(bus: BusOps<M>, m: Mode, cycle: nat, c: Cpu<M>): Driven<M>
    decreases 7 - cycle, c
  {
    if cycle > 6 then Unfinished
    else
      var d := Perform(bus, AluPlan(m, cycle), c);
      if d.ended then Driven(d.c, cycle) else Gather(bus, m, cycle + 1, d.c)
  }

  // It fetches the operand that the static form computes, leaving `bcd` alone.
  ghost predicate Gathers<M>(bus: BusOps<M>, m: Mode, c: Cpu<M>) {
    var d := Gather(bus, m, 1, c);
    var g := Operand(bus, m, c.k, None);
    d.Driven? && d.c.k == g.k && d.c.l.operand == g.v && d.c.l.bcd == c.l.bcd && d.calls == g.cycles
  }

  lemma GatherImmediate<M>(bus: BusOps<M>, c: Cpu<M>)
    ensures Gathers(bus, Immediate, c)
  {
  }

  lemma GatherZeroPage<M>(bus: BusOps<M>, m: Mode, c: Cpu<M>)
    requires m.ZeroPage? || m.ZeroPageX?
    ensures Gathers(bus, m, c)
  {
    var d1 := Perform(bus, AluPlan(m, 1), c);
    var d2 := Perform(bus, AluPlan(m, 2), d1.c);
    assert Gather(bus, m, 1, c) == Gather(bus, m, 2, d1.c);
    if m.ZeroPageX? {
      assert Gather(bus, m, 2, d1.c) == Gather(bus, m, 3, d2.c);
    }
  }

  // Two program bytes have become addr16.
  lemma GatherWord<M>(bus: BusOps<M>, m: Mode, c: Cpu<M>) returns (d: Cpu<M>)
    requires AbsBased(m)
    ensures Gather(bus, m, 1, c) == Gather(bus, m, 3, d)
    ensures d.k == FetchWord(bus, c.k).k && d.l == c.l.(addr16 := FetchWord(bus, c.k).addr)
  {
    var d1 := Perform(bus, AluPlan(m, 1), c);
    d := Perform(bus, AluPlan(m, 2), d1.c).c;
    assert Gather(bus, m, 1, c) == Gather(bus, m, 2, d1.c) == Gather(bus, m, 3, d);
  }

  lemma GatherAbsolute<M>(bus: BusOps<M>, m: Mode, c: Cpu<M>)
    requires AbsBased(m)
    ensures Gathers(bus, m, c)
  {
    var d := GatherWord(bus, m, c);
    var d3 := Perform(bus, AluPlan(m, 3), d);
    if !d3.ended {
      assert Gather(bus, m, 3, d) == Gather(bus, m, 4, d3.c);
    }
  }

  // A page-zero pointer has become addr16.
  lemma GatherIndexedPointer<M>(bus: BusOps<M>, c: Cpu<M>) returns (d: Cpu<M>)
    ensures Gather(bus, IndexedIndirect, 1, c) == Gather(bus, IndexedIndirect, 5, d)
    ensures var f := Fetch(bus, c.k);
            var p := PointerAt(bus, f.k, Add8(f.v, c.k.r.X));
            d.k == p.k && d.l == c.l.(addr16 := p.addr, addr8 := d.l.addr8)
  {
    var m := IndexedIndirect;
    var d1 := Perform(bus, AluPlan(m, 1), c);
    var d2 := Perform(bus, AluPlan(m, 2), d1.c);
    assert Gather(bus, m, 1, c) == Gather(bus, m, 2, d1.c) == Gather(bus, m, 3, d2.c);
    d := GatherPointerBytes(bus, m, 3, d2.c);
  }

  lemma GatherPointerBytes<M>(bus: BusOps<M>, m: Mode, at: nat, c: Cpu<M>) returns (d: Cpu<M>)
    requires (m.IndexedIndirect? && at == 3) || (m.IndirectIndexed? && at == 2)
    ensures Gather(bus, m, at, c) == Gather(bus, m, at + 2, d)
    ensures var p := PointerAt(bus, c.k, c.l.addr8);
            d.k == p.k && d.l == c.l.(addr16 := p.addr, addr8 := d.l.addr8)
  {
    var d1 := Perform(bus, AluPlan(m, at), c);
    d := Perform(bus, AluPlan(m, at + 1), d1.c).c;
    assert Gather(bus, m, at, c) == Gather(bus, m, at + 1, d1.c) == Gather(bus, m, at + 2, d);
  }

  lemma GatherIndexedIndirect<M>(bus: BusOps<M>, c: Cpu<M>)
    ensures Gathers(bus, IndexedIndirect, c)
  {
    var d := GatherIndexedPointer(bus, c);
  }

  lemma GatherIndirectIndexed<M>(bus: BusOps<M>, c: Cpu<M>)
    ensures Gathers(bus, IndirectIndexed, c)
  {
    var m := IndirectIndexed;
    var d1 := Perform(bus, AluPlan(m, 1), c);
    assert Gather(bus, m, 1, c) == Gather(bus, m, 2, d1.c);
    var d := GatherPointerBytes(bus, m, 2, d1.c);
    var d4 := Perform(bus, AluPlan(m, 4), d);
    if !d4.ended {
      assert Gather(bus, m, 4, d) == Gather(bus, m, 5, d4.c);
    }
  }

  lemma GatherAny<M>(bus: BusOps<M>, m: Mode, c: Cpu<M>)
    requires m.Immediate? || DirectMode(m) || AbsBased(m) || IndirectMode(m)
    ensures Gathers(bus, m, c)
  {
    if m.Immediate? { GatherImmediate(bus, c); }
    else if AbsBased(m) { GatherAbsolute(bus, m, c); }
    else if m.IndexedIndirect? { GatherIndexedIndirect(bus, c); }
    else if m.IndirectIndexed? { GatherIndirectIndexed(bus, c); }
    else { GatherZeroPage(bus, m, c); }
  }

  // The calls an instruction in mode `m` can still be making.
  predicate Reached(m: Mode, cycle: nat) {
    1 <= cycle <= 5 && (cycle > 1 ==> !m.Immediate?) && (cycle > 2 ==> !m.ZeroPage?)
    && (cycle > 3 ==> !m.Absolute? && !m.ZeroPageX?) && (cycle > 4 ==> !m.AbsoluteX? && !m.AbsoluteY?)
  }

  // The pairs whose staged handler follows the shared timetable.
  predicate AluTimed(op: ReadOp, m: Mode) {
    match op
    case AND => EightModes(m)
    case ORA => EightModes(m)
    case EOR => EightModes(m)
    case LDX => m.Immediate? || m.ZeroPage? || m.Absolute?
    case LDY => m.Immediate? || DirectMode(m) || m.AbsoluteX?
    case _ => AgreedReading(op, m)
  }

  predicate EightModes(m: Mode) {
    m.Immediate? || DirectMode(m) || m.AbsoluteX? || m.AbsoluteY? || IndirectMode(m)
  }

  lemma PlanShared(op: ReadOp, m: Mode, cycle: nat)
    requires AluTimed(op, m) && Reached(m, cycle)
    ensures ReadPlan(op, m, cycle) == AluPlan(m, cycle) && !SecondIndexing(op, m, cycle)
  {
  }

  lemma GoesOn<M>(bus: BusOps<M>, m: Mode, cycle: nat, c: Cpu<M>)
    requires m.Immediate? || DirectMode(m) || AbsBased(m) || IndirectMode(m)
    requires Reached(m, cycle) && !Perform(bus, AluPlan(m, cycle), c).ended
    ensures Reached(m, cycle + 1)
  {
  }

  lemma {:induction false} DriveGathers<M>(bus: BusOps<M>, op: ReadOp, m: Mode, cycle: nat, c: Cpu<M>)
    requires AluTimed(op, m) && Reached(m, cycle)
    ensures var g := Gather(bus, m, cycle, c);
            Drive(bus, Reading(op), m, cycle, c) == if g.Driven? then Driven(Consume(op, g.c), g.calls) else g
    decreases 7 - cycle
  {
    PlanShared(op, m, cycle);
    var d := Perform(bus, AluPlan(m, cycle), c);
    assert Step(bus, Reading(op), m, cycle, c) == Stepped(if d.ended then Consume(op, d.c) else d.c, d.ended);
    if !d.ended {
      GoesOn(bus, m, cycle, c);
      DriveGathers(bus, op, m, cycle + 1, d.c);
    }
  }

  lemma AgreeReading<M>(bus: BusOps<M>, op: ReadOp, m: Mode, c: Cpu<M>, u: Unset)
    requires AgreedReading(op, m)
    ensures Same(Drive(bus, Reading(op), m, 1, c), RunReading(bus, op, m, c.k, u))
  {
    DriveGathers(bus, op, m, 1, c);
    GatherAny(bus, m, c);
    ConsumeGathered(bus, op, m, c.k, u, Gather(bus, m, 1, c).c);
  }

  lemma ConsumeGathered<M>(bus: BusOps<M>, op: ReadOp, m: Mode, k: Core<M>, u: Unset, c: Cpu<M>)
    requires AgreedReading(op, m)
    requires var g := Operand(bus, m, k, None); c.k == g.k && c.l.operand == g.v
    ensures Consume(op, c).k == RunReading(bus, op, m, k, u).k
    ensures Operand(bus, m, k, None).cycles == RunReading(bus, op, m, k, u).cycles
  {
    hide Operand, OnOperand, OnGot, Consume;
    var g := Operand(bus, m, k, None);
    ConsumeGot(op, c, g);
    AgreedModes(op, m);
    if IsLogic(op) {
      OperandSet(bus, m, k, u.addr8);
    }
  }

  lemma ConsumeGot<M>(op: ReadOp, c: Cpu<M>, g: Got<M>)
    requires c.k == g.k && c.l.operand == g.v
    ensures Consume(op, c).k == OnGot(op, g)
  {
    assert Lo(c.l.operand) == c.l.operand;
  }

  lemma AgreedModes(op: ReadOp, m: Mode)
    requires AgreedReading(op, m)
    ensures !Late(op, m) && (IsLogic(op) ==> !m.AbsoluteX? && !m.AbsoluteY?)
  {
  }

  lemma OperandSet<M>(bus: BusOps<M>, m: Mode, k: Core<M>, unset: byte)
    requires !m.AbsoluteX? && !m.AbsoluteY?
    ensures Operand(bus, m, k, Some(unset)) == Operand(bus, m, k, None)
  {
  }

  // ---- Storing and modifying instructions ----------------------------------

  // One call before the end the address is ready, up to a last move.
  lemma StoreZeroPage<M>(bus: BusOps<M>, op: StoreOp, m: Mode, c: Cpu<M>) returns (d: Cpu<M>)
    requires AgreedStoring(op, m) && !AbsBased(m)
    ensures Drive(bus, Storing(op), m, 1, c) == Drive(bus, Storing(op), m, WriteCycles(m), d)
    ensures d.k == Address(bus, m, c.k).k && d.l.addr8 == Address(bus, m, c.k).addr
  {
    hide Drive, Write;
    d := StepStoring(bus, op, m, 1, c).c;
    Continues(bus, Storing(op), m, 1, c, d);
    if !m.ZeroPage? {
      var d2 := StepStoring(bus, op, m, 2, d).c;
      Continues(bus, Storing(op), m, 2, d, d2);
      d := d2;
    }
  }

  lemma StoreAbsolute<M>(bus: BusOps<M>, op: StoreOp, m: Mode, c: Cpu<M>) returns (d: Cpu<M>)
    requires AgreedStoring(op, m) && AbsBased(m)
    ensures Drive(bus, Storing(op), m, 1, c) == Drive(bus, Storing(op), m, 3, d)
    ensures d == c.(k := FetchWord(bus, c.k).k, l := c.l.(addr16 := FetchWord(bus, c.k).addr))
    ensures d.k.r == c.k.r.(PC := d.k.r.PC)
  {
    hide Drive, Write;
    var d1 := StepStoring(bus, op, m, 1, c).c;
    Continues(bus, Storing(op), m, 1, c, d1);
    d := StepStoring(bus, op, m, 2, d1).c;
    Continues(bus, Storing(op), m, 2, d1, d);
  }

  lemma StoreAddress<M>(bus: BusOps<M>, op: StoreOp, m: Mode, c: Cpu<M>) returns (d: Cpu<M>)
    requires AgreedStoring(op, m)
    ensures Drive(bus, Storing(op), m, 1, c) == Drive(bus, Storing(op), m, WriteCycles(m), d)
    ensures d.k == Address(bus, m, c.k).k
    ensures (if AbsBased(m) then d.l.addr16 else d.l.addr8) == Address(bus, m, c.k).addr
  {
    hide Drive, Write, FetchWord;
    if !AbsBased(m) {
      d := StoreZeroPage(bus, op, m, c);
    } else {
      d := StoreAbsolute(bus, op, m, c);
      if !m.Absolute? {
        var d3 := StepStoring(bus, op, m, 3, d).c;
        Continues(bus, Storing(op), m, 3, d, d3);
        d := d3;
      }
    }
  }

  lemma AddressKeeps<M>(bus: BusOps<M>, m: Mode, k: Core<M>)
    ensures Address(bus, m, k).k.r == k.r.(PC := Address(bus, m, k).k.r.PC)
  {
  }

  lemma AgreeStore<M>(bus: BusOps<M>, op: StoreOp, m: Mode, c: Cpu<M>)
    requires AgreedStoring(op, m)
    ensures Same(Drive(bus, Storing(op), m, 1, c), RunStore(bus, op, m, c.k))
  {
    hide Drive, Address;
    var d := StoreAddress(bus, op, m, c);
    AddressKeeps(bus, m, c.k);
    LastStore(bus, op, m, d);
  }

  lemma LastStore<M>(bus: BusOps<M>, op: StoreOp, m: Mode, d: Cpu<M>)
    requires AgreedStoring(op, m)
    ensures var at := if AbsBased(m) then d.l.addr16 else d.l.addr8;
            var r := Drive(bus, Storing(op), m, WriteCycles(m), d);
            r.Driven? && r.calls == WriteCycles(m) && r.c.k == Write(bus, d.k, at, Stored(op, d.k.r))
  {
    hide Drive;
    Finishes(bus, Storing(op), m, WriteCycles(m), d, StepStoring(bus, op, m, WriteCycles(m), d).c);
  }

  // The address is ready, three calls before the end.
  lemma BumpAddress<M>(bus: BusOps<M>, op: BumpOp, m: Mode, c: Cpu<M>) returns (d: Cpu<M>)
    requires RmwMode(m)
    ensures Drive(bus, Bumping(op), m, 1, c) == Drive(bus, Bumping(op), m, ModifyCycles(m) - 2, d)
    ensures d.k == Address(bus, m, c.k).k
    ensures (if m.ZeroPage? || m.ZeroPageX? then d.l.addr8 else d.l.addr16) == Address(bus, m, c.k).addr
  {
    hide Drive;
    if m.ZeroPage? || m.ZeroPageX? {
      d := BumpZeroPage(bus, op, m, c);
    } else {
      d := BumpWord(bus, op, m, c);
      if m.AbsoluteX? {
        var d3 := StepBumping(bus, op, m, 3, d).c;
        Continues(bus, Bumping(op), m, 3, d, d3);
        d := d3;
      }
    }
  }

  lemma BumpZeroPage<M>(bus: BusOps<M>, op: BumpOp, m: Mode, c: Cpu<M>) returns (d: Cpu<M>)
    requires m.ZeroPage? || m.ZeroPageX?
    ensures Drive(bus, Bumping(op), m, 1, c) == Drive(bus, Bumping(op), m, ModifyCycles(m) - 2, d)
    ensures d.k == Address(bus, m, c.k).k && d.l.addr8 == Address(bus, m, c.k).addr
  {
    hide Drive;
    d := StepBumping(bus, op, m, 1, c).c;
    Continues(bus, Bumping(op), m, 1, c, d);
    if m.ZeroPageX? {
      var d2 := StepBumping(bus, op, m, 2, d).c;
      Continues(bus, Bumping(op), m, 2, d, d2);
      d := d2;
    }
  }

  lemma BumpWord<M>(bus: BusOps<M>, op: BumpOp, m: Mode, c: Cpu<M>) returns (d: Cpu<M>)
    requires m.Absolute? || m.AbsoluteX?
    ensures Drive(bus, Bumping(op), m, 1, c) == Drive(bus, Bumping(op), m, 3, d)
    ensures d.k == FetchWord(bus, c.k).k && d.l.addr16 == FetchWord(bus, c.k).addr
  {
    hide Drive;
    var d1 := StepBumping(bus, op, m, 1, c).c;
    Continues(bus, Bumping(op), m, 1, c, d1);
    d := StepBumping(bus, op, m, 2, d1).c;
    Continues(bus, Bumping(op), m, 2, d1, d);
  }

  lemma LastThreeBumps<M>(bus: BusOps<M>, op: BumpOp, m: Mode, d: Cpu<M>)
    requires RmwMode(m)
    ensures var at := if m.ZeroPage? || m.ZeroPageX? then d.l.addr8 else d.l.addr16;
            var f := Read(bus, d.k, at);
            var v := Bumped(op, f.v);
            var w := Write(bus, f.k, at, v);
            var r := Drive(bus, Bumping(op), m, ModifyCycles(m) - 2, d);
            r.Driven? && r.calls == ModifyCycles(m) && r.c.k == WithSr(w, SetNZ(w.r.SR, v))
  {
    hide Drive;
    var s := BumpReads(bus, op, m, d);
    LastTwoBumps(bus, op, m, s);
  }

  lemma BumpReads<M>(bus: BusOps<M>, op: BumpOp, m: Mode, d: Cpu<M>) returns (s: Cpu<M>)
    requires RmwMode(m)
    ensures Drive(bus, Bumping(op), m, ModifyCycles(m) - 2, d) == Drive(bus, Bumping(op), m, ModifyCycles(m) - 1, s)
    ensures s.l.addr16 == (if m.ZeroPage? || m.ZeroPageX? then d.l.addr8 else d.l.addr16)
    ensures var f := Read(bus, d.k, s.l.addr16); s.k == f.k && Lo(s.l.operand) == f.v
  {
    hide Drive;
    s := StepBumping(bus, op, m, ModifyCycles(m) - 2, d).c;
    Continues(bus, Bumping(op), m, ModifyCycles(m) - 2, d, s);
  }

  lemma LastTwoBumps<M>(bus: BusOps<M>, op: BumpOp, m: Mode, d: Cpu<M>)
    requires RmwMode(m)
    ensures var v := Bumped(op, Lo(d.l.operand));
            var w := Write(bus, d.k, d.l.addr16, v);
            var r := Drive(bus, Bumping(op), m, ModifyCycles(m) - 1, d);
            r.Driven? && r.calls == ModifyCycles(m) && r.c.k == WithSr(w, SetNZ(w.r.SR, v))
  {
    hide Drive, SetNZ, StepBumping;
    var at := ModifyCycles(m) - 1;
    var s, t := BumpsAndWrites(bus, op, m, d);
    Continues(bus, Bumping(op), m, at, d, s);
    Finishes(bus, Bumping(op), m, at + 1, s, t);
  }

  lemma BumpsAndWrites<M>(bus: BusOps<M>, op: BumpOp, m: Mode, d: Cpu<M>) returns (s: Cpu<M>, t: Cpu<M>)
    requires RmwMode(m)
    ensures StepBumping(bus, op, m, ModifyCycles(m) - 1, d) == Stepped(s, false)
    ensures StepBumping(bus, op, m, ModifyCycles(m), s) == Stepped(t, true)
    ensures var v := Bumped(op, Lo(d.l.operand));
            var w := Write(bus, d.k, d.l.addr16, v);
            t.k == WithSr(w, SetNZ(w.r.SR, v))
  {
    hide SetNZ, Bumped;
    s := d.(l := d.l.(operand := Bumped(op, Lo(d.l.operand))));
    t := StepBumping(bus, op, m, ModifyCycles(m), s).c;
    assert BumpPlan(op, m, ModifyCycles(m) - 1) == Bump(op) && BumpPlan(op, m, ModifyCycles(m)) == Rest(true);
  }

  lemma AgreeBump<M>(bus: BusOps<M>, op: BumpOp, m: Mode, c: Cpu<M>)
    requires RmwMode(m)
    ensures Same(Drive(bus, Bumping(op), m, 1, c), RunBump(bus, op, m, c.k))
  {
    hide Drive, Address;
    var d := BumpAddress(bus, op, m, c);
    LastThreeBumps(bus, op, m, d);
  }

  // ---- Jumps, calls, interrupts and stack instructions ---------------------

  lemma GoesTo<M>(bus: BusOps<M>, op: ControlOp, m: Mode, cycle: nat, a: Cpu<M>, b: Cpu<M>)
    requires cycle <= 6 && StepControl(bus, op, m, cycle, a) == Stepped(b, false)
    ensures Drive(bus, Control(op), m, cycle, a) == Drive(bus, Control(op), m, cycle + 1, b)
  {
    hide StepControl;
    Continues(bus, Control(op), m, cycle, a, b);
  }

  lemma EndsIn<M>(bus: BusOps<M>, op: ControlOp, m: Mode, cycle: nat, a: Cpu<M>, b: Cpu<M>)
    requires cycle <= 6 && StepControl(bus, op, m, cycle, a) == Stepped(b, true)
    ensures Drive(bus, Control(op), m, cycle, a) == Driven(b, cycle)
  {
    hide StepControl;
    Finishes(bus, Control(op), m, cycle, a, b);
  }

  lemma JumpTarget<M>(bus: BusOps<M>, m: Mode, c: Cpu<M>) returns (s1: Cpu<M>, s2: Cpu<M>)
    ensures StepControl(bus, JMP, m, 1, c) == Stepped(s1, false)
    ensures s2 == c.(k := WithPcIf(m.Absolute?, FetchWord(bus, c.k)), l := c.l.(addr16 := FetchWord(bus, c.k).addr))
    ensures StepControl(bus, JMP, m, 2, s1) == Stepped(s2, m.Absolute?)
  {
    s1 := StepControl(bus, JMP, m, 1, c).c;
    s2 := StepControl(bus, JMP, m, 2, s1).c;
  }

  function WithPcIf<M>(jumps: bool, e: Ea<M>): Core<M> { if jumps then WithPc(e.k, e.addr) else e.k }

  lemma JumpThrough<M>(bus: BusOps<M>, m: Mode, c: Cpu<M>) returns (s3: Cpu<M>, s4: Cpu<M>)
    ensures StepControl(bus, JMP, m, 3, c) == Stepped(s3, false) && StepControl(bus, JMP, m, 4, s3) == Stepped(s4, true)
    ensures var lo := Read(bus, c.k, c.l.addr16);
            var hi := Read(bus, lo.k, PageRoll(c.l.addr16));
            s4.k == WithPc(hi.k, OrHigh(lo.v, hi.v))
  {
    s3 := StepControl(bus, JMP, m, 3, c).c;
    s4 := StepControl(bus, JMP, m, 4, s3).c;
  }

  lemma AgreeJump<M>(bus: BusOps<M>, m: Mode, c: Cpu<M>)
    requires m.Absolute? || m.Indirect?
    ensures Same(Drive(bus, Control(JMP), m, 1, c), RunJump(bus, m, c.k))
  {
    hide StepControl, Drive;
    var s1, s2 := JumpTarget(bus, m, c);
    GoesTo(bus, JMP, m, 1, c, s1);
    if m.Absolute? {
      EndsIn(bus, JMP, m, 2, s1, s2);
    } else {
      GoesTo(bus, JMP, m, 2, s1, s2);
      var s3, s4 := JumpThrough(bus, m, s2);
      GoesTo(bus, JMP, m, 3, s2, s3);
      EndsIn(bus, JMP, m, 4, s3, s4);
    }
  }

  lemma JsrTarget<M>(bus: BusOps<M>, m: Mode, c: Cpu<M>) returns (s1: Cpu<M>, s2: Cpu<M>)
    ensures StepControl(bus, JSR, m, 1, c) == Stepped(s1, false)
    ensures StepControl(bus, JSR, m, 2, s1) == Stepped(s2, false)
    ensures s2 == c.(k := FetchWord(bus, c.k).k, l := c.l.(addr16 := FetchWord(bus, c.k).addr))
  {
    s1 := StepControl(bus, JSR, m, 1, c).c;
    s2 := StepControl(bus, JSR, m, 2, s1).c;
  }

  lemma JsrPush<M>(bus: BusOps<M>, m: Mode, c: Cpu<M>) returns (s3: Cpu<M>, s4: Cpu<M>, s5: Cpu<M>)
    ensures StepControl(bus, JSR, m, 3, c) == Stepped(s3, false)
    ensures StepControl(bus, JSR, m, 4, s3) == Stepped(s4, false)
    ensures StepControl(bus, JSR, m, 5, s4) == Stepped(s5, true)
    ensures s5.k == WithPc(PushPc(bus, c.k), c.l.addr16)
  {
    s3 := StepControl(bus, JSR, m, 3, c).c;
    s4 := StepControl(bus, JSR, m, 4, s3).c;
    s5 := StepControl(bus, JSR, m, 5, s4).c;
  }

  lemma AgreeJsr<M>(bus: BusOps<M>, m: Mode, c: Cpu<M>)
    ensures Same(Drive(bus, Control(JSR), m, 1, c), RunJsr(bus, c.k))
  {
    hide StepControl, Drive;
    var s1, s2 := JsrTarget(bus, m, c);
    var s3, s4, s5 := JsrPush(bus, m, s2);
    GoesTo(bus, JSR, m, 1, c, s1);
    GoesTo(bus, JSR, m, 2, s1, s2);
    GoesTo(bus, JSR, m, 3, s2, s3);
    GoesTo(bus, JSR, m, 4, s3, s4);
    EndsIn(bus, JSR, m, 5, s4, s5);
  }

  lemma RtsPullsLo<M>(bus: BusOps<M>, m: Mode, c: Cpu<M>) returns (s2: Cpu<M>)
    ensures StepControl(bus, RTS, m, 1, c) == Stepped(s2, false)
    ensures StepControl(bus, RTS, m, 2, s2) == Stepped(s2, false)
    ensures var f := PopByte(bus, c.k); s2.k == f.k && s2.l.addr16 == f.v
  {
    s2 := StepControl(bus, RTS, m, 1, c).c;
  }

  lemma RtsPullsHi<M>(bus: BusOps<M>, m: Mode, c: Cpu<M>) returns (s4: Cpu<M>, s5: Cpu<M>)
    ensures StepControl(bus, RTS, m, 3, c) == Stepped(s4, false)
    ensures StepControl(bus, RTS, m, 4, s4) == Stepped(s4, false)
    ensures StepControl(bus, RTS, m, 5, s4) == Stepped(s5, true)
    ensures var f := PopByte(bus, c.k); s5.k == WithPc(f.k, OrHigh(c.l.addr16, f.v))
  {
    s4 := StepControl(bus, RTS, m, 3, c).c;
    s5 := StepControl(bus, RTS, m, 5, s4).c;
  }

  lemma AgreeRts<M>(bus: BusOps<M>, m: Mode, c: Cpu<M>)
    ensures Same(Drive(bus, Control(RTS), m, 1, c), RunRts(bus, c.k))
  {
    hide StepControl, Drive;
    var s2 := RtsPullsLo(bus, m, c);
    var s4, s5 := RtsPullsHi(bus, m, s2);
    GoesTo(bus, RTS, m, 1, c, s2);
    GoesTo(bus, RTS, m, 2, s2, s2);
    GoesTo(bus, RTS, m, 3, s2, s4);
    GoesTo(bus, RTS, m, 4, s4, s4);
    EndsIn(bus, RTS, m, 5, s4, s5);
  }

  // The status byte pulled, masked and set, in the calls that RTI and PLP share.
  lemma StatusPulls<M>(bus: BusOps<M>, c: Cpu<M>, last: bool) returns (s1: Cpu<M>, s2: Cpu<M>, s3: Cpu<M>)
    ensures PerformControl(bus, PopStatus, c) == Stepped(s1, false)
    ensures PerformControl(bus, MaskStatus, s1) == Stepped(s2, false)
    ensures PerformControl(bus, StatusToSr(last), s2) == Stepped(s3, last)
    ensures s3.k == PullSr(bus, c.k)
  {
    hide Unpack;
    s1 := PerformControl(bus, PopStatus, c).c;
    s2 := PerformControl(bus, MaskStatus, s1).c;
    s3 := PerformControl(bus, StatusToSr(last), s2).c;
  }

  lemma RtiStatus<M>(bus: BusOps<M>, m: Mode, c: Cpu<M>) returns (s1: Cpu<M>, s2: Cpu<M>, s3: Cpu<M>)
    ensures StepControl(bus, RTI, m, 1, c) == Stepped(s1, false)
    ensures StepControl(bus, RTI, m, 2, s1) == Stepped(s2, false)
    ensures StepControl(bus, RTI, m, 3, s2) == Stepped(s3, false)
    ensures s3.k == PullSr(bus, c.k)
  {
    hide PerformControl, PullSr, Concluded;
    s1, s2, s3 := StatusPulls(bus, c, false);
  }

  lemma RtiPc<M>(bus: BusOps<M>, m: Mode, c: Cpu<M>) returns (s4: Cpu<M>, s5: Cpu<M>)
    ensures StepControl(bus, RTI, m, 4, c) == Stepped(s4, false) && StepControl(bus, RTI, m, 5, s4) == Stepped(s5, true)
    ensures s5.k == PullPc(bus, c.k)
  {
    hide Unpack, Pack, Or8, Inc8;
    s4 := StepControl(bus, RTI, m, 4, c).c;
    s5 := StepControl(bus, RTI, m, 5, s4).c;
  }

  lemma AgreeRti<M>(bus: BusOps<M>, m: Mode, c: Cpu<M>)
    ensures Same(Drive(bus, Control(RTI), m, 1, c), RunRti(bus, c.k))
  {
    hide StepControl, Drive;
    var s1, s2, s3 := RtiStatus(bus, m, c);
    var s4, s5 := RtiPc(bus, m, s3);
    GoesTo(bus, RTI, m, 1, c, s1);
    GoesTo(bus, RTI, m, 2, s1, s2);
    GoesTo(bus, RTI, m, 3, s2, s3);
    GoesTo(bus, RTI, m, 4, s3, s4);
    EndsIn(bus, RTI, m, 5, s4, s5);
  }

  // PC and the status register have been pushed and interrupts inhibited.
  lemma NmiPush<M>(bus: BusOps<M>, m: Mode, c: Cpu<M>) returns (s1: Cpu<M>, s2: Cpu<M>, s3: Cpu<M>)
    ensures StepControl(bus, NMI, m, 1, c) == Stepped(s1, false)
    ensures StepControl(bus, NMI, m, 2, s1) == Stepped(s2, false)
    ensures StepControl(bus, NMI, m, 3, s2) == Stepped(s3, false)
    ensures s3.k == Interrupted(bus, c.k)
  {
    hide Pack;
    s1 := StepControl(bus, NMI, m, 1, c).c;
    s2 := StepControl(bus, NMI, m, 2, s1).c;
    s3 := StepControl(bus, NMI, m, 3, s2).c;
  }

  lemma NmiVector<M>(bus: BusOps<M>, m: Mode, c: Cpu<M>) returns (s4: Cpu<M>, s5: Cpu<M>)
    ensures StepControl(bus, NMI, m, 4, c) == Stepped(s4, false) && StepControl(bus, NMI, m, 5, s4) == Stepped(s5, true)
    ensures s5.k == Vector(bus, c.k, NMI_VECTOR)
  {
    s4 := StepControl(bus, NMI, m, 4, c).c;
    s5 := StepControl(bus, NMI, m, 5, s4).c;
  }

  lemma AgreeNmi<M>(bus: BusOps<M>, m: Mode, c: Cpu<M>)
    ensures Same(Drive(bus, Control(NMI), m, 1, c), RunInterrupt(bus, c.k, NMI_VECTOR))
  {
    hide StepControl, Drive;
    var s1, s2, s3 := NmiPush(bus, m, c);
    var s4, s5 := NmiVector(bus, m, s3);
    GoesTo(bus, NMI, m, 1, c, s1);
    GoesTo(bus, NMI, m, 2, s1, s2);
    GoesTo(bus, NMI, m, 3, s2, s3);
    GoesTo(bus, NMI, m, 4, s3, s4);
    EndsIn(bus, NMI, m, 5, s4, s5);
  }

  lemma PhaPushes<M>(bus: BusOps<M>, m: Mode, c: Cpu<M>) returns (s1: Cpu<M>, s2: Cpu<M>)
    ensures StepControl(bus, PHA, m, 1, c) == Stepped(s1, false) && StepControl(bus, PHA, m, 2, s1) == Stepped(s2, true)
    ensures s2.k == RunPha(bus, c.k).k
  {
    s1 := StepControl(bus, PHA, m, 1, c).c;
    s2 := StepControl(bus, PHA, m, 2, s1).c;
  }

  lemma AgreePha<M>(bus: BusOps<M>, m: Mode, c: Cpu<M>)
    ensures Same(Drive(bus, Control(PHA), m, 1, c), RunPha(bus, c.k))
  {
    hide StepControl, Drive;
    var s1, s2 := PhaPushes(bus, m, c);
    GoesTo(bus, PHA, m, 1, c, s1);
    EndsIn(bus, PHA, m, 2, s1, s2);
  }

  lemma PhpPushes<M>(bus: BusOps<M>, m: Mode, c: Cpu<M>) returns (s1: Cpu<M>, s2: Cpu<M>)
    ensures StepControl(bus, PHP, m, 1, c) == Stepped(s1, false) && StepControl(bus, PHP, m, 2, s1) == Stepped(s2, true)
    ensures s2.k == RunPhp(bus, c.k).k
  {
    hide Pack;
    s1 := StepControl(bus, PHP, m, 1, c).c;
    s2 := StepControl(bus, PHP, m, 2, s1).c;
  }

  lemma AgreePhp<M>(bus: BusOps<M>, m: Mode, c: Cpu<M>)
    ensures Same(Drive(bus, Control(PHP), m, 1, c), RunPhp(bus, c.k))
  {
    hide StepControl, Drive;
    var s1, s2 := PhpPushes(bus, m, c);
    GoesTo(bus, PHP, m, 1, c, s1);
    EndsIn(bus, PHP, m, 2, s1, s2);
  }

  lemma PlaPulls<M>(bus: BusOps<M>, m: Mode, c: Cpu<M>) returns (s1: Cpu<M>, s2: Cpu<M>, s3: Cpu<M>)
    ensures StepControl(bus, PLA, m, 1, c) == Stepped(s1, false)
    ensures StepControl(bus, PLA, m, 2, s1) == Stepped(s2, false)
    ensures StepControl(bus, PLA, m, 3, s2) == Stepped(s3, true)
    ensures s3.k == RunPla(bus, c.k).k
  {
    hide SetNZ;
    s1 := StepControl(bus, PLA, m, 1, c).c;
    s2 := StepControl(bus, PLA, m, 2, s1).c;
    s3 := StepControl(bus, PLA, m, 3, s2).c;
  }

  lemma AgreePla<M>(bus: BusOps<M>, m: Mode, c: Cpu<M>)
    ensures Same(Drive(bus, Control(PLA), m, 1, c), RunPla(bus, c.k))
  {
    hide StepControl, Drive;
    var s1, s2, s3 := PlaPulls(bus, m, c);
    GoesTo(bus, PLA, m, 1, c, s1);
    GoesTo(bus, PLA, m, 2, s1, s2);
    EndsIn(bus, PLA, m, 3, s2, s3);
  }

  lemma PlpPulls<M>(bus: BusOps<M>, m: Mode, c: Cpu<M>) returns (s1: Cpu<M>, s2: Cpu<M>, s3: Cpu<M>)
    ensures StepControl(bus, PLP, m, 1, c) == Stepped(s1, false)
    ensures StepControl(bus, PLP, m, 2, s1) == Stepped(s2, false)
    ensures StepControl(bus, PLP, m, 3, s2) == Stepped(s3, true)
    ensures s3.k == PullSr(bus, c.k)
  {
    hide PerformControl, PullSr;
    s1, s2, s3 := StatusPulls(bus, c, true);
  }

  lemma AgreePlp<M>(bus: BusOps<M>, m: Mode, c: Cpu<M>)
    ensures Same(Drive(bus, Control(PLP), m, 1, c), RunPlp(bus, c.k))
  {
    hide StepControl, Drive;
    var s1, s2, s3 := PlpPulls(bus, m, c);
    GoesTo(bus, PLP, m, 1, c, s1);
    GoesTo(bus, PLP, m, 2, s1, s2);
    EndsIn(bus, PLP, m, 3, s2, s3);
  }

  lemma AgreeControl<M>(bus: BusOps<M>, op: ControlOp, m: Mode, c: Cpu<M>)
    requires AgreedControl(op, m) || op.NMI?
    ensures Same(Drive(bus, Control(op), m, 1, c), RunControl(bus, op, m, c.k))
  {
    match op
    case JMP => AgreeJump(bus, m, c);
    case JSR => AgreeJsr(bus, m, c);
    case RTS => AgreeRts(bus, m, c);
    case RTI => AgreeRti(bus, m, c);
    case NMI => AgreeNmi(bus, m, c);
    case PHA => AgreePha(bus, m, c);
    case PHP => AgreePhp(bus, m, c);
    case PLA => AgreePla(bus, m, c);
    case PLP => AgreePlp(bus, m, c);
  }

  // ---- BRK -----------------------------------------------------------------

  lemma BrkGoesTo<M>(bus: BusOps<M>, m: Mode, cycle: nat, a: Cpu<M>, b: Cpu<M>)
    requires cycle <= 6 && StepBrk(bus, cycle, a) == Stepped(b, false)
    ensures Drive(bus, BRK, m, cycle, a) == Drive(bus, BRK, m, cycle + 1, b)
  {
    hide StepBrk;
    Continues(bus, BRK, m, cycle, a, b);
  }

  lemma BrkEndsIn<M>(bus: BusOps<M>, m: Mode, cycle: nat, a: Cpu<M>, b: Cpu<M>)
    requires cycle <= 6 && StepBrk(bus, cycle, a) == Stepped(b, true)
    ensures Drive(bus, BRK, m, cycle, a) == Driven(b, cycle)
  {
    hide StepBrk;
    Finishes(bus, BRK, m, cycle, a, b);
  }

  lemma BrkPush<M>(bus: BusOps<M>, c: Cpu<M>) returns (s1: Cpu<M>, s2: Cpu<M>)
    ensures StepBrk(bus, 1, c) == Stepped(s1, false) && StepBrk(bus, 2, s1) == Stepped(s2, false)
    ensures s2.k == PushPc(bus, Fetch(bus, c.k).k)
  {
    s1 := StepBrk(bus, 1, c).c;
    s2 := StepBrk(bus, 2, s1).c;
  }

  lemma BrkStatus<M>(bus: BusOps<M>, c: Cpu<M>) returns (s3: Cpu<M>, s4: Cpu<M>)
    ensures StepBrk(bus, 3, c) == Stepped(s3, false) && StepBrk(bus, 4, s3) == Stepped(s4, false)
    ensures s4.k == Broken(bus, c.k)
  {
    hide Pack;
    s3 := StepBrk(bus, 3, c).c;
    s4 := StepBrk(bus, 4, s3).c;
  }

  lemma BrkVector<M>(bus: BusOps<M>, c: Cpu<M>) returns (s5: Cpu<M>, s6: Cpu<M>)
    ensures StepBrk(bus, 5, c) == Stepped(s5, false) && StepBrk(bus, 6, s5) == Stepped(s6, true)
    ensures s6.k == Vector(bus, c.k, NMI_VECTOR)
  {
    s5 := StepBrk(bus, 5, c).c;
    s6 := StepBrk(bus, 6, s5).c;
  }

  lemma AgreeBrk<M>(bus: BusOps<M>, m: Mode, c: Cpu<M>)
    ensures Same(Drive(bus, BRK, m, 1, c), RunBrk(bus, c.k))
  {
    hide StepBrk, Drive;
    var s1, s2 := BrkPush(bus, c);
    var s3, s4 := BrkStatus(bus, s2);
    var s5, s6 := BrkVector(bus, s4);
    BrkGoesTo(bus, m, 1, c, s1);
    BrkGoesTo(bus, m, 2, s1, s2);
    BrkGoesTo(bus, m, 3, s2, s3);
    BrkGoesTo(bus, m, 4, s3, s4);
    BrkGoesTo(bus, m, 5, s4, s5);
    BrkEndsIn(bus, m, 6, s5, s6);
  }

  // The theorem, for every bus, start state, stale latch and unset local.
  lemma StagedAgreesWithStatic<M>(bus: BusOps<M>, op: Op, m: Mode, c: Cpu<M>, u: Unset)
    requires Agreed(op, m)
    ensures Same(Drive(bus, op, m, 1, c), Run(bus, op, m, c.k, u))
  {
    match op
    case Reading(o) => AgreeReading(bus, o, m, c, u);
    case Storing(o) => AgreeStore(bus, o, m, c);
    case Bumping(o) => AgreeBump(bus, o, m, c);
    case Shifting(o) => assert StepShifting(bus, o, m, 1, c).ended;
    case Inherent(_) =>
    case Control(o) => AgreeControl(bus, o, m, c);
    case BRK => AgreeBrk(bus, m, c);
  }
}
