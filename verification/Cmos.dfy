// ADC and SBC of the 65C02 dialect: the base timetable with one more call in
// decimal mode, and a latch that remembers whether indexing already fetched the
// operand.
module Cmos {
  import opened Words
  import opened Wrappers
  import opened Registers
  import opened Bus
  import opened Isa
  import opened Operate
  import opened Staged
  import opened Static
  import opened Agreement

  datatype CmosMode = Base(m: Mode) | ZeroPageIndirect

  // `fetched` is is_OPERAND_SET.
  datatype CmosCpu<M> = CmosCpu(c: Cpu<M>, fetched: bool)

  datatype CmosStepped<M> = CmosStepped(c: CmosCpu<M>, ended: bool)

  // Finish is the call that only ends the instruction.
  datatype CmosMicro = Do(u: Micro) | Finish

  function CmosPlan(mode: CmosMode, cycle: nat, fetched: bool): CmosMicro {
    if mode.ZeroPageIndirect? then Do(IDLE)
    else
      var m := mode.m;
      match cycle
      case 1 => Do(FirstCall(m))
      case 2 => if m.Immediate? then Finish else Do(AluPlan(m, 2))
      case 3 => if m.ZeroPage? then Finish else Do(AluPlan(m, 3))
      case 4 =>
        if m.ZeroPageX? || m.Absolute? || ((m.AbsoluteX? || m.AbsoluteY?) && fetched) then Finish else Do(AluPlan(m, 4))
      case 5 =>
        if m.AbsoluteX? || m.AbsoluteY? || (m.IndirectIndexed? && fetched) then Finish
        else if IndirectMode(m) then Do(AbsRead(true)) else Do(IDLE)
      case 6 => if IndirectMode(m) then Finish else Do(IDLE)
      case _ => Do(IDLE)
  }

  // A call that fetches the operand ends a binary instruction only.
  function CmosStep<M>(bus: BusOps<M>, op: AddOp, mode: CmosMode, cycle: nat, x: CmosCpu<M>): CmosStepped<M> {
    var e := if cycle == 1 then LatchDecimal(x.c) else x.c;
    match CmosPlan(mode, cycle, x.fetched)
    case Finish => CmosStepped(CmosCpu(Add(op, e), x.fetched), true)
    case Do(u) =>
      var d := Perform(bus, u, e);
      var ended := d.ended && !e.l.bcd;
      CmosStepped(CmosCpu(if ended then Add(op, d.c) else d.c, if u.AbsPlusRead? then d.ended else x.fetched), ended)
  }

  function CmosDrive<M>(bus: BusOps<M>, op: AddOp, mode: CmosMode, cycle: nat, x: CmosCpu<M>): Driven<M>
    decreases 7 - cycle, x
  {
    if cycle > 6 then Unfinished
    else
      var s := CmosStep(bus, op, mode, cycle, x);
      if s.ended then Driven(s.c.c, cycle) else CmosDrive(bus, op, mode, cycle + 1, s.c)
  }

  // Zero-page-indirect, which both dispatch tables offer, is in no switch.
  lemma ZeroPageIndirectNeverEnds<M>(bus: BusOps<M>, op: AddOp, cycle: nat, x: CmosCpu<M>)
    ensures !CmosStep(bus, op, ZeroPageIndirect, cycle, x).ended
  {
  }

  // The latch says so exactly when the call before crossed no page.
  predicate NotYetFetched<M>(m: Mode, cycle: nat, x: CmosCpu<M>) {
    ((m.AbsoluteX? || m.AbsoluteY?) && cycle == 4) || (m.IndirectIndexed? && cycle == 5) ==> !x.fetched
  }

  lemma CallIsAlu<M>(bus: BusOps<M>, op: AddOp, m: Mode, cycle: nat, x: CmosCpu<M>)
    requires EightModes(m) && Reached(m, cycle) && NotYetFetched(m, cycle, x)
    requires cycle == 1 ==> x.c.l.bcd == x.c.k.r.SR.D
    ensures var d, s := Perform(bus, AluPlan(m, cycle), x.c), CmosStep(bus, op, Base(m), cycle, x);
            && s.ended == (d.ended && !x.c.l.bcd)
            && s.c.c == (if s.ended then Add(op, d.c) else d.c)
            && (!d.ended ==> NotYetFetched(m, cycle + 1, s.c))
            && (d.ended && x.c.l.bcd ==> CmosPlan(Base(m), cycle + 1, s.c.fetched) == Finish)
  {
  }

  lemma FinishEnds<M>(bus: BusOps<M>, op: AddOp, m: Mode, cycle: nat, x: CmosCpu<M>)
    requires 1 < cycle <= 6 && CmosPlan(Base(m), cycle, x.fetched) == Finish
    ensures CmosDrive(bus, op, Base(m), cycle, x) == Driven(Add(op, x.c), cycle)
  {
  }

  // What was gathered, added one call later in decimal mode.
  function Added<M>(op: AddOp, g: Driven<M>, bcd: bool): Driven<M> {
    if g.Driven? then Driven(Add(op, g.c), g.calls + Bit(bcd)) else g
  }

  lemma {:induction false} DriveAdds<M>(bus: BusOps<M>, op: AddOp, m: Mode, cycle: nat, x: CmosCpu<M>)
    requires EightModes(m) && Reached(m, cycle) && NotYetFetched(m, cycle, x)
    requires cycle == 1 ==> x.c.l.bcd == x.c.k.r.SR.D
    ensures CmosDrive(bus, op, Base(m), cycle, x) == Added(op, Gather(bus, m, cycle, x.c), x.c.l.bcd)
    decreases 7 - cycle
  {
    var d, s := Perform(bus, AluPlan(m, cycle), x.c), CmosStep(bus, op, Base(m), cycle, x);
    CallIsAlu(bus, op, m, cycle, x);
    PerformKeepsDecimal(bus, AluPlan(m, cycle), x.c);
    if d.ended {
      if x.c.l.bcd {
        FinishEnds(bus, op, m, cycle + 1, s.c);
      }
    } else {
      GoesOn(bus, m, cycle, x.c);
      DriveAdds(bus, op, m, cycle + 1, s.c);
    }
  }

  lemma PerformKeepsDecimal<M>(bus: BusOps<M>, u: Micro, c: Cpu<M>)
    ensures Perform(bus, u, c).c.l.bcd == c.l.bcd
  {
  }

  // Every mode the handler knows: it fetches the addressed operand, adds or
  // subtracts it under the decimal flag, and takes the base instruction's cycles,
  // page crossing included, plus exactly one in decimal mode. The latches may hold
  // anything at the start.
  lemma CmosMeetsAddressing<M>(bus: BusOps<M>, op: AddOp, m: Mode, x: CmosCpu<M>)
    requires EightModes(m)
    ensures var d, g, s := CmosDrive(bus, op, Base(m), 1, x), Operand(bus, m, x.c.k, None), x.c.k.r.SR;
            && d.Driven? && d.calls == g.cycles + Bit(s.D)
            && d.c.k == g.k.(r := OnAddend(op, s.D, g.v, g.k.r))
  {
    var y := x.(c := LatchDecimal(x.c));
    DriveLatches(bus, op, m, x);
    DriveAdds(bus, op, m, 1, y);
    GatherAny(bus, m, y.c);
    AddGathered(op, Gather(bus, m, 1, y.c).c, Operand(bus, m, x.c.k, None));
  }

  lemma DriveLatches<M>(bus: BusOps<M>, op: AddOp, m: Mode, x: CmosCpu<M>)
    ensures CmosDrive(bus, op, Base(m), 1, x) == CmosDrive(bus, op, Base(m), 1, x.(c := LatchDecimal(x.c)))
  {
    assert CmosStep(bus, op, Base(m), 1, x) == CmosStep(bus, op, Base(m), 1, x.(c := LatchDecimal(x.c)));
  }

  lemma AddGathered<M>(op: AddOp, c: Cpu<M>, g: Got<M>)
    requires c.k == g.k && c.l.operand == g.v
    ensures Add(op, c).k == g.k.(r := OnAddend(op, c.l.bcd, g.v, g.k.r))
  {
    assert Lo(c.l.operand) == g.v;
  }

  function Decimal<M>(x: CmosCpu<M>, on: bool): CmosCpu<M> {
    x.(c := x.c.(k := x.c.k.(r := x.c.k.r.(SR := x.c.k.r.SR.(D := on)))))
  }

  // From two states that differ only in the decimal flag: the same bus traffic,
  // the same operand, and one call more in decimal mode, page crossed or not.
  lemma DecimalCostsOneCall<M>(bus: BusOps<M>, op: AddOp, m: Mode, x: CmosCpu<M>) returns (o: byte)
    requires EightModes(m)
    ensures var b := CmosDrive(bus, op, Base(m), 1, Decimal(x, false));
            var d := CmosDrive(bus, op, Base(m), 1, Decimal(x, true));
            && b.Driven? && d.Driven? && d.calls == b.calls + 1 && d.c.k.m == b.c.k.m
            && b.c.k.r.PC == d.c.k.r.PC
            && b.c.k.r.A == OnAddend(op, false, o, Decimal(x, false).c.k.r).A
            && d.c.k.r.A == OnAddend(op, true, o, Decimal(x, true).c.k.r).A
  {
    var b, d := Decimal(x, false), Decimal(x, true);
    CmosMeetsAddressing(bus, op, m, b);
    CmosMeetsAddressing(bus, op, m, d);
    OperandIgnoresStatus(bus, m, b.c.k, d.c.k.r.SR);
    OperandKeeps(bus, m, b.c.k);
    OperandKeeps(bus, m, d.c.k);
    o := Operand(bus, m, b.c.k, None).v;
  }

  lemma OperandIgnoresStatus<M>(bus: BusOps<M>, m: Mode, k: Core<M>, s: Status)
    requires EightModes(m)
    ensures var g, h := Operand(bus, m, k, None), Operand(bus, m, WithSr(k, s), None);
            h.v == g.v && h.cycles == g.cycles && h.k == WithSr(g.k, s)
  {
  }

  lemma OperandKeeps<M>(bus: BusOps<M>, m: Mode, k: Core<M>)
    requires EightModes(m)
    ensures Operand(bus, m, k, None).k.r == k.r.(PC := Operand(bus, m, k, None).k.r.PC)
  {
    if !m.Immediate? {
      AddressKeeps(bus, m, k);
    }
  }
}
