// The staged ADC and SBC of the 65C02 dialect as procedures.
module CmosHandlers {
  import opened Words
  import opened Bus
  import opened Isa
  import opened Operate
  import opened Staged
  import opened Processor
  import opened Handlers
  import opened Cmos

  ghost function CmosNow<M>(cpu: Processor<M>, st: Statics): CmosCpu<M>
    reads cpu, st
  {
    CmosCpu(Now(cpu, st), st.operandSet)
  }

  // What the switch leaves: the planned access made, and the end announced unless a
  // decimal instruction needs the call after the one that fetched the operand.
  ghost predicate Addressed<M>(bus: BusOps<M>, mode: CmosMode, cycle: nat, x: CmosCpu<M>, y: CmosCpu<M>, end: bool) {
    match CmosPlan(mode, cycle, x.fetched)
    case Finish => end && y == x
    case Do(u) =>
      var d := Perform(bus, u, x.c);
      y == CmosCpu(d.c, if u.AbsPlusRead? then d.ended else x.fetched) && end == (d.ended && !x.c.l.bcd)
  }

  method IndexAndTrack<M>(cpu: Processor<M>, st: Statics, y: bool) returns (end: bool)
    modifies cpu`memory, st`addr16, st`operand, st`operandSet
    ensures var d := Perform(cpu.bus, AbsPlusRead(y), old(Now(cpu, st)));
            Now(cpu, st) == d.c && st.operandSet == d.ended && end == (d.ended && !st.bcd)
    ensures end ==> st.operand < 0x100
  {
    st.operandSet := IndexAbsAndRead(cpu, st, y);
    end := st.operandSet && !st.bcd;
  }

  method FirstCalls<M>(cpu: Processor<M>, st: Statics, mode: Mode, cycle: nat) returns (end: bool)
    requires cycle <= 2
    modifies cpu`memory, cpu`PC, st`addr16, st`addr8, st`operand
    ensures Addressed(cpu.bus, Base(mode), cycle, old(CmosNow(cpu, st)), CmosNow(cpu, st), end)
  {
    hide Perform;
    Rests(cpu.bus, Now(cpu, st));
    end := false;
    match cycle
    case 1 =>
      if mode.Immediate? { FetchOperand(cpu, st); end := !st.bcd; }
      else if ZpBased(mode) { FetchZp(cpu, st); }
      else if AbsBased(mode) { FetchLo(cpu, st); }
    case 2 =>
      match mode {
        case Immediate => end := true;
        case ZeroPage => ReadZp(cpu, st); end := !st.bcd;
        case ZeroPageX => IndexZp(cpu, st, false);
        case IndexedIndirect => IndexZp(cpu, st, false);
        case Absolute => FetchHi(cpu, st);
        case AbsoluteX => FetchHi(cpu, st);
        case AbsoluteY => FetchHi(cpu, st);
        case IndirectIndexed => ReadPtrLo(cpu, st);
        case _ =>
      }
    case _ =>
  }

  method ThirdCall<M>(cpu: Processor<M>, st: Statics, mode: Mode) returns (end: bool)
    modifies cpu`memory, st`addr16, st`addr8, st`operand, st`operandSet
    ensures Addressed(cpu.bus, Base(mode), 3, old(CmosNow(cpu, st)), CmosNow(cpu, st), end)
  {
    hide Perform;
    Rests(cpu.bus, Now(cpu, st));
    end := false;
    match mode
    case ZeroPage => end := true;
    case ZeroPageX => ReadZp(cpu, st); end := !st.bcd;
    case Absolute => ReadAbs(cpu, st); end := !st.bcd;
    case AbsoluteX => end := IndexAndTrack(cpu, st, false);
    case AbsoluteY => end := IndexAndTrack(cpu, st, true);
    case IndexedIndirect => ReadPtrLo(cpu, st);
    case IndirectIndexed => ReadPtrHi(cpu, st);
    case _ =>
  }

  method LaterCalls<M>(cpu: Processor<M>, st: Statics, mode: Mode, cycle: nat) returns (end: bool)
    requires cycle >= 3
    modifies cpu`memory, st`addr16, st`addr8, st`operand, st`operandSet
    ensures Addressed(cpu.bus, Base(mode), cycle, old(CmosNow(cpu, st)), CmosNow(cpu, st), end)
  {
    hide Perform;
    Rests(cpu.bus, Now(cpu, st));
    end := false;
    match cycle
    case 3 => end := ThirdCall(cpu, st, mode);
    case 4 =>
      match mode {
        case ZeroPageX => end := true;
        case Absolute => end := true;
        case AbsoluteX => end := FinishOrRead(cpu, st);
        case AbsoluteY => end := FinishOrRead(cpu, st);
        case IndexedIndirect => ReadPtrHi(cpu, st);
        case IndirectIndexed => end := IndexAndTrack(cpu, st, true);
        case _ =>
      }
    case 5 =>
      match mode {
        case AbsoluteX => end := true;
        case AbsoluteY => end := true;
        case IndexedIndirect => ReadAbs(cpu, st); end := !st.bcd;
        case IndirectIndexed => end := FinishOrRead(cpu, st);
        case _ =>
      }
    case 6 => end := mode.IndexedIndirect? || mode.IndirectIndexed?;
    case _ =>
  }

  // After indexing: nothing is left to do if the operand is already there.
  method FinishOrRead<M>(cpu: Processor<M>, st: Statics) returns (end: bool)
    modifies cpu`memory, st`operand
    ensures if st.operandSet then end && Now(cpu, st) == old(Now(cpu, st))
            else Stepped(Now(cpu, st), true) == Perform(cpu.bus, AbsRead(true), old(Now(cpu, st))) && end == !st.bcd
  {
    if st.operandSet {
      end := true;
    } else {
      ReadAbs(cpu, st);
      end := !st.bcd;
    }
  }

  method Calls<M>(cpu: Processor<M>, st: Statics, mode: CmosMode, cycle: nat) returns (end: bool)
    modifies cpu`memory, cpu`PC, st`addr16, st`addr8, st`operand, st`operandSet
    ensures Addressed(cpu.bus, mode, cycle, old(CmosNow(cpu, st)), CmosNow(cpu, st), end)
  {
    if mode.ZeroPageIndirect? {
      end := false;
    } else if cycle <= 2 {
      end := FirstCalls(cpu, st, mode.m, cycle);
    } else {
      end := LaterCalls(cpu, st, mode.m, cycle);
    }
  }

  method StagedCmosAdc<M>(cpu: Processor<M>, st: Statics, mode: CmosMode, cycle: nat) returns (end: bool)
    modifies cpu`memory, cpu`PC, cpu`A, cpu`SR, st
    ensures CmosStepped(CmosNow(cpu, st), end) == CmosStep(cpu.bus, ADC, mode, cycle, old(CmosNow(cpu, st)))
  {
    hide OnAddend;
    if cycle == 1 { st.bcd := cpu.SR.D; }
    end := Calls(cpu, st, mode, cycle);
    if end { AddOperand(cpu, st.bcd, Lo(st.operand)); }
  }

  // The decimal call that only finishes works on the latch the call before left.
  method StagedCmosSbc<M>(cpu: Processor<M>, st: Statics, mode: CmosMode, cycle: nat) returns (end: bool)
    modifies cpu`memory, cpu`PC, cpu`A, cpu`SR, st
    ensures CmosStepped(CmosNow(cpu, st), end) == CmosStep(cpu.bus, SBC, mode, cycle, old(CmosNow(cpu, st)))
  {
    hide OnAddend;
    if cycle == 1 { st.bcd := cpu.SR.D; }
    end := Calls(cpu, st, mode, cycle);
    if end {
      var no: word := 0xFFFF - Lo(st.operand) as int;
      st.operand := 0xFFFF - st.operand;
      SubtractOperand(cpu, st.bcd, no);
    }
  }
}
