// The handlers of the core instructions as procedures on the processor, staged
// (one call a cycle, a switch over the cycle count) and static (one call).
module Handlers {
  import opened Words
  import opened Wrappers
  import opened Registers
  import opened Bus
  import opened Isa
  import opened Operate
  import opened Staged
  import opened Static
  import opened Processor
  import Alu

  // ---- AND, ORA, EOR, ADC and SBC: addressing ------------------------------

  method Addressing<M>(cpu: Processor<M>, st: Statics, mode: Mode, cycle: nat) returns (end: bool)
    modifies cpu`memory, cpu`PC, st
    ensures Stepped(Now(cpu, st), end) == Perform(cpu.bus, AluPlan(mode, cycle), old(Now(cpu, st)))
    ensures end ==> st.operand < 0x100
  {
    hide Perform;
    Rests(cpu.bus, Now(cpu, st));
    end := false;
    match cycle
    case 1 =>
      if mode.Immediate? { FetchOperand(cpu, st); end := true; }
      else if ZpBased(mode) { FetchZp(cpu, st); }
      else if AbsBased(mode) { FetchLo(cpu, st); }
    case 2 =>
      match mode {
        case ZeroPage => ReadZp(cpu, st); end := true;
        case ZeroPageX => IndexZp(cpu, st, false);
        case IndexedIndirect => IndexZp(cpu, st, false);
        case IndirectIndexed => ReadPtrLo(cpu, st);
        case Absolute => FetchHi(cpu, st);
        case AbsoluteX => FetchHi(cpu, st);
        case AbsoluteY => FetchHi(cpu, st);
        case _ =>
      }
    case 3 =>
      match mode {
        case ZeroPageX => ReadZp(cpu, st); end := true;
        case Absolute => ReadAbs(cpu, st); end := true;
        case AbsoluteX => end := IndexAbsAndRead(cpu, st, false);
        case AbsoluteY => end := IndexAbsAndRead(cpu, st, true);
        case IndexedIndirect => ReadPtrLo(cpu, st);
        case IndirectIndexed => ReadPtrHi(cpu, st);
        case _ =>
      }
    case 4 =>
      match mode {
        case AbsoluteX => ReadAbs(cpu, st); end := true;
        case AbsoluteY => ReadAbs(cpu, st); end := true;
        case IndexedIndirect => ReadPtrHi(cpu, st);
        case IndirectIndexed => end := IndexAbsAndRead(cpu, st, true);
        case _ =>
      }
    case 5 => ReadAbs(cpu, st); end := true;
    case _ =>
  }

  method StagedAnd<M>(cpu: Processor<M>, st: Statics, mode: Mode, cycle: nat) returns (end: bool)
    modifies cpu`memory, cpu`PC, cpu`A, cpu`SR, st
    ensures Stepped(Now(cpu, st), end) == Step(cpu.bus, Reading(AND), mode, cycle, old(Now(cpu, st)))
  {
    hide Perform;
    end := Addressing(cpu, st, mode, cycle);
    if end {
      cpu.A := And8(cpu.A, Lo(st.operand));
      cpu.SR := SetNZ(cpu.SR, cpu.A);
    }
  }

  // ---- ADC and SBC ---------------------------------------------------------

  // The 16-bit sum as the handlers compute it, before the last decimal adjustment.
  method Sum(bcd: bool, a: byte, o: byte, c: bool) returns (alu: word)
    ensures alu == Alu.AdcRaw(bcd, a, o, c)
  {
    if bcd {
      alu := o % 0x10 + a % 0x10 + Bit(c);
      if alu > 0x09 { alu := alu + 0x06; }
      assert o % 0x10 <= o && a % 0x10 <= a && alu % 0x10 < 0x10;
      alu := (o - o % 0x10) + (a - a % 0x10) + (if alu > 0x0F then 0x10 else 0) + alu % 0x10;
    } else {
      alu := o + a + Bit(c);
    }
  }

  // `no` is the operand complemented as 16 bits.
  method Difference(bcd: bool, a: byte, no: word, c: bool) returns (alu: word)
    ensures alu == Alu.SbcRaw(bcd, a, no, c)
  {
    if bcd {
      alu := no % 0x10 + a % 0x10 + Bit(c);
      if alu <= 0x0F { alu := Add16(alu, -0x06); }
      assert no % 0x10 <= no % 0x100 < 0x100 && a % 0x10 <= a && alu % 0x10 < 0x10;
      alu := (no % 0x100 - no % 0x10) + (a - a % 0x10) + (if alu > 0x0F then 0x10 else 0) + alu % 0x10;
    } else {
      alu := Add16(no, a + Bit(c));
    }
  }

  method SetFlags<M>(cpu: Processor<M>, alu: word, overflow: bool)
    modifies cpu`A, cpu`SR
    ensures cpu.View() == old(cpu.View()).(r := WithAlu(old(cpu.View().r), Alu.Flags(alu, overflow)))
  {
    cpu.SR := cpu.SR.(V := overflow, Z := Lo(alu) == 0, N := Bit7(Lo(alu)), C := alu >= 0x100);
    cpu.A := Lo(alu);
  }

  function AluNow<M>(cpu: Processor<M>): Alu.AluOut
    reads cpu
  {
    Alu.AluOut(cpu.A, cpu.SR.C, cpu.SR.Z, cpu.SR.V, cpu.SR.N)
  }

  // In binary mode accumulator and carry hold the exact sum of two bytes, in
  // decimal mode that of two decimal numbers. Overflow is judged before the last
  // decimal adjustment.
  method AddOperand<M>(cpu: Processor<M>, bcd: bool, o: byte)
    modifies cpu`A, cpu`SR
    ensures cpu.View() == old(cpu.View()).(r := OnAddend(ADC, bcd, o, old(cpu.View().r)))
    ensures var a, c := old(cpu.A), old(cpu.SR.C);
            && (!bcd ==> cpu.A + 0x100 * Bit(cpu.SR.C) == a + o + Bit(c))
            && (bcd && Alu.Bcd(a) && Alu.Bcd(o) ==> Alu.Bcd(cpu.A))
            && (bcd && Alu.Bcd(a) && Alu.Bcd(o) ==>
                  Alu.Digits(true, cpu.A) + 100 * Bit(cpu.SR.C) == Alu.Digits(true, a) + Alu.Digits(true, o) + Bit(c))
            && (bcd ==> Alu.AddsDigits(a, o, c, AluNow(cpu)))
  {
    hide Alu.Digits, Alu.Bcd, Alu.AddsDigits;
    if bcd { Alu.AdcDigits(cpu.A, o, cpu.SR.C); }
    if !bcd { Alu.AdcBinary(cpu.A, o, cpu.SR.C); }
    else if Alu.Bcd(cpu.A) && Alu.Bcd(o) { Alu.AdcDecimal(cpu.A, o, cpu.SR.C); }
    hide Alu.AdcRaw, Alu.Flags, Bit7;
    var alu := Sum(bcd, cpu.A, o, cpu.SR.C);
    var overflow := Bit7(cpu.A) == Bit7(o) && Bit7(cpu.A) != Bit7(alu);
    if bcd && alu > 0x9F { alu := Add16(alu, 0x60); }
    SetFlags(cpu, alu, overflow);
  }

  method SubtractOperand<M>(cpu: Processor<M>, bcd: bool, no: word)
    requires no >= 0xFF00
    modifies cpu`A, cpu`SR
    ensures cpu.View() == old(cpu.View()).(r := OnAddend(SBC, bcd, 0xFFFF - no, old(cpu.View().r)))
    ensures var a, o, c := old(cpu.A), 0xFFFF - no, old(cpu.SR.C);
            && (bcd && Alu.Bcd(a) && Alu.Bcd(o) ==> Alu.Bcd(cpu.A))
            && (bcd && Alu.Bcd(a) && Alu.Bcd(o) ==>
                  Alu.Digits(true, cpu.A) == Alu.Digits(true, a) - Alu.Digits(true, o) - Bit(!c) + 100 * Bit(!cpu.SR.C))
            && (bcd ==> Alu.SubtractsDigits(a, o, c, AluNow(cpu)))
  {
    hide Alu.Digits, Alu.Bcd, Alu.SubtractsDigits;
    if bcd { Alu.SbcDigits(cpu.A, 0xFFFF - no, cpu.SR.C); }
    if bcd && Alu.Bcd(cpu.A) && Alu.Bcd(0xFFFF - no) { Alu.SbcDecimal(cpu.A, 0xFFFF - no, cpu.SR.C); }
    hide Alu.SbcRaw, Alu.Flags, Bit7;
    var alu := Difference(bcd, cpu.A, no, cpu.SR.C);
    var overflow := Bit7(cpu.A) == Bit7(no) && Bit7(cpu.A) != Bit7(alu);
    if bcd && alu <= 0xFF { alu := Add16(alu, -0x60); }
    SetFlags(cpu, alu, overflow);
  }

  method Addend<M>(cpu: Processor<M>, st: Statics)
    modifies cpu`A, cpu`SR
    ensures Now(cpu, st) == Add(ADC, old(Now(cpu, st)))
  {
    hide OnAddend, Alu.Digits, Alu.Bcd, Alu.AddsDigits, Alu.SubtractsDigits, Bit;
    AddOperand(cpu, st.bcd, Lo(st.operand));
  }

  method StagedAdc<M>(cpu: Processor<M>, st: Statics, mode: Mode, cycle: nat) returns (end: bool)
    modifies cpu`memory, cpu`PC, cpu`A, cpu`SR, st
    ensures Stepped(Now(cpu, st), end) == Step(cpu.bus, Adding(ADC), mode, cycle, old(Now(cpu, st)))
  {
    hide Perform, Add, AluPlan;
    if cycle == 1 { st.bcd := cpu.SR.D; }
    end := Addressing(cpu, st, mode, cycle);
    if end { Addend(cpu, st); }
  }

  // The operand latch is complemented in place.
  method Subtract<M>(cpu: Processor<M>, st: Statics)
    requires st.operand < 0x100
    modifies cpu`A, cpu`SR, st`operand
    ensures Now(cpu, st) == Add(SBC, old(Now(cpu, st)))
  {
    hide OnAddend, Alu.Digits, Alu.Bcd, Alu.AddsDigits, Alu.SubtractsDigits, Bit;
    assert Lo(st.operand) == st.operand;
    st.operand := 0xFFFF - st.operand;
    SubtractOperand(cpu, st.bcd, st.operand);
  }

  method StagedSbc<M>(cpu: Processor<M>, st: Statics, mode: Mode, cycle: nat) returns (end: bool)
    modifies cpu`memory, cpu`PC, cpu`A, cpu`SR, st
    ensures Stepped(Now(cpu, st), end) == Step(cpu.bus, Adding(SBC), mode, cycle, old(Now(cpu, st)))
  {
    hide Perform, Add, AluPlan;
    if cycle == 1 { st.bcd := cpu.SR.D; }
    end := Addressing(cpu, st, mode, cycle);
    if end {
      Subtract(cpu, st);
    }
  }

  // ---- LDA, STA and INC ----------------------------------------------------

  method LdaAddressing<M>(cpu: Processor<M>, st: Statics, mode: Mode, cycle: nat) returns (end: bool)
    requires cycle != 4 || !mode.IndirectIndexed?
    modifies cpu`memory, cpu`PC, st
    ensures Stepped(Now(cpu, st), end) == Perform(cpu.bus, LdaPlan(mode, cycle), old(Now(cpu, st)))
  {
    hide Perform;
    Rests(cpu.bus, Now(cpu, st));
    end := false;
    if 2 <= cycle <= 4 && (mode.IndexedIndirect? || mode.IndirectIndexed?) {
      if cycle == 3 && mode.IndexedIndirect? { IndexZp(cpu, st, false); }
      else if cycle == 3 || (cycle == 4 && mode.IndexedIndirect?) { ReadPtrLo(cpu, st); }
    } else {
      end := Addressing(cpu, st, mode, cycle);
    }
  }

  // The indirect modes never fetch the pointer's high byte as one.
  method StagedLda<M>(cpu: Processor<M>, st: Statics, mode: Mode, cycle: nat) returns (end: bool)
    modifies cpu`memory, cpu`PC, cpu`A, cpu`SR, st
    ensures Stepped(Now(cpu, st), end) == Step(cpu.bus, Reading(LDA), mode, cycle, old(Now(cpu, st)))
  {
    hide Perform;
    if cycle == 4 && mode.IndirectIndexed? {
      ReadPtrOr(cpu, st);
      end := IndexAbsAndRead(cpu, st, true);
    } else {
      end := LdaAddressing(cpu, st, mode, cycle);
    }
    if end {
      cpu.A := Lo(st.operand);
      cpu.SR := SetNZ(cpu.SR, cpu.A);
    }
  }

  method StaAddressing<M>(cpu: Processor<M>, st: Statics, mode: Mode, cycle: nat) returns (end: bool)
    modifies cpu`memory, cpu`PC, st
    ensures Stepped(Now(cpu, st), end) == Perform(cpu.bus, StaPlan(mode, cycle), old(Now(cpu, st)))
  {
    hide Perform;
    Rests(cpu.bus, Now(cpu, st));
    end := false;
    match cycle
    case 1 =>
      if ZpBased(mode) { FetchZp(cpu, st); } else if AbsBased(mode) { FetchLo(cpu, st); }
    case 2 =>
      match mode {
        case ZeroPage => MoveAddr(cpu, st); end := true;
        case ZeroPageX => IndexZp(cpu, st, false);
        case Absolute => FetchHi(cpu, st);
        case AbsoluteX => FetchHi(cpu, st);
        case AbsoluteY => FetchHi(cpu, st);
        case _ =>
      }
    case 3 =>
      match mode {
        case ZeroPageX => MoveAddr(cpu, st); end := true;
        case Absolute => end := true;
        case AbsoluteX => IndexAbs(cpu, st, false);
        case AbsoluteY => IndexAbs(cpu, st, true);
        case IndexedIndirect => IndexZp(cpu, st, false);
        case IndirectIndexed => ReadPtrLo(cpu, st);
        case _ =>
      }
    case 4 =>
      match mode {
        case AbsoluteX => end := true;
        case AbsoluteY => end := true;
        case IndexedIndirect => ReadPtrLo(cpu, st);
        case IndirectIndexed => ReadPtrHi(cpu, st);
        case _ =>
      }
    case 5 =>
      match mode {
        case IndexedIndirect => ReadPtrHi(cpu, st);
        case IndirectIndexed => IndexAbs(cpu, st, true);
        case _ =>
      }
    case _ =>
  }

  method StagedSta<M>(cpu: Processor<M>, st: Statics, mode: Mode, cycle: nat) returns (end: bool)
    modifies cpu`memory, cpu`PC, st
    ensures Stepped(Now(cpu, st), end) == Step(cpu.bus, Storing(STA), mode, cycle, old(Now(cpu, st)))
  {
    hide Perform;
    end := StaAddressing(cpu, st, mode, cycle);
    if end { cpu.WriteAddr(st.addr16, cpu.A); }
  }

  method IncAddressing<M>(cpu: Processor<M>, st: Statics, mode: Mode, cycle: nat) returns (end: bool)
    modifies cpu`memory, cpu`PC, st
    ensures Stepped(Now(cpu, st), end) == Perform(cpu.bus, BumpPlan(INC, mode, cycle), old(Now(cpu, st)))
  {
    hide Perform;
    Rests(cpu.bus, Now(cpu, st));
    end := false;
    match cycle
    case 1 =>
      if mode.ZeroPage? || mode.ZeroPageX? { FetchZp(cpu, st); }
      else if mode.Absolute? || mode.AbsoluteX? { FetchLo(cpu, st); }
    case 2 =>
      match mode {
        case ZeroPage => ReadZpMove(cpu, st);
        case ZeroPageX => IndexZp(cpu, st, false);
        case Absolute => FetchHi(cpu, st);
        case AbsoluteX => FetchHi(cpu, st);
        case _ =>
      }
    case 3 =>
      match mode {
        case ZeroPage => IncOperand(cpu, st);
        case ZeroPageX => ReadZpMove(cpu, st);
        case Absolute => ReadAbs(cpu, st, false);
        case AbsoluteX => IndexAbs(cpu, st, false);
        case _ =>
      }
    case 4 =>
      match mode {
        case ZeroPage => end := true;
        case ZeroPageX => IncOperand(cpu, st);
        case Absolute => IncOperand(cpu, st);
        case AbsoluteX => ReadAbs(cpu, st, false);
        case _ =>
      }
    case 5 =>
      match mode {
        case ZeroPageX => end := true;
        case Absolute => end := true;
        case AbsoluteX => IncOperand(cpu, st);
        case _ =>
      }
    case 6 => end := true;
    case _ =>
  }

  method StagedInc<M>(cpu: Processor<M>, st: Statics, mode: Mode, cycle: nat) returns (end: bool)
    modifies cpu`memory, cpu`PC, cpu`SR, st
    ensures Stepped(Now(cpu, st), end) == Step(cpu.bus, Bumping(INC), mode, cycle, old(Now(cpu, st)))
  {
    hide Perform;
    end := IncAddressing(cpu, st, mode, cycle);
    if end {
      cpu.WriteAddr(st.addr16, Lo(st.operand));
      cpu.SR := SetNZ(cpu.SR, Lo(st.operand));
    }
  }

  // ---- Jumps, calls, returns and interrupts --------------------------------

  method StagedJmp<M>(cpu: Processor<M>, st: Statics, mode: Mode, cycle: nat) returns (end: bool)
    modifies cpu`memory, cpu`PC, st
    ensures Stepped(Now(cpu, st), end) == Step(cpu.bus, Control(JMP), mode, cycle, old(Now(cpu, st)))
  {
    hide PerformControl;
    Rests(cpu.bus, Now(cpu, st));
    end := false;
    match cycle {
      case 1 => FetchTargetLo(cpu, st);
      case 2 => end := mode.Absolute?; FetchTargetHi(cpu, st, mode.Absolute?);
      case 3 => ReadIndirectLo(cpu, st);
      case 4 => ReadIndirectHi(cpu, st); end := true;
      case _ =>
    }
    if end { cpu.PC := st.addr16; }
  }

  method StagedJsr<M>(cpu: Processor<M>, st: Statics, mode: Mode, cycle: nat) returns (end: bool)
    modifies cpu`memory, cpu`PC, cpu`SP, st
    ensures Stepped(Now(cpu, st), end) == Step(cpu.bus, Control(JSR), mode, cycle, old(Now(cpu, st)))
  {
    hide PerformControl;
    Rests(cpu.bus, Now(cpu, st));
    end := false;
    match cycle
    case 1 => FetchTargetLo(cpu, st);
    case 2 => FetchTargetHi(cpu, st, false);
    case 3 => PushPcHigh(cpu, st);
    case 4 => PushPcLow(cpu, st);
    case 5 => cpu.PC := st.addr16; end := true;
    case _ =>
  }

  method StagedRts<M>(cpu: Processor<M>, st: Statics, mode: Mode, cycle: nat) returns (end: bool)
    modifies cpu`memory, cpu`PC, cpu`SP, st
    ensures Stepped(Now(cpu, st), end) == Step(cpu.bus, Control(RTS), mode, cycle, old(Now(cpu, st)))
  {
    hide PerformControl;
    Rests(cpu.bus, Now(cpu, st));
    end := false;
    match cycle
    case 1 => PopAddrLo(cpu, st);
    case 3 => PopAddrHi(cpu, st);
    case 5 => cpu.PC := st.addr16; end := true;
    case _ =>
  }

  method StagedRti<M>(cpu: Processor<M>, st: Statics, mode: Mode, cycle: nat) returns (end: bool)
    modifies cpu`memory, cpu`PC, cpu`SP, cpu`SR, st
    ensures Stepped(Now(cpu, st), end) == Step(cpu.bus, Control(RTI), mode, cycle, old(Now(cpu, st)))
  {
    hide PerformControl;
    Rests(cpu.bus, Now(cpu, st));
    end := false;
    match cycle
    case 1 => PopSr(cpu, st);
    case 2 => MaskSr(cpu, st);
    case 3 => SetSr(cpu, st);
    case 4 => PopAddrLo(cpu, st);
    case 5 => PopPcHi(cpu, st); end := true;
    case _ =>
  }

  method StagedBrk<M>(cpu: Processor<M>, st: Statics, mode: Mode, cycle: nat) returns (end: bool)
    modifies cpu`memory, cpu`PC, cpu`SP, cpu`SR, st
    ensures Stepped(Now(cpu, st), end) == Step(cpu.bus, BRK, mode, cycle, old(Now(cpu, st)))
  {
    hide PerformControl;
    Rests(cpu.bus, Now(cpu, st));
    end := false;
    match cycle
    case 1 => FetchDummy(cpu, st); PushPcHigh(cpu, st);
    case 2 => PushPcLow(cpu, st);
    case 3 => PushBrkStatus(cpu, st);
    case 4 => Inhibit(cpu, st);
    case 5 => LoadPcLo(cpu, st);
    case 6 => LoadPcHi(cpu, st); end := true;
    case _ =>
  }

  method StagedNmi<M>(cpu: Processor<M>, st: Statics, mode: Mode, cycle: nat) returns (end: bool)
    modifies cpu`memory, cpu`PC, cpu`SP, cpu`SR, st
    ensures Stepped(Now(cpu, st), end) == Step(cpu.bus, Control(NMI), mode, cycle, old(Now(cpu, st)))
  {
    hide PerformControl;
    Rests(cpu.bus, Now(cpu, st));
    end := Entry(cpu, st, NMI_VECTOR, cycle);
    if end { cpu.PC := st.addr16; }
  }

  // The request handler is the same with its own vector, behind a test of the
  // inhibit flag in every call.
  method StagedIrq<M>(cpu: Processor<M>, st: Statics, mode: Mode, cycle: nat) returns (end: bool)
    modifies cpu`memory, cpu`PC, cpu`SP, cpu`SR, st
    ensures Stepped(Now(cpu, st), end) == Step(cpu.bus, Control(IRQ), mode, cycle, old(Now(cpu, st)))
  {
    hide PerformControl;
    Rests(cpu.bus, Now(cpu, st));
    if cpu.SR.I { return true; }
    end := Entry(cpu, st, IRQ_VECTOR, cycle);
    if end { cpu.PC := st.addr16; }
  }

  method Entry<M>(cpu: Processor<M>, st: Statics, vector: word, cycle: nat) returns (end: bool)
    requires vector < 0xFFFF
    modifies cpu`memory, cpu`SP, cpu`SR, st
    ensures Stepped(Now(cpu, st), end) == PerformControl(cpu.bus, InterruptPlan(vector, cycle), old(Now(cpu, st)))
    ensures end ==> cpu.SR == old(cpu.SR)
  {
    hide PerformControl;
    Rests(cpu.bus, Now(cpu, st));
    end := false;
    match cycle
    case 1 => PushPcHigh(cpu, st);
    case 2 => PushPcLow(cpu, st);
    case 3 => PushStatusAndInhibit(cpu, st);
    case 4 => ReadVectorLo(cpu, st, vector);
    case 5 => ReadVectorHi(cpu, st, vector); end := true;
    case _ =>
  }

  // ---- Dispatch ------------------------------------------------------------

  // A call through the handler of a dispatch record.
  method Call<M>(cpu: Processor<M>, st: Statics, op: Op, mode: Mode, cycle: nat) returns (end: bool)
    modifies cpu, st
    ensures Stepped(Now(cpu, st), end) == Step(cpu.bus, op, mode, cycle, old(Now(cpu, st)))
  {
    hide Step;
    match op
    case Reading(AND) => end := StagedAnd(cpu, st, mode, cycle);
    case Reading(LDA) => end := StagedLda(cpu, st, mode, cycle);
    case Adding(ADC) => end := StagedAdc(cpu, st, mode, cycle);
    case Adding(SBC) => end := StagedSbc(cpu, st, mode, cycle);
    case Storing(STA) => end := StagedSta(cpu, st, mode, cycle);
    case Bumping(INC) => end := StagedInc(cpu, st, mode, cycle);
    case Control(JMP) => end := StagedJmp(cpu, st, mode, cycle);
    case Control(JSR) => end := StagedJsr(cpu, st, mode, cycle);
    case Control(RTS) => end := StagedRts(cpu, st, mode, cycle);
    case Control(RTI) => end := StagedRti(cpu, st, mode, cycle);
    case Control(NMI) => end := StagedNmi(cpu, st, mode, cycle);
    case Control(IRQ) => end := StagedIrq(cpu, st, mode, cycle);
    case BRK => end := StagedBrk(cpu, st, mode, cycle);
    case _ => end := OtherCall(cpu, st, op, mode, cycle);
  }

  // The handlers that are modelled as functions only.
  method OtherCall<M>(cpu: Processor<M>, st: Statics, op: Op, mode: Mode, cycle: nat) returns (end: bool)
    modifies cpu, st
    ensures Stepped(Now(cpu, st), end) == Step(cpu.bus, op, mode, cycle, old(Now(cpu, st)))
  {
    hide Step;
    var s := Step(cpu.bus, op, mode, cycle, Cpu(cpu.View(), st.View()));
    cpu.Load(s.c.k);
    st.Load(s.c.l);
    end := s.ended;
  }

  // ---- Static handlers -----------------------------------------------------

  method FetchAddr<M>(cpu: Processor<M>) returns (a: word)
    modifies cpu`memory, cpu`PC
    ensures cpu.View() == FetchWord(cpu.bus, old(cpu.View())).k && a == FetchWord(cpu.bus, old(cpu.View())).addr
  {
    a := cpu.FetchByte();
    var hi := cpu.FetchByte();
    a := OrHigh(a, hi);
  }

  method ReadPointer<M>(cpu: Processor<M>, zp: byte) returns (a: word)
    modifies cpu`memory
    ensures cpu.View() == PointerAt(cpu.bus, old(cpu.View()), zp).k && a == PointerAt(cpu.bus, old(cpu.View()), zp).addr
  {
    a := cpu.ReadAddr(zp);
    var hi := cpu.ReadAddr(Inc8(zp));
    a := OrHigh(a, hi);
  }

  method EffectiveAddr<M>(cpu: Processor<M>, mode: Mode) returns (a: word, crossed: bool)
    modifies cpu`memory, cpu`PC
    ensures Ea(a, cpu.View(), crossed) == Address(cpu.bus, mode, old(cpu.View()))
  {
    crossed := false;
    match mode
    case ZeroPage => a := cpu.FetchByte();
    case ZeroPageX => var zp := cpu.FetchByte(); a := Add8(zp, cpu.X);
    case ZeroPageY => var zp := cpu.FetchByte(); a := Add8(zp, cpu.Y);
    case AbsoluteX => a := FetchAddr(cpu); a, crossed := Index(a, cpu.X);
    case AbsoluteY => a := FetchAddr(cpu); a, crossed := Index(a, cpu.Y);
    case IndexedIndirect => var zp := cpu.FetchByte(); a := ReadPointer(cpu, Add8(zp, cpu.X));
    case IndirectIndexed => var zp := cpu.FetchByte(); a := ReadPointer(cpu, zp); a, crossed := Index(a, cpu.Y);
    case _ => a := FetchAddr(cpu);
  }

  method Index(preIndex: word, index: byte) returns (a: word, crossed: bool)
    ensures a == Add16(preIndex, index) && crossed == !SamePage(preIndex, a)
  {
    a := Add16(preIndex, index);
    crossed := !SamePage(preIndex, a);
  }

  // `unset` is the address the absolute indexed modes of AND, ORA, EOR, ADC and SBC
  // read instead of the one they computed.
  method ReadOperand<M>(cpu: Processor<M>, mode: Mode, unset: Option<byte>) returns (v: byte, cycles: nat)
    modifies cpu`memory, cpu`PC
    ensures Got(v, cpu.View(), cycles) == Operand(cpu.bus, mode, old(cpu.View()), unset)
  {
    if mode.Immediate? {
      v := cpu.FetchByte();
      cycles := 1;
    } else {
      var a, crossed := EffectiveAddr(cpu, mode);
      if unset.Some? && (mode.AbsoluteX? || mode.AbsoluteY?) { a := unset.value; }
      v := cpu.ReadAddr(a);
      cycles := ReadCycles(mode, crossed);
    }
  }

  method StaticAnd<M>(cpu: Processor<M>, mode: Mode, u: Unset) returns (cycles: nat)
    modifies cpu`memory, cpu`PC, cpu`A, cpu`SR
    ensures Ran(cpu.View(), cycles) == Run(cpu.bus, Reading(AND), mode, old(cpu.View()), u)
  {
    var v;
    v, cycles := ReadOperand(cpu, mode, Some(u.addr8));
    cpu.A := And8(cpu.A, v);
    cpu.SR := SetNZ(cpu.SR, cpu.A);
  }

  method StaticLda<M>(cpu: Processor<M>, mode: Mode, u: Unset) returns (cycles: nat)
    modifies cpu`memory, cpu`PC, cpu`A, cpu`SR
    ensures Ran(cpu.View(), cycles) == Run(cpu.bus, Reading(LDA), mode, old(cpu.View()), u)
  {
    cpu.A, cycles := ReadOperand(cpu, mode, None);
    cpu.SR := SetNZ(cpu.SR, cpu.A);
  }

  method StaticSta<M>(cpu: Processor<M>, mode: Mode, u: Unset) returns (cycles: nat)
    modifies cpu`memory, cpu`PC
    ensures Ran(cpu.View(), cycles) == Run(cpu.bus, Storing(STA), mode, old(cpu.View()), u)
  {
    var a, _ := EffectiveAddr(cpu, mode);
    cpu.WriteAddr(a, cpu.A);
    cycles := WriteCycles(mode);
  }

  method StaticInc<M>(cpu: Processor<M>, mode: Mode, u: Unset) returns (cycles: nat)
    modifies cpu`memory, cpu`PC, cpu`SR
    ensures Ran(cpu.View(), cycles) == Run(cpu.bus, Bumping(INC), mode, old(cpu.View()), u)
  {
    var a, _ := EffectiveAddr(cpu, mode);
    var v := cpu.ReadAddr(a);
    v := Inc8(v);
    cpu.WriteAddr(a, v);
    cpu.SR := SetNZ(cpu.SR, v);
    cycles := ModifyCycles(mode);
  }

  method StaticJmp<M>(cpu: Processor<M>, mode: Mode, u: Unset) returns (cycles: nat)
    modifies cpu`memory, cpu`PC
    ensures Ran(cpu.View(), cycles) == Run(cpu.bus, Control(JMP), mode, old(cpu.View()), u)
  {
    var a := FetchAddr(cpu);
    cycles := 2;
    if mode.Absolute? {
      cpu.PC := a;
    } else {
      JumpIndirect(cpu, a);
      cycles := 4;
    }
  }

  method JumpIndirect<M>(cpu: Processor<M>, a: word)
    modifies cpu`memory, cpu`PC
    ensures var lo := Read(cpu.bus, old(cpu.View()), a);
            var hi := Read(cpu.bus, lo.k, PageRoll(a));
            cpu.View() == WithPc(hi.k, OrHigh(lo.v, hi.v))
  {
    var lo := cpu.ReadAddr(a);
    var hi := cpu.ReadAddr(if Lo(a) == 0xFF then a - 0xFF else a + 1);
    cpu.PC := OrHigh(lo, hi);
  }

  method PushPC<M>(cpu: Processor<M>)
    modifies cpu`memory, cpu`SP
    ensures cpu.View() == PushPc(cpu.bus, old(cpu.View()))
  {
    cpu.PushByte(Hi(cpu.PC));
    cpu.PushByte(Lo(cpu.PC));
  }

  method PullPC<M>(cpu: Processor<M>)
    modifies cpu`memory, cpu`SP, cpu`PC
    ensures cpu.View() == PullPc(cpu.bus, old(cpu.View()))
  {
    var lo := cpu.PopByte();
    var hi := cpu.PopByte();
    cpu.PC := OrHigh(lo, hi);
  }

  method StaticJsr<M>(cpu: Processor<M>, mode: Mode, u: Unset) returns (cycles: nat)
    modifies cpu`memory, cpu`PC, cpu`SP
    ensures Ran(cpu.View(), cycles) == Run(cpu.bus, Control(JSR), mode, old(cpu.View()), u)
  {
    var a := FetchAddr(cpu);
    PushPC(cpu);
    cpu.PC := a;
    cycles := 5;
  }

  method StaticRts<M>(cpu: Processor<M>, mode: Mode, u: Unset) returns (cycles: nat)
    modifies cpu`memory, cpu`PC, cpu`SP
    ensures Ran(cpu.View(), cycles) == Run(cpu.bus, Control(RTS), mode, old(cpu.View()), u)
  {
    PullPC(cpu);
    cycles := 5;
  }

  method StaticRti<M>(cpu: Processor<M>, mode: Mode, u: Unset) returns (cycles: nat)
    modifies cpu`memory, cpu`PC, cpu`SP, cpu`SR
    ensures Ran(cpu.View(), cycles) == Run(cpu.bus, Control(RTI), mode, old(cpu.View()), u)
  {
    var v := cpu.PopByte();
    cpu.SR := Unpack(v).(B := false, IGN := false);
    PullPC(cpu);
    cycles := 5;
  }

  method LoadVector<M>(cpu: Processor<M>, v: word)
    requires v < 0xFFFF
    modifies cpu`memory, cpu`PC
    ensures cpu.View() == Vector(cpu.bus, old(cpu.View()), v)
  {
    var lo := cpu.ReadAddr(v);
    var hi := cpu.ReadAddr(v + 1);
    cpu.PC := OrHigh(lo, hi);
  }

  method StaticBrk<M>(cpu: Processor<M>, mode: Mode, u: Unset) returns (cycles: nat)
    modifies cpu`memory, cpu`PC, cpu`SP, cpu`SR
    ensures Ran(cpu.View(), cycles) == Run(cpu.bus, BRK, mode, old(cpu.View()), u)
  {
    var _ := cpu.FetchByte();
    PushPC(cpu);
    cpu.PushByte(Pack(cpu.SR.(B := true)));
    cpu.SR := cpu.SR.(I := true);
    LoadVector(cpu, NMI_VECTOR);
    cycles := 6;
  }

  method StaticNmi<M>(cpu: Processor<M>, mode: Mode, u: Unset) returns (cycles: nat)
    modifies cpu`memory, cpu`PC, cpu`SP, cpu`SR
    ensures Ran(cpu.View(), cycles) == Run(cpu.bus, Control(NMI), mode, old(cpu.View()), u)
  {
    PushPC(cpu);
    cpu.PushByte(Pack(cpu.SR));
    cpu.SR := cpu.SR.(I := true);
    LoadVector(cpu, NMI_VECTOR);
    cycles := 5;
  }

  // ADC and SBC add their flags to whatever `flag_bits` held.
  method StaticAdc<M>(cpu: Processor<M>, mode: Mode, u: Unset) returns (cycles: nat)
    modifies cpu`memory, cpu`PC, cpu`A, cpu`SR
    ensures Ran(cpu.View(), cycles) == Run(cpu.bus, Adding(ADC), mode, old(cpu.View()), u)
  {
    hide OnAddend;
    var bcd, v := cpu.SR.D, 0;
    v, cycles := ReadOperand(cpu, mode, Some(u.addr8));
    AddOperand(cpu, bcd, v);
    OrFlags(cpu, u.flags);
  }

  method StaticSbc<M>(cpu: Processor<M>, mode: Mode, u: Unset) returns (cycles: nat)
    modifies cpu`memory, cpu`PC, cpu`A, cpu`SR
    ensures Ran(cpu.View(), cycles) == Run(cpu.bus, Adding(SBC), mode, old(cpu.View()), u)
  {
    hide OnAddend;
    var bcd, v := cpu.SR.D, 0;
    v, cycles := ReadOperand(cpu, mode, Some(u.addr8));
    var no: word := 0xFFFF - (v as int);
    SubtractOperand(cpu, bcd, no);
    OrFlags(cpu, u.flags);
  }

  method OrFlags<M>(cpu: Processor<M>, u: Status)
    modifies cpu`SR
    ensures cpu.View() == old(cpu.View()).(r := OrUnset(old(cpu.View().r), u))
  {
    cpu.SR := OrStatus(cpu.SR, u);
  }

  // A call through the static handler of a dispatch record.
  method CallStatic<M>(cpu: Processor<M>, op: Op, mode: Mode, u: Unset) returns (cycles: nat)
    modifies cpu
    ensures Ran(cpu.View(), cycles) == Run(cpu.bus, op, mode, old(cpu.View()), u)
  {
    hide Run;
    match op
    case Reading(AND) => cycles := StaticAnd(cpu, mode, u);
    case Reading(LDA) => cycles := StaticLda(cpu, mode, u);
    case Adding(ADC) => cycles := StaticAdc(cpu, mode, u);
    case Adding(SBC) => cycles := StaticSbc(cpu, mode, u);
    case Storing(STA) => cycles := StaticSta(cpu, mode, u);
    case Bumping(INC) => cycles := StaticInc(cpu, mode, u);
    case Control(JMP) => cycles := StaticJmp(cpu, mode, u);
    case Control(JSR) => cycles := StaticJsr(cpu, mode, u);
    case Control(RTS) => cycles := StaticRts(cpu, mode, u);
    case Control(RTI) => cycles := StaticRti(cpu, mode, u);
    case Control(NMI) => cycles := StaticNmi(cpu, mode, u);
    case BRK => cycles := StaticBrk(cpu, mode, u);
    case _ =>
      var s := Run(cpu.bus, op, mode, cpu.View(), u);
      cpu.Load(s.k);
      cycles := s.cycles;
  }
}
