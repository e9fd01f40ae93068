// The register file and the bus as objects updated in place, and the operations
// every handler is written with.
module Processor {
  import opened Words
  import opened Registers
  import opened Bus
  import opened Isa
  import opened Staged

  // The static locals of one staged handler.
  class Statics {
    var addr16: word
    var addr8: byte
    var operand: word
    var sr: Status
    var penultimate: bool
    var bcd: bool
    var operandSet: bool       // of the 65C02 handlers only

    // The locals of the base handlers.
    function View(): Latch
      reads this
    {
      Latch(addr16, addr8, operand, sr, penultimate, bcd)
    }

    constructor ()
      ensures View() == Latch(0, 0, 0, CLEAR, false, false) && !operandSet
    {
      addr16, addr8, operand, sr, penultimate, bcd, operandSet := 0, 0, 0, CLEAR, false, false, false;
    }

    method Load(l: Latch)
      modifies this`addr16, this`addr8, this`operand, this`sr, this`penultimate, this`bcd
      ensures View() == l
    {
      addr16, addr8, operand, sr, penultimate, bcd := l.addr16, l.addr8, l.operand, l.sr, l.penultimate, l.bcd;
    }
  }

  class Processor<!M> {
    const bus: BusOps<M>
    var memory: M
    var A: byte
    var X: byte
    var Y: byte
    var SP: byte
    var PC: word
    var SR: Status

    function View(): Core<M>
      reads this
    {
      Core(Regs(A, X, Y, SP, PC, SR), memory)
    }

    constructor (bus: BusOps<M>, memory: M)
      ensures this.bus == bus && View() == Core(Regs(0, 0, 0, 0, 0xFFFC, CLEAR), memory)
    {
      this.bus, this.memory := bus, memory;
      A, X, Y, SP, PC, SR := 0, 0, 0, 0, 0xFFFC, CLEAR;
    }

    method Load(k: Core<M>)
      modifies this
      ensures View() == k
    {
      A, X, Y, SP, PC, SR, memory := k.r.A, k.r.X, k.r.Y, k.r.SP, k.r.PC, k.r.SR, k.m;
    }

    method ReadAddr(a: word) returns (v: byte)
      modifies this`memory
      ensures View() == Read(bus, old(View()), a).k && v == Read(bus, old(View()), a).v
    {
      v := bus.peek(memory, a);
      memory := bus.afterRead(memory, a);
    }

    method WriteAddr(a: word, v: byte)
      modifies this`memory
      ensures View() == Write(bus, old(View()), a, v)
    {
      memory := bus.afterWrite(memory, a, v);
    }

    method FetchByte() returns (v: byte)
      modifies this`memory, this`PC
      ensures View() == Fetch(bus, old(View())).k && v == Fetch(bus, old(View())).v
    {
      v := ReadAddr(PC);
      PC := Inc16(PC);
    }

    method PushByte(v: byte)
      modifies this`memory, this`SP
      ensures View() == Bus.PushByte(bus, old(View()), v)
    {
      WriteAddr(0x100 + SP, v);
      SP := Dec8(SP);
    }

    method PopByte() returns (v: byte)
      modifies this`memory, this`SP
      ensures View() == Bus.PopByte(bus, old(View())).k && v == Bus.PopByte(bus, old(View())).v
    {
      SP := Inc8(SP);
      v := ReadAddr(0x100 + SP);
    }
  }

  // Processor and static locals as one value.
  ghost function Now<M>(cpu: Processor<M>, st: Statics): Cpu<M>
    reads cpu, st
  {
    Cpu(cpu.View(), st.View())
  }

  // A call without a case of its own.
  lemma Rests<M>(bus: BusOps<M>, c: Cpu<M>)
    ensures Perform(bus, Rest(false), c) == Stepped(c, false) && Perform(bus, Rest(true), c) == Stepped(c, true)
    ensures PerformControl(bus, Pause(false), c) == Stepped(c, false)
    ensures PerformControl(bus, Pause(true), c) == Stepped(c, true)
  {
  }

  // ---- What a case of a handler's switch does ------------------------------

  method FetchOperand<M>(cpu: Processor<M>, st: Statics)
    modifies cpu`memory, cpu`PC, st`operand
    ensures Stepped(Now(cpu, st), true) == Perform(cpu.bus, Imm, old(Now(cpu, st))) && st.operand < 0x100
  {
    st.operand := cpu.FetchByte();
  }

  method FetchZp<M>(cpu: Processor<M>, st: Statics)
    modifies cpu`memory, cpu`PC, st`addr8
    ensures Stepped(Now(cpu, st), false) == Perform(cpu.bus, ZpFetch(false), old(Now(cpu, st)))
  {
    st.addr8 := cpu.FetchByte();
  }

  method FetchLo<M>(cpu: Processor<M>, st: Statics)
    modifies cpu`memory, cpu`PC, st`addr16
    ensures Stepped(Now(cpu, st), false) == Perform(cpu.bus, LoFetch, old(Now(cpu, st)))
  {
    st.addr16 := cpu.FetchByte();
  }

  method FetchHi<M>(cpu: Processor<M>, st: Statics)
    modifies cpu`memory, cpu`PC, st`addr16
    ensures Stepped(Now(cpu, st), false) == Perform(cpu.bus, HiFetch, old(Now(cpu, st)))
  {
    var hi := cpu.FetchByte();
    st.addr16 := OrHigh(st.addr16, hi);
  }

  method IndexZp<M>(cpu: Processor<M>, st: Statics, y: bool)
    modifies st`addr8
    ensures Stepped(Now(cpu, st), false) == Perform(cpu.bus, ZpPlus(y), old(Now(cpu, st)))
  {
    st.addr8 := Add8(st.addr8, if y then cpu.Y else cpu.X);
  }

  method IndexAbs<M>(cpu: Processor<M>, st: Statics, y: bool)
    modifies st`addr16
    ensures Stepped(Now(cpu, st), false) == Perform(cpu.bus, AbsPlus(y), old(Now(cpu, st)))
  {
    st.addr16 := Add16(st.addr16, if y then cpu.Y else cpu.X);
  }

  // Reads at once, and ends, when indexing crosses no page.
  method IndexAbsAndRead<M>(cpu: Processor<M>, st: Statics, y: bool) returns (end: bool)
    modifies cpu`memory, st`addr16, st`operand
    ensures Stepped(Now(cpu, st), end) == Perform(cpu.bus, AbsPlusRead(y), old(Now(cpu, st)))
    ensures end ==> st.operand < 0x100
  {
    var preIndex := st.addr16;
    st.addr16 := Add16(preIndex, if y then cpu.Y else cpu.X);
    end := SamePage(preIndex, st.addr16);
    if end { st.operand := cpu.ReadAddr(st.addr16); }
  }

  method ReadZp<M>(cpu: Processor<M>, st: Statics)
    modifies cpu`memory, st`operand
    ensures Stepped(Now(cpu, st), true) == Perform(cpu.bus, ZpRead(true), old(Now(cpu, st))) && st.operand < 0x100
  {
    st.operand := cpu.ReadAddr(st.addr8);
  }

  method ReadZpMove<M>(cpu: Processor<M>, st: Statics)
    modifies cpu`memory, st`operand, st`addr16
    ensures Stepped(Now(cpu, st), false) == Perform(cpu.bus, ZpReadMove, old(Now(cpu, st)))
  {
    st.operand := cpu.ReadAddr(st.addr8);
    st.addr16 := st.addr8;
  }

  method ReadAbs<M>(cpu: Processor<M>, st: Statics, ghost last: bool := true)
    modifies cpu`memory, st`operand
    ensures Stepped(Now(cpu, st), last) == Perform(cpu.bus, AbsRead(last), old(Now(cpu, st))) && st.operand < 0x100
  {
    st.operand := cpu.ReadAddr(st.addr16);
  }

  method ReadPtrLo<M>(cpu: Processor<M>, st: Statics)
    modifies cpu`memory, st`addr16, st`addr8
    ensures Stepped(Now(cpu, st), false) == Perform(cpu.bus, PtrLo, old(Now(cpu, st)))
  {
    st.addr16 := cpu.ReadAddr(st.addr8);
    st.addr8 := Inc8(st.addr8);
  }

  method ReadPtrHi<M>(cpu: Processor<M>, st: Statics)
    modifies cpu`memory, st`addr16
    ensures Stepped(Now(cpu, st), false) == Perform(cpu.bus, PtrHi, old(Now(cpu, st)))
  {
    var hi := cpu.ReadAddr(st.addr8);
    st.addr16 := OrHigh(st.addr16, hi);
  }

  // The high byte without its shift.
  method ReadPtrOr<M>(cpu: Processor<M>, st: Statics)
    modifies cpu`memory, st`addr16
    ensures Stepped(Now(cpu, st), false) == Perform(cpu.bus, PtrOr, old(Now(cpu, st)))
  {
    var hi := cpu.ReadAddr(st.addr8);
    st.addr16 := OrLow(st.addr16, hi);
  }

  method MoveAddr<M>(cpu: Processor<M>, st: Statics)
    modifies st`addr16
    ensures Stepped(Now(cpu, st), true) == Perform(cpu.bus, Move, old(Now(cpu, st)))
  {
    st.addr16 := st.addr8;
  }

  method IncOperand<M>(cpu: Processor<M>, st: Statics)
    modifies st`operand
    ensures Stepped(Now(cpu, st), false) == Perform(cpu.bus, Micro.Bump(INC), old(Now(cpu, st)))
  {
    st.operand := Inc8(Lo(st.operand));
  }

  // ---- The same for jumps, calls and interrupts ----------------------------

  method FetchTargetLo<M>(cpu: Processor<M>, st: Statics)
    modifies cpu`memory, cpu`PC, st`addr16
    ensures Stepped(Now(cpu, st), false) == PerformControl(cpu.bus, TargetLo, old(Now(cpu, st)))
  {
    st.addr16 := cpu.FetchByte();
  }

  method FetchTargetHi<M>(cpu: Processor<M>, st: Statics, ghost last: bool)
    modifies cpu`memory, cpu`PC, st`addr16
    ensures Stepped(Now(cpu, st), last) == PerformControl(cpu.bus, TargetHi(last), old(Now(cpu, st)))
  {
    var hi := cpu.FetchByte();
    st.addr16 := OrHigh(st.addr16, hi);
  }

  method FetchDummy<M>(cpu: Processor<M>, st: Statics)
    modifies cpu`memory, cpu`PC, st`operand
    ensures Stepped(Now(cpu, st), false) == PerformControl(cpu.bus, Delta(false), old(Now(cpu, st)))
  {
    st.operand := cpu.FetchByte();
  }

  // The low byte of an indirect target; the address of its high byte stays on the
  // page.
  method ReadIndirectLo<M>(cpu: Processor<M>, st: Statics)
    modifies cpu`memory, st`operand, st`addr16
    ensures Stepped(Now(cpu, st), false) == PerformControl(cpu.bus, IndLo, old(Now(cpu, st)))
  {
    st.operand := cpu.ReadAddr(st.addr16);
    st.addr16 := if Lo(st.addr16) == 0xFF then st.addr16 - 0xFF else st.addr16 + 1;
  }

  method ReadIndirectHi<M>(cpu: Processor<M>, st: Statics)
    modifies cpu`memory, st`addr16
    ensures Stepped(Now(cpu, st), true) == PerformControl(cpu.bus, IndHi, old(Now(cpu, st)))
  {
    var hi := cpu.ReadAddr(st.addr16);
    st.addr16 := OrHigh(st.operand, hi);
  }

  method PushPcHigh<M>(cpu: Processor<M>, st: Statics)
    modifies cpu`memory, cpu`SP
    ensures Stepped(Now(cpu, st), false) == PerformControl(cpu.bus, PushPcHi, old(Now(cpu, st)))
  {
    cpu.PushByte(Hi(cpu.PC));
  }

  method PushPcLow<M>(cpu: Processor<M>, st: Statics)
    modifies cpu`memory, cpu`SP
    ensures Stepped(Now(cpu, st), false) == PerformControl(cpu.bus, PushPcLo, old(Now(cpu, st)))
  {
    cpu.PushByte(Lo(cpu.PC));
  }

  method PushBrkStatus<M>(cpu: Processor<M>, st: Statics)
    modifies cpu`memory, cpu`SP
    ensures Stepped(Now(cpu, st), false) == PerformControl(cpu.bus, PushBrk, old(Now(cpu, st)))
  {
    cpu.PushByte(Pack(cpu.SR.(B := true)));
  }

  method PushStatusAndInhibit<M>(cpu: Processor<M>, st: Statics)
    modifies cpu`memory, cpu`SP, cpu`SR
    ensures Stepped(Now(cpu, st), false) == PerformControl(cpu.bus, PushSr, old(Now(cpu, st)))
  {
    cpu.PushByte(Pack(cpu.SR));
    cpu.SR := cpu.SR.(I := true);
  }

  method Inhibit<M>(cpu: Processor<M>, st: Statics)
    modifies cpu`SR
    ensures Stepped(Now(cpu, st), false) == PerformControl(cpu.bus, SetI, old(Now(cpu, st)))
  {
    cpu.SR := cpu.SR.(I := true);
  }

  method ReadVectorLo<M>(cpu: Processor<M>, st: Statics, v: word)
    modifies cpu`memory, st`addr16
    ensures Stepped(Now(cpu, st), false) == PerformControl(cpu.bus, VecLo(v), old(Now(cpu, st)))
  {
    st.addr16 := cpu.ReadAddr(v);
  }

  method ReadVectorHi<M>(cpu: Processor<M>, st: Statics, v: word)
    requires v < 0xFFFF
    modifies cpu`memory, st`addr16
    ensures Stepped(Now(cpu, st), true) == PerformControl(cpu.bus, VecHi(v), old(Now(cpu, st)))
  {
    var hi := cpu.ReadAddr(v + 1);
    st.addr16 := OrHigh(st.addr16, hi);
  }

  method LoadPcLo<M>(cpu: Processor<M>, st: Statics)
    modifies cpu`memory, cpu`PC
    ensures Stepped(Now(cpu, st), false) == PerformControl(cpu.bus, VecPcLo, old(Now(cpu, st)))
  {
    cpu.PC := cpu.ReadAddr(NMI_VECTOR);
  }

  method LoadPcHi<M>(cpu: Processor<M>, st: Statics)
    modifies cpu`memory, cpu`PC
    ensures Stepped(Now(cpu, st), true) == PerformControl(cpu.bus, VecPcHi, old(Now(cpu, st)))
  {
    var hi := cpu.ReadAddr(NMI_VECTOR + 1);
    cpu.PC := OrHigh(cpu.PC, hi);
  }

  method PopAddrLo<M>(cpu: Processor<M>, st: Statics)
    modifies cpu`memory, cpu`SP, st`addr16
    ensures Stepped(Now(cpu, st), false) == PerformControl(cpu.bus, PopLo, old(Now(cpu, st)))
  {
    st.addr16 := cpu.PopByte();
  }

  method PopAddrHi<M>(cpu: Processor<M>, st: Statics)
    modifies cpu`memory, cpu`SP, st`addr16
    ensures Stepped(Now(cpu, st), false) == PerformControl(cpu.bus, PopHi, old(Now(cpu, st)))
  {
    var hi := cpu.PopByte();
    st.addr16 := OrHigh(st.addr16, hi);
  }

  method PopPcHi<M>(cpu: Processor<M>, st: Statics)
    modifies cpu`memory, cpu`SP, cpu`PC
    ensures Stepped(Now(cpu, st), true) == PerformControl(cpu.bus, PopPc, old(Now(cpu, st)))
  {
    var hi := cpu.PopByte();
    cpu.PC := OrHigh(st.addr16, hi);
  }

  method PopSr<M>(cpu: Processor<M>, st: Statics)
    modifies cpu`memory, cpu`SP, st`sr
    ensures Stepped(Now(cpu, st), false) == PerformControl(cpu.bus, PopStatus, old(Now(cpu, st)))
  {
    var v := cpu.PopByte();
    st.sr := Unpack(v);
  }

  method MaskSr<M>(cpu: Processor<M>, st: Statics)
    modifies st`sr
    ensures Stepped(Now(cpu, st), false) == PerformControl(cpu.bus, MaskStatus, old(Now(cpu, st)))
  {
    st.sr := st.sr.(B := false, IGN := false);
  }

  method SetSr<M>(cpu: Processor<M>, st: Statics)
    modifies cpu`SR
    ensures Stepped(Now(cpu, st), false) == PerformControl(cpu.bus, StatusToSr(false), old(Now(cpu, st)))
  {
    cpu.SR := st.sr;
  }
}
