// What instructions do once their operand is at hand. The staged and the static
// handlers of an instruction share these effects and differ in how they get
// there: when and in which order they use the bus.
module Operate {
  import opened Words
  import opened Registers
  import opened Isa
  import Alu

  function OnOperand(op: ReadOp, o: byte, r: Regs): Regs {
    match op
    case AND => LoadA(r, And8(r.A, o))
    case ORA => LoadA(r, Or8(r.A, o))
    case EOR => LoadA(r, Xor8(r.A, o))
    case LDA => LoadA(r, o)
    case LDX => r.(X := o, SR := SetNZ(r.SR, o))
    case LDY => r.(Y := o, SR := SetNZ(r.SR, o))
    case CMP => r.(SR := Compare(r.SR, r.A, o))
    case CPX => r.(SR := Compare(r.SR, r.X, o))
    case CPY => r.(SR := Compare(r.SR, r.Y, o))
    case BIT => r.(SR := r.SR.(V := o / 0x40 % 2 == 1, N := o >= 0x80, Z := And8(r.A, o) == 0))
  }

  function LoadA(r: Regs, v: byte): Regs { r.(A := v, SR := SetNZ(r.SR, v)) }

  function OnAddend(op: AddOp, bcd: bool, o: byte, r: Regs): Regs {
    match op
    case ADC => WithAlu(r, Alu.Adc(bcd, r.A, o, r.SR.C))
    case SBC => WithAlu(r, Alu.Sbc(bcd, r.A, o, r.SR.C))
  }

  function WithAlu(r: Regs, s: Alu.AluOut): Regs {
    r.(A := s.a, SR := r.SR.(C := s.c, Z := s.z, V := s.v, N := s.n))
  }

  // N is set exactly when the register is the smaller one, as this program has it.
  function Compare(s: Status, reg: byte, o: byte): Status {
    if reg > o then s.(C := true, Z := false, N := false)
    else if reg == o then s.(C := true, Z := true, N := false)
    else s.(C := false, Z := false, N := true)
  }

  datatype Shifted = Shifted(v: word, c: bool)

  // One shift of a 16-bit operand holding a byte, with the carry it produces.
  function ShiftOnce(op: ShiftOp, o: word, c: bool): Shifted {
    match op
    case ASL => ShiftLeft(o, 0)
    case ROL => ShiftLeft(o, Bit(c))
    case LSR => Shifted(o / 2, o % 2 == 1)
    case ROR => Shifted(Or8(Lo(o / 2), 0x80 * Bit(c)), o % 2 == 1)
  }

  function ShiftLeft(o: word, low: byte): Shifted
    requires low <= 1
  {
    var d := 2 * o + low;
    var w: word := if d < 0x1_0000 then d else d - 0x1_0000;
    Shifted(w, w >= 0x100)
  }

  function ShiftA(op: ShiftOp, r: Regs): Regs {
    var s := ShiftOnce(op, r.A, r.SR.C);
    r.(A := Lo(s.v), SR := SetNZC(r.SR, Lo(s.v), s.c))
  }

  function Bumped(op: BumpOp, o: byte): byte { if op.INC? then Inc8(o) else Dec8(o) }

  // Which register a store instruction writes.
  function Stored(op: StoreOp, r: Regs): byte {
    match op
    case STX => r.X
    case STY => r.Y
    case STA => r.A
  }

  function OneByte(op: InherentOp, r: Regs): Regs {
    var s := r.SR;
    match op
    case CLC => r.(SR := s.(C := false))
    case CLD => r.(SR := s.(D := false))
    case CLI => r.(SR := s.(I := false))
    case CLV => r.(SR := s.(V := false))
    case SEC => r.(SR := s.(C := true))
    case SED => r.(SR := s.(D := true))
    case SEI => r.(SR := s.(I := true))
    case TAX => r.(X := r.A, SR := SetNZ(s, r.A))
    case TAY => r.(Y := r.A, SR := SetNZ(s, r.A))
    case TSX => r.(X := r.SP, SR := SetNZ(s, r.SP))
    case TXA => r.(A := r.X, SR := SetNZ(s, r.X))
    case TYA => r.(A := r.Y, SR := SetNZ(s, r.Y))
    case TXS => r.(SP := r.X)
    case DEX => r.(X := Dec8(r.X), SR := SetNZ(s, Dec8(r.X)))
    case DEY => r.(Y := Dec8(r.Y), SR := SetNZ(s, Dec8(r.Y)))
    case INX => r.(X := Inc8(r.X), SR := SetNZ(s, Inc8(r.X)))
    case INY => r.(Y := Inc8(r.Y), SR := SetNZ(s, Inc8(r.Y)))
    case NOP => r
  }
}
