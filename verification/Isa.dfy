// The base dialect's dispatch table: which handler and addressing mode each
// opcode byte aaabbbcc selects, and how many operand bytes each mode takes.
module Isa {
  import opened Words
  import opened Registers

  datatype ReadOp = AND | BIT | CMP | CPX | CPY | EOR | LDA | LDX | LDY | ORA

  datatype AddOp = ADC | SBC

  datatype StoreOp = STA | STX | STY

  datatype BumpOp = INC | DEC

  datatype ShiftOp = ASL | LSR | ROL | ROR

  datatype BranchOp = BCC | BCS | BEQ | BMI | BNE | BPL | BVC | BVS

  datatype InherentOp =
    | CLC | CLD | CLI | CLV | SEC | SED | SEI | NOP
    | TAX | TAY | TSX | TXA | TXS | TYA | DEX | DEY | INX | INY

  datatype ControlOp = JMP | JSR | RTS | RTI | PHA | PHP | PLA | PLP | IRQ | NMI

  // The handlers, grouped by how they use their operand: read it, add or
  // subtract it, store to it,
  // increment or decrement it, shift it; branches; one-call register and flag
  // instructions; jumps, stack instructions and interrupt entries; and BRK, whose first
  // call uses the bus twice.
  datatype Op =
    | Reading(read: ReadOp)
    | Adding(add: AddOp)
    | Storing(store: StoreOp)
    | Bumping(bump: BumpOp)
    | Shifting(shift: ShiftOp)
    | Branching(branch: BranchOp)
    | Inherent(inherent: InherentOp)
    | Control(control: ControlOp)
    | BRK

  datatype Mode =
    | Accumulator | Absolute | AbsoluteX | AbsoluteY | Immediate | Implied | Indirect
    | IndexedIndirect | IndirectIndexed | Relative | ZeroPage | ZeroPageX | ZeroPageY

  // Block cc = 3 is never initialised: its slots hold a null handler and mode 0,
  // so they are not recognised as unused.
  datatype Slot = Slot(op: Op, mode: Mode) | Unused | ZeroFilled

  function Decode(opcode: byte): Slot {
    var a, b, c := opcode / 0x20, opcode / 4 % 8, opcode % 4;
    if c == 0 then Block0(a, b) else if c == 1 then Block1(a, b) else if c == 2 then Block2(a, b) else ZeroFilled
  }

  function Block0(a: nat, b: nat): Slot {
    match (a, b)
    case (0, 0) => Slot(BRK, Implied)
    case (0, 2) => Slot(Control(PHP), Implied)
    case (0, 4) => Slot(Branching(BPL), Relative)
    case (0, 6) => Slot(Inherent(CLC), Implied)
    case (1, 0) => Slot(Control(JSR), Absolute)
    case (1, 1) => Slot(Reading(BIT), ZeroPage)
    case (1, 2) => Slot(Control(PLP), Implied)
    case (1, 3) => Slot(Reading(BIT), Absolute)
    case (1, 4) => Slot(Branching(BMI), Relative)
    case (1, 6) => Slot(Inherent(SEC), Implied)
    case (2, 0) => Slot(Control(RTI), Implied)
    case (2, 2) => Slot(Control(PHA), Implied)
    case (2, 3) => Slot(Control(JMP), Absolute)
    case (2, 4) => Slot(Branching(BVC), Relative)
    case (2, 6) => Slot(Inherent(CLI), Implied)
    case (3, 0) => Slot(Control(RTS), Implied)
    case (3, 2) => Slot(Control(PLA), Implied)
    case (3, 3) => Slot(Control(JMP), Indirect)
    case (3, 4) => Slot(Branching(BVS), Relative)
    case (3, 6) => Slot(Inherent(SEI), Implied)
    case (4, 1) => Slot(Storing(STY), ZeroPage)
    case (4, 2) => Slot(Inherent(DEY), Implied)
    case (4, 3) => Slot(Storing(STY), Absolute)
    case (4, 4) => Slot(Branching(BCC), Relative)
    case (4, 5) => Slot(Storing(STY), ZeroPageX)
    case (4, 6) => Slot(Inherent(TYA), Implied)
    case (5, 0) => Slot(Reading(LDY), Immediate)
    case (5, 1) => Slot(Reading(LDY), ZeroPage)
    case (5, 2) => Slot(Inherent(TAY), Implied)
    case (5, 3) => Slot(Reading(LDY), Absolute)
    case (5, 4) => Slot(Branching(BCS), Relative)
    case (5, 5) => Slot(Reading(LDY), ZeroPageX)
    case (5, 6) => Slot(Inherent(CLV), Implied)
    case (5, 7) => Slot(Reading(LDY), AbsoluteX)
    case (6, 0) => Slot(Reading(CPY), Immediate)
    case (6, 1) => Slot(Reading(CPY), ZeroPage)
    case (6, 2) => Slot(Inherent(INY), Implied)
    case (6, 3) => Slot(Reading(CPY), Absolute)
    case (6, 4) => Slot(Branching(BNE), Relative)
    case (6, 6) => Slot(Inherent(CLD), Implied)
    case (7, 0) => Slot(Reading(CPX), Immediate)
    case (7, 1) => Slot(Reading(CPX), ZeroPage)
    case (7, 2) => Slot(Inherent(INX), Implied)
    case (7, 3) => Slot(Reading(CPX), Absolute)
    case (7, 4) => Slot(Branching(BEQ), Relative)
    case (7, 6) => Slot(Inherent(SED), Implied)
    case _ => Unused
  }

  function Block1(a: nat, b: nat): Slot {
    var op := match a
      case 0 => Reading(ORA)
      case 1 => Reading(AND)
      case 2 => Reading(EOR)
      case 3 => Adding(ADC)
      case 4 => Storing(STA)
      case 5 => Reading(LDA)
      case 6 => Reading(CMP)
      case _ => Adding(SBC);
    match b
    case 0 => Slot(op, IndexedIndirect)
    case 1 => Slot(op, ZeroPage)
    case 2 => if op.Storing? then Unused else Slot(op, Immediate)
    case 3 => Slot(op, Absolute)
    case 4 => Slot(op, IndirectIndexed)
    case 5 => Slot(op, ZeroPageX)
    case 6 => Slot(op, AbsoluteY)
    case _ => Slot(op, AbsoluteX)
  }

  function Block2(a: nat, b: nat): Slot {
    match (a, b)
    case (4, 1) => Slot(Storing(STX), ZeroPage)
    case (4, 2) => Slot(Inherent(TXA), Implied)
    case (4, 3) => Slot(Storing(STX), Absolute)
    case (4, 5) => Slot(Storing(STX), ZeroPageY)
    case (4, 6) => Slot(Inherent(TXS), Implied)
    case (4, _) => Unused
    case (5, 0) => Slot(Reading(LDX), Immediate)
    case (5, 1) => Slot(Reading(LDX), ZeroPage)
    case (5, 2) => Slot(Inherent(TAX), Implied)
    case (5, 3) => Slot(Reading(LDX), Absolute)
    case (5, 5) => Slot(Reading(LDX), ZeroPageY)
    case (5, 6) => Slot(Inherent(TSX), Implied)
    case (5, 7) => Slot(Reading(LDX), AbsoluteY)
    case (5, _) => Unused
    case (6, 2) => Slot(Inherent(DEX), Implied)
    case (7, 2) => Slot(Inherent(NOP), Implied)
    case (_, 1) => Slot(Modifier(a), ZeroPage)
    case (_, 2) => Slot(Modifier(a), Accumulator)
    case (_, 3) => Slot(Modifier(a), Absolute)
    case (_, 5) => Slot(Modifier(a), ZeroPageX)
    case (_, 7) => Slot(Modifier(a), AbsoluteX)
    case _ => Unused
  }

  function Modifier(a: nat): Op {
    match a
    case 0 => Shifting(ASL)
    case 1 => Shifting(ROL)
    case 2 => Shifting(LSR)
    case 3 => Shifting(ROR)
    case 6 => Bumping(DEC)
    case _ => Bumping(INC)
  }

  // isa_6502_addressing_operand_counts
  function Operands(mode: Mode): nat {
    match mode
    case Accumulator => 0
    case Implied => 0
    case Absolute => 2
    case AbsoluteX => 2
    case AbsoluteY => 2
    case Indirect => 2
    case _ => 1
  }

  predicate Taken(op: BranchOp, s: Status) {
    match op
    case BCC => !s.C
    case BCS => s.C
    case BNE => !s.Z
    case BEQ => s.Z
    case BPL => !s.N
    case BMI => s.N
    case BVC => !s.V
    case BVS => s.V
  }

  predicate IsLogic(op: ReadOp) { op.AND? || op.ORA? || op.EOR? }
}
