// The opcode bytes, from the assembler's side: the byte that an instruction in a mode
// is written as. Decoding with the dispatch table and encoding undo each other.
module Opcodes {
  import opened Words
  import opened Wrappers
  import opened Registers
  import opened Bus
  import opened Isa
  import opened Effects
  import opened Executor
  import opened Launch
  import opened Disassembly

  // One row of eight: a base and a step of four for each mode in this order.
  function InRow(base: byte, mode: Mode): Option<byte>
    requires base <= 0xE2
  {
    match mode
    case IndexedIndirect => Some(base)
    case ZeroPage => Some(base + 0x04)
    case Immediate => Some(base + 0x08)
    case Absolute => Some(base + 0x0C)
    case IndirectIndexed => Some(base + 0x10)
    case ZeroPageX => Some(base + 0x14)
    case AbsoluteY => Some(base + 0x18)
    case AbsoluteX => Some(base + 0x1C)
    case _ => None
  }

  function ReadingCode(op: ReadOp, mode: Mode): Option<byte> {
    match op
    case ORA => InRow(0x01, mode)
    case AND => InRow(0x21, mode)
    case EOR => InRow(0x41, mode)
    case LDA => InRow(0xA1, mode)
    case CMP => InRow(0xC1, mode)
    case LDX =>
      if mode.Immediate? then Some(0xA2) else if mode.ZeroPage? then Some(0xA6) else if mode.Absolute? then Some(0xAE)
      else if mode.ZeroPageY? then Some(0xB6) else if mode.AbsoluteY? then Some(0xBE) else None
    case LDY =>
      if mode.Immediate? then Some(0xA0) else if mode.ZeroPage? then Some(0xA4) else if mode.Absolute? then Some(0xAC)
      else if mode.ZeroPageX? then Some(0xB4) else if mode.AbsoluteX? then Some(0xBC) else None
    case CPX =>
      if mode.Immediate? then Some(0xE0) else if mode.ZeroPage? then Some(0xE4)
      else if mode.Absolute? then Some(0xEC) else None
    case CPY =>
      if mode.Immediate? then Some(0xC0) else if mode.ZeroPage? then Some(0xC4)
      else if mode.Absolute? then Some(0xCC) else None
    case BIT => if mode.ZeroPage? then Some(0x24) else if mode.Absolute? then Some(0x2C) else None
  }

  function StoringCode(op: StoreOp, mode: Mode): Option<byte> {
    match op
    case STA => if mode.Immediate? then None else InRow(0x81, mode)
    case STX =>
      if mode.ZeroPage? then Some(0x86) else if mode.Absolute? then Some(0x8E)
      else if mode.ZeroPageY? then Some(0x96) else None
    case STY =>
      if mode.ZeroPage? then Some(0x84) else if mode.Absolute? then Some(0x8C)
      else if mode.ZeroPageX? then Some(0x94) else None
  }

  // Shifts, DEC and INC; only shifts work on the accumulator.
  function ModifyingCode(base: byte, mode: Mode, accumulator: bool): Option<byte>
    requires base <= 0xE2
  {
    match mode
    case ZeroPage => Some(base + 0x04)
    case Accumulator => if accumulator then Some(base + 0x08) else None
    case Absolute => Some(base + 0x0C)
    case ZeroPageX => Some(base + 0x14)
    case AbsoluteX => Some(base + 0x1C)
    case _ => None
  }

  function ShiftBase(op: ShiftOp): byte {
    match op case ASL => 0x02 case ROL => 0x22 case LSR => 0x42 case ROR => 0x62
  }

  function BranchCode(op: BranchOp): byte {
    match op
    case BPL => 0x10 case BMI => 0x30 case BVC => 0x50 case BVS => 0x70
    case BCC => 0x90 case BCS => 0xB0 case BNE => 0xD0 case BEQ => 0xF0
  }

  function InherentCode(op: InherentOp): byte {
    match op
    case CLC => 0x18 case SEC => 0x38 case CLI => 0x58 case SEI => 0x78
    case CLV => 0xB8 case CLD => 0xD8 case SED => 0xF8 case NOP => 0xEA
    case TAX => 0xAA case TXA => 0x8A case TAY => 0xA8 case TYA => 0x98
    case TSX => 0xBA case TXS => 0x9A
    case DEX => 0xCA case INX => 0xE8 case DEY => 0x88 case INY => 0xC8
  }

  function ControlCode(op: ControlOp, mode: Mode): Option<byte> {
    match op
    case JMP => if mode.Absolute? then Some(0x4C) else if mode.Indirect? then Some(0x6C) else None
    case JSR => if mode.Absolute? then Some(0x20) else None
    case RTS => if mode.Implied? then Some(0x60) else None
    case RTI => if mode.Implied? then Some(0x40) else None
    case PHA => if mode.Implied? then Some(0x48) else None
    case PHP => if mode.Implied? then Some(0x08) else None
    case PLA => if mode.Implied? then Some(0x68) else None
    case PLP => if mode.Implied? then Some(0x28) else None
    case _ => None
  }

  function Encode(op: Op, mode: Mode): Option<byte> {
    match op
    case Reading(o) => ReadingCode(o, mode)
    case Adding(o) => InRow(if o.ADC? then 0x61 else 0xE1, mode)
    case Storing(o) => StoringCode(o, mode)
    case Bumping(o) => ModifyingCode(if o.DEC? then 0xC2 else 0xE2, mode, false)
    case Shifting(o) => ModifyingCode(ShiftBase(o), mode, true)
    case Branching(o) => if mode.Relative? then Some(BranchCode(o)) else None
    case Inherent(o) => if mode.Implied? then Some(InherentCode(o)) else None
    case Control(o) => ControlCode(o, mode)
    case BRK => if mode.Implied? then Some(0x00) else None
  }

  // ---- From instruction to byte and back -----------------------------------

  ghost predicate Decodes(code: Option<byte>, op: Op, mode: Mode) {
    code.Some? ==> Decode(code.value) == Slot(op, mode)
  }

  // The fields of the byte aaabbbcc.
  lemma DecodeFields(a: nat, b: nat, c: nat)
    requires a < 8 && b < 8 && c < 3
    ensures Decode(0x20 * a + 4 * b + c)
            == if c == 0 then Block0(a, b) else if c == 1 then Block1(a, b) else Block2(a, b)
  {
    hide Block0, Block1, Block2;
    Fields(a, b, c);
  }

  lemma Fields(a: nat, b: nat, c: nat)
    requires a < 8 && b < 8 && c < 3
    ensures var code := 0x20 * a + 4 * b + c; code < 0x100 && code / 0x20 == a && code / 4 % 8 == b && code % 4 == c
  {
    var code := 0x20 * a + 4 * b + c;
    assert code / 4 == 8 * a + b;
  }

  lemma DecodeRow(op: ReadOp, mode: Mode)
    requires op.ORA? || op.AND? || op.EOR? || op.LDA? || op.CMP?
    ensures Decodes(ReadingCode(op, mode), Reading(op), mode)
  {
    hide Decode;
    var code := ReadingCode(op, mode);
    var a := if op.ORA? then 0 else if op.AND? then 1 else if op.EOR? then 2 else if op.LDA? then 5 else 6;
    if code.Some? {
      var b := (code.value - 0x20 * a) / 4;
      assert code.value == 0x20 * a + 4 * b + 1;
      DecodeFields(a, b, 1);
    }
  }

  lemma DecodeLoad(op: ReadOp, mode: Mode)
    requires op.LDX? || op.LDY?
    ensures Decodes(ReadingCode(op, mode), Reading(op), mode)
  {
  }

  lemma DecodeOther(op: ReadOp, mode: Mode)
    requires op.CPX? || op.CPY? || op.BIT?
    ensures Decodes(ReadingCode(op, mode), Reading(op), mode)
  {
  }

  lemma DecodeReading(op: ReadOp, mode: Mode)
    ensures Decodes(ReadingCode(op, mode), Reading(op), mode)
  {
    hide Decode, ReadingCode;
    if op.LDX? || op.LDY? { DecodeLoad(op, mode); }
    else if op.CPX? || op.CPY? || op.BIT? { DecodeOther(op, mode); }
    else { DecodeRow(op, mode); }
  }

  lemma DecodeStoring(op: StoreOp, mode: Mode)
    ensures Decodes(StoringCode(op, mode), Storing(op), mode)
  {
  }

  lemma DecodeShift(op: ShiftOp, mode: Mode)
    ensures Decodes(ModifyingCode(ShiftBase(op), mode, true), Shifting(op), mode)
  {
    hide Decode;
    var code := ModifyingCode(ShiftBase(op), mode, true);
    var a := if op.ASL? then 0 else if op.ROL? then 1 else if op.LSR? then 2 else 3;
    if code.Some? {
      var b := (code.value - 0x20 * a) / 4;
      assert code.value == 0x20 * a + 4 * b + 2;
      DecodeFields(a, b, 2);
    }
  }

  lemma DecodeBump(op: BumpOp, mode: Mode)
    ensures Decodes(Encode(Bumping(op), mode), Bumping(op), mode)
  {
    hide Decode;
    var code, a := Encode(Bumping(op), mode), if op.DEC? then 6 else 7;
    if code.Some? {
      var b := (code.value - 0x20 * a) / 4;
      assert code.value == 0x20 * a + 4 * b + 2;
      DecodeFields(a, b, 2);
    }
  }

  lemma DecodeBranch(op: BranchOp)
    ensures Decode(BranchCode(op)) == Slot(Branching(op), Relative)
  {
  }

  lemma DecodeFlag(op: InherentOp)
    requires SetsFlag(op) || op.NOP?
    ensures Decode(InherentCode(op)) == Slot(Inherent(op), Implied)
  {
  }

  lemma DecodeRegister(op: InherentOp)
    requires !SetsFlag(op) && !op.NOP?
    ensures Decode(InherentCode(op)) == Slot(Inherent(op), Implied)
  {
  }

  lemma DecodeInherent(op: InherentOp)
    ensures Decode(InherentCode(op)) == Slot(Inherent(op), Implied)
  {
    hide Decode, InherentCode;
    if SetsFlag(op) || op.NOP? { DecodeFlag(op); } else { DecodeRegister(op); }
  }

  lemma DecodeControl(op: ControlOp, mode: Mode)
    ensures Decodes(ControlCode(op, mode), Control(op), mode)
  {
  }

  lemma DecodeEncoded(op: Op, mode: Mode)
    ensures var code := Encode(op, mode); code.Some? ==> Decode(code.value) == Slot(op, mode)
  {
    hide Decode, ReadingCode, StoringCode, BranchCode, InherentCode, ControlCode, ModifyingCode, ShiftBase;
    match op
    case Reading(o) => DecodeReading(o, mode);
    case Adding(o) => DecodeAdding(o, mode);
    case Storing(o) => DecodeStoring(o, mode);
    case Bumping(o) => DecodeBump(o, mode);
    case Shifting(o) => DecodeShift(o, mode);
    case Branching(o) => DecodeBranch(o);
    case Inherent(o) => DecodeInherent(o);
    case Control(o) => DecodeControl(o, mode);
    case BRK => DecodeBrk();
  }

  lemma DecodeAdding(op: AddOp, mode: Mode)
    ensures Decodes(Encode(Adding(op), mode), Adding(op), mode)
  {
    hide Decode;
    var code, a := Encode(Adding(op), mode), if op.ADC? then 3 else 7;
    if code.Some? {
      var b := (code.value - 0x20 * a) / 4;
      assert code.value == 0x20 * a + 4 * b + 1;
      DecodeFields(a, b, 1);
    }
  }

  lemma DecodeBrk()
    ensures Decode(0x00) == Slot(BRK, Implied)
  {
  }

  lemma EncodeDecoded(code: byte)
    ensures var s := Decode(code); s.Slot? ==> Encode(s.op, s.mode) == Some(code)
  {
    var a, b, c := code / 0x20, code / 4 % 8, code % 4;
    assert code == 0x20 * a + 4 * b + c;
    if c == 0 { EncodeBlock0(a, b); } else if c == 1 { EncodeBlock1(a, b); } else if c == 2 { EncodeBlock2(a, b); }
  }

  lemma EncodeBlock0(a: nat, b: nat)
    requires a < 8 && b < 8
    ensures var s := Block0(a, b); s.Slot? ==> Encode(s.op, s.mode) == Some(0x20 * a + 4 * b)
  {
    hide Encode;
    if a < 4 { EncodeLowBlock0(a, b); } else { EncodeHighBlock0(a, b); }
  }

  lemma EncodeLowBlock0(a: nat, b: nat)
    requires a < 4 && b < 8
    ensures var s := Block0(a, b); s.Slot? ==> Encode(s.op, s.mode) == Some(0x20 * a + 4 * b)
  {
  }

  lemma EncodeHighBlock0(a: nat, b: nat)
    requires 4 <= a < 8 && b < 8
    ensures var s := Block0(a, b); s.Slot? ==> Encode(s.op, s.mode) == Some(0x20 * a + 4 * b)
  {
  }

  lemma EncodeBlock1(a: nat, b: nat)
    requires a < 8 && b < 8
    ensures var s := Block1(a, b); s.Slot? ==> Encode(s.op, s.mode) == Some(0x20 * a + 4 * b + 1)
  {
  }

  lemma EncodeBlock2(a: nat, b: nat)
    requires a < 8 && b < 8
    ensures var s := Block2(a, b); s.Slot? ==> Encode(s.op, s.mode) == Some(0x20 * a + 4 * b + 2)
  {
  }

  // Every slot of the table has its own byte: decoding loses nothing.
  lemma OneByteEach(x: byte, y: byte)
    requires Decode(x).Slot? && Decode(x) == Decode(y)
    ensures x == y
  {
    hide Decode, Encode;
    EncodeDecoded(x);
    EncodeDecoded(y);
  }

  ghost predicate IsInstruction(code: byte) { exists op: Op, mode: Mode :: Encode(op, mode) == Some(code) }

  // The bytes that no instruction is written as: the whole last block has empty slots
  // that are not marked as unused. All of them are lines of one byte.
  lemma NoInstruction(code: byte)
    ensures Decode(code).Slot? <==> IsInstruction(code)
    ensures Decode(code).ZeroFilled? <==> code % 4 == 3
    ensures !IsInstruction(code) ==> LineLength(code) == 1
  {
    hide Encode;
    EncodeDecoded(code);
    if IsInstruction(code) {
      var op: Op, mode: Mode :| Encode(op, mode) == Some(code);
      DecodeEncoded(op, mode);
    }
    LastBlock(code);
  }

  lemma LastBlock(code: byte)
    ensures Decode(code).ZeroFilled? <==> code % 4 == 3
  {
  }

  // Meeting such a byte ends a launch after its fetch: a call through a null pointer
  // in the last block, an orderly end elsewhere.
  lemma LaunchMeetsNone<M>(bus: BusOps<M>, x: Exec<M>, env: seq<Window>, junk: Stage)
    requires !x.dma.isIn
    ensures var t, code := Instruction(bus, x, env, junk), bus.peek(x.k.m, x.k.r.PC);
            var y := x.(k := Core(x.k.r.(PC := (x.k.r.PC + 1) % 0x1_0000), bus.afterRead(x.k.m, x.k.r.PC)),
                        total := x.total + 1);
            && (t.why == Illegal <==> !IsInstruction(code) && code % 4 != 3)
            && (t.why == NullHandler <==> code % 4 == 3)
            && (!IsInstruction(code) ==> t.x == y && t.env == env)
  {
    hide Decode, IsInstruction, InnerLoop, Service;
    NoInstruction(bus.peek(x.k.m, x.k.r.PC));
  }

  // The upper bits of a branch opcode name the flag and the value it looks for.
  lemma BranchCodeSaysWhen(code: byte, s: Status)
    requires Decode(code).Slot? && Decode(code).op.Branching?
    ensures code % 0x20 == 0x10
    ensures var place := match code / 0x40 case 0 => 7 case 1 => 6 case 2 => 0 case _ => 1;
            GoesBy(Decode(code).op.branch, s) <==> BitOf(Pack(s), place) == (code / 0x20 % 2 == 1)
  {
    hide Decode, Encode, BitOf, Pack;
    EncodeDecoded(code);
    EncodedBranch(Decode(code).op.branch, Decode(code).mode, code);
  }

  lemma EncodedBranch(op: BranchOp, mode: Mode, code: byte)
    requires Encode(Branching(op), mode) == Some(code)
    ensures code == BranchCode(op)
  {
  }
}
