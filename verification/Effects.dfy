// What the shared effects of the instructions mean, said without their bodies.
module Effects {
  import opened Words
  import opened Registers
  import opened Isa
  import opened Operate
  import opened Bits
  import Alu

  // With the carry as a ninth bit: left shifts double, right shifts halve.
  lemma ShiftsAreArithmetic(op: ShiftOp, r: Regs)
    ensures var s := ShiftA(op, r);
            match op
            case ASL => s.A + 0x100 * Bit(s.SR.C) == 2 * r.A
            case ROL => s.A + 0x100 * Bit(s.SR.C) == 2 * r.A + Bit(r.SR.C)
            case LSR => 2 * s.A + Bit(s.SR.C) == r.A
            case ROR => 2 * s.A + Bit(s.SR.C) == r.A + 0x100 * Bit(r.SR.C)
    ensures var s := ShiftA(op, r); (s.SR.Z <==> s.A == 0) && (s.SR.N <==> s.A >= 0x80)
  {
    hide Or8, Lo, SetNZC;
    ShiftFlags(op, r);
    match op
    case ASL => LeftShift(r.A, 0);
    case ROL => LeftShift(r.A, Bit(r.SR.C));
    case LSR => Halving(r.A);
    case ROR =>
      Halving(r.A);
      OrZero(r.A / 2);
      OrTopBit(r.A / 2);
      LowByte(ShiftOnce(ROR, r.A, r.SR.C).v);
  }

  lemma ShiftFlags(op: ShiftOp, r: Regs)
    ensures var s, o := ShiftA(op, r), ShiftOnce(op, r.A, r.SR.C);
            && s.A == Lo(o.v) && s.SR.C == o.c && (s.SR.Z <==> s.A == 0) && (s.SR.N <==> s.A >= 0x80)
  {
    hide ShiftOnce;
  }

  lemma LowByte(b: byte)
    ensures Lo(b) == b
  {
  }

  lemma LeftShift(a: byte, low: byte)
    requires low <= 1
    ensures var s := Operate.ShiftLeft(a, low); Lo(s.v) + 0x100 * Bit(s.c) == 2 * a + low
  {
  }

  lemma Halving(a: byte)
    ensures 2 * (a / 2) + Bit(a % 2 == 1) == a && a / 2 < 0x80 && Lo(a / 2) == a / 2
  {
  }

  // Rotating left and right undo each other, carry included.
  lemma RotatesUndo(r: Regs)
    ensures var s := ShiftA(ROR, ShiftA(ROL, r)); s.A == r.A && s.SR.C == r.SR.C
    ensures var s := ShiftA(ROL, ShiftA(ROR, r)); s.A == r.A && s.SR.C == r.SR.C
  {
    ShiftsAreArithmetic(ROL, r);
    ShiftsAreArithmetic(ROR, ShiftA(ROL, r));
    ShiftsAreArithmetic(ROR, r);
    ShiftsAreArithmetic(ROL, ShiftA(ROR, r));
  }

  // A comparison leaves the order of register and operand in the flags, and
  // everything else alone.
  lemma ComparesOrder(op: ReadOp, o: byte, r: Regs)
    requires op.CMP? || op.CPX? || op.CPY?
    ensures var s := OnOperand(op, o, r);
            var v := if op.CMP? then r.A else if op.CPX? then r.X else r.Y;
            && (s.SR.C <==> v >= o) && (s.SR.Z <==> v == o) && (s.SR.N <==> v < o)
            && s == r.(SR := r.SR.(C := s.SR.C, Z := s.SR.Z, N := s.SR.N))
  {
  }

  // ---- Reading instructions ------------------------------------------------

  predicate Bitwise(op: ReadOp, a: bool, b: bool) {
    match op
    case AND => a && b
    case ORA => a || b
    case _ => a != b
  }

  // Z and N describe `v`.
  predicate Describes(s: Status, v: byte) { (s.Z <==> v == 0) && (s.N <==> 0x80 <= v) }

  // `t` but for the accumulator and the flags Z and N is `r`.
  predicate OnlyA(r: Regs, t: Regs) { t == r.(A := t.A, PC := t.PC, SR := r.SR.(Z := t.SR.Z, N := t.SR.N)) }

  // What becomes of the registers `r` when an instruction has read `o`, PC aside.
  ghost predicate Effected(op: ReadOp, r: Regs, o: byte, t: Regs) {
    var flags := r.SR.(Z := t.SR.Z, N := t.SR.N);
    match op
    case AND => Describes(t.SR, t.A) && OnlyA(r, t) && BitByBit(AND, r.A, o, t.A)
    case ORA => Describes(t.SR, t.A) && OnlyA(r, t) && BitByBit(ORA, r.A, o, t.A)
    case EOR => Describes(t.SR, t.A) && OnlyA(r, t) && BitByBit(EOR, r.A, o, t.A)
    case LDA => Describes(t.SR, o) && t == r.(A := o, PC := t.PC, SR := flags)
    case LDX => Describes(t.SR, o) && t == r.(X := o, PC := t.PC, SR := flags)
    case LDY => Describes(t.SR, o) && t == r.(Y := o, PC := t.PC, SR := flags)
    case CMP => Ordered(r.A, o, t.SR) && t == r.(PC := t.PC, SR := flags.(C := t.SR.C))
    case CPX => Ordered(r.X, o, t.SR) && t == r.(PC := t.PC, SR := flags.(C := t.SR.C))
    case CPY => Ordered(r.Y, o, t.SR) && t == r.(PC := t.PC, SR := flags.(C := t.SR.C))
    case BIT =>
      && (t.SR.N <==> BitOf(o, 7)) && (t.SR.V <==> BitOf(o, 6))
      && (t.SR.Z <==> forall i: nat | i < 8 :: !(BitOf(r.A, i) && BitOf(o, i)))
      && t == r.(PC := t.PC, SR := flags.(V := t.SR.V))
  }

  ghost predicate BitByBit(op: ReadOp, a: byte, o: byte, v: byte) {
    forall i: nat | i < 8 :: BitOf(v, i) <==> Bitwise(op, BitOf(a, i), BitOf(o, i))
  }

  // C, Z and N hold the order of a register and an operand.
  predicate Ordered(v: byte, o: byte, s: Status) { (s.C <==> v >= o) && (s.Z <==> v == o) && (s.N <==> v < o) }

  lemma EffectMeant(op: ReadOp, r: Regs, o: byte)
    ensures Effected(op, r, o, OnOperand(op, o, r))
  {
    hide OnOperand, Effected;
    if IsLogic(op) { LogicMeant(op, r, o); }
    else if op.BIT? { BitMeant(r, o); }
    else if op.LDA? || op.LDX? || op.LDY? { LoadMeant(op, r, o); }
    else { CompareMeant(op, r, o); }
  }

  lemma LoadMeant(op: ReadOp, r: Regs, o: byte)
    requires op.LDA? || op.LDX? || op.LDY?
    ensures Effected(op, r, o, OnOperand(op, o, r))
  {
  }

  lemma CompareMeant(op: ReadOp, r: Regs, o: byte)
    requires op.CMP? || op.CPX? || op.CPY?
    ensures Effected(op, r, o, OnOperand(op, o, r))
  {
    hide And8, Or8, Xor8;
    ComparesOrder(op, o, r);
  }

  lemma LogicMeant(op: ReadOp, r: Regs, o: byte)
    requires IsLogic(op)
    ensures Effected(op, r, o, OnOperand(op, o, r))
  {
    hide And8, Or8, Xor8, BitOf;
    var v := OnOperand(op, o, r).A;
    forall i: nat | i < 8 ensures BitOf(v, i) <==> Bitwise(op, BitOf(r.A, i), BitOf(o, i)) {
      BitwiseBytes(r.A, o, i);
    }
  }

  lemma TwoPlaces(b: byte, i: nat)
    ensures Registers.Shifted(b, i + 2) == Registers.Shifted(b, i) / 4
  {
    assert Registers.Shifted(b, i + 2) == Registers.Shifted(b, i + 1) / 2;
  }

  lemma TopBits(o: byte)
    ensures (BitOf(o, 7) <==> o >= 0x80) && (BitOf(o, 6) <==> o / 0x40 % 2 == 1)
  {
    TwoPlaces(o, 0); TwoPlaces(o, 2); TwoPlaces(o, 4);
    assert Registers.Shifted(o, 7) == Registers.Shifted(o, 6) / 2;
  }

  lemma {:induction false} ZeroShifted(i: nat)
    ensures Registers.Shifted(0, i) == 0
  {
    if i > 0 { ZeroShifted(i - 1); }
  }

  // A byte is zero when none of its bits is set.
  lemma NoBits(b: byte)
    ensures b == 0 <==> forall i: nat | i < 8 :: !BitOf(b, i)
  {
    hide Registers.Shifted, BitOf;
    if b == 0 {
      forall i: nat | i < 8 ensures !BitOf(b, i) { ZeroBit(i); }
    } else if forall i: nat | i < 8 :: !BitOf(b, i) {
      NoFlags(b);
      assert false;
    }
  }

  lemma ZeroBit(i: nat)
    ensures !BitOf(0, i)
  {
    ZeroShifted(i);
  }

  lemma NoFlags(b: byte)
    requires forall i: nat | i < 8 :: !BitOf(b, i)
    ensures b == 0
  {
    hide BitOf;
    FlagsOfBits(b, CLEAR, 0);
    assert FlagsFrom(CLEAR, 0) == 0;
    assert Registers.Shifted(b, 0) == b;
  }

  lemma BitMeant(r: Regs, o: byte)
    ensures Effected(BIT, r, o, OnOperand(BIT, o, r))
  {
    hide And8, BitOf;
    TopBits(o);
    NoBits(And8(r.A, o));
    forall i: nat | i < 8 ensures BitOf(And8(r.A, o), i) <==> BitOf(r.A, i) && BitOf(o, i) { BitwiseBytes(r.A, o, i); }
  }

  // Taking PC along changes nothing in what an operand did.
  lemma EffectedThere(op: ReadOp, r: Regs, pc: word, o: byte, t: Regs)
    requires Effected(op, r.(PC := pc), o, t)
    ensures Effected(op, r, o, t)
  {
    hide BitByBit, Describes, Ordered, BitOf;
  }

  // ---- ADC and SBC ---------------------------------------------------------

  // `r` before and `t` after: the number in accumulator and carry, the flags that
  // describe it, and nothing else but PC.
  ghost predicate Summed(op: AddOp, r: Regs, o: byte, t: Regs) {
    && (!r.SR.D ==> BinarySum(op, r, o, t))
    && (r.SR.D ==> DigitSum(op, r, o, t))
    && (r.SR.D && Alu.Bcd(r.A) && Alu.Bcd(o) ==> DecimalSum(op, r, o, t))
    && t.SR.Z == (t.A == 0) && t.SR.N == (t.A >= 0x80)
    && t == r.(A := t.A, PC := t.PC, SR := r.SR.(C := t.SR.C, Z := t.SR.Z, V := t.SR.V, N := t.SR.N))
  }

  // Each digit adjusted, for all bytes; V is the overflow before the last adjustment.
  ghost predicate DigitSum(op: AddOp, r: Regs, o: byte, t: Regs) {
    var out := Alu.AluOut(t.A, t.SR.C, t.SR.Z, t.SR.V, t.SR.N);
    if op.ADC? then Alu.AddsDigits(r.A, o, r.SR.C, out) else Alu.SubtractsDigits(r.A, o, r.SR.C, out)
  }

  ghost predicate DecimalSum(op: AddOp, r: Regs, o: byte, t: Regs) {
    var a, b, c := Alu.Digits(true, r.A), Alu.Digits(true, o), Alu.Digits(true, t.A);
    && Alu.Bcd(t.A)
    && (op.ADC? ==> c + 100 * Bit(t.SR.C) == a + b + Bit(r.SR.C))
    && (op.SBC? ==> c == a - b - Bit(!r.SR.C) + 100 * Bit(!t.SR.C))
  }

  // V is the overflow of the signed result.
  ghost predicate BinarySum(op: AddOp, r: Regs, o: byte, t: Regs) {
    var sum := if op.ADC? then Signed(r.A) + Signed(o) + Bit(r.SR.C) else Signed(r.A) - Signed(o) - Bit(!r.SR.C);
    && (op.ADC? ==> t.A + 0x100 * Bit(t.SR.C) == r.A + o + Bit(r.SR.C))
    && (op.SBC? ==> t.A == (r.A - o - Bit(!r.SR.C)) % 0x100 && t.SR.C == (r.A < o + Bit(!r.SR.C)))
    && t.SR.V == !(-0x80 <= sum < 0x80)
  }

  lemma AddendAdds(op: AddOp, o: byte, r: Regs)
    ensures Summed(op, r, o, OnAddend(op, r.SR.D, o, r))
  {
    hide Alu.Adc, Alu.Sbc, Alu.Digits, Alu.Bcd, Signed, DecimalSum, DigitSum, BinarySum;
    AddendFlags(op, r.SR.D, o, r);
    if r.SR.D { AddsDigits(op, o, r); } else { AddsBinary(op, o, r); }
    if r.SR.D && Alu.Bcd(r.A) && Alu.Bcd(o) { AddsDecimal(op, o, r); }
  }

  lemma AddsBinary(op: AddOp, o: byte, r: Regs)
    ensures BinarySum(op, r, o, OnAddend(op, false, o, r))
  {
    hide Alu.Adc, Alu.Sbc, Signed;
    if op.ADC? { Alu.AdcBinary(r.A, o, r.SR.C); } else { Alu.SbcBinary(r.A, o, r.SR.C); }
  }

  lemma AddsDigits(op: AddOp, o: byte, r: Regs)
    ensures DigitSum(op, r, o, OnAddend(op, true, o, r))
  {
    hide Alu.Adc, Alu.Sbc, Alu.AddsDigits, Alu.SubtractsDigits;
    if op.ADC? { Alu.AdcDigits(r.A, o, r.SR.C); } else { Alu.SbcDigits(r.A, o, r.SR.C); }
  }

  lemma AddsDecimal(op: AddOp, o: byte, r: Regs)
    requires Alu.Bcd(r.A) && Alu.Bcd(o)
    ensures DecimalSum(op, r, o, OnAddend(op, true, o, r))
  {
    hide Alu.Adc, Alu.Sbc, Alu.Digits, Alu.Bcd;
    if op.ADC? { Alu.AdcDecimal(r.A, o, r.SR.C); } else { Alu.SbcDecimal(r.A, o, r.SR.C); }
  }

  lemma AddendFlags(op: AddOp, bcd: bool, o: byte, r: Regs)
    ensures var t := OnAddend(op, bcd, o, r);
            t.SR.Z == (t.A == 0) && t.SR.N == (t.A >= 0x80) && t.PC == r.PC
  {
    hide Alu.AdcRaw, Alu.SbcRaw, Alu.AdcFinal, Alu.SbcFinal;
  }

  // Taking PC along changes nothing in that.
  lemma SummedThere(op: AddOp, r: Regs, pc: word, o: byte, t: Regs)
    requires Summed(op, r.(PC := pc), o, t)
    ensures Summed(op, r, o, t)
  {
    hide Alu.Digits, Alu.Bcd, Alu.AddsDigits, Alu.SubtractsDigits, Signed;
  }

  // ---- One-byte instructions -----------------------------------------------

  // `t` is `r` but for one flag, known by its place in the status byte.
  ghost predicate OneFlag(r: Regs, t: Regs, place: nat, b: bool)
    requires place < 8
  {
    && t == r.(SR := t.SR)
    && forall i: nat | i < 8 :: BitOf(Pack(t.SR), i) <==> if i == place then b else BitOf(Pack(r.SR), i)
  }

  // What a one-byte instruction makes of the registers `r`.
  ghost predicate Inherently(op: InherentOp, r: Regs, t: Regs) {
    var described := r.SR.(Z := t.SR.Z, N := t.SR.N);
    match op
    case CLC => OneFlag(r, t, 0, false)
    case SEC => OneFlag(r, t, 0, true)
    case CLI => OneFlag(r, t, 2, false)
    case SEI => OneFlag(r, t, 2, true)
    case CLD => OneFlag(r, t, 3, false)
    case SED => OneFlag(r, t, 3, true)
    case CLV => OneFlag(r, t, 6, false)
    case TAX => Describes(t.SR, r.A) && t == r.(X := r.A, SR := described)
    case TAY => Describes(t.SR, r.A) && t == r.(Y := r.A, SR := described)
    case TSX => Describes(t.SR, r.SP) && t == r.(X := r.SP, SR := described)
    case TXA => Describes(t.SR, r.X) && t == r.(A := r.X, SR := described)
    case TYA => Describes(t.SR, r.Y) && t == r.(A := r.Y, SR := described)
    case TXS => t == r.(SP := r.X)
    case DEX => Describes(t.SR, t.X) && t == r.(X := (r.X - 1) % 0x100, SR := described)
    case DEY => Describes(t.SR, t.Y) && t == r.(Y := (r.Y - 1) % 0x100, SR := described)
    case INX => Describes(t.SR, t.X) && t == r.(X := (r.X + 1) % 0x100, SR := described)
    case INY => Describes(t.SR, t.Y) && t == r.(Y := (r.Y + 1) % 0x100, SR := described)
    case NOP => t == r
  }

  predicate SetsFlag(op: InherentOp) { op.CLC? || op.SEC? || op.CLI? || op.SEI? || op.CLD? || op.SED? || op.CLV? }

  lemma InherentMeant(op: InherentOp, r: Regs)
    ensures Inherently(op, r, OneByte(op, r))
  {
    hide OneByte, Inherently;
    if SetsFlag(op) { FlagMeant(op, r); } else { RegisterMeant(op, r); }
  }

  predicate Counts(op: InherentOp) { op.DEX? || op.DEY? || op.INX? || op.INY? }

  lemma RegisterMeant(op: InherentOp, r: Regs)
    requires !SetsFlag(op)
    ensures Inherently(op, r, OneByte(op, r))
  {
    hide OneByte, Inherently;
    if Counts(op) { CountMeant(op, r); } else { TransferMeant(op, r); }
  }

  lemma TransferMeant(op: InherentOp, r: Regs)
    requires !SetsFlag(op) && !Counts(op)
    ensures Inherently(op, r, OneByte(op, r))
  {
    hide BitOf, Pack, Inc8, Dec8;
  }

  lemma CountMeant(op: InherentOp, r: Regs)
    requires Counts(op)
    ensures Inherently(op, r, OneByte(op, r))
  {
    hide BitOf, Pack, Inc8, Dec8;
    AddsModulo(r.X, 0, 0, 0);
    AddsModulo(r.Y, 0, 0, 0);
  }

  lemma OneFlagMeant(r: Regs, t: Regs, place: nat, b: bool)
    requires place < 8 && t == r.(SR := t.SR)
    requires forall i: nat | i < 8 :: Flag(t.SR, i) <==> if i == place then b else Flag(r.SR, i)
    ensures OneFlag(r, t, place, b)
  {
    hide BitOf, Pack, Flag;
    forall i: nat | i < 8 ensures BitOf(Pack(t.SR), i) == Flag(t.SR, i) && BitOf(Pack(r.SR), i) == Flag(r.SR, i) {
      BitOfFlags(t.SR, i);
      BitOfFlags(r.SR, i);
    }
  }

  lemma FlagMeant(op: InherentOp, r: Regs)
    requires SetsFlag(op)
    ensures Inherently(op, r, OneByte(op, r))
  {
    hide BitOf, Pack, OneFlag;
    var t := OneByte(op, r);
    match op
    case CLC => OneFlagMeant(r, t, 0, false);
    case SEC => OneFlagMeant(r, t, 0, true);
    case CLI => OneFlagMeant(r, t, 2, false);
    case SEI => OneFlagMeant(r, t, 2, true);
    case CLD => OneFlagMeant(r, t, 3, false);
    case SED => OneFlagMeant(r, t, 3, true);
    case CLV => OneFlagMeant(r, t, 6, false);
    case _ =>
  }

  // ---- Branches ------------------------------------------------------------

  // The flag a branch looks at, by its place in the status byte, and the value on
  // which it goes.
  function Looked(op: BranchOp): nat {
    if op.BCC? || op.BCS? then 0 else if op.BNE? || op.BEQ? then 1 else if op.BVC? || op.BVS? then 6 else 7
  }

  predicate GoesBy(op: BranchOp, s: Status) {
    BitOf(Pack(s), Looked(op)) == (op.BCS? || op.BEQ? || op.BVS? || op.BMI?)
  }

  lemma GoesIfTaken(op: BranchOp, s: Status)
    ensures GoesBy(op, s) == Isa.Taken(op, s)
  {
    hide BitOf, Pack;
    BitOfFlags(s, Looked(op));
  }

  // What a branch asks of a register and the operand it was compared with, and of a
  // sum.
  predicate Related(op: BranchOp, v: byte, o: byte) {
    match op
    case BEQ => v == o
    case BNE => v != o
    case BCS => v >= o
    case BPL => v >= o
    case BCC => v < o
    case BMI => v < o
    case _ => false
  }

  predicate SumRelated(op: BranchOp, a: byte, o: byte, c: nat) {
    var sum, signed := a + o + c, Signed(a) + Signed(o) + c;
    match op
    case BCS => sum >= 0x100
    case BCC => sum < 0x100
    case BEQ => sum % 0x100 == 0
    case BNE => sum % 0x100 != 0
    case BMI => sum % 0x100 >= 0x80
    case BPL => sum % 0x100 < 0x80
    case BVS => signed < -0x80 || signed >= 0x80
    case BVC => -0x80 <= signed < 0x80
  }

  lemma ComparedGoes(cmp: ReadOp, op: BranchOp, r: Regs, o: byte, t: Regs)
    requires (cmp.CMP? || cmp.CPX? || cmp.CPY?) && !op.BVC? && !op.BVS? && Effected(cmp, r, o, t)
    ensures GoesBy(op, t.SR) == Related(op, if cmp.CMP? then r.A else if cmp.CPX? then r.X else r.Y, o)
  {
    hide GoesBy;
    GoesIfTaken(op, t.SR);
  }

  lemma SummedGoes(op: BranchOp, r: Regs, o: byte, t: Regs)
    requires !r.SR.D && Summed(ADC, r, o, t)
    ensures GoesBy(op, t.SR) == SumRelated(op, r.A, o, Bit(r.SR.C))
  {
    hide GoesBy, Signed;
    GoesIfTaken(op, t.SR);
    SumParts(t.A, Bit(t.SR.C), r.A + o + Bit(r.SR.C));
  }

  lemma SumParts(a: byte, c: nat, sum: nat)
    requires a + 0x100 * c == sum && c <= 1
    ensures sum % 0x100 == a && (sum >= 0x100 <==> c == 1)
  {
  }

  // A displacement from 0x80 on goes backwards.
  function Displaced(pc: word, d: byte): word { (pc + (if d < 0x80 then d else d - 0x100)) % 0x1_0000 }

  lemma DisplacedAdds(pc: word, d: byte)
    ensures Add16(pc, Signed(d)) == Displaced(pc, d)
  {
  }
}
