// The register file of registers.h. The status register is held as its eight
// flags; `Pack` and `Unpack` are the byte that the stack instructions move.
module Registers {
  import opened Words

  datatype Status = Status(C: bool, Z: bool, I: bool, D: bool, B: bool, IGN: bool, V: bool, N: bool)

  datatype Regs = Regs(A: byte, X: byte, Y: byte, SP: byte, PC: word, SR: Status)

  const CLEAR := Status(false, false, false, false, false, false, false, false)

  function Bit(b: bool): byte { if b then 1 else 0 }

  // Bit 0 is C, bit 1 is Z, and so on up to bit 7, which is N.
  predicate Flag(s: Status, i: nat) {
    match i
    case 0 => s.C
    case 1 => s.Z
    case 2 => s.I
    case 3 => s.D
    case 4 => s.B
    case 5 => s.IGN
    case 6 => s.V
    case _ => s.N
  }

  function Pack(s: Status): byte {
    FlagsFrom(s, 0)
  }

  // Flags i..7 as a number of 8 - i bits.
  function FlagsFrom(s: Status, i: nat): (n: nat)
    requires i <= 8
    ensures n < 0x100 && (i >= 1 ==> n < 0x80) && (i >= 2 ==> n < 0x40) && (i >= 3 ==> n < 0x20)
    ensures (i >= 4 ==> n < 0x10) && (i >= 5 ==> n < 8) && (i >= 6 ==> n < 4) && (i >= 7 ==> n < 2)
    decreases 8 - i, s
  {
    if i == 8 then 0 else Bit(Flag(s, i)) + 2 * FlagsFrom(s, i + 1)
  }

  // b >> i
  function Shifted(b: nat, i: nat): (n: nat)
    decreases i, b
  {
    if i == 0 then b else Shifted(b, i - 1) / 2
  }

  predicate BitOf(b: nat, i: nat) { Shifted(b, i) % 2 == 1 }

  function Unpack(b: byte): Status {
    Status(BitOf(b, 0), BitOf(b, 1), BitOf(b, 2), BitOf(b, 3), BitOf(b, 4), BitOf(b, 5), BitOf(b, 6), BitOf(b, 7))
  }

  lemma TwoFlags(s: Status, i: nat)
    requires i <= 6
    ensures FlagsFrom(s, i) == Bit(Flag(s, i)) + 2 * Bit(Flag(s, i + 1)) + 4 * FlagsFrom(s, i + 2)
  {
    assert FlagsFrom(s, i) == Bit(Flag(s, i)) + 2 * FlagsFrom(s, i + 1);
    assert FlagsFrom(s, i + 1) == Bit(Flag(s, i + 1)) + 2 * FlagsFrom(s, i + 2);
  }

  lemma FourFlags(s: Status, i: nat)
    requires i <= 4
    ensures FlagsFrom(s, i) == Bit(Flag(s, i)) + 2 * Bit(Flag(s, i + 1)) + 4 * Bit(Flag(s, i + 2))
                               + 8 * Bit(Flag(s, i + 3)) + 0x10 * FlagsFrom(s, i + 4)
  {
    hide FlagsFrom, Flag, Bit;
    TwoFlags(s, i);
    TwoFlags(s, i + 2);
  }

  // The status byte in numbers.
  lemma PackedByte(s: Status)
    ensures Pack(s) == Bit(s.C) + 2 * Bit(s.Z) + 4 * Bit(s.I) + 8 * Bit(s.D)
                       + 0x10 * (Bit(s.B) + 2 * Bit(s.IGN) + 4 * Bit(s.V) + 8 * Bit(s.N))
  {
    hide Bit;
    FlagsInNumbers(s, 0);
  }

  lemma FlagsInNumbers(s: Status, i: nat)
    requires i == 0
    ensures FlagsFrom(s, i) == Bit(s.C) + 2 * Bit(s.Z) + 4 * Bit(s.I) + 8 * Bit(s.D)
                               + 0x10 * (Bit(s.B) + 2 * Bit(s.IGN) + 4 * Bit(s.V) + 8 * Bit(s.N))
  {
    hide Bit, FlagsFrom;
    LowFlags(s, i);
    HighFlags(s, i + 4);
  }

  lemma LowFlags(s: Status, i: nat)
    requires i == 0
    ensures FlagsFrom(s, i) == Bit(s.C) + 2 * Bit(s.Z) + 4 * Bit(s.I) + 8 * Bit(s.D) + 0x10 * FlagsFrom(s, i + 4)
  {
    hide Bit, FlagsFrom;
    FourFlags(s, i);
    assert Flag(s, i) == s.C && Flag(s, i + 1) == s.Z && Flag(s, i + 2) == s.I && Flag(s, i + 3) == s.D;
  }

  lemma HighFlags(s: Status, i: nat)
    requires i == 4
    ensures FlagsFrom(s, i) == Bit(s.B) + 2 * Bit(s.IGN) + 4 * Bit(s.V) + 8 * Bit(s.N)
  {
    hide Bit, FlagsFrom;
    FourFlags(s, i);
    NoFlagsLeft(s, i + 4);
    assert Flag(s, i) == s.B && Flag(s, i + 1) == s.IGN && Flag(s, i + 2) == s.V && Flag(s, i + 3) == s.N;
  }

  lemma NoFlagsLeft(s: Status, i: nat)
    requires i == 8
    ensures FlagsFrom(s, i) == 0
  {
  }

  lemma {:induction false} ShiftedFlags(s: Status, i: nat)
    requires i <= 8
    ensures Shifted(Pack(s), i) == FlagsFrom(s, i)
    decreases i
  {
    hide Flag;
    if i > 0 {
      ShiftedFlags(s, i - 1);
      assert FlagsFrom(s, i - 1) == Bit(Flag(s, i - 1)) + 2 * FlagsFrom(s, i);
    }
  }

  lemma BitOfFlags(s: Status, i: nat)
    requires i < 8
    ensures BitOf(Pack(s), i) == Flag(s, i)
  {
    ShiftedFlags(s, i);
  }

  lemma UnpackAfterPack(s: Status)
    ensures Unpack(Pack(s)) == s
  {
    BitOfFlags(s, 0); BitOfFlags(s, 1); BitOfFlags(s, 2); BitOfFlags(s, 3);
    BitOfFlags(s, 4); BitOfFlags(s, 5); BitOfFlags(s, 6); BitOfFlags(s, 7);
  }

  // After i shifts at most 8 - i bits are left.
  lemma ShiftedBound(b: byte)
    ensures Shifted(b, 8) == 0
  {
    assert Shifted(b, 1) < 0x80;
    assert Shifted(b, 2) < 0x40;
    assert Shifted(b, 3) < 0x20;
    assert Shifted(b, 4) < 0x10;
    assert Shifted(b, 5) < 8;
    assert Shifted(b, 6) < 4;
    assert Shifted(b, 7) < 2;
  }

  lemma {:induction false} FlagsOfBits(b: byte, s: Status, i: nat)
    requires i <= 8 && forall j: nat | j < 8 :: Flag(s, j) == BitOf(b, j)
    ensures FlagsFrom(s, i) == Shifted(b, i)
    decreases 8 - i
  {
    if i < 8 {
      FlagsOfBits(b, s, i + 1);
      assert Shifted(b, i + 1) == Shifted(b, i) / 2;
      assert Flag(s, i) == BitOf(b, i);
    } else {
      ShiftedBound(b);
    }
  }

  lemma PackAfterUnpack(b: byte)
    ensures Pack(Unpack(b)) == b
  {
    FlagsOfBits(b, Unpack(b), 0);
  }

  // Zero and negative from a result byte; carry untouched.
  function SetNZ(s: Status, v: byte): Status { s.(Z := v == 0, N := v >= 0x80) }

  function SetNZC(s: Status, v: byte, carry: bool): Status { SetNZ(s, v).(C := carry) }

  // What a pulled status byte becomes: B and IGN cleared.
  function Pulled(b: byte): Status { Unpack(b).(B := false, IGN := false) }
}
