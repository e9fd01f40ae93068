// Bytes as bounded integers and as eight bits: AND, OR and exclusive OR are done on
// bits, everything else on integers.
module Bits {
  import opened Words
  import opened Registers

  lemma OrNothing(x: bv8)
    ensures OrBits(x, 0) == x && OrBits(0, x) == x
  {
  }

  lemma OrZero(a: byte)
    ensures Or8(a, 0) == a
  {
    hide OrBits;
    ByteKept(a);
    OrNothing(a as bv8);
  }

  lemma OrTopBit(a: byte)
    requires a < 0x80
    ensures Or8(a, 0x80) == a + 0x80
  {
    hide Or8;
    SmallByte(a);
    ByteKept(a);
    OrIsAdd(a as bv8);
    AddIsAdd(a as bv8);
    OrWithTop(a);
  }

  lemma OrWithTop(a: byte)
    ensures Or8(a, 0x80) == ((a as bv8) | 0x80) as int
  {
    if a == 0 { assert (0 as bv8) | 0x80 == 0x80; }
  }

  lemma SmallByte(a: byte)
    requires a < 0x80
    ensures (a as bv8) < 0x80
  {
  }

  lemma BitsKept(b: bv8)
    ensures (b as int) as bv8 == b
  {
  }

  lemma AddOne(b: bv8)
    requires b < 0xFF
    ensures (b + 1) as int == b as int + 1
  {
  }

  lemma {:induction false} ByteKept(a: byte)
    ensures (a as bv8) as int == a
  {
    if a == 0 {
      assert (0 as bv8) as int == 0;
    } else {
      var b := (a - 1) as bv8;
      ByteKept(a - 1);
      AddOne(b);
      BitsKept(b + 1);
    }
  }

  lemma OrIsAdd(b: bv8)
    requires b < 0x80
    ensures b | 0x80 == b + 0x80
  {
  }

  lemma AddIsAdd(b: bv8)
    requires b < 0x80
    ensures (b + 0x80) as int == b as int + 0x80
  {
  }

  lemma HalfIsShift(x: bv8)
    ensures (x >> 1) as int == x as int / 2
  {
  }

  lemma OddIsLowBit(x: bv8)
    ensures x & 1 == 1 <==> x as int % 2 == 1
  {
  }

  lemma HalvesOf(x: bv8, y: bv8)
    ensures AndBits(x, y) >> 1 == AndBits(x >> 1, y >> 1)
    ensures OrBits(x, y) >> 1 == OrBits(x >> 1, y >> 1)
    ensures XorBits(x, y) >> 1 == XorBits(x >> 1, y >> 1)
  {
  }

  lemma LowBitsOf(x: bv8, y: bv8)
    ensures AndBits(x, y) & 1 == 1 <==> x & 1 == 1 && y & 1 == 1
    ensures OrBits(x, y) & 1 == 1 <==> x & 1 == 1 || y & 1 == 1
    ensures XorBits(x, y) & 1 == 1 <==> (x & 1 == 1) != (y & 1 == 1)
  {
  }

  lemma OrOfBits(x: bv8, y: bv8)
    ensures Or8(x as int, y as int) == OrBits(x, y) as int
  {
    hide OrBits;
    BitsKept(x); BitsKept(y);
    if x as int == 0 { OrNothing(y); }
  }

  // Halving goes through the three bytewise operations, and the bit it drops is
  // the operation on the two bits dropped.
  lemma AndHalves(x: bv8, y: bv8)
    ensures And8(x as int, y as int) / 2 == And8(x as int / 2, y as int / 2)
    ensures And8(x as int, y as int) % 2 == 1 <==> x as int % 2 == 1 && y as int % 2 == 1
  {
    hide AndBits;
    BitsKept(x); BitsKept(y); BitsKept(x >> 1); BitsKept(y >> 1);
    HalvesOf(x, y); LowBitsOf(x, y);
    HalfIsShift(AndBits(x, y)); HalfIsShift(x); HalfIsShift(y);
    OddIsLowBit(AndBits(x, y)); OddIsLowBit(x); OddIsLowBit(y);
  }

  lemma OrHalves(x: bv8, y: bv8)
    ensures Or8(x as int, y as int) / 2 == Or8(x as int / 2, y as int / 2)
    ensures Or8(x as int, y as int) % 2 == 1 <==> x as int % 2 == 1 || y as int % 2 == 1
  {
    hide OrBits, Or8;
    OrOfBits(x, y); OrOfBits(x >> 1, y >> 1);
    HalvesOf(x, y); LowBitsOf(x, y);
    HalfIsShift(OrBits(x, y)); HalfIsShift(x); HalfIsShift(y);
    OddIsLowBit(OrBits(x, y)); OddIsLowBit(x); OddIsLowBit(y);
  }

  lemma XorHalves(x: bv8, y: bv8)
    ensures Xor8(x as int, y as int) / 2 == Xor8(x as int / 2, y as int / 2)
    ensures Xor8(x as int, y as int) % 2 == 1 <==> x as int % 2 != y as int % 2
  {
    hide XorBits;
    BitsKept(x); BitsKept(y); BitsKept(x >> 1); BitsKept(y >> 1);
    HalvesOf(x, y); LowBitsOf(x, y);
    HalfIsShift(XorBits(x, y)); HalfIsShift(x); HalfIsShift(y);
    OddIsLowBit(XorBits(x, y)); OddIsLowBit(x); OddIsLowBit(y);
  }

  lemma BitwiseHalves(a: byte, b: byte)
    ensures And8(a, b) / 2 == And8(a / 2, b / 2) && (And8(a, b) % 2 == 1 <==> a % 2 == 1 && b % 2 == 1)
    ensures Or8(a, b) / 2 == Or8(a / 2, b / 2) && (Or8(a, b) % 2 == 1 <==> a % 2 == 1 || b % 2 == 1)
    ensures Xor8(a, b) / 2 == Xor8(a / 2, b / 2) && (Xor8(a, b) % 2 == 1 <==> a % 2 != b % 2)
  {
    hide And8, Or8, Xor8;
    ByteKept(a); ByteKept(b);
    AndHalves(a as bv8, b as bv8);
    OrHalves(a as bv8, b as bv8);
    XorHalves(a as bv8, b as bv8);
  }

  lemma {:induction false} BitwiseShifted(a: byte, b: byte, i: nat)
    ensures Registers.Shifted(a, i) < 0x100 && Registers.Shifted(b, i) < 0x100
    ensures Registers.Shifted(And8(a, b), i) == And8(Registers.Shifted(a, i), Registers.Shifted(b, i))
    ensures Registers.Shifted(Or8(a, b), i) == Or8(Registers.Shifted(a, i), Registers.Shifted(b, i))
    ensures Registers.Shifted(Xor8(a, b), i) == Xor8(Registers.Shifted(a, i), Registers.Shifted(b, i))
    decreases i
  {
    hide And8, Or8, Xor8;
    if i > 0 {
      BitwiseShifted(a, b, i - 1);
      BitwiseHalves(Registers.Shifted(a, i - 1), Registers.Shifted(b, i - 1));
    }
  }

  // The three bytewise operations, a bit at a time.
  lemma BitwiseBytes(a: byte, b: byte, i: nat)
    ensures BitOf(And8(a, b), i) <==> BitOf(a, i) && BitOf(b, i)
    ensures BitOf(Or8(a, b), i) <==> BitOf(a, i) || BitOf(b, i)
    ensures BitOf(Xor8(a, b), i) <==> BitOf(a, i) != BitOf(b, i)
  {
    hide And8, Or8, Xor8, Registers.Shifted;
    BitwiseShifted(a, b, i);
    BitwiseHalves(Registers.Shifted(a, i), Registers.Shifted(b, i));
  }

  // A byte ORed into either half of a word leaves the other half alone.
  lemma OredHalves(w: word, v: byte, i: nat)
    ensures OrHigh(w, v) % 0x100 == w % 0x100 && OrLow(w, v) / 0x100 == w / 0x100
    ensures BitOf(OrHigh(w, v) / 0x100, i) <==> BitOf(w / 0x100, i) || BitOf(v, i)
    ensures BitOf(OrLow(w, v) % 0x100, i) <==> BitOf(w % 0x100, i) || BitOf(v, i)
  {
    hide BitOf, Or8;
    BitwiseBytes(w / 0x100, v, i);
    BitwiseBytes(w % 0x100, v, i);
  }
}
