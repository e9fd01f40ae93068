// The adder of ADC and the complementing adder of SBC, one byte at a time, and
// what they mean for numbers of any length passed through the carry flag.
module Alu {
  import opened Words
  import opened Registers

  datatype AluOut = AluOut(a: byte, c: bool, z: bool, v: bool, n: bool)

  function Flags(alu: word, v: bool): AluOut {
    AluOut(Lo(alu), alu >= 0x100, Lo(alu) == 0, v, Bit7(Lo(alu)))
  }

  // The 16-bit sum before the final decimal adjustment.
  function AdcRaw(bcd: bool, a: byte, o: byte, c: bool): word {
    if bcd then
      var low := o % 0x10 + a % 0x10 + Bit(c);
      var adj := if low > 0x09 then low + 0x06 else low;
      assert o % 0x10 <= o && a % 0x10 <= a && adj % 0x10 < 0x10;
      (o - o % 0x10) + (a - a % 0x10) + (if adj > 0x0F then 0x10 else 0) + adj % 0x10
    else
      o + a + Bit(c)
  }

  function AdcFinal(bcd: bool, raw: word): word {
    if bcd && raw > 0x9F then Add16(raw, 0x60) else raw
  }

  // Overflow is judged on the sum before the final decimal adjustment.
  function Adc(bcd: bool, a: byte, o: byte, c: bool): AluOut {
    var raw := AdcRaw(bcd, a, o, c);
    Flags(AdcFinal(bcd, raw), Bit7(a) == Bit7(o) && Bit7(a) != Bit7(raw))
  }

  // `no` is the operand complemented as a 16-bit quantity, so its high byte is
  // 0xFF in binary mode.
  function SbcRaw(bcd: bool, a: byte, no: word, c: bool): word {
    if bcd then
      var low := no % 0x10 + a % 0x10 + Bit(c);
      var adj := if low <= 0x0F then Add16(low, -0x06) else low;
      assert no % 0x10 <= no % 0x100 < 0x100 && a % 0x10 <= a && adj % 0x10 < 0x10;
      (no % 0x100 - no % 0x10) + (a - a % 0x10) + (if adj > 0x0F then 0x10 else 0) + adj % 0x10
    else
      Add16(no, a + Bit(c))
  }

  function SbcFinal(bcd: bool, raw: word): word {
    if bcd && raw <= 0xFF then Add16(raw, -0x60) else raw
  }

  function Sbc(bcd: bool, a: byte, o: byte, c: bool): AluOut {
    var no := 0xFFFF - o;
    var raw := SbcRaw(bcd, a, no, c);
    Flags(SbcFinal(bcd, raw), Bit7(a) == Bit7(no) && Bit7(a) != Bit7(raw))
  }

  // Two decimal digits in one byte.
  predicate Bcd(b: byte) { b % 0x10 <= 9 && b / 0x10 <= 9 }

  function Digits(bcd: bool, b: byte): nat { if bcd then 10 * (b / 0x10) + b % 0x10 else b }

  // One place up in base 100 or base 256.
  function Shift(bcd: bool, x: int): int { if bcd then 100 * x else 0x100 * x }

  lemma AdcBinary(a: byte, o: byte, c: bool)
    ensures var s := Adc(false, a, o, c);
            && s.a + 0x100 * Bit(s.c) == a + o + Bit(c)
            && (s.v <==> !(-0x80 <= Signed(a) + Signed(o) + Bit(c) < 0x80))
  {
  }

  // ---- Decimal mode, digit by digit ----------------------------------------

  // A digit sum above nine is adjusted by six, and carries.
  function Adjusted(n: nat): nat { (if n > 9 then n + 6 else n) % 0x10 }

  predicate DigitCarry(a: byte, o: byte, c: bool) { a % 0x10 + o % 0x10 + Bit(c) > 9 }

  function HighSum(a: byte, o: byte, c: bool): nat { a / 0x10 + o / 0x10 + Bit(DigitCarry(a, o, c)) }

  // The high four bits as a signed number, and what it cannot hold.
  function SignedDigit(d: nat): int { if d < 8 then d else d - 0x10 }

  predicate HighOverflow(n: int) { !(-8 <= n < 8) }

  // For all bytes, decimal or not. V is the signed overflow of the sum before the
  // high digit is adjusted.
  ghost predicate AddsDigits(a: byte, o: byte, c: bool, s: AluOut) {
    && s.a % 0x10 == Adjusted(a % 0x10 + o % 0x10 + Bit(c)) && s.a / 0x10 == Adjusted(HighSum(a, o, c))
    && (s.c <==> HighSum(a, o, c) > 9)
    && (s.v <==> HighOverflow(SignedDigit(a / 0x10) + SignedDigit(o / 0x10) + Bit(DigitCarry(a, o, c))))
  }

  lemma AdcRawDigits(a: byte, o: byte, c: bool)
    ensures AdcRaw(true, a, o, c) == 0x10 * HighSum(a, o, c) + Adjusted(a % 0x10 + o % 0x10 + Bit(c))
  {
    var low := o % 0x10 + a % 0x10 + Bit(c);
    var k := Bit(DigitCarry(a, o, c));
    assert low <= 0x1F && (low > 9 ==> low + 6 > 0x0F);
    assert AdcRaw(true, a, o, c) == (o - o % 0x10) + (a - a % 0x10) + 0x10 * k + Adjusted(low);
  }

  lemma AdcFinalDigits(high: nat, d: nat)
    requires high <= 0x1F && d < 0x10
    ensures var s := AdcFinal(true, 0x10 * high + d);
            Lo(s) % 0x10 == d && Lo(s) / 0x10 == Adjusted(high) && (s >= 0x100 <==> high > 9)
  {
    var h := if high > 9 then high + 6 else high;
    assert AdcFinal(true, 0x10 * high + d) == 0x10 * h + d;
    LowNibbles(h, d);
  }

  lemma LowNibbles(h: nat, d: nat)
    requires h <= 0xFFF && d < 0x10
    ensures Lo(0x10 * h + d) % 0x10 == d && Lo(0x10 * h + d) / 0x10 == h % 0x10
  {
    var q := h / 0x10;
    Nibbles(h % 0x10, d);
    LowByte(q, 0x10 * (h % 0x10) + d);
    assert 0x10 * h + d == 0x100 * q + (0x10 * (h % 0x10) + d);
  }

  lemma TopBits(high: nat, d: nat)
    requires d < 0x10
    ensures Bit7(0x10 * high + d) <==> high / 8 % 2 == 1
  {
    assert (0x10 * high + d) / 0x80 == high / 8;
  }

  lemma AdcDigits(a: byte, o: byte, c: bool)
    ensures AddsDigits(a, o, c, Adc(true, a, o, c))
  {
    hide AdcRaw, AdcFinal, Bit7, Adjusted, HighSum, DigitCarry, HighOverflow, SignedDigit;
    var h, l := HighSum(a, o, c), Adjusted(a % 0x10 + o % 0x10 + Bit(c));
    HighSumBound(a, o, c);
    AdcRawDigits(a, o, c);
    AdcFinalDigits(h, l);
    TopBits(h, l);
    TopBits(a / 0x10, a % 0x10);
    TopBits(o / 0x10, o % 0x10);
    SignsOfSum(a / 0x10, o / 0x10, Bit(DigitCarry(a, o, c)));
  }

  lemma HighSumBound(a: byte, o: byte, c: bool)
    ensures HighSum(a, o, c) == a / 0x10 + o / 0x10 + Bit(DigitCarry(a, o, c)) <= 0x1F
    ensures Adjusted(a % 0x10 + o % 0x10 + Bit(c)) < 0x10
  {
  }

  lemma SignsOfSum(x: nat, y: nat, k: nat)
    requires x < 0x10 && y < 0x10 && k <= 1
    ensures HighOverflow(SignedDigit(x) + SignedDigit(y) + k)
            <==> (x / 8 % 2 == 1 <==> y / 8 % 2 == 1) && !(x / 8 % 2 == 1 <==> (x + y + k) / 8 % 2 == 1)
  {
  }

  lemma AdcDecimal(a: byte, o: byte, c: bool)
    requires Bcd(a) && Bcd(o)
    ensures var s := Adc(true, a, o, c);
            Bcd(s.a) && Digits(true, s.a) + 100 * Bit(s.c) == Digits(true, a) + Digits(true, o) + Bit(c)
  {
    hide Adc, Adjusted, HighOverflow, SignedDigit;
    AdcDigits(a, o, c);
    DecimalCarry(a % 0x10 + o % 0x10 + Bit(c));
    DecimalCarry(HighSum(a, o, c));
  }

  lemma DecimalCarry(n: nat)
    requires n <= 19
    ensures Adjusted(n) == if n > 9 then n - 10 else n
  {
  }

  // A digit difference that borrows is adjusted by six the other way.
  function Reduced(n: nat): nat { (if n > 0x0F then n else n + 0x10 - 6) % 0x10 }

  // The complement of one low digit added to the other. No borrow goes on from it
  // if that is above fifteen, nor if it is so small that the adjustment wraps.
  function LowDifference(a: byte, o: byte, c: bool): nat { 0x0F - o % 0x10 + a % 0x10 + Bit(c) }

  predicate NoDigitBorrow(a: byte, o: byte, c: bool) { LowDifference(a, o, c) > 0x0F || LowDifference(a, o, c) < 6 }

  function HighDifference(a: byte, o: byte, c: bool): nat {
    0x0F - o / 0x10 + a / 0x10 + Bit(NoDigitBorrow(a, o, c))
  }

  ghost predicate SubtractsDigits(a: byte, o: byte, c: bool, s: AluOut) {
    && s.a % 0x10 == Reduced(LowDifference(a, o, c)) && s.a / 0x10 == Reduced(HighDifference(a, o, c))
    && (s.c <==> HighDifference(a, o, c) > 0x0F || HighDifference(a, o, c) < 6)
    && (s.v <==> HighOverflow(SignedDigit(a / 0x10) - SignedDigit(o / 0x10) - Bit(!NoDigitBorrow(a, o, c))))
  }

  lemma SbcRawDigits(a: byte, o: byte, c: bool)
    ensures SbcRaw(true, a, 0xFFFF - o, c) == 0x10 * HighDifference(a, o, c) + Reduced(LowDifference(a, o, c))
  {
    Complement(o);
    var low := LowDifference(a, o, c);
    LowAdjusted(low);
    assert SbcRaw(true, a, 0xFFFF - o, c)
        == (0xF0 - (o - o % 0x10)) + (a - a % 0x10) + 0x10 * Bit(NoDigitBorrow(a, o, c)) + Reduced(low);
  }

  lemma LowAdjusted(low: nat)
    requires low <= 0x1F
    ensures var adj := if low <= 0x0F then Add16(low, -0x06) else low;
            adj % 0x10 == Reduced(low) && (adj > 0x0F <==> low > 0x0F || low < 6)
  {
    if low < 6 { assert 0x1_0000 + low - 6 == 0x10 * 0xFFF + (low + 0x10 - 6); }
  }

  lemma SbcFinalDigits(high: nat, d: nat)
    requires high <= 0x1F && d < 0x10
    ensures var s := SbcFinal(true, 0x10 * high + d);
            Lo(s) % 0x10 == d && Lo(s) / 0x10 == Reduced(high) && (s >= 0x100 <==> high > 0x0F || high < 6)
  {
    var h: nat := if high > 0x0F then high else if high < 6 then 0x1000 + high - 6 else high - 6;
    assert SbcFinal(true, 0x10 * high + d) == 0x10 * h + d;
    LowNibbles(h, d);
    assert h % 0x10 == Reduced(high) by {
      if high < 6 { assert h == 0x10 * 0xFF + (high + 0x10 - 6); }
    }
  }

  lemma SbcDigits(a: byte, o: byte, c: bool)
    ensures SubtractsDigits(a, o, c, Sbc(true, a, o, c))
  {
    hide SbcRaw, SbcFinal, Bit7, Reduced, HighDifference, LowDifference, NoDigitBorrow, HighOverflow, SignedDigit;
    var h, l := HighDifference(a, o, c), Reduced(LowDifference(a, o, c));
    HighDifferenceBound(a, o, c);
    SbcRawDigits(a, o, c);
    SbcFinalDigits(h, l);
    TopBits(h, l);
    TopBits(a / 0x10, a % 0x10);
    TopBits(0xFFF - o / 0x10, 0x0F - o % 0x10);
    SignsOfDifference(a / 0x10, o / 0x10, Bit(NoDigitBorrow(a, o, c)));
  }

  lemma HighDifferenceBound(a: byte, o: byte, c: bool)
    ensures HighDifference(a, o, c) == 0x0F - o / 0x10 + a / 0x10 + Bit(NoDigitBorrow(a, o, c)) <= 0x1F
    ensures Reduced(LowDifference(a, o, c)) < 0x10
  {
  }

  lemma SignsOfDifference(x: nat, y: nat, k: nat)
    requires x < 0x10 && y < 0x10 && k <= 1
    ensures HighOverflow(SignedDigit(x) - SignedDigit(y) - (1 - k))
            <==> (x / 8 % 2 == 1 <==> (0xFFF - y) / 8 % 2 == 1)
                 && !(x / 8 % 2 == 1 <==> (0x0F - y + x + k) / 8 % 2 == 1)
  {
  }

  lemma Nibbles(h: nat, l: nat)
    requires l < 0x10
    ensures (0x10 * h + l) / 0x10 == h && (0x10 * h + l) % 0x10 == l
  {
  }

  lemma LowByte(h: nat, l: nat)
    requires l < 0x100 && h < 0x100
    ensures Lo(0x100 * h + l) == l && Hi(0x100 * h + l) == h
  {
  }

  lemma SbcBinary(a: byte, o: byte, c: bool)
    ensures var s := Sbc(false, a, o, c);
            && s.a == (if a < o + Bit(!c) then a - o - Bit(!c) + 0x100 else a - o - Bit(!c))
            && (s.c <==> a < o + Bit(!c))
            && (s.v <==> !(-0x80 <= Signed(a) - Signed(o) - Bit(!c) < 0x80))
  {
  }

  lemma SbcDecimal(a: byte, o: byte, c: bool)
    requires Bcd(a) && Bcd(o)
    ensures var s := Sbc(true, a, o, c);
            && Bcd(s.a)
            && Digits(true, s.a) == Digits(true, a) - Digits(true, o) - Bit(!c) + 100 * Bit(!s.c)
  {
    hide Sbc, Reduced, HighOverflow, SignedDigit;
    SbcDigits(a, o, c);
    DecimalBorrow(LowDifference(a, o, c));
    DecimalBorrow(HighDifference(a, o, c));
  }

  lemma DecimalBorrow(n: nat)
    requires 6 <= n <= 25
    ensures Reduced(n) == if n > 0x0F then n - 0x10 else n - 6
  {
  }

  lemma Complement(o: byte)
    ensures var no := 0xFFFF - o;
            && no % 0x10 == 0x0F - o % 0x10
            && no % 0x100 - no % 0x10 == 0xF0 - (o - o % 0x10)
  {
    var no := 0xFFFF - o;
    LowByte(0xFF, 0xFF - o);
    assert no == 0x100 * 0xFF + (0xFF - o);
    assert no == 0x10 * (0xFFF - o / 0x10) + (0x0F - o % 0x10);
    Nibbles(0xFFF - o / 0x10, 0x0F - o % 0x10);
  }

  // Decimal subtraction undoes decimal addition, byte for byte, when the
  // incoming borrow is the addition's incoming carry inverted.
  lemma SbcUndoesAdc(a: byte, o: byte, c: bool)
    requires Bcd(a) && Bcd(o)
    ensures var s := Adc(true, a, o, c);
            var t := Sbc(true, s.a, o, !c);
            t.a == a && t.c == !s.c
  {
    var s := Adc(true, a, o, c);
    AdcDecimal(a, o, c);
    SbcDecimal(s.a, o, !c);
    var t := Sbc(true, s.a, o, !c);
    assert Digits(true, t.a) + 100 * Bit(s.c) == Digits(true, a) + 100 * Bit(!t.c);
    DigitsInjective(a, t.a, Bit(s.c), Bit(!t.c));
  }

  lemma DigitsInjective(a: byte, b: byte, x: nat, y: nat)
    requires Bcd(a) && Bcd(b) && Digits(true, b) + 100 * x == Digits(true, a) + 100 * y
    ensures a == b && x == y
  {
    var ah, al, bh, bl := a / 0x10, a % 0x10, b / 0x10, b % 0x10;
    assert 10 * bh + bl + 100 * x == 10 * ah + al + 100 * y;
    assert 0 <= 10 * bh + bl < 100 && 0 <= 10 * ah + al < 100;
    assert x == y;
    assert bh == ah;
  }

  // ---- Numbers of any length, little endian -------------------------------

  // 100^n or 256^n.
  function Pow(bcd: bool, n: nat): (p: int)
    ensures p > 0
  {
    if n == 0 then 1 else Shift(bcd, Pow(bcd, n - 1))
  }

  function Num(bcd: bool, s: seq<byte>): nat {
    if s == [] then 0 else Digits(bcd, s[0]) + Shift(bcd, Num(bcd, s[1..]))
  }

  predicate AllBcd(s: seq<byte>) { forall i :: 0 <= i < |s| ==> Bcd(s[i]) }

  datatype Chain = Chain(bytes: seq<byte>, c: bool)

  function AdcChain(bcd: bool, a: seq<byte>, o: seq<byte>, c: bool): (r: Chain)
    requires |a| == |o|
    ensures |r.bytes| == |a|
  {
    if a == [] then Chain([], c) else
      var s := Adc(bcd, a[0], o[0], c);
      var t := AdcChain(bcd, a[1..], o[1..], s.c);
      Chain([s.a] + t.bytes, t.c)
  }

  function SbcChain(bcd: bool, a: seq<byte>, o: seq<byte>, c: bool): (r: Chain)
    requires |a| == |o|
    ensures |r.bytes| == |a|
  {
    if a == [] then Chain([], c) else
      var s := Sbc(bcd, a[0], o[0], c);
      var t := SbcChain(bcd, a[1..], o[1..], s.c);
      Chain([s.a] + t.bytes, t.c)
  }

  lemma {:induction false} NumBound(bcd: bool, s: seq<byte>)
    requires bcd ==> AllBcd(s)
    ensures Num(bcd, s) < Pow(bcd, |s|)
  {
    if s != [] {
      NumBound(bcd, s[1..]);
    }
  }

  // Both modes: the chained result and final carry are the exact sum, and in
  // decimal mode every result byte is again two decimal digits.
  lemma {:induction false} AdcChainSum(bcd: bool, a: seq<byte>, o: seq<byte>, c: bool)
    requires |a| == |o|
    requires bcd ==> AllBcd(a) && AllBcd(o)
    ensures var r := AdcChain(bcd, a, o, c);
            && (bcd ==> AllBcd(r.bytes)) && Num(bcd, r.bytes) < Pow(bcd, |a|)
            && Num(bcd, r.bytes) + (if r.c then Pow(bcd, |a|) else 0) == Num(bcd, a) + Num(bcd, o) + Bit(c)
  {
    hide Adc, Digits, Bcd;
    if a != [] {
      var d, k, t := AdcChainHead(bcd, a, o, c);
      AdcChainSum(bcd, a[1..], o[1..], k);
      NumCons(bcd, d, t.bytes);
      ChainBound(bcd, d, t.bytes);
    }
  }

  lemma ChainBound(bcd: bool, d: byte, s: seq<byte>)
    requires bcd ==> Bcd(d) && AllBcd(s)
    ensures bcd ==> AllBcd([d] + s)
    ensures Num(bcd, [d] + s) < Pow(bcd, 1 + |s|)
  {
    NumBound(bcd, [d] + s);
  }

  lemma AdcChainHead(bcd: bool, a: seq<byte>, o: seq<byte>, c: bool) returns (d: byte, k: bool, t: Chain)
    requires |a| == |o| > 0
    requires bcd ==> AllBcd(a) && AllBcd(o)
    ensures t == AdcChain(bcd, a[1..], o[1..], k)
    ensures AdcChain(bcd, a, o, c) == Chain([d] + t.bytes, t.c)
    ensures bcd ==> Bcd(d)
    ensures Digits(bcd, d) + Shift(bcd, Bit(k)) == Digits(bcd, a[0]) + Digits(bcd, o[0]) + Bit(c)
  {
    var s := Adc(bcd, a[0], o[0], c);
    d, k, t := s.a, s.c, AdcChain(bcd, a[1..], o[1..], s.c);
    AdcByteSum(bcd, a[0], o[0], c);
  }

  lemma AdcByteSum(bcd: bool, a: byte, o: byte, c: bool)
    requires bcd ==> Bcd(a) && Bcd(o)
    ensures var s := Adc(bcd, a, o, c);
            && (bcd ==> Bcd(s.a))
            && Digits(bcd, s.a) + Shift(bcd, Bit(s.c)) == Digits(bcd, a) + Digits(bcd, o) + Bit(c)
  {
    if bcd { AdcDecimal(a, o, c); } else { AdcBinary(a, o, c); }
  }

  lemma NumCons(bcd: bool, d: byte, s: seq<byte>)
    ensures Num(bcd, [d] + s) == Digits(bcd, d) + Shift(bcd, Num(bcd, s))
  {
    assert ([d] + s)[1..] == s;
  }

  // In decimal mode the chained result is the exact difference, and a clear
  // final carry is the borrow out.
  lemma {:induction false} SbcChainDifference(a: seq<byte>, o: seq<byte>, c: bool)
    requires |a| == |o| && AllBcd(a) && AllBcd(o)
    ensures var r := SbcChain(true, a, o, c);
            && AllBcd(r.bytes) && Num(true, r.bytes) < Pow(true, |a|)
            && Num(true, r.bytes) == Num(true, a) - Num(true, o) - Bit(!c) + (if r.c then 0 else Pow(true, |a|))
  {
    hide Sbc, Digits, Bcd;
    if a != [] {
      var s := Sbc(true, a[0], o[0], c);
      SbcDecimal(a[0], o[0], c);
      SbcChainDifference(a[1..], o[1..], s.c);
      var t := SbcChain(true, a[1..], o[1..], s.c);
      NumCons(true, s.a, t.bytes);
      ChainBound(true, s.a, t.bytes);
    }
  }

  // Decimal subtraction of the addend, started with the inverted carry, gives
  // back the first number and the inverted final carry, whatever the length.
  lemma {:induction false} SbcChainUndoesAdcChain(a: seq<byte>, o: seq<byte>, c: bool)
    requires |a| == |o| && AllBcd(a) && AllBcd(o)
    ensures var sum := AdcChain(true, a, o, c);
            SbcChain(true, sum.bytes, o, !c) == Chain(a, !sum.c)
  {
    if a != [] {
      var s := Adc(true, a[0], o[0], c);
      SbcUndoesAdc(a[0], o[0], c);
      SbcChainUndoesAdcChain(a[1..], o[1..], s.c);
      var t := AdcChain(true, a[1..], o[1..], s.c);
      assert AdcChain(true, a, o, c).bytes[1..] == t.bytes;
      assert a == [a[0]] + a[1..];
    }
  }

  // Binary subtraction hands the borrow on inverted, so the chain subtracts
  // correctly exactly when it is one byte long (or empty): with two bytes or
  // more the second byte is off by one for every pair of inputs.
  lemma SbcBinaryChainCorrectIff(a: seq<byte>, o: seq<byte>, c: bool)
    requires |a| == |o|
    ensures Num(false, SbcChain(false, a, o, c).bytes)
            == (Num(false, a) - Num(false, o) - Bit(!c)) % Pow(false, |a|)
            <==> |a| <= 1
  {
    if |a| == 0 {
      assert Pow(false, 0) == 1;
    } else if |a| == 1 {
      SbcBinaryOneByte(a, o, c);
    } else {
      SbcBinaryManyBytes(a, o, c);
    }
  }

  lemma SbcBinaryOneByte(a: seq<byte>, o: seq<byte>, c: bool)
    requires |a| == |o| == 1
    ensures Num(false, SbcChain(false, a, o, c).bytes)
            == (Num(false, a) - Num(false, o) - Bit(!c)) % Pow(false, 1)
  {
    SbcBinary(a[0], o[0], c);
    assert Pow(false, 1) == 0x100 by { assert Pow(false, 0) == 1; }
    var r := SbcChain(false, a, o, c).bytes;
    assert r[1..] == [] == a[1..] == o[1..];
  }

  lemma SbcBinaryManyBytes(a: seq<byte>, o: seq<byte>, c: bool)
    requires |a| == |o| >= 2
    ensures Num(false, SbcChain(false, a, o, c).bytes)
            != (Num(false, a) - Num(false, o) - Bit(!c)) % Pow(false, |a|)
  {
    var r := SbcChain(false, a, o, c).bytes;
    SbcChainTwoBytes(a, o, c);
    NumTwoBytes(a);
    NumTwoBytes(o);
    NumTwoBytes(r);
    SecondByteOff(a[0], o[0], a[1], o[1], c);
    var l: int := r[0] as int + 0x100 * r[1] as int;
    var d: int := a[0] as int - o[0] as int - Bit(!c) as int + 0x100 * (a[1] as int - o[1] as int);
    NeverCongruent(l, d,
                   Num(false, r[2..]), Num(false, a[2..]) - Num(false, o[2..]), |a|);
  }

  lemma SbcChainTwoBytes(a: seq<byte>, o: seq<byte>, c: bool)
    requires |a| == |o| >= 2
    ensures var r := SbcChain(false, a, o, c).bytes;
            var s := Sbc(false, a[0], o[0], c);
            r[0] == s.a && r[1] == Sbc(false, a[1], o[1], s.c).a
  {
    var s := Sbc(false, a[0], o[0], c);
    var t := SbcChain(false, a[1..], o[1..], s.c);
    assert SbcChain(false, a, o, c).bytes == [s.a] + t.bytes;
  }

  lemma NumTwoBytes(s: seq<byte>)
    requires |s| >= 2
    ensures Num(false, s) == s[0] + 0x100 * s[1] + 0x1_0000 * Num(false, s[2..])
  {
    assert s[1..][1..] == s[2..];
    assert Num(false, s[1..]) == s[1] + 0x100 * Num(false, s[2..]);
  }

  lemma NeverCongruent(l: nat, d: int, z: nat, w: int, n: nat)
    requires n >= 2 && (l - d) % 0x1_0000 != 0
    ensures l + 0x1_0000 * z != (d + 0x1_0000 * w) % Pow(false, n)
  {
    var p := Pow(false, n - 2);
    var m := Pow(false, n);
    assert m == 0x1_0000 * p by { assert Pow(false, n - 1) == 0x100 * p; }
    var e := d + 0x1_0000 * w;
    if l + 0x1_0000 * z == e % m {
      var q := e / m;
      assert e == m * q + e % m;
      assert m * q == 0x1_0000 * (p * q);
      Congruent(l, d, z + p * q - w);
      assert false;
    }
  }

  lemma Congruent(l: int, d: int, k: int)
    requires d == l + 0x1_0000 * k
    ensures (l - d) % 0x1_0000 == 0
  {
    assert l - d == 0x1_0000 * (-k);
  }

  lemma SecondByteOff(a0: byte, o0: byte, a1: byte, o1: byte, c: bool)
    ensures var s := Sbc(false, a0, o0, c);
            var s2 := Sbc(false, a1, o1, s.c);
            ((s.a + 0x100 * s2.a) - (a0 - o0 - Bit(!c) + 0x100 * (a1 - o1))) % 0x1_0000 != 0
  {
    SbcBinary(a0, o0, c);
    var s := Sbc(false, a0, o0, c);
    SbcBinary(a1, o1, s.c);
    var s2 := Sbc(false, a1, o1, s.c);
    var k := if s.c then 1 else 0;
    assert s.a == a0 - o0 - Bit(!c) + 0x100 * k;
    var e := a1 - o1 - (1 - k);
    var j := if e < 0 then 1 else 0;
    assert s2.a == e + 0x100 * j;
    assert (s.a + 0x100 * s2.a) - (a0 - o0 - Bit(!c) + 0x100 * (a1 - o1)) == 0x100 * (2 * k - 1) + 0x1_0000 * j;
  }
}
