// Eight- and sixteen-bit quantities as bounded integers. Every wrap-around that
// the C types perform is written out: by a conditional where one step can wrap
// at most once, and `AddsModulo` says that this is addition modulo the width.
module Words {

  type byte = x: int | 0 <= x < 0x100
  type word = x: int | 0 <= x < 0x1_0000

  // `b++`, `b--` and `a + b` on uint8_t; `w++`, `w + d` and `w - d` on uint16_t.
  function Inc8(b: byte): byte { if b == 0xFF then 0 else b + 1 }

  function Dec8(b: byte): byte { if b == 0 then 0xFF else b - 1 }

  function Add8(a: byte, b: byte): byte { if a + b < 0x100 then a + b else a + b - 0x100 }

  function Inc16(w: word): word { if w == 0xFFFF then 0 else w + 1 }

  function Add16(w: word, d: int): word
    requires -0x1_0000 <= d <= 0x1_0000
  {
    if w + d < 0 then w + d + 0x1_0000 else if w + d < 0x1_0000 then w + d else w + d - 0x1_0000
  }

  lemma AddsModulo(a: byte, b: byte, w: word, d: int)
    requires -0x1_0000 <= d <= 0x1_0000
    ensures Add8(a, b) == (a + b) % 0x100 && Inc8(a) == (a + 1) % 0x100 && Dec8(a) == (a - 1) % 0x100
    ensures Add16(w, d) == (w + d) % 0x1_0000 && Inc16(w) == (w + 1) % 0x1_0000
  {
  }

  function Lo(w: word): byte { w % 0x100 }

  function Hi(w: word): byte { w / 0x100 }

  function Word(lo: byte, hi: byte): word { lo + 0x100 * hi }

  function AndBits(x: bv8, y: bv8): bv8 { x & y }

  function OrBits(x: bv8, y: bv8): bv8 { x | y }

  function XorBits(x: bv8, y: bv8): bv8 { x ^ y }

  function And8(a: byte, b: byte): byte { AndBits(a as bv8, b as bv8) as int }

  function Xor8(a: byte, b: byte): byte { XorBits(a as bv8, b as bv8) as int }

  // `0 | b` is `b`: the case every driven instruction meets when it ORs the
  // high byte into a freshly loaded low byte.
  function Or8(a: byte, b: byte): byte {
    if a == 0 then b else OrBits(a as bv8, b as bv8) as int
  }

  // `w |= v << 8`
  function OrHigh(w: word, v: byte): (r: word)
    ensures w < 0x100 ==> r == Word(w, v)
  {
    Word(Lo(w), Or8(Hi(w), v))
  }

  // `w |= v`
  function OrLow(w: word, v: byte): word { Word(Or8(Lo(w), v), Hi(w)) }

  function Signed(b: byte): int { if b < 0x80 then b else b - 0x100 }

  predicate SamePage(a: word, b: word) { Hi(a) == Hi(b) }

  predicate Bit7(x: int)
    requires 0 <= x
  {
    x / 0x80 % 2 == 1
  }
}
