// Where the operand of an instruction lies and what it costs to get there, in
// numbers: the bytes read on the way, each once and in order, sums modulo 256 or
// 65536, and the carry out of the low byte that costs a cycle.
module Addressing {
  import opened Words
  import opened Wrappers
  import opened Registers
  import opened Bus
  import opened Isa
  import opened Staged
  import opened Static
  import opened Agreement

  // The address, the bus and the program counter when it is known, how many reads
  // that took, and whether adding the index carried out of the low byte.
  datatype Place<M> = Place(addr: word, m: M, pc: word, taken: nat, carry: bool)

  function Located<M>(bus: BusOps<M>, mode: Mode, r: Regs, m: M): Place<M> {
    var next, last := (r.PC + 1) % 0x1_0000, (r.PC + 2) % 0x1_0000;
    var b := bus.peek(m, r.PC);
    var m1 := bus.afterRead(m, r.PC);
    var c := bus.peek(m1, next);
    var m2 := bus.afterRead(m1, next);
    match mode
    case Immediate => Place(r.PC, m, r.PC, 0, false)
    case ZeroPage => Place(b, m1, next, 1, false)
    case ZeroPageX => Place((b + r.X) % 0x100, m1, next, 1, false)
    case ZeroPageY => Place((b + r.Y) % 0x100, m1, next, 1, false)
    case AbsoluteX => Place((b + 0x100 * c + r.X) % 0x1_0000, m2, last, 2, b + r.X >= 0x100)
    case AbsoluteY => Place((b + 0x100 * c + r.Y) % 0x1_0000, m2, last, 2, b + r.Y >= 0x100)
    case IndexedIndirect => Pointed(bus, m1, next, (b + r.X) % 0x100, 0)
    case IndirectIndexed => Pointed(bus, m1, next, b, r.Y)
    case _ => Place(b + 0x100 * c, m2, last, 2, false)
  }

  // The word at `zp` in page zero, its second byte in page zero too, and an index.
  function Pointed<M>(bus: BusOps<M>, m: M, pc: word, zp: byte, index: byte): Place<M> {
    var second := (zp + 1) % 0x100;
    var m1 := bus.afterRead(m, zp);
    var lo, hi := bus.peek(m, zp), bus.peek(m1, second);
    Place((lo + 0x100 * hi + index) % 0x1_0000, bus.afterRead(m1, second), pc, 3, lo + index >= 0x100)
  }

  // Two addresses an index apart lie on different pages exactly when the index
  // carries out of the low byte, also at the end of the address space.
  lemma CrossesIff(a: word, index: byte)
    ensures SamePage(a, Add16(a, index)) <==> a % 0x100 + index < 0x100
  {
  }

  lemma WordParts(lo: byte, hi: byte)
    ensures Word(lo, hi) % 0x100 == lo && Word(lo, hi) == lo + 0x100 * hi
  {
  }

  lemma Steps(pc: word)
    ensures Inc16(pc) == (pc + 1) % 0x1_0000 && Inc16(Inc16(pc)) == (pc + 2) % 0x1_0000
  {
  }

  lemma WholeWord(lo: byte, hi: byte)
    ensures OrHigh(lo, hi) == lo + 0x100 * hi == (lo + 0x100 * hi + 0) % 0x1_0000
  {
    assert Word(lo, hi) == lo + 0x100 * hi;
  }

  lemma FetchedWord<M>(bus: BusOps<M>, k: Core<M>)
    ensures var e, p := FetchWord(bus, k), Located(bus, Absolute, k.r, k.m);
            e == Ea(p.addr, Core(k.r.(PC := p.pc), p.m), false)
  {
    hide Inc16, OrHigh;
    Steps(k.r.PC);
    var f := Fetch(bus, k);
    WholeWord(f.v, bus.peek(f.k.m, f.k.r.PC));
  }

  lemma PointerRead<M>(bus: BusOps<M>, k: Core<M>, zp: byte)
    ensures var e, p := PointerAt(bus, k, zp), Pointed(bus, k.m, k.r.PC, zp, 0);
            e == Ea(p.addr, Core(k.r, p.m), false) && p.pc == k.r.PC && !p.carry
  {
    hide Inc8, OrHigh;
    AddsModulo(zp, 0, 0, 0);
    WholeWord(bus.peek(k.m, zp), bus.peek(bus.afterRead(k.m, zp), Inc8(zp)));
  }

  lemma IndexAdds<M>(e: Ea<M>, index: byte)
    ensures Indexed(e, index) == Ea((e.addr + index) % 0x1_0000, e.k, e.addr % 0x100 + index >= 0x100)
  {
    hide SamePage, Add16;
    AddsModulo(0, 0, e.addr, index);
    CrossesIff(e.addr, index);
  }

  // What the effective address is in the form that `Located` gives it.
  ghost predicate Meets<M>(e: Ea<M>, k: Core<M>, p: Place<M>) {
    e == Ea(p.addr, Core(k.r.(PC := p.pc), p.m), p.carry)
  }

  lemma ZeroPageLocated<M>(bus: BusOps<M>, mode: Mode, k: Core<M>)
    requires mode.ZeroPage? || mode.ZeroPageX? || mode.ZeroPageY?
    ensures Meets(Address(bus, mode, k), k, Located(bus, mode, k.r, k.m))
  {
    hide Inc16, Add8;
    Steps(k.r.PC);
    AddsModulo(bus.peek(k.m, k.r.PC), k.r.X, 0, 0);
    AddsModulo(bus.peek(k.m, k.r.PC), k.r.Y, 0, 0);
  }

  // An index goes on top of the absolute address.
  lemma AbsoluteIndexed<M>(bus: BusOps<M>, r: Regs, m: M)
    ensures var p, x, y := Located(bus, Absolute, r, m), Located(bus, AbsoluteX, r, m), Located(bus, AbsoluteY, r, m);
            && x == p.(addr := (p.addr + r.X) % 0x1_0000, carry := p.addr % 0x100 + r.X >= 0x100)
            && y == p.(addr := (p.addr + r.Y) % 0x1_0000, carry := p.addr % 0x100 + r.Y >= 0x100)
  {
    WordParts(bus.peek(m, r.PC), bus.peek(bus.afterRead(m, r.PC), (r.PC + 1) % 0x1_0000));
  }

  lemma AbsoluteLocated<M>(bus: BusOps<M>, mode: Mode, k: Core<M>)
    requires AbsBased(mode)
    ensures Meets(Address(bus, mode, k), k, Located(bus, mode, k.r, k.m))
  {
    hide FetchWord, Indexed, Located;
    FetchedWord(bus, k);
    NoCarry(bus, k.r, k.m);
    AbsoluteIndexed(bus, k.r, k.m);
    IndexAdds(FetchWord(bus, k), k.r.X);
    IndexAdds(FetchWord(bus, k), k.r.Y);
  }

  lemma NoCarry<M>(bus: BusOps<M>, r: Regs, m: M)
    ensures !Located(bus, Absolute, r, m).carry
  {
  }

  lemma PointerIndexed<M>(bus: BusOps<M>, m: M, pc: word, zp: byte, index: byte)
    ensures var p, q := Pointed(bus, m, pc, zp, 0), Pointed(bus, m, pc, zp, index);
            q == p.(addr := (p.addr + index) % 0x1_0000, carry := p.addr % 0x100 + index >= 0x100)
  {
    WordIndexed(bus.peek(m, zp), bus.peek(bus.afterRead(m, zp), (zp + 1) % 0x100), index);
  }

  lemma WordIndexed(lo: byte, hi: byte, index: byte)
    ensures var w := (lo + 0x100 * hi + 0) % 0x1_0000;
            w % 0x100 == lo && (w + index) % 0x1_0000 == (lo + 0x100 * hi + index) % 0x1_0000
  {
    WordParts(lo, hi);
    assert lo + 0x100 * hi + 0 == Word(lo, hi);
    assert (lo + 0x100 * hi + 0) % 0x1_0000 == Word(lo, hi);
  }

  lemma PointerLocated<M>(bus: BusOps<M>, mode: Mode, k: Core<M>)
    requires IndirectMode(mode)
    ensures Meets(Address(bus, mode, k), k, Located(bus, mode, k.r, k.m))
  {
    hide PointerAt, Indexed, Pointed;
    var f := Fetch(bus, k);
    if mode.IndexedIndirect? {
      PointerRead(bus, f.k, Add8(f.v, k.r.X));
    } else {
      PointerRead(bus, f.k, f.v);
      IndexAdds(PointerAt(bus, f.k, f.v), k.r.Y);
      PointerIndexed(bus, f.k.m, f.k.r.PC, f.v, k.r.Y);
    }
  }

  // The effective address of every mode that names a byte of memory.
  lemma AddressLocated<M>(bus: BusOps<M>, mode: Mode, k: Core<M>)
    requires ZpBased(mode) || AbsBased(mode) || mode.ZeroPageY?
    ensures Meets(Address(bus, mode, k), k, Located(bus, mode, k.r, k.m))
  {
    hide Address, Located, Meets;
    if AbsBased(mode) { AbsoluteLocated(bus, mode, k); }
    else if IndirectMode(mode) { PointerLocated(bus, mode, k); }
    else { ZeroPageLocated(bus, mode, k); }
  }

  // ---- Cycles --------------------------------------------------------------

  function Carried(base: word, index: byte): nat { if base % 0x100 + index >= 0x100 then 1 else 0 }

  // What reading the operand takes after the opcode: four cycles instead of three,
  // or five instead of four, exactly if the index carries out of the base's low byte.
  function ReadingTakes<M>(bus: BusOps<M>, mode: Mode, r: Regs, m: M): nat {
    var zp, base := Located(bus, ZeroPage, r, m), Located(bus, Absolute, r, m).addr;
    match mode
    case Immediate => 1
    case ZeroPage => 2
    case AbsoluteX => 3 + Carried(base, r.X)
    case AbsoluteY => 3 + Carried(base, r.Y)
    case IndexedIndirect => 5
    case IndirectIndexed => 4 + Carried(Pointed(bus, zp.m, zp.pc, zp.addr, 0).addr, r.Y)
    case _ => 3
  }

  lemma PointerPlace<M>(bus: BusOps<M>, r: Regs, m: M)
    ensures var zp := Located(bus, ZeroPage, r, m);
            && zp.addr == bus.peek(m, r.PC)
            && Located(bus, IndirectIndexed, r, m) == Pointed(bus, zp.m, zp.pc, zp.addr, r.Y)
  {
    hide Pointed;
  }

  lemma ReadingTakesThese<M>(bus: BusOps<M>, mode: Mode, k: Core<M>)
    requires ZpBased(mode) || AbsBased(mode)
    ensures ReadCycles(mode, Located(bus, mode, k.r, k.m).carry) == ReadingTakes(bus, mode, k.r, k.m)
  {
    hide Located, Pointed;
    var zp := Located(bus, ZeroPage, k.r, k.m);
    PointerPlace(bus, k.r, k.m);
    PointerIndexed(bus, zp.m, zp.pc, bus.peek(k.m, k.r.PC), k.r.Y);
    AbsoluteIndexed(bus, k.r, k.m);
  }

  // An operand, the bus and the registers after it has been read, and the cycles.
  lemma OperandLocated<M>(bus: BusOps<M>, mode: Mode, k: Core<M>)
    requires EightModes(mode)
    ensures var g, p := Operand(bus, mode, k, None), Located(bus, mode, k.r, k.m);
            && g.v == bus.peek(p.m, p.addr) && g.k.m == bus.afterRead(p.m, p.addr)
            && g.k.r == k.r.(PC := (k.r.PC + Length(mode)) % 0x1_0000)
            && g.cycles == ReadingTakes(bus, mode, k.r, k.m)
  {
    hide Address, Located, ReadingTakes;
    if mode.Immediate? {
      ImmediateLocated(bus, k);
    } else {
      AddressLocated(bus, mode, k);
      PcLocated(bus, mode, k.r, k.m);
      ReadingTakesThese(bus, mode, k);
    }
  }

  // What writing a byte there takes: a cycle for each read on the way, one for the
  // index if there is one, and one for the write. Reading it first, and changing it,
  // take one each.
  function WritingTakes<M>(p: Place<M>, mode: Mode): nat { p.taken + Bit(HasIndex(mode)) + 1 }

  predicate HasIndex(mode: Mode) {
    mode.ZeroPageX? || mode.ZeroPageY? || mode.AbsoluteX? || mode.AbsoluteY? || IndirectMode(mode)
  }

  lemma WritingTakesThese<M>(bus: BusOps<M>, mode: Mode, r: Regs, m: M)
    requires ZpBased(mode) || AbsBased(mode) || mode.ZeroPageY?
    ensures WritingTakes(Located(bus, mode, r, m), mode) == WriteCycles(mode)
    ensures RmwMode(mode) ==> WritingTakes(Located(bus, mode, r, m), mode) + 2 == ModifyCycles(mode)
  {
  }

  // The bytes of an operand in the program.
  function Length(mode: Mode): nat { if mode.Absolute? || mode.AbsoluteX? || mode.AbsoluteY? then 2 else 1 }

  lemma PcLocated<M>(bus: BusOps<M>, mode: Mode, r: Regs, m: M)
    requires !mode.Immediate? && (ZpBased(mode) || AbsBased(mode) || mode.ZeroPageY?)
    ensures Located(bus, mode, r, m).pc == (r.PC + Length(mode)) % 0x1_0000
  {
  }

  lemma ImmediateLocated<M>(bus: BusOps<M>, k: Core<M>)
    ensures var g, p := Operand(bus, Immediate, k, None), Located(bus, Immediate, k.r, k.m);
            && g.v == bus.peek(p.m, p.addr) && g.k.m == bus.afterRead(p.m, p.addr)
            && g.k.r == k.r.(PC := (k.r.PC + 1) % 0x1_0000)
            && g.cycles == ReadingTakes(bus, Immediate, k.r, k.m)
  {
  }
}
