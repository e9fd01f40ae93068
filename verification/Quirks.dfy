// The staged handlers that part from their static form without being unfinished:
// exactly what LDA does in its indirect modes, CMP in page zero and absolute mode,
// and the shifts of memory.
module Quirks {
  import opened Words
  import opened Registers
  import opened Bus
  import opened Isa
  import opened Operate
  import opened Staged
  import opened Static
  import opened Agreement
  import opened Differences
  import opened Addressing
  import opened Bits
  import opened Effects
  import opened Executor

  // CMP in every mode that begins in page zero ends in its first call: it has fetched
  // one byte, and compares with what the operand local was left at.
  lemma ComparePageZero<M>(bus: BusOps<M>, m: Mode, c: Cpu<M>)
    requires ZpBased(m)
    ensures var d, k := Drive(bus, Reading(CMP), m, 1, c), c.k;
            && d.Driven? && d.calls == 1 && d.c.k.m == bus.afterRead(k.m, k.r.PC)
            && Effected(CMP, k.r, c.l.operand % 0x100, d.c.k.r) && d.c.k.r.PC == (k.r.PC + 1) % 0x1_0000
            && d.c.l == c.l.(addr8 := bus.peek(k.m, k.r.PC))
  {
    hide Drive, OnOperand, Effected;
    var f := Fetch(bus, c.k);
    var o: byte := c.l.operand % 0x100;
    EffectMeant(CMP, f.k.r, o);
    EffectedThere(CMP, c.k.r, f.k.r.PC, o, OnOperand(CMP, o, f.k.r));
    CompareKeepsPc(f.k.r, o);
    Finishes(bus, Reading(CMP), m, 1, c, StepReading(bus, CMP, m, 1, c).c);
  }

  // In a launch that has not compared before, that is 0.
  lemma FirstComparePageZero<M>(bus: BusOps<M>, m: Mode, i: Inner<M>)
    requires ZpBased(m) && i.cycle == 1 && Reading(CMP) !in i.x.latches
    ensures var j := HandlerCall(bus, Reading(CMP), m, i);
            j.next == End && Effected(CMP, i.x.k.r, 0, j.x.k.r) && j.x.total == i.x.total + 1
  {
    hide Drive, Effected;
    var c := Cpu(i.x.k, LatchOf(i.x.latches, Reading(CMP)));
    ComparePageZero(bus, m, c);
    var s := StepReading(bus, CMP, m, 1, c);
    assert s.ended;
    Finishes(bus, Reading(CMP), m, 1, c, s.c);
  }

  lemma CompareKeepsPc(r: Regs, o: byte)
    ensures OnOperand(CMP, o, r).PC == r.PC
  {
  }

  // CMP absolute fetches its address and compares with the page-zero byte that the
  // last CMP of the kind above named.
  lemma CompareAbsolute<M>(bus: BusOps<M>, c: Cpu<M>)
    ensures var d, p := Drive(bus, Reading(CMP), Absolute, 1, c), Located(bus, Absolute, c.k.r, c.k.m);
            && d.Driven? && d.calls == 3 && d.c.k.m == bus.afterRead(p.m, c.l.addr8)
            && Effected(CMP, c.k.r, bus.peek(p.m, c.l.addr8), d.c.k.r) && d.c.k.r.PC == (c.k.r.PC + 2) % 0x1_0000
  {
    hide Drive, OnOperand, Effected;
    var s1 := StepReading(bus, CMP, Absolute, 1, c).c;
    Continues(bus, Reading(CMP), Absolute, 1, c, s1);
    var s2 := StepReading(bus, CMP, Absolute, 2, s1).c;
    Continues(bus, Reading(CMP), Absolute, 2, s1, s2);
    FetchedWord(bus, c.k);
    var o := bus.peek(s2.k.m, c.l.addr8);
    EffectMeant(CMP, s2.k.r, o);
    EffectedThere(CMP, c.k.r, s2.k.r.PC, o, OnOperand(CMP, o, s2.k.r));
    CompareKeepsPc(s2.k.r, o);
    Finishes(bus, Reading(CMP), Absolute, 3, s2, StepReading(bus, CMP, Absolute, 3, s2).c);
  }

  // ---- LDA through a pointer -----------------------------------------------

  lemma LoadEnds<M>(bus: BusOps<M>, m: Mode, cycle: nat, c: Cpu<M>, o: byte, d: Cpu<M>)
    requires cycle <= 6 && StepReading(bus, LDA, m, cycle, c) == Stepped(d, true)
    requires d.k.r == OnOperand(LDA, o, c.k.r)
    ensures Drive(bus, Reading(LDA), m, cycle, c) == Driven(d, cycle) && Effected(LDA, c.k.r, o, d.k.r)
  {
    hide Drive, StepReading, OnOperand, Effected;
    EffectMeant(LDA, c.k.r, o);
    Finishes(bus, Reading(LDA), m, cycle, c, d);
  }

  // (zp,X): the high byte of the pointer is never read, so the operand is the
  // page-zero byte that the low byte names.
  lemma LoadIndexedIndirect<M>(bus: BusOps<M>, c: Cpu<M>)
    ensures var d, k := Drive(bus, Reading(LDA), IndexedIndirect, 1, c), c.k;
            var m1 := bus.afterRead(k.m, k.r.PC);
            var zp: byte := (bus.peek(k.m, k.r.PC) + k.r.X) % 0x100;
            var lo, m2 := bus.peek(m1, zp), bus.afterRead(m1, zp);
            && d.Driven? && d.calls == 5 && d.c.k.m == bus.afterRead(m2, lo)
            && Effected(LDA, k.r, bus.peek(m2, lo), d.c.k.r) && d.c.k.r.PC == (k.r.PC + 1) % 0x1_0000
  {
    hide Drive, OnOperand, Effected;
    var s := LoadPointerIndexed(bus, c);
    var s4 := StepReading(bus, LDA, IndexedIndirect, 4, s).c;
    Continues(bus, Reading(LDA), IndexedIndirect, 4, s, s4);
    LoadLast(bus, IndexedIndirect, c, s4);
  }

  lemma LoadPointerIndexed<M>(bus: BusOps<M>, c: Cpu<M>) returns (s: Cpu<M>)
    ensures Drive(bus, Reading(LDA), IndexedIndirect, 1, c) == Drive(bus, Reading(LDA), IndexedIndirect, 4, s)
    ensures s.k == Fetch(bus, c.k).k && s.l.addr8 == (bus.peek(c.k.m, c.k.r.PC) + c.k.r.X) % 0x100
  {
    hide Drive, OnOperand;
    var m := IndexedIndirect;
    var s1 := StepReading(bus, LDA, m, 1, c).c;
    Continues(bus, Reading(LDA), m, 1, c, s1);
    Continues(bus, Reading(LDA), m, 2, s1, s1);
    s := StepReading(bus, LDA, m, 3, s1).c;
    Continues(bus, Reading(LDA), m, 3, s1, s);
  }

  // The fifth call reads through addr16, wherever it points.
  lemma LoadLast<M>(bus: BusOps<M>, m: Mode, c: Cpu<M>, s: Cpu<M>)
    requires IndirectMode(m) && s.k.r == Fetch(bus, c.k).k.r
    ensures var d, o := Drive(bus, Reading(LDA), m, 5, s), bus.peek(s.k.m, s.l.addr16);
            && d.Driven? && d.calls == 5 && d.c.k.m == bus.afterRead(s.k.m, s.l.addr16)
            && Effected(LDA, c.k.r, o, d.c.k.r) && d.c.k.r.PC == (c.k.r.PC + 1) % 0x1_0000
  {
    hide Drive, Effected;
    var o := bus.peek(s.k.m, s.l.addr16);
    var d := StepReading(bus, LDA, m, 5, s).c;
    LoadEnds(bus, m, 5, s, o, d);
    EffectedThere(LDA, c.k.r, s.k.r.PC, o, d.k.r);
  }

  // (zp),Y: the high byte is ORed into the low one, so the base lies in page zero; a
  // fifth call is needed if the index leaves it.
  lemma LoadIndirectIndexed<M>(bus: BusOps<M>, c: Cpu<M>) returns (base: byte)
    ensures var d, k := Drive(bus, Reading(LDA), IndirectIndexed, 1, c), c.k;
            var b, m1 := bus.peek(k.m, k.r.PC), bus.afterRead(k.m, k.r.PC);
            var second := (b + 1) % 0x100;
            var m2 := bus.afterRead(m1, b);
            var m3, at := bus.afterRead(m2, second), base + k.r.Y;
            && (forall i: nat | i < 8 ::
                  BitOf(base, i) <==> BitOf(bus.peek(m1, b), i) || BitOf(bus.peek(m2, second), i))
            && d.Driven? && d.calls == (if at >= 0x100 then 5 else 4) && d.c.k.m == bus.afterRead(m3, at)
            && Effected(LDA, k.r, bus.peek(m3, at), d.c.k.r) && d.c.k.r.PC == (k.r.PC + 1) % 0x1_0000
  {
    hide Drive, OnOperand, Effected, BitOf, Or8, OrLow;
    var m := IndirectIndexed;
    var s1 := StepReading(bus, LDA, m, 1, c).c;
    Continues(bus, Reading(LDA), m, 1, c, s1);
    Continues(bus, Reading(LDA), m, 2, s1, s1);
    var s3 := StepReading(bus, LDA, m, 3, s1).c;
    Continues(bus, Reading(LDA), m, 3, s1, s3);
    base := Or8(s3.l.addr16, bus.peek(s3.k.m, s3.l.addr8));
    OredIntoLow(s3.l.addr16, bus.peek(s3.k.m, s3.l.addr8));
    LoadIndexed(bus, c, s3, base);
  }

  lemma OredIntoLow(lo: byte, hi: byte)
    ensures OrLow(lo, hi) == Or8(lo, hi)
    ensures forall i: nat | i < 8 :: BitOf(Or8(lo, hi), i) <==> BitOf(lo, i) || BitOf(hi, i)
  {
    hide Or8, BitOf;
    forall i: nat | i < 8 ensures BitOf(Or8(lo, hi), i) <==> BitOf(lo, i) || BitOf(hi, i) { BitwiseBytes(lo, hi, i); }
  }

  // The fourth call reads the pointer's second byte and, in the same call, the operand
  // if the index stays on the page.
  lemma FourthCall<M>(bus: BusOps<M>, s: Cpu<M>, base: byte)
    requires base == OrLow(s.l.addr16, bus.peek(s.k.m, s.l.addr8))
    ensures var d, m := StepReading(bus, LDA, IndirectIndexed, 4, s), bus.afterRead(s.k.m, s.l.addr8);
            var at := base + s.k.r.Y;
            if at >= 0x100 then !d.ended && d.c.k == Core(s.k.r, m) && d.c.l.addr16 == at
            else d.ended && d.c.k == Core(OnOperand(LDA, bus.peek(m, at), s.k.r), bus.afterRead(m, at))
  {
    hide Drive, OrLow, SamePage, OnOperand;
    CrossesIff(base, s.k.r.Y);
  }

  lemma LoadIndexed<M>(bus: BusOps<M>, c: Cpu<M>, s: Cpu<M>, base: byte)
    requires s.k.r == Fetch(bus, c.k).k.r && base == OrLow(s.l.addr16, bus.peek(s.k.m, s.l.addr8))
    ensures var d, m := Drive(bus, Reading(LDA), IndirectIndexed, 4, s), bus.afterRead(s.k.m, s.l.addr8);
            var at := base + c.k.r.Y;
            && d.Driven? && d.calls == (if at >= 0x100 then 5 else 4) && d.c.k.m == bus.afterRead(m, at)
            && Effected(LDA, c.k.r, bus.peek(m, at), d.c.k.r) && d.c.k.r.PC == (c.k.r.PC + 1) % 0x1_0000
  {
    hide Drive, Effected, StepReading, OrLow;
    FourthCall(bus, s, base);
    var d := StepReading(bus, LDA, IndirectIndexed, 4, s);
    if base + c.k.r.Y >= 0x100 {
      Continues(bus, Reading(LDA), IndirectIndexed, 4, s, d.c);
      LoadLast(bus, IndirectIndexed, c, d.c);
    } else {
      var o := bus.peek(bus.afterRead(s.k.m, s.l.addr8), base + c.k.r.Y);
      LoadEnds(bus, IndirectIndexed, 4, s, o, d.c);
      EffectedThere(LDA, c.k.r, s.k.r.PC, o, d.c.k.r);
    }
  }

  // ---- Shifts of memory ----------------------------------------------------

  // Two shifts of a byte held in sixteen bits: its low byte and the carry, in which
  // a bit that the first left shift moved out still counts.
  predicate ShiftedTwice(op: ShiftOp, o: byte, c: bool, v: byte, out: bool) {
    match op
    case ASL => v == 4 * o % 0x100 && (out <==> 4 * o >= 0x100)
    case ROL =>
      var w := 2 * o + Bit(c);
      var x := 2 * w + Bit(w >= 0x100);
      v == x % 0x100 && (out <==> x >= 0x100)
    case LSR => v == o / 4 && (out <==> o / 2 % 2 == 1)
    case ROR =>
      var w := o / 2 + 0x80 * Bit(c);
      v == w / 2 + 0x80 * Bit(o % 2 == 1) && (out <==> w % 2 == 1)
  }

  // A staged shift of memory reads the operand, shifts it twice, sets the flags from
  // that and writes nothing.
  lemma ShiftTwice<M>(bus: BusOps<M>, op: ShiftOp, m: Mode, c: Cpu<M>) returns (v: byte)
    requires RmwMode(m)
    ensures var d, p := Drive(bus, Shifting(op), m, 1, c), Located(bus, m, c.k.r, c.k.m);
            && d.Driven? && d.calls == WritingTakes(p, m) + 2 && d.c.k.m == bus.afterRead(p.m, p.addr)
            && ShiftedTwice(op, bus.peek(p.m, p.addr), c.k.r.SR.C, v, d.c.k.r.SR.C) && Describes(d.c.k.r.SR, v)
            && d.c.k.r == c.k.r.(PC := (c.k.r.PC + Length(m)) % 0x1_0000,
                                 SR := c.k.r.SR.(C := d.c.k.r.SR.C, Z := d.c.k.r.SR.Z, N := d.c.k.r.SR.N))
  {
    hide Drive, Address, Located, Twice, Lo, ShiftedTwice;
    StagedShiftNeverWrites(bus, op, m, c);
    AddressLocated(bus, m, c.k);
    PcLocated(bus, m, c.k.r, c.k.m);
    WritingTakesThese(bus, m, c.k.r, c.k.m);
    var p := Located(bus, m, c.k.r, c.k.m);
    var o := bus.peek(p.m, p.addr);
    v := Lo(Twice(op, o, c.k.r.SR.C).v);
    TwiceInNumbers(op, o, c.k.r.SR.C);
  }

  lemma TwiceInNumbers(op: ShiftOp, o: byte, c: bool)
    ensures var t := Twice(op, o, c); ShiftedTwice(op, o, c, Lo(t.v), t.c)
  {
    hide Twice, ShiftedTwice, Lo;
    if op.ASL? || op.ROL? { LeftTwice(op, o, c); } else if op.LSR? { HalvedTwice(o, c); } else { RotatedTwice(o, c); }
  }

  lemma LeftTwice(op: ShiftOp, o: byte, c: bool)
    requires op.ASL? || op.ROL?
    ensures var t := Twice(op, o, c); ShiftedTwice(op, o, c, Lo(t.v), t.c)
  {
    hide Or8;
  }

  lemma HalvedTwice(o: byte, c: bool)
    ensures var t := Twice(LSR, o, c); ShiftedTwice(LSR, o, c, Lo(t.v), t.c)
  {
    hide Or8;
  }

  lemma RotatedTwice(o: byte, c: bool)
    ensures var t := Twice(ROR, o, c); ShiftedTwice(ROR, o, c, Lo(t.v), t.c)
  {
    hide Twice, Lo, ShiftOnce;
    var w: byte := o / 2 + 0x80 * Bit(c);
    RotatedOnce(o, c);
    RotatedOnce(w, o % 2 == 1);
    TwoRotations(o, c);
    SmallLow(w / 2 + 0x80 * Bit(o % 2 == 1));
  }

  lemma SmallLow(b: byte)
    ensures Lo(b) == b
  {
  }

  lemma TwoRotations(o: byte, c: bool)
    ensures var s := ShiftOnce(ROR, o, c); Twice(ROR, o, c) == ShiftOnce(ROR, s.v, s.c)
  {
    hide ShiftOnce;
  }

  lemma RotatedOnce(o: byte, c: bool)
    ensures ShiftOnce(ROR, o, c) == Operate.Shifted(o / 2 + 0x80 * Bit(c), o % 2 == 1)
  {
    hide Or8, Lo;
    SmallLow(o / 2);
    RotatedBits(o / 2, c);
  }

  lemma RotatedBits(h: byte, c: bool)
    requires h < 0x80
    ensures Or8(h, 0x80 * Bit(c)) == h + 0x80 * Bit(c)
  {
    hide Or8;
    if c { OrTopBit(h); } else { OrZero(h); }
  }
}
