// What the static handlers do and count, in numbers. Those that agree with their
// staged form carry this over to it; the others do it on their own.
module StaticForms {
  import opened Words
  import opened Wrappers
  import opened Registers
  import opened Bus
  import opened Isa
  import opened Operate
  import opened Staged
  import opened Static
  import opened Agreement
  import opened Endings
  import opened Addressing
  import opened Effects

  // ---- Operands ------------------------------------------------------------

  lemma EffectKeeps<M>(op: ReadOp, g: Got<M>)
    ensures OnGot(op, g).r.PC == g.k.r.PC
  {
  }

  lemma OperandTaken<M>(bus: BusOps<M>, op: ReadOp, mode: Mode, k: Core<M>)
    requires EightModes(mode)
    ensures var g, p := Operand(bus, mode, k, None), Located(bus, mode, k.r, k.m);
            && OnGot(op, g).m == bus.afterRead(p.m, p.addr)
            && Effected(op, k.r, bus.peek(p.m, p.addr), OnGot(op, g).r)
            && OnGot(op, g).r.PC == (k.r.PC + Length(mode)) % 0x1_0000
            && g.cycles == ReadingTakes(bus, mode, k.r, k.m)
  {
    hide Operand, OnOperand, Effected, Located, ReadingTakes;
    var g := Operand(bus, mode, k, None);
    OperandLocated(bus, mode, k);
    EffectMeant(op, g.k.r, g.v);
    EffectKeeps(op, g);
    EffectedThere(op, k.r, g.k.r.PC, g.v, OnOperand(op, g.v, g.k.r));
  }

  // The static reading instructions. The bytewise ones read an unset address in the
  // absolute indexed modes; LDX and LDY count one cycle more than their reads take,
  // but for immediate and page-zero operands.
  lemma ReadingInNumbers<M>(bus: BusOps<M>, op: ReadOp, mode: Mode, k: Core<M>, u: Unset)
    requires TabledReading(op, mode) && EightModes(mode) && (op.LDX? ==> !mode.AbsoluteY?)
    ensures var s, p := RunReading(bus, op, mode, k, u), Located(bus, mode, k.r, k.m);
            var astray := (op.AND? || op.ORA? || op.EOR?) && (mode.AbsoluteX? || mode.AbsoluteY?);
            var at := if astray then u.addr8 else p.addr;
            && s.k.m == bus.afterRead(p.m, at) && Effected(op, k.r, bus.peek(p.m, at), s.k.r)
            && s.k.r.PC == (k.r.PC + Length(mode)) % 0x1_0000
            && s.cycles == ReadingTakes(bus, mode, k.r, k.m)
                           + Bit((op.LDX? || op.LDY?) && !mode.Immediate? && !mode.ZeroPage?)
  {
    hide Operand, OnOperand, Effected, Located, ReadingTakes;
    var g := Operand(bus, mode, k, if IsLogic(op) then Some(u.addr8) else None);
    OperandAstray(bus, mode, k, u.addr8);
    OperandLocated(bus, mode, k);
    EffectMeant(op, g.k.r, g.v);
    EffectKeeps(op, g);
    EffectedThere(op, k.r, g.k.r.PC, g.v, OnOperand(op, g.v, g.k.r));
  }

  // The operand at an unset address.
  lemma OperandAstray<M>(bus: BusOps<M>, mode: Mode, k: Core<M>, unset: byte)
    requires EightModes(mode)
    ensures var g, h := Operand(bus, mode, k, Some(unset)), Operand(bus, mode, k, None);
            var p := Located(bus, mode, k.r, k.m);
            && g.k.r == h.k.r && g.cycles == h.cycles
            && if mode.AbsoluteX? || mode.AbsoluteY?
               then g.v == bus.peek(p.m, unset) && g.k.m == bus.afterRead(p.m, unset)
               else g == h
  {
    hide Address, Located;
    if mode.AbsoluteX? || mode.AbsoluteY? { AddressLocated(bus, mode, k); }
  }

  // In the two modes the table has and the code does not, static LDX loads what an
  // unset local holds, counts what another holds, and fetches nothing.
  lemma UnsetLoad<M>(bus: BusOps<M>, mode: Mode, k: Core<M>, u: Unset)
    requires mode.ZeroPageY? || mode.AbsoluteY?
    ensures var s := RunReading(bus, LDX, mode, k, u);
            s.k.m == k.m && Effected(LDX, k.r, u.operand, s.k.r) && s.k.r.PC == k.r.PC && s.cycles == u.cycles
  {
    hide Effected, OnOperand;
    EffectMeant(LDX, k.r, u.operand);
    EffectKeeps(LDX, Got(u.operand, k, 0));
  }

  // Static ADC and SBC: the sum or difference with the byte read, and every flag that
  // the unset `flag_bits` hold on top of its own.
  lemma AddingInNumbers<M>(bus: BusOps<M>, op: AddOp, mode: Mode, k: Core<M>, u: Unset) returns (t: Regs)
    requires EightModes(mode)
    ensures var s, p := RunAdding(bus, op, mode, k, u), Located(bus, mode, k.r, k.m);
            var at := if mode.AbsoluteX? || mode.AbsoluteY? then u.addr8 else p.addr;
            && Summed(op, k.r, bus.peek(p.m, at), t) && t.PC == (k.r.PC + Length(mode)) % 0x1_0000
            && s.k.m == bus.afterRead(p.m, at) && s.k.r == t.(SR := s.k.r.SR)
            && (forall i: nat | i < 8 :: Flag(s.k.r.SR, i) <==> Flag(t.SR, i) || Flag(u.flags, i))
            && s.cycles == ReadingTakes(bus, mode, k.r, k.m)
  {
    hide Operand, OnAddend, Summed, Located, ReadingTakes;
    var g := Operand(bus, mode, k, Some(u.addr8));
    OperandAstray(bus, mode, k, u.addr8);
    OperandLocated(bus, mode, k);
    t := OnAddend(op, k.r.SR.D, g.v, g.k.r);
    AddendAdds(op, g.v, g.k.r);
    SummedThere(op, k.r, g.k.r.PC, g.v, t);
    AddendFlags(op, k.r.SR.D, g.v, g.k.r);
  }

  // Every static store, also in the modes whose staged form never ends, writes the
  // register once and last.
  lemma StoreInNumbers<M>(bus: BusOps<M>, op: StoreOp, mode: Mode, k: Core<M>)
    requires TabledStoring(op, mode)
    ensures var s, p := RunStore(bus, op, mode, k), Located(bus, mode, k.r, k.m);
            && s.k.m == bus.afterWrite(p.m, p.addr, if op.STA? then k.r.A else if op.STX? then k.r.X else k.r.Y)
            && s.k.r == k.r.(PC := (k.r.PC + Length(mode)) % 0x1_0000)
            && s.cycles == WritingTakes(p, mode)
  {
    hide Address, Located;
    AddressLocated(bus, mode, k);
    PcLocated(bus, mode, k.r, k.m);
    WritingTakesThese(bus, mode, k.r, k.m);
  }

  // INC and DEC read the addressed byte, and write it back one up or one down modulo
  // 256.
  lemma BumpInNumbers<M>(bus: BusOps<M>, op: BumpOp, mode: Mode, k: Core<M>)
    requires RmwMode(mode)
    ensures var s, p := RunBump(bus, op, mode, k), Located(bus, mode, k.r, k.m);
            var v: byte := (bus.peek(p.m, p.addr) + (if op.INC? then 1 else -1)) % 0x100;
            && s.k.m == bus.afterWrite(bus.afterRead(p.m, p.addr), p.addr, v)
            && s.k.r == k.r.(PC := (k.r.PC + Length(mode)) % 0x1_0000, SR := k.r.SR.(N := v >= 0x80, Z := v == 0))
            && s.cycles == WritingTakes(p, mode) + 2
  {
    hide Address, Located;
    AddressLocated(bus, mode, k);
    PcLocated(bus, mode, k.r, k.m);
    WritingTakesThese(bus, mode, k.r, k.m);
  }

  // One shift of a byte through the carry `c`, its bits and the carry it leaves.
  ghost predicate ShiftedOnce(op: ShiftOp, o: byte, c: bool, v: byte, out: bool) {
    match op
    case ASL => v + 0x100 * Bit(out) == 2 * o
    case ROL => v + 0x100 * Bit(out) == 2 * o + Bit(c)
    case LSR => 2 * v + Bit(out) == o
    case ROR => 2 * v + Bit(out) == o + 0x100 * Bit(c)
  }

  lemma RunShiftParts<M>(bus: BusOps<M>, op: ShiftOp, mode: Mode, k: Core<M>)
    requires RmwMode(mode)
    ensures var s, e := RunShift(bus, op, mode, k), Address(bus, mode, k);
            var f := Read(bus, e.k, e.addr);
            var o := ShiftOnce(op, f.v, k.r.SR.C);
            && s.k.m == bus.afterWrite(f.k.m, e.addr, Lo(o.v)) && s.cycles == ModifyCycles(mode)
            && s.k.r == f.k.r.(SR := SetNZC(k.r.SR, Lo(o.v), o.c))
  {
    hide Address, ShiftOnce, Lo, SetNZC;
  }

  // The static shifts of memory shift once and write, which the staged ones do not.
  lemma ShiftInNumbers<M>(bus: BusOps<M>, op: ShiftOp, mode: Mode, k: Core<M>) returns (v: byte)
    requires RmwMode(mode)
    ensures var s, p := RunShift(bus, op, mode, k), Located(bus, mode, k.r, k.m);
            && ShiftedOnce(op, bus.peek(p.m, p.addr), k.r.SR.C, v, s.k.r.SR.C) && Describes(s.k.r.SR, v)
            && s.k.m == bus.afterWrite(bus.afterRead(p.m, p.addr), p.addr, v)
            && s.k.r == k.r.(PC := (k.r.PC + Length(mode)) % 0x1_0000,
                             SR := k.r.SR.(C := s.k.r.SR.C, Z := s.k.r.SR.Z, N := s.k.r.SR.N))
            && s.cycles == WritingTakes(p, mode) + 2
  {
    hide RunShift, Address, Located, ShiftOnce, ShiftedOnce, WritingTakes, Lo;
    RunShiftParts(bus, op, mode, k);
    AddressLocated(bus, mode, k);
    PcLocated(bus, mode, k.r, k.m);
    WritingTakesThese(bus, mode, k.r, k.m);
    var p := Located(bus, mode, k.r, k.m);
    var o := ShiftOnce(op, bus.peek(p.m, p.addr), k.r.SR.C);
    v := Lo(o.v);
    ByteShifted(op, bus.peek(p.m, p.addr), k.r.SR.C);
  }

  lemma ByteShifted(op: ShiftOp, b: byte, c: bool)
    ensures var o := ShiftOnce(op, b, c); ShiftedOnce(op, b, c, Lo(o.v), o.c)
  {
    hide ShiftOnce, Lo;
    var r := Regs(b, 0, 0, 0, 0, CLEAR.(C := c));
    ShiftsAreArithmetic(op, r);
    ShiftFlags(op, r);
  }

  // A static branch counts as the staged one does and never goes anywhere.
  lemma BranchInNumbers<M>(bus: BusOps<M>, op: BranchOp, k: Core<M>)
    ensures var s, next := RunBranch(bus, op, k), (k.r.PC + 1) % 0x1_0000;
            var target := Displaced(next, bus.peek(k.m, k.r.PC));
            && s.k == Core(k.r.(PC := next), bus.afterRead(k.m, k.r.PC))
            && s.cycles == if !GoesBy(op, k.r.SR) then 1 else if target / 0x100 == next / 0x100 then 2 else 3
  {
    hide GoesBy, Isa.Taken;
    GoesIfTaken(op, k.r.SR);
    DisplacedAdds(Inc16(k.r.PC), bus.peek(k.m, k.r.PC));
  }

  lemma InherentInNumbers<M>(bus: BusOps<M>, op: InherentOp, mode: Mode, k: Core<M>, u: Unset)
    ensures var s := Run(bus, Inherent(op), mode, k, u);
            s.k.m == k.m && Inherently(op, k.r, s.k.r) && s.cycles == (if op.SED? then 0 else 1)
  {
    hide OneByte, Inherently;
    InherentMeant(op, k.r);
  }

  // ---- The stack and interrupts --------------------------------------------

  // The bytes above the stack pointer, `n` places up, wrapping in page one.
  function Above(sp: byte, n: nat): word { 0x100 + (sp + n) % 0x100 }

  // The flags a pulled byte leaves: its bits, but B and IGN clear.
  ghost predicate Restored(b: byte, s: Status) {
    !s.B && !s.IGN && forall i: nat | i < 8 && i != 4 && i != 5 :: BitOf(Pack(s), i) == BitOf(b, i)
  }

  lemma PulledRestores(b: byte)
    ensures Restored(b, Pulled(b))
  {
    hide BitOf, Pack, Unpack;
    var s := Unpack(b);
    PackAfterUnpack(b);
    forall i: nat | i < 8 && i != 4 && i != 5 ensures BitOf(Pack(Pulled(b)), i) == BitOf(b, i) {
      BitOfFlags(Pulled(b), i);
      BitOfFlags(s, i);
    }
  }

  // Three bytes on the stack: PC, high byte first, and then `status`.
  function Saved<M>(bus: BusOps<M>, m: M, sp: byte, pc: word, status: byte): M {
    var m1 := bus.afterWrite(m, 0x100 + sp, pc / 0x100);
    var m2 := bus.afterWrite(m1, 0x100 + (sp - 1) % 0x100, pc % 0x100);
    bus.afterWrite(m2, 0x100 + (sp - 2) % 0x100, status)
  }

  // These, interrupts inhibited, and PC from the word at `vector`.
  ghost predicate Entered<M>(bus: BusOps<M>, k: Core<M>, status: byte, vector: word, j: Core<M>)
    requires vector < 0xFFFF
  {
    var m := Saved(bus, k.m, k.r.SP, k.r.PC, status);
    var m1 := bus.afterRead(m, vector);
    && j.m == bus.afterRead(m1, vector + 1)
    && j.r == k.r.(SP := (k.r.SP - 3) % 0x100, SR := k.r.SR.(I := true),
                   PC := bus.peek(m, vector) + 0x100 * bus.peek(m1, vector + 1))
  }

  lemma InterruptedSaves<M>(bus: BusOps<M>, k: Core<M>)
    ensures var j := Interrupted(bus, k);
            && j.m == Saved(bus, k.m, k.r.SP, k.r.PC, Pack(k.r.SR))
            && j.r == k.r.(SP := (k.r.SP - 3) % 0x100, SR := k.r.SR.(I := true))
  {
    hide Pack;
  }

  lemma InterruptEnters<M>(bus: BusOps<M>, k: Core<M>, vector: word)
    requires vector < 0xFFFF
    ensures Entered(bus, k, Pack(k.r.SR), vector, RunInterrupt(bus, k, vector).k)
  {
    hide Pack, Interrupted, Saved;
    InterruptedSaves(bus, k);
  }

  // The byte after the opcode of BRK is read and skipped.
  lemma BrkEnters<M>(bus: BusOps<M>, k: Core<M>)
    ensures var skipped := Core(k.r.(PC := (k.r.PC + 1) % 0x1_0000), bus.afterRead(k.m, k.r.PC));
            Entered(bus, skipped, Pack(k.r.SR.(B := true)), 0xFFFA, RunBrk(bus, k).k) && RunBrk(bus, k).cycles == 6
  {
    hide Pack;
  }

  // The static request handler goes on where the staged one stops.
  lemma IrqInNumbers<M>(bus: BusOps<M>, mode: Mode, k: Core<M>, u: Unset)
    ensures var s := Run(bus, Control(IRQ), mode, k, u);
            Entered(bus, k, Pack(k.r.SR), 0xFFFE, s.k) && s.cycles == 5
  {
    hide Pack, Interrupted, Entered;
    InterruptEnters(bus, k, 0xFFFE);
  }
}
