// Whole instructions as procedures: a staged handler called until it ends, and
// what registers, bus and cycle count are then.
module Execution {
  import opened Words
  import opened Wrappers
  import opened Registers
  import opened Bus
  import opened Isa
  import opened Operate
  import opened Staged
  import opened Static
  import opened Agreement
  import opened Differences
  import opened Interrupts
  import opened Addressing
  import opened Effects
  import opened StaticForms
  import opened Processor
  import opened Handlers
  import opened Cmos
  import opened CmosHandlers

  // The inner loop of an undisturbed instruction.
  method RunToEnd<M>(cpu: Processor<M>, st: Statics, op: Op, mode: Mode) returns (cycles: nat)
    requires Drive(cpu.bus, op, mode, 1, Now(cpu, st)).Driven?
    modifies cpu, st
    ensures Driven(Now(cpu, st), cycles) == Drive(cpu.bus, op, mode, 1, old(Now(cpu, st)))
  {
    hide Step;
    ghost var d := Drive(cpu.bus, op, mode, 1, Now(cpu, st));
    cycles := 0;
    var end := false;
    while !end
      invariant cycles <= 6
      invariant d == if end then Driven(Now(cpu, st), cycles) else Drive(cpu.bus, op, mode, cycles + 1, Now(cpu, st))
      decreases !end, 6 - cycles
    {
      cycles := cycles + 1;
      end := Call(cpu, st, op, mode, cycles);
    }
  }

  // ---- Operands ------------------------------------------------------------

  // The operand is the byte at the address the mode names, and is read once, last.
  method ExecuteReading<M>(cpu: Processor<M>, st: Statics, op: ReadOp, mode: Mode) returns (cycles: nat)
    requires AluTimed(op, mode)
    modifies cpu, st
    ensures var k, bus := old(cpu.View()), cpu.bus;
            var p := Located(bus, mode, k.r, k.m);
            && cpu.memory == bus.afterRead(p.m, p.addr)
            && Effected(op, k.r, bus.peek(p.m, p.addr), cpu.View().r)
            && cpu.PC == (k.r.PC + Length(mode)) % 0x1_0000
            && cycles == ReadingTakes(bus, mode, k.r, k.m)
  {
    hide Drive, Gather, Operand, OnOperand, Effected, Located, ReadingTakes;
    OperandTaken(cpu.bus, op, mode, cpu.View());
    ghost var c := Now(cpu, st);
    DriveGathers(cpu.bus, op, mode, 1, c);
    GatherAny(cpu.bus, mode, c);
    ConsumeGot(op, Gather(cpu.bus, mode, 1, c).c, Operand(cpu.bus, mode, c.k, None));
    cycles := RunToEnd(cpu, st, Reading(op), mode);
  }

  // The sum or difference of accumulator, operand and carry is exact: binary ADC for
  // all bytes, decimal ADC and SBC for all pairs of decimal digits.
  method ExecuteAdding<M>(cpu: Processor<M>, st: Statics, op: AddOp, mode: Mode) returns (cycles: nat, ghost v: byte)
    requires EightModes(mode)
    modifies cpu, st
    ensures Summed(op, old(cpu.View().r), v, cpu.View().r)
    ensures var k, bus := old(cpu.View()), cpu.bus;
            var p := Located(bus, mode, k.r, k.m);
            && v == bus.peek(p.m, p.addr) && cpu.memory == bus.afterRead(p.m, p.addr)
            && cpu.PC == (k.r.PC + Length(mode)) % 0x1_0000
            && cycles == ReadingTakes(bus, mode, k.r, k.m)
  {
    hide Drive, Operand, OnAddend, Summed, Located, ReadingTakes;
    ghost var k := cpu.View();
    ghost var g := Operand(cpu.bus, mode, k, None);
    v := g.v;
    OperandLocated(cpu.bus, mode, k);
    StagedAddMeetsAddressing(cpu.bus, op, mode, Now(cpu, st));
    AddendAdds(op, v, g.k.r);
    SummedThere(op, k.r, g.k.r.PC, v, OnAddend(op, k.r.SR.D, v, g.k.r));
    AddendFlags(op, k.r.SR.D, v, g.k.r);
    cycles := RunToEnd(cpu, st, Adding(op), mode);
  }

  // The same of the 65C02, whose decimal additions take one cycle more.
  method CmosRunToEnd<M>(cpu: Processor<M>, st: Statics, op: AddOp, mode: CmosMode) returns (cycles: nat)
    requires CmosDrive(cpu.bus, op, mode, 1, CmosNow(cpu, st)).Driven?
    modifies cpu, st
    ensures Driven(Now(cpu, st), cycles) == CmosDrive(cpu.bus, op, mode, 1, old(CmosNow(cpu, st)))
  {
    hide CmosStep;
    ghost var d := CmosDrive(cpu.bus, op, mode, 1, CmosNow(cpu, st));
    cycles := 0;
    var end := false;
    while !end
      invariant cycles <= 6
      invariant d == if end then Driven(Now(cpu, st), cycles)
                     else CmosDrive(cpu.bus, op, mode, cycles + 1, CmosNow(cpu, st))
      decreases !end, 6 - cycles
    {
      cycles := cycles + 1;
      if op.ADC? { end := StagedCmosAdc(cpu, st, mode, cycles); } else { end := StagedCmosSbc(cpu, st, mode, cycles); }
    }
  }

  method ExecuteCmosAdding<M>(cpu: Processor<M>, st: Statics, op: AddOp, mode: Mode)
    returns (cycles: nat, ghost v: byte)
    requires EightModes(mode)
    modifies cpu, st
    ensures Summed(op, old(cpu.View().r), v, cpu.View().r)
    ensures var k, bus := old(cpu.View()), cpu.bus;
            var p := Located(bus, mode, k.r, k.m);
            && v == bus.peek(p.m, p.addr) && cpu.memory == bus.afterRead(p.m, p.addr)
            && cpu.PC == (k.r.PC + Length(mode)) % 0x1_0000
            && cycles == ReadingTakes(bus, mode, k.r, k.m) + Bit(k.r.SR.D)
  {
    hide CmosDrive, Operand, OnAddend, Summed, Located, ReadingTakes;
    ghost var k := cpu.View();
    ghost var g := Operand(cpu.bus, mode, k, None);
    v := g.v;
    OperandLocated(cpu.bus, mode, k);
    CmosMeetsAddressing(cpu.bus, op, mode, CmosNow(cpu, st));
    AddendAdds(op, v, g.k.r);
    SummedThere(op, k.r, g.k.r.PC, v, OnAddend(op, k.r.SR.D, v, g.k.r));
    AddendFlags(op, k.r.SR.D, v, g.k.r);
    cycles := CmosRunToEnd(cpu, st, op, Base(mode));
  }

  // The register is written, once and last, at the address the mode names.
  method ExecuteStoring<M>(cpu: Processor<M>, st: Statics, op: StoreOp, mode: Mode) returns (cycles: nat)
    requires AgreedStoring(op, mode)
    modifies cpu, st
    ensures var k := old(cpu.View());
            var p := Located(cpu.bus, mode, k.r, k.m);
            var v := if op.STA? then k.r.A else if op.STX? then k.r.X else k.r.Y;
            && cpu.memory == cpu.bus.afterWrite(p.m, p.addr, v)
            && cpu.View().r == k.r.(PC := (k.r.PC + Length(mode)) % 0x1_0000)
            && cycles == WritingTakes(p, mode)
  {
    hide Drive, RunStore, Located;
    AgreeStore(cpu.bus, op, mode, Now(cpu, st));
    StoreInNumbers(cpu.bus, op, mode, cpu.View());
    cycles := RunToEnd(cpu, st, Storing(op), mode);
  }

  // One read and one write of the addressed byte, one up or one down modulo 256.
  method ExecuteBumping<M>(cpu: Processor<M>, st: Statics, op: BumpOp, mode: Mode) returns (cycles: nat)
    requires RmwMode(mode)
    modifies cpu, st
    ensures var k, bus := old(cpu.View()), cpu.bus;
            var p := Located(bus, mode, k.r, k.m);
            var v: byte := (bus.peek(p.m, p.addr) + (if op.INC? then 1 else -1)) % 0x100;
            && cpu.memory == bus.afterWrite(bus.afterRead(p.m, p.addr), p.addr, v)
            && cpu.View().r == k.r.(PC := (k.r.PC + Length(mode)) % 0x1_0000,
                                    SR := k.r.SR.(N := v >= 0x80, Z := v == 0))
            && cycles == WritingTakes(p, mode) + 2
  {
    hide Drive, RunBump, Located;
    AgreeBump(cpu.bus, op, mode, Now(cpu, st));
    BumpInNumbers(cpu.bus, op, mode, cpu.View());
    cycles := RunToEnd(cpu, st, Bumping(op), mode);
  }

  // ---- Registers, branches and the stack -----------------------------------

  method ExecuteInherent<M>(cpu: Processor<M>, st: Statics, op: InherentOp, mode: Mode) returns (cycles: nat)
    modifies cpu, st
    ensures Inherently(op, old(cpu.View().r), cpu.View().r) && cpu.memory == old(cpu.memory) && cycles == 1
  {
    hide Drive, OneByte, Inherently;
    ghost var c := Now(cpu, st);
    InherentMeant(op, c.k.r);
    Finishes(cpu.bus, Inherent(op), mode, 1, c, c.(k := c.k.(r := OneByte(op, c.k.r))));
    cycles := RunToEnd(cpu, st, Inherent(op), mode);
  }

  // The accumulator shifted or rotated through the carry as a ninth bit.
  method ExecuteShift<M>(cpu: Processor<M>, st: Statics, op: ShiftOp) returns (cycles: nat)
    modifies cpu, st
    ensures var a, c, nine := old(cpu.A), Bit(old(cpu.SR.C)), cpu.A + 0x100 * Bit(cpu.SR.C);
            match op
            case ASL => nine == 2 * a
            case ROL => nine == 2 * a + c
            case LSR => 2 * cpu.A + Bit(cpu.SR.C) == a
            case ROR => 2 * cpu.A + Bit(cpu.SR.C) == a + 0x100 * c
    ensures var r, t := old(cpu.View().r), cpu.View().r;
            Describes(t.SR, t.A) && t == r.(A := t.A, SR := r.SR.(C := t.SR.C, Z := t.SR.Z, N := t.SR.N))
    ensures cpu.memory == old(cpu.memory) && cycles == 1
  {
    hide Drive, ShiftOnce;
    ghost var c := Now(cpu, st);
    ShiftsAreArithmetic(op, c.k.r);
    Finishes(cpu.bus, Shifting(op), Accumulator, 1, c, StepShifting(cpu.bus, op, Accumulator, 1, c).c);
    cycles := RunToEnd(cpu, st, Shifting(op), Accumulator);
  }

  // One cycle if the branch is not taken, two on the page of the next instruction,
  // three on another.
  method ExecuteBranch<M>(cpu: Processor<M>, st: Statics, op: BranchOp, mode: Mode)
    returns (cycles: nat)
    modifies cpu, st
    ensures var goes := GoesBy(op, old(cpu.SR));
            var k, next := old(cpu.View()), (old(cpu.PC) + 1) % 0x1_0000;
            var target := Displaced(next, cpu.bus.peek(k.m, k.r.PC));
            && cpu.View().r == k.r.(PC := if goes then target else next)
            && cpu.memory == cpu.bus.afterRead(k.m, k.r.PC)
            && cycles == if !goes then 1 else if target / 0x100 == next / 0x100 then 2 else 3
  {
    hide Drive;
    GoesIfTaken(op, cpu.SR);
    StagedBranch(cpu.bus, op, mode, Now(cpu, st));
    AddsModulo(0, 0, cpu.PC, 1);
    DisplacedAdds(Inc16(cpu.PC), cpu.bus.peek(cpu.memory, cpu.PC));
    cycles := RunToEnd(cpu, st, Branching(op), mode);
  }

  // A branch from its opcode on.
  method FetchBranch<M>(cpu: Processor<M>, st: Statics, op: BranchOp)
    modifies cpu, st
    ensures var k, next := old(cpu.View()), (old(cpu.PC) + 2) % 0x1_0000;
            var d := cpu.bus.peek(cpu.bus.afterRead(k.m, k.r.PC), (k.r.PC + 1) % 0x1_0000);
            cpu.PC == if GoesBy(op, k.r.SR) then Displaced(next, d) else next
  {
    hide GoesBy, Displaced;
    AddsModulo(0, 0, cpu.PC, 1);
    var _ := cpu.FetchByte();
    var _ := ExecuteBranch(cpu, st, op, Relative);
  }

  // A comparison and the branch behind it: the branch goes exactly if the register and
  // the operand are in the order it asks for.
  method CompareThenBranch<M>(cpu: Processor<M>, st: Statics, cmp: ReadOp, mode: Mode, op: BranchOp)
    returns (ghost o: byte)
    requires (cmp.CMP? || cmp.CPX? || cmp.CPY?) && AluTimed(cmp, mode) && !op.BVC? && !op.BVS?
    modifies cpu, st
    ensures var k, bus := old(cpu.View()), cpu.bus;
            var p := Located(bus, mode, k.r, k.m);
            var branch := (k.r.PC + Length(mode)) % 0x1_0000;
            var m := bus.afterRead(bus.afterRead(p.m, p.addr), branch);
            var next := (branch + 2) % 0x1_0000;
            var v := if cmp.CMP? then k.r.A else if cmp.CPX? then k.r.X else k.r.Y;
            && o == bus.peek(p.m, p.addr)
            && cpu.PC == if Related(op, v, o) then Displaced(next, bus.peek(m, (branch + 1) % 0x1_0000)) else next
  {
    hide Effected, Located, Related, GoesBy, Displaced;
    ghost var k := cpu.View();
    ghost var p := Located(cpu.bus, mode, k.r, k.m);
    o := cpu.bus.peek(p.m, p.addr);
    var _ := ExecuteReading(cpu, st, cmp, mode);
    ComparedGoes(cmp, op, k.r, o, cpu.View().r);
    FetchBranch(cpu, st, op);
  }

  // A binary addition and the branch behind it.
  method AddThenBranch<M>(cpu: Processor<M>, st: Statics, mode: Mode, op: BranchOp) returns (ghost o: byte)
    requires EightModes(mode) && !cpu.SR.D
    modifies cpu, st
    ensures var k, bus := old(cpu.View()), cpu.bus;
            var p := Located(bus, mode, k.r, k.m);
            var branch := (k.r.PC + Length(mode)) % 0x1_0000;
            var m := bus.afterRead(bus.afterRead(p.m, p.addr), branch);
            var next := (branch + 2) % 0x1_0000;
            && o == bus.peek(p.m, p.addr)
            && cpu.PC == if SumRelated(op, k.r.A, o, Bit(k.r.SR.C))
                         then Displaced(next, bus.peek(m, (branch + 1) % 0x1_0000)) else next
  {
    hide Summed, Located, SumRelated, GoesBy, Displaced;
    ghost var k := cpu.View();
    var _, v := ExecuteAdding(cpu, st, ADC, mode);
    o := v;
    SummedGoes(op, k.r, o, cpu.View().r);
    FetchBranch(cpu, st, op);
  }

  method ExecutePush<M>(cpu: Processor<M>, st: Statics, op: ControlOp, mode: Mode) returns (cycles: nat)
    requires op.PHA? || op.PHP?
    modifies cpu, st
    ensures var k, bus := old(cpu.View()), cpu.bus;
            var v := if op.PHA? then k.r.A else Pack(k.r.SR.(B := true, IGN := true));
            && cpu.memory == bus.afterWrite(k.m, 0x100 + k.r.SP, v)
            && cpu.View().r == k.r.(SP := (k.r.SP - 1) % 0x100) && cycles == 2
  {
    hide Drive, Pack;
    if op.PHA? { AgreePha(cpu.bus, mode, Now(cpu, st)); } else { AgreePhp(cpu.bus, mode, Now(cpu, st)); }
    cycles := RunToEnd(cpu, st, Control(op), mode);
  }

  // The accumulator, described by Z and N, or the status without B and IGN.
  method ExecutePull<M>(cpu: Processor<M>, st: Statics, op: ControlOp, mode: Mode) returns (cycles: nat)
    requires op.PLA? || op.PLP?
    modifies cpu, st
    ensures var k, bus, t := old(cpu.View()), cpu.bus, cpu.View().r;
            var v, up := bus.peek(k.m, Above(k.r.SP, 1)), (k.r.SP + 1) % 0x100;
            && cpu.memory == bus.afterRead(k.m, Above(k.r.SP, 1)) && cycles == 3
            && if op.PLP? then Restored(v, t.SR) && t == k.r.(SP := up, SR := t.SR)
               else Describes(t.SR, v) && t == k.r.(A := v, SP := up, SR := k.r.SR.(Z := t.SR.Z, N := t.SR.N))
  {
    hide Drive, Unpack, Restored;
    PulledRestores(cpu.bus.peek(cpu.memory, StackAddr(Inc8(cpu.SP))));
    if op.PLA? { AgreePla(cpu.bus, mode, Now(cpu, st)); } else { AgreePlp(cpu.bus, mode, Now(cpu, st)); }
    cycles := RunToEnd(cpu, st, Control(op), mode);
  }

  // ---- Jumps, calls, returns and interrupts --------------------------------

  // The high byte of an indirect target never comes from the next page.
  method ExecuteJmp<M>(cpu: Processor<M>, st: Statics, mode: Mode) returns (cycles: nat)
    requires mode.Absolute? || mode.Indirect?
    modifies cpu, st
    ensures var k, bus := old(cpu.View()), cpu.bus;
            var p := Located(bus, Absolute, k.r, k.m);
            var m1 := bus.afterRead(p.m, p.addr);
            var second := p.addr - p.addr % 0x100 + (p.addr + 1) % 0x100;
            && cpu.View().r == k.r.(PC := cpu.PC)
            && if mode.Absolute? then cpu.PC == p.addr && cpu.memory == p.m && cycles == 2
               else
                 && cpu.PC == bus.peek(p.m, p.addr) + 0x100 * bus.peek(m1, second)
                 && cpu.memory == bus.afterRead(m1, second) && cycles == 4
  {
    hide Drive, FetchWord, PageRoll, Located;
    AgreeJump(cpu.bus, mode, Now(cpu, st));
    FetchedWord(cpu.bus, cpu.View());
    PageRollStays(FetchWord(cpu.bus, cpu.View()).addr);
    cycles := RunToEnd(cpu, st, Control(JMP), mode);
  }

  lemma PageRollStays(a: word)
    ensures PageRoll(a) == a - a % 0x100 + (a + 1) % 0x100
  {
  }

  // The address of the next instruction is pushed, high byte first.
  method ExecuteJsr<M>(cpu: Processor<M>, st: Statics, mode: Mode) returns (cycles: nat)
    modifies cpu, st
    ensures var k, bus := old(cpu.View()), cpu.bus;
            var p, sp := Located(bus, Absolute, k.r, k.m), k.r.SP;
            var back := (k.r.PC + 2) % 0x1_0000;
            && cpu.View().r == k.r.(PC := p.addr, SP := (sp - 2) % 0x100) && cycles == 5
            && cpu.memory == bus.afterWrite(bus.afterWrite(p.m, 0x100 + sp, back / 0x100),
                                            0x100 + (sp - 1) % 0x100, back % 0x100)
  {
    hide Drive, FetchWord;
    AgreeJsr(cpu.bus, mode, Now(cpu, st));
    FetchedWord(cpu.bus, cpu.View());
    cycles := RunToEnd(cpu, st, Control(JSR), mode);
  }

  // PC is the word on the stack, low byte first.
  method ExecuteRts<M>(cpu: Processor<M>, st: Statics, mode: Mode) returns (cycles: nat)
    modifies cpu, st
    ensures var k, bus := old(cpu.View()), cpu.bus;
            var sp, m1 := k.r.SP, bus.afterRead(k.m, Above(k.r.SP, 1));
            && cpu.View().r == k.r.(SP := (sp + 2) % 0x100,
                                    PC := bus.peek(k.m, Above(sp, 1)) + 0x100 * bus.peek(m1, Above(sp, 2)))
            && cpu.memory == bus.afterRead(m1, Above(sp, 2)) && cycles == 5
  {
    hide Drive;
    AgreeRts(cpu.bus, mode, Now(cpu, st));
    cycles := RunToEnd(cpu, st, Control(RTS), mode);
  }

  // Status without B and IGN, then PC.
  method ExecuteRti<M>(cpu: Processor<M>, st: Statics, mode: Mode) returns (cycles: nat)
    modifies cpu, st
    ensures var k, bus := old(cpu.View()), cpu.bus;
            var sp, m1 := k.r.SP, bus.afterRead(k.m, Above(k.r.SP, 1));
            var m2 := bus.afterRead(m1, Above(sp, 2));
            && cpu.View().r == k.r.(SP := (sp + 3) % 0x100, SR := cpu.SR,
                                    PC := bus.peek(m1, Above(sp, 2)) + 0x100 * bus.peek(m2, Above(sp, 3)))
            && Restored(bus.peek(k.m, Above(sp, 1)), cpu.SR)
            && cpu.memory == bus.afterRead(m2, Above(sp, 3)) && cycles == 5
  {
    hide Drive, Unpack;
    AgreeRti(cpu.bus, mode, Now(cpu, st));
    PulledRestores(cpu.bus.peek(cpu.memory, StackAddr(Inc8(cpu.SP))));
    cycles := RunToEnd(cpu, st, Control(RTI), mode);
  }

  // The byte after the opcode is skipped; the vector is the non-maskable one.
  method ExecuteBrk<M>(cpu: Processor<M>, st: Statics, mode: Mode) returns (cycles: nat)
    modifies cpu, st
    ensures cycles == 6
    ensures var k, bus := old(cpu.View()), cpu.bus;
            var skipped := Core(k.r.(PC := (k.r.PC + 1) % 0x1_0000), bus.afterRead(k.m, k.r.PC));
            Entered(bus, skipped, Pack(k.r.SR.(B := true)), 0xFFFA, cpu.View())
  {
    hide Drive, RunBrk, Entered;
    BrkEnters(cpu.bus, cpu.View());
    AgreeBrk(cpu.bus, mode, Now(cpu, st));
    cycles := RunToEnd(cpu, st, BRK, mode);
  }

  method EnterNmi<M>(cpu: Processor<M>, st: Statics, mode: Mode) returns (cycles: nat)
    modifies cpu, st
    ensures cycles == 5
    ensures Entered(cpu.bus, old(cpu.View()), Pack(old(cpu.SR)), 0xFFFA, cpu.View())
  {
    hide Drive, Interrupted, Entered;
    InterruptEnters(cpu.bus, cpu.View(), 0xFFFA);
    AgreeNmi(cpu.bus, mode, Now(cpu, st));
    cycles := RunToEnd(cpu, st, Control(NMI), mode);
  }

  // An interrupt request pushes and inhibits as a non-maskable one does, and stops
  // there: PC stays. While interrupts are inhibited it does nothing.
  method EnterIrq<M>(cpu: Processor<M>, st: Statics, mode: Mode) returns (cycles: nat)
    modifies cpu, st
    ensures var k := old(cpu.View());
            if k.r.SR.I then cycles == 1 && cpu.View() == k
            else
              && cycles == 4 && cpu.memory == Saved(cpu.bus, k.m, k.r.SP, k.r.PC, Pack(k.r.SR))
              && cpu.View().r == k.r.(SP := (k.r.SP - 3) % 0x100, SR := k.r.SR.(I := true))
  {
    hide Drive, Interrupted, Saved;
    InterruptedSaves(cpu.bus, cpu.View());
    if cpu.SR.I {
      InhibitedIrq(cpu.bus, mode, Now(cpu, st));
    } else {
      IrqEntry(cpu.bus, mode, Now(cpu, st));
    }
    cycles := RunToEnd(cpu, st, Control(IRQ), mode);
  }

  lemma InhibitedIrq<M>(bus: BusOps<M>, m: Mode, c: Cpu<M>)
    requires c.k.r.SR.I
    ensures Drive(bus, Control(IRQ), m, 1, c) == Driven(c, 1)
  {
    hide Drive;
    Finishes(bus, Control(IRQ), m, 1, c, c);
  }
}
