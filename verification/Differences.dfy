// Where the two forms of an instruction part, and exactly when they do not.
module Differences {
  import opened Words
  import opened Wrappers
  import opened Registers
  import opened Bus
  import opened Isa
  import opened Operate
  import opened Staged
  import opened Static
  import opened Agreement
  import opened Endings
  import opened Cmos

  // ---- Branches ------------------------------------------------------------

  lemma BranchFetches<M>(bus: BusOps<M>, op: BranchOp, c: Cpu<M>) returns (s: Cpu<M>)
    requires Isa.Taken(op, c.k.r.SR)
    ensures StepBranching(bus, op, 1, c) == Stepped(s, false)
    ensures s == Cpu(Fetch(bus, c.k).k, c.l.(operand := Fetch(bus, c.k).v))
  {
    s := StepBranching(bus, op, 1, c).c;
  }

  // The second call of a taken branch is the last one on the same page.
  lemma BranchGoes<M>(bus: BusOps<M>, op: BranchOp, c: Cpu<M>) returns (s: Cpu<M>)
    requires Isa.Taken(op, c.k.r.SR)
    ensures var target := Add16(c.k.r.PC, Signed(Lo(c.l.operand)));
            && StepBranching(bus, op, 2, c) == Stepped(s, SamePage(target, c.k.r.PC))
            && (if SamePage(target, c.k.r.PC) then s.k == WithPc(c.k, target)
                else s.k == c.k && StepBranching(bus, op, 3, s) == Stepped(s.(k := WithPc(c.k, target)), true))
  {
    hide SamePage, Signed, Isa.Taken;
    s := StepBranching(bus, op, 2, c).c;
  }

  lemma StagedBranch<M>(bus: BusOps<M>, op: BranchOp, m: Mode, c: Cpu<M>)
    ensures var d, f := Drive(bus, Branching(op), m, 1, c), Fetch(bus, c.k);
            var target := Add16(f.k.r.PC, Signed(f.v));
            && d.Driven?
            && d.c.k == (if Isa.Taken(op, c.k.r.SR) then WithPc(f.k, target) else f.k)
            && d.calls == (if !Isa.Taken(op, c.k.r.SR) then 1 else if SamePage(target, f.k.r.PC) then 2 else 3)
  {
    hide Drive, SamePage, Signed, Isa.Taken;
    if !Isa.Taken(op, c.k.r.SR) {
      Finishes(bus, Branching(op), m, 1, c, StepBranching(bus, op, 1, c).c);
    } else {
      hide StepBranching;
      var s1 := BranchFetches(bus, op, c);
      var s2 := BranchGoes(bus, op, s1);
      assert Lo(s1.l.operand) == Fetch(bus, c.k).v;
      Continues(bus, Branching(op), m, 1, c, s1);
      if StepBranching(bus, op, 2, s1).ended {
        Finishes(bus, Branching(op), m, 2, s1, s2);
      } else {
        Continues(bus, Branching(op), m, 2, s1, s2);
        Finishes(bus, Branching(op), m, 3, s2, StepBranching(bus, op, 3, s2).c);
      }
    }
  }

  // A branch does the same in both forms exactly when it is not taken, or would go
  // to the instruction that follows it anyway.
  lemma BranchAgreesIff<M>(bus: BusOps<M>, op: BranchOp, m: Mode, c: Cpu<M>, u: Unset)
    ensures Same(Drive(bus, Branching(op), m, 1, c), Run(bus, Branching(op), m, c.k, u))
            <==> !Isa.Taken(op, c.k.r.SR) || Fetch(bus, c.k).v == 0
  {
    StagedBranch(bus, op, m, c);
    var f := Fetch(bus, c.k);
    assert WithPc(f.k, Add16(f.k.r.PC, Signed(f.v))) == f.k <==> f.v == 0 by {
      assert WithPc(f.k, Add16(f.k.r.PC, Signed(f.v))).r.PC == Add16(f.k.r.PC, Signed(f.v));
    }
  }

  // ---- LDX and LDY ---------------------------------------------------------

  // Indexed or absolute, the static LDX and LDY do what the staged ones do and
  // count one cycle more.
  lemma LoadCountsOneMore<M>(bus: BusOps<M>, op: ReadOp, m: Mode, c: Cpu<M>, u: Unset)
    requires (op.LDX? && m.Absolute?) || (op.LDY? && (m.ZeroPageX? || m.Absolute? || m.AbsoluteX?))
    ensures var d, s := Drive(bus, Reading(op), m, 1, c), RunReading(bus, op, m, c.k, u);
            d.Driven? && d.c.k == s.k && s.cycles == d.calls + 1
  {
    hide Gather, Operand, OnOperand, Drive;
    DriveGathers(bus, op, m, 1, c);
    GatherAny(bus, m, c);
    ConsumeGot(op, Gather(bus, m, 1, c).c, Operand(bus, m, c.k, None));
  }

  // ---- ADC and SBC ---------------------------------------------------------

  // The staged form fetches the addressed operand and adds or subtracts it in the
  // mode the decimal flag says, in the cycles of its addressing mode.
  lemma StagedAddMeetsAddressing<M>(bus: BusOps<M>, op: AddOp, m: Mode, c: Cpu<M>)
    requires EightModes(m)
    ensures var d, g, s := Drive(bus, Adding(op), m, 1, c), Operand(bus, m, c.k, None), c.k.r.SR;
            && d.Driven? && d.calls == g.cycles
            && d.c.k == g.k.(r := OnAddend(op, s.D, g.v, g.k.r))
  {
    hide Gather, Operand, OnAddend;
    var e := LatchDecimal(c);
    LatchedOnce(bus, op, m, c);
    AdditionGathers(bus, op, m, 1, e);
    GatherAny(bus, m, e);
    AddGathered(op, Gather(bus, m, 1, e).c, Operand(bus, m, c.k, None));
  }

  lemma LatchedOnce<M>(bus: BusOps<M>, op: AddOp, m: Mode, c: Cpu<M>)
    ensures Drive(bus, Adding(op), m, 1, c) == Drive(bus, Adding(op), m, 1, LatchDecimal(c))
  {
    hide Perform, Add;
    assert Step(bus, Adding(op), m, 1, c) == Step(bus, Adding(op), m, 1, LatchDecimal(c));
  }

  lemma {:induction false} AdditionGathers<M>(bus: BusOps<M>, op: AddOp, m: Mode, cycle: nat, c: Cpu<M>)
    requires EightModes(m) && Reached(m, cycle) && (cycle == 1 ==> c.l.bcd == c.k.r.SR.D)
    ensures var g := Gather(bus, m, cycle, c);
            Drive(bus, Adding(op), m, cycle, c) == if g.Driven? then Driven(Add(op, g.c), g.calls) else g
    decreases 7 - cycle
  {
    hide Add, Absorb, AccessOf;
    var d := Perform(bus, AluPlan(m, cycle), c);
    assert (if cycle == 1 then LatchDecimal(c) else c) == c;
    assert Step(bus, Adding(op), m, cycle, c) == Stepped(if d.ended then Add(op, d.c) else d.c, d.ended);
    if !d.ended {
      GoesOn(bus, m, cycle, c);
      AdditionGathers(bus, op, m, cycle + 1, d.c);
    }
  }

  // Reads at different addresses leave the bus different.
  ghost predicate TellsApart<M>(bus: BusOps<M>, m: M) {
    forall a: word, b: word | bus.afterRead(m, a) == bus.afterRead(m, b) :: a == b
  }

  predicate AbsIndexed(m: Mode) { m.AbsoluteX? || m.AbsoluteY? }

  // What the unset locals of a static ADC or SBC must hold for it to be right: no
  // flag that the result does not set, and in the absolute indexed modes the
  // address that should have been read.
  predicate Lucky<M>(bus: BusOps<M>, m: Mode, k: Core<M>, u: Unset, result: Status) {
    Within(u.flags, result) && (AbsIndexed(m) ==> u.addr8 == Address(bus, m, k).addr)
  }

  // In every mode: then the static form agrees, and, where the bus tells the wrong
  // read from the right one, only then.
  lemma StaticAddAgreesIff<M>(bus: BusOps<M>, op: AddOp, m: Mode, c: Cpu<M>, u: Unset)
    requires EightModes(m)
    ensures Drive(bus, Adding(op), m, 1, c).Driven?
    ensures var d := Drive(bus, Adding(op), m, 1, c);
            Lucky(bus, m, c.k, u, d.c.k.r.SR) ==> Same(d, RunAdding(bus, op, m, c.k, u))
    ensures var d := Drive(bus, Adding(op), m, 1, c);
            (AbsIndexed(m) ==> TellsApart(bus, Address(bus, m, c.k).k.m)) && Same(d, RunAdding(bus, op, m, c.k, u))
            ==> Lucky(bus, m, c.k, u, d.c.k.r.SR)
  {
    hide OnAddend, Drive, Address, TellsApart;
    StagedAddMeetsAddressing(bus, op, m, c);
    var d := Drive(bus, Adding(op), m, 1, c);
    OrWithin(d.c.k.r, u.flags);
    if !AbsIndexed(m) || u.addr8 == Address(bus, m, c.k).addr {
      OperandAt(bus, m, c.k, u.addr8);
    } else if TellsApart(bus, Address(bus, m, c.k).k.m) {
      OperandElsewhere(bus, m, c.k, u.addr8);
    }
  }

  lemma OperandAt<M>(bus: BusOps<M>, m: Mode, k: Core<M>, unset: byte)
    requires AbsIndexed(m) ==> unset == Address(bus, m, k).addr
    ensures Operand(bus, m, k, Some(unset)) == Operand(bus, m, k, None)
  {
    hide Address;
  }

  lemma OperandElsewhere<M>(bus: BusOps<M>, m: Mode, k: Core<M>, unset: byte)
    requires AbsIndexed(m) && unset != Address(bus, m, k).addr && TellsApart(bus, Address(bus, m, k).k.m)
    ensures Operand(bus, m, k, Some(unset)).k.m != Operand(bus, m, k, None).k.m
  {
    hide Address;
  }

  predicate Within(u: Status, s: Status) {
    && (u.C ==> s.C) && (u.Z ==> s.Z) && (u.I ==> s.I) && (u.D ==> s.D)
    && (u.B ==> s.B) && (u.IGN ==> s.IGN) && (u.V ==> s.V) && (u.N ==> s.N)
  }

  lemma OrWithin(r: Regs, u: Status)
    ensures OrUnset(r, u) == r <==> Within(u, r.SR)
  {
    assert OrUnset(r, u) == r <==> OrStatus(r.SR, u) == r.SR;
  }

  // ---- Shifts of memory ----------------------------------------------------

  // The last two calls of a memory shift: both shift the operand, neither touches
  // the bus.
  lemma PenultimateShift<M>(bus: BusOps<M>, op: ShiftOp, m: Mode, c: Cpu<M>) returns (s: Cpu<M>)
    requires RmwMode(m)
    ensures StepShifting(bus, op, m, ModifyCalls(m) - 1, c) == Stepped(s, false)
    ensures s.l.penultimate && s.k.m == c.k.m
    ensures var o := ShiftOnce(op, c.l.operand, c.k.r.SR.C); s.l.operand == o.v && s.k.r == ShiftFlagged(c.k.r, o)
  {
    s := StepShifting(bus, op, m, ModifyCalls(m) - 1, c).c;
    assert ShiftPlan(m, ModifyCalls(m) - 1) == Penultimate;
  }

  lemma FinalShift<M>(bus: BusOps<M>, op: ShiftOp, m: Mode, c: Cpu<M>) returns (s: Cpu<M>)
    requires RmwMode(m) && c.l.penultimate
    ensures StepShifting(bus, op, m, ModifyCalls(m), c) == Stepped(s, true)
    ensures var o := ShiftOnce(op, c.l.operand, c.k.r.SR.C);
            s.l.operand == o.v && s.k == Core(ShiftFlagged(c.k.r, o), c.k.m)
  {
    s := StepShifting(bus, op, m, ModifyCalls(m), c).c;
    assert Last(ShiftPlan(m, ModifyCalls(m)));
  }

  lemma LastTwoShifts<M>(bus: BusOps<M>, op: ShiftOp, m: Mode, c: Cpu<M>)
    requires RmwMode(m)
    ensures var d := Drive(bus, Shifting(op), m, ModifyCalls(m) - 1, c);
            var o := Twice(op, c.l.operand, c.k.r.SR.C);
            && d.Driven? && d.calls == ModifyCalls(m) && d.c.l.operand == o.v
            && d.c.k == Core(ShiftFlagged(c.k.r, o), c.k.m)
  {
    hide StepShifting, Drive, ShiftOnce;
    var s := PenultimateShift(bus, op, m, c);
    var t := FinalShift(bus, op, m, s);
    Continues(bus, Shifting(op), m, ModifyCalls(m) - 1, c, s);
    Finishes(bus, Shifting(op), m, ModifyCalls(m), s, t);
  }

  function Twice(op: ShiftOp, o: word, c: bool): Operate.Shifted {
    var s := ShiftOnce(op, o, c);
    ShiftOnce(op, s.v, s.c)
  }

  function ShiftFlagged(r: Regs, o: Operate.Shifted): Regs { r.(SR := SetNZC(r.SR, Lo(o.v), o.c)) }

  // The calls before them only read.
  lemma ShiftByte<M>(bus: BusOps<M>, op: ShiftOp, m: Mode, c: Cpu<M>) returns (d: Cpu<M>)
    requires m.ZeroPage? || m.ZeroPageX?
    ensures Drive(bus, Shifting(op), m, 1, c) == Drive(bus, Shifting(op), m, if m.ZeroPageX? then 3 else 2, d)
    ensures d.k == Address(bus, m, c.k).k && d.l.addr8 == Address(bus, m, c.k).addr && !d.l.penultimate
  {
    hide Drive, ShiftOnce;
    d := StepShifting(bus, op, m, 1, c).c;
    Continues(bus, Shifting(op), m, 1, c, d);
    if m.ZeroPageX? {
      var e := StepShifting(bus, op, m, 2, d).c;
      Continues(bus, Shifting(op), m, 2, d, e);
      d := e;
    }
  }

  lemma ShiftReadsZp<M>(bus: BusOps<M>, op: ShiftOp, m: Mode, c: Cpu<M>) returns (d: Cpu<M>)
    requires m.ZeroPage? || m.ZeroPageX?
    ensures Drive(bus, Shifting(op), m, 1, c) == Drive(bus, Shifting(op), m, ModifyCalls(m) - 1, d)
    ensures var e := Address(bus, m, c.k);
            var f := Read(bus, e.k, e.addr);
            d.k == f.k && d.l.operand == f.v
  {
    hide Drive, ShiftOnce, Address;
    var e := ShiftByte(bus, op, m, c);
    var cycle := if m.ZeroPageX? then 3 else 2;
    d := StepShifting(bus, op, m, cycle, e).c;
    Continues(bus, Shifting(op), m, cycle, e, d);
  }

  lemma ShiftWord<M>(bus: BusOps<M>, op: ShiftOp, m: Mode, c: Cpu<M>) returns (d: Cpu<M>)
    requires m.Absolute? || m.AbsoluteX?
    ensures Drive(bus, Shifting(op), m, 1, c) == Drive(bus, Shifting(op), m, 3, d)
    ensures d.k == FetchWord(bus, c.k).k && d.l.addr16 == FetchWord(bus, c.k).addr && !d.l.penultimate
    ensures d.k.r == c.k.r.(PC := d.k.r.PC)
  {
    hide Drive, ShiftOnce;
    var d1 := StepShifting(bus, op, m, 1, c).c;
    Continues(bus, Shifting(op), m, 1, c, d1);
    d := StepShifting(bus, op, m, 2, d1).c;
    Continues(bus, Shifting(op), m, 2, d1, d);
  }

  lemma ShiftReadsAbs<M>(bus: BusOps<M>, op: ShiftOp, m: Mode, c: Cpu<M>) returns (d: Cpu<M>)
    requires m.Absolute? || m.AbsoluteX?
    ensures Drive(bus, Shifting(op), m, 1, c) == Drive(bus, Shifting(op), m, ModifyCalls(m) - 1, d)
    ensures var e := Address(bus, m, c.k);
            var f := Read(bus, e.k, e.addr);
            d.k == f.k && d.l.operand == f.v
  {
    hide Drive, ShiftOnce, FetchWord;
    var d2 := ShiftWord(bus, op, m, c);
    d := StepShifting(bus, op, m, 3, d2).c;
    Continues(bus, Shifting(op), m, 3, d2, d);
    if m.AbsoluteX? {
      var d4 := StepShifting(bus, op, m, 4, d).c;
      Continues(bus, Shifting(op), m, 4, d, d4);
      d := d4;
    }
  }

  // The staged shift of a memory byte reads it, shifts it twice and never writes
  // it back: the bus has seen the operand bytes and one read.
  lemma StagedShiftNeverWrites<M>(bus: BusOps<M>, op: ShiftOp, m: Mode, c: Cpu<M>)
    requires RmwMode(m)
    ensures var d, e := Drive(bus, Shifting(op), m, 1, c), Address(bus, m, c.k);
            var f := Read(bus, e.k, e.addr);
            var o := Twice(op, f.v, c.k.r.SR.C);
            && d.Driven? && d.calls == ModifyCalls(m) && d.c.l.operand == o.v
            && d.c.k == Core(ShiftFlagged(f.k.r, o), f.k.m)
  {
    hide Drive, Address, ShiftOnce;
    var d;
    if m.ZeroPage? || m.ZeroPageX? { d := ShiftReadsZp(bus, op, m, c); } else { d := ShiftReadsAbs(bus, op, m, c); }
    AddressKeeps(bus, m, c.k);
    LastTwoShifts(bus, op, m, d);
  }
}
