// Termination: which handlers end, after how many calls at most, and hence when the
// inner loop of the executor comes to its end whatever other threads do.
module Endings {
  import opened Words
  import opened Bus
  import opened Isa
  import opened Staged
  import opened Agreement
  import opened Executor

  // The pairs that occur in the base table.
  predicate Tabled(op: Op, m: Mode) {
    match op
    case Reading(o) => TabledReading(o, m)
    case Adding(_) => EightModes(m)
    case Storing(o) => TabledStoring(o, m)
    case Bumping(_) => RmwMode(m)
    case Shifting(_) => m.Accumulator? || RmwMode(m)
    case Branching(_) => m.Relative?
    case Inherent(_) => m.Implied?
    case Control(o) => AgreedControl(o, m)
    case BRK => m.Implied?
  }

  predicate TabledReading(op: ReadOp, m: Mode) {
    match op
    case LDX => m.Immediate? || m.ZeroPage? || m.ZeroPageY? || m.Absolute? || m.AbsoluteY?
    case LDY => m.Immediate? || DirectMode(m) || m.AbsoluteX?
    case CPX => m.Immediate? || m.ZeroPage? || m.Absolute?
    case CPY => m.Immediate? || m.ZeroPage? || m.Absolute?
    case BIT => m.ZeroPage? || m.Absolute?
    case _ => EightModes(m)
  }

  predicate TabledStoring(op: StoreOp, m: Mode) {
    match op
    case STA => EightModes(m) && !m.Immediate?
    case STX => m.ZeroPage? || m.ZeroPageY? || m.Absolute?
    case STY => DirectMode(m)
  }

  lemma TableIsTabled(opcode: byte)
    ensures var s := Decode(opcode); s.Slot? ==> Tabled(s.op, s.mode)
  {
    var a, b := opcode / 0x20, opcode / 4 % 8;
    Block0IsTabled(a, b);
    Block1IsTabled(a, b);
    Block2IsTabled(a, b);
  }

  lemma Block0IsTabled(a: nat, b: nat)
    ensures Block0(a, b).Slot? ==> Tabled(Block0(a, b).op, Block0(a, b).mode)
  {
  }

  lemma Block1IsTabled(a: nat, b: nat)
    ensures Block1(a, b).Slot? ==> Tabled(Block1(a, b).op, Block1(a, b).mode)
  {
  }

  lemma Block2IsTabled(a: nat, b: nat)
    requires a < 8
    ensures Block2(a, b).Slot? ==> Tabled(Block2(a, b).op, Block2(a, b).mode)
  {
  }

  // Handlers that never return `end`: STA's indirect modes, and LDX in the
  // Y-indexed modes the table gives it.
  predicate NeverEnds(op: Op, m: Mode) {
    || (op == Storing(STA) && IndirectMode(m))
    || (op == Reading(LDX) && (m.ZeroPageY? || m.AbsoluteY?))
  }

  lemma NeverEndsReally<M>(bus: BusOps<M>, op: Op, m: Mode, cycle: nat, c: Cpu<M>)
    requires NeverEnds(op, m)
    ensures !Step(bus, op, m, cycle, c).ended
  {
    if op.Storing? {
      assert StepStoring(bus, STA, m, cycle, c) == Step(bus, op, m, cycle, c);
    } else {
      assert StepReading(bus, LDX, m, cycle, c) == Step(bus, op, m, cycle, c);
    }
  }

  // The call by which every other handler has ended, whatever its state.
  function LastCall(op: Op, m: Mode): nat {
    match op
    case Reading(o) => if o.CMP? && ZpBased(m) then 1 else OperandCalls(m)
    case Adding(_) => OperandCalls(m)
    case Storing(_) => if m.ZeroPage? then 2 else if m.AbsoluteX? || m.AbsoluteY? then 4 else 3
    case Bumping(_) => ModifyCalls(m)
    case Shifting(_) => if m.Accumulator? then 1 else ModifyCalls(m)
    case Branching(_) => 3
    case Inherent(_) => 1
    case Control(o) => ControlCalls(o, m)
    case BRK => 6
  }

  function OperandCalls(m: Mode): nat {
    if m.Immediate? then 1 else if m.ZeroPage? then 2 else if m.ZeroPageX? || m.Absolute? then 3
    else if m.AbsoluteX? || m.AbsoluteY? then 4 else 5
  }

  function ModifyCalls(m: Mode): nat { if m.ZeroPage? then 4 else if m.AbsoluteX? then 6 else 5 }

  function ControlCalls(op: ControlOp, m: Mode): nat {
    match op
    case JMP => if m.Absolute? then 2 else 4
    case PHA => 2
    case PHP => 2
    case PLA => 3
    case PLP => 3
    case _ => 5
  }

  lemma LastCallEnds<M>(bus: BusOps<M>, op: Op, m: Mode, c: Cpu<M>)
    requires Tabled(op, m) && !NeverEnds(op, m)
    ensures 1 <= LastCall(op, m) <= 6 && Step(bus, op, m, LastCall(op, m), c).ended
  {
    match op
    case Reading(o) => ReadingEnds(bus, o, m, c);
    case Adding(o) => AddingEnds(bus, o, m, c);
    case Storing(o) => StoringEnds(bus, o, m, c);
    case Bumping(o) => BumpingEnds(bus, o, m, c);
    case Shifting(o) => ShiftingEnds(bus, o, m, c);
    case Branching(o) => BranchingEnds(bus, o, c);
    case Inherent(_) =>
    case Control(o) => ControlEndsBy(bus, o, m, c);
    case BRK => BrkEnds(bus, c);
  }

  lemma ReadingEnds<M>(bus: BusOps<M>, op: ReadOp, m: Mode, c: Cpu<M>)
    requires TabledReading(op, m) && !NeverEnds(Reading(op), m)
    ensures StepReading(bus, op, m, LastCall(Reading(op), m), c).ended
  {
    assert Last(ReadPlan(op, m, LastCall(Reading(op), m)));
  }

  // Micro-operations that end unconditionally.
  predicate Last(u: Micro) {
    match u
    case Rest(last) => last
    case Imm => true
    case ZpFetch(last) => last
    case ZpRead(last) => last
    case AbsRead(last) => last
    case Move => true
    case _ => false
  }

  lemma AddingEnds<M>(bus: BusOps<M>, op: AddOp, m: Mode, c: Cpu<M>)
    requires EightModes(m)
    ensures StepAdding(bus, op, m, LastCall(Adding(op), m), c).ended
  {
    assert Last(AluPlan(m, LastCall(Adding(op), m)));
  }

  lemma StoringEnds<M>(bus: BusOps<M>, op: StoreOp, m: Mode, c: Cpu<M>)
    requires TabledStoring(op, m) && !NeverEnds(Storing(op), m)
    ensures StepStoring(bus, op, m, LastCall(Storing(op), m), c).ended
  {
    assert Last(StorePlan(op, m, LastCall(Storing(op), m)));
  }

  lemma BumpingEnds<M>(bus: BusOps<M>, op: BumpOp, m: Mode, c: Cpu<M>)
    requires RmwMode(m)
    ensures StepBumping(bus, op, m, LastCall(Bumping(op), m), c).ended
  {
    assert Last(BumpPlan(op, m, LastCall(Bumping(op), m)));
  }

  lemma ShiftingEnds<M>(bus: BusOps<M>, op: ShiftOp, m: Mode, c: Cpu<M>)
    requires m.Accumulator? || RmwMode(m)
    ensures StepShifting(bus, op, m, LastCall(Shifting(op), m), c).ended
  {
    assert Last(ShiftPlan(m, LastCall(Shifting(op), m)));
  }

  lemma BranchingEnds<M>(bus: BusOps<M>, op: BranchOp, c: Cpu<M>)
    ensures StepBranching(bus, op, 3, c).ended
  {
  }

  lemma ControlEndsBy<M>(bus: BusOps<M>, op: ControlOp, m: Mode, c: Cpu<M>)
    requires AgreedControl(op, m) || op.NMI? || op.IRQ?
    ensures StepControl(bus, op, m, ControlCalls(op, m), c).ended
  {
    assert ControlEnds(ControlPlan(op, m, ControlCalls(op, m), c.k.r.SR), c.k.r, c.l);
  }

  lemma BrkEnds<M>(bus: BusOps<M>, c: Cpu<M>)
    ensures StepBrk(bus, 6, c).ended
  {
  }

  lemma {:induction false} DriveNeverEnds<M>(bus: BusOps<M>, op: Op, m: Mode, cycle: nat, c: Cpu<M>)
    requires NeverEnds(op, m)
    ensures Drive(bus, op, m, cycle, c).Unfinished?
    decreases 7 - cycle
  {
    hide Step;
    if cycle <= 6 {
      NeverEndsReally(bus, op, m, cycle, c);
      DriveNeverEnds(bus, op, m, cycle + 1, Step(bus, op, m, cycle, c).c);
    }
  }

  lemma {:induction false} DriveEnds<M>(bus: BusOps<M>, op: Op, m: Mode, cycle: nat, c: Cpu<M>)
    requires Tabled(op, m) && !NeverEnds(op, m) && (cycle <= 1 || cycle <= LastCall(op, m))
    ensures Drive(bus, op, m, cycle, c).Driven?
    decreases 7 - cycle
  {
    hide Step, LastCall, Tabled, NeverEnds;
    LastCallEnds(bus, op, m, c);
    var s := Step(bus, op, m, cycle, c);
    if !s.ended {
      DriveEnds(bus, op, m, cycle + 1, s.c);
    }
  }

  // The inner loop ends under every environment and from every stage left over in
  // `next_stage`.
  lemma {:induction false} InnerLoopEnds<M>(bus: BusOps<M>, op: Op, m: Mode, i: Inner<M>, env: seq<Window>)
    requires Sound(i.x) && Tabled(op, m) && !NeverEnds(op, m) && 1 <= i.cycle <= LastCall(op, m)
    ensures InnerLoop(bus, op, m, i, env).Ended?
    decreases |env|, Pending(i.x), 7 - i.cycle
  {
    hide InnerLoop, Pass, LastCall, Tabled, NeverEnds, Opened, EnvAfter, Pending, Sound;
    OpenedKeeps(i, env);
    LoopTurn(bus, op, m, i, env);
    var o := Opened(i, env);
    PassDecreases(bus, op, m, o);
    PassEndsByLast(bus, op, m, o);
    var p := Pass(bus, op, m, o);
    if p.next != End {
      InnerLoopEnds(bus, op, m, p, EnvAfter(i, env));
    }
  }

  lemma PassEndsByLast<M>(bus: BusOps<M>, op: Op, m: Mode, i: Inner<M>)
    requires Sound(i.x) && Tabled(op, m) && !NeverEnds(op, m) && 1 <= i.cycle <= LastCall(op, m)
    ensures LastCall(op, m) <= 6
    ensures var p := Pass(bus, op, m, i); p.next == End || 1 <= p.cycle <= LastCall(op, m)
  {
    hide Step, LastCall, Tabled, NeverEnds, DmaCycle, CyclesLeft;
    LastCallEnds(bus, op, m, Cpu(i.x.k, LatchOf(i.x.latches, op)));
    if i.x.dma.isIn {
      DmaCycleCounts(bus, i);
    } else if i.x.lines.flags.dma {
      DmaCycleCounts(bus, EnterDma(bus, i));
    }
  }

  // No stage that is still to be looked at says `End`: true from the second call
  // on, and at the first one if the uninitialised `next_stage` does not say so.
  predicate StageSet<M>(i: Inner<M>) { i.next != End && (i.x.dma.isIn ==> i.x.dma.saved != End) }

  lemma {:induction false} InnerLoopOverruns<M>(bus: BusOps<M>, op: Op, m: Mode, i: Inner<M>, env: seq<Window>)
    requires Sound(i.x) && NeverEnds(op, m) && StageSet(i)
    ensures InnerLoop(bus, op, m, i, env).Overrun?
    decreases |env|, Pending(i.x), 7 - i.cycle
  {
    hide InnerLoop, Pass, NeverEnds, Opened, EnvAfter, Pending, Sound, Step;
    OpenedKeeps(i, env);
    LoopTurn(bus, op, m, i, env);
    var o := Opened(i, env);
    NeverEndsReally(bus, op, m, o.cycle, Cpu(o.x.k, LatchOf(o.x.latches, op)));
    if o.x.dma.isIn || o.x.lines.flags.dma || o.cycle <= 6 {
      PassDecreases(bus, op, m, o);
      PassKeepsStage(bus, op, m, o);
      InnerLoopOverruns(bus, op, m, Pass(bus, op, m, o), EnvAfter(i, env));
    }
  }

  lemma DmaKeepsStage<M>(bus: BusOps<M>, i: Inner<M>)
    requires StageSet(i) && i.x.dma.isIn
    ensures StageSet(DmaCycle(bus, i))
  {
  }

  lemma PassKeepsStage<M>(bus: BusOps<M>, op: Op, m: Mode, i: Inner<M>)
    requires StageSet(i)
    requires !Step(bus, op, m, i.cycle, Cpu(i.x.k, LatchOf(i.x.latches, op))).ended
    ensures StageSet(Pass(bus, op, m, i))
  {
    hide Step, Pass, DmaCycle;
    PassCases(bus, op, m, i);
    if i.x.dma.isIn { DmaKeepsStage(bus, i); } else if i.x.lines.flags.dma { DmaKeepsStage(bus, EnterDma(bus, i)); }
  }

  // Exactly: for every opcode of the table, environment and state, the loop ends
  // if and only if the opcode is not one of the four that never do.
  lemma InnerLoopEndsIff<M>(bus: BusOps<M>, opcode: byte, i: Inner<M>, env: seq<Window>)
    requires Decode(opcode).Slot? && Sound(i.x) && StageSet(i) && i.cycle == 1
    ensures InnerLoop(bus, Decode(opcode).op, Decode(opcode).mode, i, env).Ended?
            <==> opcode !in {0x81, 0x91, 0xB6, 0xBE}
  {
    var s := Decode(opcode);
    TableIsTabled(opcode);
    NeverEndingOpcodes(opcode);
    if NeverEnds(s.op, s.mode) {
      InnerLoopOverruns(bus, s.op, s.mode, i, env);
    } else {
      LastCallEnds(bus, s.op, s.mode, Cpu(i.x.k, LatchOf(i.x.latches, s.op)));
      InnerLoopEnds(bus, s.op, s.mode, i, env);
    }
  }

  lemma NeverEndingOpcodes(opcode: byte)
    requires Decode(opcode).Slot?
    ensures NeverEnds(Decode(opcode).op, Decode(opcode).mode) <==> opcode in {0x81, 0x91, 0xB6, 0xBE}
  {
    var a, b, c := opcode / 0x20, opcode / 4 % 8, opcode % 4;
    assert opcode == 0x20 * a + 4 * b + c;
    Block0Ends(a, b);
    Block1NeverEnds(a, b);
    Block2NeverEnds(a, b);
  }

  lemma Block0Ends(a: nat, b: nat)
    ensures var s := Block0(a, b); s.Slot? ==> !NeverEnds(s.op, s.mode)
  {
  }

  lemma Block1NeverEnds(a: nat, b: nat)
    requires a < 8 && b < 8
    ensures var s := Block1(a, b); s.Slot? ==> (NeverEnds(s.op, s.mode) <==> a == 4 && (b == 0 || b == 4))
  {
  }

  lemma Block2NeverEnds(a: nat, b: nat)
    requires a < 8 && b < 8
    ensures var s := Block2(a, b); s.Slot? ==> (NeverEnds(s.op, s.mode) <==> a == 5 && (b == 5 || b == 7))
  {
  }
}
