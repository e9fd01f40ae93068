// When a processor on one bus does what it would do on another: a function from bus
// to bus that every access made respects.
module Simulation {
  import opened Words
  import opened Registers
  import opened Bus
  import opened Isa
  import opened Operate
  import opened Staged

  datatype Sim<!M, !N> = Sim(from: BusOps<M>, to: BusOps<N>, h: M -> N)

  // At this bus state and address, reading and writing go through `h`.
  ghost predicate Agrees<M, N>(s: Sim<M, N>, m: M, a: word) {
    && s.to.peek(s.h(m), a) == s.from.peek(m, a)
    && s.to.afterRead(s.h(m), a) == s.h(s.from.afterRead(m, a))
    && forall v: byte :: s.to.afterWrite(s.h(m), a, v) == s.h(s.from.afterWrite(m, a, v))
  }

  ghost function Seen<M, N>(s: Sim<M, N>): (M, word) -> bool { (m: M, a: word) => Agrees(s, m, a) }

  function OnCore<M, N>(h: M -> N, k: Core<M>): Core<N> { Core(k.r, h(k.m)) }

  function OnCpu<M, N>(h: M -> N, c: Cpu<M>): Cpu<N> { Cpu(OnCore(h, c.k), c.l) }

  function OnStep<M, N>(h: M -> N, s: Stepped<M>): Stepped<N> { Stepped(OnCpu(h, s.c), s.ended) }

  // ---- What a call accesses ------------------------------------------------

  // Every access of a call is at a bus state and address that is `ok`.
  predicate Clear<M>(ok: (M, word) -> bool, a: Access, k: Core<M>) {
    match a
    case Nothing => true
    case Program => ok(k.m, k.r.PC)
    case At(addr) => ok(k.m, addr)
    case Push(_) => ok(k.m, StackAddr(k.r.SP))
    case PushStatus(_) => ok(k.m, StackAddr(k.r.SP))
    case Pull => ok(k.m, StackAddr(Inc8(k.r.SP)))
  }

  predicate MicroClear<M>(ok: (M, word) -> bool, u: Micro, c: Cpu<M>) { Clear(ok, AccessOf(u, c.k.r, c.l), c.k) }

  predicate ControlClear<M>(ok: (M, word) -> bool, u: ControlMicro, c: Cpu<M>) {
    Clear(ok, ControlAccess(u, c.k.r, c.l), c.k)
  }

  predicate StepClear<M>(bus: BusOps<M>, ok: (M, word) -> bool, op: Op, m: Mode, cycle: nat, c: Cpu<M>) {
    match op
    case Reading(o) => ReadingClear(bus, ok, o, m, cycle, c)
    case Adding(o) => MicroClear(ok, AluPlan(m, cycle), c)
    case Storing(o) => LastWriteClear(bus, ok, StorePlan(o, m, cycle), c)
    case Bumping(o) => LastWriteClear(bus, ok, BumpPlan(o, m, cycle), c)
    case Shifting(o) => LastWriteClear(bus, ok, ShiftPlan(m, cycle), c)
    case Branching(o) => ControlClear(ok, BranchPlan(Taken(o, c.k.r.SR), cycle), c)
    case Inherent(_) => true
    case Control(o) => ControlClear(ok, ControlPlan(o, m, cycle, c.k.r.SR), c)
    case BRK => BrkClear(bus, ok, cycle, c)
  }

  predicate ReadingClear<M>(bus: BusOps<M>, ok: (M, word) -> bool, op: ReadOp, m: Mode, cycle: nat, c: Cpu<M>) {
    var u := ReadPlan(op, m, cycle);
    MicroClear(ok, u, c)
    && (SecondIndexing(op, m, cycle) ==> MicroClear(ok, AbsPlusRead(true), Perform(bus, u, c).c))
  }

  // A writing instruction may write to addr16 in its last call.
  predicate LastWriteClear<M>(bus: BusOps<M>, ok: (M, word) -> bool, u: Micro, c: Cpu<M>) {
    var d := Perform(bus, u, c);
    MicroClear(ok, u, c) && (d.ended ==> ok(d.c.k.m, d.c.l.addr16))
  }

  predicate BrkClear<M>(bus: BusOps<M>, ok: (M, word) -> bool, cycle: nat, c: Cpu<M>) {
    ControlClear(ok, BrkPlan(cycle), c)
    && (cycle == 1 ==> ControlClear(ok, PushPcHi, PerformControl(bus, BrkPlan(1), c).c))
  }

  // ---- A call seen through `h` ---------------------------------------------

  lemma CarryCommutes<M, N>(s: Sim<M, N>, a: Access, k: Core<M>)
    requires Clear(Seen(s), a, k)
    ensures var f, g := Carry(s.from, k, a), Carry(s.to, OnCore(s.h, k), a);
            g.v == f.v && g.k == OnCore(s.h, f.k)
  {
  }

  lemma PerformCommutes<M, N>(s: Sim<M, N>, u: Micro, c: Cpu<M>)
    requires MicroClear(Seen(s), u, c)
    ensures Perform(s.to, u, OnCpu(s.h, c)) == OnStep(s.h, Perform(s.from, u, c))
  {
    CarryCommutes(s, AccessOf(u, c.k.r, c.l), c.k);
  }

  lemma PerformControlCommutes<M, N>(s: Sim<M, N>, u: ControlMicro, c: Cpu<M>)
    requires ControlClear(Seen(s), u, c)
    ensures PerformControl(s.to, u, OnCpu(s.h, c)) == OnStep(s.h, PerformControl(s.from, u, c))
  {
    CarryCommutes(s, ControlAccess(u, c.k.r, c.l), c.k);
  }

  lemma WriteCommutes<M, N>(s: Sim<M, N>, k: Core<M>, a: word, v: byte)
    requires Agrees(s, k.m, a)
    ensures Write(s.to, OnCore(s.h, k), a, v) == OnCore(s.h, Write(s.from, k, a, v))
  {
  }

  lemma ReadingCommutes<M, N>(s: Sim<M, N>, op: ReadOp, m: Mode, cycle: nat, c: Cpu<M>)
    requires ReadingClear(s.from, Seen(s), op, m, cycle, c)
    ensures StepReading(s.to, op, m, cycle, OnCpu(s.h, c)) == OnStep(s.h, StepReading(s.from, op, m, cycle, c))
  {
    hide ReadPlan, Perform, MicroClear, OnOperand;
    var u := ReadPlan(op, m, cycle);
    PerformCommutes(s, u, c);
    if SecondIndexing(op, m, cycle) {
      PerformCommutes(s, AbsPlusRead(true), Perform(s.from, u, c).c);
    }
  }

  lemma AddingCommutes<M, N>(s: Sim<M, N>, op: AddOp, m: Mode, cycle: nat, c: Cpu<M>)
    requires MicroClear(Seen(s), AluPlan(m, cycle), c)
    ensures StepAdding(s.to, op, m, cycle, OnCpu(s.h, c)) == OnStep(s.h, StepAdding(s.from, op, m, cycle, c))
  {
    hide AluPlan, Perform, MicroClear, OnAddend;
    var u, e := AluPlan(m, cycle), if cycle == 1 then LatchDecimal(c) else c;
    LatchDecimalClear(Seen(s), u, c);
    PerformCommutes(s, u, e);
  }

  lemma LatchDecimalClear<M>(ok: (M, word) -> bool, u: Micro, c: Cpu<M>)
    requires MicroClear(ok, u, c)
    ensures MicroClear(ok, u, LatchDecimal(c))
  {
  }

  lemma StoringCommutes<M, N>(s: Sim<M, N>, op: StoreOp, m: Mode, cycle: nat, c: Cpu<M>)
    requires LastWriteClear(s.from, Seen(s), StorePlan(op, m, cycle), c)
    ensures StepStoring(s.to, op, m, cycle, OnCpu(s.h, c)) == OnStep(s.h, StepStoring(s.from, op, m, cycle, c))
  {
    hide StorePlan, Perform, MicroClear;
    var u := StorePlan(op, m, cycle);
    PerformCommutes(s, u, c);
    var d := Perform(s.from, u, c);
    if d.ended {
      WriteCommutes(s, d.c.k, d.c.l.addr16, Stored(op, d.c.k.r));
    }
  }

  lemma BumpingCommutes<M, N>(s: Sim<M, N>, op: BumpOp, m: Mode, cycle: nat, c: Cpu<M>)
    requires LastWriteClear(s.from, Seen(s), BumpPlan(op, m, cycle), c)
    ensures StepBumping(s.to, op, m, cycle, OnCpu(s.h, c)) == OnStep(s.h, StepBumping(s.from, op, m, cycle, c))
  {
    hide BumpPlan, Perform, MicroClear;
    var u := BumpPlan(op, m, cycle);
    PerformCommutes(s, u, c);
    var d := Perform(s.from, u, c);
    if d.ended {
      WriteCommutes(s, d.c.k, d.c.l.addr16, Lo(d.c.l.operand));
    }
  }

  lemma ShiftingCommutes<M, N>(s: Sim<M, N>, op: ShiftOp, m: Mode, cycle: nat, c: Cpu<M>)
    requires LastWriteClear(s.from, Seen(s), ShiftPlan(m, cycle), c)
    ensures StepShifting(s.to, op, m, cycle, OnCpu(s.h, c)) == OnStep(s.h, StepShifting(s.from, op, m, cycle, c))
  {
    hide ShiftPlan, Perform, MicroClear, AfterShift;
    var u, e := ShiftPlan(m, cycle), if cycle == 1 then c.(l := c.l.(penultimate := false)) else c;
    PenultimateClear(s.from, Seen(s), u, c);
    PerformCommutes(s, u, e);
    AfterShiftCommutes(s, op, m, Perform(s.from, u, e));
  }

  lemma AfterShiftCommutes<M, N>(s: Sim<M, N>, op: ShiftOp, m: Mode, d: Stepped<M>)
    requires d.ended ==> Agrees(s, d.c.k.m, d.c.l.addr16)
    ensures AfterShift(s.to, op, m, OnStep(s.h, d)) == OnStep(s.h, AfterShift(s.from, op, m, d))
  {
    hide ShiftOnce, ShiftA, Lo, SetNZC, Agrees;
    if d.ended {
      WriteCommutes(s, d.c.k, d.c.l.addr16, Lo(d.c.l.operand));
    }
  }

  lemma PenultimateClear<M>(bus: BusOps<M>, ok: (M, word) -> bool, u: Micro, c: Cpu<M>)
    requires LastWriteClear(bus, ok, u, c)
    ensures LastWriteClear(bus, ok, u, c.(l := c.l.(penultimate := false)))
  {
  }

  lemma BranchingCommutes<M, N>(s: Sim<M, N>, op: BranchOp, cycle: nat, c: Cpu<M>)
    requires ControlClear(Seen(s), BranchPlan(Taken(op, c.k.r.SR), cycle), c)
    ensures StepBranching(s.to, op, cycle, OnCpu(s.h, c)) == OnStep(s.h, StepBranching(s.from, op, cycle, c))
  {
    hide PerformControl, ControlClear;
    PerformControlCommutes(s, BranchPlan(Taken(op, c.k.r.SR), cycle), c);
  }

  lemma ControlCommutes<M, N>(s: Sim<M, N>, op: ControlOp, m: Mode, cycle: nat, c: Cpu<M>)
    requires ControlClear(Seen(s), ControlPlan(op, m, cycle, c.k.r.SR), c)
    ensures StepControl(s.to, op, m, cycle, OnCpu(s.h, c)) == OnStep(s.h, StepControl(s.from, op, m, cycle, c))
  {
    hide PerformControl, ControlClear, ControlPlan;
    PerformControlCommutes(s, ControlPlan(op, m, cycle, c.k.r.SR), c);
  }

  lemma BrkCommutes<M, N>(s: Sim<M, N>, cycle: nat, c: Cpu<M>)
    requires BrkClear(s.from, Seen(s), cycle, c)
    ensures StepBrk(s.to, cycle, OnCpu(s.h, c)) == OnStep(s.h, StepBrk(s.from, cycle, c))
  {
    hide PerformControl, ControlClear;
    PerformControlCommutes(s, BrkPlan(cycle), c);
    if cycle == 1 {
      PerformControlCommutes(s, PushPcHi, PerformControl(s.from, BrkPlan(1), c).c);
    }
  }

  // One call of any handler.
  lemma StepCommutes<M, N>(s: Sim<M, N>, op: Op, m: Mode, cycle: nat, c: Cpu<M>)
    requires StepClear(s.from, Seen(s), op, m, cycle, c)
    ensures Step(s.to, op, m, cycle, OnCpu(s.h, c)) == OnStep(s.h, Step(s.from, op, m, cycle, c))
  {
    hide StepReading, StepAdding, StepStoring, StepBumping, StepShifting, StepBranching, StepControl, StepBrk;
    hide ReadingClear, LastWriteClear, MicroClear, ControlClear, BrkClear;
    match op
    case Reading(o) => ReadingCommutes(s, o, m, cycle, c);
    case Adding(o) => AddingCommutes(s, o, m, cycle, c);
    case Storing(o) => StoringCommutes(s, o, m, cycle, c);
    case Bumping(o) => BumpingCommutes(s, o, m, cycle, c);
    case Shifting(o) => ShiftingCommutes(s, o, m, cycle, c);
    case Branching(o) => BranchingCommutes(s, o, cycle, c);
    case Inherent(_) =>
    case Control(o) => ControlCommutes(s, o, m, cycle, c);
    case BRK => BrkCommutes(s, cycle, c);
  }

  // ---- More accesses are clear where more is allowed ------------------------

  lemma StepClearMore<M(!new)>(bus: BusOps<M>, ok: (M, word) -> bool, more: (M, word) -> bool,
                               op: Op, m: Mode, cycle: nat, c: Cpu<M>)
    requires forall n: M, a: word | ok(n, a) :: more(n, a)
    requires StepClear(bus, ok, op, m, cycle, c)
    ensures StepClear(bus, more, op, m, cycle, c)
  {
    hide Perform, PerformControl, AccessOf, ControlAccess;
  }
}
