// The emulator on the bus it is allocated with is the emulator on 65536 bytes of
// memory: whole launches, under every environment, transfers and interrupts
// included.
module DefaultMachine {
  import opened Words
  import opened Bus
  import opened Isa
  import opened Operate
  import opened Staged
  import opened Agreement
  import opened Executor
  import opened Launch
  import opened Lookup
  import opened Devices
  import opened Ram
  import opened Simulation
  import opened Transparency
  import opened DmaTransfer

  type Full = BusState<Memory>

  function FlatSim(): Sim<Full, Ram> { Sim(MembusOps<Memory>(), RamBus(), (b: Full) => Flat(b)) }

  function Flattened(): Full -> Ram { FlatSim().h }

  lemma DefaultAgrees(b: Full, a: word)
    requires DefaultBus(b)
    ensures Seen(FlatSim())(b, a)
    ensures DefaultBus(AfterReading(b, a)) && forall v: byte :: DefaultBus(AfterWriting(b, a, v))
  {
    hide AfterReading, AfterWriting, AfterRead, AfterWrite, Flat, ReadValue, Peek;
    DefaultReads(b, a);
    forall v: byte
      ensures DefaultBus(AfterWriting(b, a, v)) && Flat(AfterWriting(b, a, v)) == AfterWrite(Flat(b), a, v)
    {
      DefaultWrites(b, a, v);
    }
  }

  // ---- One call ------------------------------------------------------------

  lemma DefaultCarry(a: Staged.Access, k: Core<Full>)
    requires DefaultBus(k.m)
    ensures Clear(Seen(FlatSim()), a, k) && DefaultBus(Carry(MembusOps<Memory>(), k, a).k.m)
  {
    hide AfterReading, AfterWriting, ReadValue, DefaultBus, Seen;
    match a
    case Nothing =>
    case Program => DefaultAgrees(k.m, k.r.PC);
    case At(addr) => DefaultAgrees(k.m, addr);
    case Push(_) => DefaultAgrees(k.m, StackAddr(k.r.SP));
    case PushStatus(_) => DefaultAgrees(k.m, StackAddr(k.r.SP));
    case Pull => DefaultAgrees(k.m, StackAddr(Inc8(k.r.SP)));
  }

  lemma DefaultMicro(u: Micro, c: Cpu<Full>)
    requires DefaultBus(c.k.m)
    ensures MicroClear(Seen(FlatSim()), u, c) && DefaultBus(Perform(MembusOps<Memory>(), u, c).c.k.m)
  {
    hide DefaultBus, Seen, Carry, Clear;
    DefaultCarry(AccessOf(u, c.k.r, c.l), c.k);
  }

  lemma DefaultControl(u: ControlMicro, c: Cpu<Full>)
    requires DefaultBus(c.k.m)
    ensures ControlClear(Seen(FlatSim()), u, c) && DefaultBus(PerformControl(MembusOps<Memory>(), u, c).c.k.m)
  {
    hide DefaultBus, Seen, Carry, Clear;
    DefaultCarry(ControlAccess(u, c.k.r, c.l), c.k);
  }

  lemma DefaultLastWrite(u: Micro, c: Cpu<Full>, v: byte)
    requires DefaultBus(c.k.m)
    ensures var d := Perform(MembusOps<Memory>(), u, c);
            && LastWriteClear(MembusOps<Memory>(), Seen(FlatSim()), u, c)
            && DefaultBus(d.c.k.m) && DefaultBus(Write(MembusOps<Memory>(), d.c.k, d.c.l.addr16, v).m)
  {
    hide DefaultBus, Seen, Perform, MicroClear, AfterReading, AfterWriting;
    DefaultMicro(u, c);
    var d := Perform(MembusOps<Memory>(), u, c);
    DefaultAgrees(d.c.k.m, d.c.l.addr16);
  }

  lemma DefaultReading(op: ReadOp, m: Mode, cycle: nat, c: Cpu<Full>)
    requires DefaultBus(c.k.m)
    ensures ReadingClear(MembusOps<Memory>(), Seen(FlatSim()), op, m, cycle, c)
    ensures DefaultBus(StepReading(MembusOps<Memory>(), op, m, cycle, c).c.k.m)
  {
    hide DefaultBus, Seen, Perform, MicroClear, ReadPlan, OnOperand;
    var u := ReadPlan(op, m, cycle);
    DefaultMicro(u, c);
    DefaultMicro(AbsPlusRead(true), Perform(MembusOps<Memory>(), u, c).c);
  }

  lemma DefaultAdding(op: AddOp, m: Mode, cycle: nat, c: Cpu<Full>)
    requires DefaultBus(c.k.m)
    ensures MicroClear(Seen(FlatSim()), AluPlan(m, cycle), c)
    ensures DefaultBus(StepAdding(MembusOps<Memory>(), op, m, cycle, c).c.k.m)
  {
    hide DefaultBus, Seen, Perform, MicroClear, AluPlan, OnAddend;
    DefaultMicro(AluPlan(m, cycle), c);
    DefaultMicro(AluPlan(m, cycle), LatchDecimal(c));
  }

  lemma DefaultStoring(op: StoreOp, m: Mode, cycle: nat, c: Cpu<Full>)
    requires DefaultBus(c.k.m)
    ensures LastWriteClear(MembusOps<Memory>(), Seen(FlatSim()), StorePlan(op, m, cycle), c)
    ensures DefaultBus(StepStoring(MembusOps<Memory>(), op, m, cycle, c).c.k.m)
  {
    hide DefaultBus, Seen, Perform, StorePlan, LastWriteClear, AfterWriting;
    var u := StorePlan(op, m, cycle);
    DefaultLastWrite(u, c, Stored(op, Perform(MembusOps<Memory>(), u, c).c.k.r));
  }

  lemma DefaultBumping(op: BumpOp, m: Mode, cycle: nat, c: Cpu<Full>)
    requires DefaultBus(c.k.m)
    ensures LastWriteClear(MembusOps<Memory>(), Seen(FlatSim()), BumpPlan(op, m, cycle), c)
    ensures DefaultBus(StepBumping(MembusOps<Memory>(), op, m, cycle, c).c.k.m)
  {
    hide DefaultBus, Seen, Perform, BumpPlan, LastWriteClear, AfterWriting;
    var u := BumpPlan(op, m, cycle);
    DefaultLastWrite(u, c, Lo(Perform(MembusOps<Memory>(), u, c).c.l.operand));
  }

  lemma DefaultShifting(op: ShiftOp, m: Mode, cycle: nat, c: Cpu<Full>)
    requires DefaultBus(c.k.m)
    ensures LastWriteClear(MembusOps<Memory>(), Seen(FlatSim()), ShiftPlan(m, cycle), c)
    ensures DefaultBus(StepShifting(MembusOps<Memory>(), op, m, cycle, c).c.k.m)
  {
    hide DefaultBus, Seen, Perform, ShiftPlan, LastWriteClear, AfterWriting, ShiftOnce, ShiftA;
    var u, e := ShiftPlan(m, cycle), if cycle == 1 then c.(l := c.l.(penultimate := false)) else c;
    DefaultLastWrite(u, c, 0);
    DefaultLastWrite(u, e, Lo(Perform(MembusOps<Memory>(), u, e).c.l.operand));
  }

  lemma DefaultBrk(cycle: nat, c: Cpu<Full>)
    requires DefaultBus(c.k.m)
    ensures BrkClear(MembusOps<Memory>(), Seen(FlatSim()), cycle, c)
    ensures DefaultBus(StepBrk(MembusOps<Memory>(), cycle, c).c.k.m)
  {
    hide DefaultBus, Seen, PerformControl, ControlClear;
    DefaultControl(BrkPlan(cycle), c);
    DefaultControl(PushPcHi, PerformControl(MembusOps<Memory>(), BrkPlan(cycle), c).c);
  }

  lemma DefaultStep(op: Op, m: Mode, cycle: nat, c: Cpu<Full>)
    requires DefaultBus(c.k.m)
    ensures StepClear(MembusOps<Memory>(), Seen(FlatSim()), op, m, cycle, c)
    ensures DefaultBus(Step(MembusOps<Memory>(), op, m, cycle, c).c.k.m)
  {
    hide DefaultBus, Seen, PerformControl, ControlClear, ControlPlan, BranchPlan, OneByte;
    hide StepReading, StepAdding, StepStoring, StepBumping, StepShifting, StepBrk;
    hide ReadingClear, LastWriteClear, MicroClear, BrkClear;
    match op
    case Reading(o) => DefaultReading(o, m, cycle, c);
    case Adding(o) => DefaultAdding(o, m, cycle, c);
    case Storing(o) => DefaultStoring(o, m, cycle, c);
    case Bumping(o) => DefaultBumping(o, m, cycle, c);
    case Shifting(o) => DefaultShifting(o, m, cycle, c);
    case Branching(o) => DefaultControl(BranchPlan(Isa.Taken(o, c.k.r.SR), cycle), c);
    case Inherent(_) =>
    case Control(o) => DefaultControl(ControlPlan(o, m, cycle, c.k.r.SR), c);
    case BRK => DefaultBrk(cycle, c);
  }

  lemma FlatStep(op: Op, m: Mode, cycle: nat, c: Cpu<Full>)
    requires DefaultBus(c.k.m)
    ensures Step(RamBus(), op, m, cycle, OnCpu(Flattened(), c))
            == OnStep(Flattened(), Step(MembusOps<Memory>(), op, m, cycle, c))
    ensures DefaultBus(Step(MembusOps<Memory>(), op, m, cycle, c).c.k.m)
  {
    hide Step, StepClear, DefaultBus, Seen;
    DefaultStep(op, m, cycle, c);
    StepCommutes(FlatSim(), op, m, cycle, c);
  }

  // ---- The inner loop ------------------------------------------------------

  function FlatExec(x: Exec<Full>): Exec<Ram> {
    Exec(OnCore(Flattened(), x.k), x.latches, x.lines, x.dma, x.total, x.calls, x.served)
  }

  function FlatInner(i: Inner<Full>): Inner<Ram> { Inner(FlatExec(i.x), i.cycle, i.next) }

  function FlatEnded(e: Ended<Full>): Ended<Ram> {
    match e
    case Ended(x, env) => Ended(FlatExec(x), env)
    case Overrun(x) => Overrun(FlatExec(x))
  }

  lemma FlatRead(k: Core<Full>, a: word)
    requires DefaultBus(k.m)
    ensures var f, g := Read(MembusOps<Memory>(), k, a), Read(RamBus(), OnCore(Flattened(), k), a);
            g.v == f.v && g.k == OnCore(Flattened(), f.k) && DefaultBus(f.k.m)
  {
    hide AfterReading, ReadValue, DefaultBus, Flat, Peek, AfterRead;
    DefaultReads(k.m, a);
  }

  lemma FlatWrite(k: Core<Full>, a: word, v: byte)
    requires DefaultBus(k.m)
    ensures var f := Write(MembusOps<Memory>(), k, a, v);
            Write(RamBus(), OnCore(Flattened(), k), a, v) == OnCore(Flattened(), f) && DefaultBus(f.m)
  {
    hide AfterWriting, DefaultBus, Flat, AfterWrite;
    DefaultWrites(k.m, a, v);
  }

  lemma FlatSwitch(b: Full, off: bool)
    requires DefaultBus(b)
    ensures DefaultBus(MembusOps<Memory>().setCacheOff(b, off))
    ensures Flat(MembusOps<Memory>().setCacheOff(b, off)) == RamBus().setCacheOff(Flat(b), off)
    ensures MembusOps<Memory>().cacheOff(b) == RamBus().cacheOff(Flat(b))
  {
  }

  lemma FlatEnter(i: Inner<Full>)
    requires DefaultBus(i.x.k.m)
    ensures EnterDma(RamBus(), FlatInner(i)) == FlatInner(EnterDma(MembusOps<Memory>(), i))
    ensures DefaultBus(EnterDma(MembusOps<Memory>(), i).x.k.m)
  {
    hide DefaultBus, Flat, MembusOps, RamBus;
    FlatSwitch(i.x.k.m, true);
    SimParts();
  }

  lemma SimParts()
    ensures FlatSim().from == MembusOps<Memory>() && FlatSim().to == RamBus()
    ensures forall b: Full :: Flattened()(b) == Flat(b)
  {
  }

  lemma FlatLeave(i: Inner<Full>)
    requires DefaultBus(i.x.k.m)
    ensures LeaveDma(RamBus(), FlatInner(i)) == FlatInner(LeaveDma(MembusOps<Memory>(), i))
    ensures DefaultBus(LeaveDma(MembusOps<Memory>(), i).x.k.m)
  {
    hide DefaultBus, Flat, MembusOps, RamBus;
    FlatSwitch(i.x.k.m, i.x.dma.savedOff);
    SimParts();
  }

  lemma FlatDmaWrite(i: Inner<Full>)
    requires DefaultBus(i.x.k.m)
    ensures DmaWrite(RamBus(), FlatInner(i)) == FlatInner(DmaWrite(MembusOps<Memory>(), i))
    ensures DefaultBus(DmaWrite(MembusOps<Memory>(), i).x.k.m)
  {
    hide DefaultBus, Flat, MembusOps, RamBus, LeaveDma, Write, Flattened;
    var x := i.x;
    var d := x.dma;
    if x.lines.req.party.Consuming? {
      FlatLeave(i.(x := x.(dma := d.(index := Inc16(d.index)), calls := x.calls + [Given(d.index, d.next)])));
    } else {
      FlatWrite(x.k, x.lines.req.lo, d.next);
      FlatLeave(i.(x := MoveOn(x.(k := Write(MembusOps<Memory>(), x.k, x.lines.req.lo, d.next)))));
    }
  }

  lemma FlatDmaRead(i: Inner<Full>)
    requires DefaultBus(i.x.k.m)
    ensures DmaRead(RamBus(), FlatInner(i)) == FlatInner(DmaRead(MembusOps<Memory>(), i))
    ensures DefaultBus(DmaRead(MembusOps<Memory>(), i).x.k.m)
  {
    hide DefaultBus, Flat, MembusOps, RamBus, LeaveDma, Read, Flattened;
    var x := i.x;
    var d := x.dma;
    if x.lines.req.party.Consuming? {
      FlatRead(x.k, x.lines.req.lo);
    } else {
      var v := x.lines.req.party.give(d.index);
      var e := d.(index := Inc16(d.index), next := if v.Some? then v.value else d.next);
      FlatLeave(i.(x := x.(dma := e, calls := x.calls + [Asked(d.index)])));
    }
  }

  lemma FlatDmaCycle(i: Inner<Full>)
    requires DefaultBus(i.x.k.m)
    ensures DmaCycle(RamBus(), FlatInner(i)) == FlatInner(DmaCycle(MembusOps<Memory>(), i))
    ensures DefaultBus(DmaCycle(MembusOps<Memory>(), i).x.k.m)
  {
    hide DefaultBus, Flat, MembusOps, RamBus, DmaRead, DmaWrite, Flattened;
    FlatDmaRead(i);
    FlatDmaWrite(i);
  }

  lemma FlatCall(op: Op, m: Mode, i: Inner<Full>)
    requires DefaultBus(i.x.k.m)
    ensures HandlerCall(RamBus(), op, m, FlatInner(i)) == FlatInner(HandlerCall(MembusOps<Memory>(), op, m, i))
    ensures DefaultBus(HandlerCall(MembusOps<Memory>(), op, m, i).x.k.m)
  {
    hide Step, DefaultBus, Flat, MembusOps, RamBus, Flattened;
    FlatStep(op, m, i.cycle, Cpu(i.x.k, LatchOf(i.x.latches, op)));
  }

  lemma FlatPass(op: Op, m: Mode, i: Inner<Full>)
    requires DefaultBus(i.x.k.m)
    ensures Pass(RamBus(), op, m, FlatInner(i)) == FlatInner(Pass(MembusOps<Memory>(), op, m, i))
    ensures DefaultBus(Pass(MembusOps<Memory>(), op, m, i).x.k.m)
  {
    hide DefaultBus, Flat, MembusOps, RamBus, Flattened, Pass, DmaCycle, EnterDma, HandlerCall;
    PassCases(MembusOps<Memory>(), op, m, i);
    PassCases(RamBus(), op, m, FlatInner(i));
    if i.x.dma.isIn {
      FlatDmaCycle(i);
    } else if i.x.lines.flags.dma {
      FlatEnter(i);
      FlatDmaCycle(EnterDma(MembusOps<Memory>(), i));
    } else {
      FlatCall(op, m, i);
    }
  }

  lemma {:induction false} FlatLoop(op: Op, m: Mode, i: Inner<Full>, env: seq<Window>)
    requires Sound(i.x) && DefaultBus(i.x.k.m)
    ensures InnerLoop(RamBus(), op, m, FlatInner(i), env) == FlatEnded(InnerLoop(MembusOps<Memory>(), op, m, i, env))
    ensures DefaultBus(InnerLoop(MembusOps<Memory>(), op, m, i, env).x.k.m)
    decreases |env|, Pending(i.x), 7 - i.cycle
  {
    hide DefaultBus, Flat, MembusOps, RamBus, Flattened, Pass, InnerLoop, Pending, ApplyAll;
    var o := Opened(i, env);
    LoopTurn(MembusOps<Memory>(), op, m, i, env);
    LoopTurn(RamBus(), op, m, FlatInner(i), env);
    assert Opened(FlatInner(i), env) == FlatInner(o);
    if o.x.dma.isIn || o.x.lines.flags.dma || o.cycle <= 6 {
      FlatPass(op, m, o);
      PassDecreases(MembusOps<Memory>(), op, m, o);
      var p := Pass(MembusOps<Memory>(), op, m, o);
      if p.next != End {
        FlatLoop(op, m, p, EnvAfter(i, env));
      }
    }
  }

  // ---- Launches ------------------------------------------------------------

  function FlatDriven(d: Driven<Full>): Driven<Ram> {
    match d
    case Driven(c, calls) => Driven(OnCpu(Flattened(), c), calls)
    case Unfinished => Unfinished
  }

  lemma {:induction false} FlatDrive(op: Op, m: Mode, cycle: nat, c: Cpu<Full>)
    requires DefaultBus(c.k.m)
    ensures Drive(RamBus(), op, m, cycle, OnCpu(Flattened(), c))
            == FlatDriven(Drive(MembusOps<Memory>(), op, m, cycle, c))
    ensures var d := Drive(MembusOps<Memory>(), op, m, cycle, c); d.Driven? ==> DefaultBus(d.c.k.m)
    decreases 7 - cycle
  {
    hide Step, DefaultBus, Flat, MembusOps, RamBus, Flattened;
    if cycle <= 6 {
      FlatStep(op, m, cycle, c);
      var s := Step(MembusOps<Memory>(), op, m, cycle, c);
      if !s.ended {
        FlatDrive(op, m, cycle + 1, s.c);
      }
    }
  }

  lemma FlatServe(op: ControlOp, m: Mode, x: Exec<Full>)
    requires DefaultBus(x.k.m)
    ensures Serve(RamBus(), op, m, FlatExec(x)) == FlatExec(Serve(MembusOps<Memory>(), op, m, x))
    ensures DefaultBus(Serve(MembusOps<Memory>(), op, m, x).k.m)
  {
    hide Drive, DefaultBus, Flat, MembusOps, RamBus, Flattened;
    FlatDrive(Control(op), m, 1, Cpu(x.k, LatchOf(x.latches, Control(op))));
  }

  lemma FlatService(m: Mode, x: Exec<Full>)
    requires DefaultBus(x.k.m)
    ensures Service(RamBus(), m, FlatExec(x)) == FlatExec(Service(MembusOps<Memory>(), m, x))
    ensures DefaultBus(Service(MembusOps<Memory>(), m, x).k.m)
  {
    hide Serve, DefaultBus, Flat, MembusOps, RamBus, Flattened;
    var y := if x.lines.flags.irq && !x.k.r.SR.I then Serve(MembusOps<Memory>(), IRQ, m, x) else x;
    FlatServe(IRQ, m, x);
    FlatServe(NMI, m, y);
  }

  lemma FlatFetch(x: Exec<Full>)
    requires DefaultBus(x.k.m)
    ensures Fetch(RamBus(), FlatExec(x).k).v == Fetch(MembusOps<Memory>(), x.k).v
    ensures Fetched1(RamBus(), FlatExec(x)) == FlatExec(Fetched1(MembusOps<Memory>(), x))
    ensures DefaultBus(Fetched1(MembusOps<Memory>(), x).k.m)
  {
    hide Read, DefaultBus, Flat, MembusOps, RamBus, Flattened;
    FlatRead(x.k, x.k.r.PC);
  }

  function FlatTurn(t: Turn<Full>): Turn<Ram> { Turn(t.why, FlatExec(t.x), t.env) }

  lemma FlatInstruction(x: Exec<Full>, env: seq<Window>, junk: Stage)
    requires !x.dma.isIn && DefaultBus(x.k.m)
    ensures Instruction(RamBus(), FlatExec(x), env, junk) == FlatTurn(Instruction(MembusOps<Memory>(), x, env, junk))
    ensures DefaultBus(Instruction(MembusOps<Memory>(), x, env, junk).x.k.m)
  {
    hide Decode, Fetch, Fetched1, InnerLoop, Service, DefaultBus, Flat, MembusOps, RamBus, Flattened;
    FlatFetch(x);
    var y, s := Fetched1(MembusOps<Memory>(), x), Decode(Fetch(MembusOps<Memory>(), x.k).v);
    FetchOutside(MembusOps<Memory>(), x);
    if s.Slot? {
      var i := Inner(y, 1, junk);
      FlatLoop(s.op, s.mode, i, env);
      var e := InnerLoop(MembusOps<Memory>(), s.op, s.mode, i, env);
      if e.Ended? {
        FlatService(s.mode, CloseWindow(e.x, e.env));
      }
    }
  }

  lemma FetchOutside<M>(bus: BusOps<M>, x: Exec<M>)
    ensures Fetched1(bus, x).dma == x.dma && Fetched1(bus, x).lines == x.lines
  {
  }

  function FlatOutcome(o: Outcome<Full>): Outcome<Ram> { Outcome(o.why, FlatExec(o.x), o.ran, o.env) }

  // From any state of the default bus, for any number of instructions and any
  // environment: run and flatten, or flatten and run.
  lemma {:induction false} LaunchIsFlat(x: Exec<Full>, pcEnd: nat, n: nat, env: seq<Window>, junk: nat -> Stage)
    requires !x.dma.isIn && DefaultBus(x.k.m)
    ensures StagedLoop(RamBus(), FlatExec(x), pcEnd, n, env, junk)
            == FlatOutcome(StagedLoop(MembusOps<Memory>(), x, pcEnd, n, env, junk))
    ensures DefaultBus(StagedLoop(MembusOps<Memory>(), x, pcEnd, n, env, junk).x.k.m)
    decreases n
  {
    hide Instruction, DefaultBus, Flat, MembusOps, RamBus, Flattened;
    if !x.lines.flags.stop && x.k.r.PC < pcEnd && n > 0 {
      FlatInstruction(x, env, junk(n));
      var t := Instruction(MembusOps<Memory>(), x, env, junk(n));
      if t.why == Done {
        LaunchIsFlat(t.x, pcEnd, n - 1, t.env, junk);
      }
    }
  }

  // So a transfer in the middle of an instruction is as transparent on the default
  // bus as it is on memory.
  lemma CopyInOnDefaultBus(op: Op, m: Mode, i: Inner<Full>, req: Request, env: seq<Window>)
    requires !i.x.dma.isIn && !i.x.lines.flags.dma && i.next != End && AllQuiet(env) && req.party.Providing?
    requires DefaultBus(i.x.k.m)
    requires StaysClear(RamBus(), Outside(req.lo, |BytesGiven(req)|), op, m, i.cycle, CpuOf(FlatExec(i.x), op))
    ensures var a := InnerLoop(MembusOps<Memory>(), op, m, i, env);
            var b := InnerLoop(MembusOps<Memory>(), op, m, i, [[SetDma(req)]] + env);
            var bs := BytesGiven(req);
            && b.Ended? == a.Ended? && (a.Ended? ==> b.env == a.env)
            && b.x.k.r == a.x.k.r && b.x.latches == a.x.latches && b.x.lines.flags == a.x.lines.flags
            && Flat(b.x.k.m) == Laid(Flat(a.x.k.m), req.lo, bs)
            && Shows(Flat(a.x.k.m).bytes, req.lo, bs, Flat(b.x.k.m).bytes)
            && b.x.total == a.x.total + 2 * |bs| + (if |bs| < Count(req.lo, req.len) then 1 else 0) + i.x.total % 2
  {
    hide InnerLoop, DefaultBus, Flat, MembusOps, RamBus, StaysClear, Laid, Shows, BytesGiven;
    FlatLoop(op, m, i, env);
    FlatLoop(op, m, i, [[SetDma(req)]] + env);
    CopyInIsTransparent(op, m, FlatInner(i), req, env);
    SimParts();
  }

  lemma CopyOutOnDefaultBus(op: Op, m: Mode, i: Inner<Full>, req: Request, env: seq<Window>)
    requires !i.x.dma.isIn && !i.x.lines.flags.dma && i.next != End && AllQuiet(env) && req.party.Consuming?
    requires DefaultBus(i.x.k.m)
    ensures var a := InnerLoop(MembusOps<Memory>(), op, m, i, env);
            var b := InnerLoop(MembusOps<Memory>(), op, m, i, [[SetDma(req)]] + env);
            && b.Ended? == a.Ended? && (a.Ended? ==> b.env == a.env)
            && b.x.k.r == a.x.k.r && b.x.latches == a.x.latches && b.x.lines.flags == a.x.lines.flags
            && Flat(b.x.k.m) == Flat(a.x.k.m)
            && b.x.total == a.x.total + 2 * (|b.x.calls| - |i.x.calls|) + i.x.total % 2
  {
    hide InnerLoop, DefaultBus, Flat, MembusOps, RamBus;
    FlatLoop(op, m, i, env);
    FlatLoop(op, m, i, [[SetDma(req)]] + env);
    CopyOutIsTransparent(op, m, FlatInner(i), req, env);
    SimParts();
  }
}
