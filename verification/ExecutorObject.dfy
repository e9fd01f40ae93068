// The executor and a running launch as objects: the calls other threads make, the
// transfer machine and the loops, updating their fields step by step.
module ExecutorObject {
  import opened Words
  import opened Bus
  import opened Isa
  import opened Staged
  import opened Static
  import opened Agreement
  import opened Executor
  import opened Launch
  import opened Interrupts
  import opened Membus
  import opened Processor
  import opened Handlers

  class Machine<!M> {
    const cpu: Processor<M>
    const st: Statics            // the locals of the handler being called
    var latches: Latches         // those of the others
    var nmiIsSet: bool
    var irqIsSet: bool
    var dmaIsSet: bool
    var execStop: bool
    var dmaLo: word
    var dmaLen: word
    var dmaParty: Party

    constructor (cpu: Processor<M>, party: Party)
      ensures this.cpu == cpu && fresh(st) && latches == map[]
      ensures LinesNow() == Lines(Flags(false, false, false, false), Request(0, 0, party))
    {
      this.cpu, latches := cpu, map[];
      st := new Statics();
      nmiIsSet, irqIsSet, dmaIsSet, execStop := false, false, false, false;
      dmaLo, dmaLen, dmaParty := 0, 0, party;
    }

    function LinesNow(): Lines
      reads this`nmiIsSet, this`irqIsSet, this`dmaIsSet, this`execStop, this`dmaLo, this`dmaLen, this`dmaParty
    {
      Lines(Flags(nmiIsSet, irqIsSet, dmaIsSet, execStop), Request(dmaLo, dmaLen, dmaParty))
    }

    method SetNmi()
      modifies this`nmiIsSet
      ensures LinesNow() == Apply(old(LinesNow()), Act.SetNmi) && nmiIsSet
    {
      nmiIsSet := true;
    }

    method SetIrq()
      modifies this`irqIsSet
      ensures LinesNow() == Apply(old(LinesNow()), Act.SetIrq) && irqIsSet
    {
      irqIsSet := true;
    }

    method SetExecStop()
      modifies this`execStop
      ensures LinesNow() == Apply(old(LinesNow()), Act.SetStop) && execStop
    {
      execStop := true;
    }

    // Copy-in and copy-out differ in which callback the request carries. A request
    // made while one is pending or running changes nothing.
    method SetDmaCopy(req: Request)
      modifies this`dmaIsSet, this`dmaLo, this`dmaLen, this`dmaParty
      ensures LinesNow() == Apply(old(LinesNow()), Act.SetDma(req))
      ensures if old(dmaIsSet) then LinesNow() == old(LinesNow())
              else dmaIsSet && dmaLo == req.lo && dmaLen == req.len && dmaParty == req.party
    {
      if !dmaIsSet {
        dmaIsSet := true;
        dmaLo, dmaLen, dmaParty := req.lo, req.len, req.party;
      }
    }

    method DisableCache() returns (was: bool)
      modifies cpu`memory
      ensures was == cpu.bus.cacheOff(old(cpu.memory)) && cpu.memory == cpu.bus.setCacheOff(old(cpu.memory), true)
    {
      was := cpu.bus.cacheOff(cpu.memory);
      cpu.memory := cpu.bus.setCacheOff(cpu.memory, true);
    }

    // The transfer is over.
    method RestoreCache(off: bool)
      modifies this`dmaIsSet, cpu`memory
      ensures LinesNow() == old(LinesNow()).(flags := old(LinesNow().flags).(dma := false))
      ensures cpu.memory == cpu.bus.setCacheOff(old(cpu.memory), off)
    {
      dmaIsSet := false;
      cpu.memory := cpu.bus.setCacheOff(cpu.memory, off);
    }

    // A handler finds its locals as its last call left them.
    method Invoke(op: Op, mode: Mode, cycle: nat) returns (end: bool)
      modifies cpu, st, this`latches
      ensures var s := Step(cpu.bus, op, mode, cycle, Cpu(old(cpu.View()), LatchOf(old(latches), op)));
              cpu.View() == s.c.k && latches == old(latches)[op := s.c.l] && end == s.ended
    {
      hide Step, LatchOf;
      st.Load(LatchOf(latches, op));
      end := Handlers.Call(cpu, st, op, mode, cycle);
      latches := latches[op := st.View()];
    }

    // The lock is dropped and taken again: in between, whatever other threads do.
    method OpenWindow(w: Window)
      modifies this`nmiIsSet, this`irqIsSet, this`execStop, this`dmaIsSet, this`dmaLo, this`dmaLen, this`dmaParty
      ensures LinesNow() == ApplyAll(old(LinesNow()), w)
    {
      var i := 0;
      while i < |w|
        invariant i <= |w| && ApplyAll(old(LinesNow()), w) == ApplyAll(LinesNow(), w[i..])
      {
        assert w[i..][1..] == w[i + 1..];
        match w[i] {
          case SetNmi => SetNmi();
          case SetIrq => SetIrq();
          case SetStop => SetExecStop();
          case SetDma(req) => SetDmaCopy(req);
        }
        i := i + 1;
      }
    }
  }

  // The local variables of a launch.
  class LaunchFrame<!M> {
    const e: Machine<M>
    var totalCycles: nat
    var cycleCount: nat
    var nextStage: Stage
    var isInDma: bool
    var isDmaStarted: bool
    var isDmaCopyout: bool
    var dmaByteIndex: word
    var dmaAddrHi: word
    var dmaNextByte: byte
    var savedStage: Stage
    var savedCacheState: bool
    ghost var calls: seq<Call>
    ghost var served: seq<ControlOp>

    constructor (e: Machine<M>)
      ensures this.e == e && !isInDma && totalCycles == 0 && calls == [] && served == []
      ensures Now().dma == NO_DMA
    {
      this.e := e;
      totalCycles, cycleCount, nextStage, isInDma, isDmaStarted, isDmaCopyout := 0, 0, End, false, false, false;
      dmaByteIndex, dmaAddrHi, dmaNextByte, savedStage, savedCacheState := 0, 0, 0, End, false;
      calls, served := [], [];
    }

    ghost function Now(): Exec<M>
      reads this, e, e.cpu
    {
      Exec(e.cpu.View(), e.latches, e.LinesNow(), DmaNow(), totalCycles, calls, served)
    }

    ghost function DmaNow(): Dma
      reads this`isInDma, this`isDmaStarted, this`isDmaCopyout, this`dmaByteIndex, this`dmaAddrHi, this`dmaNextByte
      reads this`savedStage, this`savedCacheState
    {
      Dma(isInDma, isDmaStarted, isDmaCopyout, dmaByteIndex, dmaAddrHi, dmaNextByte, savedStage, savedCacheState)
    }

    ghost function InLoop(): Inner<M>
      reads this, e, e.cpu
    {
      Inner(Now(), cycleCount, nextStage)
    }

    method SeizeBus()
      requires !isInDma && e.dmaIsSet
      modifies this, e.cpu`memory
      ensures InLoop() == EnterDma(e.cpu.bus, old(InLoop())) && isInDma && Sound(Now())
    {
      var off := e.DisableCache();
      SetUpTransfer(off);
    }

    method SetUpTransfer(cacheOff: bool)
      modifies this`isInDma, this`isDmaStarted, this`isDmaCopyout, this`dmaByteIndex, this`dmaAddrHi
      modifies this`savedStage, this`savedCacheState, this`nextStage
      ensures nextStage == ExecDma
      ensures DmaNow() == Dma(true, totalCycles % 2 == 0, e.dmaParty.Consuming?, 0, RangeEnd(e.dmaLo, e.dmaLen),
                              dmaNextByte, old(nextStage), cacheOff)
    {
      isInDma := true;
      isDmaStarted := totalCycles % 2 == 0;
      isDmaCopyout := e.dmaParty.Consuming?;
      dmaByteIndex, dmaAddrHi := 0, RangeEnd(e.dmaLo, e.dmaLen);
      savedStage, savedCacheState := nextStage, cacheOff;
      nextStage := ExecDma;
    }

    method ReleaseBus()
      modifies this`isInDma, this`isDmaStarted, this`nextStage, e.cpu`memory, e`dmaIsSet
      ensures InLoop() == LeaveDma(e.cpu.bus, old(InLoop()))
    {
      ResumeHandler();
      e.RestoreCache(savedCacheState);
    }

    method ResumeHandler()
      modifies this`isInDma, this`isDmaStarted, this`nextStage
      ensures DmaNow() == old(DmaNow()).(isIn := false, started := false) && nextStage == savedStage
    {
      isDmaStarted := false;
      isInDma := false;
      nextStage := savedStage;
    }

    // A refusal and the end of the range may both release the bus; the second
    // release changes nothing.
    method WriteCycle()
      requires isInDma && Sound(Now())
      modifies this, e.cpu`memory, e`dmaIsSet, e`dmaLo
      ensures InLoop() == DmaWrite(e.cpu.bus, old(InLoop()))
    {
      var hi := dmaAddrHi;
      var refused := false;
      if isDmaCopyout {
        refused := !e.dmaParty.take(dmaByteIndex, dmaNextByte);
        calls := calls + [Given(dmaByteIndex, dmaNextByte)];
        dmaByteIndex := Inc16(dmaByteIndex);
      } else {
        e.cpu.WriteAddr(e.dmaLo, dmaNextByte);
        e.dmaLo := Inc16(e.dmaLo);
      }
      if refused || e.dmaLo >= hi { ReleaseBus(); }
    }

    method ReadCycle()
      requires isInDma && Sound(Now())
      modifies this, e.cpu`memory, e`dmaIsSet, e`dmaLo
      ensures InLoop() == DmaRead(e.cpu.bus, old(InLoop()))
    {
      if isDmaCopyout {
        dmaNextByte := e.cpu.ReadAddr(e.dmaLo);
        e.dmaLo := Inc16(e.dmaLo);
      } else {
        var v := e.dmaParty.give(dmaByteIndex);
        calls := calls + [Asked(dmaByteIndex)];
        dmaByteIndex := Inc16(dmaByteIndex);
        if v.Some? { dmaNextByte := v.value; } else { ReleaseBus(); }
      }
    }

    method TransferCycle()
      requires isInDma && Sound(Now())
      modifies this, e.cpu`memory, e`dmaIsSet, e`dmaLo
      ensures InLoop() == DmaCycle(e.cpu.bus, old(InLoop()))
    {
      if isDmaStarted {
        if totalCycles % 2 == 1 { WriteCycle(); } else { ReadCycle(); }
        totalCycles := totalCycles + 1;
      } else {
        totalCycles := totalCycles + 1;
        isDmaStarted := totalCycles % 2 == 0;
      }
    }

    // The handler behind the dispatch record, one call.
    method CallHandler(op: Op, mode: Mode)
      modifies this`nextStage, this`cycleCount, this`totalCycles, e.cpu, e.st, e`latches
      ensures InLoop() == HandlerCall(e.cpu.bus, op, mode, old(InLoop()))
    {
      hide Step, Machine.LinesNow, DmaNow, LatchOf;
      var end := e.Invoke(op, mode, cycleCount);
      nextStage := if end then End else NextCycle;
      cycleCount, totalCycles := cycleCount + 1, totalCycles + 1;
    }

    // A pending request goes before the handler.
    method SeizeOrCall(op: Op, mode: Mode)
      requires !isInDma
      modifies this, e.cpu, e.st, e`latches
      ensures isInDma == e.dmaIsSet
      ensures if isInDma then Sound(Now()) && InLoop() == EnterDma(e.cpu.bus, old(InLoop()))
              else InLoop() == HandlerCall(e.cpu.bus, op, mode, old(InLoop()))
    {
      hide HandlerCall, EnterDma;
      if e.dmaIsSet {
        SeizeBus();
      } else {
        CallHandler(op, mode);
      }
    }

    lemma TurnCases(op: Op, mode: Mode)
      ensures Pass(e.cpu.bus, op, mode, InLoop())
              == if isInDma then DmaCycle(e.cpu.bus, InLoop())
                 else if e.dmaIsSet then DmaCycle(e.cpu.bus, EnterDma(e.cpu.bus, InLoop()))
                 else HandlerCall(e.cpu.bus, op, mode, InLoop())
    {
      hide Pass, HandlerCall, EnterDma, DmaCycle;
      PassCases(e.cpu.bus, op, mode, InLoop());
    }

    method OneTurn(op: Op, mode: Mode)
      requires Sound(Now())
      modifies this, e.cpu, e.st, e`latches, e`dmaIsSet, e`dmaLo
      ensures InLoop() == Pass(e.cpu.bus, op, mode, old(InLoop()))
    {
      hide Pass, HandlerCall, EnterDma, DmaCycle, Sound, InLoop, Now;
      TurnCases(op, mode);
      if !isInDma { SeizeOrCall(op, mode); }
      if isInDma { TransferCycle(); }
    }

    // The do-while, up to a handler's sixth call.
    method RunInstruction(op: Op, mode: Mode, env: seq<Window>) returns (rest: seq<Window>, ended: bool)
      requires Sound(Now())
      modifies this, e, e.cpu, e.st
      ensures var r := InnerLoop(e.cpu.bus, op, mode, old(InLoop()), env);
              Now() == r.x && ended == r.Ended? && (ended ==> rest == r.env)
    {
      hide Pass, InnerLoop, CyclesLeft, ApplyAll;
      rest, ended := env, false;
      while true
        invariant Sound(Now()) && !ended
        invariant InnerLoop(e.cpu.bus, op, mode, old(InLoop()), env) == InnerLoop(e.cpu.bus, op, mode, InLoop(), rest)
        decreases |rest|, Pending(Now()), 7 - cycleCount
      {
        ghost var i, was := InLoop(), rest;
        if !isInDma && rest != [] {
          e.OpenWindow(rest[0]);
          rest := rest[1..];
        }
        ghost var o := InLoop();
        assert o == Opened(i, was) && rest == EnvAfter(i, was);
        LoopTurn(e.cpu.bus, op, mode, i, was);
        if !isInDma && !e.dmaIsSet && cycleCount > 6 { return; }
        PassDecreases(e.cpu.bus, op, mode, o);
        OneTurn(op, mode);
        if nextStage == End { ended := true; return; }
      }
    }

    // An interrupt handler from its first call to its end.
    method RunHandler(op: ControlOp, mode: Mode)
      requires Drive(e.cpu.bus, Control(op), mode, 1, Cpu(e.cpu.View(), LatchOf(e.latches, Control(op)))).Driven?
      modifies this`cycleCount, this`totalCycles, this`served, e.cpu, e.st, e`latches
      ensures Now() == Serve(e.cpu.bus, op, mode, old(Now()))
    {
      hide Step, Machine.LinesNow, DmaNow, LatchOf;
      e.st.Load(LatchOf(e.latches, Control(op)));
      ghost var total, d := totalCycles, Drive(e.cpu.bus, Control(op), mode, 1, Cpu(e.cpu.View(), e.st.View()));
      cycleCount := 1;
      var end := false;
      while !end
        invariant 1 <= cycleCount <= 7 && totalCycles == total + cycleCount - 1
        invariant e.latches == old(e.latches) && served == old(served)
        invariant d == if end then Driven(Cpu(e.cpu.View(), e.st.View()), cycleCount - 1)
                       else Drive(e.cpu.bus, Control(op), mode, cycleCount, Cpu(e.cpu.View(), e.st.View()))
        decreases !end, 7 - cycleCount
      {
        end := Handlers.Call(e.cpu, e.st, Control(op), mode, cycleCount);
        cycleCount, totalCycles := cycleCount + 1, totalCycles + 1;
      }
      e.latches := e.latches[Control(op) := e.st.View()];
      served := served + [op];
    }

    // An interrupt request is served only while interrupts are enabled.
    method ServeRequest(mode: Mode)
      modifies this`cycleCount, this`totalCycles, this`served, e.cpu, e.st, e`latches
      ensures Now() == if e.irqIsSet && !old(e.cpu.SR.I) then Serve(e.cpu.bus, IRQ, mode, old(Now())) else old(Now())
    {
      hide Serve, Drive;
      if e.irqIsSet && !e.cpu.SR.I {
        HandlerEnds(e.cpu.bus, IRQ, mode, Cpu(e.cpu.View(), LatchOf(e.latches, Control(IRQ))));
        RunHandler(IRQ, mode);
      }
    }

    method ServiceInterrupts(mode: Mode)
      modifies this`cycleCount, this`totalCycles, this`served, e.cpu, e.st, e`latches, e`irqIsSet, e`nmiIsSet
      ensures Now() == Service(e.cpu.bus, mode, old(Now()))
    {
      hide Serve, Drive, DmaNow, LatchOf;
      ServeRequest(mode);
      if e.nmiIsSet {
        HandlerEnds(e.cpu.bus, NMI, mode, Cpu(e.cpu.View(), LatchOf(e.latches, Control(NMI))));
        RunHandler(NMI, mode);
      }
      e.irqIsSet, e.nmiIsSet := false, false;
    }

    method CloseTurn(env: seq<Window>) returns (rest: seq<Window>)
      modifies e`nmiIsSet, e`irqIsSet, e`execStop, e`dmaIsSet, e`dmaLo, e`dmaLen, e`dmaParty
      ensures Now() == CloseWindow(old(Now()), env) && rest == if env == [] then [] else env[1..]
    {
      hide ApplyAll, DmaNow;
      rest := env;
      if env != [] {
        e.OpenWindow(env[0]);
        rest := env[1..];
      }
    }

    // Fetch, decode, the inner loop, the closing window and the interrupts.
    method OneInstruction(env: seq<Window>, junk: Stage) returns (why: Why, rest: seq<Window>)
      requires !isInDma
      modifies this, e, e.cpu, e.st
      ensures Turn(why, Now(), rest) == Instruction(e.cpu.bus, old(Now()), env, junk)
    {
      hide InnerLoop, Service, Decode, Fetch, CloseWindow;
      rest := env;
      var opcode := e.cpu.FetchByte();
      totalCycles := totalCycles + 1;
      assert Now() == Fetched1(e.cpu.bus, old(Now()));
      hide Machine.LinesNow;
      match Decode(opcode)
      case Unused => why := Illegal;
      case ZeroFilled => why := NullHandler;
      case Slot(op, mode) =>
        cycleCount, nextStage := 1, junk;
        var ended;
        rest, ended := RunInstruction(op, mode, env);
        if !ended { return Hung, env; }
        rest := CloseTurn(rest);
        ServiceInterrupts(mode);
        why := Done;
    }

    // The launch loop, for at most `n` instructions.
    method RunStaged(pcEnd: nat, n: nat, env: seq<Window>, junk: nat -> Stage)
      returns (why: Why, ran: nat, rest: seq<Window>)
      requires !isInDma
      modifies this, e, e.cpu, e.st
      ensures Outcome(why, Now(), ran, rest) == StagedLoop(e.cpu.bus, old(Now()), pcEnd, n, env, junk)
    {
      hide Instruction, StagedLoop;
      why, ran, rest := Done, 0, env;
      ghost var whole := StagedLoop(e.cpu.bus, Now(), pcEnd, n, env, junk);
      while !e.execStop && e.cpu.PC < pcEnd && why == Done
        invariant ran <= n && (why == Done ==> !isInDma)
        invariant why == Done ==> whole == Counted(StagedLoop(e.cpu.bus, Now(), pcEnd, n - ran, rest, junk), ran)
        invariant why == Illegal ==> whole == Outcome(Illegal, LowerStop(Now()), ran, rest)
        invariant why != Done && why != Illegal ==> whole == Outcome(why, Now(), ran, rest)
        decreases n - ran, why == Done
      {
        if ran == n {
          why := OutOfSteps;
          LoopStops(e.cpu.bus, Now(), pcEnd, n - ran, rest, junk);
        } else {
          ghost var x, was := Now(), rest;
          assert !x.lines.flags.stop && x.k.r.PC < pcEnd;
          why, rest := OneInstruction(rest, junk(n - ran));
          LoopTurns(e.cpu.bus, x, pcEnd, n - ran, was, junk, ran, Turn(why, Now(), rest));
          if why == Done { ran := ran + 1; }
        }
      }
      if why == Done { LoopStops(e.cpu.bus, Now(), pcEnd, n - ran, rest, junk); }
      if why == Done || why == Illegal { e.execStop := false; }
    }
  }

  function Counted<M>(o: Outcome<M>, ran: nat): Outcome<M> { o.(ran := o.ran + ran) }

  // One turn of the launch loop.
  lemma LoopTurns<M>(bus: BusOps<M>, x: Exec<M>, pcEnd: nat, n: nat, env: seq<Window>, junk: nat -> Stage, ran: nat,
                     t: Turn<M>)
    requires !x.dma.isIn && !x.lines.flags.stop && x.k.r.PC < pcEnd && n > 0
    requires t == Instruction(bus, x, env, junk(n))
    ensures Counted(StagedLoop(bus, x, pcEnd, n, env, junk), ran)
            == if t.why.Done? then Counted(StagedLoop(bus, t.x, pcEnd, n - 1, t.env, junk), ran + 1)
               else Outcome(t.why, if t.why.Illegal? then LowerStop(t.x) else t.x, ran, t.env)
  {
    hide Instruction;
  }

  lemma LoopStops<M>(bus: BusOps<M>, x: Exec<M>, pcEnd: nat, n: nat, env: seq<Window>, junk: nat -> Stage)
    requires !x.dma.isIn && (x.lines.flags.stop || x.k.r.PC >= pcEnd || n == 0)
    ensures StagedLoop(bus, x, pcEnd, n, env, junk)
            == if x.lines.flags.stop || x.k.r.PC >= pcEnd then Outcome(Done, LowerStop(x), 0, env)
               else Outcome(OutOfSteps, x, 0, env)
  {
    hide Instruction;
  }

  lemma HandlerEnds<M>(bus: BusOps<M>, op: ControlOp, m: Mode, c: Cpu<M>)
    requires op.NMI? || (op.IRQ? && !c.k.r.SR.I)
    ensures Drive(bus, Control(op), m, 1, c).Driven?
  {
    if op.NMI? { AgreeNmi(bus, m, c); } else { IrqEntry(bus, m, c); }
  }

  // executor_launch_in_address_range, staged and locked: all requests are dropped,
  // PC is set, and the loop runs; the cycles are returned.
  method LaunchStaged<M>(e: Machine<M>, r: Range, pc: word, n: nat, env: seq<Window>, junk: nat -> Stage)
    returns (why: Why, total: nat, ghost o: Outcome<M>)
    modifies e, e.cpu, e.st
    ensures var k, l := old(e.cpu.View()), old(e.latches);
            var x := Begin(k, l, Request(old(e.dmaLo), old(e.dmaLen), old(e.dmaParty)), pc);
            if r.lo <= pc < r.lo + r.len then
              && x.k == Core(k.r.(PC := pc), k.m) && x.latches == l && x.total == 0 && !x.dma.isIn
              && x.lines.flags == Flags(false, false, false, false)
              && o == StagedLoop(e.cpu.bus, x, r.lo + r.len, n, env, junk) && why == o.why && total == o.x.total
              && e.cpu.View() == o.x.k && e.latches == o.x.latches && e.LinesNow() == o.x.lines
            else
              && why == Done && total == 0
              && e.cpu.View() == k && e.latches == l && e.LinesNow() == old(e.LinesNow())
  {
    hide StagedLoop;
    why, total := Done, 0;
    if Includes(r, pc) {
      var f := new LaunchFrame(e);
      e.nmiIsSet, e.irqIsSet, e.dmaIsSet, e.execStop := false, false, false, false;
      e.cpu.PC := pc;
      var ran, rest;
      why, ran, rest := f.RunStaged(r.lo + r.len, n, env, junk);
      total := f.totalCycles;
      o := Outcome(why, f.Now(), ran, rest);
    } else {
      o := Outcome(Done, Begin(e.cpu.View(), e.latches, Request(0, 0, e.dmaParty), pc), 0, env);
    }
  }

  // The static loop without locking.
  method LaunchStatic<M>(cpu: Processor<M>, pcEnd: nat, pc: word, n: nat, unset: nat -> Unset)
    returns (why: Why, total: nat, ran: nat)
    modifies cpu
    ensures StaticOutcome(why, cpu.View(), total, ran)
            == StaticLoop(cpu.bus, WithPc(old(cpu.View()), pc), 0, pcEnd, n, unset)
  {
    hide Run, Decode, StaticLoop;
    cpu.PC := pc;
    why, total, ran := Done, 0, 0;
    ghost var whole := StaticLoop(cpu.bus, cpu.View(), 0, pcEnd, n, unset);
    while cpu.PC < pcEnd && ran < n && why == Done
      invariant ran <= n
      invariant whole == if why == Done
                         then CountedStatic(StaticLoop(cpu.bus, cpu.View(), total, pcEnd, n - ran, unset), ran)
                         else StaticOutcome(why, cpu.View(), total, ran)
      decreases n - ran, why == Done
    {
      StaticTurns(cpu.bus, cpu.View(), total, pcEnd, n - ran, unset, ran);
      var opcode := cpu.FetchByte();
      var cycleCount := 1;
      total := total + 1;
      match Decode(opcode)
      case Unused => why := Illegal;
      case ZeroFilled => why := NullHandler;
      case Slot(op, mode) =>
        var cycles := CallStatic(cpu, op, mode, unset(n - ran));
        cycleCount := cycleCount + cycles;
        total := total + cycleCount;
        ran := ran + 1;
    }
    if why == Done {
      StaticStops(cpu.bus, cpu.View(), total, pcEnd, n - ran, unset);
      if cpu.PC < pcEnd { why := OutOfSteps; }
    }
  }

  lemma StaticTurns<M>(bus: BusOps<M>, k: Core<M>, total: nat, pcEnd: nat, n: nat, unset: nat -> Unset, ran: nat)
    requires k.r.PC < pcEnd && n > 0
    ensures var f := Fetch(bus, k);
            CountedStatic(StaticLoop(bus, k, total, pcEnd, n, unset), ran)
            == match Decode(f.v)
               case Unused => StaticOutcome(Illegal, f.k, total + 1, ran)
               case ZeroFilled => StaticOutcome(NullHandler, f.k, total + 1, ran)
               case Slot(op, m) =>
                 var r := Run(bus, op, m, f.k, unset(n));
                 CountedStatic(StaticLoop(bus, r.k, total + 1 + (1 + r.cycles), pcEnd, n - 1, unset), ran + 1)
  {
    hide Run, Decode;
  }

  lemma StaticStops<M>(bus: BusOps<M>, k: Core<M>, total: nat, pcEnd: nat, n: nat, unset: nat -> Unset)
    requires k.r.PC >= pcEnd || n == 0
    ensures StaticLoop(bus, k, total, pcEnd, n, unset)
            == StaticOutcome(if k.r.PC >= pcEnd then Done else OutOfSteps, k, total, 0)
  {
    hide Run, Decode;
  }
}
