// The launch loops: fetch, decode, execute, then look for interrupts. The staged
// loop is the locked one, with the environment's windows; the static loop is the
// one without locking, of a single thread.
module Launch {
  import opened Words
  import opened Bus
  import opened Isa
  import opened Staged
  import opened Static
  import opened Agreement
  import opened Executor

  // An interrupt handler from its first call to its last.
  function Serve<M>(bus: BusOps<M>, op: ControlOp, m: Mode, x: Exec<M>): Exec<M> {
    match Drive(bus, Control(op), m, 1, Cpu(x.k, LatchOf(x.latches, Control(op))))
    case Driven(c, calls) =>
      x.(k := c.k, latches := x.latches[Control(op) := c.l], total := x.total + calls, served := x.served + [op])
    case Unfinished => x
  }

  // After an instruction: an interrupt request is looked at only while interrupts
  // are enabled, and both lines are lowered in any case.
  function Service<M>(bus: BusOps<M>, m: Mode, x: Exec<M>): Exec<M> {
    var y := if x.lines.flags.irq && !x.k.r.SR.I then Serve(bus, IRQ, m, x) else x;
    var z := if x.lines.flags.nmi then Serve(bus, NMI, m, y) else y;
    z.(lines := z.lines.(flags := z.lines.flags.(irq := false, nmi := false)))
  }

  // How an instruction, or a launch, can come to an end.
  datatype Why = Done | Illegal | NullHandler | Hung | OutOfSteps

  datatype Turn<M> = Turn(why: Why, x: Exec<M>, env: seq<Window>)

  function CloseWindow<M>(x: Exec<M>, env: seq<Window>): Exec<M> {
    if env == [] then x else x.(lines := ApplyAll(x.lines, env[0]))
  }

  function Fetched1<M>(bus: BusOps<M>, x: Exec<M>): Exec<M> { x.(k := Fetch(bus, x.k).k, total := x.total + 1) }

  // `junk` is what `next_stage` happens to hold on entry.
  function Instruction<M>(bus: BusOps<M>, x: Exec<M>, env: seq<Window>, junk: Stage): (t: Turn<M>)
    requires !x.dma.isIn
    ensures t.why != OutOfSteps
    ensures t.why == Done ==> !t.x.dma.isIn && !t.x.lines.flags.nmi && !t.x.lines.flags.irq
  {
    var y := Fetched1(bus, x);
    match Decode(Fetch(bus, x.k).v)
    case Unused => Turn(Illegal, y, env)
    case ZeroFilled => Turn(NullHandler, y, env)
    case Slot(op, m) =>
      match InnerLoop(bus, op, m, Inner(y, 1, junk), env)
      case Overrun(z) => Turn(Hung, z, env)
      case Ended(z, rest) =>
        Turn(Done, Service(bus, m, CloseWindow(z, rest)), if rest == [] then [] else rest[1..])
  }

  // What a launch ended with, and how many instructions it completed.
  datatype Outcome<M> = Outcome(why: Why, x: Exec<M>, ran: nat, env: seq<Window>)

  function LowerStop<M>(x: Exec<M>): Exec<M> { x.(lines := x.lines.(flags := x.lines.flags.(stop := false))) }

  // The staged launch loop over addresses below `pcEnd`, cut off after `n`
  // instructions.
  function StagedLoop<M>(bus: BusOps<M>, x: Exec<M>, pcEnd: nat, n: nat, env: seq<Window>, junk: nat -> Stage)
    : Outcome<M>
    requires !x.dma.isIn
    decreases n
  {
    if x.lines.flags.stop || x.k.r.PC >= pcEnd then Outcome(Done, LowerStop(x), 0, env)
    else if n == 0 then Outcome(OutOfSteps, x, 0, env)
    else
      var t := Instruction(bus, x, env, junk(n));
      match t.why
      case Done =>
        var o := StagedLoop(bus, t.x, pcEnd, n - 1, t.env, junk);
        o.(ran := o.ran + 1)
      case Illegal => Outcome(Illegal, LowerStop(t.x), 0, t.env)
      case _ => Outcome(t.why, t.x, 0, t.env)
  }

  const NO_DMA := Dma(false, false, false, 0, 0, 0, End, false)

  // All requests are dropped at the start of a launch.
  function Begin<M>(k: Core<M>, latches: Latches, req: Request, pc: word): Exec<M> {
    Exec(WithPc(k, pc), latches, Lines(Flags(false, false, false, false), req), NO_DMA, 0, [], [])
  }

  // The static loop, with nobody to raise a line. A static handler adds its cycles
  // to a count that already holds the fetch, and the whole count goes to the total.
  datatype StaticOutcome<M> = StaticOutcome(why: Why, k: Core<M>, total: nat, ran: nat)

  function StaticLoop<M>(bus: BusOps<M>, k: Core<M>, total: nat, pcEnd: nat, n: nat, unset: nat -> Unset)
    : StaticOutcome<M>
    decreases n
  {
    if k.r.PC >= pcEnd then StaticOutcome(Done, k, total, 0)
    else if n == 0 then StaticOutcome(OutOfSteps, k, total, 0)
    else
      var f := Fetch(bus, k);
      match Decode(f.v)
      case Unused => StaticOutcome(Illegal, f.k, total + 1, 0)
      case ZeroFilled => StaticOutcome(NullHandler, f.k, total + 1, 0)
      case Slot(op, m) =>
        var r := Run(bus, op, m, f.k, unset(n));
        var o := StaticLoop(bus, r.k, total + 1 + (1 + r.cycles), pcEnd, n - 1, unset);
        o.(ran := o.ran + 1)
  }

  // An outcome seen from `ran` instructions earlier.
  function CountedStatic<M>(o: StaticOutcome<M>, ran: nat): StaticOutcome<M> { o.(ran := o.ran + ran) }
}
