// The locked staged launch loop as a state machine. The mutex is represented by
// the only places where it is dropped: a window is the sequence of calls other
// threads make while they can hold it. Whatever a window contains is an arbitrary
// choice of the environment.
module Executor {
  import opened Words
  import opened Wrappers
  import opened Registers
  import opened Bus
  import opened Isa
  import opened Staged

  // A copy-in asks its provider for the byte at an index, which it may refuse; a
  // copy-out hands its consumer an index and a byte, which it may refuse.
  datatype Party = Providing(give: word -> Option<byte>) | Consuming(take: (word, byte) -> bool)

  datatype Request = Request(lo: word, len: word, party: Party)

  datatype Flags = Flags(nmi: bool, irq: bool, dma: bool, stop: bool)

  // Everything the other threads can write.
  datatype Lines = Lines(flags: Flags, req: Request)

  datatype Act = SetNmi | SetIrq | SetStop | SetDma(req: Request)

  type Window = seq<Act>

  function Apply(l: Lines, a: Act): Lines {
    match a
    case SetNmi => l.(flags := l.flags.(nmi := true))
    case SetIrq => l.(flags := l.flags.(irq := true))
    case SetStop => l.(flags := l.flags.(stop := true))
    case SetDma(req) => if l.flags.dma then l else Lines(l.flags.(dma := true), req)
  }

  function ApplyAll(l: Lines, w: Window): Lines
    decreases |w|
  {
    if w == [] then l else ApplyAll(Apply(l, w[0]), w[1..])
  }

  datatype Stage = End | NextCycle | ExecDma

  // The loop's own record of a transfer. Only `isIn` is initialised in C; the
  // rest is set on entry.
  datatype Dma = Dma(isIn: bool, started: bool, copyout: bool, index: word, hi: word, next: byte,
                     saved: Stage, savedOff: bool)

  // Calls to the provider or consumer, in order.
  datatype Call = Asked(index: word) | Given(index: word, v: byte)

  // One latch per handler, zero until its first call as C statics are.
  type Latches = map<Op, Latch>

  function LatchOf(ls: Latches, op: Op): Latch {
    if op in ls then ls[op] else Latch(0, 0, 0, CLEAR, false, false)
  }

  // `calls` and `served` record what has happened; the loop never reads them.
  datatype Exec<M> = Exec(k: Core<M>, latches: Latches, lines: Lines, dma: Dma, total: nat,
                          calls: seq<Call>, served: seq<ControlOp>)

  // The inner loop: the context's cycle count and `next_stage`.
  datatype Inner<M> = Inner(x: Exec<M>, cycle: nat, next: Stage)

  // memory_addr_range_get_end
  function RangeEnd(lo: word, len: word): word { if lo + len < 0x1_0000 then lo + len else 0xFFFF }

  function WithLines<M>(i: Inner<M>, l: Lines): Inner<M> { i.(x := i.x.(lines := l)) }

  // The pending request seizes the bus; caching is switched off for its duration.
  function EnterDma<M>(bus: BusOps<M>, i: Inner<M>): Inner<M> {
    var x, req := i.x, i.x.lines.req;
    var d := Dma(true, x.total % 2 == 0, req.party.Consuming?, 0, RangeEnd(req.lo, req.len), x.dma.next,
                 i.next, bus.cacheOff(x.k.m));
    Inner(x.(dma := d, k := x.k.(m := bus.setCacheOff(x.k.m, true))), i.cycle, ExecDma)
  }

  function HandlerCall<M>(bus: BusOps<M>, op: Op, m: Mode, i: Inner<M>): Inner<M> {
    var x := i.x;
    var s := Step(bus, op, m, i.cycle, Cpu(x.k, LatchOf(x.latches, op)));
    Inner(x.(k := s.c.k, latches := x.latches[op := s.c.l], total := x.total + 1), i.cycle + 1,
          if s.ended then End else NextCycle)
  }

  // Done or refused: the flag falls, caching is as before, and the interrupted
  // handler's stage is back.
  function LeaveDma<M>(bus: BusOps<M>, i: Inner<M>): Inner<M> {
    var x := i.x;
    i.(x := x.(dma := x.dma.(isIn := false, started := false),
               lines := x.lines.(flags := x.lines.flags.(dma := false)),
               k := x.k.(m := bus.setCacheOff(x.k.m, x.dma.savedOff))),
       next := x.dma.saved)
  }

  function Tick<M>(i: Inner<M>): Inner<M> { i.(x := i.x.(total := i.x.total + 1)) }

  function MoveOn<M>(x: Exec<M>): Exec<M> { x.(lines := x.lines.(req := x.lines.req.(lo := Inc16(x.lines.req.lo)))) }

  // An odd cycle of a transfer writes.
  function DmaWrite<M>(bus: BusOps<M>, i: Inner<M>): Inner<M> {
    var x := i.x;
    var d, party := x.dma, x.lines.req.party;
    if party.Consuming? then
      var given := i.(x := x.(dma := d.(index := Inc16(d.index)), calls := x.calls + [Given(d.index, d.next)]));
      if !party.take(d.index, d.next) || x.lines.req.lo >= d.hi then LeaveDma(bus, given) else given
    else
      var written := i.(x := MoveOn(x.(k := Write(bus, x.k, x.lines.req.lo, d.next))));
      if written.x.lines.req.lo >= d.hi then LeaveDma(bus, written) else written
  }

  // An even cycle reads.
  function DmaRead<M>(bus: BusOps<M>, i: Inner<M>): Inner<M> {
    var x := i.x;
    var d, party := x.dma, x.lines.req.party;
    if party.Consuming? then
      var f := Read(bus, x.k, x.lines.req.lo);
      i.(x := MoveOn(x.(k := f.k, dma := d.(next := f.v))))
    else
      var v := party.give(d.index);
      var e := d.(index := Inc16(d.index), next := if v.Some? then v.value else d.next);
      var asked := i.(x := x.(dma := e, calls := x.calls + [Asked(d.index)]));
      if v.None? then LeaveDma(bus, asked) else asked
  }

  // One cycle of a transfer: a stall until the count is even, then alternately
  // read and write.
  function DmaCycle<M>(bus: BusOps<M>, i: Inner<M>): Inner<M> {
    if !i.x.dma.started then
      var t := Tick(i);
      t.(x := t.x.(dma := t.x.dma.(started := t.x.total % 2 == 0)))
    else if i.x.total % 2 == 1 then Tick(DmaWrite(bus, i))
    else Tick(DmaRead(bus, i))
  }

  // One turn of the do-while. A transfer is entered and given its first cycle in
  // the same turn. The window is open only outside a transfer.
  function Pass<M>(bus: BusOps<M>, op: Op, m: Mode, i: Inner<M>): Inner<M> {
    if i.x.dma.isIn then DmaCycle(bus, i)
    else if i.x.lines.flags.dma then DmaCycle(bus, EnterDma(bus, i))
    else HandlerCall(bus, op, m, i)
  }

  lemma PassCases<M>(bus: BusOps<M>, op: Op, m: Mode, i: Inner<M>)
    ensures i.x.dma.isIn ==> Pass(bus, op, m, i) == DmaCycle(bus, i)
    ensures !i.x.dma.isIn && i.x.lines.flags.dma ==> Pass(bus, op, m, i) == DmaCycle(bus, EnterDma(bus, i))
    ensures !i.x.dma.isIn && !i.x.lines.flags.dma ==> Pass(bus, op, m, i) == HandlerCall(bus, op, m, i)
  {
    hide DmaCycle, EnterDma, HandlerCall;
  }

  // How many cycles the transfer still takes if nothing is refused.
  function BytesLeft(lo: word, hi: word): nat {
    if lo < hi then hi - lo else if lo == 0xFFFF && hi != 0 then 1 + hi else 1
  }

  function CyclesLeft<M>(x: Exec<M>): (n: nat)
    ensures n <= 0x2_0002
  {
    var lo, hi := x.lines.req.lo, x.dma.hi;
    if !x.dma.started then 2 * BytesLeft(lo, hi) + (if x.total % 2 == 1 then 1 else 2)
    else if x.total % 2 == 0 then 2 * BytesLeft(lo, hi)
    else if !x.lines.req.party.Consuming? then 2 * BytesLeft(lo, hi) - 1
    else if lo >= hi then 1
    else 2 * (hi - lo) + 1
  }

  // A running transfer keeps its flag up.
  predicate Sound<M>(x: Exec<M>) { x.dma.isIn ==> x.lines.flags.dma && x.dma.copyout == x.lines.req.party.Consuming? }

  function Pending<M>(x: Exec<M>): nat {
    if x.dma.isIn then CyclesLeft(x) else if x.lines.flags.dma then 0x2_0003 else 0
  }

  // One of the cycles left is used, or the transfer is over.
  predicate Counts<M>(i: Inner<M>, j: Inner<M>) {
    && Sound(j.x) && j.cycle == i.cycle && j.x.total == i.x.total + 1 && 1 <= CyclesLeft(i.x)
    && (j.x.dma.isIn ==> CyclesLeft(j.x) == CyclesLeft(i.x) - 1 && j.x.lines.flags.dma)
    && (!j.x.dma.isIn ==> !j.x.lines.flags.dma)
  }

  lemma WriteCounts<M>(bus: BusOps<M>, i: Inner<M>)
    requires i.x.dma.isIn && Sound(i.x) && i.x.dma.started && i.x.total % 2 == 1
    ensures Counts(i, Tick(DmaWrite(bus, i)))
  {
  }

  lemma ReadCounts<M>(bus: BusOps<M>, i: Inner<M>)
    requires i.x.dma.isIn && Sound(i.x) && i.x.dma.started && i.x.total % 2 == 0
    ensures Counts(i, Tick(DmaRead(bus, i)))
  {
  }

  // Every cycle of a transfer uses up exactly one of the cycles left, or ends it.
  lemma DmaCycleCounts<M>(bus: BusOps<M>, i: Inner<M>)
    requires i.x.dma.isIn && Sound(i.x)
    ensures Counts(i, DmaCycle(bus, i))
  {
    hide DmaWrite, DmaRead;
    if i.x.dma.started {
      if i.x.total % 2 == 1 { WriteCounts(bus, i); } else { ReadCounts(bus, i); }
    }
  }

  // What is left of the environment after the window of one turn, if it has one.
  function Opened<M>(i: Inner<M>, env: seq<Window>): Inner<M> {
    if i.x.dma.isIn || env == [] then i else WithLines(i, ApplyAll(i.x.lines, env[0]))
  }

  function EnvAfter<M>(i: Inner<M>, env: seq<Window>): seq<Window> {
    if i.x.dma.isIn || env == [] then env else env[1..]
  }

  datatype Ended<M> = Ended(x: Exec<M>, env: seq<Window>) | Overrun(x: Exec<M>)

  // The inner loop, until the handler or the stage restored after a transfer says
  // `End`. A handler that would be called a seventh time for one instruction is
  // reported as an overrun. An exhausted environment stays silent.
  function InnerLoop<M>(bus: BusOps<M>, op: Op, m: Mode, i: Inner<M>, env: seq<Window>): (e: Ended<M>)
    requires Sound(i.x)
    ensures Sound(e.x)
    ensures e.Ended? && (i.x.dma.isIn ==> i.next == ExecDma) ==> !e.x.dma.isIn
    decreases |env|, Pending(i.x), 7 - i.cycle
  {
    var o := Opened(i, env);
    if !o.x.dma.isIn && !o.x.lines.flags.dma && o.cycle > 6 then Overrun(o.x)
    else
      var p := Pass(bus, op, m, o);
      PassDecreases(bus, op, m, o);
      if p.next == End then Ended(p.x, EnvAfter(i, env)) else InnerLoop(bus, op, m, p, EnvAfter(i, env))
  }

  lemma PassDecreases<M>(bus: BusOps<M>, op: Op, m: Mode, i: Inner<M>)
    requires Sound(i.x)
    ensures var p := Pass(bus, op, m, i);
            && Sound(p.x)
            && (p.x.dma.isIn ==> (i.x.dma.isIn ==> i.next == ExecDma) ==> p.next == ExecDma)
            && (i.x.dma.isIn || i.x.lines.flags.dma ==> Pending(p.x) < Pending(i.x))
            && (!i.x.dma.isIn && !i.x.lines.flags.dma ==> Pending(p.x) == Pending(i.x) && p.cycle == i.cycle + 1)
  {
    if i.x.dma.isIn {
      DmaCycleCounts(bus, i);
    } else if i.x.lines.flags.dma {
      DmaCycleCounts(bus, EnterDma(bus, i));
    }
  }

  // A window changes the lines only, and there is none inside a transfer.
  lemma OpenedKeeps<M>(i: Inner<M>, env: seq<Window>)
    ensures var o := Opened(i, env);
            && (Sound(i.x) ==> Sound(o.x))
            && o == WithLines(i, o.x.lines) && o.x.served == i.x.served && o.cycle == i.cycle
            && if i.x.dma.isIn || env == [] then o == i && EnvAfter(i, env) == env
               else |EnvAfter(i, env)| == |env| - 1
  {
    hide ApplyAll;
  }

  // One turn of the loop, and its refusal of a seventh call.
  lemma LoopTurn<M>(bus: BusOps<M>, op: Op, m: Mode, i: Inner<M>, env: seq<Window>)
    requires Sound(i.x)
    ensures var o := Opened(i, env);
            if !o.x.dma.isIn && !o.x.lines.flags.dma && o.cycle > 6 then InnerLoop(bus, op, m, i, env) == Overrun(o.x)
            else var p := Pass(bus, op, m, o);
                 && Sound(o.x) && Sound(p.x)
                 && InnerLoop(bus, op, m, i, env)
                    == if p.next == End then Ended(p.x, EnvAfter(i, env))
                       else InnerLoop(bus, op, m, p, EnvAfter(i, env))
  {
    hide Pass, Opened, EnvAfter, Sound, Pending;
    OpenedKeeps(i, env);
    PassDecreases(bus, op, m, Opened(i, env));
  }
}
