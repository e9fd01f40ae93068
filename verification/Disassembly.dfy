// The linear disassembler: one line per instruction, each as long as the
// instruction's operands say.
module Disassembly {
  import opened Words
  import opened Registers
  import opened Bus
  import opened Isa
  import opened Staged
  import opened Agreement
  import opened Endings
  import opened Rings
  import opened Ram

  datatype Line = Line(addr: word, length: nat, opcode: byte)

  // A zero-initialised slot has addressing mode 0, the accumulator's.
  function LineLength(opcode: byte): (n: nat)
    ensures 1 <= n <= 3
  {
    match Decode(opcode)
    case Slot(_, m) => 1 + Operands(m)
    case _ => 1
  }

  function ReadAt<M>(bus: BusOps<M>, m: M, addr: word, n: nat): M
    decreases n, m
  {
    if n == 0 then m else ReadAt(bus, bus.afterRead(m, addr), Inc16(addr), n - 1)
  }

  // Lines that follow one another without gap or overlap from `lo` until at or
  // past `end`, the last one starting before it.
  ghost predicate Tiles(lines: seq<Line>, lo: nat, end: nat) {
    && (lines == [] ==> lo >= end)
    && (lines != [] ==> lines[0].addr == lo && lines[|lines| - 1].addr < end <= After(lines[|lines| - 1]))
    && forall i: nat | i < |lines| - 1 :: lines[i + 1].addr == After(lines[i])
  }

  function After(l: Line): nat { l.addr + l.length }

  datatype Swept<M> = Swept(lines: seq<Line>, m: M, ended: bool)

  // At most `n` turns of the loop over a 16-bit address, and whether it has come to
  // its end.
  function Sweep<M>(bus: BusOps<M>, m: M, addr: word, end: nat, n: nat): Swept<M>
    decreases n, m
  {
    if addr >= end then Swept([], m, true)
    else if n == 0 then Swept([], m, false)
    else
      var opcode := bus.peek(m, addr);
      var k := LineLength(opcode);
      var rest := Sweep(bus, ReadAt(bus, m, addr, k), Add16(addr, k), end, n - 1);
      rest.(lines := [Line(addr, k, opcode)] + rest.lines)
  }

  // Below 0xFFFD the address cannot wrap.
  lemma {:induction false} SweepTiles<M>(bus: BusOps<M>, m: M, addr: word, end: nat, n: nat)
    requires end <= 0xFFFD && end <= addr + n
    ensures var s := Sweep(bus, m, addr, end, n);
            s.ended && Tiles(s.lines, addr, end)
    decreases n
  {
    hide LineLength;
    if addr < end {
      var k := LineLength(bus.peek(m, addr));
      var rest := Sweep(bus, ReadAt(bus, m, addr, k), Add16(addr, k), end, n - 1);
      SweepTiles(bus, ReadAt(bus, m, addr, k), Add16(addr, k), end, n - 1);
      var lines := Sweep(bus, m, addr, end, n).lines;
      TilesCons(Line(addr, k, bus.peek(m, addr)), rest.lines, end);
    }
  }

  lemma TilesCons(l: Line, rest: seq<Line>, end: nat)
    requires l.addr < end && Tiles(rest, After(l), end)
    ensures Tiles([l] + rest, l.addr, end)
  {
    var lines := [l] + rest;
    if rest != [] {
      assert lines[|lines| - 1] == rest[|rest| - 1];
      forall i: nat | i < |lines| - 1 ensures lines[i + 1].addr == After(lines[i]) {
        if i > 0 { assert lines[i] == rest[i - 1] && lines[i + 1] == rest[i]; }
      }
    }
  }

  // The loop, cut off after `limit` turns, on any range.
  method Disassemble<M>(bus: BusOps<M>, m0: M, lo: word, len: word, limit: nat)
    returns (lines: seq<Line>, m: M, ended: bool)
    ensures Swept(lines, m, ended) == Sweep(bus, m0, lo, lo + len, limit)
    ensures lo + len <= 0xFFFD && len <= limit ==> ended && Tiles(lines, lo, lo + len)
    ensures lo + len > 0xFFFF ==> !ended
  {
    hide LineLength, Sweep, Tiles, Counts;
    var addr: word := lo;
    var end := lo + len;
    var turns := 0;
    lines, m := [], m0;
    ghost var all := Sweep(bus, m0, lo, end, limit);
    SweepStarts(all);
    while addr < end && turns < limit
      invariant turns <= limit
      decreases limit - turns
      invariant Counts(all, lines, Sweep(bus, m, addr, end, limit - turns))
    {
      var opcode := bus.peek(m, addr);
      var l := Line(addr, LineLength(opcode), opcode);
      SweepTurn(bus, m, addr, end, limit - turns, all, lines);
      m := bus.afterRead(m, addr);
      if l.length > 1 {
        m := bus.afterRead(m, Inc16(addr));
        if l.length > 2 { m := bus.afterRead(m, Inc16(Inc16(addr))); }
      }
      lines, addr, turns := lines + [l], Add16(addr, l.length), turns + 1;
    }
    ended := addr >= end;
    SweepStops(bus, m, addr, end, limit - turns, all, lines);
    if end <= 0xFFFD && len <= limit { SweepTiles(bus, m0, lo, end, limit); }
    if end > 0xFFFF { PastTheTopNeverEnds(bus, m0, lo, end, limit); }
  }

  ghost predicate Counts<M>(all: Swept<M>, lines: seq<Line>, rest: Swept<M>) {
    all.lines == lines + rest.lines && all.m == rest.m && all.ended == rest.ended
  }

  lemma SweepStarts<M>(all: Swept<M>)
    ensures Counts(all, [], all)
  {
  }

  lemma SweepStops<M>(bus: BusOps<M>, m: M, addr: word, end: nat, n: nat, all: Swept<M>, lines: seq<Line>)
    requires addr >= end || n == 0
    requires Counts(all, lines, Sweep(bus, m, addr, end, n))
    ensures all == Swept(lines, m, addr >= end)
  {
  }

  lemma SweepTurn<M>(bus: BusOps<M>, m: M, addr: word, end: nat, n: nat, all: Swept<M>, lines: seq<Line>)
    requires addr < end && n > 0
    requires Counts(all, lines, Sweep(bus, m, addr, end, n))
    ensures var opcode := bus.peek(m, addr);
            var k := LineLength(opcode);
            var m1 := bus.afterRead(m, addr);
            var m2 := if k > 1 then bus.afterRead(m1, Inc16(addr)) else m1;
            var m3 := if k > 2 then bus.afterRead(m2, Inc16(Inc16(addr))) else m2;
            Counts(all, lines + [Line(addr, k, opcode)], Sweep(bus, m3, Add16(addr, k), end, n - 1))
  {
    hide LineLength;
    var opcode := bus.peek(m, addr);
    var k := LineLength(opcode);
    ReadsLine(bus, m, addr, k);
    var rest := Sweep(bus, ReadAt(bus, m, addr, k), Add16(addr, k), end, n - 1);
    assert lines + ([Line(addr, k, opcode)] + rest.lines) == (lines + [Line(addr, k, opcode)]) + rest.lines;
  }

  lemma ReadsLine<M>(bus: BusOps<M>, m: M, addr: word, n: nat)
    requires 1 <= n <= 3
    ensures var m1 := bus.afterRead(m, addr);
            var m2 := if n > 1 then bus.afterRead(m1, Inc16(addr)) else m1;
            ReadAt(bus, m, addr, n) == if n > 2 then bus.afterRead(m2, Inc16(Inc16(addr))) else m2
  {
    var m1 := bus.afterRead(m, addr);
    assert ReadAt(bus, m, addr, n) == ReadAt(bus, m1, Inc16(addr), n - 1);
    if n > 1 {
      var m2 := bus.afterRead(m1, Inc16(addr));
      assert ReadAt(bus, m1, Inc16(addr), n - 1) == ReadAt(bus, m2, Inc16(Inc16(addr)), n - 2);
      if n > 2 {
        var m3 := bus.afterRead(m2, Inc16(Inc16(addr)));
        assert ReadAt(bus, m2, Inc16(Inc16(addr)), 1) == ReadAt(bus, m3, Inc16(Inc16(Inc16(addr))), 0);
      }
    }
  }

  // ---- What the lines show -------------------------------------------------

  // The bus after reads at `n` successive addresses.
  function ReadRun<M>(bus: BusOps<M>, m: M, addr: nat, n: nat): M
    decreases n, m
  {
    if n == 0 then m else ReadRun(bus, bus.afterRead(m, addr % 0x1_0000), addr + 1, n - 1)
  }

  lemma {:induction false} ReadAtIsRun<M>(bus: BusOps<M>, m: M, addr: word, n: nat)
    requires addr + n <= 0x1_0000
    ensures ReadAt(bus, m, addr, n) == ReadRun(bus, m, addr, n)
    decreases n
  {
    if n > 1 {
      ReadAtIsRun(bus, bus.afterRead(m, addr), addr + 1, n - 1);
    } else if n == 1 {
      assert ReadAt(bus, m, addr, 1) == ReadAt(bus, bus.afterRead(m, addr), Inc16(addr), 0);
      assert ReadRun(bus, m, addr, 1) == ReadRun(bus, bus.afterRead(m, addr), addr + 1, 0);
    }
  }

  lemma {:induction false} ReadRunSplits<M>(bus: BusOps<M>, m: M, addr: nat, i: nat, j: nat)
    ensures ReadRun(bus, m, addr, i + j) == ReadRun(bus, ReadRun(bus, m, addr, i), addr + i, j)
    decreases i
  {
    if i > 0 {
      ReadRunSplits(bus, bus.afterRead(m, addr % 0x1_0000), addr + 1, i - 1, j);
    }
  }

  function LastAfter(lines: seq<Line>, addr: nat): nat { if lines == [] then addr else After(lines[|lines| - 1]) }

  // The loop reads every byte of its lines once, in order, and nothing else.
  lemma {:induction false} SweepReadsOnce<M>(bus: BusOps<M>, m: M, addr: word, end: nat, n: nat)
    requires end <= 0xFFFD
    ensures var s := Sweep(bus, m, addr, end, n);
            LastAfter(s.lines, addr) >= addr && s.m == ReadRun(bus, m, addr, LastAfter(s.lines, addr) - addr)
    decreases n
  {
    hide LineLength;
    if addr < end && n > 0 {
      var k := LineLength(bus.peek(m, addr));
      var rest := Sweep(bus, ReadAt(bus, m, addr, k), Add16(addr, k), end, n - 1);
      SweepReadsOnce(bus, ReadAt(bus, m, addr, k), Add16(addr, k), end, n - 1);
      LastOfCons(Line(addr, k, bus.peek(m, addr)), rest.lines);
      ReadAtIsRun(bus, m, addr, k);
      ReadRunSplits(bus, m, addr, k, LastAfter(rest.lines, addr + k) - (addr + k));
    }
  }

  lemma LastOfCons(l: Line, rest: seq<Line>)
    ensures LastAfter([l] + rest, l.addr) == LastAfter(rest, After(l))
  {
  }

  // On flat memory each line shows the byte at its address and is as long as that
  // opcode's line.
  lemma {:induction false} SweepShows(m: Ram, addr: word, end: nat, n: nat)
    ensures var s := Sweep(RamBus(), m, addr, end, n);
            forall l: Line | l in s.lines ::
              l.addr < 0x1_0000 && l.opcode == m.bytes[l.addr] && l.length == LineLength(l.opcode)
    decreases n
  {
    hide LineLength;
    if addr < end && n > 0 {
      var k := LineLength(m.bytes[addr]);
      ReadAtRam(m, addr, k);
      SweepShows(ReadAt(RamBus(), m, addr, k), Add16(addr, k), end, n - 1);
    }
  }

  // ---- When the loop ends --------------------------------------------------

  // Every 16-bit address is below an end past the address space.
  lemma {:induction false} PastTheTopNeverEnds<M>(bus: BusOps<M>, m: M, addr: word, end: nat, n: nat)
    requires end > 0xFFFF
    ensures !Sweep(bus, m, addr, end, n).ended
    decreases n
  {
    hide LineLength;
    if n > 0 {
      var k := LineLength(bus.peek(m, addr));
      PastTheTopNeverEnds(bus, ReadAt(bus, m, addr, k), Add16(addr, k), end, n - 1);
    }
  }

  ghost predicate Stops<M>(bus: BusOps<M>, m: M, addr: word, end: nat) {
    exists n: nat :: Sweep(bus, m, addr, end, n).ended
  }

  ghost predicate StopsOn(m: Ram, lo: word, len: word) { Stops(RamBus(), m, lo, lo + len) }

  const NOP_CODE: byte := 0xEA
  const JMP_CODE: byte := 0x4C

  // One-byte instructions, but three-byte ones where the last of them wrap.
  function Trap(): Memory {
    seq(0x1_0000, i => if i == 0xFFFD || i == 0xFFFE then JMP_CODE else NOP_CODE)
  }

  lemma TrapLengths()
    ensures LineLength(NOP_CODE) == 1 && LineLength(JMP_CODE) == 3
  {
  }

  lemma {:induction false} ReadAtRam(m: Ram, addr: word, n: nat)
    ensures ReadAt(RamBus(), m, addr, n).bytes == m.bytes
    decreases n
  {
    if n > 0 {
      ReadAtRam(AfterRead(m, addr), Inc16(addr), n - 1);
    }
  }

  lemma {:induction false} TrapHolds(m: Ram, addr: word, end: nat, n: nat)
    requires m.bytes == Trap() && addr < end && 0xFFFE <= end <= 0xFFFF
    ensures !Sweep(RamBus(), m, addr, end, n).ended
    decreases n
  {
    hide LineLength;
    if n > 0 {
      TrapLengths();
      var k := LineLength(m.bytes[addr]);
      ReadAtRam(m, addr, k);
      TrapHolds(ReadAt(RamBus(), m, addr, k), Add16(addr, k), end, n - 1);
    }
  }

  // Whatever memory holds, the loop ends if the range is empty or stays at or below
  // 0xFFFD; otherwise there is memory, the same for all such ranges, on which it
  // does not.
  lemma DisassemblyEndsIff(lo: word, len: word)
    ensures (forall m: Ram :: StopsOn(m, lo, len)) <==> len == 0 || lo + len <= 0xFFFD
  {
    var end := lo + len;
    if len == 0 || end <= 0xFFFD {
      forall m: Ram ensures StopsOn(m, lo, len) { SmallRangeEnds(RamBus(), m, lo, len); }
    } else {
      var ring := Ring(0, [0, 0, 0, 0, 0, 0, 0, 0]);
      var m := Ram(Trap(), ring, ring, false);
      forall n: nat ensures !Sweep(RamBus(), m, lo, end, n).ended {
        if end > 0xFFFF { PastTheTopNeverEnds(RamBus(), m, lo, end, n); } else { TrapHolds(m, lo, end, n); }
      }
      assert !StopsOn(m, lo, len);
    }
  }

  // The first half on any bus.
  lemma SmallRangeEnds<M>(bus: BusOps<M>, m: M, lo: word, len: word)
    requires len == 0 || lo + len <= 0xFFFD
    ensures Stops(bus, m, lo, lo + len)
  {
    if len == 0 {
      assert Sweep(bus, m, lo, lo + len, 0).ended;
    } else {
      SweepTiles(bus, m, lo, lo + len, len);
    }
  }

  // ---- Line length and execution -------------------------------------------

  // Instructions that are meant to move PC elsewhere, and the one that skips a
  // byte.
  predicate Transfers(op: Op, s: Status) {
    match op
    case Branching(o) => Taken(o, s)
    case Control(o) => o.JMP? || o.JSR? || o.RTS? || o.RTI? || o.IRQ? || o.NMI?
    case BRK => true
    case _ => false
  }

  // Operand bytes not yet fetched before the given call.
  function ToFetch(m: Mode, cycle: nat): nat {
    if cycle <= Operands(m) then Operands(m) + 1 - cycle else 0
  }

  function Advance(pc: word, n: nat): word
    decreases n
  {
    if n == 0 then pc else Advance(Inc16(pc), n - 1)
  }

  lemma AdvanceAdds(pc: word, n: nat)
    requires n <= 2
    ensures Advance(pc, n) == Add16(pc, n)
  {
    assert Advance(pc, 0) == pc;
    if n > 0 {
      assert Advance(pc, n) == Advance(Inc16(pc), n - 1);
      assert n == 2 ==> Advance(Inc16(pc), 1) == Advance(Inc16(Inc16(pc)), 0);
    }
  }

  // A call fetches one operand byte while there is one to fetch, and does not end
  // the instruction while there is another.
  ghost predicate FetchesInOrder<M>(m: Mode, cycle: nat, c: Cpu<M>, s: Stepped<M>) {
    && s.c.k.r.PC == (if ToFetch(m, cycle) > 0 then Inc16(c.k.r.PC) else c.k.r.PC)
    && (ToFetch(m, cycle) > 1 ==> !s.ended)
  }

  lemma PerformFetches<M>(bus: BusOps<M>, u: Micro, c: Cpu<M>)
    ensures Perform(bus, u, c).c.k.r.PC == if AccessOf(u, c.k.r, c.l).Program? then Inc16(c.k.r.PC) else c.k.r.PC
    ensures Perform(bus, u, c).ended == Ends(u, c.k.r, c.l)
  {
  }

  predicate Fetches(u: Micro) { u.Imm? || u.ZpFetch? || u.LoFetch? || u.HiFetch? }

  lemma OnlyFetches(u: Micro, r: Regs, l: Latch)
    ensures AccessOf(u, r, l).Program? <==> Fetches(u)
  {
  }

  lemma ReadingFetches<M>(bus: BusOps<M>, op: ReadOp, m: Mode, cycle: nat, c: Cpu<M>)
    requires TabledReading(op, m) && !NeverEnds(Reading(op), m) && cycle >= 1
    ensures FetchesInOrder(m, cycle, c, StepReading(bus, op, m, cycle, c))
  {
    hide ReadPlan, Perform, Consume, AccessOf;
    var u := ReadPlan(op, m, cycle);
    ReadPlanFetches(op, m, cycle);
    OnlyFetches(u, c.k.r, c.l);
    PerformFetches(bus, u, c);
    var d1 := Perform(bus, u, c);
    var d := if SecondIndexing(op, m, cycle) then Perform(bus, AbsPlusRead(true), d1.c) else d1;
    PerformFetches(bus, AbsPlusRead(true), d1.c);
    OnlyFetches(AbsPlusRead(true), d1.c.k.r, d1.c.l);
    ConsumeKeepsPc(op, d.c);
  }

  lemma ReadPlanFetches(op: ReadOp, m: Mode, cycle: nat)
    requires TabledReading(op, m) && !NeverEnds(Reading(op), m) && cycle >= 1
    ensures var u := ReadPlan(op, m, cycle);
            && (Fetches(u) <==> ToFetch(m, cycle) > 0)
            && (ToFetch(m, cycle) > 1 ==> u == LoFetch)
            && (SecondIndexing(op, m, cycle) ==> ToFetch(m, cycle) == 0)
  {
  }

  lemma ConsumeKeepsPc<M>(op: ReadOp, c: Cpu<M>)
    ensures Consume(op, c).k.r.PC == c.k.r.PC
  {
  }

  lemma AddingFetches<M>(bus: BusOps<M>, op: AddOp, m: Mode, cycle: nat, c: Cpu<M>)
    requires EightModes(m) && cycle >= 1
    ensures FetchesInOrder(m, cycle, c, StepAdding(bus, op, m, cycle, c))
  {
    var u, e := AluPlan(m, cycle), if cycle == 1 then LatchDecimal(c) else c;
    assert Fetches(u) <==> ToFetch(m, cycle) > 0;
    assert ToFetch(m, cycle) > 1 ==> u == LoFetch;
    PerformFetches(bus, u, e);
  }

  lemma StoringFetches<M>(bus: BusOps<M>, op: StoreOp, m: Mode, cycle: nat, c: Cpu<M>)
    requires TabledStoring(op, m) && cycle >= 1
    ensures FetchesInOrder(m, cycle, c, StepStoring(bus, op, m, cycle, c))
  {
    var u := StorePlan(op, m, cycle);
    assert Fetches(u) <==> ToFetch(m, cycle) > 0;
    assert ToFetch(m, cycle) > 1 ==> u == LoFetch;
    PerformFetches(bus, u, c);
  }

  lemma BumpingFetches<M>(bus: BusOps<M>, op: BumpOp, m: Mode, cycle: nat, c: Cpu<M>)
    requires RmwMode(m) && cycle >= 1
    ensures FetchesInOrder(m, cycle, c, StepBumping(bus, op, m, cycle, c))
  {
    var u := BumpPlan(op, m, cycle);
    assert Fetches(u) <==> ToFetch(m, cycle) > 0;
    assert ToFetch(m, cycle) > 1 ==> u == LoFetch;
    PerformFetches(bus, u, c);
  }

  lemma ShiftingFetches<M>(bus: BusOps<M>, op: ShiftOp, m: Mode, cycle: nat, c: Cpu<M>)
    requires (m.Accumulator? || RmwMode(m)) && cycle >= 1
    ensures FetchesInOrder(m, cycle, c, StepShifting(bus, op, m, cycle, c))
  {
    var u, e := ShiftPlan(m, cycle), if cycle == 1 then c.(l := c.l.(penultimate := false)) else c;
    assert Fetches(u) <==> ToFetch(m, cycle) > 0;
    assert ToFetch(m, cycle) > 1 ==> u == LoFetch;
    PerformFetches(bus, u, e);
  }

  lemma StackFetches<M>(bus: BusOps<M>, op: ControlOp, m: Mode, cycle: nat, c: Cpu<M>)
    requires cycle >= 1 && m.Implied? && (op.PHA? || op.PHP? || op.PLA? || op.PLP?)
    ensures FetchesInOrder(m, cycle, c, StepControl(bus, op, m, cycle, c))
  {
  }

  lemma StepFetches<M>(bus: BusOps<M>, op: Op, m: Mode, cycle: nat, c: Cpu<M>)
    requires Tabled(op, m) && !NeverEnds(op, m) && !Transfers(op, c.k.r.SR) && 1 <= cycle
    requires op.Branching? ==> cycle == 1
    ensures FetchesInOrder(m, cycle, c, Step(bus, op, m, cycle, c))
    ensures op.Branching? ==> Step(bus, op, m, cycle, c).ended
  {
    match op
    case Reading(o) => ReadingFetches(bus, o, m, cycle, c);
    case Adding(o) => AddingFetches(bus, o, m, cycle, c);
    case Storing(o) => StoringFetches(bus, o, m, cycle, c);
    case Bumping(o) => BumpingFetches(bus, o, m, cycle, c);
    case Shifting(o) => ShiftingFetches(bus, o, m, cycle, c);
    case Branching(o) => assert BranchPlan(Taken(o, c.k.r.SR), 1) == Delta(true);
    case Inherent(_) =>
    case Control(o) => StackFetches(bus, o, m, cycle, c);
  }

  lemma {:induction false} DriveAdvances<M>(bus: BusOps<M>, op: Op, m: Mode, cycle: nat, c: Cpu<M>)
    requires Tabled(op, m) && !NeverEnds(op, m) && !Transfers(op, c.k.r.SR) && 1 <= cycle
    requires op.Branching? ==> cycle == 1
    ensures var d := Drive(bus, op, m, cycle, c);
            d.Driven? ==> d.c.k.r.PC == Advance(c.k.r.PC, ToFetch(m, cycle))
    decreases 7 - cycle
  {
    hide Drive, Step, Transfers, Tabled, NeverEnds;
    if cycle > 6 {
      DriveStops(bus, op, m, cycle, c);
    } else {
      StepFetches(bus, op, m, cycle, c);
      var s := Step(bus, op, m, cycle, c);
      if s.ended {
        Finishes(bus, op, m, cycle, c, s.c);
      } else {
        Continues(bus, op, m, cycle, c, s.c);
        TransfersStays(op, c.k.r.SR, s.c.k.r.SR);
        DriveAdvances(bus, op, m, cycle + 1, s.c);
      }
    }
  }

  lemma TransfersStays(op: Op, s: Status, t: Status)
    requires !Transfers(op, s) && !op.Branching?
    ensures !Transfers(op, t)
  {
  }

  // For every opcode of the table that does not transfer control and whose handler
  // ends: fetched and executed undisturbed, it leaves PC just past the line the
  // disassembler prints for it.
  lemma LineIsPcAdvance<M>(bus: BusOps<M>, k: Core<M>, l: Latch)
    requires var s := Decode(Fetch(bus, k).v); s.Slot? && !NeverEnds(s.op, s.mode) && !Transfers(s.op, k.r.SR)
    ensures var f := Fetch(bus, k);
            var d := Drive(bus, Decode(f.v).op, Decode(f.v).mode, 1, Cpu(f.k, l));
            d.Driven? && d.c.k.r.PC == Add16(k.r.PC, LineLength(f.v))
  {
    var f := Fetch(bus, k);
    var s := Decode(f.v);
    TableIsTabled(f.v);
    DriveAdvances(bus, s.op, s.mode, 1, Cpu(f.k, l));
    DriveEnds(bus, s.op, s.mode, 1, Cpu(f.k, l));
    AdvanceAdds(f.k.r.PC, Operands(s.mode));
  }

  // ---- Line length and fetches ---------------------------------------------

  // Whether one call of a handler reads at PC and moves it on.
  predicate ReadsProgram(op: Op, m: Mode, cycle: nat, r: Regs, l: Latch) {
    match op
    case Reading(o) => AccessOf(ReadPlan(o, m, cycle), r, l).Program?
    case Adding(_) => AccessOf(AluPlan(m, cycle), r, l).Program?
    case Storing(o) => AccessOf(StorePlan(o, m, cycle), r, l).Program?
    case Bumping(o) => AccessOf(BumpPlan(o, m, cycle), r, l).Program?
    case Shifting(_) => AccessOf(ShiftPlan(m, cycle), r, l).Program?
    case Branching(o) => ControlAccess(BranchPlan(Taken(o, r.SR), cycle), r, l).Program?
    case Inherent(_) => false
    case Control(o) => ControlAccess(ControlPlan(o, m, cycle, r.SR), r, l).Program?
    case BRK => ControlAccess(BrkPlan(cycle), r, l).Program?
  }

  // The program bytes a handler reads from the given call to its end.
  function ProgramBytes<M>(bus: BusOps<M>, op: Op, m: Mode, cycle: nat, c: Cpu<M>): nat
    decreases 7 - cycle, c
  {
    if cycle > 6 then 0
    else
      var s := Step(bus, op, m, cycle, c);
      Bit(ReadsProgram(op, m, cycle, c.k.r, c.l))
      + if s.ended then 0 else ProgramBytes(bus, op, m, cycle + 1, s.c)
  }

  // One call reads a program byte exactly while the line has one left, and does not
  // end while it has another after that.
  ghost predicate ReadsInOrder<M>(bus: BusOps<M>, op: Op, m: Mode, cycle: nat, c: Cpu<M>) {
    && (ReadsProgram(op, m, cycle, c.k.r, c.l) <==> ToFetch(m, cycle) > 0)
    && (ToFetch(m, cycle) > 1 ==> !Step(bus, op, m, cycle, c).ended)
  }

  lemma ReadingReads<M>(bus: BusOps<M>, op: ReadOp, m: Mode, cycle: nat, c: Cpu<M>)
    requires TabledReading(op, m) && !NeverEnds(Reading(op), m) && cycle >= 1
    ensures ReadsInOrder(bus, Reading(op), m, cycle, c)
  {
    hide StepReading, ReadPlan, AccessOf;
    ReadingFetches(bus, op, m, cycle, c);
    ReadPlanFetches(op, m, cycle);
    OnlyFetches(ReadPlan(op, m, cycle), c.k.r, c.l);
  }

  lemma AddingReads<M>(bus: BusOps<M>, op: AddOp, m: Mode, cycle: nat, c: Cpu<M>)
    requires EightModes(m) && cycle >= 1
    ensures ReadsInOrder(bus, Adding(op), m, cycle, c)
  {
    hide StepAdding, AccessOf;
    AddingFetches(bus, op, m, cycle, c);
    OnlyFetches(AluPlan(m, cycle), c.k.r, c.l);
  }

  lemma StoringReads<M>(bus: BusOps<M>, op: StoreOp, m: Mode, cycle: nat, c: Cpu<M>)
    requires TabledStoring(op, m) && cycle >= 1
    ensures ReadsInOrder(bus, Storing(op), m, cycle, c)
  {
    hide StepStoring, AccessOf;
    StoringFetches(bus, op, m, cycle, c);
    OnlyFetches(StorePlan(op, m, cycle), c.k.r, c.l);
  }

  lemma BumpingReads<M>(bus: BusOps<M>, op: BumpOp, m: Mode, cycle: nat, c: Cpu<M>)
    requires RmwMode(m) && cycle >= 1
    ensures ReadsInOrder(bus, Bumping(op), m, cycle, c)
  {
    hide StepBumping, AccessOf;
    BumpingFetches(bus, op, m, cycle, c);
    OnlyFetches(BumpPlan(op, m, cycle), c.k.r, c.l);
  }

  lemma ShiftingReads<M>(bus: BusOps<M>, op: ShiftOp, m: Mode, cycle: nat, c: Cpu<M>)
    requires (m.Accumulator? || RmwMode(m)) && cycle >= 1
    ensures ReadsInOrder(bus, Shifting(op), m, cycle, c)
  {
    hide StepShifting, AccessOf;
    ShiftingFetches(bus, op, m, cycle, c);
    OnlyFetches(ShiftPlan(m, cycle), c.k.r, c.l);
  }

  lemma ControlReads<M>(bus: BusOps<M>, op: ControlOp, m: Mode, cycle: nat, c: Cpu<M>)
    requires AgreedControl(op, m) && cycle >= 1
    ensures ReadsInOrder(bus, Control(op), m, cycle, c)
  {
  }

  // A branch that goes on past its first call has been taken.
  lemma BranchReads<M>(bus: BusOps<M>, op: BranchOp, cycle: nat, c: Cpu<M>)
    requires cycle >= 1 && (cycle > 1 ==> Taken(op, c.k.r.SR))
    ensures ReadsInOrder(bus, Branching(op), Relative, cycle, c)
    ensures var s := StepBranching(bus, op, cycle, c); !s.ended ==> Taken(op, s.c.k.r.SR)
  {
  }

  lemma InherentReads<M>(bus: BusOps<M>, op: Op, m: Mode, cycle: nat, c: Cpu<M>)
    requires op.Inherent? && m.Implied? && cycle >= 1
    ensures ReadsInOrder(bus, op, m, cycle, c)
  {
  }

  lemma StepReads<M>(bus: BusOps<M>, op: Op, m: Mode, cycle: nat, c: Cpu<M>)
    requires Tabled(op, m) && !NeverEnds(op, m) && op != BRK && cycle >= 1
    requires op.Branching? && cycle > 1 ==> Taken(op.branch, c.k.r.SR)
    ensures ReadsInOrder(bus, op, m, cycle, c)
    ensures var s := Step(bus, op, m, cycle, c); op.Branching? && !s.ended ==> Taken(op.branch, s.c.k.r.SR)
  {
    hide ReadsInOrder;
    match op
    case Reading(o) => ReadingReads(bus, o, m, cycle, c);
    case Adding(o) => AddingReads(bus, o, m, cycle, c);
    case Storing(o) => StoringReads(bus, o, m, cycle, c);
    case Bumping(o) => BumpingReads(bus, o, m, cycle, c);
    case Shifting(o) => ShiftingReads(bus, o, m, cycle, c);
    case Branching(o) => BranchReads(bus, o, cycle, c);
    case Inherent(_) => InherentReads(bus, op, m, cycle, c);
    case Control(o) => ControlReads(bus, o, m, cycle, c);
  }

  lemma OneCallReads<M>(bus: BusOps<M>, op: Op, m: Mode, cycle: nat, c: Cpu<M>)
    requires cycle <= 6
    ensures var s := Step(bus, op, m, cycle, c);
            ProgramBytes(bus, op, m, cycle, c)
            == Bit(ReadsProgram(op, m, cycle, c.k.r, c.l))
               + if s.ended then 0 else ProgramBytes(bus, op, m, cycle + 1, s.c)
  {
    hide Step, ReadsProgram;
  }

  lemma {:induction false} ProgramBytesLeft<M>(bus: BusOps<M>, op: Op, m: Mode, cycle: nat, c: Cpu<M>)
    requires Tabled(op, m) && !NeverEnds(op, m) && op != BRK && cycle >= 1
    requires op.Branching? && cycle > 1 ==> Taken(op.branch, c.k.r.SR)
    ensures ProgramBytes(bus, op, m, cycle, c) == ToFetch(m, cycle)
    decreases 7 - cycle
  {
    hide Step, ReadsProgram, ProgramBytes, Tabled, NeverEnds, Taken;
    if cycle <= 6 {
      OneCallReads(bus, op, m, cycle, c);
      StepReads(bus, op, m, cycle, c);
      var s := Step(bus, op, m, cycle, c);
      if !s.ended {
        ProgramBytesLeft(bus, op, m, cycle + 1, s.c);
      }
    } else {
      NothingLeft(bus, op, m, cycle, c);
    }
  }

  lemma NothingLeft<M>(bus: BusOps<M>, op: Op, m: Mode, cycle: nat, c: Cpu<M>)
    requires cycle > 6
    ensures ProgramBytes(bus, op, m, cycle, c) == 0 == ToFetch(m, cycle)
  {
  }

  lemma {:induction false} BrkReads<M>(bus: BusOps<M>, m: Mode, cycle: nat, c: Cpu<M>)
    requires cycle >= 1
    ensures ProgramBytes(bus, BRK, m, cycle, c) == if cycle == 1 then 1 else 0
    decreases 7 - cycle
  {
    hide ProgramBytes, Pack;
    if cycle <= 6 {
      OneCallReads(bus, BRK, m, cycle, c);
      var s := Step(bus, BRK, m, cycle, c);
      if !s.ended { BrkReads(bus, m, cycle + 1, s.c); }
    } else {
      NothingLeft(bus, BRK, m, cycle, c);
    }
  }

  // A line is as long as the opcode and the program bytes that executing it reads,
  // also for jumps and taken branches; BRK reads one byte more than its line shows.
  lemma LineIsFetched<M>(bus: BusOps<M>, k: Core<M>, l: Latch)
    requires var s := Decode(Fetch(bus, k).v); s.Slot? && !NeverEnds(s.op, s.mode)
    ensures var f := Fetch(bus, k);
            var s := Decode(f.v);
            1 + ProgramBytes(bus, s.op, s.mode, 1, Cpu(f.k, l)) == LineLength(f.v) + Bit(s.op == BRK)
  {
    hide Decode, ProgramBytes, Tabled, NeverEnds;
    var f := Fetch(bus, k);
    var s := Decode(f.v);
    TableIsTabled(f.v);
    var c := Cpu(f.k, l);
    if s.op == BRK { BrkReads(bus, s.mode, 1, c); } else { ProgramBytesLeft(bus, s.op, s.mode, 1, c); }
  }
}
