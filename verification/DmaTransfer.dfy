// What a whole transfer does, on any bus: the executor's cycle-by-cycle machine
// against a closed description of the bytes moved, the calls made and the cycles
// spent, for every range, parity and answer of the other party.
module DmaTransfer {
  import opened Words
  import opened Wrappers
  import opened Bus
  import opened Isa
  import opened Executor

  datatype Moved<M> = Moved(m: M, calls: seq<Call>, cycles: nat)

  // `n` bytes from the provider to addresses lo, lo + 1, ..., each asked for under
  // the next index, until one is refused.
  function CopyIn<M>(bus: BusOps<M>, m: M, lo: word, give: word -> Option<byte>, index: word, n: nat): Moved<M>
    decreases n
  {
    if n == 0 then Moved(m, [], 0)
    else match give(index)
      case None => Moved(m, [Asked(index)], 1)
      case Some(v) =>
        var rest := CopyIn(bus, bus.afterWrite(m, lo, v), Inc16(lo), give, Inc16(index), n - 1);
        Moved(rest.m, [Asked(index)] + rest.calls, 2 + rest.cycles)
  }

  // `n` bytes from addresses lo, lo + 1, ... to the consumer, until one is refused.
  function CopyOut<M>(bus: BusOps<M>, m: M, lo: word, take: (word, byte) -> bool, index: word, n: nat): Moved<M>
    decreases n
  {
    if n == 0 then Moved(m, [], 0)
    else
      var v, after := bus.peek(m, lo), bus.afterRead(m, lo);
      if !take(index, v) then Moved(after, [Given(index, v)], 2)
      else
        var rest := CopyOut(bus, after, Inc16(lo), take, Inc16(index), n - 1);
        Moved(rest.m, [Given(index, v)] + rest.calls, 2 + rest.cycles)
  }

  function Transferred<M>(bus: BusOps<M>, m: M, req: Request, lo: word, index: word, n: nat): Moved<M> {
    match req.party
    case Providing(give) => CopyIn(bus, m, lo, give, index, n)
    case Consuming(take) => CopyOut(bus, m, lo, take, index, n)
  }

  // How many bytes a range stands for.
  function Count(lo: word, len: word): nat { BytesLeft(lo, RangeEnd(lo, len)) }

  // It is the range's own length exactly when that is positive and the range stays
  // below 0xFFFF; the empty range moves a byte, and one that starts at 0xFFFF
  // moves the whole address space.
  lemma CountIsLengthIff(lo: word, len: word)
    ensures Count(lo, len) == len <==> len >= 1 && lo + len <= 0xFFFF
    ensures Count(lo, len) == (if lo == 0xFFFF then 0x1_0000 else if len == 0 then 1
                               else if lo + len > 0xFFFF then 0xFFFF - lo else len)
  {
  }

  // The machine from the middle of a transfer to its end.
  function DmaLoop<M>(bus: BusOps<M>, i: Inner<M>): Inner<M>
    requires i.x.dma.isIn && Sound(i.x)
    decreases CyclesLeft(i.x), i
  {
    DmaCycleCounts(bus, i);
    var j := DmaCycle(bus, i);
    if j.x.dma.isIn then DmaLoop(bus, j) else j
  }

  // What a transfer leaves alone, and what it restores.
  ghost predicate Left<M>(bus: BusOps<M>, i: Inner<M>, j: Inner<M>, moved: Moved<M>) {
    && j.x.k == Core(i.x.k.r, bus.setCacheOff(moved.m, i.x.dma.savedOff))
    && j.x.calls == i.x.calls + moved.calls
    && j.x.total == i.x.total + moved.cycles
    && j.x.latches == i.x.latches && j.x.served == i.x.served && j.cycle == i.cycle
    && j.x.lines == Lines(i.x.lines.flags.(dma := false), i.x.lines.req.(lo := j.x.lines.req.lo))
    && j.next == i.x.dma.saved && !j.x.dma.isIn
  }

  lemma Advance(lo: word, hi: word)
    ensures Inc16(lo) >= hi <==> BytesLeft(lo, hi) == 1
    ensures Inc16(lo) < hi ==> BytesLeft(Inc16(lo), hi) == BytesLeft(lo, hi) - 1
  {
  }

  lemma LoopGoes<M>(bus: BusOps<M>, i: Inner<M>)
    requires i.x.dma.isIn && Sound(i.x)
    ensures var j := DmaCycle(bus, i);
            && Counts(i, j) && DmaLoop(bus, i) == if j.x.dma.isIn then DmaLoop(bus, j) else j
  {
    hide DmaCycle, CyclesLeft;
    DmaCycleCounts(bus, i);
  }

  // A byte provided: asked for in an even cycle and written in the next.
  lemma InTwoCycles<M>(bus: BusOps<M>, i: Inner<M>, v: byte) returns (j: Inner<M>, k: Inner<M>)
    requires i.x.dma.isIn && i.x.dma.started && Sound(i.x) && i.x.total % 2 == 0
    requires i.x.lines.req.party.Providing? && i.x.lines.req.party.give(i.x.dma.index) == Some(v)
    ensures j == DmaCycle(bus, i) && j.x.dma.isIn && Sound(j.x) && k == DmaCycle(bus, j)
    ensures var x, d, req := i.x, i.x.dma, i.x.lines.req;
            var m, calls := bus.afterWrite(x.k.m, req.lo, v), [Asked(d.index)];
            if Inc16(req.lo) >= d.hi then Left(bus, i, k, Moved(m, calls, 2))
            else k == i.(x := MoveOn(x.(k := x.k.(m := m), dma := d.(index := Inc16(d.index), next := v),
                                        total := x.total + 2, calls := x.calls + calls)))
  {
    j := DmaCycle(bus, i);
    k := DmaCycle(bus, j);
  }

  lemma Refuses<M>(bus: BusOps<M>, i: Inner<M>)
    requires i.x.dma.isIn && i.x.dma.started && Sound(i.x) && i.x.total % 2 == 0
    requires i.x.lines.req.party.Providing? && i.x.lines.req.party.give(i.x.dma.index).None?
    ensures Left(bus, i, DmaCycle(bus, i), Moved(i.x.k.m, [Asked(i.x.dma.index)], 1))
  {
  }

  lemma {:induction false} LoopCopiesIn<M>(bus: BusOps<M>, i: Inner<M>)
    requires i.x.dma.isIn && i.x.dma.started && Sound(i.x) && i.x.total % 2 == 0
    requires i.x.lines.req.party.Providing?
    ensures var req, n := i.x.lines.req, BytesLeft(i.x.lines.req.lo, i.x.dma.hi);
            Left(bus, i, DmaLoop(bus, i), CopyIn(bus, i.x.k.m, req.lo, req.party.give, i.x.dma.index, n))
    decreases CyclesLeft(i.x)
  {
    hide DmaLoop, DmaCycle, CyclesLeft;
    var req, hi := i.x.lines.req, i.x.dma.hi;
    Advance(req.lo, hi);
    LoopGoes(bus, i);
    match req.party.give(i.x.dma.index)
    case None => Refuses(bus, i);
    case Some(v) =>
      var j1, j2 := InTwoCycles(bus, i, v);
      LoopGoes(bus, j1);
      if Inc16(req.lo) < hi {
        LoopCopiesIn(bus, j2);
        var rest := CopyIn(bus, j2.x.k.m, Inc16(req.lo), req.party.give, Inc16(i.x.dma.index),
                           BytesLeft(Inc16(req.lo), hi));
        assert i.x.calls + [Asked(i.x.dma.index)] + rest.calls == i.x.calls + ([Asked(i.x.dma.index)] + rest.calls);
      }
  }

  lemma {:induction false} LoopCopiesOut<M>(bus: BusOps<M>, i: Inner<M>)
    requires i.x.dma.isIn && i.x.dma.started && Sound(i.x) && i.x.total % 2 == 0
    requires i.x.lines.req.party.Consuming?
    ensures var req, n := i.x.lines.req, BytesLeft(i.x.lines.req.lo, i.x.dma.hi);
            Left(bus, i, DmaLoop(bus, i), CopyOut(bus, i.x.k.m, req.lo, req.party.take, i.x.dma.index, n))
    decreases CyclesLeft(i.x)
  {
    hide DmaLoop, CyclesLeft;
    var req, hi := i.x.lines.req, i.x.dma.hi;
    var v := bus.peek(i.x.k.m, req.lo);
    Advance(req.lo, hi);
    LoopGoes(bus, i);
    var j1 := DmaCycle(bus, i);
    LoopGoes(bus, j1);
    var j2 := DmaCycle(bus, j1);
    if req.party.take(i.x.dma.index, v) && Inc16(req.lo) < hi {
      LoopCopiesOut(bus, j2);
      var rest := CopyOut(bus, j2.x.k.m, Inc16(req.lo), req.party.take, Inc16(i.x.dma.index),
                          BytesLeft(Inc16(req.lo), hi));
      assert i.x.calls + [Given(i.x.dma.index, v)] + rest.calls == i.x.calls + ([Given(i.x.dma.index, v)] + rest.calls);
    }
  }

  lemma LoopTransfers<M>(bus: BusOps<M>, i: Inner<M>)
    requires i.x.dma.isIn && i.x.dma.started && Sound(i.x) && i.x.total % 2 == 0
    ensures var req, n := i.x.lines.req, BytesLeft(i.x.lines.req.lo, i.x.dma.hi);
            Left(bus, i, DmaLoop(bus, i), Transferred(bus, i.x.k.m, req, req.lo, i.x.dma.index, n))
  {
    if i.x.lines.req.party.Consuming? {
      LoopCopiesOut(bus, i);
    } else {
      LoopCopiesIn(bus, i);
    }
  }

  // A request pending between two handler calls: the bus is seized, caching is
  // off throughout and afterwards as before, all of `Count` bytes are moved
  // unless one is refused, and an odd start costs one cycle more. The handler's
  // stage, its latch, the registers, the other flags, and the request's length and
  // party are untouched.
  lemma Transfer<M>(bus: BusOps<M>, i: Inner<M>)
    requires !i.x.dma.isIn && i.x.lines.flags.dma
    ensures var req := i.x.lines.req;
            var e := EnterDma(bus, i);
            var moved := Transferred(bus, bus.setCacheOff(i.x.k.m, true), req, req.lo, 0, Count(req.lo, req.len));
            var j := DmaLoop(bus, e);
            && j.x.k == Core(i.x.k.r, bus.setCacheOff(moved.m, bus.cacheOff(i.x.k.m)))
            && j.x.calls == i.x.calls + moved.calls
            && j.x.total == i.x.total + i.x.total % 2 + moved.cycles
            && j.x.latches == i.x.latches && j.x.served == i.x.served && j.cycle == i.cycle
            && j.x.lines == Lines(i.x.lines.flags.(dma := false), req.(lo := j.x.lines.req.lo))
            && j.next == i.next && !j.x.dma.isIn
  {
    var e := EnterDma(bus, i);
    if e.x.dma.started {
      LoopTransfers(bus, e);
    } else {
      DmaCycleCounts(bus, e);
      var s := DmaCycle(bus, e);
      assert DmaLoop(bus, e) == DmaLoop(bus, s);
      LoopTransfers(bus, s);
    }
  }

  // Between its first and last cycle a transfer lets nobody in: the executor's
  // loop takes it as one step, and the windows left over are still there.
  lemma {:induction false} LoopIsOneStep<M>(bus: BusOps<M>, op: Op, m: Mode, i: Inner<M>, env: seq<Window>)
    requires i.x.dma.isIn && Sound(i.x) && i.next != End
    ensures var j := DmaLoop(bus, i);
            && Sound(j.x)
            && InnerLoop(bus, op, m, i, env) == if j.next == End then Ended(j.x, env) else InnerLoop(bus, op, m, j, env)
    decreases CyclesLeft(i.x)
  {
    DmaCycleCounts(bus, i);
    LoopTakesCycle(bus, op, m, i, env);
    var j := DmaCycle(bus, i);
    if j.x.dma.isIn {
      assert j.next == i.next;
      LoopIsOneStep(bus, op, m, j, env);
    }
  }

  lemma LoopTakesCycle<M>(bus: BusOps<M>, op: Op, m: Mode, i: Inner<M>, env: seq<Window>)
    requires i.x.dma.isIn && Sound(i.x)
    ensures var j := DmaCycle(bus, i);
            && Sound(j.x)
            && InnerLoop(bus, op, m, i, env) == if j.next == End then Ended(j.x, env) else InnerLoop(bus, op, m, j, env)
  {
    PassDecreases(bus, op, m, i);
    assert Pass(bus, op, m, i) == DmaCycle(bus, i);
  }

  // ---- Consequences --------------------------------------------------------

  predicate GivesUpTo(give: word -> Option<byte>, index: nat, n: nat) {
    forall j: nat | index <= j < index + n && j < 0x1_0000 :: give(j).Some?
  }

  // Nothing refused: two cycles a byte, and every index asked for once, in order.
  lemma {:induction false} CopyInCompletes<M>(bus: BusOps<M>, m: M, lo: word, give: word -> Option<byte>, index: word,
                                              n: nat)
    requires index + n <= 0x1_0000 && GivesUpTo(give, index, n)
    ensures var r := CopyIn(bus, m, lo, give, index, n);
            && r.cycles == 2 * n && |r.calls| == n
            && forall j: nat | j < n :: r.calls[j] == Asked(index + j)
    decreases n
  {
    if n == 1 {
      assert CopyIn(bus, bus.afterWrite(m, lo, give(index).value), Inc16(lo), give, Inc16(index), 0).calls == [];
    } else if n > 1 {
      CopyInCompletes(bus, bus.afterWrite(m, lo, give(index).value), Inc16(lo), give, index + 1, n - 1);
    }
  }

  // Refused at the k-th byte: exactly the first k bytes have been written.
  lemma {:induction false} CopyInRefused<M>(bus: BusOps<M>, m: M, lo: word, give: word -> Option<byte>, index: word,
                                            k: nat, n: nat)
    requires k < n && index + k < 0x1_0000 && GivesUpTo(give, index, k) && give(index + k).None?
    ensures var r, first := CopyIn(bus, m, lo, give, index, n), CopyIn(bus, m, lo, give, index, k);
            r.m == first.m && r.cycles == 2 * k + 1 && r.calls == first.calls + [Asked(index + k)]
    decreases k
  {
    if k > 0 {
      var m1 := bus.afterWrite(m, lo, give(index).value);
      CopyInRefused(bus, m1, Inc16(lo), give, index + 1, k - 1, n - 1);
      var first := CopyIn(bus, m1, Inc16(lo), give, index + 1, k - 1);
      assert [Asked(index)] + (first.calls + [Asked(index + k)]) == [Asked(index)] + first.calls + [Asked(index + k)];
    }
  }

  // The state of the bus when the j-th byte of a copy-out is read.
  function AfterReads<M>(bus: BusOps<M>, m: M, lo: word, j: nat): M
    decreases j
  {
    if j == 0 then m else AfterReads(bus, bus.afterRead(m, lo), Inc16(lo), j - 1)
  }

  function Ahead(lo: word, j: nat): word
    requires j <= 0x1_0000
  {
    Add16(lo, j)
  }

  // The consumer is handed, under indices counting up, the bytes at successive
  // addresses, each as the bus returns it after the reads before; it takes all,
  // or the last call is the one it refused.
  lemma {:induction false} CopyOutDelivers<M>(bus: BusOps<M>, m: M, lo: word, take: (word, byte) -> bool, index: word,
                                              n: nat)
    requires index + n <= 0x1_0000
    ensures Delivers(bus, m, lo, take, index, n, CopyOut(bus, m, lo, take, index, n))
    decreases n
  {
    if n > 0 && take(index, bus.peek(m, lo)) {
      var after := bus.afterRead(m, lo);
      var rest := CopyOut(bus, after, Inc16(lo), take, Inc16(index), n - 1);
      if n > 1 {
        CopyOutDelivers(bus, after, Inc16(lo), take, index + 1, n - 1);
      } else {
        assert rest == Moved(after, [], 0);
      }
      DeliversCons(bus, m, lo, take, index, n, rest);
    }
  }

  ghost predicate Delivers<M>(bus: BusOps<M>, m: M, lo: word, take: (word, byte) -> bool, index: int, n: nat,
                              r: Moved<M>)
    requires 0 <= index && index + n <= 0x1_0000
  {
    && r.cycles == 2 * |r.calls| && |r.calls| <= n && r.m == AfterReads(bus, m, lo, |r.calls|)
    && (forall j: nat | j < |r.calls| ::
          r.calls[j] == Given(index + j, bus.peek(AfterReads(bus, m, lo, j), Ahead(lo, j))))
    && (forall j: nat | j < |r.calls| - 1 :: Took(take, r.calls[j]))
    && (|r.calls| < n ==> r.calls != [] && !Took(take, r.calls[|r.calls| - 1]))
  }

  lemma DeliversCons<M>(bus: BusOps<M>, m: M, lo: word, take: (word, byte) -> bool, index: word, n: nat, rest: Moved<M>)
    requires n > 0 && index + n <= 0x1_0000 && take(index, bus.peek(m, lo))
    requires Delivers(bus, bus.afterRead(m, lo), Inc16(lo), take, index + 1, n - 1, rest)
    ensures Delivers(bus, m, lo, take, index, n,
                     Moved(rest.m, [Given(index, bus.peek(m, lo))] + rest.calls, rest.cycles + 2))
  {
    var calls := [Given(index, bus.peek(m, lo))] + rest.calls;
    forall j: nat | j < |calls|
      ensures calls[j] == Given(index + j, bus.peek(AfterReads(bus, m, lo, j), Ahead(lo, j)))
    {
      if j > 0 { assert calls[j] == rest.calls[j - 1]; }
    }
    forall j: nat | j < |calls| - 1 ensures Took(take, calls[j]) {
      if j > 0 { assert calls[j] == rest.calls[j - 1]; }
    }
  }

  predicate Took(take: (word, byte) -> bool, c: Call) { c.Given? && take(c.index, c.v) }
}
