// A transfer in the middle of an instruction. The handler resumes where it stopped,
// and what it then does is what it would have done, on memory that differs only
// in the bytes transferred, provided it does not touch those.
module Transparency {
  import opened Words
  import opened Wrappers
  import opened Bus
  import opened Isa
  import opened Staged
  import opened Executor
  import opened DmaTransfer
  import opened Simulation
  import opened Ram

  // ---- The rest of the instruction -----------------------------------------

  // Every access of every remaining call of the undisturbed instruction is `ok`.
  predicate StaysClear<M>(bus: BusOps<M>, ok: (M, word) -> bool, op: Op, m: Mode, cycle: nat, c: Cpu<M>)
    decreases 7 - cycle, c
  {
    cycle > 6 || (
      var s := Step(bus, op, m, cycle, c);
      StepClear(bus, ok, op, m, cycle, c) && (s.ended || StaysClear(bus, ok, op, m, cycle + 1, s.c)))
  }

  lemma {:induction false} StaysClearMore<M(!new)>(bus: BusOps<M>, ok: (M, word) -> bool, more: (M, word) -> bool,
                                                   op: Op, m: Mode, cycle: nat, c: Cpu<M>)
    requires forall n: M, a: word | ok(n, a) :: more(n, a)
    requires StaysClear(bus, ok, op, m, cycle, c)
    ensures StaysClear(bus, more, op, m, cycle, c)
    decreases 7 - cycle
  {
    hide Step, StepClear;
    if cycle <= 6 {
      StepClearMore(bus, ok, more, op, m, cycle, c);
      var s := Step(bus, op, m, cycle, c);
      if !s.ended {
        StaysClearMore(bus, ok, more, op, m, cycle + 1, s.c);
      }
    }
  }

  function CpuOf<M>(x: Exec<M>, op: Op): Cpu<M> { Cpu(x.k, LatchOf(x.latches, op)) }

  predicate Quiet(w: Window) { forall j: nat | j < |w| :: !w[j].SetDma? }

  predicate AllQuiet(env: seq<Window>) { forall j: nat | j < |env| :: Quiet(env[j]) }

  lemma {:induction false} QuietFlags(l: Lines, l': Lines, w: Window)
    requires Quiet(w) && l.flags == l'.flags
    ensures ApplyAll(l, w).flags == ApplyAll(l', w).flags
    ensures ApplyAll(l, w).flags.dma == l.flags.dma
    decreases |w|
  {
    if w != [] {
      QuietFlags(Apply(l, w[0]), Apply(l', w[0]), w[1..]);
    }
  }

  // Two executors outside a transfer that differ by `h` on the bus, and in what
  // the transfer left in its own records.
  ghost predicate Alike<M>(h: M -> M, x: Exec<M>, y: Exec<M>) {
    && y.k == OnCore(h, x.k) && y.latches == x.latches && y.served == x.served
    && y.lines.flags == x.lines.flags && !x.lines.flags.dma && !x.dma.isIn && !y.dma.isIn
  }

  ghost predicate EndAlike<M>(h: M -> M, a: Ended<M>, b: Ended<M>, i: Exec<M>, j: Exec<M>) {
    && a.Ended? == b.Ended?
    && Alike(h, a.x, b.x) && b.x.total - a.x.total == j.total - i.total && b.x.calls == j.calls
    && (a.Ended? ==> a.env == b.env)
  }

  lemma {:induction false} LoopCommutes<M>(bus: BusOps<M>, h: M -> M, op: Op, m: Mode,
                                           i: Inner<M>, j: Inner<M>, env: seq<Window>)
    requires AllQuiet(env) && Alike(h, i.x, j.x) && i.cycle == j.cycle
    requires StaysClear(bus, Seen(Sim(bus, bus, h)), op, m, i.cycle, CpuOf(i.x, op))
    ensures EndAlike(h, InnerLoop(bus, op, m, i, env), InnerLoop(bus, op, m, j, env), i.x, j.x)
    decreases |env|, 7 - i.cycle
  {
    hide HandlerCall, StaysClear;
    var o, q := Opened(i, env), Opened(j, env);
    WindowAlike(h, i, j, env);
    if o.cycle <= 6 {
      var p, t := HandlerCall(bus, op, m, o), HandlerCall(bus, op, m, q);
      CallCommutes(bus, h, op, m, o, q);
      LoopCalls(bus, op, m, i, env);
      LoopCalls(bus, op, m, j, env);
      if p.next != End {
        LoopCommutes(bus, h, op, m, p, t, EnvAfter(i, env));
      }
    } else {
      LoopOverruns(bus, op, m, i, env);
      LoopOverruns(bus, op, m, j, env);
    }
  }

  lemma WindowAlike<M>(h: M -> M, i: Inner<M>, j: Inner<M>, env: seq<Window>)
    requires AllQuiet(env) && Alike(h, i.x, j.x)
    ensures var o, q := Opened(i, env), Opened(j, env);
            && Alike(h, o.x, q.x) && o.x.k == i.x.k && o.x.latches == i.x.latches
            && o.x.total == i.x.total && q.x.total == j.x.total && q.x.calls == j.x.calls
            && o.cycle == i.cycle && q.cycle == j.cycle
    ensures AllQuiet(EnvAfter(i, env)) && EnvAfter(i, env) == EnvAfter(j, env)
  {
    if env != [] {
      assert Quiet(env[0]);
      QuietFlags(i.x.lines, j.x.lines, env[0]);
      QuietFlags(i.x.lines, i.x.lines, env[0]);
    }
  }

  lemma CallCommutes<M>(bus: BusOps<M>, h: M -> M, op: Op, m: Mode, i: Inner<M>, j: Inner<M>)
    requires Alike(h, i.x, j.x) && i.cycle == j.cycle <= 6
    requires StaysClear(bus, Seen(Sim(bus, bus, h)), op, m, i.cycle, CpuOf(i.x, op))
    ensures var p, t := HandlerCall(bus, op, m, i), HandlerCall(bus, op, m, j);
            && Alike(h, p.x, t.x) && p.cycle == t.cycle == i.cycle + 1 && p.next == t.next
            && t.x.total - p.x.total == j.x.total - i.x.total && t.x.calls == j.x.calls
            && (p.next != End ==> StaysClear(bus, Seen(Sim(bus, bus, h)), op, m, p.cycle, CpuOf(p.x, op)))
  {
    hide Step, StepClear;
    var c := CpuOf(i.x, op);
    StepCommutes(Sim(bus, bus, h), op, m, i.cycle, c);
    assert CpuOf(j.x, op) == OnCpu(h, c);
    var s := Step(bus, op, m, i.cycle, c);
    assert CpuOf(HandlerCall(bus, op, m, i).x, op) == s.c;
  }

  // Without a request in sight the loop calls the handler.
  lemma LoopCalls<M>(bus: BusOps<M>, op: Op, m: Mode, i: Inner<M>, env: seq<Window>)
    requires Sound(i.x) && !i.x.dma.isIn && !Opened(i, env).x.lines.flags.dma && i.cycle <= 6
    ensures var p := HandlerCall(bus, op, m, Opened(i, env));
            && Sound(p.x)
            && InnerLoop(bus, op, m, i, env)
               == if p.next == End then Ended(p.x, EnvAfter(i, env)) else InnerLoop(bus, op, m, p, EnvAfter(i, env))
  {
    hide Step;
    PassDecreases(bus, op, m, Opened(i, env));
  }

  lemma LoopOverruns<M>(bus: BusOps<M>, op: Op, m: Mode, i: Inner<M>, env: seq<Window>)
    requires Sound(i.x) && !i.x.dma.isIn && !Opened(i, env).x.lines.flags.dma && i.cycle > 6
    ensures InnerLoop(bus, op, m, i, env) == Overrun(Opened(i, env).x)
  {
    hide Pass;
  }

  // A request pending outside a transfer: the loop makes the transfer, then goes on
  // where the handler was, with the windows that are left.
  lemma LoopServes<M>(bus: BusOps<M>, op: Op, m: Mode, i: Inner<M>, env: seq<Window>)
    requires !i.x.dma.isIn && Opened(i, env).x.lines.flags.dma
    ensures var e := EnterDma(bus, Opened(i, env));
            && e.x.dma.isIn && Sound(e.x) && Sound(DmaLoop(bus, e).x) && DmaLoop(bus, e).next == i.next
            && InnerLoop(bus, op, m, i, env)
               == if i.next == End then Ended(DmaLoop(bus, e).x, EnvAfter(i, env))
                  else InnerLoop(bus, op, m, DmaLoop(bus, e), EnvAfter(i, env))
  {
    hide InnerLoop, DmaLoop, DmaCycle, Pass, ApplyAll;
    var o, rest := Opened(i, env), EnvAfter(i, env);
    var e := EnterDma(bus, o);
    PassEnters(bus, op, m, o);
    LoopTurn(bus, op, m, i, env);
    LoopTakesCycle(bus, op, m, e, rest);
    LoopIsOneStep(bus, op, m, e, rest);
    Transfer(bus, o);
  }

  // One more window, in which another thread asks for a transfer.
  lemma RequestRuns<M>(bus: BusOps<M>, op: Op, m: Mode, i: Inner<M>, req: Request, env: seq<Window>)
    returns (j: Inner<M>)
    requires !i.x.dma.isIn && !i.x.lines.flags.dma
    ensures var e := EnterDma(bus, WithLines(i, Lines(i.x.lines.flags.(dma := true), req)));
            e.x.dma.isIn && Sound(e.x) && j == DmaLoop(bus, e) && j.next == i.next
    ensures Sound(j.x)
    ensures InnerLoop(bus, op, m, i, [[SetDma(req)]] + env)
            == if i.next == End then Ended(j.x, env) else InnerLoop(bus, op, m, j, env)
  {
    hide InnerLoop, DmaLoop, EnterDma;
    var all := [[SetDma(req)]] + env;
    RequestApplied(i.x.lines, req);
    assert all[0] == [SetDma(req)] && all[1..] == env;
    assert Opened(i, all) == WithLines(i, Lines(i.x.lines.flags.(dma := true), req));
    LoopServes(bus, op, m, i, all);
    j := DmaLoop(bus, EnterDma(bus, Opened(i, all)));
  }

  lemma PassEnters<M>(bus: BusOps<M>, op: Op, m: Mode, i: Inner<M>)
    requires !i.x.dma.isIn && i.x.lines.flags.dma
    ensures Pass(bus, op, m, i) == DmaCycle(bus, EnterDma(bus, i))
    ensures EnterDma(bus, i).x.dma.isIn && Sound(EnterDma(bus, i).x)
  {
    hide HandlerCall, DmaCycle;
  }

  lemma RequestApplied(l: Lines, req: Request)
    requires !l.flags.dma
    ensures ApplyAll(l, [SetDma(req)]) == Lines(l.flags.(dma := true), req)
  {
    assert [SetDma(req)][1..] == [];
  }

  // ---- On memory -----------------------------------------------------------

  // How many bytes the provider gives before it refuses one, of `n` asked for.
  function Granted(give: word -> Option<byte>, index: nat, n: nat): (k: nat)
    requires index + n <= 0x1_0000
    ensures k <= n && GivesUpTo(give, index, k) && (k < n ==> give(index + k).None?)
    decreases n
  {
    if n == 0 || give(index).None? then 0 else 1 + Granted(give, index + 1, n - 1)
  }

  function Supplied(give: word -> Option<byte>, index: nat, n: nat): (bs: seq<byte>)
    requires index + n <= 0x1_0000 && GivesUpTo(give, index, n)
    ensures |bs| == n && forall j: nat | j < n :: bs[j] == give(index + j).value
    decreases n
  {
    if n == 0 then [] else [give(index).value] + Supplied(give, index + 1, n - 1)
  }

  // `bs` written to addresses lo, lo + 1, ..., wrapping, past the caches.
  function Laid(m: Ram, lo: word, bs: seq<byte>): Ram
    decreases |bs|
  {
    if bs == [] then m else Laid(m.(bytes := m.bytes[lo := bs[0]]), Inc16(lo), bs[1..])
  }

  // The address `j` places after `lo`.
  function Place(lo: word, j: nat): word
    requires j <= 0x1_0000
  {
    Add16(lo, j)
  }

  predicate Within(lo: word, n: nat, a: word)
    requires n <= 0x1_0000
  {
    exists j: nat | j < n :: Place(lo, j) == a
  }

  // One place on from `lo` is what follows in the rest of a range.
  lemma WithinRest(lo: word, n: nat, a: word)
    requires 0 < n <= 0x1_0000 && !Within(lo, n, a)
    ensures a != lo && !Within(Inc16(lo), n - 1, a)
  {
    assert Place(lo, 0) == lo;
    forall j: nat | j < n - 1 ensures Place(Inc16(lo), j) != a {
      assert Place(Inc16(lo), j) == Place(lo, j + 1);
    }
  }

  // What lies there afterwards, byte by byte.
  lemma {:induction false} LaidBytes(m: Ram, lo: word, bs: seq<byte>, a: word)
    requires |bs| <= 0x1_0000
    ensures Laid(m, lo, bs) == m.(bytes := Laid(m, lo, bs).bytes)
    ensures !Within(lo, |bs|, a) ==> Laid(m, lo, bs).bytes[a] == m.bytes[a]
    ensures forall j: nat | j < |bs| && Place(lo, j) == a :: Laid(m, lo, bs).bytes[a] == bs[j]
    decreases |bs|
  {
    if bs != [] {
      var next := m.(bytes := m.bytes[lo := bs[0]]);
      LaidBytes(next, Inc16(lo), bs[1..], a);
      if !Within(lo, |bs|, a) {
        WithinRest(lo, |bs|, a);
      }
      forall j: nat | j < |bs| && Place(lo, j) == a
        ensures Laid(next, Inc16(lo), bs[1..]).bytes[a] == bs[j]
      {
        if j == 0 {
          assert a == lo;
          assert !Within(Inc16(lo), |bs| - 1, a);
        } else {
          assert Place(Inc16(lo), j - 1) == a && bs[1..][j - 1] == bs[j];
        }
      }
    }
  }

  // Each address holds the byte laid there, or the byte it held.
  ghost predicate Shows(before: Memory, lo: word, bs: seq<byte>, after: Memory)
    requires |bs| <= 0x1_0000
  {
    && (forall a: word | !Within(lo, |bs|, a) :: after[a] == before[a])
    && (forall j: nat | j < |bs| :: after[Place(lo, j)] == bs[j])
  }

  lemma LaidShows(m: Ram, lo: word, bs: seq<byte>)
    requires |bs| <= 0x1_0000
    ensures Shows(m.bytes, lo, bs, Laid(m, lo, bs).bytes)
  {
    hide Laid, Place;
    forall a: word | !Within(lo, |bs|, a) ensures Laid(m, lo, bs).bytes[a] == m.bytes[a] {
      LaidBytes(m, lo, bs, a);
    }
    forall j: nat | j < |bs| ensures Laid(m, lo, bs).bytes[Place(lo, j)] == bs[j] {
      LaidBytes(m, lo, bs, Place(lo, j));
    }
  }

  lemma {:induction false} LaidApart(m: Ram, lo: word, bs: seq<byte>, a: word, v: byte)
    requires |bs| <= 0x1_0000 && !Within(lo, |bs|, a)
    ensures Peek(Laid(m, lo, bs), a) == Peek(m, a)
    ensures AfterRead(Laid(m, lo, bs), a) == Laid(AfterRead(m, a), lo, bs)
    ensures AfterWrite(Laid(m, lo, bs), a, v) == Laid(AfterWrite(m, a, v), lo, bs)
    decreases |bs|
  {
    if bs != [] {
      var next := m.(bytes := m.bytes[lo := bs[0]]);
      WithinRest(lo, |bs|, a);
      LaidApart(next, Inc16(lo), bs[1..], a, v);
      assert m.bytes[lo := bs[0]][a := v] == m.bytes[a := v][lo := bs[0]];
    }
  }

  // A copy-in to memory with caching off, refused or not.
  lemma {:induction false} CopyInRam(m: Ram, lo: word, give: word -> Option<byte>, index: word, n: nat)
    requires m.off && index + n <= 0x1_0000
    ensures var r, k := CopyIn(RamBus(), m, lo, give, index, n), Granted(give, index, n);
            && r.m == Laid(m, lo, Supplied(give, index, k))
            && r.cycles == 2 * k + (if k < n then 1 else 0)
    decreases n
  {
    hide CopyIn, Laid;
    if n == 0 {
      CopyInNothing(m, lo, give, index);
    } else {
      CopyInTurn(m, lo, give, index, n);
      if give(index).Some? {
        var m1, bs := AfterWrite(m, lo, give(index).value), Supplied(give, index, Granted(give, index, n));
        LaidTurn(m, lo, bs);
        if n == 1 {
          assert Granted(give, index + 1, 0) == 0;
          assert bs[1..] == [];
          CopyInNothing(m1, Inc16(lo), give, Inc16(index));
        } else {
          assert bs[1..] == Supplied(give, index + 1, Granted(give, index + 1, n - 1));
          CopyInRam(m1, Inc16(lo), give, index + 1, n - 1);
        }
      } else {
        LaidTurn(m, lo, []);
      }
    }
  }

  lemma CopyInTurn(m: Ram, lo: word, give: word -> Option<byte>, index: word, n: nat)
    requires n > 0
    ensures var r := CopyIn(RamBus(), m, lo, give, index, n);
            if give(index).None? then r == Moved(m, [Asked(index)], 1)
            else
              var rest := CopyIn(RamBus(), AfterWrite(m, lo, give(index).value), Inc16(lo), give, Inc16(index), n - 1);
              r.m == rest.m && r.cycles == 2 + rest.cycles
  {
  }

  lemma LaidTurn(m: Ram, lo: word, bs: seq<byte>)
    ensures Laid(m, lo, []) == m
    ensures bs != [] && m.off ==> Laid(m, lo, bs) == Laid(AfterWrite(m, lo, bs[0]), Inc16(lo), bs[1..])
  {
  }

  lemma CopyInNothing(m: Ram, lo: word, give: word -> Option<byte>, index: word)
    ensures CopyIn(RamBus(), m, lo, give, index, 0) == Moved(m, [], 0) && Laid(m, lo, []) == m
  {
  }

  function Outside(lo: word, n: nat): (Ram, word) -> bool
    requires n <= 0x1_0000
  {
    (_: Ram, a: word) => !Within(lo, n, a)
  }

  lemma LaidAgrees(lo: word, bs: seq<byte>)
    requires |bs| <= 0x1_0000
    ensures var s := Sim(RamBus(), RamBus(), (m: Ram) => Laid(m, lo, bs));
            forall m: Ram, a: word | Outside(lo, |bs|)(m, a) :: Seen(s)(m, a)
  {
    var s := Sim(RamBus(), RamBus(), (m: Ram) => Laid(m, lo, bs));
    forall m: Ram, a: word | Outside(lo, |bs|)(m, a) ensures Seen(s)(m, a) {
      forall v: byte ensures AfterWrite(Laid(m, lo, bs), a, v) == Laid(AfterWrite(m, a, v), lo, bs) {
        LaidApart(m, lo, bs, a, v);
      }
      LaidApart(m, lo, bs, a, 0);
    }
  }

  // What a copy-in request writes.
  function BytesGiven(req: Request): (bs: seq<byte>)
    requires req.party.Providing?
    ensures |bs| == Granted(req.party.give, 0, Count(req.lo, req.len)) <= 0x1_0000
    ensures |bs| <= Count(req.lo, req.len) && forall j: nat | j < |bs| :: req.party.give(j) == Some(bs[j])
    ensures |bs| < Count(req.lo, req.len) ==> req.party.give(|bs|).None?
  {
    CountIsLengthIff(req.lo, req.len);
    Supplied(req.party.give, 0, Granted(req.party.give, 0, Count(req.lo, req.len)))
  }

  // Copy-in between two calls of a handler, of any range, refused at any byte or
  // at none, provided the rest of the instruction does not touch the bytes
  // written: registers, both caches, the cache switch, the handler's latch and the
  // other bytes are those of the undisturbed run; the bytes given lie in the range;
  // the cost is two cycles a byte, one for a refusal, and the stall.
  lemma CopyInIsTransparent(op: Op, m: Mode, i: Inner<Ram>, req: Request, env: seq<Window>)
    requires !i.x.dma.isIn && !i.x.lines.flags.dma && i.next != End && AllQuiet(env) && req.party.Providing?
    requires StaysClear(RamBus(), Outside(req.lo, |BytesGiven(req)|), op, m, i.cycle, CpuOf(i.x, op))
    ensures var a := InnerLoop(RamBus(), op, m, i, env);
            var b := InnerLoop(RamBus(), op, m, i, [[SetDma(req)]] + env);
            var bs := BytesGiven(req);
            && b.Ended? == a.Ended? && (a.Ended? ==> b.env == a.env)
            && b.x.k.r == a.x.k.r && b.x.latches == a.x.latches && b.x.lines.flags == a.x.lines.flags
            && b.x.k.m == Laid(a.x.k.m, req.lo, bs) && Shows(a.x.k.m.bytes, req.lo, bs, b.x.k.m.bytes)
            && b.x.total == a.x.total + 2 * |bs| + (if |bs| < Count(req.lo, req.len) then 1 else 0) + i.x.total % 2
  {
    hide InnerLoop, DmaLoop, EnterDma, StaysClear, CopyIn, Laid, Shows, Outside, Granted, Supplied;
    var bus, bs := RamBus(), BytesGiven(req);
    var h := (r: Ram) => Laid(r, req.lo, bs);
    var j := RequestRuns(bus, op, m, i, req, env);
    AfterCopyIn(i, req, j);
    LaidAgrees(req.lo, bs);
    StaysClearMore(bus, Outside(req.lo, |bs|), Seen(Sim(bus, bus, h)), op, m, i.cycle, CpuOf(i.x, op));
    LoopCommutes(bus, h, op, m, i, j, env);
    LaidShows(InnerLoop(bus, op, m, i, env).x.k.m, req.lo, bs);
  }

  lemma AfterCopyIn(i: Inner<Ram>, req: Request, j: Inner<Ram>)
    requires !i.x.dma.isIn && !i.x.lines.flags.dma && req.party.Providing?
    requires var e := EnterDma(RamBus(), WithLines(i, Lines(i.x.lines.flags.(dma := true), req)));
             e.x.dma.isIn && Sound(e.x) && j == DmaLoop(RamBus(), e)
    ensures var bs := BytesGiven(req);
            && Alike((r: Ram) => Laid(r, req.lo, bs), i.x, j.x) && j.cycle == i.cycle
            && j.x.total == i.x.total + 2 * |bs| + (if |bs| < Count(req.lo, req.len) then 1 else 0) + i.x.total % 2
  {
    hide DmaLoop, CopyIn, Laid, Granted, Supplied;
    Transfer(RamBus(), WithLines(i, Lines(i.x.lines.flags.(dma := true), req)));
    CountIsLengthIff(req.lo, req.len);
    var m1 := i.x.k.m.(off := true);
    CopyInRam(m1, req.lo, req.party.give, 0, Count(req.lo, req.len));
    LaidSwitch(i.x.k.m, req.lo, BytesGiven(req));
  }

  // The bytes laid do not depend on the cache switch.
  lemma {:induction false} LaidSwitch(m: Ram, lo: word, bs: seq<byte>)
    ensures Laid(m.(off := true), lo, bs).(off := m.off) == Laid(m, lo, bs)
    decreases |bs|
  {
    if bs != [] {
      LaidSwitch(m.(bytes := m.bytes[lo := bs[0]]), Inc16(lo), bs[1..]);
    }
  }

  // With caching off a memory does not notice being read.
  lemma {:induction false} CopyOutRam(m: Ram, lo: word, take: (word, byte) -> bool, index: word, n: nat)
    requires m.off
    ensures CopyOut(RamBus(), m, lo, take, index, n).m == m
    decreases n
  {
    if n > 0 && take(index, m.bytes[lo]) {
      CopyOutRam(m, Inc16(lo), take, Inc16(index), n - 1);
    }
  }

  function Same<M>(): M -> M { (n: M) => n }

  lemma {:induction false} AlwaysClear<M>(bus: BusOps<M>, op: Op, m: Mode, cycle: nat, c: Cpu<M>)
    ensures StaysClear(bus, Seen(Sim(bus, bus, Same<M>())), op, m, cycle, c)
    decreases 7 - cycle
  {
    hide Step, StepClear;
    if cycle <= 6 {
      StepAlwaysClear(bus, op, m, cycle, c);
      AlwaysClear(bus, op, m, cycle + 1, Step(bus, op, m, cycle, c).c);
    }
  }

  lemma StepAlwaysClear<M>(bus: BusOps<M>, op: Op, m: Mode, cycle: nat, c: Cpu<M>)
    ensures StepClear(bus, Seen(Sim(bus, bus, Same<M>())), op, m, cycle, c)
  {
    hide MicroClear, ControlClear, Perform, PerformControl;
    match op
    case Reading(o) =>
      var u := ReadPlan(o, m, cycle);
      MicroAlwaysClear(bus, u, c);
      MicroAlwaysClear(bus, AbsPlusRead(true), Perform(bus, u, c).c);
    case Adding(_) => MicroAlwaysClear(bus, AluPlan(m, cycle), c);
    case Storing(o) => MicroAlwaysClear(bus, StorePlan(o, m, cycle), c);
    case Bumping(o) => MicroAlwaysClear(bus, BumpPlan(o, m, cycle), c);
    case Shifting(_) => MicroAlwaysClear(bus, ShiftPlan(m, cycle), c);
    case Branching(o) => ControlAlwaysClear(bus, BranchPlan(Taken(o, c.k.r.SR), cycle), c);
    case Inherent(_) =>
    case Control(o) => ControlAlwaysClear(bus, ControlPlan(o, m, cycle, c.k.r.SR), c);
    case BRK =>
      ControlAlwaysClear(bus, BrkPlan(cycle), c);
      ControlAlwaysClear(bus, PushPcHi, PerformControl(bus, BrkPlan(1), c).c);
  }

  lemma MicroAlwaysClear<M>(bus: BusOps<M>, u: Micro, c: Cpu<M>)
    ensures MicroClear(Seen(Sim(bus, bus, Same<M>())), u, c)
  {
  }

  lemma ControlAlwaysClear<M>(bus: BusOps<M>, u: ControlMicro, c: Cpu<M>)
    ensures ControlClear(Seen(Sim(bus, bus, Same<M>())), u, c)
  {
  }

  // Copy-out needs no such proviso: of any range, refused or not.
  lemma CopyOutIsTransparent(op: Op, m: Mode, i: Inner<Ram>, req: Request, env: seq<Window>)
    requires !i.x.dma.isIn && !i.x.lines.flags.dma && i.next != End && AllQuiet(env) && req.party.Consuming?
    ensures var a := InnerLoop(RamBus(), op, m, i, env);
            var b := InnerLoop(RamBus(), op, m, i, [[SetDma(req)]] + env);
            && b.Ended? == a.Ended? && (a.Ended? ==> b.env == a.env)
            && b.x.k == a.x.k && b.x.latches == a.x.latches && b.x.lines.flags == a.x.lines.flags
            && b.x.total == a.x.total + 2 * (|b.x.calls| - |i.x.calls|) + i.x.total % 2
  {
    hide InnerLoop, DmaLoop, EnterDma, StaysClear, CopyOut;
    var bus := RamBus();
    var j := RequestRuns(bus, op, m, i, req, env);
    AfterCopyOut(i, req, j);
    AlwaysClear(bus, op, m, i.cycle, CpuOf(i.x, op));
    LoopCommutes(bus, Same<Ram>(), op, m, i, j, env);
  }

  // A copy-out leaves memory, registers and latches alone, and costs two cycles for
  // each byte handed over, and the stall.
  lemma CopyOutLeaves(i: Inner<Ram>)
    requires !i.x.dma.isIn && i.x.lines.flags.dma && i.x.lines.req.party.Consuming?
    ensures var e := EnterDma(RamBus(), i);
            && e.x.dma.isIn && Sound(e.x)
            && var j := DmaLoop(RamBus(), e);
               && j.x.k == i.x.k && j.x.latches == i.x.latches && j.x.served == i.x.served
               && j.x.lines.flags == i.x.lines.flags.(dma := false) && !j.x.dma.isIn
               && j.cycle == i.cycle && j.next == i.next && |j.x.calls| >= |i.x.calls|
               && j.x.total == i.x.total + 2 * (|j.x.calls| - |i.x.calls|) + i.x.total % 2
  {
    hide DmaLoop, CopyOut;
    var req, m1 := i.x.lines.req, i.x.k.m.(off := true);
    var n := Count(req.lo, req.len);
    Transfer(RamBus(), i);
    CountIsLengthIff(req.lo, req.len);
    CopyOutRam(m1, req.lo, req.party.take, 0, n);
    CopyOutDelivers(RamBus(), m1, req.lo, req.party.take, 0, n);
  }

  lemma AfterCopyOut(i: Inner<Ram>, req: Request, j: Inner<Ram>)
    requires !i.x.dma.isIn && !i.x.lines.flags.dma && req.party.Consuming?
    requires var e := EnterDma(RamBus(), WithLines(i, Lines(i.x.lines.flags.(dma := true), req)));
             e.x.dma.isIn && Sound(e.x) && j == DmaLoop(RamBus(), e)
    ensures Alike(Same<Ram>(), i.x, j.x) && j.cycle == i.cycle
    ensures j.x.total == i.x.total + 2 * (|j.x.calls| - |i.x.calls|) + i.x.total % 2
  {
    hide DmaLoop, EnterDma;
    CopyOutLeaves(WithLines(i, Lines(i.x.lines.flags.(dma := true), req)));
  }

  // A transfer entered before an instruction's first call saves a stage nobody has
  // set. If that happens to read `End`, the instruction is not executed at all.
  lemma FirstCycleEntrySkips<M>(bus: BusOps<M>, op: Op, m: Mode, i: Inner<M>, req: Request, env: seq<Window>)
    requires !i.x.dma.isIn && !i.x.lines.flags.dma && i.cycle == 1 && i.next == End
    ensures var b := InnerLoop(bus, op, m, i, [[SetDma(req)]] + env);
            b.Ended? && b.env == env && b.x.latches == i.x.latches && b.x.k.r == i.x.k.r
  {
    hide InnerLoop, DmaLoop;
    var j := RequestRuns(bus, op, m, i, req, env);
    Transfer(bus, WithLines(i, Lines(i.x.lines.flags.(dma := true), req)));
  }
}
