// The agreement of single instructions lifted to whole runs of the two launch
// loops.
module WholeRuns {
  import opened Bus
  import opened Isa
  import opened Staged
  import opened Static
  import opened Agreement
  import opened Executor
  import opened Launch

  // Nobody has raised anything, and nobody will.
  predicate Silent<M>(x: Exec<M>) { x.lines.flags == Flags(false, false, false, false) && !x.dma.isIn }

  function AfterHandler<M>(x: Exec<M>, op: Op, c: Cpu<M>, calls: nat): Exec<M> {
    x.(k := c.k, latches := x.latches[op := c.l], total := x.total + calls)
  }

  // Undisturbed, the inner loop is the handler driven to its end.
  lemma {:induction false} SilentLoop<M>(bus: BusOps<M>, op: Op, m: Mode, i: Inner<M>)
    requires Silent(i.x)
    ensures var d := Drive(bus, op, m, i.cycle, Cpu(i.x.k, LatchOf(i.x.latches, op)));
            d.Driven? ==> (d.calls >= i.cycle
              && InnerLoop(bus, op, m, i, []) == Ended(AfterHandler(i.x, op, d.c, d.calls - i.cycle + 1), []))
    decreases 7 - i.cycle
  {
    hide Step, Drive, InnerLoop;
    var c := Cpu(i.x.k, LatchOf(i.x.latches, op));
    if i.cycle > 6 {
      assert Drive(bus, op, m, i.cycle, c).Unfinished? by { DriveStops(bus, op, m, i.cycle, c); }
    } else {
      var s := Step(bus, op, m, i.cycle, c);
      var p := HandlerCall(bus, op, m, i);
      SilentCall(bus, op, m, i);
      if s.ended {
        Finishes(bus, op, m, i.cycle, c, s.c);
      } else {
        Continues(bus, op, m, i.cycle, c, s.c);
        SilentLoop(bus, op, m, p);
        LatchesAgain(i.x.latches, op, s.c.l, Drive(bus, op, m, p.cycle, s.c));
      }
    }
  }

  lemma LatchesAgain<M>(ls: Latches, op: Op, l: Latch, d: Driven<M>)
    ensures d.Driven? ==> ls[op := l][op := d.c.l] == ls[op := d.c.l]
  {
  }

  lemma SilentCall<M>(bus: BusOps<M>, op: Op, m: Mode, i: Inner<M>)
    requires Silent(i.x) && i.cycle <= 6
    ensures var p := HandlerCall(bus, op, m, i);
            && Silent(p.x)
            && InnerLoop(bus, op, m, i, []) == if p.next == End then Ended(p.x, []) else InnerLoop(bus, op, m, p, [])
  {
    hide InnerLoop, Step;
    LoopTurn(bus, op, m, i, []);
    assert Opened(i, []) == i;
  }

  // Every instruction the static run executes is one on which both forms agree.
  predicate AllAgreed<M>(bus: BusOps<M>, k: Core<M>, pcEnd: nat, n: nat, unset: nat -> Unset)
    decreases n
  {
    k.r.PC < pcEnd && n > 0 ==>
      var f := Fetch(bus, k);
      match Decode(f.v)
      case Slot(op, m) => Agreed(op, m) && AllAgreed(bus, Run(bus, op, m, f.k, unset(n)).k, pcEnd, n - 1, unset)
      case _ => true
  }

  lemma AgreedInstruction<M>(bus: BusOps<M>, x: Exec<M>, junk: Stage, op: Op, m: Mode, u: Unset)
    requires Silent(x) && Decode(Fetch(bus, x.k).v) == Slot(op, m) && Agreed(op, m)
    ensures var r := Run(bus, op, m, Fetch(bus, x.k).k, u);
            var t := Instruction(bus, x, [], junk);
            t.why == Done && t.env == [] && Silent(t.x) && t.x.k == r.k && t.x.total == x.total + 1 + r.cycles
  {
    var y := Fetched1(bus, x);
    var i := Inner(y, 1, junk);
    StagedAgreesWithStatic(bus, op, m, Cpu(y.k, LatchOf(y.latches, op)), u);
    SilentLoop(bus, op, m, i);
    var e := InnerLoop(bus, op, m, i, []);
    assert e.Ended? && Silent(e.x);
    assert Service(bus, m, CloseWindow(e.x, [])) == e.x;
  }

  // For any program, memory and start state, any bound on the number of
  // instructions, any stale latches, uninitialised stages and unset locals: if the
  // executed opcodes are agreed ones, both loops stop for the same reason after
  // the same number of instructions with the same registers and bus, and the
  // static total is larger by exactly that number.
  lemma {:induction false} StagedRunIsStaticRun<M>(bus: BusOps<M>, x: Exec<M>, total: nat, pcEnd: nat, n: nat,
                                                   junk: nat -> Stage, unset: nat -> Unset)
    requires Silent(x) && AllAgreed(bus, x.k, pcEnd, n, unset)
    ensures var a, b := StagedLoop(bus, x, pcEnd, n, [], junk), StaticLoop(bus, x.k, total, pcEnd, n, unset);
            && a.why == b.why && a.x.k == b.k && a.ran == b.ran
            && b.total - total == a.x.total - x.total + a.ran
    decreases n
  {
    hide Instruction, Run, Agreed, Decode;
    if x.k.r.PC < pcEnd && n > 0 {
      var f := Fetch(bus, x.k);
      if Decode(f.v).Slot? {
        var op, m := Decode(f.v).op, Decode(f.v).mode;
        AgreedInstruction(bus, x, junk(n), op, m, unset(n));
        AllAgreedGoesOn(bus, x.k, pcEnd, n, unset, op, m);
        var r, t := Run(bus, op, m, f.k, unset(n)), Instruction(bus, x, [], junk(n));
        StagedRunIsStaticRun(bus, t.x, total + 2 + r.cycles, pcEnd, n - 1, junk, unset);
        StagedGoesOn(bus, x, pcEnd, n, junk, t);
        StaticGoesOn(bus, x.k, total, pcEnd, n, unset, op, m, r);
      } else {
        BothStop(bus, x, total, pcEnd, n, junk, unset);
      }
    }
  }

  lemma AllAgreedGoesOn<M>(bus: BusOps<M>, k: Core<M>, pcEnd: nat, n: nat, unset: nat -> Unset, op: Op, m: Mode)
    requires k.r.PC < pcEnd && n > 0 && Decode(Fetch(bus, k).v) == Slot(op, m) && AllAgreed(bus, k, pcEnd, n, unset)
    ensures Agreed(op, m) && AllAgreed(bus, Run(bus, op, m, Fetch(bus, k).k, unset(n)).k, pcEnd, n - 1, unset)
  {
  }

  lemma StagedGoesOn<M>(bus: BusOps<M>, x: Exec<M>, pcEnd: nat, n: nat, junk: nat -> Stage, t: Turn<M>)
    requires Silent(x) && x.k.r.PC < pcEnd && n > 0
    requires t == Instruction(bus, x, [], junk(n)) && t.why == Done && t.env == []
    ensures var o := StagedLoop(bus, t.x, pcEnd, n - 1, [], junk);
            StagedLoop(bus, x, pcEnd, n, [], junk) == o.(ran := o.ran + 1)
  {
  }

  lemma StaticGoesOn<M>(bus: BusOps<M>, k: Core<M>, total: nat, pcEnd: nat, n: nat, unset: nat -> Unset,
                        op: Op, m: Mode, r: Ran<M>)
    requires k.r.PC < pcEnd && n > 0 && Decode(Fetch(bus, k).v) == Slot(op, m)
    requires r == Run(bus, op, m, Fetch(bus, k).k, unset(n))
    ensures var o := StaticLoop(bus, r.k, total + 2 + r.cycles, pcEnd, n - 1, unset);
            StaticLoop(bus, k, total, pcEnd, n, unset) == o.(ran := o.ran + 1)
  {
    hide Run, Decode;
  }

  lemma BothStop<M>(bus: BusOps<M>, x: Exec<M>, total: nat, pcEnd: nat, n: nat, junk: nat -> Stage, unset: nat -> Unset)
    requires Silent(x) && x.k.r.PC < pcEnd && n > 0 && !Decode(Fetch(bus, x.k).v).Slot?
    ensures var a, b := StagedLoop(bus, x, pcEnd, n, [], junk), StaticLoop(bus, x.k, total, pcEnd, n, unset);
            && a.why == b.why && a.x.k == b.k && a.ran == b.ran == 0
            && b.total - total == a.x.total - x.total == 1
  {
    hide Decode, InnerLoop, Service, Run;
  }
}
