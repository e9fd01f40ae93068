// Runs under any number of copy-outs, asked for in any windows: what they would have
// been without, but for the cycles stolen.
module CopyOutRuns {
  import opened Bus
  import opened Isa
  import opened Agreement
  import opened Executor
  import opened Launch
  import opened Ram
  import opened Transparency
  import opened CopyOuts
  import opened Devices
  import opened Lookup
  import opened DefaultMachine

  // One instruction, the window that closes it included.
  function CalmedOne(x: Exec<Ram>, env: seq<Window>, junk: Stage): Calm
    requires !x.dma.isIn
  {
    var s, j := Decode(Fetch(RamBus(), x.k).v), Inner(Fetched1(RamBus(), x), 1, junk);
    if !s.Slot? then Calm([], [])
    else
      var c := Calmed(s.op, s.mode, j, env, []);
      match InnerLoop(RamBus(), s.op, s.mode, j, env)
      case Overrun(_) => c
      case Ended(_, rest) => Calm(c.env + [Peaceful(Head(rest))], c.stolen)
  }

  function CalmedRun(x: Exec<Ram>, pcEnd: nat, n: nat, env: seq<Window>, junk: nat -> Stage): Calm
    requires !x.dma.isIn
    decreases n
  {
    if x.lines.flags.stop || x.k.r.PC >= pcEnd || n == 0 then Calm([], [])
    else
      var c, t := CalmedOne(x, env, junk(n)), Instruction(RamBus(), x, env, junk(n));
      if t.why != Done then c
      else
        var r := CalmedRun(t.x, pcEnd, n - 1, t.env, junk);
        Calm(c.env + r.env, c.stolen + r.stolen)
  }

  // A transfer that seizes the bus before the first call of an instruction finds a
  // stage there that nobody has set; no such stage says `End`.
  predicate StartsOne(x: Exec<Ram>, env: seq<Window>, junk: Stage) {
    Starts(Inner(Fetched1(RamBus(), x), 1, junk), env)
  }

  predicate StartsAll(x: Exec<Ram>, pcEnd: nat, n: nat, env: seq<Window>, junk: nat -> Stage)
    requires !x.dma.isIn
    decreases n
  {
    x.lines.flags.stop || x.k.r.PC >= pcEnd || n == 0 || (
      var t := Instruction(RamBus(), x, env, junk(n));
      StartsOne(x, env, junk(n)) && (t.why == Done ==> StartsAll(t.x, pcEnd, n - 1, t.env, junk)))
  }

  lemma ServeFollows(op: ControlOp, m: Mode, x: Exec<Ram>, y: Exec<Ram>)
    requires Follows(x, y)
    ensures var a, b := Serve(RamBus(), op, m, x), Serve(RamBus(), op, m, y);
            Follows(a, b) && b.total - y.total == a.total - x.total && b.calls == y.calls
            && a.lines == x.lines && b.lines == y.lines
  {
    hide Drive;
  }

  lemma LowersFollow(x: Exec<Ram>, y: Exec<Ram>)
    requires Follows(x, y)
    ensures Follows(Lowered(x), Lowered(y))
    ensures x.k == y.k && x.lines.flags.irq == y.lines.flags.irq && x.lines.flags.nmi == y.lines.flags.nmi
  {
  }

  function Lowered(x: Exec<Ram>): Exec<Ram> {
    x.(lines := x.lines.(flags := x.lines.flags.(irq := false, nmi := false)))
  }

  lemma ServiceFollows(m: Mode, x: Exec<Ram>, y: Exec<Ram>)
    requires Follows(x, y)
    ensures var a, b := Service(RamBus(), m, x), Service(RamBus(), m, y);
            Follows(a, b) && b.total - y.total == a.total - x.total && b.calls == y.calls
  {
    hide Serve, Follows;
    LowersFollow(x, y);
    ServeFollows(IRQ, m, x, y);
    var irq := x.lines.flags.irq && !x.k.r.SR.I;
    var x1 := if irq then Serve(RamBus(), IRQ, m, x) else x;
    var y1 := if irq then Serve(RamBus(), IRQ, m, y) else y;
    ServeFollows(NMI, m, x1, y1);
    var x2 := if x.lines.flags.nmi then Serve(RamBus(), NMI, m, x1) else x1;
    var y2 := if x.lines.flags.nmi then Serve(RamBus(), NMI, m, y1) else y1;
    LowersFollow(x2, y2);
  }

  lemma CloseFollows(x: Exec<Ram>, y: Exec<Ram>, rest: seq<Window>, tail: seq<Window>)
    requires Follows(x, y) && AllAsk(rest)
    ensures var w := Peaceful(Head(rest));
            var a, b := CloseWindow(x, [w] + tail), CloseWindow(y, rest);
            Follows(a, b) && a.total == x.total && b.total == y.total && b.calls == y.calls && Quiet(w)
  {
    hide ApplyAll;
    JoinedFirst(rest);
    PeacefulCalms(x.lines, y.lines, Head(rest));
    NothingApplied(y.lines);
  }

  // What one instruction, or a run of them, comes to.
  ghost predicate Delays(x: Exec<Ram>, y: Exec<Ram>, a: Exec<Ram>, b: Exec<Ram>, stolen: seq<Stolen>) {
    && Follows(a, b) && b.total + x.total == a.total + y.total + Cycles(stolen)
    && |b.calls| == |y.calls| + Bytes(stolen)
  }

  lemma FetchFollows(x: Exec<Ram>, y: Exec<Ram>, junk: Stage)
    requires Follows(x, y)
    ensures x.k == y.k && !x.dma.isIn && !y.dma.isIn
    ensures var v, w := Fetched1(RamBus(), x), Fetched1(RamBus(), y);
            && Follows(v, w) && Lags(Inner(v, 1, junk), Inner(w, 1, junk), []) && !v.dma.isIn && !w.dma.isIn
            && v.total == x.total + 1 && w.total == y.total + 1 && w.calls == y.calls
  {
    NothingApplied(x.lines);
  }

  // The closing window and the interrupts, after a loop that has settled.
  lemma Closes(m: Mode, i: Inner<Ram>, j: Inner<Ram>, a: Ended<Ram>, b: Ended<Ram>, stolen: seq<Stolen>,
               tail: seq<Window>)
    requires a.Ended? && b.Ended? && Settles(i, j, a, b, stolen, [Peaceful(Head(b.env))] + tail)
    ensures Delays(i.x, j.x, Service(RamBus(), m, CloseWindow(a.x, a.env)),
                   Service(RamBus(), m, CloseWindow(b.x, b.env)), stolen)
    ensures a.env == [Peaceful(Head(b.env))] + tail && AllAsk(Tail(b.env)) && Quiet(Peaceful(Head(b.env)))
  {
    hide Service, CloseWindow, Follows, Peaceful;
    JoinedFirst(b.env);
    CloseFollows(a.x, b.x, b.env, tail);
    ServiceFollows(m, CloseWindow(a.x, a.env), CloseWindow(b.x, b.env));
  }

  lemma QuietAppend(env: seq<Window>, more: seq<Window>)
    requires AllQuiet(env) && AllQuiet(more)
    ensures AllQuiet(env + more)
  {
  }

  // One instruction in both, the calm one with `tail` left behind it.
  ghost predicate OneCalms(x: Exec<Ram>, y: Exec<Ram>, env: seq<Window>, junk: Stage, tail: seq<Window>)
    requires !x.dma.isIn && !y.dma.isIn
  {
    var c := CalmedOne(y, env, junk);
    var a, b := Instruction(RamBus(), x, c.env + tail, junk), Instruction(RamBus(), y, env, junk);
    && AllQuiet(c.env) && a.why == b.why && Delays(x, y, a.x, b.x, c.stolen)
    && (b.why == Done ==> a.env == tail && AllAsk(b.env) && ActsKept(env, [], c.env, Ended(b.x, b.env)))
  }

  lemma DelaysSince(x: Exec<Ram>, y: Exec<Ram>, v: Exec<Ram>, w: Exec<Ram>, a: Exec<Ram>, b: Exec<Ram>,
                    stolen: seq<Stolen>)
    requires Delays(v, w, a, b, stolen)
    requires v.total == x.total + 1 && w.total == y.total + 1 && w.calls == y.calls
    ensures Delays(x, y, a, b, stolen)
  {
    hide Follows;
  }

  // The acts of the closing window are kept as well.
  lemma ActsClosed(env: seq<Window>, calm: seq<Window>, e: Ended<Ram>, x: Exec<Ram>)
    requires e.Ended? && ActsKept(env, [], calm, e)
    ensures ActsKept(env, [], calm + [Peaceful(Head(e.env))], Ended(x, Tail(e.env)))
  {
    hide Peaceful;
    var w := Peaceful(Head(e.env));
    JoinedFirst(e.env);
    JoinedConcat(calm, [w]);
    assert [w][1..] == [] && Joined([w][1..]) == [];
    assert Joined([w]) == w + [] == w;
    assert Joined(calm) + w + Peaceful(Joined(Tail(e.env))) == Joined(calm) + (w + Peaceful(Joined(Tail(e.env))));
  }

  lemma InstructionIs(x: Exec<Ram>, env: seq<Window>, junk: Stage, op: Op, m: Mode)
    requires !x.dma.isIn && Decode(Fetch(RamBus(), x.k).v) == Slot(op, m)
    ensures !Fetched1(RamBus(), x).dma.isIn
    ensures var e := InnerLoop(RamBus(), op, m, Inner(Fetched1(RamBus(), x), 1, junk), env);
            Instruction(RamBus(), x, env, junk)
            == if e.Overrun? then Turn(Hung, e.x, env)
               else Turn(Done, Service(RamBus(), m, CloseWindow(e.x, e.env)), Tail(e.env))
  {
    hide Decode, InnerLoop, Service, CloseWindow;
  }

  lemma EndedCalms(op: Op, m: Mode, x: Exec<Ram>, y: Exec<Ram>, env: seq<Window>, junk: Stage, tail: seq<Window>)
    requires Follows(x, y) && !x.dma.isIn && !y.dma.isIn && AllAsk(env) && StartsOne(y, env, junk)
    requires Decode(Fetch(RamBus(), y.k).v) == Slot(op, m)
    requires !Fetched1(RamBus(), y).dma.isIn
    requires InnerLoop(RamBus(), op, m, Inner(Fetched1(RamBus(), y), 1, junk), env).Ended?
    ensures OneCalms(x, y, env, junk, tail)
  {
    hide Decode, Fetch, Fetched1, InnerLoop, Service, CloseWindow, Follows, Lags, AllAsk, Peaceful, Head, Calmed;
    hide ActsKept, AllQuiet, Quiet, Delays, Starts, Settles, Instruction;
    FetchFollows(x, y, junk);
    var i, j := Inner(Fetched1(RamBus(), x), 1, junk), Inner(Fetched1(RamBus(), y), 1, junk);
    var c, b := Calmed(op, m, j, env, []), InnerLoop(RamBus(), op, m, j, env);
    var w := Peaceful(Head(b.env));
    LoopKeepsActs(op, m, j, env, []);
    LoopCalms(op, m, i, j, env, [], [w] + tail);
    assert c.env + [w] + tail == c.env + ([w] + tail);
    InstructionIs(x, c.env + [w] + tail, junk, op, m);
    InstructionIs(y, env, junk, op, m);
    var a := InnerLoop(RamBus(), op, m, i, c.env + ([w] + tail));
    AskedSettles(i, j, a, b, c.stolen, [w] + tail);
    Closes(m, i, j, a, b, c.stolen, tail);
    QuietOne(w);
    QuietAppend(c.env, [w]);
    ActsClosed(env, c.env, b, Instruction(RamBus(), y, env, junk).x);
    assert ([w] + tail)[1..] == tail;
    DelaysSince(x, y, i.x, j.x, Instruction(RamBus(), x, c.env + [w] + tail, junk).x,
                Instruction(RamBus(), y, env, junk).x, c.stolen);
  }

  lemma AskedSettles(i: Inner<Ram>, j: Inner<Ram>, a: Ended<Ram>, b: Ended<Ram>, stolen: seq<Stolen>, tail: seq<Window>)
    requires Settles(i, j, a, b, stolen, tail)
    ensures a.Ended? == b.Ended? && (a.Ended? ==> a.env == tail)
    ensures Delays(i.x, j.x, a.x, b.x, stolen)
  {
    hide Follows;
  }

  lemma QuietOne(w: Window)
    requires Quiet(w)
    ensures AllQuiet([w])
  {
  }

  lemma HungCalms(op: Op, m: Mode, x: Exec<Ram>, y: Exec<Ram>, env: seq<Window>, junk: Stage, tail: seq<Window>)
    requires Follows(x, y) && !x.dma.isIn && !y.dma.isIn && AllAsk(env) && StartsOne(y, env, junk)
    requires Decode(Fetch(RamBus(), y.k).v) == Slot(op, m)
    requires !Fetched1(RamBus(), y).dma.isIn
    requires InnerLoop(RamBus(), op, m, Inner(Fetched1(RamBus(), y), 1, junk), env).Overrun?
    ensures OneCalms(x, y, env, junk, tail)
  {
    hide Decode, Fetch, Fetched1, InnerLoop, Service, CloseWindow, Follows, Lags, AllAsk, Peaceful, Head, Calmed;
    hide ActsKept, AllQuiet, Quiet, Delays, Starts, Settles, Instruction;
    FetchFollows(x, y, junk);
    var i, j := Inner(Fetched1(RamBus(), x), 1, junk), Inner(Fetched1(RamBus(), y), 1, junk);
    var c, b := Calmed(op, m, j, env, []), InnerLoop(RamBus(), op, m, j, env);
    LoopCalms(op, m, i, j, env, [], tail);
    InstructionIs(x, c.env + tail, junk, op, m);
    InstructionIs(y, env, junk, op, m);
    var a := InnerLoop(RamBus(), op, m, i, c.env + tail);
    AskedSettles(i, j, a, b, c.stolen, tail);
    DelaysSince(x, y, i.x, j.x, a.x, b.x, c.stolen);
  }

  // No handler: both launches stop after the fetch.
  lemma UnusedCalms(x: Exec<Ram>, y: Exec<Ram>, env: seq<Window>, junk: Stage, tail: seq<Window>)
    requires Follows(x, y) && !x.dma.isIn && !y.dma.isIn && !Decode(Fetch(RamBus(), y.k).v).Slot?
    ensures OneCalms(x, y, env, junk, tail)
  {
    hide Decode, InnerLoop, Service;
    FetchFollows(x, y, junk);
  }

  lemma InstructionCalms(x: Exec<Ram>, y: Exec<Ram>, env: seq<Window>, junk: Stage, tail: seq<Window>)
    requires Follows(x, y) && !x.dma.isIn && !y.dma.isIn && AllAsk(env) && StartsOne(y, env, junk)
    ensures OneCalms(x, y, env, junk, tail)
  {
    hide Decode, Fetch, InnerLoop, Follows, AllAsk, StartsOne, OneCalms;
    var s := Decode(Fetch(RamBus(), y.k).v);
    if !s.Slot? {
      UnusedCalms(x, y, env, junk, tail);
    } else {
      InstructionIs(y, env, junk, s.op, s.mode);
      if InnerLoop(RamBus(), s.op, s.mode, Inner(Fetched1(RamBus(), y), 1, junk), env).Ended? {
        EndedCalms(s.op, s.mode, x, y, env, junk, tail);
      } else {
        HungCalms(s.op, s.mode, x, y, env, junk, tail);
      }
    }
  }

  lemma DelaysOn(x: Exec<Ram>, y: Exec<Ram>, v: Exec<Ram>, w: Exec<Ram>, a: Exec<Ram>, b: Exec<Ram>,
                 ts: seq<Stolen>, us: seq<Stolen>)
    requires Delays(x, y, v, w, ts) && Delays(v, w, a, b, us)
    ensures Delays(x, y, a, b, ts + us)
  {
    hide Follows;
    StolenConcat(ts, us);
  }

  lemma DelaysStop(x: Exec<Ram>, y: Exec<Ram>, a: Exec<Ram>, b: Exec<Ram>, ts: seq<Stolen>)
    requires Delays(x, y, a, b, ts)
    ensures Delays(x, y, LowerStop(a), LowerStop(b), ts)
  {
  }

  lemma FollowsRuns(x: Exec<Ram>, y: Exec<Ram>)
    requires Follows(x, y)
    ensures x.k == y.k && x.lines.flags.stop == y.lines.flags.stop && !x.dma.isIn && !y.dma.isIn
    ensures Delays(x, y, x, y, [])
  {
  }

  lemma DelaysFollow(x: Exec<Ram>, y: Exec<Ram>, a: Exec<Ram>, b: Exec<Ram>, ts: seq<Stolen>)
    requires Delays(x, y, a, b, ts)
    ensures Follows(a, b) && !a.dma.isIn && !b.dma.isIn
  {
  }

  ghost predicate RunCalm(x: Exec<Ram>, y: Exec<Ram>, pcEnd: nat, n: nat, env: seq<Window>, junk: nat -> Stage)
    requires !x.dma.isIn && !y.dma.isIn
  {
    var c := CalmedRun(y, pcEnd, n, env, junk);
    var a, b := StagedLoop(RamBus(), x, pcEnd, n, c.env, junk), StagedLoop(RamBus(), y, pcEnd, n, env, junk);
    && AllQuiet(c.env) && a.why == b.why && a.ran == b.ran && Delays(x, y, a.x, b.x, c.stolen)
    && (b.why.Done? || b.why.OutOfSteps? ==> Joined(c.env) + Peaceful(Joined(b.env)) == Peaceful(Joined(env)))
  }

  lemma RunEnds(x: Exec<Ram>, y: Exec<Ram>, pcEnd: nat, n: nat, env: seq<Window>, junk: nat -> Stage)
    requires Follows(x, y) && !x.dma.isIn && !y.dma.isIn
    requires y.lines.flags.stop || y.k.r.PC >= pcEnd || n == 0
    ensures RunCalm(x, y, pcEnd, n, env, junk)
  {
    hide Follows, Delays, Instruction, Peaceful;
    FollowsRuns(x, y);
    DelaysStop(x, y, x, y, []);
    assert [] + Peaceful(Joined(env)) == Peaceful(Joined(env));
  }

  // One turn of the launch loop and of what calms it.
  lemma RunTurn(x: Exec<Ram>, pcEnd: nat, n: nat, env: seq<Window>, junk: nat -> Stage)
    requires !x.dma.isIn && !x.lines.flags.stop && x.k.r.PC < pcEnd && n > 0
    ensures var t := Instruction(RamBus(), x, env, junk(n));
            && t.why != OutOfSteps && (t.why == Done ==> !t.x.dma.isIn)
            && StagedLoop(RamBus(), x, pcEnd, n, env, junk)
               == if t.why != Done then Outcome(t.why, if t.why == Illegal then LowerStop(t.x) else t.x, 0, t.env)
                  else
                    var o := StagedLoop(RamBus(), t.x, pcEnd, n - 1, t.env, junk);
                    o.(ran := o.ran + 1)
  {
    hide Instruction;
  }

  lemma CalmedTurn(x: Exec<Ram>, pcEnd: nat, n: nat, env: seq<Window>, junk: nat -> Stage)
    requires !x.dma.isIn && !x.lines.flags.stop && x.k.r.PC < pcEnd && n > 0
    ensures var t, c := Instruction(RamBus(), x, env, junk(n)), CalmedOne(x, env, junk(n));
            && (t.why == Done ==> !t.x.dma.isIn)
            && CalmedRun(x, pcEnd, n, env, junk)
               == if t.why != Done then c
                  else var r := CalmedRun(t.x, pcEnd, n - 1, t.env, junk); Calm(c.env + r.env, c.stolen + r.stolen)
  {
    hide Instruction, CalmedOne;
  }

  lemma ActsJoin(env: seq<Window>, calm: seq<Window>, later: seq<Window>, more: seq<Window>, rest: seq<Window>,
                 x: Exec<Ram>)
    requires ActsKept(env, [], calm, Ended(x, later))
    requires Joined(more) + Peaceful(Joined(rest)) == Peaceful(Joined(later))
    ensures Joined(calm + more) + Peaceful(Joined(rest)) == Peaceful(Joined(env))
  {
    JoinedConcat(calm, more);
    Regroup(Joined(calm), Joined(more), Peaceful(Joined(rest)), Peaceful(Joined(env)));
  }

  lemma Regroup(a: Window, b: Window, c: Window, d: Window)
    ensures a + b + c == a + (b + c) && [] + d == d
  {
  }

  // The instruction that stops the launch.
  lemma RunStops(x: Exec<Ram>, y: Exec<Ram>, pcEnd: nat, n: nat, env: seq<Window>, junk: nat -> Stage)
    requires Follows(x, y) && !x.dma.isIn && !y.dma.isIn
    requires !y.lines.flags.stop && y.k.r.PC < pcEnd && n > 0
    requires Instruction(RamBus(), y, env, junk(n)).why != Done && OneCalms(x, y, env, junk(n), [])
    ensures RunCalm(x, y, pcEnd, n, env, junk)
  {
    hide Follows, Delays, Instruction, CalmedOne, CalmedRun, StagedLoop, AllQuiet, LowerStop, ActsKept;
    FollowsRuns(x, y);
    var c := CalmedOne(y, env, junk(n));
    assert c.env + [] == c.env;
    var a, b := Instruction(RamBus(), x, c.env, junk(n)), Instruction(RamBus(), y, env, junk(n));
    RunTurn(x, pcEnd, n, c.env, junk);
    RunTurn(y, pcEnd, n, env, junk);
    CalmedTurn(y, pcEnd, n, env, junk);
    DelaysStop(x, y, a.x, b.x, c.stolen);
  }

  // An instruction done, and the run after it.
  lemma RunGoesOn(x: Exec<Ram>, y: Exec<Ram>, pcEnd: nat, n: nat, env: seq<Window>, junk: nat -> Stage,
                  v: Exec<Ram>, tail: seq<Window>)
    requires Follows(x, y) && !x.dma.isIn && !y.dma.isIn && !v.dma.isIn
    requires !y.lines.flags.stop && y.k.r.PC < pcEnd && n > 0
    requires var t, c := Instruction(RamBus(), y, env, junk(n)), CalmedOne(y, env, junk(n));
             && t.why == Done && !t.x.dma.isIn && OneCalms(x, y, env, junk(n), tail)
             && v == Instruction(RamBus(), x, c.env + tail, junk(n)).x
             && tail == CalmedRun(t.x, pcEnd, n - 1, t.env, junk).env
             && RunCalm(v, t.x, pcEnd, n - 1, t.env, junk)
    ensures RunCalm(x, y, pcEnd, n, env, junk)
  {
    hide Follows, Delays, Instruction, CalmedOne, CalmedRun, StagedLoop, AllQuiet, LowerStop, ActsKept;
    hide Joined, Peaceful;
    FollowsRuns(x, y);
    var t, c := Instruction(RamBus(), y, env, junk(n)), CalmedOne(y, env, junk(n));
    var r, b := CalmedRun(t.x, pcEnd, n - 1, t.env, junk), StagedLoop(RamBus(), t.x, pcEnd, n - 1, t.env, junk);
    var a := StagedLoop(RamBus(), v, pcEnd, n - 1, tail, junk);
    RunTurn(x, pcEnd, n, c.env + tail, junk);
    RunTurn(y, pcEnd, n, env, junk);
    CalmedTurn(y, pcEnd, n, env, junk);
    QuietAppend(c.env, tail);
    DelaysOn(x, y, v, t.x, a.x, b.x, c.stolen, r.stolen);
    if b.why.Done? || b.why.OutOfSteps? { ActsJoin(env, c.env, t.env, tail, b.env, t.x); }
  }

  lemma {:induction false} RunCalms(x: Exec<Ram>, y: Exec<Ram>, pcEnd: nat, n: nat, env: seq<Window>,
                                    junk: nat -> Stage)
    requires Follows(x, y) && !x.dma.isIn && !y.dma.isIn && AllAsk(env) && StartsAll(y, pcEnd, n, env, junk)
    ensures RunCalm(x, y, pcEnd, n, env, junk)
    decreases n
  {
    hide Follows, Delays, Instruction, CalmedOne, CalmedRun, AllAsk, RunCalm, StartsOne, ActsKept;
    if y.lines.flags.stop || y.k.r.PC >= pcEnd || n == 0 {
      RunEnds(x, y, pcEnd, n, env, junk);
    } else {
      var t, c := Instruction(RamBus(), y, env, junk(n)), CalmedOne(y, env, junk(n));
      if t.why != Done {
        InstructionCalms(x, y, env, junk(n), []);
        RunStops(x, y, pcEnd, n, env, junk);
      } else {
        var tail := CalmedRun(t.x, pcEnd, n - 1, t.env, junk).env;
        var v := Instruction(RamBus(), x, c.env + tail, junk(n)).x;
        InstructionCalms(x, y, env, junk(n), tail);
        DelaysFollow(x, y, v, t.x, c.stolen);
        RunCalms(v, t.x, pcEnd, n - 1, t.env, junk);
        RunGoesOn(x, y, pcEnd, n, env, junk, v, tail);
      }
    }
  }

  // Any program on memory, any state, any number of copy-outs asked for in any
  // windows of a run of any length: the run is that in the same windows without
  // those requests, cut elsewhere. It stops for the same reason after the same number of
  // instructions with the same registers, memory, caches, latches and lines and the same
  // interrupts served; the total is larger by the transfers' cycles, and every byte
  // handed over is in the count.
  lemma CopyOutsOnlyDelay(x: Exec<Ram>, pcEnd: nat, n: nat, env: seq<Window>, junk: nat -> Stage)
    requires !x.dma.isIn && !x.lines.flags.dma && AllAsk(env) && StartsAll(x, pcEnd, n, env, junk)
    ensures var c := CalmedRun(x, pcEnd, n, env, junk);
            var a, b := StagedLoop(RamBus(), x, pcEnd, n, c.env, junk), StagedLoop(RamBus(), x, pcEnd, n, env, junk);
            && AllQuiet(c.env) && a.why == b.why && a.ran == b.ran
            && a.x.k == b.x.k && a.x.latches == b.x.latches && a.x.served == b.x.served
            && a.x.lines.flags == b.x.lines.flags.(dma := false)
            && b.x.total == a.x.total + Cycles(c.stolen) && |b.x.calls| == |x.calls| + Bytes(c.stolen)
            && (b.why.Done? || b.why.OutOfSteps? ==>
                  Joined(c.env) + Peaceful(Joined(b.env)) == Peaceful(Joined(env)))
  {
    hide StagedLoop, CalmedRun, AllQuiet, Joined, Peaceful, StartsAll;
    RunCalms(x, x, pcEnd, n, env, junk);
  }

  // The same on the default bus.
  lemma CopyOutsOnDefaultBus(x: Exec<Full>, pcEnd: nat, n: nat, env: seq<Window>, junk: nat -> Stage)
    requires !x.dma.isIn && !x.lines.flags.dma && DefaultBus(x.k.m)
    requires AllAsk(env) && StartsAll(FlatExec(x), pcEnd, n, env, junk)
    ensures var c, bus := CalmedRun(FlatExec(x), pcEnd, n, env, junk), MembusOps<Memory>();
            var a, b := StagedLoop(bus, x, pcEnd, n, c.env, junk), StagedLoop(bus, x, pcEnd, n, env, junk);
            && AllQuiet(c.env) && a.why == b.why && a.ran == b.ran
            && a.x.k.r == b.x.k.r && Flat(a.x.k.m) == Flat(b.x.k.m)
            && a.x.latches == b.x.latches && a.x.served == b.x.served
            && a.x.lines.flags == b.x.lines.flags.(dma := false)
            && b.x.total == a.x.total + Cycles(c.stolen) && |b.x.calls| == |x.calls| + Bytes(c.stolen)
  {
    hide StagedLoop, CalmedRun, AllQuiet, Joined, Peaceful, StartsAll, DefaultBus, Flat;
    CopyOutsOnlyDelay(FlatExec(x), pcEnd, n, env, junk);
    LaunchIsFlat(x, pcEnd, n, env, junk);
    LaunchIsFlat(x, pcEnd, n, CalmedRun(FlatExec(x), pcEnd, n, env, junk).env, junk);
    SimParts();
  }
}
