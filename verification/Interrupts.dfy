// Interrupt and transfer requests raised by other threads, over whole runs of the
// locked staged loop.
module Interrupts {
  import opened Wrappers
  import opened Registers
  import opened Bus
  import opened Isa
  import opened Staged
  import opened Static
  import opened Agreement
  import opened Executor
  import opened Launch

  predicate HasNmi(w: Window) { exists j: nat | j < |w| :: w[j].SetNmi? }

  predicate HasIrq(w: Window) { exists j: nat | j < |w| :: w[j].SetIrq? }

  predicate HasStop(w: Window) { exists j: nat | j < |w| :: w[j].SetStop? }

  predicate NmiIn(env: seq<Window>) { exists j: nat | j < |env| :: HasNmi(env[j]) }

  predicate IrqIn(env: seq<Window>) { exists j: nat | j < |env| :: HasIrq(env[j]) }

  predicate StopIn(env: seq<Window>) { exists j: nat | j < |env| :: HasStop(env[j]) }

  function FirstRequest(w: Window): Option<Request>
    decreases |w|
  {
    if w == [] then None else if w[0].SetDma? then Some(w[0].req) else FirstRequest(w[1..])
  }

  lemma FirstOrLater(w: Window)
    requires w != []
    ensures HasNmi(w) <==> w[0].SetNmi? || HasNmi(w[1..])
    ensures HasIrq(w) <==> w[0].SetIrq? || HasIrq(w[1..])
    ensures HasStop(w) <==> w[0].SetStop? || HasStop(w[1..])
  {
    forall j: nat | 0 < j < |w| ensures w[1..][j - 1] == w[j] { }
    forall j: nat | j < |w| - 1 ensures w[1..][j] == w[j + 1] { }
  }

  // A window raises the lines it names and no others, the stop flag among them; of
  // its transfer requests the first wins if none was pending, and none has any effect
  // otherwise.
  lemma {:induction false} WindowEffect(l: Lines, w: Window)
    ensures var r := ApplyAll(l, w);
            && (r.flags.nmi <==> l.flags.nmi || HasNmi(w))
            && (r.flags.irq <==> l.flags.irq || HasIrq(w))
            && (r.flags.stop <==> l.flags.stop || HasStop(w))
            && (r.flags.dma <==> l.flags.dma || FirstRequest(w).Some?)
            && r.req == if !l.flags.dma && FirstRequest(w).Some? then FirstRequest(w).value else l.req
    decreases |w|
  {
    hide HasNmi, HasIrq, HasStop;
    if w != [] {
      WindowEffect(Apply(l, w[0]), w[1..]);
      FirstOrLater(w);
    } else {
      NoneNamed();
    }
  }

  lemma NoneNamed()
    ensures !HasNmi([]) && !HasIrq([]) && !HasStop([])
  {
  }

  lemma RaisedInCons(w: Window, env: seq<Window>)
    ensures NmiIn([w] + env) <==> HasNmi(w) || NmiIn(env)
    ensures IrqIn([w] + env) <==> HasIrq(w) || IrqIn(env)
    ensures StopIn([w] + env) <==> HasStop(w) || StopIn(env)
  {
    hide HasNmi, HasIrq, HasStop;
    var all := [w] + env;
    assert all[0] == w;
    forall j: nat | j < |env| ensures all[j + 1] == env[j] { }
  }

  // What the inner loop has taken of the environment.
  function Taken(env: seq<Window>, rest: seq<Window>): seq<Window>
    requires |rest| <= |env|
  {
    env[..|env| - |rest|]
  }

  ghost predicate Suffix(rest: seq<Window>, env: seq<Window>) { |rest| <= |env| && Taken(env, rest) + rest == env }

  // Of the lines a transfer touches only its own flag.
  lemma DmaKeepsFlags<M>(bus: BusOps<M>, i: Inner<M>)
    ensures var x, y := i.x, DmaCycle(bus, i).x;
            y.lines.flags == x.lines.flags.(dma := y.lines.flags.dma) && y.served == x.served
  {
  }

  lemma PassKeepsFlags<M>(bus: BusOps<M>, op: Op, m: Mode, i: Inner<M>)
    ensures var f, g := i.x.lines.flags, Pass(bus, op, m, i).x.lines.flags;
            f.nmi == g.nmi && f.irq == g.irq && f.stop == g.stop
    ensures Pass(bus, op, m, i).x.served == i.x.served
  {
    hide Pass, DmaCycle, Step;
    PassCases(bus, op, m, i);
    DmaKeepsFlags(bus, if i.x.dma.isIn then i else EnterDma(bus, i));
  }

  // From `f` to `g`, each line is up if it was or was raised in a window.
  ghost predicate Raised(f: Flags, g: Flags, env: seq<Window>) {
    && (g.nmi <==> f.nmi || NmiIn(env)) && (g.irq <==> f.irq || IrqIn(env)) && (g.stop <==> f.stop || StopIn(env))
  }

  ghost predicate Collected<M>(f: Flags, env: seq<Window>, e: Ended<M>)
    requires e.Ended?
  {
    Suffix(e.env, env) && Raised(f, e.x.lines.flags, Taken(env, e.env))
  }

  ghost predicate Collects<M>(i: Inner<M>, env: seq<Window>, e: Ended<M>) {
    e.x.served == i.x.served && (e.Ended? ==> Collected(i.x.lines.flags, env, e))
  }

  lemma CollectsNow<M>(p: Inner<M>, rest: seq<Window>)
    ensures Collects(p, rest, Ended(p.x, rest))
  {
    assert Taken(rest, rest) == [];
  }

  lemma CollectsBefore<M>(bus: BusOps<M>, op: Op, m: Mode, i: Inner<M>, env: seq<Window>, e: Ended<M>)
    requires Collects(Pass(bus, op, m, Opened(i, env)), EnvAfter(i, env), e)
    ensures Collects(i, env, e)
  {
    hide Pass, ApplyAll, HasNmi, HasIrq, HasStop, NmiIn, IrqIn, StopIn, Suffix, Taken;
    PassKeepsFlags(bus, op, m, Opened(i, env));
    if e.Ended? {
      if env != [] { WindowEffect(i.x.lines, env[0]); }
      TakenStep(i, env, e.env);
    }
  }

  // Up to its end an instruction serves nothing and loses nothing: a line is up
  // then if and only if it was up before or was raised in one of the windows.
  lemma {:induction false} LoopCollects<M>(bus: BusOps<M>, op: Op, m: Mode, i: Inner<M>, env: seq<Window>)
    requires Sound(i.x)
    ensures Collects(i, env, InnerLoop(bus, op, m, i, env))
    decreases |env|, Pending(i.x), 7 - i.cycle
  {
    hide InnerLoop, Pass, Sound, Pending, Opened, EnvAfter, Collects;
    var o, rest := Opened(i, env), EnvAfter(i, env);
    OpenedKeeps(i, env);
    LoopTurn(bus, op, m, i, env);
    if !o.x.dma.isIn && !o.x.lines.flags.dma && o.cycle > 6 {
      OverrunServes(i, env);
    } else {
      var p := Pass(bus, op, m, o);
      PassDecreases(bus, op, m, o);
      if p.next == End { CollectsNow(p, rest); } else { LoopCollects(bus, op, m, p, rest); }
      CollectsBefore(bus, op, m, i, env, InnerLoop(bus, op, m, i, env));
    }
  }

  lemma OverrunServes<M>(i: Inner<M>, env: seq<Window>)
    ensures Collects(i, env, Overrun(Opened(i, env).x))
  {
  }

  lemma TakenStep<M>(i: Inner<M>, env: seq<Window>, rest: seq<Window>)
    requires Suffix(rest, EnvAfter(i, env))
    ensures Suffix(rest, env)
    ensures i.x.dma.isIn || env == [] ==> Taken(env, rest) == Taken(EnvAfter(i, env), rest)
    ensures !i.x.dma.isIn && env != [] ==> (NmiIn(Taken(env, rest)) <==> HasNmi(env[0]) || NmiIn(Taken(env[1..], rest)))
    ensures !i.x.dma.isIn && env != [] ==> (IrqIn(Taken(env, rest)) <==> HasIrq(env[0]) || IrqIn(Taken(env[1..], rest)))
    ensures !i.x.dma.isIn && env != []
            ==> (StopIn(Taken(env, rest)) <==> HasStop(env[0]) || StopIn(Taken(env[1..], rest)))
  {
    hide HasNmi, HasIrq, HasStop;
    if !i.x.dma.isIn && env != [] {
      assert Taken(env, rest) == [env[0]] + Taken(env[1..], rest);
      RaisedInCons(env[0], Taken(env[1..], rest));
    }
  }

  // ---- Interrupt entry -----------------------------------------------------

  lemma IrqPush<M>(bus: BusOps<M>, m: Mode, c: Cpu<M>) returns (s1: Cpu<M>, s2: Cpu<M>, s3: Cpu<M>)
    requires !c.k.r.SR.I
    ensures StepControl(bus, IRQ, m, 1, c) == Stepped(s1, false)
    ensures StepControl(bus, IRQ, m, 2, s1) == Stepped(s2, false)
    ensures StepControl(bus, IRQ, m, 3, s2) == Stepped(s3, false)
    ensures s3.k == Interrupted(bus, c.k)
  {
    hide Pack;
    s1 := StepControl(bus, IRQ, m, 1, c).c;
    s2 := StepControl(bus, IRQ, m, 2, s1).c;
    s3 := StepControl(bus, IRQ, m, 3, s2).c;
  }

  lemma IrqGivesUp<M>(bus: BusOps<M>, m: Mode, cycle: nat, c: Cpu<M>)
    requires c.k.r.SR.I
    ensures StepControl(bus, IRQ, m, cycle, c) == Stepped(c, true)
  {
  }

  lemma InterruptedInhibits<M>(bus: BusOps<M>, k: Core<M>)
    ensures Interrupted(bus, k).r.SR.I && Interrupted(bus, k).r.PC == k.r.PC
  {
  }

  // The staged request handler sets the inhibit flag in its third call and then
  // meets its own test of that flag: it ends in the fourth call, and PC is never
  // loaded from the vector.
  lemma IrqEntry<M>(bus: BusOps<M>, m: Mode, c: Cpu<M>)
    requires !c.k.r.SR.I
    ensures var d := Drive(bus, Control(IRQ), m, 1, c);
            d.Driven? && d.calls == 4 && d.c.k == Interrupted(bus, c.k) && d.c.k.r.PC == c.k.r.PC
  {
    var s1, s2, s3 := IrqPush(bus, m, c);
    InterruptedInhibits(bus, c.k);
    IrqGivesUp(bus, m, 4, s3);
    GoesTo(bus, IRQ, m, 1, c, s1);
    GoesTo(bus, IRQ, m, 2, s1, s2);
    GoesTo(bus, IRQ, m, 3, s2, s3);
    EndsIn(bus, IRQ, m, 4, s3, s3);
  }

  function ServedBy(f: Flags, s: Status): seq<ControlOp> {
    (if f.irq && !s.I then [IRQ] else []) + (if f.nmi then [NMI] else [])
  }

  // Exactly what happens after an instruction. A request raised while interrupts
  // are inhibited is dropped: nothing but its line changes.
  lemma ServiceEffect<M>(bus: BusOps<M>, m: Mode, x: Exec<M>)
    ensures var f, y := x.lines.flags, Service(bus, m, x);
            var k1 := if f.irq && !x.k.r.SR.I then Interrupted(bus, x.k) else x.k;
            && y.k == (if f.nmi then RunInterrupt(bus, k1, NMI_VECTOR).k else k1)
            && y.total == x.total + (if f.irq && !x.k.r.SR.I then 4 else 0) + (if f.nmi then 5 else 0)
            && y.served == x.served + ServedBy(f, x.k.r.SR)
            && y.lines == x.lines.(flags := f.(irq := false, nmi := false)) && y.dma == x.dma && y.calls == x.calls
            && (forall op: Op | op != Control(NMI) && op != Control(IRQ) ::
                  LatchOf(y.latches, op) == LatchOf(x.latches, op))
            && (f.nmi ==> LatchOf(y.latches, Control(NMI)).addr16 == y.k.r.PC)
  {
    hide Serve, Interrupted, RunInterrupt, LatchOf;
    var f := x.lines.flags;
    var y := if f.irq && !x.k.r.SR.I then Serve(bus, IRQ, m, x) else x;
    if f.irq && !x.k.r.SR.I {
      ServeIrq(bus, m, x);
    }
    if f.nmi {
      ServeNmi(bus, m, y);
    }
    assert x.served + [] == x.served;
  }

  // Everything but registers, bus, latches, count and record is left alone.
  ghost predicate Serves<M>(x: Exec<M>, y: Exec<M>, op: ControlOp, k: Core<M>, calls: nat) {
    && y == x.(k := k, latches := y.latches, total := x.total + calls, served := x.served + [op])
    && (forall o: Op | o != Control(op) :: LatchOf(y.latches, o) == LatchOf(x.latches, o))
    && (op.NMI? ==> LatchOf(y.latches, Control(op)).addr16 == y.k.r.PC)
  }

  lemma ServeIrq<M>(bus: BusOps<M>, m: Mode, x: Exec<M>)
    requires !x.k.r.SR.I
    ensures Serves(x, Serve(bus, IRQ, m, x), IRQ, Interrupted(bus, x.k), 4)
  {
    IrqEntry(bus, m, Cpu(x.k, LatchOf(x.latches, Control(IRQ))));
  }

  lemma ServeNmi<M>(bus: BusOps<M>, m: Mode, x: Exec<M>)
    ensures Serves(x, Serve(bus, NMI, m, x), NMI, RunInterrupt(bus, x.k, NMI_VECTOR).k, 5)
  {
    hide Drive, Interrupted, Vector;
    var c := Cpu(x.k, LatchOf(x.latches, Control(NMI)));
    AgreeNmi(bus, m, c);
    LoadsFromLatch(bus, m, 1, c);
  }

  // The vector goes to PC through the handler's local.
  lemma {:induction false} LoadsFromLatch<M>(bus: BusOps<M>, m: Mode, cycle: nat, c: Cpu<M>)
    ensures var d := Drive(bus, Control(NMI), m, cycle, c); d.Driven? ==> d.c.l.addr16 == d.c.k.r.PC
    decreases 7 - cycle
  {
    hide PerformControl;
    if cycle <= 6 {
      var s := Step(bus, Control(NMI), m, cycle, c);
      if !s.ended { LoadsFromLatch(bus, m, cycle + 1, s.c); }
    }
  }

  // ---- Whole runs ----------------------------------------------------------

  function Nmis(served: seq<ControlOp>): nat {
    if served == [] then 0 else (if served[|served| - 1].NMI? then 1 else 0) + Nmis(served[..|served| - 1])
  }

  lemma NmisServed(served: seq<ControlOp>, f: Flags, s: Status)
    ensures Nmis(served + ServedBy(f, s)) == Nmis(served) + (if f.nmi then 1 else 0)
  {
    var irq := if f.irq && !s.I then [IRQ] else [];
    var all := served + ServedBy(f, s);
    assert f.nmi ==> all[..|all| - 1] == served + irq;
    assert !f.nmi ==> all == served + irq;
    assert (served + [IRQ])[..|served|] == served;
    assert served + [] == served;
  }

  // One completed instruction, with every window from its first call to the one
  // that closes it: the non-maskable handler is entered once if the line was
  // raised anywhere in them, however often, and not at all otherwise; the line
  // is then down. The stop flag stays up if it was raised.
  lemma InstructionServes<M>(bus: BusOps<M>, x: Exec<M>, env: seq<Window>, junk: Stage)
    requires !x.dma.isIn
    ensures var t := Instruction(bus, x, env, junk);
            && (t.why == Done ==> Suffix(t.env, env) && !t.x.lines.flags.nmi)
            && (t.why == Done ==> Nmis(t.x.served) == Nmis(x.served)
                                  + (if x.lines.flags.nmi || NmiIn(Taken(env, t.env)) then 1 else 0))
            && (t.why == Done ==> (t.x.lines.flags.stop <==> x.lines.flags.stop || StopIn(Taken(env, t.env))))
            && (t.why != Done ==> t.x.served == x.served)
  {
    hide Decode, Service, InnerLoop, Fetch, NmiIn, IrqIn, StopIn, Nmis;
    var y := Fetched1(bus, x);
    var s := Decode(Fetch(bus, x.k).v);
    if s.Slot? {
      var i := Inner(y, 1, junk);
      LoopCollects(bus, s.op, s.mode, i, env);
      var e := InnerLoop(bus, s.op, s.mode, i, env);
      if e.Ended? {
        var z := CloseWindow(e.x, e.env);
        ClosingWindow(x.lines.flags, e.x, env, e.env);
        ServiceEffect(bus, s.mode, z);
        NmisServed(z.served, z.lines.flags, z.k.r.SR);
      }
    }
  }

  lemma ClosingWindow<M>(f: Flags, x: Exec<M>, env: seq<Window>, rest: seq<Window>)
    requires Suffix(rest, env) && Raised(f, x.lines.flags, Taken(env, rest))
    ensures var last := if rest == [] then [] else rest[1..];
            Suffix(last, env) && Raised(f, CloseWindow(x, rest).lines.flags, Taken(env, last))
  {
    hide ApplyAll, HasNmi, HasIrq, HasStop, NmiIn, IrqIn, StopIn;
    if rest != [] {
      WindowEffect(x.lines, rest[0]);
      var before, last := Taken(env, rest), rest[1..];
      assert Taken(env, last) == before + [rest[0]];
      RaisedInSnoc(before, rest[0]);
    }
  }

  lemma RaisedInSnoc(env: seq<Window>, w: Window)
    ensures NmiIn(env + [w]) <==> NmiIn(env) || HasNmi(w)
    ensures IrqIn(env + [w]) <==> IrqIn(env) || HasIrq(w)
    ensures StopIn(env + [w]) <==> StopIn(env) || HasStop(w)
  {
    hide HasNmi, HasIrq, HasStop;
    var all := env + [w];
    assert all[|env|] == w;
    forall j: nat | j < |env| ensures all[j] == env[j] { }
  }

  // The windows of each completed instruction of a run.
  function Slices<M>(bus: BusOps<M>, x: Exec<M>, pcEnd: nat, n: nat, env: seq<Window>, junk: nat -> Stage)
    : seq<seq<Window>>
    requires !x.dma.isIn
    decreases n
  {
    if x.lines.flags.stop || x.k.r.PC >= pcEnd || n == 0 then []
    else
      var t := Instruction(bus, x, env, junk(n));
      if t.why != Done || |t.env| > |env| then []
      else [Taken(env, t.env)] + Slices(bus, t.x, pcEnd, n - 1, t.env, junk)
  }

  function Raising(slices: seq<seq<Window>>): nat {
    if slices == [] then 0 else (if NmiIn(slices[0]) then 1 else 0) + Raising(slices[1..])
  }

  function Flat(slices: seq<seq<Window>>): seq<Window> {
    if slices == [] then [] else slices[0] + Flat(slices[1..])
  }

  // Over a run of any length under any environment: the instructions partition
  // the windows used, and the non-maskable handler has been entered exactly once
  // for every instruction in whose windows the line was raised. None is lost,
  // none is served twice, and none is pending when the loop stops between
  // instructions.
  lemma {:induction false} RunServesEveryNmi<M>(bus: BusOps<M>, x: Exec<M>, pcEnd: nat, n: nat, env: seq<Window>,
                                                junk: nat -> Stage)
    requires !x.dma.isIn && !x.lines.flags.nmi
    ensures var o, slices := StagedLoop(bus, x, pcEnd, n, env, junk), Slices(bus, x, pcEnd, n, env, junk);
            && |slices| == o.ran
            && Nmis(o.x.served) == Nmis(x.served) + Raising(slices)
            && (o.why.Done? || o.why.OutOfSteps? ==> !o.x.lines.flags.nmi && Flat(slices) + o.env == env)
    decreases n
  {
    hide Instruction;
    if !x.lines.flags.stop && x.k.r.PC < pcEnd && n > 0 {
      InstructionServes(bus, x, env, junk(n));
      var t := Instruction(bus, x, env, junk(n));
      if t.why == Done {
        RunServesEveryNmi(bus, t.x, pcEnd, n - 1, t.env, junk);
        RunGoesOn(bus, x, pcEnd, n, env, junk, t);
        SlicesCons(Taken(env, t.env), Slices(bus, t.x, pcEnd, n - 1, t.env, junk),
                   StagedLoop(bus, t.x, pcEnd, n - 1, t.env, junk).env);
      }
    }
  }

  lemma RunGoesOn<M>(bus: BusOps<M>, x: Exec<M>, pcEnd: nat, n: nat, env: seq<Window>, junk: nat -> Stage, t: Turn<M>)
    requires !x.dma.isIn && !x.lines.flags.stop && x.k.r.PC < pcEnd && n > 0
    requires t == Instruction(bus, x, env, junk(n)) && t.why == Done && |t.env| <= |env|
    ensures var o := StagedLoop(bus, t.x, pcEnd, n - 1, t.env, junk);
            StagedLoop(bus, x, pcEnd, n, env, junk) == o.(ran := o.ran + 1)
    ensures Slices(bus, x, pcEnd, n, env, junk) == [Taken(env, t.env)] + Slices(bus, t.x, pcEnd, n - 1, t.env, junk)
  {
  }

  lemma SlicesCons(first: seq<Window>, rest: seq<seq<Window>>, env: seq<Window>)
    ensures Raising([first] + rest) == (if NmiIn(first) then 1 else 0) + Raising(rest)
    ensures Flat([first] + rest) + env == first + (Flat(rest) + env)
  {
    assert ([first] + rest)[1..] == rest;
  }

  // ---- Stopping ------------------------------------------------------------

  // A run completes no instruction after the first one in whose windows a stop was
  // asked for, and that one ends it: done, with the flag down. A run that is done
  // otherwise has reached the end of its range.
  lemma {:induction false} RunStops<M>(bus: BusOps<M>, x: Exec<M>, pcEnd: nat, n: nat, env: seq<Window>,
                                       junk: nat -> Stage)
    requires !x.dma.isIn && !x.lines.flags.stop
    ensures var o, slices := StagedLoop(bus, x, pcEnd, n, env, junk), Slices(bus, x, pcEnd, n, env, junk);
            && |slices| == o.ran
            && (forall i: nat | i < |slices| - 1 :: !StopIn(slices[i]))
            && (slices != [] && StopIn(slices[|slices| - 1]) ==> o.why == Done)
            && (o.why == Done ==> o.x.k.r.PC >= pcEnd || (slices != [] && StopIn(slices[|slices| - 1])))
            && (o.why != Hung && o.why != NullHandler ==> !o.x.lines.flags.stop)
    decreases n
  {
    hide Instruction, StopIn;
    if x.k.r.PC < pcEnd && n > 0 {
      InstructionServes(bus, x, env, junk(n));
      var t := Instruction(bus, x, env, junk(n));
      if t.why == Done {
        RunGoesOn(bus, x, pcEnd, n, env, junk, t);
        if t.x.lines.flags.stop {
          RunEnds(bus, t.x, pcEnd, n - 1, t.env, junk);
        } else {
          RunStops(bus, t.x, pcEnd, n - 1, t.env, junk);
        }
      }
    }
  }

  // At or past the end of the range nothing runs.
  lemma NothingRunsPastEnd<M>(bus: BusOps<M>, x: Exec<M>, pcEnd: nat, n: nat, env: seq<Window>, junk: nat -> Stage)
    requires !x.dma.isIn && x.k.r.PC >= pcEnd
    ensures var o := StagedLoop(bus, x, pcEnd, n, env, junk);
            o.why == Done && o.ran == 0 && o.env == env && o.x.k == x.k && o.x.total == x.total && !o.x.lines.flags.stop
  {
  }

  lemma RunEnds<M>(bus: BusOps<M>, x: Exec<M>, pcEnd: nat, n: nat, env: seq<Window>, junk: nat -> Stage)
    requires !x.dma.isIn && x.lines.flags.stop
    ensures StagedLoop(bus, x, pcEnd, n, env, junk) == Outcome(Done, LowerStop(x), 0, env)
    ensures Slices(bus, x, pcEnd, n, env, junk) == []
  {
  }

  // A stop asked for in the windows of the j-th instruction: the run ends there.
  lemma StopEndsRun<M>(bus: BusOps<M>, x: Exec<M>, pcEnd: nat, n: nat, env: seq<Window>, junk: nat -> Stage, j: nat)
    requires !x.dma.isIn && !x.lines.flags.stop
    requires var slices := Slices(bus, x, pcEnd, n, env, junk); 1 <= j <= |slices| && StopIn(slices[j - 1])
    ensures var o := StagedLoop(bus, x, pcEnd, n, env, junk); o.why == Done && o.ran == j && !o.x.lines.flags.stop
  {
    hide StopIn, Slices, StagedLoop;
    RunStops(bus, x, pcEnd, n, env, junk);
  }
}
