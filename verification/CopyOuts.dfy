// Copy-outs asked for in any windows of one instruction: what it would have been
// without them, but for the cycles stolen. `CopyOutRuns` carries this over to runs.
module CopyOuts {
  import opened Isa
  import opened Staged
  import opened Executor
  import opened DmaTransfer
  import opened Ram
  import opened Transparency

  // ---- The environment without its requests --------------------------------

  predicate Asks(w: Window) { forall j: nat | j < |w| :: w[j].SetDma? ==> w[j].req.party.Consuming? }

  predicate AllAsk(env: seq<Window>) { forall j: nat | j < |env| :: Asks(env[j]) }

  // The calls of a window but for its transfer requests.
  function Peaceful(w: Window): Window
    decreases |w|
  {
    if w == [] then [] else (if w[0].SetDma? then [] else [w[0]]) + Peaceful(w[1..])
  }

  function Joined(env: seq<Window>): Window
    decreases |env|
  {
    if env == [] then [] else env[0] + Joined(env[1..])
  }

  function Head(env: seq<Window>): Window { if env == [] then [] else env[0] }

  function Tail(env: seq<Window>): seq<Window> { if env == [] then [] else env[1..] }

  lemma {:induction false} PeacefulConcat(v: Window, w: Window)
    ensures Peaceful(v + w) == Peaceful(v) + Peaceful(w)
    decreases |v|
  {
    if v == [] {
      assert v + w == w;
    } else {
      assert (v + w)[1..] == v[1..] + w;
      PeacefulConcat(v[1..], w);
    }
  }

  lemma JoinedFirst(env: seq<Window>)
    ensures Peaceful(Joined(env)) == Peaceful(Head(env)) + Peaceful(Joined(Tail(env)))
    ensures AllAsk(env) ==> Asks(Head(env)) && AllAsk(Tail(env))
  {
    if env != [] { PeacefulConcat(env[0], Joined(env[1..])); }
  }

  lemma {:induction false} JoinedConcat(env: seq<Window>, rest: seq<Window>)
    ensures Joined(env + rest) == Joined(env) + Joined(rest)
    decreases |env|
  {
    if env == [] {
      assert env + rest == rest;
    } else {
      assert (env + rest)[1..] == env[1..] + rest;
      JoinedConcat(env[1..], rest);
    }
  }

  lemma {:induction false} ApplyConcat(l: Lines, v: Window, w: Window)
    ensures ApplyAll(l, v + w) == ApplyAll(ApplyAll(l, v), w)
    decreases |v|
  {
    if v == [] {
      assert v + w == w;
    } else {
      assert (v + w)[1..] == v[1..] + w;
      ApplyConcat(Apply(l, v[0]), v[1..], w);
    }
  }

  // The same lines, except that the second may have a copy-out pending.
  predicate Calmer(l: Lines, l': Lines) {
    l.flags == l'.flags.(dma := false) && (l'.flags.dma ==> l'.req.party.Consuming?)
  }

  lemma {:induction false} PeacefulCalms(l: Lines, l': Lines, w: Window)
    requires Calmer(l, l') && Asks(w)
    ensures Calmer(ApplyAll(l, Peaceful(w)), ApplyAll(l', w)) && Quiet(Peaceful(w))
    decreases |w|
  {
    if w != [] {
      var rest := w[1..];
      assert Asks(rest);
      if w[0].SetDma? {
        assert Peaceful(w) == Peaceful(rest);
        PeacefulCalms(l, Apply(l', w[0]), rest);
      } else {
        assert Peaceful(w)[1..] == Peaceful(rest);
        PeacefulCalms(Apply(l, w[0]), Apply(l', w[0]), rest);
      }
    }
  }

  // ---- What is stolen ------------------------------------------------------

  // A transfer: the count at which it seized the bus and the bytes it handed over.
  datatype Stolen = Stolen(start: nat, bytes: nat)

  // Two cycles a byte, and a stall from an odd count.
  function Cycles(ts: seq<Stolen>): nat {
    if ts == [] then 0 else 2 * ts[0].bytes + ts[0].start % 2 + Cycles(ts[1..])
  }

  function Bytes(ts: seq<Stolen>): nat { if ts == [] then 0 else ts[0].bytes + Bytes(ts[1..]) }

  lemma {:induction false} StolenConcat(ts: seq<Stolen>, us: seq<Stolen>)
    ensures Cycles(ts + us) == Cycles(ts) + Cycles(us) && Bytes(ts + us) == Bytes(ts) + Bytes(us)
    decreases |ts|
  {
    if ts == [] {
      assert ts + us == us;
    } else {
      assert (ts + us)[1..] == ts[1..] + us;
      StolenConcat(ts[1..], us);
    }
  }

  // An environment without requests, one window to each handler call, and the
  // transfers that are not made in it.
  datatype Calm = Calm(env: seq<Window>, stolen: seq<Stolen>)

  function After(j: Inner<Ram>): Inner<Ram>
    requires !j.x.dma.isIn && j.x.lines.flags.dma
    ensures !After(j).x.dma.isIn && !After(j).x.lines.flags.dma
  {
    Transfer(RamBus(), j);
    DmaLoop(RamBus(), EnterDma(RamBus(), j))
  }

  // Where the loop makes a transfer, the calls of its window join those of the next.
  function Calmed(op: Op, m: Mode, j: Inner<Ram>, env: seq<Window>, held: Window): Calm
    requires !j.x.dma.isIn
    decreases |env|, Pending(j.x), 7 - j.cycle
  {
    var o, w := Opened(j, env), held + Peaceful(Head(env));
    if o.x.lines.flags.dma then
      var p := After(o);
      if p.next == End then Calm([w], [])
      else
        var c := Calmed(op, m, p, Tail(env), w);
        Calm(c.env, [Stolen(o.x.total, Handed(o, p))] + c.stolen)
    else if o.cycle > 6 then Calm([w], [])
    else
      var p := HandlerCall(RamBus(), op, m, o);
      if p.next == End then Calm([w], [])
      else
        var c := Calmed(op, m, p, Tail(env), []);
        Calm([w] + c.env, c.stolen)
  }

  function Handed(o: Inner<Ram>, p: Inner<Ram>): nat {
    if |p.x.calls| >= |o.x.calls| then |p.x.calls| - |o.x.calls| else 0
  }

  // ---- One instruction -----------------------------------------------------

  // Alike in all that programs and callers can see, and the cycle count apart.
  ghost predicate Follows(x: Exec<Ram>, y: Exec<Ram>) {
    && x.k == y.k && x.latches == y.latches && x.served == y.served
    && Calmer(x.lines, y.lines) && !x.dma.isIn && !y.dma.isIn
  }

  // The first lags behind by the calls of `held`.
  ghost predicate Lags(i: Inner<Ram>, j: Inner<Ram>, held: Window) {
    && Quiet(held) && i.cycle == j.cycle && !i.x.lines.flags.dma
    && Follows(i.x.(lines := ApplyAll(i.x.lines, held)), j.x)
  }

  lemma QuietConcat(v: Window, w: Window)
    requires Quiet(v) && Quiet(w)
    ensures Quiet(v + w)
  {
  }

  lemma WindowLags(i: Inner<Ram>, j: Inner<Ram>, env: seq<Window>, held: Window)
    requires Lags(i, j, held) && AllAsk(env)
    ensures Lags(i, Opened(j, env), held + Peaceful(Head(env)))
    ensures EnvAfter(j, env) == Tail(env) && AllAsk(Tail(env))
  {
    hide ApplyAll;
    var l := ApplyAll(i.x.lines, held);
    JoinedFirst(env);
    PeacefulCalms(l, j.x.lines, Head(env));
    ApplyConcat(i.x.lines, held, Peaceful(Head(env)));
    QuietConcat(held, Peaceful(Head(env)));
    NothingApplied(j.x.lines);
  }

  lemma NothingApplied(l: Lines)
    ensures ApplyAll(l, []) == l
  {
  }

  // The calm loop at the same point opens a window with the calls held back.
  lemma OpensHeld(i: Inner<Ram>, j: Inner<Ram>, held: Window, rest: seq<Window>)
    requires Lags(i, j, held) && !j.x.lines.flags.dma
    ensures var o, env := Opened(i, [held] + rest), [held] + rest;
            && Follows(o.x, j.x) && o.x.lines.flags == j.x.lines.flags && !o.x.lines.flags.dma
            && o.cycle == i.cycle && o.x.total == i.x.total && EnvAfter(i, env) == rest
  {
    hide ApplyAll;
    assert ([held] + rest)[1..] == rest;
  }

  lemma CallFollows(op: Op, m: Mode, i: Inner<Ram>, j: Inner<Ram>)
    requires Follows(i.x, j.x) && i.cycle == j.cycle && !j.x.lines.flags.dma
    ensures var p, q := HandlerCall(RamBus(), op, m, i), HandlerCall(RamBus(), op, m, j);
            && Lags(p, q, []) && Follows(p.x, q.x) && p.next == q.next && !q.x.lines.flags.dma
            && p.x.total == i.x.total + 1 && q.x.total == j.x.total + 1 && q.x.calls == j.x.calls
  {
    hide Step;
    NothingApplied(i.x.lines);
  }

  // The two loops end alike, with the same windows left to the calm one as it had
  // behind the instruction's own, and the difference in cycles is what was stolen.
  ghost predicate Settles(i: Inner<Ram>, j: Inner<Ram>, a: Ended<Ram>, b: Ended<Ram>, stolen: seq<Stolen>,
                          tail: seq<Window>) {
    && a.Ended? == b.Ended? && (a.Ended? ==> a.env == tail && AllAsk(b.env))
    && Follows(a.x, b.x) && !b.x.lines.flags.dma
    && b.x.total + i.x.total == a.x.total + j.x.total + Cycles(stolen)
    && |b.x.calls| == |j.x.calls| + Bytes(stolen)
  }

  // Nothing a handler has not yet been called for is skipped.
  predicate Starts(j: Inner<Ram>, env: seq<Window>) { j.next == End ==> !Opened(j, env).x.lines.flags.dma }

  // A transfer made.
  lemma AfterLags(i: Inner<Ram>, o: Inner<Ram>, held: Window)
    requires Lags(i, o, held) && o.x.lines.flags.dma
    ensures var p := After(o);
            && Lags(i, p, held) && p.next == o.next && p == DmaLoop(RamBus(), EnterDma(RamBus(), o))
            && p.x.total == o.x.total + Cycles([Stolen(o.x.total, Handed(o, p))])
            && |p.x.calls| == |o.x.calls| + Handed(o, p)
  {
    hide DmaLoop, EnterDma, ApplyAll;
    CopyOutLeaves(o);
  }

  lemma SettlesAfter(i: Inner<Ram>, j: Inner<Ram>, p: Inner<Ram>, a: Ended<Ram>, b: Ended<Ram>, t: Stolen,
                     stolen: seq<Stolen>, tail: seq<Window>)
    requires p.x.total == j.x.total + Cycles([t]) && |p.x.calls| == |j.x.calls| + t.bytes
    requires Settles(i, p, a, b, stolen, tail)
    ensures Settles(i, j, a, b, [t] + stolen, tail)
  {
    hide Follows, AllAsk;
    StolenConcat([t], stolen);
    assert [t][1..] == [];
  }

  // A handler called.
  lemma SettlesBefore(i: Inner<Ram>, j: Inner<Ram>, p: Inner<Ram>, q: Inner<Ram>, a: Ended<Ram>, b: Ended<Ram>,
                      stolen: seq<Stolen>, tail: seq<Window>)
    requires p.x.total == i.x.total + 1 && q.x.total == j.x.total + 1 && |q.x.calls| == |j.x.calls|
    requires Settles(p, q, a, b, stolen, tail)
    ensures Settles(i, j, a, b, stolen, tail)
  {
    hide Follows, AllAsk;
  }

  lemma SettlesNow(p: Inner<Ram>, q: Inner<Ram>, rest: seq<Window>, tail: seq<Window>)
    requires Follows(p.x, q.x) && !q.x.lines.flags.dma && AllAsk(rest)
    ensures Settles(p, q, Ended(p.x, tail), Ended(q.x, rest), [], tail)
    ensures Settles(p, q, Overrun(p.x), Overrun(q.x), [], tail)
  {
  }

  lemma QuietCons(w: Window, env: seq<Window>)
    requires Quiet(w) && AllQuiet(env)
    ensures AllQuiet([w] + env)
  {
  }

  // The calm loop's handler call after a window.
  function CalmCall(op: Op, m: Mode, i: Inner<Ram>, w: Window): Inner<Ram> {
    HandlerCall(RamBus(), op, m, WithLines(i, ApplyAll(i.x.lines, w)))
  }

  // Both loops call the handler, the calm one with `more` left behind its window.
  lemma CallTurns(op: Op, m: Mode, i: Inner<Ram>, j: Inner<Ram>, env: seq<Window>, w: Window, more: seq<Window>)
    requires Lags(i, Opened(j, env), w) && !j.x.dma.isIn
    requires !Opened(j, env).x.lines.flags.dma && j.cycle <= 6
    ensures var p, q := CalmCall(op, m, i, w), HandlerCall(RamBus(), op, m, Opened(j, env));
            && !p.x.dma.isIn && !q.x.dma.isIn && !i.x.dma.isIn
            && Lags(p, q, []) && Follows(p.x, q.x) && p.next == q.next && !q.x.lines.flags.dma
            && p.x.total == i.x.total + 1 && q.x.total == j.x.total + 1 && q.x.calls == j.x.calls
            && InnerLoop(RamBus(), op, m, i, [w] + more)
               == (if p.next == End then Ended(p.x, more) else InnerLoop(RamBus(), op, m, p, more))
            && InnerLoop(RamBus(), op, m, j, env)
               == (if q.next == End then Ended(q.x, Tail(env)) else InnerLoop(RamBus(), op, m, q, Tail(env)))
  {
    hide InnerLoop, HandlerCall, ApplyAll;
    var o := Opened(j, env);
    OpensHeld(i, o, w, more);
    LoopCalls(RamBus(), op, m, i, [w] + more);
    LoopCalls(RamBus(), op, m, j, env);
    CallFollows(op, m, Opened(i, [w] + more), o);
  }

  lemma LagsQuiet(i: Inner<Ram>, j: Inner<Ram>, held: Window)
    requires Lags(i, j, held)
    ensures Quiet(held) && AllQuiet([held]) && i.cycle == j.cycle && !i.x.dma.isIn && !j.x.dma.isIn
  {
  }

  // The calm loop in the environment `c`, and `tail` behind it, settles.
  ghost predicate Calms(op: Op, m: Mode, i: Inner<Ram>, j: Inner<Ram>, env: seq<Window>, tail: seq<Window>, c: Calm)
    requires !i.x.dma.isIn && !j.x.dma.isIn
  {
    && AllQuiet(c.env)
    && Settles(i, j, InnerLoop(RamBus(), op, m, i, c.env + tail), InnerLoop(RamBus(), op, m, j, env), c.stolen, tail)
  }

  lemma TransferCalms(op: Op, m: Mode, i: Inner<Ram>, j: Inner<Ram>, env: seq<Window>, w: Window, tail: seq<Window>,
                      c: Calm)
    requires !i.x.dma.isIn && !j.x.dma.isIn && j.next != End
    requires Lags(i, Opened(j, env), w) && Opened(j, env).x.lines.flags.dma
    requires Calms(op, m, i, After(Opened(j, env)), Tail(env), tail, c)
    ensures var o := Opened(j, env);
            Calms(op, m, i, j, env, tail, Calm(c.env, [Stolen(o.x.total, Handed(o, After(o)))] + c.stolen))
  {
    hide InnerLoop, After, ApplyAll, Lags, AllQuiet, Settles;
    var o := Opened(j, env);
    AfterLags(i, o, w);
    LoopServes(RamBus(), op, m, j, env);
    SettlesAfter(i, j, After(o), InnerLoop(RamBus(), op, m, i, c.env + tail), InnerLoop(RamBus(), op, m, j, env),
                 Stolen(o.x.total, Handed(o, After(o))), c.stolen, tail);
  }

  lemma OverrunCalms(op: Op, m: Mode, i: Inner<Ram>, j: Inner<Ram>, env: seq<Window>, w: Window, tail: seq<Window>)
    requires Lags(i, Opened(j, env), w) && !i.x.dma.isIn && !j.x.dma.isIn && AllAsk(Tail(env))
    requires !Opened(j, env).x.lines.flags.dma && j.cycle > 6
    ensures Calms(op, m, i, j, env, tail, Calm([w], []))
  {
    hide InnerLoop, ApplyAll;
    OpensHeld(i, Opened(j, env), w, tail);
    LoopOverruns(RamBus(), op, m, i, [w] + tail);
    LoopOverruns(RamBus(), op, m, j, env);
  }

  lemma LastCallCalms(op: Op, m: Mode, i: Inner<Ram>, j: Inner<Ram>, env: seq<Window>, w: Window, tail: seq<Window>)
    requires Lags(i, Opened(j, env), w) && !i.x.dma.isIn && !j.x.dma.isIn && AllAsk(Tail(env))
    requires !Opened(j, env).x.lines.flags.dma && j.cycle <= 6
    requires HandlerCall(RamBus(), op, m, Opened(j, env)).next == End
    ensures Calms(op, m, i, j, env, tail, Calm([w], []))
  {
    hide InnerLoop, HandlerCall, CalmCall, Lags, Follows, AllAsk, AllQuiet, Settles;
    var p, q := CalmCall(op, m, i, w), HandlerCall(RamBus(), op, m, Opened(j, env));
    LagsQuiet(i, Opened(j, env), w);
    CallTurns(op, m, i, j, env, w, tail);
    SettlesNow(p, q, Tail(env), tail);
    SettlesBefore(i, j, p, q, Ended(p.x, tail), Ended(q.x, Tail(env)), [], tail);
  }

  lemma CallCalms(op: Op, m: Mode, i: Inner<Ram>, j: Inner<Ram>, env: seq<Window>, w: Window, tail: seq<Window>,
                  c: Calm)
    requires Lags(i, Opened(j, env), w) && !i.x.dma.isIn && !j.x.dma.isIn
    requires !Opened(j, env).x.lines.flags.dma && j.cycle <= 6
    requires var p, q := CalmCall(op, m, i, w), HandlerCall(RamBus(), op, m, Opened(j, env));
             q.next != End && !p.x.dma.isIn && !q.x.dma.isIn && Calms(op, m, p, q, Tail(env), tail, c)
    ensures Calms(op, m, i, j, env, tail, Calm([w] + c.env, c.stolen))
  {
    hide InnerLoop, HandlerCall, CalmCall, Lags, Follows, AllQuiet, Quiet, Settles;
    var p, q := CalmCall(op, m, i, w), HandlerCall(RamBus(), op, m, Opened(j, env));
    LagsQuiet(i, Opened(j, env), w);
    QuietCons(w, c.env);
    CallTurns(op, m, i, j, env, w, c.env + tail);
    assert [w] + c.env + tail == [w] + (c.env + tail);
    SettlesBefore(i, j, p, q, InnerLoop(RamBus(), op, m, p, c.env + tail), InnerLoop(RamBus(), op, m, q, Tail(env)),
                  c.stolen, tail);
  }

  // ---- `Calmed`, turn by turn ----------------------------------------------

  lemma CalmedTransfer(op: Op, m: Mode, j: Inner<Ram>, env: seq<Window>, held: Window)
    requires !j.x.dma.isIn && Opened(j, env).x.lines.flags.dma && After(Opened(j, env)).next != End
    ensures var o := Opened(j, env);
            var p := After(o);
            var c := Calmed(op, m, p, Tail(env), held + Peaceful(Head(env)));
            Calmed(op, m, j, env, held) == Calm(c.env, [Stolen(o.x.total, Handed(o, p))] + c.stolen)
  {
    hide HandlerCall, After, ApplyAll, Peaceful;
  }

  lemma CalmedOverrun(op: Op, m: Mode, j: Inner<Ram>, env: seq<Window>, held: Window)
    requires !j.x.dma.isIn && !Opened(j, env).x.lines.flags.dma && j.cycle > 6
    ensures Calmed(op, m, j, env, held) == Calm([held + Peaceful(Head(env))], [])
  {
    hide HandlerCall, After, ApplyAll, Peaceful;
  }

  lemma CalmedCall(op: Op, m: Mode, j: Inner<Ram>, env: seq<Window>, held: Window)
    requires !j.x.dma.isIn && !Opened(j, env).x.lines.flags.dma && j.cycle <= 6
    requires !HandlerCall(RamBus(), op, m, Opened(j, env)).x.dma.isIn
    ensures var w, p := held + Peaceful(Head(env)), HandlerCall(RamBus(), op, m, Opened(j, env));
            Calmed(op, m, j, env, held)
            == if p.next == End then Calm([w], [])
               else var c := Calmed(op, m, p, Tail(env), []); Calm([w] + c.env, c.stolen)
  {
    hide HandlerCall, After, ApplyAll, Peaceful;
  }

  // What the recursion counts down.
  lemma TransferShrinks(j: Inner<Ram>, env: seq<Window>)
    requires !j.x.dma.isIn && Opened(j, env).x.lines.flags.dma
    ensures var p := After(Opened(j, env));
            |Tail(env)| < |env| || (Tail(env) == env && Pending(p.x) < Pending(j.x))
  {
    hide ApplyAll, DmaLoop, EnterDma;
  }

  lemma CallShrinks(op: Op, m: Mode, j: Inner<Ram>, env: seq<Window>)
    requires !j.x.dma.isIn && !Opened(j, env).x.lines.flags.dma
    ensures var q := HandlerCall(RamBus(), op, m, Opened(j, env));
            && q.cycle == j.cycle + 1 && !q.x.dma.isIn
            && (|Tail(env)| < |env| || (Tail(env) == env && Pending(q.x) == Pending(j.x)))
  {
    hide ApplyAll, Step;
  }

  ghost predicate Ready(i: Inner<Ram>, j: Inner<Ram>, env: seq<Window>, held: Window) {
    Lags(i, j, held) && !i.x.dma.isIn && !j.x.dma.isIn && AllAsk(env) && Starts(j, env)
  }

  lemma TransferReady(i: Inner<Ram>, j: Inner<Ram>, env: seq<Window>, held: Window)
    requires Ready(i, j, env, held) && Opened(j, env).x.lines.flags.dma
    ensures var o, w := Opened(j, env), held + Peaceful(Head(env));
            && !After(o).x.dma.isIn && Ready(i, After(o), Tail(env), w) && After(o).next != End && Lags(i, o, w)
  {
    hide ApplyAll, After, Lags, AllAsk, Peaceful;
    var w := held + Peaceful(Head(env));
    WindowLags(i, j, env, held);
    AfterLags(i, Opened(j, env), w);
    LagsQuiet(i, After(Opened(j, env)), w);
  }

  lemma CallReady(op: Op, m: Mode, i: Inner<Ram>, j: Inner<Ram>, env: seq<Window>, held: Window)
    requires Ready(i, j, env, held) && !Opened(j, env).x.lines.flags.dma
    ensures var o, w := Opened(j, env), held + Peaceful(Head(env));
            && Lags(i, o, w) && AllAsk(Tail(env))
            && (j.cycle <= 6 ==>
                  var p, q := CalmCall(op, m, i, w), HandlerCall(RamBus(), op, m, o);
                  !p.x.dma.isIn && !q.x.dma.isIn && (q.next != End ==> Ready(p, q, Tail(env), [])))
  {
    hide InnerLoop, ApplyAll, HandlerCall, CalmCall, Lags, AllAsk, Peaceful;
    WindowLags(i, j, env, held);
    if j.cycle <= 6 { CallTurns(op, m, i, j, env, held + Peaceful(Head(env)), []); }
  }

  lemma TransferStep(op: Op, m: Mode, i: Inner<Ram>, j: Inner<Ram>, env: seq<Window>, held: Window, tail: seq<Window>)
    requires !i.x.dma.isIn && !j.x.dma.isIn && Ready(i, j, env, held) && Opened(j, env).x.lines.flags.dma
    requires var p, w := After(Opened(j, env)), held + Peaceful(Head(env));
             Calms(op, m, i, p, Tail(env), tail, Calmed(op, m, p, Tail(env), w))
    ensures Calms(op, m, i, j, env, tail, Calmed(op, m, j, env, held))
  {
    hide After, Opened, Lags, AllAsk, Calms, Peaceful, Calmed, Tail, Head, Handed;
    OpenedKeeps(j, env);
    var p, w := After(Opened(j, env)), held + Peaceful(Head(env));
    TransferReady(i, j, env, held);
    SameStage(j, env);
    TransferCalms(op, m, i, j, env, w, tail, Calmed(op, m, p, Tail(env), w));
    CalmedTransfer(op, m, j, env, held);
  }

  lemma SameStage(j: Inner<Ram>, env: seq<Window>)
    requires !j.x.dma.isIn && Opened(j, env).x.lines.flags.dma
    ensures After(Opened(j, env)).next == j.next
  {
    hide ApplyAll, DmaLoop, EnterDma;
    Transfer(RamBus(), Opened(j, env));
  }

  lemma CallStep(op: Op, m: Mode, i: Inner<Ram>, j: Inner<Ram>, env: seq<Window>, held: Window, tail: seq<Window>)
    requires !i.x.dma.isIn && !j.x.dma.isIn && Ready(i, j, env, held) && !Opened(j, env).x.lines.flags.dma
    requires var q := HandlerCall(RamBus(), op, m, Opened(j, env));
             var p := CalmCall(op, m, i, held + Peaceful(Head(env)));
             j.cycle <= 6 && q.next != End ==>
               && !p.x.dma.isIn && !q.x.dma.isIn
               && Calms(op, m, p, q, Tail(env), tail, Calmed(op, m, q, Tail(env), []))
    ensures Calms(op, m, i, j, env, tail, Calmed(op, m, j, env, held))
  {
    hide HandlerCall, CalmCall, Opened, Lags, AllAsk, Calms, Peaceful, Calmed, Tail, Head, Starts;
    var q, w := HandlerCall(RamBus(), op, m, Opened(j, env)), held + Peaceful(Head(env));
    CallReady(op, m, i, j, env, held);
    if j.cycle > 6 {
      CalmedOverrun(op, m, j, env, held);
      OverrunCalms(op, m, i, j, env, w, tail);
    } else {
      CalmedCall(op, m, j, env, held);
      if q.next == End {
        LastCallCalms(op, m, i, j, env, w, tail);
      } else {
        CallCalms(op, m, i, j, env, w, tail, Calmed(op, m, q, Tail(env), []));
      }
    }
  }

  lemma {:induction false} LoopCalms(op: Op, m: Mode, i: Inner<Ram>, j: Inner<Ram>, env: seq<Window>, held: Window,
                                     tail: seq<Window>)
    requires !i.x.dma.isIn && !j.x.dma.isIn && Ready(i, j, env, held)
    ensures Calms(op, m, i, j, env, tail, Calmed(op, m, j, env, held))
    decreases |env|, Pending(j.x), 7 - j.cycle
  {
    hide HandlerCall, CalmCall, After, Opened, Pending, Calms, Peaceful, Calmed, Tail, Head, Ready;
    if Opened(j, env).x.lines.flags.dma {
      TransferReady(i, j, env, held);
      TransferShrinks(j, env);
      LoopCalms(op, m, i, After(Opened(j, env)), Tail(env), held + Peaceful(Head(env)), tail);
      TransferStep(op, m, i, j, env, held, tail);
    } else {
      var q := HandlerCall(RamBus(), op, m, Opened(j, env));
      CallReady(op, m, i, j, env, held);
      CallShrinks(op, m, j, env);
      if j.cycle <= 6 && q.next != End {
        LoopCalms(op, m, CalmCall(op, m, i, held + Peaceful(Head(env))), q, Tail(env), [], tail);
      }
      CallStep(op, m, i, j, env, held, tail);
    }
  }

  // Nothing another thread did is lost or moved past another: the calls of the calm
  // windows are those made, transfer requests apart.
  ghost predicate ActsKept(env: seq<Window>, held: Window, calm: seq<Window>, e: Ended<Ram>) {
    e.Ended? ==> Joined(calm) + Peaceful(Joined(e.env)) == held + Peaceful(Joined(env))
  }

  lemma ActsLater(env: seq<Window>, held: Window, calm: seq<Window>, e: Ended<Ram>)
    requires ActsKept(Tail(env), held + Peaceful(Head(env)), calm, e)
    ensures ActsKept(env, held, calm, e)
  {
    hide Joined, Peaceful, Tail, Head;
    JoinedFirst(env);
  }

  lemma ActsNow(env: seq<Window>, w: Window, calm: seq<Window>, e: Ended<Ram>)
    requires ActsKept(Tail(env), [], calm, e)
    ensures ActsKept(Tail(env), w, [w] + calm, e)
  {
    hide Peaceful, Tail;
    assert ([w] + calm)[1..] == calm;
    assert e.Ended? ==> w + Joined(calm) + Peaceful(Joined(e.env)) == w + (Joined(calm) + Peaceful(Joined(e.env)));
    assert [] + Peaceful(Joined(Tail(env))) == Peaceful(Joined(Tail(env)));
  }

  lemma ActsLast(x: Exec<Ram>, rest: seq<Window>, w: Window)
    ensures ActsKept(rest, w, [w], Ended(x, rest)) && ActsKept(rest, w, [w], Overrun(x))
  {
    hide Peaceful;
    assert [w][1..] == [] && Joined([w][1..]) == [];
    assert Joined([w]) == w + [] == w;
  }

  // The turn of a handler call, or of its refusal.
  lemma CallKeepsActs(op: Op, m: Mode, j: Inner<Ram>, env: seq<Window>, held: Window)
    requires !j.x.dma.isIn && !Opened(j, env).x.lines.flags.dma
    requires var q := HandlerCall(RamBus(), op, m, Opened(j, env));
             j.cycle <= 6 && q.next != End && !q.x.dma.isIn ==>
               ActsKept(Tail(env), [], Calmed(op, m, q, Tail(env), []).env, InnerLoop(RamBus(), op, m, q, Tail(env)))
    ensures ActsKept(Tail(env), held + Peaceful(Head(env)), Calmed(op, m, j, env, held).env,
                     InnerLoop(RamBus(), op, m, j, env))
  {
    hide HandlerCall, ActsKept, ApplyAll, Peaceful, Calmed, Head, InnerLoop;
    var bus, o, rest, w := RamBus(), Opened(j, env), Tail(env), held + Peaceful(Head(env));
    if o.cycle > 6 {
      LoopOverruns(bus, op, m, j, env);
      CalmedOverrun(op, m, j, env, held);
      ActsLast(o.x, rest, w);
    } else {
      CallShrinks(op, m, j, env);
      LoopCalls(bus, op, m, j, env);
      CalmedCall(op, m, j, env, held);
      var q := HandlerCall(bus, op, m, o);
      if q.next == End {
        ActsLast(q.x, rest, w);
      } else {
        ActsNow(env, w, Calmed(op, m, q, rest, []).env, InnerLoop(bus, op, m, q, rest));
      }
    }
  }

  // The turns of a transfer.
  lemma TransferKeepsActs(op: Op, m: Mode, j: Inner<Ram>, env: seq<Window>, held: Window)
    requires !j.x.dma.isIn && Starts(j, env) && Opened(j, env).x.lines.flags.dma
    requires var p, w := After(Opened(j, env)), held + Peaceful(Head(env));
             !p.x.dma.isIn && ActsKept(Tail(env), w, Calmed(op, m, p, Tail(env), w).env,
                                       InnerLoop(RamBus(), op, m, p, Tail(env)))
    ensures ActsKept(Tail(env), held + Peaceful(Head(env)), Calmed(op, m, j, env, held).env,
                     InnerLoop(RamBus(), op, m, j, env))
  {
    hide After, ActsKept, ApplyAll, Peaceful, Calmed, Head, Handed, InnerLoop;
    SameStage(j, env);
    TransferEnds(j, env);
    LoopServes(RamBus(), op, m, j, env);
    CalmedTransfer(op, m, j, env, held);
  }

  lemma {:induction false} LoopKeepsActs(op: Op, m: Mode, j: Inner<Ram>, env: seq<Window>, held: Window)
    requires !j.x.dma.isIn && Starts(j, env)
    ensures ActsKept(env, held, Calmed(op, m, j, env, held).env, InnerLoop(RamBus(), op, m, j, env))
    decreases |env|, Pending(j.x), 7 - j.cycle
  {
    hide HandlerCall, After, ActsKept, Pending, Opened, Peaceful, Calmed, Head, InnerLoop;
    OpenedKeeps(j, env);
    var o, rest := Opened(j, env), Tail(env);
    if o.x.lines.flags.dma {
      SameStage(j, env);
      TransferShrinks(j, env);
      TransferEnds(j, env);
      LoopKeepsActs(op, m, After(o), rest, held + Peaceful(Head(env)));
      TransferKeepsActs(op, m, j, env, held);
    } else {
      var q := HandlerCall(RamBus(), op, m, o);
      CallShrinks(op, m, j, env);
      if j.cycle <= 6 && q.next != End {
        CallGoesOn(op, m, o);
        LoopKeepsActs(op, m, q, rest, []);
      }
      CallKeepsActs(op, m, j, env, held);
    }
    ActsLater(env, held, Calmed(op, m, j, env, held).env, InnerLoop(RamBus(), op, m, j, env));
  }

  lemma TransferEnds(j: Inner<Ram>, env: seq<Window>)
    requires !j.x.dma.isIn && Opened(j, env).x.lines.flags.dma
    ensures var o := Opened(j, env); After(o) == DmaLoop(RamBus(), EnterDma(RamBus(), o)) && !After(o).x.dma.isIn
  {
    hide ApplyAll, DmaLoop, EnterDma;
  }

  lemma CallGoesOn(op: Op, m: Mode, o: Inner<Ram>)
    requires HandlerCall(RamBus(), op, m, o).next != End
    ensures HandlerCall(RamBus(), op, m, o).next == NextCycle
  {
    hide Step;
  }
}
