// The nests of `Stack` as programs: a run of a launch loop in which the opcodes
// fetched open and close the brackets.
module StackRuns {
  import opened Words
  import opened Bus
  import opened Isa
  import opened Static
  import opened Executor
  import opened Launch
  import opened WholeRuns
  import opened Ram
  import opened Stack

  // An instruction that leaves the stack alone, or an opening instruction, what is
  // executed after it, and the closing one.
  datatype Form =
    | Step
    | Sub(body: Forms)           // JSR ... RTS
    | Trap(body: Forms)          // BRK ... RTI
    | KeepA(body: Forms)         // PHA ... PLA
    | KeepStatus(body: Forms)    // PHP ... PLP

  datatype Forms = Empty | Also(first: Form, rest: Forms)

  function Length(f: Form): (n: nat)
    ensures n >= 1
    decreases f
  {
    if f.Step? then 1 else 2 + LengthOf(f.body)
  }

  function LengthOf(fs: Forms): nat
    decreases fs
  {
    match fs
    case Empty => 0
    case Also(f, rest) => Length(f) + LengthOf(rest)
  }

  function Bytes(f: Form): nat
    decreases f
  {
    match f
    case Step => 0
    case Sub(body) => 2 + BytesOf(body)
    case Trap(body) => 3 + BytesOf(body)
    case KeepA(body) => 1 + BytesOf(body)
    case KeepStatus(body) => 1 + BytesOf(body)
  }

  function BytesOf(fs: Forms): nat
    decreases fs
  {
    match fs
    case Empty => 0
    case Also(f, rest) => if Bytes(f) > BytesOf(rest) then Bytes(f) else BytesOf(rest)
  }

  // ---- Execution -----------------------------------------------------------

  function OpcodeAt(k: Machine): Slot { Decode(Fetch(RamBus(), k).v) }

  // One instruction of the static loop.
  function One(k: Machine, u: Unset): Machine {
    var s := OpcodeAt(k);
    if s.Slot? then Run(RamBus(), s.op, s.mode, Fetch(RamBus(), k).k, u).k else k
  }

  // The machine after a form, `n` being the countdown of the loop.
  function Walk(f: Form, k: Machine, n: nat, unset: nat -> Unset): Machine
    requires Length(f) <= n
    decreases f
  {
    if f.Step? then One(k, unset(n))
    else One(WalkAll(f.body, One(k, unset(n)), n - 1, unset), unset(n - 1 - LengthOf(f.body)))
  }

  function WalkAll(fs: Forms, k: Machine, n: nat, unset: nat -> Unset): Machine
    requires LengthOf(fs) <= n
    decreases fs
  {
    match fs
    case Empty => k
    case Also(f, rest) => WalkAll(rest, Walk(f, k, n, unset), n - Length(f), unset)
  }

  predicate Opens(f: Form, s: Slot) {
    match f
    case Step => s.Slot?
    case Sub(_) => s == Slot(Control(JSR), Absolute)
    case Trap(_) => s == Slot(BRK, Implied)
    case KeepA(_) => s == Slot(Control(PHA), Implied)
    case KeepStatus(_) => s == Slot(Control(PHP), Implied)
  }

  predicate Closes(f: Form, s: Slot) {
    match f
    case Step => true
    case Sub(_) => s == Slot(Control(RTS), Implied)
    case Trap(_) => s == Slot(Control(RTI), Implied)
    case KeepA(_) => s == Slot(Control(PLA), Implied)
    case KeepStatus(_) => s == Slot(Control(PLP), Implied)
  }

  // The opcodes executed, all of them below the end address, spell the form.
  predicate Spelt(f: Form, k: Machine, n: nat, unset: nat -> Unset, pcEnd: nat)
    requires Length(f) <= n
    decreases f
  {
    && k.r.PC < pcEnd && Opens(f, OpcodeAt(k))
    && if f.Step? then Kept(k, One(k, unset(n)), 0)
       else
         var e := One(k, unset(n));
         var l := WalkAll(f.body, e, n - 1, unset);
         SpeltAll(f.body, e, n - 1, unset, pcEnd) && l.r.PC < pcEnd && Closes(f, OpcodeAt(l))
  }

  predicate SpeltAll(fs: Forms, k: Machine, n: nat, unset: nat -> Unset, pcEnd: nat)
    requires LengthOf(fs) <= n
    decreases fs
  {
    match fs
    case Empty => true
    case Also(f, rest) =>
      Spelt(f, k, n, unset, pcEnd) && SpeltAll(rest, Walk(f, k, n, unset), n - Length(f), unset, pcEnd)
  }

  lemma SpeltParts(f: Form, k: Machine, n: nat, unset: nat -> Unset, pcEnd: nat)
    requires Length(f) <= n && Spelt(f, k, n, unset, pcEnd)
    ensures k.r.PC < pcEnd && Opens(f, OpcodeAt(k)) && OpcodeAt(k).Slot?
    ensures f.Step? ==> Walk(f, k, n, unset) == One(k, unset(n)) && Kept(k, One(k, unset(n)), 0)
    ensures !f.Step? ==> Length(f) == 2 + LengthOf(f.body)
    ensures !f.Step? ==>
              var l := WalkAll(f.body, One(k, unset(n)), n - 1, unset);
              && SpeltAll(f.body, One(k, unset(n)), n - 1, unset, pcEnd)
              && l.r.PC < pcEnd && Closes(f, OpcodeAt(l)) && OpcodeAt(l).Slot?
              && Walk(f, k, n, unset) == One(l, unset(n - 1 - LengthOf(f.body)))
  {
    hide One, Kept, OpcodeAt, WalkAll, SpeltAll;
  }

  // ---- As a nest -----------------------------------------------------------

  function Fetching(k: Machine): Machine { Fetch(RamBus(), k).k }

  function Instead(k: Machine, l: Machine): Machine -> Machine { (x: Machine) => if x == k then l else x }

  // What an opening instruction and its counterpart enclose, the fetch of the
  // counterpart included.
  function Enclosed(f: Form, body: Nest): Item
    requires !f.Step?
  {
    match f
    case Sub(_) => Call(body)
    case Trap(_) => Break(body)
    case KeepA(_) => SaveA(body)
    case KeepStatus(_) => SaveStatus(body)
  }

  function AsNest(fs: Forms, k: Machine, n: nat, unset: nat -> Unset, closing: bool): Nest
    requires LengthOf(fs) <= n
    decreases fs, 1
  {
    match fs
    case Empty => if closing then Then(Work(Fetching), Nil) else Nil
    case Also(f, rest) =>
      var later := AsNest(rest, Walk(f, k, n, unset), n - Length(f), unset, closing);
      if f.Step? then Then(Work(Instead(k, One(k, unset(n)))), later)
      else Then(Work(Fetching), Then(Enclosed(f, AsNest(f.body, One(k, unset(n)), n - 1, unset, true)), later))
  }

  // An opening or closing opcode executed is the bracket of the nest.
  lemma OpensRuns(f: Form, k: Machine, u: Unset)
    requires !f.Step? && Opens(f, OpcodeAt(k))
    ensures One(k, u) == (match f
                          case Sub(_) => RunJsr(RamBus(), Fetching(k)).k
                          case Trap(_) => RunBrk(RamBus(), Fetching(k)).k
                          case KeepA(_) => RunPha(RamBus(), Fetching(k)).k
                          case KeepStatus(_) => RunPhp(RamBus(), Fetching(k)).k)
  {
    hide Decode, Fetch, RunJsr, RunBrk, RunPha, RunPhp, RunRts, RunRti, RunPla, RunPlp;
  }

  lemma ClosesRuns(f: Form, k: Machine, u: Unset)
    requires !f.Step? && Closes(f, OpcodeAt(k))
    ensures One(k, u) == (match f
                          case Sub(_) => RunRts(RamBus(), Fetching(k)).k
                          case Trap(_) => RunRti(RamBus(), Fetching(k)).k
                          case KeepA(_) => RunPla(RamBus(), Fetching(k)).k
                          case KeepStatus(_) => RunPlp(RamBus(), Fetching(k)).k)
  {
    hide Decode, Fetch, RunJsr, RunBrk, RunPha, RunPhp, RunRts, RunRti, RunPla, RunPlp;
  }

  lemma ThenRuns(it: Item, rest: Nest, k: Machine)
    ensures RunNest(Then(it, rest), k) == RunNest(rest, RunItem(it, k)) && RunNest(Nil, k) == k
    ensures forall f: Machine -> Machine :: it == Work(f) ==> RunItem(it, k) == f(k)
  {
    hide RunJsr, RunRts, RunBrk, RunRti, RunPha, RunPla, RunPhp, RunPlp, RunInterrupt;
  }

  lemma {:induction false} NestWalks(fs: Forms, k: Machine, n: nat, unset: nat -> Unset, pcEnd: nat, closing: bool)
    requires LengthOf(fs) <= n && SpeltAll(fs, k, n, unset, pcEnd)
    ensures var l := WalkAll(fs, k, n, unset);
            RunNest(AsNest(fs, k, n, unset, closing), k) == if closing then Fetching(l) else l
    decreases fs, 1
  {
    hide One, Fetching, Spelt, Walk, RunNest, RunItem;
    match fs
    case Empty => ThenRuns(Work(Fetching), Nil, k); ThenRuns(Work(Fetching), Nil, Fetching(k));
    case Also(f, rest) =>
      var later := AsNest(rest, Walk(f, k, n, unset), n - Length(f), unset, closing);
      NestWalks(rest, Walk(f, k, n, unset), n - Length(f), unset, pcEnd, closing);
      if f.Step? {
        StepWalks(f, k, n, unset);
        ThenRuns(Work(Instead(k, One(k, unset(n)))), later, k);
      } else {
        var it := Enclosed(f, AsNest(f.body, One(k, unset(n)), n - 1, unset, true));
        ItemWalks(f, k, n, unset, pcEnd);
        ThenRuns(Work(Fetching), Then(it, later), k);
        ThenRuns(it, later, Fetching(k));
      }
  }

  lemma StepWalks(f: Form, k: Machine, n: nat, unset: nat -> Unset)
    requires f.Step? && 1 <= n
    ensures Walk(f, k, n, unset) == One(k, unset(n))
  {
    hide One;
  }

  lemma {:induction false} ItemWalks(f: Form, k: Machine, n: nat, unset: nat -> Unset, pcEnd: nat)
    requires !f.Step? && Length(f) <= n && Spelt(f, k, n, unset, pcEnd)
    ensures RunItem(Enclosed(f, AsNest(f.body, One(k, unset(n)), n - 1, unset, true)), Fetching(k))
            == Walk(f, k, n, unset)
    decreases f, 0
  {
    hide One, Fetching, RunJsr, RunRts, RunBrk, RunRti, RunPha, RunPla, RunPhp, RunPlp, OpcodeAt;
    hide Spelt, SpeltAll, Walk, WalkAll, AsNest, RunNest, LengthOf, Kept;
    SpeltParts(f, k, n, unset, pcEnd);
    var e := One(k, unset(n));
    NestWalks(f.body, e, n - 1, unset, pcEnd, true);
    OpensRuns(f, k, unset(n));
    ClosesRuns(f, WalkAll(f.body, e, n - 1, unset), unset(n - 1 - LengthOf(f.body)));
  }

  // ---- What comes back -----------------------------------------------------

  lemma FetchKeeps(k: Machine)
    ensures Kept(k, Fetching(k), 0) && Fetching(k).r == k.r.(PC := Inc16(k.r.PC))
  {
  }

  lemma EnclosedIsTame(f: Form, body: Nest)
    requires !f.Step? && TameNest(body) && DepthOf(body) == BytesOf(f.body)
    ensures Tame(Enclosed(f, body)) && Depth(Enclosed(f, body)) == Bytes(f)
  {
  }

  lemma ThenIsTame(it: Item, rest: Nest)
    ensures TameNest(Then(it, rest)) == (Tame(it) && TameNest(rest))
    ensures DepthOf(Then(it, rest)) == if Depth(it) > DepthOf(rest) then Depth(it) else DepthOf(rest)
    ensures TameNest(Nil) && DepthOf(Nil) == 0
  {
    hide Kept;
  }

  lemma AlsoParts(f: Form, rest: Forms, k: Machine, n: nat, unset: nat -> Unset, pcEnd: nat)
    requires LengthOf(Also(f, rest)) <= n && SpeltAll(Also(f, rest), k, n, unset, pcEnd)
    ensures Length(f) + LengthOf(rest) <= n && Spelt(f, k, n, unset, pcEnd)
    ensures SpeltAll(rest, Walk(f, k, n, unset), n - Length(f), unset, pcEnd)
  {
    hide Spelt, Walk, Length;
  }

  lemma AlsoMeasures(f: Form, rest: Forms)
    ensures LengthOf(Also(f, rest)) == Length(f) + LengthOf(rest)
    ensures BytesOf(Also(f, rest)) == if Bytes(f) > BytesOf(rest) then Bytes(f) else BytesOf(rest)
    ensures f.Step? ==> Bytes(f) == 0 && Length(f) == 1
    ensures !f.Step? ==> Length(f) == 2 + LengthOf(f.body)
  {
  }

  lemma StepFirst(f: Form, rest: Forms, k: Machine, n: nat, unset: nat -> Unset, closing: bool)
    requires f.Step? && Length(f) + LengthOf(rest) <= n
    ensures LengthOf(Also(f, rest)) == Length(f) + LengthOf(rest)
    ensures AsNest(Also(f, rest), k, n, unset, closing)
            == Then(Work(Instead(k, One(k, unset(n)))),
                    AsNest(rest, Walk(f, k, n, unset), n - Length(f), unset, closing))
  {
    hide One, Walk, Enclosed, Instead, Fetching, Length, LengthOf;
    AlsoMeasures(f, rest);
  }

  lemma BracketFirst(f: Form, rest: Forms, k: Machine, n: nat, unset: nat -> Unset, closing: bool)
    requires !f.Step? && Length(f) + LengthOf(rest) <= n
    ensures LengthOf(Also(f, rest)) == Length(f) + LengthOf(rest) && Length(f) == 2 + LengthOf(f.body)
    ensures AsNest(Also(f, rest), k, n, unset, closing)
            == Then(Work(Fetching), Then(Enclosed(f, AsNest(f.body, One(k, unset(n)), n - 1, unset, true)),
                                         AsNest(rest, Walk(f, k, n, unset), n - Length(f), unset, closing)))
  {
    hide One, Walk, Enclosed, Instead, Fetching, Length, LengthOf;
    AlsoMeasures(f, rest);
  }

  ghost predicate Tamed(fs: Forms, k: Machine, n: nat, unset: nat -> Unset, closing: bool) {
    && LengthOf(fs) <= n
    && TameNest(AsNest(fs, k, n, unset, closing)) && DepthOf(AsNest(fs, k, n, unset, closing)) == BytesOf(fs)
  }

  // A step before the rest, a bracket before the rest, and nothing.
  lemma StepIsTame(f: Form, rest: Forms, k: Machine, n: nat, unset: nat -> Unset, closing: bool)
    requires f.Step? && Length(f) <= n && Kept(k, One(k, unset(n)), 0)
    requires Tamed(rest, Walk(f, k, n, unset), n - Length(f), unset, closing)
    ensures Tamed(Also(f, rest), k, n, unset, closing)
  {
    hide One, Kept, Walk, Tame, TameNest, Depth, DepthOf, Instead, AsNest, LengthOf, Length, Bytes, BytesOf;
    AlsoMeasures(f, rest);
    StepFirst(f, rest, k, n, unset, closing);
    var later := AsNest(rest, Walk(f, k, n, unset), n - Length(f), unset, closing);
    InsteadIsTame(k, One(k, unset(n)));
    ThenIsTame(Work(Instead(k, One(k, unset(n)))), later);
  }

  lemma BracketIsTame(f: Form, rest: Forms, k: Machine, n: nat, unset: nat -> Unset, closing: bool)
    requires !f.Step? && Length(f) <= n && 1 <= n
    requires Tamed(f.body, One(k, unset(n)), n - 1, unset, true)
    requires Tamed(rest, Walk(f, k, n, unset), n - Length(f), unset, closing)
    ensures Tamed(Also(f, rest), k, n, unset, closing)
  {
    hide One, Fetching, Walk, Tame, TameNest, Depth, DepthOf, Enclosed, AsNest, LengthOf, Length, Bytes, BytesOf;
    AlsoMeasures(f, rest);
    BracketFirst(f, rest, k, n, unset, closing);
    var body := AsNest(f.body, One(k, unset(n)), n - 1, unset, true);
    var later := AsNest(rest, Walk(f, k, n, unset), n - Length(f), unset, closing);
    FetchingIsTame();
    EnclosedIsTame(f, body);
    ThenIsTame(Enclosed(f, body), later);
    ThenIsTame(Work(Fetching), Then(Enclosed(f, body), later));
  }

  lemma EmptyIsTame(k: Machine, n: nat, unset: nat -> Unset, closing: bool)
    ensures Tamed(Empty, k, n, unset, closing)
  {
    hide Fetching, Tame, TameNest, Depth, DepthOf;
    FetchingIsTame();
    ThenIsTame(Work(Fetching), Nil);
  }

  lemma {:induction false} NestIsTame(fs: Forms, k: Machine, n: nat, unset: nat -> Unset, pcEnd: nat, closing: bool)
    requires LengthOf(fs) <= n && SpeltAll(fs, k, n, unset, pcEnd)
    ensures Tamed(fs, k, n, unset, closing)
    decreases fs
  {
    hide One, Kept, Spelt, SpeltAll, Walk, WalkAll, Tamed, LengthOf, Length, Opens, Closes, OpcodeAt;
    match fs
    case Empty => EmptyIsTame(k, n, unset, closing);
    case Also(f, rest) =>
      AlsoParts(f, rest, k, n, unset, pcEnd);
      SpeltParts(f, k, n, unset, pcEnd);
      NestIsTame(rest, Walk(f, k, n, unset), n - Length(f), unset, pcEnd, closing);
      if f.Step? {
        StepIsTame(f, rest, k, n, unset, closing);
      } else {
        NestIsTame(f.body, One(k, unset(n)), n - 1, unset, pcEnd, true);
        BracketIsTame(f, rest, k, n, unset, closing);
      }
  }

  lemma FetchingIsTame()
    ensures Tame(Work(Fetching)) && Depth(Work(Fetching)) == 0
  {
    hide Fetching;
    forall k: Machine ensures Kept(k, Fetching(k), 0) { FetchKeeps(k); }
  }

  lemma InsteadIsTame(k: Machine, l: Machine)
    requires Kept(k, l, 0)
    ensures Tame(Work(Instead(k, l))) && Depth(Work(Instead(k, l))) == 0
  {
  }

  // After the closing instruction, against the state before the opening one.
  predicate Returned(f: Form, k: Machine, l: Machine) {
    && l.r.SP == k.r.SP
    && match f
       case Step => true
       case Sub(_) => l.r.PC == Add16(k.r.PC, 3)
       case Trap(_) => l.r.PC == Add16(k.r.PC, 2) && l.r.SR == k.r.SR.(B := false, IGN := false)
       case KeepA(_) => l.r.A == k.r.A
       case KeepStatus(_) => l.r.SR == k.r.SR.(B := false, IGN := false)
  }

  // Whatever subroutines, BRKs and saves the opcodes executed spell, with at most
  // 256 bytes on the stack at once: each closing instruction brings back what its
  // opening one left.
  lemma FormReturns(f: Form, k: Machine, n: nat, unset: nat -> Unset, pcEnd: nat)
    requires Length(f) <= n && Spelt(f, k, n, unset, pcEnd) && Bytes(f) <= 0x100
    ensures var l := Walk(f, k, n, unset); Kept(k, l, Bytes(f)) && Returned(f, k, l)
  {
    hide One, Fetching, Kept, Opens, Closes, OpcodeAt, WalkAll, RunItem;
    if !f.Step? {
      var it := Enclosed(f, AsNest(f.body, One(k, unset(n)), n - 1, unset, true));
      NestIsTame(f.body, One(k, unset(n)), n - 1, unset, pcEnd, true);
      ItemWalks(f, k, n, unset, pcEnd);
      ItemResumes(it, Fetching(k));
      FetchKeeps(k);
      KeptTrans(k, Fetching(k), Walk(f, k, n, unset), 0, Bytes(f));
    } else {
      StepWalks(f, k, n, unset);
      KeptPointer(k, One(k, unset(n)));
    }
  }

  lemma KeptPointer(k: Machine, l: Machine)
    requires Kept(k, l, 0)
    ensures l.r.SP == k.r.SP
  {
  }

  // ---- In the launch loops -------------------------------------------------

  lemma OneRuns(k: Machine, total: nat, pcEnd: nat, n: nat, unset: nat -> Unset) returns (t: nat)
    requires k.r.PC < pcEnd && n > 0 && OpcodeAt(k).Slot?
    ensures StaticLoop(RamBus(), k, total, pcEnd, n, unset)
            == CountedStatic(StaticLoop(RamBus(), One(k, unset(n)), t, pcEnd, n - 1, unset), 1)
  {
    hide Decode, Run, Fetch;
    t := total + 2 + Run(RamBus(), OpcodeAt(k).op, OpcodeAt(k).mode, Fetching(k), unset(n)).cycles;
  }

  lemma {:induction false} FormRuns(f: Form, k: Machine, total: nat, pcEnd: nat, n: nat, unset: nat -> Unset)
    returns (t: nat)
    requires Length(f) <= n && Spelt(f, k, n, unset, pcEnd)
    ensures StaticLoop(RamBus(), k, total, pcEnd, n, unset)
            == CountedStatic(StaticLoop(RamBus(), Walk(f, k, n, unset), t, pcEnd, n - Length(f), unset), Length(f))
    decreases f, 0
  {
    hide One, Kept, Opens, Closes, OpcodeAt, StaticLoop, Walk, WalkAll, Spelt, SpeltAll, LengthOf;
    SpeltParts(f, k, n, unset, pcEnd);
    t := OneRuns(k, total, pcEnd, n, unset);
    if !f.Step? {
      var e := One(k, unset(n));
      t := FormsRun(f.body, e, t, pcEnd, n - 1, unset);
      t := OneRuns(WalkAll(f.body, e, n - 1, unset), t, pcEnd, n - 1 - LengthOf(f.body), unset);
    }
  }

  lemma {:induction false} FormsRun(fs: Forms, k: Machine, total: nat, pcEnd: nat, n: nat, unset: nat -> Unset)
    returns (t: nat)
    requires LengthOf(fs) <= n && SpeltAll(fs, k, n, unset, pcEnd)
    ensures StaticLoop(RamBus(), k, total, pcEnd, n, unset)
            == CountedStatic(StaticLoop(RamBus(), WalkAll(fs, k, n, unset), t, pcEnd, n - LengthOf(fs), unset),
                             LengthOf(fs))
    decreases fs, 1
  {
    hide Walk, Spelt, StaticLoop;
    t := total;
    match fs
    case Empty =>
    case Also(f, rest) =>
      t := FormRuns(f, k, total, pcEnd, n, unset);
      t := FormsRun(rest, Walk(f, k, n, unset), t, pcEnd, n - Length(f), unset);
  }

  // A static launch whose opcodes spell a form runs through it, and what was left
  // comes back.
  lemma StaticRunReturns(f: Form, k: Machine, total: nat, pcEnd: nat, n: nat, unset: nat -> Unset)
    returns (l: Machine, t: nat)
    requires Length(f) <= n && Spelt(f, k, n, unset, pcEnd) && Bytes(f) <= 0x100
    ensures StaticLoop(RamBus(), k, total, pcEnd, n, unset)
            == CountedStatic(StaticLoop(RamBus(), l, t, pcEnd, n - Length(f), unset), Length(f))
    ensures Kept(k, l, Bytes(f)) && Returned(f, k, l)
  {
    hide Walk, Spelt, StaticLoop, Kept, Returned;
    l := Walk(f, k, n, unset);
    t := FormRuns(f, k, total, pcEnd, n, unset);
    FormReturns(f, k, n, unset, pcEnd);
  }

  // So does an undisturbed staged launch, where the opcodes are agreed ones.
  lemma StagedRunReturns(f: Form, x: Exec<Ram>, pcEnd: nat, unset: nat -> Unset, junk: nat -> Stage)
    requires Silent(x) && AllAgreed(RamBus(), x.k, pcEnd, Length(f), unset)
    requires Spelt(f, x.k, Length(f), unset, pcEnd) && Bytes(f) <= 0x100
    ensures var o := StagedLoop(RamBus(), x, pcEnd, Length(f), [], junk);
            o.ran == Length(f) && Kept(x.k, o.x.k, Bytes(f)) && Returned(f, x.k, o.x.k)
  {
    hide Spelt, StagedLoop, AllAgreed, Kept, Returned;
    StagedRunIsStaticRun(RamBus(), x, 0, pcEnd, Length(f), junk, unset);
    var l, t := StaticRunReturns(f, x.k, 0, pcEnd, Length(f), unset);
  }
}
