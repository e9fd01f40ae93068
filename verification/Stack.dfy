// The wrapping stack in page one under nested calls, interrupts and register
// saves: what comes back at every closing bracket.
module Stack {
  import opened Words
  import opened Registers
  import opened Bus
  import opened Static
  import opened Ram

  type Machine = Core<Ram>

  // Well-bracketed activity. Work is anything that leaves the stack alone; the
  // rest are an instruction, what happens until its counterpart, and that.
  datatype Item =
    | Work(f: Machine -> Machine)
    | Call(body: Nest)           // JSR ... RTS
    | Interrupt(body: Nest)      // non-maskable interrupt ... RTI
    | Break(body: Nest)          // BRK ... RTI
    | SaveA(body: Nest)          // PHA ... PLA
    | SaveStatus(body: Nest)     // PHP ... PLP

  datatype Nest = Nil | Then(first: Item, rest: Nest)

  function RunItem(it: Item, k: Machine): Machine
    decreases it
  {
    var bus := RamBus();
    match it
    case Work(f) => f(k)
    case Call(body) => RunRts(bus, RunNest(body, RunJsr(bus, k).k)).k
    case Interrupt(body) => RunRti(bus, RunNest(body, RunInterrupt(bus, k, NMI_VECTOR).k)).k
    case Break(body) => RunRti(bus, RunNest(body, RunBrk(bus, k).k)).k
    case SaveA(body) => RunPla(bus, RunNest(body, RunPha(bus, k).k)).k
    case SaveStatus(body) => RunPlp(bus, RunNest(body, RunPhp(bus, k).k)).k
  }

  function RunNest(n: Nest, k: Machine): Machine
    decreases n
  {
    match n
    case Nil => k
    case Then(it, rest) => RunNest(rest, RunItem(it, k))
  }

  // The most stack bytes in use at once.
  function Depth(it: Item): nat
    decreases it
  {
    match it
    case Work(_) => 0
    case Call(body) => 2 + DepthOf(body)
    case Interrupt(body) => 3 + DepthOf(body)
    case Break(body) => 3 + DepthOf(body)
    case SaveA(body) => 1 + DepthOf(body)
    case SaveStatus(body) => 1 + DepthOf(body)
  }

  function DepthOf(n: Nest): nat
    decreases n
  {
    match n
    case Nil => 0
    case Then(it, rest) => if Depth(it) > DepthOf(rest) then Depth(it) else DepthOf(rest)
  }

  // The stack byte `j` below the pointer, around the end of the page.
  function Cell(sp: byte, j: nat): word
    requires j < 0x100
  {
    0x100 + (if sp >= j then sp - j else sp + 0x100 - j)
  }

  // Same pointer, and every stack byte but the first `d` at it unchanged.
  predicate Kept(k: Machine, l: Machine, d: nat) {
    && l.r.SP == k.r.SP
    && forall j: nat | d <= j < 0x100 :: l.m.bytes[Cell(k.r.SP, j)] == k.m.bytes[Cell(k.r.SP, j)]
  }

  // The `Work` in a nest keeps the pointer and all of page one.
  ghost predicate Tame(it: Item)
    decreases it
  {
    match it
    case Work(f) => forall k :: Kept(k, f(k), 0)
    case Call(body) => TameNest(body)
    case Interrupt(body) => TameNest(body)
    case Break(body) => TameNest(body)
    case SaveA(body) => TameNest(body)
    case SaveStatus(body) => TameNest(body)
  }

  ghost predicate TameNest(n: Nest)
    decreases n
  {
    match n
    case Nil => true
    case Then(it, rest) => Tame(it) && TameNest(rest)
  }

  lemma CellBelow(sp: byte, j: nat)
    requires 1 <= j < 0x100
    ensures Cell(Dec8(sp), j - 1) == Cell(sp, j)
    ensures Cell(sp, j) != StackAddr(sp)
  {
  }

  lemma KeptTrans(k: Machine, l: Machine, n: Machine, d: nat, e: nat)
    requires Kept(k, l, d) && Kept(l, n, e)
    ensures Kept(k, n, if d > e then d else e)
  {
  }

  // A byte pushed, up to 255 bytes of balanced activity, a byte pulled: it is the
  // byte pushed, the pointer is back, and one byte more may have changed.
  lemma Bracket(k: Machine, v: byte, l: Machine, d: nat)
    requires Kept(PushByte(RamBus(), k, v), l, d) && d + 1 <= 0x100
    ensures var f := PopByte(RamBus(), l);
            && f.v == v && Kept(k, f.k, d + 1)
            && f.k.r == l.r.(SP := k.r.SP) && f.k.m.bytes == l.m.bytes
  {
    var p := PushByte(RamBus(), k, v);
    var f := PopByte(RamBus(), l);
    assert Inc8(Dec8(k.r.SP)) == k.r.SP;
    assert StackAddr(k.r.SP) == Cell(p.r.SP, 0xFF);
    assert p.m.bytes[StackAddr(k.r.SP)] == v;
    forall j: nat | d + 1 <= j < 0x100
      ensures f.k.m.bytes[Cell(k.r.SP, j)] == k.m.bytes[Cell(k.r.SP, j)]
    {
      CellBelow(k.r.SP, j);
      assert p.m.bytes[Cell(k.r.SP, j)] == k.m.bytes[Cell(k.r.SP, j)];
    }
  }

  // Registers other than the pointer do not matter to `Kept`.
  lemma KeptOf(k: Machine, l: Machine, k': Machine, l': Machine, d: nat)
    requires Kept(k, l, d)
    requires k'.r.SP == k.r.SP && l'.r.SP == l.r.SP && k'.m.bytes == k.m.bytes && l'.m.bytes == l.m.bytes
    ensures Kept(k', l', d)
  {
  }

  // PC pushed, balanced activity, PC pulled.
  lemma PcBracket(k: Machine, l: Machine, d: nat)
    requires Kept(PushPc(RamBus(), k), l, d) && d + 2 <= 0x100
    ensures var n := PullPc(RamBus(), l);
            Kept(k, n, d + 2) && n.r == l.r.(SP := k.r.SP, PC := k.r.PC) && n.m.bytes == l.m.bytes
  {
    var hi := PushByte(RamBus(), k, Hi(k.r.PC));
    Bracket(hi, Lo(k.r.PC), l, d);
    var f := PopByte(RamBus(), l);
    Bracket(k, Hi(k.r.PC), f.k, d + 1);
    var g := PopByte(RamBus(), f.k);
    assert OrHigh(f.v, g.v) == Word(Lo(k.r.PC), Hi(k.r.PC)) == k.r.PC;
    KeptOf(k, g.k, k, PullPc(RamBus(), l), d + 2);
  }

  // A status byte pushed under activity, pulled by RTI or PLP.
  lemma StatusBracket(k: Machine, s: Status, l: Machine, d: nat)
    requires Kept(PushByte(RamBus(), k, Pack(s)), l, d) && d + 1 <= 0x100
    ensures var n := PullSr(RamBus(), l);
            && Kept(k, n, d + 1) && n.m.bytes == l.m.bytes
            && n.r == l.r.(SP := k.r.SP, SR := s.(B := false, IGN := false))
  {
    Bracket(k, Pack(s), l, d);
    UnpackAfterPack(s);
    var f := PopByte(RamBus(), l);
    KeptOf(k, f.k, k, PullSr(RamBus(), l), d + 1);
  }

  // PC and then a status byte pushed, activity, RTI.
  lemma RtiBracket(k: Machine, s: Status, entered: Machine, l: Machine, d: nat)
    requires var p := PushPc(RamBus(), k);
             var q := PushByte(RamBus(), p, Pack(s));
             entered.r.SP == q.r.SP && entered.m.bytes == q.m.bytes
    requires Kept(entered, l, d) && d + 3 <= 0x100
    ensures var n := RunRti(RamBus(), l).k;
            && Kept(k, n, d + 3)
            && n.r == l.r.(SP := k.r.SP, PC := k.r.PC, SR := s.(B := false, IGN := false))
  {
    var p := PushPc(RamBus(), k);
    KeptOf(entered, l, PushByte(RamBus(), p, Pack(s)), l, d);
    StatusBracket(p, s, l, d);
    PcBracket(k, PullSr(RamBus(), l), d + 1);
  }

  // What the instruction after a closing bracket finds.
  predicate Resumes(it: Item, k: Machine, l: Machine) {
    && l.r.SP == k.r.SP
    && match it
       case Work(_) => true
       case Call(_) => l.r.PC == Inc16(Inc16(k.r.PC))
       case Interrupt(_) => l.r.PC == k.r.PC && l.r.SR == k.r.SR.(B := false, IGN := false)
       case Break(_) => l.r.PC == Inc16(k.r.PC) && l.r.SR == k.r.SR.(B := false, IGN := false)
       case SaveA(_) => l.r.A == k.r.A
       case SaveStatus(_) => l.r.SR == k.r.SR.(B := false, IGN := false)
  }

  // Any well-bracketed nest that never has more than 256 bytes on the stack, from
  // any stack pointer: every closing bracket restores PC and the pointer, RTI and
  // PLP the status but for B and IGN, PLA the accumulator.
  lemma {:induction false} ItemResumes(it: Item, k: Machine)
    requires Tame(it) && Depth(it) <= 0x100
    ensures Kept(k, RunItem(it, k), Depth(it)) && Resumes(it, k, RunItem(it, k))
    decreases it
  {
    match it
    case Work(f) =>
    case Call(body) => CallResumes(body, k);
    case Interrupt(body) => InterruptResumes(body, k);
    case Break(body) => BreakResumes(body, k);
    case SaveA(body) => SaveAResumes(body, k);
    case SaveStatus(body) => SaveStatusResumes(body, k);
  }

  lemma {:induction false} NestResumes(n: Nest, k: Machine)
    requires TameNest(n) && DepthOf(n) <= 0x100
    ensures Kept(k, RunNest(n, k), DepthOf(n))
    decreases n, 0
  {
    match n
    case Nil =>
    case Then(it, rest) =>
      ItemResumes(it, k);
      var l := RunItem(it, k);
      NestResumes(rest, l);
      KeptTrans(k, l, RunNest(rest, l), Depth(it), DepthOf(rest));
  }

  lemma {:induction false} CallResumes(body: Nest, k: Machine)
    requires TameNest(body) && 2 + DepthOf(body) <= 0x100
    ensures var l := RunItem(Call(body), k); Kept(k, l, 2 + DepthOf(body)) && Resumes(Call(body), k, l)
    decreases body, 1
  {
    var bus, e := RamBus(), FetchWord(RamBus(), k);
    var entered := RunJsr(bus, k).k;
    NestResumes(body, entered);
    var l := RunNest(body, entered);
    KeptOf(entered, l, PushPc(bus, e.k), l, DepthOf(body));
    PcBracket(e.k, l, DepthOf(body));
    KeptOf(e.k, RunRts(bus, l).k, k, RunRts(bus, l).k, 2 + DepthOf(body));
  }

  lemma {:induction false} InterruptResumes(body: Nest, k: Machine)
    requires TameNest(body) && 3 + DepthOf(body) <= 0x100
    ensures var l := RunItem(Interrupt(body), k); Kept(k, l, 3 + DepthOf(body)) && Resumes(Interrupt(body), k, l)
    decreases body, 1
  {
    var entered := RunInterrupt(RamBus(), k, NMI_VECTOR).k;
    NestResumes(body, entered);
    RtiBracket(k, k.r.SR, entered, RunNest(body, entered), DepthOf(body));
  }

  lemma {:induction false} BreakResumes(body: Nest, k: Machine)
    requires TameNest(body) && 3 + DepthOf(body) <= 0x100
    ensures var l := RunItem(Break(body), k); Kept(k, l, 3 + DepthOf(body)) && Resumes(Break(body), k, l)
    decreases body, 1
  {
    var f, entered := Fetch(RamBus(), k), RunBrk(RamBus(), k).k;
    NestResumes(body, entered);
    var l := RunNest(body, entered);
    RtiBracket(f.k, k.r.SR.(B := true), entered, l, DepthOf(body));
    KeptOf(f.k, RunRti(RamBus(), l).k, k, RunRti(RamBus(), l).k, 3 + DepthOf(body));
  }

  lemma {:induction false} SaveAResumes(body: Nest, k: Machine)
    requires TameNest(body) && 1 + DepthOf(body) <= 0x100
    ensures var l := RunItem(SaveA(body), k); Kept(k, l, 1 + DepthOf(body)) && Resumes(SaveA(body), k, l)
    decreases body, 1
  {
    var entered := RunPha(RamBus(), k).k;
    NestResumes(body, entered);
    var l := RunNest(body, entered);
    Bracket(k, k.r.A, l, DepthOf(body));
    KeptOf(k, PopByte(RamBus(), l).k, k, RunPla(RamBus(), l).k, 1 + DepthOf(body));
  }

  lemma {:induction false} SaveStatusResumes(body: Nest, k: Machine)
    requires TameNest(body) && 1 + DepthOf(body) <= 0x100
    ensures var l := RunItem(SaveStatus(body), k); Kept(k, l, 1 + DepthOf(body)) && Resumes(SaveStatus(body), k, l)
    decreases body, 1
  {
    var entered := RunPhp(RamBus(), k).k;
    NestResumes(body, entered);
    StatusBracket(k, k.r.SR.(B := true, IGN := true), RunNest(body, entered), DepthOf(body));
  }

  // ---- The limit is sharp --------------------------------------------------

  function LoadOne(k: Machine): Machine { k.(r := k.r.(A := 1)) }

  // `n` accumulators of value 1 saved inside one another.
  function Deep(n: nat): Nest {
    if n == 0 then Nil else Then(Work(LoadOne), Then(SaveA(Deep(n - 1)), Nil))
  }

  lemma {:induction false} DeepIsTame(n: nat)
    ensures TameNest(Deep(n)) && DepthOf(Deep(n)) == n
  {
    if n > 0 {
      DeepIsTame(n - 1);
    }
  }

  lemma {:induction false} DeepFills(n: nat, k: Machine)
    requires n <= 0x100
    ensures forall j: nat | j < n :: RunNest(Deep(n), k).m.bytes[Cell(k.r.SP, j)] == 1
    decreases n
  {
    if n > 0 {
      var p := PushByte(RamBus(), LoadOne(k), 1);
      var l := RunNest(Deep(n - 1), p);
      DeepIsTame(n - 1);
      DeepFills(n - 1, p);
      NestResumes(Deep(n - 1), p);
      var r := RunPla(RamBus(), l).k;
      DeepRuns(n, k, l);
      assert Cell(k.r.SP, 0) == Cell(p.r.SP, 0xFF);
      forall j: nat | j < n ensures r.m.bytes[Cell(k.r.SP, j)] == 1 {
        if j > 0 { CellBelow(k.r.SP, j); }
      }
    }
  }

  lemma DeepRuns(n: nat, k: Machine, l: Machine)
    requires n > 0 && l == RunNest(Deep(n - 1), PushByte(RamBus(), LoadOne(k), 1))
    ensures RunNest(Deep(n), k) == RunPla(RamBus(), l).k
  {
    var save := SaveA(Deep(n - 1));
    assert RunItem(save, LoadOne(k)) == RunPla(RamBus(), l).k;
    assert RunNest(Then(save, Nil), LoadOne(k)) == RunItem(save, LoadOne(k));
    assert RunItem(Work(LoadOne), k) == LoadOne(k);
  }

  lemma TooDeep(k: Machine, n: nat)
    requires k.r.A == 0 && n == 0x100
    ensures Depth(SaveA(Deep(n))) == n + 1 && Tame(SaveA(Deep(n)))
    ensures !Resumes(SaveA(Deep(n)), k, RunItem(SaveA(Deep(n)), k))
  {
    var body, p := Deep(n), RunPha(RamBus(), k).k;
    hide Deep;
    DeepIsTame(n);
    DeepFills(n, p);
    NestResumes(body, p);
    assert StackAddr(k.r.SP) == Cell(p.r.SP, 0xFF);
    assert Inc8(p.r.SP) == k.r.SP;
  }

  // With one byte more than the page holds the promise fails, from every state
  // whose accumulator is 0: a saved accumulator comes back as 1.
  lemma OneByteTooDeep(k: Machine)
    requires k.r.A == 0
    ensures Depth(SaveA(Deep(0x100))) == 0x101 && Tame(SaveA(Deep(0x100)))
    ensures !Resumes(SaveA(Deep(0x100)), k, RunItem(SaveA(Deep(0x100)), k))
  {
    hide Deep, Depth, Tame, Resumes, RunItem;
    TooDeep(k, 0x100);
  }
}
