// Reads and writes on the memory bus: the walk over sorted lists with its early
// exits against a scan of everything registered.
module Lookup {
  import opened Words
  import opened Wrappers
  import opened Bus
  import opened Rings
  import opened Membus

  datatype Access = Load | Store

  // The callback a module has for an address, if any, and what it answers.
  function Respond<D>(m: Module<D>, s: Access, d: D, a: word, v: Option<byte>): Option<Answer<D>> {
    if !Includes(m.range, a) then None
    else match s
      case Load => if m.read.None? then None else Some(m.read.value(d, a, v))
      case Store => if m.write.None? then None else Some(m.write.value(d, a, if v.Some? then v.value else 0))
  }

  // The devices and the value when the search is over, and how it ended: Observed
  // means that nobody decided.
  datatype Found<D> = Found(verdict: Verdict, d: D, v: byte)

  // One after the other, until one does not merely observe. An observed read may
  // have left something in the value.
  function Consult<D>(ms: seq<Module<D>>, s: Access, d: D, a: word, v: byte): Found<D>
    decreases |ms|
  {
    if ms == [] then Found(Observed, d, v)
    else match Respond(ms[0], s, d, a, Some(v))
      case None => Consult(ms[1..], s, d, a, v)
      case Some(r) =>
        var w := if s.Load? then r.v else v;
        if r.verdict.Observed? then Consult(ms[1..], s, r.d, a, w) else Found(r.verdict, r.d, w)
  }

  // Observers before and after: their verdicts and values are ignored.
  function Tell<D>(ms: seq<Module<D>>, s: Access, d: D, a: word, v: Option<byte>): D
    decreases |ms|
  {
    if ms == [] then d
    else match Respond(ms[0], s, d, a, v)
      case None => Tell(ms[1..], s, d, a, v)
      case Some(r) => Tell(ms[1..], s, r.d, a, v)
  }

  // ---- The walk ------------------------------------------------------------

  // A list is left as soon as a module starts above the address.
  function WalkList<D>(ms: seq<Module<D>>, s: Access, d: D, a: word, v: byte): Found<D>
    decreases |ms|
  {
    if ms == [] || ms[0].range.lo > a then Found(Observed, d, v)
    else match Respond(ms[0], s, d, a, Some(v))
      case None => WalkList(ms[1..], s, d, a, v)
      case Some(r) =>
        var w := if s.Load? then r.v else v;
        if r.verdict.Observed? then WalkList(ms[1..], s, r.d, a, w) else Found(r.verdict, r.d, w)
  }

  function WalkTiers<D>(ts: seq<Tier<D>>, s: Access, d: D, a: word, v: byte): Found<D>
    decreases |ts|
  {
    if ts == [] then Found(Observed, d, v)
    else
      var f := WalkList(ts[0].modules, s, d, a, v);
      if f.verdict.Observed? then WalkTiers(ts[1..], s, f.d, a, f.v) else f
  }

  function WalkTell<D>(ms: seq<Module<D>>, s: Access, d: D, a: word, v: Option<byte>): D
    decreases |ms|
  {
    if ms == [] || ms[0].range.lo > a then d
    else match Respond(ms[0], s, d, a, v)
      case None => WalkTell(ms[1..], s, d, a, v)
      case Some(r) => WalkTell(ms[1..], s, r.d, a, v)
  }

  lemma {:induction false} NobodyAbove<D>(ms: seq<Module<D>>, s: Access, d: D, a: word, v: byte)
    requires forall i: nat | i < |ms| :: ms[i].range.lo > a
    ensures Consult(ms, s, d, a, v) == Found(Observed, d, v)
    ensures forall o: Option<byte> :: Tell(ms, s, d, a, o) == d
    decreases |ms|
  {
    if ms != [] {
      NobodyAbove(ms[1..], s, d, a, v);
    }
  }

  lemma {:induction false} WalkListIsScan<D>(ms: seq<Module<D>>, s: Access, d: D, a: word, v: byte)
    requires Ordered(ms)
    ensures WalkList(ms, s, d, a, v) == Consult(ms, s, d, a, v)
    decreases |ms|
  {
    if ms != [] {
      if ms[0].range.lo > a {
        NobodyAbove(ms, s, d, a, v);
      } else {
        var r := Respond(ms[0], s, d, a, Some(v));
        if r.None? {
          WalkListIsScan(ms[1..], s, d, a, v);
        } else {
          WalkListIsScan(ms[1..], s, r.value.d, a, if s.Load? then r.value.v else v);
        }
      }
    }
  }

  lemma {:induction false} ConsultConcat<D>(ms: seq<Module<D>>, ns: seq<Module<D>>, s: Access, d: D, a: word, v: byte)
    ensures var f := Consult(ms, s, d, a, v);
            Consult(ms + ns, s, d, a, v) == if f.verdict.Observed? then Consult(ns, s, f.d, a, f.v) else f
    decreases |ms|
  {
    if ms == [] {
      assert ms + ns == ns;
    } else {
      assert (ms + ns)[1..] == ms[1..] + ns;
      var r := Respond(ms[0], s, d, a, Some(v));
      if r.None? {
        ConsultConcat(ms[1..], ns, s, d, a, v);
      } else {
        ConsultConcat(ms[1..], ns, s, r.value.d, a, if s.Load? then r.value.v else v);
      }
    }
  }

  // The walk over the tiers finds what a scan of all registered modules finds, in
  // tier order, with the same calls in the same order.
  lemma {:induction false} WalkIsScan<D>(ts: seq<Tier<D>>, s: Access, d: D, a: word, v: byte)
    requires Sorted(ts)
    ensures WalkTiers(ts, s, d, a, v) == Consult(Everyone(ts), s, d, a, v)
    decreases |ts|
  {
    if ts != [] {
      WalkListIsScan(ts[0].modules, s, d, a, v);
      ConsultConcat(ts[0].modules, Everyone(ts[1..]), s, d, a, v);
      var f := WalkList(ts[0].modules, s, d, a, v);
      SortedTail(ts);
      if f.verdict.Observed? {
        WalkIsScan(ts[1..], s, f.d, a, f.v);
      }
    }
  }

  lemma {:induction false} WalkTellIsTell<D>(ms: seq<Module<D>>, s: Access, d: D, a: word, v: Option<byte>)
    requires Ordered(ms)
    ensures WalkTell(ms, s, d, a, v) == Tell(ms, s, d, a, v)
    decreases |ms|
  {
    if ms != [] {
      if ms[0].range.lo > a {
        NobodyAbove(ms, s, d, a, 0);
      } else {
        var r := Respond(ms[0], s, d, a, v);
        WalkTellIsTell(ms[1..], s, if r.None? then d else r.value.d, a, v);
      }
    }
  }

  // ---- One access ----------------------------------------------------------

  datatype BusState<!D> = BusState(pre: seq<Module<D>>, tiers: seq<Tier<D>>, post: seq<Module<D>>,
                                   nmi: word, res: word, irq: word, off: bool, rcache: Ring, wcache: Ring, d: D)

  const RES_VECTOR: word := 0xFFFC

  // The six bytes the bus itself answers for when no module accepts.
  function VectorByte<D>(b: BusState<D>, a: word): Option<byte> {
    if a == NMI_VECTOR then Some(Lo(b.nmi)) else if a == NMI_VECTOR + 1 then Some(Hi(b.nmi))
    else if a == RES_VECTOR then Some(Lo(b.res)) else if a == RES_VECTOR + 1 then Some(Hi(b.res))
    else if a == IRQ_VECTOR then Some(Lo(b.irq)) else if a == IRQ_VECTOR + 1 then Some(Hi(b.irq))
    else None
  }

  function SetVector<D>(b: BusState<D>, a: word, v: byte): BusState<D> {
    if a == NMI_VECTOR then b.(nmi := Word(v, Hi(b.nmi))) else if a == NMI_VECTOR + 1 then b.(nmi := Word(Lo(b.nmi), v))
    else if a == RES_VECTOR then b.(res := Word(v, Hi(b.res)))
    else if a == RES_VECTOR + 1 then b.(res := Word(Lo(b.res), v))
    else if a == IRQ_VECTOR then b.(irq := Word(v, Hi(b.irq)))
    else if a == IRQ_VECTOR + 1 then b.(irq := Word(Lo(b.irq), v))
    else b
  }

  predicate IsVector(a: word) { a >= NMI_VECTOR }

  // The search of a read, after the observers before it.
  function Search<D>(b: BusState<D>, a: word): Found<D> {
    Consult(Everyone(b.tiers), Load, Tell(b.pre, Load, b.d, a, None), a, 0)
  }

  // The first module that accepts decides; otherwise the vector word, also after a
  // module refused; otherwise what observers left behind.
  function ReadValue<D>(b: BusState<D>, a: word): byte {
    var f, w := Search(b, a), VectorByte(b, a);
    if f.verdict.Accepted? || w.None? then f.v else w.value
  }

  function AfterReading<D>(b: BusState<D>, a: word): BusState<D> {
    var f, v := Search(b, a), ReadValue(b, a);
    b.(d := Tell(b.post, Load, f.d, a, Some(v)),
       rcache := if (f.verdict.Accepted? || IsVector(a)) && !b.off then Push(b.rcache, v) else b.rcache)
  }

  function AfterWriting<D>(b: BusState<D>, a: word, v: byte): BusState<D> {
    var f := Consult(Everyone(b.tiers), Store, Tell(b.pre, Store, b.d, a, Some(0)), a, v);
    var c := if f.verdict.Accepted? then b else SetVector(b, a, v);
    c.(d := Tell(b.post, Store, f.d, a, Some(v)),
       wcache := if (f.verdict.Accepted? || IsVector(a)) && !b.off then Push(b.wcache, v) else b.wcache)
  }

  // The memory bus as a bus for the processor.
  function MembusOps<D>(): BusOps<BusState<D>> {
    BusOps((b: BusState<D>, a: word) => ReadValue(b, a), (b: BusState<D>, a: word) => AfterReading(b, a),
           (b: BusState<D>, a: word, v: byte) => AfterWriting(b, a, v), (b: BusState<D>) => b.off,
           (b: BusState<D>, off: bool) => b.(off := off))
  }

  // Observers registered after the operation cannot alter the value read, what is
  // cached, or the vectors.
  lemma PostObserversOnlyWatch<D>(b: BusState<D>, a: word, v: byte, post: seq<Module<D>>)
    ensures var c := b.(post := post);
            && ReadValue(c, a) == ReadValue(b, a)
            && AfterReading(c, a).(d := b.d, post := b.post) == AfterReading(b, a).(d := b.d)
            && AfterWriting(c, a, v).(d := b.d, post := b.post) == AfterWriting(b, a, v).(d := b.d)
  {
    assert Search(b.(post := post), a) == Search(b, a);
  }

  // A refusal ends the search: what is registered behind the refusing module is
  // not asked, and only a vector word can still provide a value.
  lemma {:induction false} RefusalEndsSearch<D>(ms: seq<Module<D>>, m: Module<D>, ns: seq<Module<D>>, s: Access, d: D,
                                                a: word, v: byte)
    requires var f := Consult(ms, s, d, a, v);
             f.verdict.Observed? && Respond(m, s, f.d, a, Some(f.v)).Some?
             && Respond(m, s, f.d, a, Some(f.v)).value.verdict.NotAccepted?
    ensures Consult(ms + [m] + ns, s, d, a, v) == Consult(ms + [m], s, d, a, v)
    ensures Consult(ms + [m], s, d, a, v).verdict.NotAccepted?
  {
    ConsultConcat(ms, [m], s, d, a, v);
    ConsultConcat(ms + [m], ns, s, d, a, v);
  }

  // Where no module is, a read returns 0 and a write goes nowhere, and neither is
  // cached.
  lemma NobodyThere<D>(b: BusState<D>, a: word, v: byte)
    requires b.pre == [] && b.post == [] && a < 0xFFFA
    requires forall i: nat | i < |Everyone(b.tiers)| :: !Includes(Everyone(b.tiers)[i].range, a)
    ensures ReadValue(b, a) == 0 && AfterReading(b, a) == b && AfterWriting(b, a, v) == b
  {
    NoneIncluded(Everyone(b.tiers), Load, b.d, a, 0);
    NoneIncluded(Everyone(b.tiers), Store, b.d, a, v);
  }

  lemma {:induction false} NoneIncluded<D>(ms: seq<Module<D>>, s: Access, d: D, a: word, v: byte)
    requires forall i: nat | i < |ms| :: !Includes(ms[i].range, a)
    ensures Consult(ms, s, d, a, v) == Found(Observed, d, v)
    decreases |ms|
  {
    if ms != [] {
      NoneIncluded(ms[1..], s, d, a, v);
    }
  }

  // What an observer is given: before a read no place for a value, after it the value
  // read; before a write always 0, after it the value written.
  lemma ObserversAreGiven<D>(b: BusState<D>, m: Module<D>, a: word, v: byte)
    requires b.tiers == [] && b.pre == [] && b.post == [] && Includes(m.range, a) && m.read.Some? && m.write.Some?
    ensures AfterReading(b.(pre := [m]), a).d == m.read.value(b.d, a, None).d
    ensures AfterReading(b.(post := [m]), a).d == m.read.value(b.d, a, Some(ReadValue(b, a))).d
    ensures AfterWriting(b.(pre := [m]), a, v).d == m.write.value(b.d, a, 0).d
    ensures AfterWriting(b.(post := [m]), a, v).d == m.write.value(b.d, a, v).d
  {
    hide Respond;
    TellOne(m, Load, b.d, a, None);
    TellOne(m, Load, b.d, a, Some(ReadValue(b, a)));
    TellOne(m, Store, b.d, a, Some(0));
    TellOne(m, Store, b.d, a, Some(v));
    assert Search(b.(post := [m]), a) == Search(b, a);
    assert Everyone(b.tiers) == [];
  }

  lemma TellOne<D>(m: Module<D>, s: Access, d: D, a: word, v: Option<byte>)
    requires Includes(m.range, a) && m.read.Some? && m.write.Some?
    ensures Tell([m], s, d, a, v)
            == if s.Load? then m.read.value(d, a, v).d else m.write.value(d, a, if v.Some? then v.value else 0).d
  {
    assert [m][1..] == [];
  }
}
