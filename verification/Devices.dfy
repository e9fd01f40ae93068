// The memory modules: the flat 64K array, whose range stops one byte short, the
// paged memory, and mirrors of a module, mirrors of mirrors included.
module Devices {
  import opened Words
  import opened Wrappers
  import opened Bus
  import opened Membus
  import opened Lookup
  import opened MembusObject
  import opened Ram

  // ---- The flat module and the default bus ---------------------------------

  class Std64k {
    const bytes: array<byte>

    ghost predicate Valid() { bytes.Length == 0x1_0000 }

    constructor ()
      ensures Valid() && fresh(bytes)
    {
      bytes := new byte[0x1_0000];
    }

    method ReadAddr(a: word) returns (verdict: Verdict, v: byte)
      requires Valid()
      ensures Answer<Memory>.Answer(verdict, bytes[..], v) == StdRead(bytes[..], a)
    {
      verdict, v := Accepted, bytes[a];
    }

    method WriteAddr(a: word, v: byte) returns (verdict: Verdict)
      requires Valid()
      modifies bytes
      ensures Answer<Memory>.Answer(verdict, bytes[..], v) == StdWrite(old(bytes[..]), a, v)
    {
      bytes[a] := v;
      verdict := Accepted;
    }
  }

  function StdRead(d: Memory, a: word): Answer<Memory> { Answer(Accepted, d, d[a]) }

  function StdWrite(d: Memory, a: word, v: byte): Answer<Memory> { Answer(Accepted, d[a := v], v) }

  // The module's header: its range leaves out 0xFFFF.
  ghost predicate IsStd64k(m: Module<Memory>) {
    && m.range == Range(0, 0xFFFF) && m.read.Some? && m.write.Some?
    && (forall d, a, v :: m.read.value(d, a, v) == StdRead(d, a))
    && (forall d, a, v :: m.write.value(d, a, v) == StdWrite(d, a, v))
  }

  // executor_alloc_with_default_components registers it alone, in tier 0.
  ghost predicate DefaultBus(b: BusState<Memory>) {
    && b.pre == [] && b.post == []
    && |b.tiers| == 1 && b.tiers[0].tier == 0 && |b.tiers[0].modules| == 1 && IsStd64k(b.tiers[0].modules[0])
  }

  method MakeDefaultBus(memory: Memory) returns (b: MemoryBus<Memory>)
    ensures fresh(b) && b.Valid() && DefaultBus(b.View())
  {
    b := new MemoryBus(memory);
    var m := new Module(Range(0, 0xFFFF), Some((d: Memory, a: word, v: Option<byte>) => StdRead(d, a)),
                        Some((d: Memory, a: word, v: byte) => StdWrite(d, a, v)));
    assert TierPlace<Memory>([], 0) == 0;
    b.RegisterModule(0, m);
    assert b.tiers == [Tier(0, [m])] && IsStd64k(m);
  }

  // What the processor sees of a default bus: 65536 bytes, the last of them being
  // the high byte of the request vector.
  function Flat(b: BusState<Memory>): Ram {
    Ram(b.d[0xFFFF := Hi(b.irq)], b.rcache, b.wcache, b.off)
  }

  lemma DefaultSearch(b: BusState<Memory>, s: Access, d: Memory, a: word, v: byte)
    requires DefaultBus(b)
    ensures Consult(Everyone(b.tiers), s, d, a, v)
            == if a == 0xFFFF then Found(Observed, d, v)
               else if s.Load? then Found(Accepted, d, d[a]) else Found(Accepted, StdWrite(d, a, v).d, v)
  {
    var m := b.tiers[0].modules[0];
    assert b.tiers[1..] == [];
    assert b.tiers[0].modules == [m];
    assert Everyone(b.tiers) == [m] + [] == [m];
    assert [m][1..] == [];
  }

  lemma DefaultReads(b: BusState<Memory>, a: word)
    requires DefaultBus(b)
    ensures ReadValue(b, a) == Peek(Flat(b), a)
    ensures DefaultBus(AfterReading(b, a)) && Flat(AfterReading(b, a)) == AfterRead(Flat(b), a)
  {
    DefaultSearch(b, Load, b.d, a, 0);
  }

  lemma DefaultWrites(b: BusState<Memory>, a: word, v: byte)
    requires DefaultBus(b)
    ensures DefaultBus(AfterWriting(b, a, v)) && Flat(AfterWriting(b, a, v)) == AfterWrite(Flat(b), a, v)
  {
    DefaultSearch(b, Store, b.d, a, v);
    if a != 0xFFFF {
      assert b.d[a := v][0xFFFF := Hi(b.irq)] == b.d[0xFFFF := Hi(b.irq)][a := v];
    } else {
      assert b.d[0xFFFF := Hi(b.irq)][a := v] == b.d[0xFFFF := v];
    }
  }

  datatype Operation = Get(a: word) | Put(a: word, v: byte) | SetOff(off: bool)

  // What a sequence of operations returns.
  function Observe<M>(bus: BusOps<M>, m: M, ops: seq<Operation>): seq<byte>
    decreases |ops|
  {
    if ops == [] then []
    else match ops[0]
      case Get(a) => [bus.peek(m, a)] + Observe(bus, bus.afterRead(m, a), ops[1..])
      case Put(a, v) => Observe(bus, bus.afterWrite(m, a, v), ops[1..])
      case SetOff(off) => Observe(bus, bus.setCacheOff(m, off), ops[1..])
  }

  // The bus after them.
  function Final<M>(bus: BusOps<M>, m: M, ops: seq<Operation>): M
    decreases |ops|
  {
    if ops == [] then m
    else match ops[0]
      case Get(a) => Final(bus, bus.afterRead(m, a), ops[1..])
      case Put(a, v) => Final(bus, bus.afterWrite(m, a, v), ops[1..])
      case SetOff(off) => Final(bus, bus.setCacheOff(m, off), ops[1..])
  }

  // Under any sequence of operations the default bus cannot be told from the flat
  // array, and both end with the same bytes and the same caches.
  lemma {:induction false} DefaultBusIsFlat(b: BusState<Memory>, ops: seq<Operation>)
    requires DefaultBus(b)
    ensures Observe(MembusOps(), b, ops) == Observe(RamBus(), Flat(b), ops)
    ensures var c := Final(MembusOps(), b, ops); DefaultBus(c) && Flat(c) == Final(RamBus(), Flat(b), ops)
    decreases |ops|
  {
    hide AfterReading, AfterWriting, ReadValue;
    if ops != [] {
      match ops[0]
      case Get(a) => DefaultReads(b, a); DefaultBusIsFlat(AfterReading(b, a), ops[1..]);
      case Put(a, v) => DefaultWrites(b, a, v); DefaultBusIsFlat(AfterWriting(b, a, v), ops[1..]);
      case SetOff(off) => DefaultBusIsFlat(b.(off := off), ops[1..]);
    }
  }

  lemma {:induction false} CopyInLays(b: BusState<Memory>, lo: nat, bytes: seq<byte>)
    requires DefaultBus(b) && lo + |bytes| <= 0x1_0000
    ensures var c := WrittenAll(b, lo, bytes);
            DefaultBus(c) && Flat(c).bytes == Overlay(Flat(b).bytes, lo, bytes)
    decreases |bytes|
  {
    if bytes != [] {
      DefaultWrites(b, lo, bytes[0]);
      CopyInLays(AfterWriting(b, lo, bytes[0]), lo + 1, bytes[1..]);
      OverlayStep(Flat(b).bytes, lo, bytes);
    } else {
      assert Overlay(Flat(b).bytes, lo, bytes) == Flat(b).bytes;
    }
  }

  lemma {:induction false} CopyOutTakes(b: BusState<Memory>, lo: nat, n: nat)
    requires DefaultBus(b) && lo + n <= 0x1_0000
    ensures ReadAll(b, lo, n).0 == Flat(b).bytes[lo..lo + n]
    decreases n
  {
    hide ReadValue, AfterReading, DefaultBus, Flat;
    if n > 0 {
      DefaultReads(b, lo);
      CopyOutTakes(AfterReading(b, lo), lo + 1, n - 1);
      assert Flat(b).bytes[lo..lo + n] == [Flat(b).bytes[lo]] + Flat(b).bytes[lo + 1..lo + n];
    }
  }

  // Copying bytes in and out again returns them, for every range of the address
  // space, the last byte of it included.
  lemma CopyRoundTrip(b: BusState<Memory>, r: Range, bytes: seq<byte>)
    requires DefaultBus(b) && r.lo + r.len <= 0x1_0000 && |bytes| == r.len
    ensures ReadAll(WrittenAll(b, r.lo, bytes[..CopyLength(r)]), r.lo, CopyLength(r)).0 == bytes
  {
    assert bytes[..CopyLength(r)] == bytes;
    CopyInLays(b, r.lo, bytes);
    CopyOutTakes(WrittenAll(b, r.lo, bytes), r.lo, |bytes|);
  }

  // A range that would pass the end of the address space is cut off so that the last
  // address is not touched, neither on the way in nor on the way out.
  lemma CopyPastEnd(b: BusState<Memory>, r: Range, bytes: seq<byte>)
    requires DefaultBus(b) && r.lo + r.len > 0x1_0000 && |bytes| == r.len
    ensures var n := 0xFFFF - r.lo;
            var c := WrittenAll(b, r.lo, bytes[..CopyLength(r)]);
            && (forall i: nat | i < n :: Flat(c).bytes[r.lo + i] == bytes[i])
            && (forall a: word | a < r.lo || a == 0xFFFF :: Flat(c).bytes[a] == Flat(b).bytes[a])
            && ReadAll(b, r.lo, CopyLength(r)).0 == Flat(b).bytes[r.lo..0xFFFF]
  {
    hide Flat, WrittenAll, ReadAll, DefaultBus;
    CopyInLays(b, r.lo, bytes[..CopyLength(r)]);
    CopyOutTakes(b, r.lo, CopyLength(r));
    Overlaid(Flat(b).bytes, r.lo, bytes[..CopyLength(r)]);
  }

  lemma Overlaid(was: Memory, lo: nat, bytes: seq<byte>)
    requires lo + |bytes| <= 0x1_0000
    ensures forall i: nat | i < |bytes| :: Overlay(was, lo, bytes)[lo + i] == bytes[i]
    ensures forall a: word | a < lo || a >= lo + |bytes| :: Overlay(was, lo, bytes)[a] == was[a]
  {
  }

  // ---- Paged memory --------------------------------------------------------

  // A module's count of references, 0 when it is made.
  class References {
    var count: nat

    constructor ()
      ensures count == 0
    {
      count := 0;
    }
  }

  datatype PageMode = ReadWrite | ReadOnly | WriteOnly

  class Paged {
    const mode: PageMode
    const range: Range
    const pages: array2<byte>
    const refs: References

    ghost predicate Valid() {
      pages.Length1 == 0x100 && range.len == 0x100 * pages.Length0 && range.lo + range.len <= 0x1_0000
    }

    // The byte at an offset into the module.
    function At(o: nat): byte
      requires Valid() && o < range.len
      reads pages
    {
      pages[o / 0x100, o % 0x100]
    }

    // All bytes, in order.
    ghost function Bytes(): (bs: seq<byte>)
      requires Valid()
      reads pages
      ensures |bs| == range.len && forall o: nat | o < range.len :: bs[o] == At(o)
    {
      seq(range.len, o requires 0 <= o < range.len && Valid() reads pages => At(o))
    }

    // Pages that would lie beyond the address space are cut off.
    constructor (mode: PageMode, basePage: byte, nPages: byte)
      ensures Valid() && fresh(pages) && fresh(refs) && refs.count == 0 && this.mode == mode
      ensures range.lo == 0x100 * basePage
      ensures range.len == 0x100 * (if basePage + nPages > 0x100 then 0x100 - basePage else nPages)
    {
      var n: nat := if basePage + nPages > 0x100 then 0x100 - basePage else nPages;
      this.mode := mode;
      range := Range(0x100 * basePage, 0x100 * n);
      pages := new byte[n, 0x100];
      refs := new References();
    }

    method ReadAddr(a: word) returns (verdict: Verdict, v: byte)
      requires Valid() && Includes(range, a)
      ensures verdict == if mode.WriteOnly? then NotAccepted else Accepted
      ensures verdict.Accepted? ==> v == At(a - range.lo)
    {
      var o := a - range.lo;
      if mode != WriteOnly {
        verdict, v := Accepted, pages[o / 0x100, o % 0x100];
      } else {
        verdict, v := NotAccepted, 0;
      }
    }

    method WriteAddr(a: word, v: byte) returns (verdict: Verdict)
      requires Valid() && Includes(range, a)
      modifies pages
      ensures verdict == if mode.ReadOnly? then NotAccepted else Accepted
      ensures forall o: nat | o < range.len ::
                At(o) == if verdict.Accepted? && o == a - range.lo then v else old(At(o))
    {
      var o := a - range.lo;
      if mode != ReadOnly {
        pages[o / 0x100, o % 0x100] := v;
        verdict := Accepted;
        forall j: nat | j < range.len && j != o ensures At(j) == old(At(j)) {
          assert j == 0x100 * (j / 0x100) + j % 0x100 && o == 0x100 * (o / 0x100) + o % 0x100;
        }
      } else {
        verdict := NotAccepted;
      }
    }
  }

  // ---- Mirrors -------------------------------------------------------------

  // A module under one of its addresses: itself, or a mirror of such a one.
  datatype Alias = Direct(m: Paged) | Mirror(base: word, original: Alias, own: References)

  function Refs(x: Alias): References { if x.Direct? then x.m.refs else x.own }

  function Root(x: Alias): Paged { if x.Direct? then x.m else Root(x.original) }

  function Span(x: Alias): Range {
    match x
    case Direct(m) => m.range
    case Mirror(base, original, _) => Range(base, Span(original).len)
  }

  // Every mirror in the chain passed the test at its allocation.
  predicate WellMade(x: Alias) { x.Mirror? ==> MirrorFits(x.original, x.base) && WellMade(x.original) }

  // The last address must be one; it is computed as an unsigned 32-bit number.
  predicate MirrorFits(original: Alias, base: word) { 0 <= base + Span(original).len - 1 < 0x1_0000 }

  // The new mirror holds a reference to the module it was made of, which may be a
  // mirror itself.
  method MirrorAlloc(original: Alias, base: word) returns (x: Option<Alias>)
    requires WellMade(original)
    modifies Refs(original)
    ensures x.Some? <==> 1 <= base + Span(original).len <= 0x1_0000
    ensures x.Some? ==> x.value.Mirror? && x.value.base == base && x.value.original == original
    ensures x.Some? ==> fresh(x.value.own) && x.value.own.count == 0
    ensures x.Some? ==> WellMade(x.value) && Span(x.value) == Range(base, Span(original).len)
    ensures Refs(original).count == old(Refs(original).count) + (if x.Some? then 1 else 0)
  {
    var end := (base + Span(original).len - 1) % 0x1_0000_0000;
    x := None;
    if end < 0x1_0000 {
      var own := new References();
      Refs(original).count := Refs(original).count + 1;
      x := Some(Mirror(base, original, own));
    }
  }

  // Freeing a mirror gives that reference back.
  method MirrorFree(x: Alias)
    requires x.Mirror? && Refs(x.original).count > 0
    modifies Refs(x.original)
    ensures Refs(x.original).count == old(Refs(x.original).count) - 1
  {
    Refs(x.original).count := Refs(x.original).count - 1;
  }

  // (a - from) + to
  function Rebased(a: word, from: word, to: word): word { Add16(Add16(a, -(from as int)), to) }

  // Where an access to an alias arrives in the module, address by address through
  // the chain, each step in 16-bit arithmetic.
  function Arrives(x: Alias, a: word): word
    decreases x
  {
    match x
    case Direct(_) => a
    case Mirror(base, original, _) => Arrives(original, Rebased(a, base, Span(original).lo))
  }

  // Through any chain of mirrors: the same offset from the start, so that a byte
  // of the alias's range arrives inside the module, on one of its pages.
  lemma {:induction false} MirrorsKeepOffset(x: Alias, a: word)
    requires WellMade(x) && Root(x).Valid() && Includes(Span(x), a)
    ensures Span(x).len == Root(x).range.len
    ensures var o := a - Span(x).lo;
            && Includes(Root(x).range, Arrives(x, a)) && Arrives(x, a) - Root(x).range.lo == o
            && o / 0x100 < Root(x).pages.Length0
    decreases x
  {
    if x.Mirror? {
      SpansAlike(x.original);
      MirrorsKeepOffset(x.original, Rebased(a, x.base, Span(x.original).lo));
    }
  }

  lemma {:induction false} SpansAlike(x: Alias)
    requires WellMade(x) && Root(x).Valid()
    ensures Span(x).len == Root(x).range.len && Span(x).lo + Span(x).len <= 0x1_0000
    decreases x
  {
    if x.Mirror? {
      SpansAlike(x.original);
    }
  }

  method ReadThrough(x: Alias, a: word) returns (verdict: Verdict, v: byte)
    requires WellMade(x) && Root(x).Valid() && Includes(Span(x), a)
    ensures a - Span(x).lo < Root(x).range.len
    ensures verdict == if Root(x).mode.WriteOnly? then NotAccepted else Accepted
    ensures verdict.Accepted? ==> v == Root(x).At(a - Span(x).lo)
    decreases x
  {
    MirrorsKeepOffset(x, a);
    match x
    case Direct(m) => verdict, v := m.ReadAddr(a);
    case Mirror(base, original, _) =>
      SpansAlike(original);
      verdict, v := ReadThrough(original, Rebased(a, base, Span(original).lo));
  }

  // A write through one alias is what every other alias then shows at the same
  // offset, and nothing else changes.
  method WriteThrough(x: Alias, a: word, v: byte) returns (verdict: Verdict)
    requires WellMade(x) && Root(x).Valid() && Includes(Span(x), a)
    modifies Root(x).pages
    ensures verdict == if Root(x).mode.ReadOnly? then NotAccepted else Accepted
    ensures forall o: nat | o < Root(x).range.len ::
              Root(x).At(o) == if verdict.Accepted? && o == a - Span(x).lo then v else old(Root(x).At(o))
    decreases x
  {
    MirrorsKeepOffset(x, a);
    match x
    case Direct(m) => verdict := m.WriteAddr(a, v);
    case Mirror(base, original, _) =>
      SpansAlike(original);
      verdict := WriteThrough(original, Rebased(a, base, Span(original).lo), v);
  }

  // A write to an alias, of a module that accepts writes.
  datatype Poke = Poke(x: Alias, a: word, v: byte)

  predicate PokesOf(p: Paged, ws: seq<Poke>) {
    forall i: nat | i < |ws| :: Root(ws[i].x) == p && WellMade(ws[i].x) && Includes(Span(ws[i].x), ws[i].a)
  }

  // The module's bytes after a sequence of writes, each followed through its chain
  // of mirrors; a read-only module refuses them.
  function Poked(p: Paged, bytes: seq<byte>, ws: seq<Poke>): (r: seq<byte>)
    requires p.Valid() && |bytes| == p.range.len && PokesOf(p, ws)
    ensures |r| == |bytes|
    decreases |ws|
  {
    if ws == [] || p.mode.ReadOnly? then bytes
    else
      var front, w := ws[..|ws| - 1], ws[|ws| - 1];
      MirrorsKeepOffset(w.x, w.a);
      Poked(p, bytes, front)[Arrives(w.x, w.a) - p.range.lo := w.v]
  }

  // The last value written at an offset, whichever alias it went through.
  function LastAt(ws: seq<Poke>, o: int, otherwise: byte): byte
    decreases |ws|
  {
    if ws == [] then otherwise
    else
      var w := ws[|ws| - 1];
      if w.a - Span(w.x).lo == o then w.v else LastAt(ws[..|ws| - 1], o, otherwise)
  }

  // What a byte of the module is after the writes.
  function Settled(p: Paged, ws: seq<Poke>, o: int, was: byte): byte {
    if p.mode.ReadOnly? then was else LastAt(ws, o, was)
  }

  // After any writes through any aliases, the byte an alias shows is the last value
  // written at its offset through any of them, or, in a read-only module, what it
  // always was.
  lemma {:induction false} AliasesAgree(p: Paged, bytes: seq<byte>, ws: seq<Poke>, x: Alias, a: word)
    requires p.Valid() && |bytes| == p.range.len && PokesOf(p, ws)
    requires Root(x) == p && WellMade(x) && Includes(Span(x), a)
    ensures var o := a - Span(x).lo;
            && Includes(p.range, Arrives(x, a)) && o < |bytes|
            && Poked(p, bytes, ws)[Arrives(x, a) - p.range.lo] == Settled(p, ws, o, bytes[o])
    decreases |ws|
  {
    MirrorsKeepOffset(x, a);
    if ws != [] && !p.mode.ReadOnly? {
      var w := ws[|ws| - 1];
      MirrorsKeepOffset(w.x, w.a);
      AliasesAgree(p, bytes, ws[..|ws| - 1], x, a);
    }
  }

  // The writes carried out one after the other, each through its alias.
  method PokeAll(p: Paged, ws: seq<Poke>)
    requires p.Valid() && PokesOf(p, ws)
    modifies p.pages
    ensures p.Bytes() == Poked(p, old(p.Bytes()), ws)
  {
    var i := 0;
    while i < |ws|
      invariant i <= |ws| && PokesOf(p, ws[..i])
      invariant p.Bytes() == Poked(p, old(p.Bytes()), ws[..i])
    {
      var w := ws[i];
      ghost var before := p.Bytes();
      var verdict := WriteThrough(w.x, w.a, w.v);
      assert ws[..i + 1][..i] == ws[..i];
      MirrorsKeepOffset(w.x, w.a);
      assert p.Bytes() == if p.mode.ReadOnly? then before else before[w.a - Span(w.x).lo := w.v];
      i := i + 1;
    }
    assert ws[..i] == ws;
  }

  // A read through one alias after writes through any of them.
  method PokeThenRead(p: Paged, ws: seq<Poke>, x: Alias, a: word) returns (verdict: Verdict, v: byte)
    requires p.Valid() && PokesOf(p, ws) && Root(x) == p && WellMade(x) && Includes(Span(x), a)
    modifies p.pages
    ensures a - Span(x).lo < p.range.len
    ensures verdict == if p.mode.WriteOnly? then NotAccepted else Accepted
    ensures verdict.Accepted? ==> v == Settled(p, ws, a - Span(x).lo, old(p.At(a - Span(x).lo)))
  {
    AliasesAgree(p, p.Bytes(), ws, x, a);
    MirrorsKeepOffset(x, a);
    PokeAll(p, ws);
    verdict, v := ReadThrough(x, a);
  }
}
