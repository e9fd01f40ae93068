// The bus object and its operations in place: list walks with their flags, list
// insertion, vector fields, the two cyclic caches, and the range copies.
module MembusObject {
  import opened Words
  import opened Wrappers
  import opened Bus
  import opened Rings
  import opened Membus
  import opened Lookup

  const MEMBUS_TIER_PRE_OP: int := -0x8000_0000
  const MEMBUS_TIER_POST_OP: int := 0x7FFF_FFFF

  // A cyclic cache of eight bytes, as the macros use it.
  class Cache {
    var idx: byte
    const cells: array<byte>

    ghost predicate Valid() reads this { cells.Length == 8 }

    ghost function Contents(): Ring
      reads this, cells
      requires Valid()
    {
      Ring(idx, cells[..])
    }

    constructor ()
      ensures Valid() && fresh(cells)
    {
      idx, cells := 0, new byte[8];
    }

    method PushByte(v: byte)
      requires Valid()
      modifies this, cells
      ensures Valid() && Contents() == Push(old(Contents()), v)
    {
      cells[idx % 8] := v;
      idx := Inc8(idx);
    }

    method PopByte() returns (v: byte)
      requires Valid()
      modifies this`idx
      ensures Valid() && v == Pop(old(Contents())).v && Contents() == Pop(old(Contents())).ring
    {
      idx := Dec8(idx);
      v := cells[idx % 8];
    }
  }

  class MemoryBus<!D> {
    var preOp: seq<Module<D>>
    var tiers: seq<Tier<D>>
    var postOp: seq<Module<D>>
    var nmiVector: word
    var resVector: word
    var irqVector: word
    var cacheDisable: bool
    const rcache: Cache
    const wcache: Cache
    var devices: D

    ghost predicate Valid()
      reads this, rcache, wcache
    {
      && rcache.Valid() && wcache.Valid() && rcache != wcache && rcache.cells != wcache.cells
      && Sorted(tiers) && Ordered(preOp) && Ordered(postOp)
    }

    ghost function View(): BusState<D>
      requires Valid()
      reads this, rcache, rcache.cells, wcache, wcache.cells
    {
      BusState(preOp, tiers, postOp, nmiVector, resVector, irqVector, cacheDisable,
               rcache.Contents(), wcache.Contents(), devices)
    }

    constructor (devices: D)
      ensures Valid() && fresh(rcache) && fresh(rcache.cells) && fresh(wcache) && fresh(wcache.cells)
      ensures preOp == [] && tiers == [] && postOp == [] && !cacheDisable && this.devices == devices
      ensures nmiVector == 0x0FF0 && resVector == 0xF00F && irqVector == 0xCAFE
    {
      preOp, tiers, postOp := [], [], [];
      nmiVector, resVector, irqVector := 0x0FF0, 0xF00F, 0xCAFE;
      cacheDisable := false;
      this.devices := devices;
      rcache := new Cache();
      wcache := new Cache();
    }

    // The index at which a module belongs in a list.
    method FindPlace(ms: seq<Module<D>>, lo: word) returns (i: nat)
      ensures i == Place(ms, lo)
    {
      i := 0;
      while i < |ms| && ms[i].range.lo < lo
        invariant i <= |ms| && Place(ms, lo) == i + Place(ms[i..], lo)
      {
        assert ms[i..][1..] == ms[i + 1..];
        i := i + 1;
      }
    }

    method RegisterModule(tier: int, m: Module<D>)
      requires Valid()
      modifies this`preOp, this`tiers, this`postOp, m`refs
      ensures Valid() && m.refs == old(m.refs) + 1
      ensures View() == old(View()).(
                pre := if tier == -0x8000_0000 then Insert(old(preOp), m) else old(preOp),
                post := if tier == 0x7FFF_FFFF then Insert(old(postOp), m) else old(postOp),
                tiers := if tier == -0x8000_0000 || tier == 0x7FFF_FFFF then old(tiers)
                         else Register(old(tiers), tier, m))
    {
      m.Retain();
      if tier == MEMBUS_TIER_PRE_OP {
        InsertOrdered(preOp, m);
        var i := FindPlace(preOp, m.range.lo);
        preOp := preOp[..i] + [m] + preOp[i..];
      } else if tier == MEMBUS_TIER_POST_OP {
        InsertOrdered(postOp, m);
        var i := FindPlace(postOp, m.range.lo);
        postOp := postOp[..i] + [m] + postOp[i..];
      } else {
        RegisterInTiers(tier, m);
      }
    }

    method RegisterInTiers(tier: int, m: Module<D>)
      requires Sorted(tiers)
      modifies this`tiers
      ensures Sorted(tiers) && tiers == Register(old(tiers), tier, m)
    {
      RegisterSorted(tiers, tier, m);
      var i := 0;
      while i < |tiers| && tiers[i].tier < tier
        invariant i <= |tiers| && TierPlace(tiers, tier) == i + TierPlace(tiers[i..], tier)
      {
        assert tiers[i..][1..] == tiers[i + 1..];
        i := i + 1;
      }
      if i < |tiers| && tiers[i].tier == tier {
        var ms := tiers[i].modules;
        var j := FindPlace(ms, m.range.lo);
        tiers := tiers[i := Tier(tier, ms[..j] + [m] + ms[j..])];
      } else if i > 0 {
        tiers := tiers[..i] + [Tier(tier, [m])] + tiers[i..];
      } else {
        tiers := [Tier(tier, [m])];
      }
    }

    // Observers: every included callback in the list, up to the first module that
    // starts above the address.
    method TellAll(ms: seq<Module<D>>, s: Access, a: word, v: Option<byte>)
      requires Ordered(ms)
      modifies this`devices
      ensures devices == Tell(ms, s, old(devices), a, v)
    {
      var i := 0;
      while i < |ms| && ms[i].range.lo <= a
        invariant i <= |ms|
        invariant WalkTell(ms, s, old(devices), a, v) == WalkTell(ms[i..], s, devices, a, v)
      {
        var r := Respond(ms[i], s, devices, a, v);
        if r.Some? { devices := r.value.d; }
        assert ms[i..][1..] == ms[i + 1..];
        i := i + 1;
      }
      WalkTellIsTell(ms, s, old(devices), a, v);
    }

    // The double walk: `looping` falls when a module refuses, `decided` rises when
    // one accepts.
    method Walk(s: Access, a: word, v0: byte) returns (decided: bool, v: byte)
      requires Sorted(tiers)
      modifies this`devices
      ensures var f := Consult(Everyone(tiers), s, old(devices), a, v0);
              devices == f.d && v == f.v && decided == f.verdict.Accepted?
    {
      WalkIsScan(tiers, s, devices, a, v0);
      decided, v := false, v0;
      var looping, t := true, 0;
      ghost var whole := WalkTiers(tiers, s, devices, a, v0);
      while looping && !decided && t < |tiers|
        invariant t <= |tiers|
        invariant if !looping then whole == Found(NotAccepted, devices, v) && !decided
                  else if decided then whole == Found(Accepted, devices, v)
                  else whole == WalkTiers(tiers[t..], s, devices, a, v)
        decreases |tiers| - t
      {
        assert tiers[t..][1..] == tiers[t + 1..];
        looping, decided, v := WalkOne(tiers[t].modules, s, a, v);
        t := t + 1;
      }
    }

    method WalkOne(ms: seq<Module<D>>, s: Access, a: word, v0: byte) returns (looping: bool, decided: bool, v: byte)
      modifies this`devices
      ensures var f := WalkList(ms, s, old(devices), a, v0);
              devices == f.d && v == f.v && decided == f.verdict.Accepted? && looping == !f.verdict.NotAccepted?
    {
      looping, decided, v := true, false, v0;
      var i := 0;
      ghost var whole := WalkList(ms, s, devices, a, v0);
      while looping && !decided && i < |ms| && ms[i].range.lo <= a
        invariant i <= |ms|
        invariant if !looping then whole == Found(NotAccepted, devices, v) && !decided
                  else if decided then whole == Found(Accepted, devices, v)
                  else whole == WalkList(ms[i..], s, devices, a, v)
        decreases |ms| - i
      {
        var r := Respond(ms[i], s, devices, a, Some(v));
        if r.Some? {
          devices := r.value.d;
          if s.Load? { v := r.value.v; }
          looping, decided := !r.value.verdict.NotAccepted?, r.value.verdict.Accepted?;
        }
        assert ms[i..][1..] == ms[i + 1..];
        i := i + 1;
      }
    }

    method ReadAddr(a: word) returns (v: byte)
      requires Valid()
      modifies this`devices, rcache, rcache.cells
      ensures Valid() && v == ReadValue(old(View()), a) && View() == AfterReading(old(View()), a)
    {
      TellAll(preOp, Load, a, None);
      var decided;
      decided, v := Walk(Load, a, 0);
      if !decided {
        if a == NMI_VECTOR { decided, v := true, Lo(nmiVector); }
        else if a == NMI_VECTOR + 1 { decided, v := true, Hi(nmiVector); }
        else if a == RES_VECTOR { decided, v := true, Lo(resVector); }
        else if a == RES_VECTOR + 1 { decided, v := true, Hi(resVector); }
        else if a == IRQ_VECTOR { decided, v := true, Lo(irqVector); }
        else if a == IRQ_VECTOR + 1 { decided, v := true, Hi(irqVector); }
      }
      TellAll(postOp, Load, a, Some(v));
      if decided && !cacheDisable { rcache.PushByte(v); }
    }

    // The half of a vector word that lives at `a`.
    method StoreVector(a: word, v: byte) returns (stored: bool)
      requires Valid()
      modifies this`nmiVector, this`resVector, this`irqVector
      ensures Valid() && stored == IsVector(a) && View() == SetVector(old(View()), a, v)
    {
      stored := true;
      if a == NMI_VECTOR { nmiVector := Word(v, Hi(nmiVector)); }
      else if a == NMI_VECTOR + 1 { nmiVector := Word(Lo(nmiVector), v); }
      else if a == RES_VECTOR { resVector := Word(v, Hi(resVector)); }
      else if a == RES_VECTOR + 1 { resVector := Word(Lo(resVector), v); }
      else if a == IRQ_VECTOR { irqVector := Word(v, Hi(irqVector)); }
      else if a == IRQ_VECTOR + 1 { irqVector := Word(Lo(irqVector), v); }
      else { stored := false; }
    }

    method WriteAddr(a: word, v: byte)
      requires Valid()
      modifies this`devices, this`nmiVector, this`resVector, this`irqVector, wcache, wcache.cells
      ensures Valid() && View() == AfterWriting(old(View()), a, v)
    {
      hide Consult, Tell;
      TellAll(preOp, Store, a, Some(0));
      var decided, _ := Walk(Store, a, v);
      if !decided {
        decided := StoreVector(a, v);
      }
      TellAll(postOp, Store, a, Some(v));
      if decided && !cacheDisable { wcache.PushByte(v); }
    }

    // Every module in a list, as often as it is in one.
    ghost function Held(): seq<Module<D>>
      reads this
    {
      preOp + Everyone(tiers) + postOp
    }

    // membus_free gives back one reference for every place in a list: exactly what
    // the registrations took, unless a registration dropped a chain.
    method Free()
      requires forall m | m in Held() :: m.refs >= multiset(Held())[m]
      modifies set m | m in Held()
      ensures forall m | m in old(Held()) && old(allocated(m)) :: m.refs == old(m.refs) - multiset(old(Held()))[m]
    {
      ghost var held := Held();
      ReleaseList(preOp, multiset{}, held);
      ReleaseTiers(tiers, multiset(preOp), held);
      ReleaseList(postOp, multiset(preOp + Everyone(tiers)), held);
    }

    static method ReleaseTiers(ts: seq<Tier<D>>, ghost before: multiset<Module<D>>, ghost held: seq<Module<D>>)
      requires before + multiset(Everyone(ts)) <= multiset(held)
      requires forall m | m in held :: m.refs + before[m] >= multiset(held)[m]
      modifies set m | m in held
      ensures forall m | m in held :: m.refs == old(m.refs) - multiset(Everyone(ts))[m]
      decreases |ts|
    {
      if ts != [] {
        assert Everyone(ts) == ts[0].modules + Everyone(ts[1..]);
        ReleaseList(ts[0].modules, before, held);
        ReleaseTiers(ts[1..], before + multiset(ts[0].modules), held);
      }
    }

    // One release a list node; `before` have been released already.
    static method ReleaseList(ms: seq<Module<D>>, ghost before: multiset<Module<D>>, ghost held: seq<Module<D>>)
      requires before + multiset(ms) <= multiset(held)
      requires forall m | m in held :: m.refs + before[m] >= multiset(held)[m]
      modifies set m | m in held
      ensures forall m | m in held :: m.refs == old(m.refs) - multiset(ms)[m]
    {
      var i := 0;
      while i < |ms|
        invariant i <= |ms|
        invariant forall m | m in held :: m.refs == old(m.refs) - multiset(ms[..i])[m]
      {
        assert ms[..i + 1] == ms[..i] + [ms[i]];
        assert ms == ms[..i] + [ms[i]] + ms[i + 1..];
        assert ms[i] in multiset(ms) && ms[i] in multiset(held);
        var _ := ms[i].Release();
        i := i + 1;
      }
      assert ms[..i] == ms;
    }

    // membus_copy_in_bytes and membus_copy_out_bytes: a range that would pass the
    // end of the address space stops short of 0xFFFF.
    method CopyInBytes(bytes: seq<byte>, r: Range)
      requires Valid() && |bytes| >= CopyLength(r)
      modifies this`devices, this`nmiVector, this`resVector, this`irqVector, wcache, wcache.cells
      ensures Valid() && View() == WrittenAll(old(View()), r.lo, bytes[..CopyLength(r)])
    {
      hide AfterWriting;
      var addr, end: nat := r.lo, r.lo + r.len;
      if end > 0x1_0000 { end := 0xFFFF; }
      var i := 0;
      ghost var todo := bytes[..CopyLength(r)];
      while addr < end
        invariant Valid() && addr == r.lo + i && i <= |todo| && end <= r.lo + |todo| && addr <= 0x1_0000
        invariant WrittenAll(old(View()), r.lo, todo) == WrittenAll(View(), addr, todo[i..])
      {
        assert todo[i..][1..] == todo[i + 1..];
        WriteAddr(addr, bytes[i]);
        addr, i := addr + 1, i + 1;
      }
    }

    method CopyOutBytes(r: Range) returns (bytes: seq<byte>)
      requires Valid()
      modifies this`devices, rcache, rcache.cells
      ensures Valid() && bytes == ReadAll(old(View()), r.lo, CopyLength(r)).0
      ensures View() == ReadAll(old(View()), r.lo, CopyLength(r)).1
    {
      hide ReadValue, AfterReading;
      var addr, end: nat := r.lo, r.lo + r.len;
      if end > 0x1_0000 { end := 0xFFFF; }
      bytes := [];
      ghost var n, all := CopyLength(r), ReadAll(View(), r.lo, CopyLength(r));
      while addr < end
        invariant Valid() && addr == r.lo + |bytes| && |bytes| <= n && end <= r.lo + n && addr <= 0x1_0000
        invariant all.0 == bytes + ReadAll(View(), addr, n - |bytes|).0
        invariant all.1 == ReadAll(View(), addr, n - |bytes|).1
      {
        ReadAllStep(View(), addr, n - |bytes|, bytes);
        var v := ReadAddr(addr);
        bytes, addr := bytes + [v], addr + 1;
      }
      assert bytes + [] == bytes;
    }
  }

  // The registrations that go to the chain of tiers.
  function Ordinary<D>(rs: seq<Registration<D>>): seq<Registration<D>>
    decreases |rs|
  {
    if rs == [] then []
    else
      var front, r := Ordinary(rs[..|rs| - 1]), rs[|rs| - 1];
      if r.tier == MEMBUS_TIER_PRE_OP || r.tier == MEMBUS_TIER_POST_OP then front else front + [r]
  }

  function Observers<D>(rs: seq<Registration<D>>, tier: int): seq<Module<D>>
    decreases |rs|
  {
    if rs == [] then []
    else
      var front, r := Observers(rs[..|rs| - 1], tier), rs[|rs| - 1];
      if r.tier == tier then Insert(front, r.m) else front
  }

  // The lists after registrations.
  ghost predicate Holds<D>(b: BusState<D>, rs: seq<Registration<D>>) {
    && b.pre == Observers(rs, MEMBUS_TIER_PRE_OP) && b.post == Observers(rs, MEMBUS_TIER_POST_OP)
    && b.tiers == RegisterAll(Ordinary(rs))
  }

  function Lists<D>(b: BusState<D>): seq<Module<D>> { b.pre + Everyone(b.tiers) + b.post }

  lemma HoldsNext<D>(b: BusState<D>, c: BusState<D>, rs: seq<Registration<D>>, r: Registration<D>)
    requires Holds(b, rs)
    requires c.pre == if r.tier == MEMBUS_TIER_PRE_OP then Insert(b.pre, r.m) else b.pre
    requires c.post == if r.tier == MEMBUS_TIER_POST_OP then Insert(b.post, r.m) else b.post
    requires c.tiers == if r.tier == MEMBUS_TIER_PRE_OP || r.tier == MEMBUS_TIER_POST_OP then b.tiers
                        else Register(b.tiers, r.tier, r.m)
    ensures Holds(c, rs + [r])
  {
    hide Register, Insert;
    var all, front := rs + [r], Ordinary(rs);
    var after := if r.tier == MEMBUS_TIER_PRE_OP || r.tier == MEMBUS_TIER_POST_OP then front else front + [r];
    assert all[..|all| - 1] == rs;
    assert Ordinary(all) == after;
    assert Observers(all, MEMBUS_TIER_PRE_OP) == c.pre;
    assert Observers(all, MEMBUS_TIER_POST_OP) == c.post;
    assert (front + [r])[..|front + [r]| - 1] == front;
    assert RegisterAll(after) == c.tiers;
  }

  lemma ObserversNext<D>(front: seq<Registration<D>>, r: Registration<D>, tier: int)
    ensures multiset(Observers(front + [r], tier))
            == multiset(Observers(front, tier)) + (if r.tier == tier then multiset{r.m} else multiset{})
  {
    hide Insert;
    assert (front + [r])[..|front|] == front;
    InsertHolds(Observers(front, tier), r.m);
  }

  lemma RegisteredSnoc<D>(front: seq<Registration<D>>, r: Registration<D>)
    ensures Registered(front + [r]) == Registered(front) + multiset{r.m}
  {
    assert (front + [r])[..|front|] == front;
  }

  lemma {:induction false} RegisteredSplits<D>(rs: seq<Registration<D>>)
    ensures multiset(Observers(rs, MEMBUS_TIER_PRE_OP)) + multiset(Observers(rs, MEMBUS_TIER_POST_OP))
            + Registered(Ordinary(rs)) == Registered(rs)
    decreases |rs|
  {
    if rs != [] {
      hide Observers, Ordinary, Registered;
      var front, r := rs[..|rs| - 1], rs[|rs| - 1];
      assert front + [r] == rs;
      RegisteredSplits(front);
      ObserversNext(front, r, MEMBUS_TIER_PRE_OP);
      ObserversNext(front, r, MEMBUS_TIER_POST_OP);
      RegisteredSnoc(front, r);
      OrdinaryNext(front, r);
    }
  }

  lemma OrdinaryNext<D>(front: seq<Registration<D>>, r: Registration<D>)
    ensures Registered(Ordinary(front + [r]))
            == Registered(Ordinary(front))
               + (if r.tier == MEMBUS_TIER_PRE_OP || r.tier == MEMBUS_TIER_POST_OP then multiset{} else multiset{r.m})
  {
    assert (front + [r])[..|front|] == front;
    var o := Ordinary(front);
    assert (o + [r])[..|o|] == o;
  }

  // The lists hold no module more often than it was registered, and every module
  // exactly as often if and only if no chain was dropped.
  lemma HeldIff<D>(b: BusState<D>, rs: seq<Registration<D>>)
    requires Holds(b, rs)
    ensures multiset(Lists(b)) <= Registered(rs)
    ensures multiset(Lists(b)) == Registered(rs) <==> NoneBelow(Ordinary(rs))
  {
    hide Everyone, Registered, NoneBelow, Ordinary, Observers, RegisterAll;
    EveryoneIsHeldIff(Ordinary(rs));
    RegisteredSplits(rs);
    ListsSum(b.pre, Everyone(b.tiers), b.post);
    SumsCompare(multiset(b.pre), multiset(b.post), multiset(Everyone(b.tiers)), Registered(Ordinary(rs)));
  }

  lemma ListsSum<D>(a: seq<Module<D>>, b: seq<Module<D>>, c: seq<Module<D>>)
    ensures multiset(a + b + c) == multiset(a) + multiset(c) + multiset(b)
  {
  }

  lemma SumsCompare<D>(p: multiset<Module<D>>, q: multiset<Module<D>>, e: multiset<Module<D>>, r: multiset<Module<D>>)
    requires e <= r
    ensures p + q + e <= p + q + r
    ensures p + q + e == p + q + r <==> e == r
  {
    if p + q + e == p + q + r {
      forall m: Module<D> ensures e[m] == r[m] {
        assert (p + q + e)[m] == p[m] + q[m] + e[m];
        assert (p + q + r)[m] == p[m] + q[m] + r[m];
      }
      assert e == r;
    }
  }

  lemma HeldCounts<D>(b: BusState<D>, rs: seq<Registration<D>>)
    requires Holds(b, rs)
    ensures multiset(Lists(b)) <= Registered(rs)
    ensures (forall i | 0 <= i < |rs| :: multiset(Lists(b))[rs[i].m] == Registered(rs)[rs[i].m])
            <==> NoneBelow(Ordinary(rs))
  {
    hide Holds, Registered, NoneBelow, Ordinary, Lists;
    HeldIff(b, rs);
    RegisteredIn(rs);
    CountsCompare(multiset(Lists(b)), Registered(rs), rs);
  }

  // A bus made, given modules, and freed: every module's count is what it was
  // before if and only if no registration dropped a chain.
  method RegisterThenFree<D>(devices: D, rs: seq<Registration<D>>)
    modifies set i | 0 <= i < |rs| :: rs[i].m
    ensures (forall i | 0 <= i < |rs| :: rs[i].m.refs == old(rs[i].m.refs)) <==> NoneBelow(Ordinary(rs))
  {
    hide Holds, Registered, NoneBelow, Ordinary, Everyone;
    var b := RegisterEach(devices, rs);
    HeldCounts(b.View(), rs);
    FreeCounted(b, rs);
  }

  method FreeCounted<D>(b: MemoryBus<D>, ghost rs: seq<Registration<D>>)
    requires multiset(b.Held()) <= Registered(rs)
    requires forall i | 0 <= i < |rs| :: rs[i].m.refs >= Registered(rs)[rs[i].m]
    modifies set i | 0 <= i < |rs| :: rs[i].m
    ensures forall i | 0 <= i < |rs| :: rs[i].m.refs == old(rs[i].m.refs) - multiset(old(b.Held()))[rs[i].m]
  {
    hide Registered;
    RegisteredIn(rs);
    forall m | m in b.Held() ensures m in Registered(rs) && m.refs >= multiset(b.Held())[m] {
      assert m in multiset(b.Held());
    }
    b.Free();
  }

  method RegisterEach<D>(devices: D, rs: seq<Registration<D>>) returns (b: MemoryBus<D>)
    modifies set i | 0 <= i < |rs| :: rs[i].m
    ensures fresh(b) && b.Valid() && Holds(b.View(), rs)
    ensures forall i | 0 <= i < |rs| :: rs[i].m.refs == old(rs[i].m.refs) + Registered(rs)[rs[i].m]
  {
    hide Holds, Registered;
    b := new MemoryBus<D>(devices);
    var i := 0;
    HoldsNothing(b.View());
    assert rs[..0] == [] && Registered(rs[..0]) == multiset{} by { NothingRegistered<D>(); }
    while i < |rs|
      invariant i <= |rs| && fresh(b) && fresh(b.rcache) && fresh(b.wcache) && b.Valid()
      invariant Holds(b.View(), rs[..i])
      invariant forall j | 0 <= j < |rs| :: rs[j].m.refs == old(rs[j].m.refs) + Registered(rs[..i])[rs[j].m]
    {
      RegisteredNext(rs, i);
      RegisterNext(b, rs[..i], rs[i]);
      i := i + 1;
    }
    assert rs[..i] == rs;
  }

  lemma HoldsNothing<D>(b: BusState<D>)
    requires b.pre == b.post == [] && b.tiers == []
    ensures Holds(b, [])
  {
  }

  lemma NothingRegistered<D>()
    ensures Registered<D>([]) == multiset{}
  {
  }

  lemma RegisteredNext<D>(rs: seq<Registration<D>>, i: nat)
    requires i < |rs|
    ensures rs[..i + 1] == rs[..i] + [rs[i]]
    ensures Registered(rs[..i + 1]) == Registered(rs[..i]) + multiset{rs[i].m}
  {
    assert rs[..i + 1][..i] == rs[..i];
  }

  method RegisterNext<D>(b: MemoryBus<D>, ghost rs: seq<Registration<D>>, r: Registration<D>)
    requires b.Valid() && Holds(b.View(), rs)
    modifies b`preOp, b`tiers, b`postOp, r.m`refs
    ensures b.Valid() && Holds(b.View(), rs + [r]) && r.m.refs == old(r.m.refs) + 1
  {
    hide Holds;
    ghost var was := b.View();
    b.RegisterModule(r.tier, r.m);
    HoldsNext(was, b.View(), rs, r);
  }

  lemma CountsCompare<D>(held: multiset<Module<D>>, all: multiset<Module<D>>, rs: seq<Registration<D>>)
    requires held <= all && forall m | m in all :: exists i: nat :: i < |rs| && rs[i].m == m
    ensures (forall i | 0 <= i < |rs| :: held[rs[i].m] == all[rs[i].m]) <==> held == all
  {
    if forall i | 0 <= i < |rs| :: held[rs[i].m] == all[rs[i].m] {
      forall m: Module<D> ensures held[m] == all[m] {
        if m in all {
          var i: nat :| i < |rs| && rs[i].m == m;
        }
      }
    }
  }

  lemma {:induction false} RegisteredIn<D>(rs: seq<Registration<D>>)
    ensures forall m | m in Registered(rs) :: exists i: nat :: i < |rs| && rs[i].m == m
    decreases |rs|
  {
    if rs != [] {
      var front := rs[..|rs| - 1];
      RegisteredIn(front);
      forall m | m in Registered(rs) ensures exists i: nat :: i < |rs| && rs[i].m == m {
        if m in Registered(front) {
          var i: nat :| i < |front| && front[i].m == m;
          assert rs[i].m == m;
        } else {
          assert rs[|rs| - 1].m == m;
        }
      }
    }
  }

  function CopyLength(r: Range): (n: nat)
    ensures r.lo + n <= 0x1_0000
  {
    if r.lo + r.len <= 0x1_0000 then r.len else 0xFFFF - r.lo
  }

  function WrittenAll<D>(b: BusState<D>, lo: nat, bytes: seq<byte>): BusState<D>
    requires lo + |bytes| <= 0x1_0000
    decreases |bytes|
  {
    if bytes == [] then b else WrittenAll(AfterWriting(b, lo, bytes[0]), lo + 1, bytes[1..])
  }

  function ReadAll<D>(b: BusState<D>, lo: nat, n: nat): (seq<byte>, BusState<D>)
    requires lo + n <= 0x1_0000
    decreases n, b
  {
    if n == 0 then ([], b)
    else
      var rest := ReadAll(AfterReading(b, lo), lo + 1, n - 1);
      ([ReadValue(b, lo)] + rest.0, rest.1)
  }

  lemma ReadAllStep<D>(b: BusState<D>, lo: nat, n: nat, before: seq<byte>)
    requires n > 0 && lo + n <= 0x1_0000
    ensures var all, rest := ReadAll(b, lo, n), ReadAll(AfterReading(b, lo), lo + 1, n - 1);
            before + all.0 == (before + [ReadValue(b, lo)]) + rest.0 && all.1 == rest.1
  {
    hide ReadValue, AfterReading;
  }
}
