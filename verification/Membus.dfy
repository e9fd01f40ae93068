// The memory bus: tiers of modules in sorted lists, walked with early exits, and
// what the walk amounts to.
module Membus {
  import opened Words
  import opened Wrappers

  datatype Range = Range(lo: word, len: word)

  // memory_addr_range_does_include
  predicate Includes(r: Range, a: word) { r.len != 0 && r.lo <= a < r.lo + r.len }

  datatype Verdict = NotAccepted | Accepted | Observed

  // A callback's answer, the devices after it, and what `*value` holds.
  datatype Answer<D> = Answer(verdict: Verdict, d: D, v: byte)

  // Callbacks work on the state of all devices together. A read callback gets
  // where to put the value, with what is there now, or a null pointer.
  class Module<!D> {
    const range: Range
    const read: Option<(D, word, Option<byte>) -> Answer<D>>
    const write: Option<(D, word, byte) -> Answer<D>>
    var refs: nat

    constructor (range: Range, read: Option<(D, word, Option<byte>) -> Answer<D>>,
                 write: Option<(D, word, byte) -> Answer<D>>)
      ensures this.range == range && this.read == read && this.write == write && refs == 0
    {
      this.range, this.read, this.write, refs := range, read, write, 0;
    }

    method Retain()
      modifies this`refs
      ensures refs == old(refs) + 1
    {
      refs := refs + 1;
    }

    // The module is freed when its last reference goes.
    method Release() returns (freed: bool)
      requires refs > 0
      modifies this`refs
      ensures refs == old(refs) - 1 && freed == (refs == 0)
    {
      refs := refs - 1;
      freed := refs == 0;
    }
  }

  datatype Tier<!D> = Tier(tier: int, modules: seq<Module<D>>)

  // ---- Registration --------------------------------------------------------

  // Ahead of the first module that does not start lower.
  function Place<D>(ms: seq<Module<D>>, lo: word): (i: nat)
    ensures i <= |ms|
  {
    if ms == [] || ms[0].range.lo >= lo then 0 else 1 + Place(ms[1..], lo)
  }

  function Insert<D>(ms: seq<Module<D>>, m: Module<D>): seq<Module<D>> {
    var i := Place(ms, m.range.lo);
    ms[..i] + [m] + ms[i..]
  }

  function TierPlace<D>(ts: seq<Tier<D>>, tier: int): (i: nat)
    ensures i <= |ts|
  {
    if ts == [] || ts[0].tier >= tier then 0 else 1 + TierPlace(ts[1..], tier)
  }

  // A tier below all others becomes the root of a new chain, and the old chain is
  // not linked to it.
  function Register<D>(ts: seq<Tier<D>>, tier: int, m: Module<D>): seq<Tier<D>> {
    var i := TierPlace(ts, tier);
    if i < |ts| && ts[i].tier == tier then ts[i := Tier(tier, Insert(ts[i].modules, m))]
    else if i > 0 then ts[..i] + [Tier(tier, [m])] + ts[i..]
    else [Tier(tier, [m])]
  }

  predicate Ordered<D>(ms: seq<Module<D>>) {
    forall i: nat, j: nat | i < j < |ms| :: ms[i].range.lo <= ms[j].range.lo
  }

  predicate Sorted<D>(ts: seq<Tier<D>>) {
    && (forall i: nat, j: nat | i < j < |ts| :: ts[i].tier < ts[j].tier)
    && forall i: nat | i < |ts| :: Ordered(ts[i].modules)
  }

  lemma {:induction false} PlaceSplits<D>(ms: seq<Module<D>>, lo: word)
    ensures forall j: nat | j < Place(ms, lo) :: ms[j].range.lo < lo
    ensures Place(ms, lo) < |ms| ==> ms[Place(ms, lo)].range.lo >= lo
    decreases |ms|
  {
    if ms != [] && ms[0].range.lo < lo {
      PlaceSplits(ms[1..], lo);
    }
  }

  lemma {:induction false} TierPlaceSplits<D>(ts: seq<Tier<D>>, tier: int)
    ensures forall j: nat | j < TierPlace(ts, tier) :: ts[j].tier < tier
    ensures TierPlace(ts, tier) < |ts| ==> ts[TierPlace(ts, tier)].tier >= tier
    decreases |ts|
  {
    if ts != [] && ts[0].tier < tier {
      TierPlaceSplits(ts[1..], tier);
    }
  }

  lemma InsertOrdered<D>(ms: seq<Module<D>>, m: Module<D>)
    requires Ordered(ms)
    ensures Ordered(Insert(ms, m))
  {
    PlaceSplits(ms, m.range.lo);
  }

  lemma RegisterSorted<D>(ts: seq<Tier<D>>, tier: int, m: Module<D>)
    requires Sorted(ts)
    ensures Sorted(Register(ts, tier, m))
  {
    hide Insert, TierPlace;
    TierPlaceSplits(ts, tier);
    var i := TierPlace(ts, tier);
    if i < |ts| {
      InsertOrdered(ts[i].modules, m);
    }
  }

  datatype Registration<!D> = Registration(tier: int, m: Module<D>)

  function RegisterAll<D>(rs: seq<Registration<D>>): seq<Tier<D>> {
    if rs == [] then []
    else Register(RegisterAll(rs[..|rs| - 1]), rs[|rs| - 1].tier, rs[|rs| - 1].m)
  }

  // Whatever is registered, in whatever order, the lists are sorted.
  lemma {:induction false} AlwaysSorted<D>(rs: seq<Registration<D>>)
    ensures Sorted(RegisterAll(rs))
    decreases |rs|
  {
    if rs != [] {
      AlwaysSorted(rs[..|rs| - 1]);
      RegisterSorted(RegisterAll(rs[..|rs| - 1]), rs[|rs| - 1].tier, rs[|rs| - 1].m);
    }
  }

  // No registration asks for a tier below the first one's.
  predicate NoneBelow<D>(rs: seq<Registration<D>>) { forall i: nat | i < |rs| :: rs[i].tier >= rs[0].tier }

  // The modules of a list that start at `lo`, in list order.
  function StartingAt<D>(ms: seq<Module<D>>, lo: word): seq<Module<D>> {
    if ms == [] then []
    else StartingAt(ms[..|ms| - 1], lo) + (if ms[|ms| - 1].range.lo == lo then [ms[|ms| - 1]] else [])
  }

  // The registrations in one tier at one start, the newest first.
  function NewestFirst<D>(rs: seq<Registration<D>>, tier: int, lo: word): seq<Module<D>> {
    if rs == [] then []
    else
      var r, older := rs[|rs| - 1], NewestFirst(rs[..|rs| - 1], tier, lo);
      if r.tier == tier && r.m.range.lo == lo then [r.m] + older else older
  }

  function InTier<D>(ts: seq<Tier<D>>, tier: int): seq<Module<D>> {
    if ts == [] then [] else if ts[0].tier == tier then ts[0].modules else InTier(ts[1..], tier)
  }

  lemma {:induction false} StartingAtConcat<D>(a: seq<Module<D>>, b: seq<Module<D>>, lo: word)
    ensures StartingAt(a + b, lo) == StartingAt(a, lo) + StartingAt(b, lo)
    decreases |b|
  {
    if b == [] {
      assert a + b == a;
    } else {
      assert (a + b)[..|a + b| - 1] == a + b[..|b| - 1];
      StartingAtConcat(a, b[..|b| - 1], lo);
    }
  }

  lemma {:induction false} StartingAtNone<D>(ms: seq<Module<D>>, lo: word)
    requires forall i: nat | i < |ms| :: ms[i].range.lo != lo
    ensures StartingAt(ms, lo) == []
    decreases |ms|
  {
    if ms != [] {
      StartingAtNone(ms[..|ms| - 1], lo);
    }
  }

  // Insertion cuts the list in two, with only lower starts in front.
  lemma InsertCuts<D>(ms: seq<Module<D>>, m: Module<D>) returns (a: seq<Module<D>>, b: seq<Module<D>>)
    ensures ms == a + b && Insert(ms, m) == a + [m] + b
    ensures forall i: nat | i < |a| :: a[i].range.lo < m.range.lo
  {
    var i := Place(ms, m.range.lo);
    PlaceSplits(ms, m.range.lo);
    a, b := ms[..i], ms[i..];
  }

  lemma InsertStartingAt<D>(ms: seq<Module<D>>, m: Module<D>, lo: word)
    ensures StartingAt(Insert(ms, m), lo) == (if m.range.lo == lo then [m] else []) + StartingAt(ms, lo)
  {
    hide StartingAt, Insert;
    var a, b := InsertCuts(ms, m);
    StartingAtConcat(a, b, lo);
    StartingAtAround(a, m, b, lo);
    if m.range.lo == lo {
      StartingAtNone(a, lo);
      assert [] + [m] + StartingAt(b, lo) == [m] + ([] + StartingAt(b, lo));
    } else {
      assert StartingAt(a, lo) + [] + StartingAt(b, lo) == [] + (StartingAt(a, lo) + StartingAt(b, lo));
    }
  }

  lemma StartingAtAround<D>(a: seq<Module<D>>, m: Module<D>, b: seq<Module<D>>, lo: word)
    ensures StartingAt(a + [m] + b, lo)
            == StartingAt(a, lo) + (if m.range.lo == lo then [m] else []) + StartingAt(b, lo)
  {
    StartingAtConcat(a + [m], b, lo);
    StartingAtConcat(a, [m], lo);
    assert [m][..0] == [];
  }

  lemma {:induction false} InTierAt<D>(ts: seq<Tier<D>>, i: nat)
    requires Sorted(ts) && i < |ts|
    ensures InTier(ts, ts[i].tier) == ts[i].modules
    decreases |ts|
  {
    if i > 0 {
      SortedTail(ts);
      InTierAt(ts[1..], i - 1);
    }
  }

  lemma SortedTail<D>(ts: seq<Tier<D>>)
    requires Sorted(ts) && ts != []
    ensures Sorted(ts[1..])
  {
  }

  lemma {:induction false} InTierNone<D>(ts: seq<Tier<D>>, tier: int)
    requires forall i: nat | i < |ts| :: ts[i].tier != tier
    ensures InTier(ts, tier) == []
    decreases |ts|
  {
    if ts != [] {
      InTierNone(ts[1..], tier);
    }
  }

  // Registering above the head changes one tier and keeps the others.
  lemma RegisterInTier<D>(ts: seq<Tier<D>>, tier: int, m: Module<D>, t: int)
    requires Sorted(ts) && (ts != [] ==> ts[0].tier <= tier)
    ensures InTier(Register(ts, tier, m), t) == if t == tier then Insert(InTier(ts, tier), m) else InTier(ts, t)
  {
    var i, us := TierPlace(ts, tier), Register(ts, tier, m);
    TierPlaceSplits(ts, tier);
    RegisterSorted(ts, tier, m);
    if i < |ts| && ts[i].tier == tier {
      InTierAt(ts, i);
      InTierAt(us, i);
      if t != tier { SameElsewhere(ts, us, i, t); }
    } else {
      assert ts[..i] + ts[i..] == ts;
      assert us == ts[..i] + [Tier(tier, [m])] + ts[i..];
      InTierNone(ts, tier);
      InTierAt(us, i);
      if t != tier { SameAround(ts, us, i, t); }
    }
  }

  lemma {:induction false} SameElsewhere<D>(ts: seq<Tier<D>>, us: seq<Tier<D>>, i: nat, t: int)
    requires i < |ts| == |us| && us == ts[i := us[i]] && us[i].tier == ts[i].tier != t
    ensures InTier(us, t) == InTier(ts, t)
    decreases i
  {
    if i > 0 {
      SameElsewhere(ts[1..], us[1..], i - 1, t);
    } else {
      assert us[1..] == ts[1..];
    }
  }

  lemma {:induction false} SameAround<D>(ts: seq<Tier<D>>, us: seq<Tier<D>>, i: nat, t: int)
    requires i <= |ts| && |us| == |ts| + 1 && us == ts[..i] + [us[i]] + ts[i..] && us[i].tier != t
    ensures InTier(us, t) == InTier(ts, t)
    decreases i
  {
    if i > 0 {
      assert us[1..] == ts[1..][..i - 1] + [us[i]] + ts[1..][i - 1..];
      SameAround(ts[1..], us[1..], i - 1, t);
    } else {
      assert us[1..] == ts;
    }
  }

  lemma HeadStays<D>(ts: seq<Tier<D>>, tier: int, m: Module<D>)
    requires ts != [] ==> ts[0].tier <= tier
    ensures Register(ts, tier, m) != []
    ensures Register(ts, tier, m)[0].tier == if ts == [] then tier else ts[0].tier
  {
    hide Insert;
    TierPlaceSplits(ts, tier);
  }

  lemma {:induction false} HeadIsFirst<D>(rs: seq<Registration<D>>)
    requires NoneBelow(rs) && rs != []
    ensures RegisterAll(rs) != [] && RegisterAll(rs)[0].tier == rs[0].tier
    decreases |rs|
  {
    hide Register;
    var front, r := rs[..|rs| - 1], rs[|rs| - 1];
    if front != [] { HeadIsFirst(front); }
    HeadStays(RegisterAll(front), r.tier, r.m);
  }

  // Registered with none below the first: in each tier, at each start, exactly the
  // modules registered there, the newest first. With `AlwaysSorted` this says
  // what every list is.
  lemma {:induction false} ExactContents<D>(rs: seq<Registration<D>>, tier: int, lo: word)
    requires NoneBelow(rs)
    ensures StartingAt(InTier(RegisterAll(rs), tier), lo) == NewestFirst(rs, tier, lo)
    decreases |rs|
  {
    hide Register, InTier, StartingAt, Sorted, Insert;
    if rs == [] {
      NothingStarts<D>(tier, lo);
    } else {
      var front, r := rs[..|rs| - 1], rs[|rs| - 1];
      var ts := RegisterAll(front);
      AlwaysSorted(front);
      if front != [] { HeadIsFirst(front); }
      ExactContents(front, tier, lo);
      RegisterInTier(ts, r.tier, r.m, tier);
      InTierOrdered(ts, tier);
      InsertStartingAt(InTier(ts, tier), r.m, lo);
    }
  }

  lemma NothingStarts<D>(tier: int, lo: word)
    ensures StartingAt(InTier<D>([], tier), lo) == []
  {
  }

  lemma {:induction false} InTierOrdered<D>(ts: seq<Tier<D>>, tier: int)
    requires Sorted(ts)
    ensures Ordered(InTier(ts, tier))
    decreases |ts|
  {
    if ts != [] && ts[0].tier != tier {
      SortedTail(ts);
      InTierOrdered(ts[1..], tier);
    }
  }

  function Total<D>(ts: seq<Tier<D>>): nat {
    if ts == [] then 0 else |ts[|ts| - 1].modules| + Total(ts[..|ts| - 1])
  }

  lemma {:induction false} TotalConcat<D>(a: seq<Tier<D>>, b: seq<Tier<D>>)
    ensures Total(a + b) == Total(a) + Total(b)
    decreases |b|
  {
    if b == [] {
      assert a + b == a;
    } else {
      assert (a + b)[..|a + b| - 1] == a + b[..|b| - 1];
      TotalConcat(a, b[..|b| - 1]);
    }
  }

  lemma RegisterTotal<D>(ts: seq<Tier<D>>, tier: int, m: Module<D>)
    requires Sorted(ts)
    ensures Total(Register(ts, tier, m)) == if ts != [] && tier < ts[0].tier then 1 else Total(ts) + 1
  {
    var i := TierPlace(ts, tier);
    TierPlaceSplits(ts, tier);
    if i < |ts| && ts[i].tier == tier {
      TotalReplace(ts, i, Tier(tier, Insert(ts[i].modules, m)));
      assert tier >= ts[0].tier;
    } else if i > 0 {
      TotalSplice(ts, i, Tier(tier, [m]));
    } else {
      TotalOne(Tier(tier, [m]));
    }
  }

  lemma TotalReplace<D>(ts: seq<Tier<D>>, i: nat, t: Tier<D>)
    requires i < |ts|
    ensures Total(ts[i := t]) == Total(ts) - |ts[i].modules| + |t.modules|
  {
    var us := ts[i := t];
    TotalAround(ts, i);
    TotalAround(us, i);
    assert us[..i] == ts[..i] && us[i + 1..] == ts[i + 1..];
  }

  lemma TotalAround<D>(ts: seq<Tier<D>>, i: nat)
    requires i < |ts|
    ensures Total(ts) == Total(ts[..i]) + |ts[i].modules| + Total(ts[i + 1..])
  {
    assert ts == ts[..i] + [ts[i]] + ts[i + 1..];
    TotalConcat(ts[..i] + [ts[i]], ts[i + 1..]);
    TotalConcat(ts[..i], [ts[i]]);
    TotalOne(ts[i]);
  }

  lemma TotalSplice<D>(ts: seq<Tier<D>>, i: nat, t: Tier<D>)
    requires i <= |ts|
    ensures Total(ts[..i] + [t] + ts[i..]) == Total(ts) + |t.modules|
  {
    assert ts == ts[..i] + ts[i..];
    TotalConcat(ts[..i], ts[i..]);
    TotalConcat(ts[..i] + [t], ts[i..]);
    TotalConcat(ts[..i], [t]);
    TotalOne(t);
  }

  lemma TotalOne<D>(t: Tier<D>)
    ensures Total([t]) == |t.modules|
  {
    assert [t][..0] == [];
    assert Total([t][..0]) == 0;
  }

  // Exactly then nothing is lost: the chain holds as many modules as were
  // registered if and only if none was registered below the first one's tier.
  lemma {:induction false} NothingLostIff<D>(rs: seq<Registration<D>>)
    ensures Total(RegisterAll(rs)) == |rs| <==> NoneBelow(rs)
    ensures Total(RegisterAll(rs)) <= |rs|
    ensures rs != [] ==> RegisterAll(rs) != [] && RegisterAll(rs)[0].tier <= rs[0].tier
    ensures rs != [] && NoneBelow(rs) ==> RegisterAll(rs)[0].tier == rs[0].tier
    decreases |rs|
  {
    hide Register, NoneBelow;
    if rs == [] {
      NoneBelowEmpty(rs);
    } else {
      var front, r := rs[..|rs| - 1], rs[|rs| - 1];
      var ts := RegisterAll(front);
      AlwaysSorted(front);
      NothingLostIff(front);
      RegisterTotal(ts, r.tier, r.m);
      RegisterHead(ts, r.tier, r.m);
      NoneBelowSnoc(rs);
    }
  }

  lemma RegisterHead<D>(ts: seq<Tier<D>>, tier: int, m: Module<D>)
    ensures var us := Register(ts, tier, m);
            us != [] && us[0].tier == if ts != [] && ts[0].tier <= tier then ts[0].tier else tier
  {
    TierPlaceSplits(ts, tier);
  }

  lemma NoneBelowEmpty<D>(rs: seq<Registration<D>>)
    requires rs == []
    ensures NoneBelow(rs)
  {
  }

  lemma NoneBelowSnoc<D>(rs: seq<Registration<D>>)
    requires rs != []
    ensures NoneBelow(rs) <==> NoneBelow(rs[..|rs| - 1]) && rs[|rs| - 1].tier >= rs[0].tier
  {
    if NoneBelow(rs[..|rs| - 1]) && rs[|rs| - 1].tier >= rs[0].tier {
      forall i: nat | i < |rs| ensures rs[i].tier >= rs[0].tier {
        if i < |rs| - 1 { assert rs[..|rs| - 1][i] == rs[i]; }
      }
    }
    if NoneBelow(rs) {
      var front := rs[..|rs| - 1];
      forall i: nat | i < |front| ensures front[i].tier >= front[0].tier { assert rs[i].tier >= rs[0].tier; }
    }
  }

  // ---- What the lists hold -------------------------------------------------

  function Everyone<D>(ts: seq<Tier<D>>): seq<Module<D>> {
    if ts == [] then [] else ts[0].modules + Everyone(ts[1..])
  }

  // Every module as often as it has been registered.
  function Registered<D>(rs: seq<Registration<D>>): multiset<Module<D>> {
    if rs == [] then multiset{} else Registered(rs[..|rs| - 1]) + multiset{rs[|rs| - 1].m}
  }

  lemma InsertHolds<D>(ms: seq<Module<D>>, m: Module<D>)
    ensures multiset(Insert(ms, m)) == multiset(ms) + multiset{m}
  {
    var i := Place(ms, m.range.lo);
    assert ms == ms[..i] + ms[i..];
  }

  lemma {:induction false} EveryoneConcat<D>(a: seq<Tier<D>>, b: seq<Tier<D>>)
    ensures Everyone(a + b) == Everyone(a) + Everyone(b)
    decreases |a|
  {
    if a == [] {
      assert a + b == b;
    } else {
      assert (a + b)[1..] == a[1..] + b;
      EveryoneConcat(a[1..], b);
    }
  }

  lemma EveryoneAround<D>(a: seq<Tier<D>>, t: Tier<D>, b: seq<Tier<D>>)
    ensures Everyone(a + [t] + b) == Everyone(a) + t.modules + Everyone(b)
  {
    EveryoneConcat(a + [t], b);
    EveryoneConcat(a, [t]);
    assert [t][1..] == [];
  }

  lemma ReplaceHolds<D>(ts: seq<Tier<D>>, i: nat, m: Module<D>)
    requires i < |ts|
    ensures multiset(Everyone(ts[i := Tier(ts[i].tier, Insert(ts[i].modules, m))]))
            == multiset(Everyone(ts)) + multiset{m}
  {
    var t := Tier(ts[i].tier, Insert(ts[i].modules, m));
    var a, b := ts[..i], ts[i + 1..];
    InsertHolds(ts[i].modules, m);
    assert ts == a + [ts[i]] + b;
    assert ts[i := t] == a + [t] + b;
    EveryoneAround(a, ts[i], b);
    EveryoneAround(a, t, b);
  }

  lemma SpliceHolds<D>(ts: seq<Tier<D>>, i: nat, tier: int, m: Module<D>)
    requires i <= |ts|
    ensures multiset(Everyone(ts[..i] + [Tier(tier, [m])] + ts[i..])) == multiset(Everyone(ts)) + multiset{m}
  {
    var a, b := ts[..i], ts[i..];
    assert ts == a + b;
    EveryoneConcat(a, b);
    EveryoneAround(a, Tier(tier, [m]), b);
  }

  // A registration that is not below the head keeps all that was there and adds
  // the module once; one below the head keeps nothing else.
  lemma RegisterHolds<D>(ts: seq<Tier<D>>, tier: int, m: Module<D>)
    ensures multiset(Everyone(Register(ts, tier, m)))
            == (if ts != [] && tier < ts[0].tier then multiset{} else multiset(Everyone(ts))) + multiset{m}
  {
    hide Insert, Everyone;
    var i := TierPlace(ts, tier);
    TierPlaceSplits(ts, tier);
    if i < |ts| && ts[i].tier == tier {
      ReplaceHolds(ts, i, m);
      assert ts[0].tier <= tier;
    } else if i > 0 {
      SpliceHolds(ts, i, tier, m);
    } else {
      EveryoneAround([], Tier(tier, [m]), []);
      EveryoneNone<D>();
      assert [] + [Tier(tier, [m])] + [] == [Tier(tier, [m])];
    }
  }

  lemma EveryoneNone<D>()
    ensures Everyone<D>([]) == []
  {
  }

  lemma {:induction false} EveryoneCounts<D>(ts: seq<Tier<D>>)
    ensures |Everyone(ts)| == Total(ts)
    decreases |ts|
  {
    if ts != [] {
      var front, last := ts[..|ts| - 1], ts[|ts| - 1];
      EveryoneCounts(front);
      assert ts == front + [last];
      EveryoneConcat(front, [last]);
      assert [last][1..] == [];
    }
  }

  lemma {:induction false} RegisteredCounts<D>(rs: seq<Registration<D>>)
    ensures |Registered(rs)| == |rs|
    decreases |rs|
  {
    if rs != [] {
      RegisteredCounts(rs[..|rs| - 1]);
    }
  }

  lemma {:induction false} HeldWithinRegistered<D>(rs: seq<Registration<D>>)
    ensures multiset(Everyone(RegisterAll(rs))) <= Registered(rs)
    ensures NoneBelow(rs) ==> multiset(Everyone(RegisterAll(rs))) == Registered(rs)
    decreases |rs|
  {
    hide Register, Everyone, NoneBelow;
    if rs == [] {
      EveryoneNone<D>();
    } else {
      var front, r := rs[..|rs| - 1], rs[|rs| - 1];
      var ts := RegisterAll(front);
      HeldWithinRegistered(front);
      NoneBelowSnoc(rs);
      NothingLostIff(front);
      RegisterHolds(ts, r.tier, r.m);
    }
  }

  // The lists never hold a module more often than it was registered, and hold
  // every module exactly as often if and only if none was registered below the
  // first one's tier.
  lemma EveryoneIsHeldIff<D>(rs: seq<Registration<D>>)
    ensures multiset(Everyone(RegisterAll(rs))) <= Registered(rs)
    ensures multiset(Everyone(RegisterAll(rs))) == Registered(rs) <==> NoneBelow(rs)
  {
    hide RegisterAll, Everyone, Registered, NoneBelow;
    HeldWithinRegistered(rs);
    NothingLostIff(rs);
    EveryoneCounts(RegisterAll(rs));
    RegisteredCounts(rs);
    assert |multiset(Everyone(RegisterAll(rs)))| == |Everyone(RegisterAll(rs))|;
  }
}
