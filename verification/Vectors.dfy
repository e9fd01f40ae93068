// The three words the memory bus keeps for itself at the top of the address space,
// and answers with where no module does.
module Vectors {
  import opened Words
  import opened Wrappers
  import opened Bus
  import opened StaticForms
  import opened Rings
  import opened Membus
  import opened Lookup

  predicate VectorAt(at: word) { at == 0xFFFA || at == 0xFFFC || at == 0xFFFE }

  function WordAt<D>(b: BusState<D>, at: word): word
    requires VectorAt(at)
  {
    if at == 0xFFFA then b.nmi else if at == 0xFFFC then b.res else b.irq
  }

  // Nobody accepts a read, or a write, at an address.
  predicate Unread<D>(b: BusState<D>, a: word) { !Search(b, a).verdict.Accepted? }

  predicate Unwritten<D>(b: BusState<D>, a: word, v: byte) {
    !Consult(Everyone(b.tiers), Store, Tell(b.pre, Store, b.d, a, Some(0)), a, v).verdict.Accepted?
  }

  predicate SameVectors<D>(b: BusState<D>, c: BusState<D>) { c.nmi == b.nmi && c.res == b.res && c.irq == b.irq }

  // Two bytes read one after the other where nobody accepts are the word kept there,
  // low byte first; both are cached although no module had them.
  lemma VectorRead<D>(b: BusState<D>, at: word)
    requires VectorAt(at) && Unread(b, at) && Unread(AfterReading(b, at), at + 1)
    ensures var c := AfterReading(b, at);
            var lo, hi := ReadValue(b, at), ReadValue(c, at + 1);
            && lo + 0x100 * hi == WordAt(b, at)
            && SameVectors(b, AfterReading(c, at + 1))
            && AfterReading(c, at + 1).rcache == if b.off then b.rcache else Push(Push(b.rcache, lo), hi)
  {
    hide Consult, Tell, Search;
    WholeWord(WordAt(b, at));
  }

  // They are that word also if the bus is asked for both in the same state.
  lemma VectorHalves<D>(b: BusState<D>, at: word)
    requires VectorAt(at) && Unread(b, at) && Unread(b, at + 1)
    ensures Word(ReadValue(b, at), ReadValue(b, at + 1)) == WordAt(b, at)
  {
    hide Consult, Tell, Search;
    WholeWord(WordAt(b, at));
  }

  lemma WholeWord(w: word)
    ensures w % 0x100 + 0x100 * (w / 0x100) == w
  {
  }

  // One byte written where nobody accepts changes its half of the word and nothing
  // else in the three.
  lemma HalfWritten<D>(b: BusState<D>, at: word, v: byte)
    requires VectorAt(at)
    ensures Unwritten(b, at, v) ==>
              var c := AfterWriting(b, at, v);
              && WordAt(c, at) == v + 0x100 * (WordAt(b, at) / 0x100)
              && forall other: word | VectorAt(other) && other != at :: WordAt(c, other) == WordAt(b, other)
    ensures Unwritten(b, at + 1, v) ==>
              var c := AfterWriting(b, at + 1, v);
              && WordAt(c, at) == WordAt(b, at) % 0x100 + 0x100 * v
              && forall other: word | VectorAt(other) && other != at :: WordAt(c, other) == WordAt(b, other)
  {
    hide Consult, Tell;
  }

  // Two bytes written where nobody accepts become the word, and the other two words
  // stay.
  lemma VectorWritten<D>(b: BusState<D>, at: word, lo: byte, hi: byte)
    requires VectorAt(at) && Unwritten(b, at, lo) && Unwritten(AfterWriting(b, at, lo), at + 1, hi)
    ensures var c := AfterWriting(AfterWriting(b, at, lo), at + 1, hi);
            && WordAt(c, at) == lo + 0x100 * hi
            && (forall other: word | VectorAt(other) && other != at :: WordAt(c, other) == WordAt(b, other))
            && c.wcache == (if b.off then b.wcache else Push(Push(b.wcache, lo), hi)) && c.rcache == b.rcache
  {
    hide Consult, Tell;
    HalvesOf(lo, hi);
  }

  lemma HalvesOf(lo: byte, hi: byte)
    ensures forall w: word :: Word(Lo(Word(lo, Hi(w))), hi) == Word(lo, hi)
  {
    forall w: word ensures Word(Lo(Word(lo, Hi(w))), hi) == Word(lo, hi) {
      assert Word(lo, Hi(w)) % 0x100 == lo;
    }
  }

  // Then reads there return it, as long as nobody accepts them either.
  lemma VectorReadBack<D>(b: BusState<D>, at: word, lo: byte, hi: byte)
    requires VectorAt(at) && Unwritten(b, at, lo) && Unwritten(AfterWriting(b, at, lo), at + 1, hi)
    requires var c := AfterWriting(AfterWriting(b, at, lo), at + 1, hi);
             Unread(c, at) && Unread(AfterReading(c, at), at + 1)
    ensures var c := AfterWriting(AfterWriting(b, at, lo), at + 1, hi);
            ReadValue(c, at) == lo && ReadValue(AfterReading(c, at), at + 1) == hi
  {
    hide AfterWriting, AfterReading, ReadValue;
    VectorWritten(b, at, lo, hi);
    var c := AfterWriting(AfterWriting(b, at, lo), at + 1, hi);
    VectorRead(c, at);
    SameHalves(ReadValue(c, at), ReadValue(AfterReading(c, at), at + 1), lo, hi);
  }

  lemma SameHalves(a: byte, b: byte, lo: byte, hi: byte)
    requires a + 0x100 * b == lo + 0x100 * hi
    ensures a == lo && b == hi
  {
  }

  // A write that a module accepts, or below the six bytes, leaves all three alone.
  lemma VectorsKept<D>(b: BusState<D>, a: word, v: byte)
    requires a < 0xFFFA || !Unwritten(b, a, v)
    ensures SameVectors(b, AfterWriting(b, a, v))
  {
    hide Consult, Tell;
  }

  // On a bus where nobody accepts reads at the vector, an interrupt goes to the word
  // kept there.
  lemma InterruptReachesWord<D>(k: Core<BusState<D>>, status: byte, at: word, j: Core<BusState<D>>)
    requires VectorAt(at) && Entered(MembusOps(), k, status, at, j)
    requires var m := Saved(MembusOps(), k.m, k.r.SP, k.r.PC, status);
             Unread(m, at) && Unread(AfterReading(m, at), at + 1)
    ensures j.r.PC == WordAt(k.m, at)
  {
    hide ReadValue, AfterReading, AfterWriting, Unread;
    var sp: byte, pc: word := k.r.SP, k.r.PC;
    var m1 := AfterWriting(k.m, 0x100 + sp, pc / 0x100);
    var m2 := AfterWriting(m1, 0x100 + (sp - 1) % 0x100, pc % 0x100);
    VectorsKept(k.m, 0x100 + sp, pc / 0x100);
    VectorsKept(m1, 0x100 + (sp - 1) % 0x100, pc % 0x100);
    VectorsKept(m2, 0x100 + (sp - 2) % 0x100, status);
    VectorRead(Saved(MembusOps(), k.m, sp, pc, status), at);
  }
}
