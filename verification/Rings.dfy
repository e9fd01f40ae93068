// The cyclic caches of the last eight bytes read and written.
module Rings {
  import opened Words

  type Cells = s: seq<byte> | |s| == 8 witness [0, 0, 0, 0, 0, 0, 0, 0]

  datatype Ring = Ring(idx: byte, cells: Cells)

  datatype Popped = Popped(v: byte, ring: Ring)

  function Push(q: Ring, v: byte): Ring {
    Ring(Inc8(q.idx), q.cells[q.idx % 8 := v])
  }

  function Pop(q: Ring): Popped {
    var i := Dec8(q.idx);
    Popped(q.cells[i % 8], q.(idx := i))
  }

  function PushAll(q: Ring, vs: seq<byte>): Ring {
    if vs == [] then q else Push(PushAll(q, vs[..|vs| - 1]), vs[|vs| - 1])
  }

  // The bytes that `k` pops return, in the order they are returned.
  function PopMany(q: Ring, k: nat): seq<byte>
    decreases k
  {
    if k == 0 then [] else
      var p := Pop(q);
      [p.v] + PopMany(p.ring, k - 1)
  }

  function Reversed(s: seq<byte>): (t: seq<byte>)
    ensures |t| == |s|
  {
    if s == [] then [] else [s[|s| - 1]] + Reversed(s[..|s| - 1])
  }

  // One step of the 8-bit index is one step around the eight cells, also where
  // the index wraps, because 8 divides 256.
  lemma SlotSteps(i: byte)
    ensures Inc8(i) % 8 == (if i % 8 == 7 then 0 else i % 8 + 1)
    ensures Dec8(i) % 8 == (if i % 8 == 0 then 7 else i % 8 - 1)
  {
  }

  // How many pops leave cell `s` unread when the next push would go to cell `i`.
  function Untouched(i: nat, s: nat): nat
    requires i < 8 && s < 8
  {
    if s < i then i - 1 - s else i + 7 - s
  }

  lemma {:induction false} PopsSkipCell(q: Ring, s: nat, v: byte, k: nat)
    requires s < 8 && k <= Untouched(q.idx % 8, s)
    ensures PopMany(q.(cells := q.cells[s := v]), k) == PopMany(q, k)
    decreases k
  {
    if k > 0 {
      SlotSteps(q.idx);
      PopsSkipCell(Pop(q).ring, s, v, k - 1);
    }
  }

  // Popping k <= 8 times returns the last k bytes pushed, newest first, from
  // any starting index and however often the index has wrapped.
  lemma {:induction false} PopsReturnLastPushes(q: Ring, vs: seq<byte>, k: nat)
    requires k <= 8 && k <= |vs|
    ensures PopMany(PushAll(q, vs), k) == Reversed(vs[|vs| - k..])
    decreases k
  {
    if k > 0 {
      var front, v := vs[..|vs| - 1], vs[|vs| - 1];
      var before := PushAll(q, front);
      PopsReturnLastPushes(q, front, k - 1);
      var p := Pop(PushAll(q, vs));
      assert p.v == v && p.ring == before.(cells := before.cells[before.idx % 8 := v]);
      PopsSkipCell(before, before.idx % 8, v, k - 1);
      assert vs[|vs| - k..][..k - 1] == front[|front| - (k - 1)..];
    }
  }

  function After(q: Ring, k: nat): (r: Ring)
    ensures r.cells == q.cells
  {
    if k == 0 then q else Pop(After(q, k - 1)).ring
  }

  // Seven slots on is one slot back.
  lemma SevenOn(x: nat)
    ensures (x + 7) % 8 == if x % 8 == 0 then 7 else x % 8 - 1
  {
  }

  lemma {:induction false} AfterSlot(q: Ring, k: nat)
    ensures After(q, k).idx % 8 == (q.idx + 7 * k) % 8
  {
    if k > 0 {
      AfterSlot(q, k - 1);
      SlotSteps(After(q, k - 1).idx);
      SevenOn(q.idx + 7 * (k - 1));
      assert q.idx + 7 * (k - 1) + 7 == q.idx + 7 * k;
    }
  }

  // Eight is sharp: the ninth pop returns the same cell as the first.
  lemma NinthPopRepeatsFirst(q: Ring)
    ensures Pop(After(q, 8)).v == Pop(q).v
  {
    AfterSlot(q, 8);
    SlotSteps(q.idx);
    SlotSteps(After(q, 8).idx);
  }

  // The index the peek macros compute. The subtraction is done on `int`, where C's
  // remainder keeps the sign, and not on the 8-bit index as the pop macros do it.
  function PeekIndex(idx: byte): int { if idx == 0 then -1 else (idx - 1) % 8 }

  // Peeking shows the byte a pop would return, from inside the array, exactly when
  // the index is not 0; there it reads in front of the array.
  lemma PeekShowsNextPopIff(q: Ring)
    ensures 0 <= PeekIndex(q.idx) < 8 && q.cells[PeekIndex(q.idx)] == Pop(q).v && PeekIndex(q.idx) == Dec8(q.idx) % 8
            <==> q.idx != 0
    ensures q.idx == 0 ==> PeekIndex(q.idx) == -1
  {
    SlotSteps(q.idx);
  }
}
