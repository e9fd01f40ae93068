// The simplest bus: 65536 bytes, the two caches and the switch that turns caching
// off. `Devices` shows when the full bus behaves like it.
module Ram {
  import opened Words
  import opened Bus
  import opened Rings

  type Memory = s: seq<byte> | |s| == 0x1_0000 witness seq(0x1_0000, _ => 0)

  datatype Ram = Ram(bytes: Memory, rcache: Ring, wcache: Ring, off: bool)

  function Peek(m: Ram, a: word): byte { m.bytes[a] }

  function AfterRead(m: Ram, a: word): Ram {
    if m.off then m else m.(rcache := Push(m.rcache, m.bytes[a]))
  }

  function AfterWrite(m: Ram, a: word, v: byte): Ram {
    Ram(m.bytes[a := v], m.rcache, if m.off then m.wcache else Push(m.wcache, v), m.off)
  }

  function RamBus(): BusOps<Ram> {
    BusOps((m: Ram, a: word) => Peek(m, a), (m: Ram, a: word) => AfterRead(m, a),
           (m: Ram, a: word, v: byte) => AfterWrite(m, a, v), (m: Ram) => m.off,
           (m: Ram, off: bool) => m.(off := off))
  }

  // `bs` laid over the memory from address `lo` on.
  function Overlay(bytes: Memory, lo: nat, bs: seq<byte>): Memory
    requires lo + |bs| <= 0x1_0000
  {
    bytes[..lo] + bs + bytes[lo + |bs|..]
  }

  lemma OverlayStep(bytes: Memory, lo: word, bs: seq<byte>)
    requires bs != [] && lo + |bs| <= 0x1_0000
    ensures Overlay(bytes[lo := bs[0]], lo + 1, bs[1..]) == Overlay(bytes, lo, bs)
  {
  }
}
