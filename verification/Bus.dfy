// What a processor may ask of a bus. The bus is any deterministic state machine:
// a read may change it (observers, caches) as well as a write. Theorems stated
// over `BusOps` therefore compare whole bus traffic, not only final contents:
// an instance whose state records its history tells two access orders apart.
module Bus {
  import opened Words
  import opened Registers

  datatype BusOps<!M> = BusOps(
    peek: (M, word) -> byte,             // the value a read returns
    afterRead: (M, word) -> M,           // the bus after a read
    afterWrite: (M, word, byte) -> M,    // the bus after a write
    cacheOff: M -> bool,                 // membus_get_cache_disable
    setCacheOff: (M, bool) -> M)         // membus_set_cache_disable

  // Registers and bus, the two things every handler works on.
  datatype Core<M> = Core(r: Regs, m: M)

  datatype Fetched<M> = Fetched(v: byte, k: Core<M>)

  function Read<M>(bus: BusOps<M>, k: Core<M>, addr: word): Fetched<M> {
    Fetched(bus.peek(k.m, addr), k.(m := bus.afterRead(k.m, addr)))
  }

  function Write<M>(bus: BusOps<M>, k: Core<M>, addr: word, v: byte): Core<M> {
    k.(m := bus.afterWrite(k.m, addr, v))
  }

  // Read at PC, then PC + 1 modulo 65536.
  function Fetch<M>(bus: BusOps<M>, k: Core<M>): Fetched<M> {
    var f := Read(bus, k, k.r.PC);
    f.(k := f.k.(r := f.k.r.(PC := Inc16(k.r.PC))))
  }

  function StackAddr(sp: byte): word { 0x100 + sp }

  // The stack pointer is decremented after the write and incremented before
  // the read; both wrap inside page one.
  function PushByte<M>(bus: BusOps<M>, k: Core<M>, v: byte): Core<M> {
    var w := Write(bus, k, StackAddr(k.r.SP), v);
    w.(r := w.r.(SP := Dec8(k.r.SP)))
  }

  function PopByte<M>(bus: BusOps<M>, k: Core<M>): Fetched<M> {
    var sp := Inc8(k.r.SP);
    Read(bus, k.(r := k.r.(SP := sp)), StackAddr(sp))
  }

  const NMI_VECTOR: word := 0xFFFA
  const IRQ_VECTOR: word := 0xFFFE
}
