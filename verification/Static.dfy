// The static handlers: the whole instruction in one call that adds the cycles it
// stands for to the context. Locals that the C code reads before setting them are
// the fields of `Unset`, whatever the stack held.
module Static {
  import opened Words
  import opened Wrappers
  import opened Registers
  import opened Bus
  import opened Isa
  import opened Operate
  import opened Staged

  datatype Unset = Unset(addr8: byte, flags: Status, operand: byte, cycles: byte)

  datatype Ran<M> = Ran(k: Core<M>, cycles: nat)

  // An effective address, the core after computing it, and whether indexing
  // left the page.
  datatype Ea<M> = Ea(addr: word, k: Core<M>, crossed: bool)

  datatype Got<M> = Got(v: byte, k: Core<M>, cycles: nat)

  function FetchWord<M>(bus: BusOps<M>, k: Core<M>): Ea<M> {
    var lo := Fetch(bus, k);
    var hi := Fetch(bus, lo.k);
    Ea(OrHigh(lo.v, hi.v), hi.k, false)
  }

  // A pointer in page zero whose second byte wraps within the page.
  function PointerAt<M>(bus: BusOps<M>, k: Core<M>, zp: byte): Ea<M> {
    var lo := Read(bus, k, zp);
    var hi := Read(bus, lo.k, Inc8(zp));
    Ea(OrHigh(lo.v, hi.v), hi.k, false)
  }

  function Indexed<M>(e: Ea<M>, index: byte): Ea<M> {
    var target := Add16(e.addr, index);
    Ea(target, e.k, !SamePage(e.addr, target))
  }

  // Every mode that names a memory byte.
  function Address<M>(bus: BusOps<M>, m: Mode, k: Core<M>): Ea<M> {
    match m
    case ZeroPage => var f := Fetch(bus, k); Ea(f.v, f.k, false)
    case ZeroPageX => var f := Fetch(bus, k); Ea(Add8(f.v, k.r.X), f.k, false)
    case ZeroPageY => var f := Fetch(bus, k); Ea(Add8(f.v, k.r.Y), f.k, false)
    case AbsoluteX => Indexed(FetchWord(bus, k), k.r.X)
    case AbsoluteY => Indexed(FetchWord(bus, k), k.r.Y)
    case IndexedIndirect => var f := Fetch(bus, k); PointerAt(bus, f.k, Add8(f.v, k.r.X))
    case IndirectIndexed => var f := Fetch(bus, k); Indexed(PointerAt(bus, f.k, f.v), k.r.Y)
    case _ => FetchWord(bus, k)
  }

  function ReadCycles(m: Mode, crossed: bool): nat {
    match m
    case Immediate => 1
    case ZeroPage => 2
    case AbsoluteX => 3 + Bit(crossed)
    case AbsoluteY => 3 + Bit(crossed)
    case IndexedIndirect => 5
    case IndirectIndexed => 4 + Bit(crossed)
    case _ => 3
  }

  function WriteCycles(m: Mode): nat {
    match m
    case ZeroPage => 2
    case AbsoluteX => 4
    case AbsoluteY => 4
    case IndexedIndirect => 5
    case IndirectIndexed => 5
    case _ => 3
  }

  function ModifyCycles(m: Mode): nat {
    match m
    case ZeroPage => 4
    case AbsoluteX => 6
    case _ => 5
  }

  // The operand of a reading or adding instruction. ADC, SBC, AND, ORA and EOR
  // read an address that was never set in the two absolute indexed modes, so for
  // them `unset` is present.
  function Operand<M>(bus: BusOps<M>, m: Mode, k: Core<M>, unset: Option<byte>): Got<M> {
    if m.Immediate? then
      var f := Fetch(bus, k);
      Got(f.v, f.k, 1)
    else
      var e := Address(bus, m, k);
      var from := if unset.Some? && (m.AbsoluteX? || m.AbsoluteY?) then unset.value else e.addr;
      var f := Read(bus, e.k, from);
      Got(f.v, f.k, ReadCycles(m, e.crossed))
  }

  // LDX is not handled in the Y-indexed modes the table gives it: operand and cycle
  // count stay unset, and nothing is fetched.
  function RunReading<M>(bus: BusOps<M>, op: ReadOp, m: Mode, k: Core<M>, u: Unset): Ran<M> {
    if op.LDX? && (m.ZeroPageY? || m.AbsoluteY?) then Ran(OnGot(op, Got(u.operand, k, 0)), u.cycles)
    else
      var g := Operand(bus, m, k, if IsLogic(op) then Some(u.addr8) else None);
      Ran(OnGot(op, g), g.cycles + Bit(Late(op, m)))
  }

  function OnGot<M>(op: ReadOp, g: Got<M>): Core<M> { g.k.(r := OnOperand(op, g.v, g.k.r)) }

  // LDX and LDY count one cycle too many in these modes.
  predicate Late(op: ReadOp, m: Mode) { (op.LDX? || op.LDY?) && !m.Immediate? && !m.ZeroPage? }

  function RunAdding<M>(bus: BusOps<M>, op: AddOp, m: Mode, k: Core<M>, u: Unset): Ran<M> {
    var g := Operand(bus, m, k, Some(u.addr8));
    Ran(g.k.(r := OrUnset(OnAddend(op, k.r.SR.D, g.v, g.k.r), u.flags)), g.cycles)
  }

  // ADC and SBC OR their new flags into a `flag_bits` that starts unset.
  function OrUnset(r: Regs, u: Status): Regs { r.(SR := OrStatus(r.SR, u)) }

  function OrStatus(s: Status, u: Status): Status {
    Status(s.C || u.C, s.Z || u.Z, s.I || u.I, s.D || u.D, s.B || u.B, s.IGN || u.IGN, s.V || u.V, s.N || u.N)
  }

  function RunStore<M>(bus: BusOps<M>, op: StoreOp, m: Mode, k: Core<M>): Ran<M> {
    var e := Address(bus, m, k);
    Ran(Write(bus, e.k, e.addr, Stored(op, k.r)), WriteCycles(m))
  }

  function RunBump<M>(bus: BusOps<M>, op: BumpOp, m: Mode, k: Core<M>): Ran<M> {
    var e := Address(bus, m, k);
    var f := Read(bus, e.k, e.addr);
    var v := Bumped(op, f.v);
    var w := Write(bus, f.k, e.addr, v);
    Ran(WithSr(w, SetNZ(w.r.SR, v)), ModifyCycles(m))
  }

  function RunShift<M>(bus: BusOps<M>, op: ShiftOp, m: Mode, k: Core<M>): Ran<M> {
    if m.Accumulator? then Ran(k.(r := ShiftA(op, k.r)), 1)
    else
      var e := Address(bus, m, k);
      var f := Read(bus, e.k, e.addr);
      var s := ShiftOnce(op, f.v, k.r.SR.C);
      var g := WithSr(f.k, SetNZC(k.r.SR, Lo(s.v), s.c));
      Ran(Write(bus, g, e.addr, Lo(s.v)), ModifyCycles(m))
  }

  function RunJump<M>(bus: BusOps<M>, m: Mode, k: Core<M>): Ran<M> {
    var e := FetchWord(bus, k);
    if m.Absolute? then Ran(WithPc(e.k, e.addr), 2)
    else
      var lo := Read(bus, e.k, e.addr);
      var hi := Read(bus, lo.k, PageRoll(e.addr));
      Ran(WithPc(hi.k, OrHigh(lo.v, hi.v)), 4)
  }

  // A taken branch counts its cycles but never stores the new PC.
  function RunBranch<M>(bus: BusOps<M>, op: BranchOp, k: Core<M>): Ran<M> {
    var f := Fetch(bus, k);
    if Taken(op, k.r.SR) then
      Ran(f.k, 2 + Bit(!SamePage(Add16(f.k.r.PC, Signed(f.v)), f.k.r.PC)))
    else Ran(f.k, 1)
  }

  function PushPc<M>(bus: BusOps<M>, k: Core<M>): Core<M> {
    PushByte(bus, PushByte(bus, k, Hi(k.r.PC)), Lo(k.r.PC))
  }

  function RunJsr<M>(bus: BusOps<M>, k: Core<M>): Ran<M> {
    var e := FetchWord(bus, k);
    Ran(WithPc(PushPc(bus, e.k), e.addr), 5)
  }

  function PullPc<M>(bus: BusOps<M>, k: Core<M>): Core<M> {
    var lo := PopByte(bus, k);
    var hi := PopByte(bus, lo.k);
    WithPc(hi.k, OrHigh(lo.v, hi.v))
  }

  function RunRts<M>(bus: BusOps<M>, k: Core<M>): Ran<M> { Ran(PullPc(bus, k), 5) }

  function PullSr<M>(bus: BusOps<M>, k: Core<M>): Core<M> {
    var f := PopByte(bus, k);
    WithSr(f.k, Pulled(f.v))
  }

  function RunRti<M>(bus: BusOps<M>, k: Core<M>): Ran<M> { Ran(PullPc(bus, PullSr(bus, k)), 5) }

  function Vector<M>(bus: BusOps<M>, k: Core<M>, v: word): Core<M> {
    var lo := Read(bus, k, v);
    var hi := Read(bus, lo.k, Inc16(v));
    WithPc(hi.k, OrHigh(lo.v, hi.v))
  }

  // BRK skips a byte, pushes SR with B set and goes through the NMI vector.
  function RunBrk<M>(bus: BusOps<M>, k: Core<M>): Ran<M> {
    Ran(Vector(bus, Broken(bus, PushPc(bus, Fetch(bus, k).k)), NMI_VECTOR), 6)
  }

  function Broken<M>(bus: BusOps<M>, k: Core<M>): Core<M> {
    var q := PushByte(bus, k, Pack(k.r.SR.(B := true)));
    q.(r := Inhibited(q.r))
  }

  function RunInterrupt<M>(bus: BusOps<M>, k: Core<M>, vector: word): Ran<M> {
    Ran(Vector(bus, Interrupted(bus, k), vector), 5)
  }

  // PC and the status register pushed, further interrupts inhibited.
  function Interrupted<M>(bus: BusOps<M>, k: Core<M>): Core<M> {
    var p := PushPc(bus, k);
    var q := PushByte(bus, p, Pack(p.r.SR));
    q.(r := Inhibited(q.r))
  }

  function RunPha<M>(bus: BusOps<M>, k: Core<M>): Ran<M> { Ran(PushByte(bus, k, k.r.A), 2) }

  function RunPhp<M>(bus: BusOps<M>, k: Core<M>): Ran<M> {
    Ran(PushByte(bus, k, Pack(k.r.SR.(B := true, IGN := true))), 2)
  }

  function RunPla<M>(bus: BusOps<M>, k: Core<M>): Ran<M> {
    var f := PopByte(bus, k);
    Ran(f.k.(r := LoadA(f.k.r, f.v)), 3)
  }

  function RunPlp<M>(bus: BusOps<M>, k: Core<M>): Ran<M> { Ran(PullSr(bus, k), 3) }

  function RunControl<M>(bus: BusOps<M>, op: ControlOp, m: Mode, k: Core<M>): Ran<M> {
    match op
    case JMP => RunJump(bus, m, k)
    case JSR => RunJsr(bus, k)
    case RTS => RunRts(bus, k)
    case RTI => RunRti(bus, k)
    case NMI => RunInterrupt(bus, k, NMI_VECTOR)
    case IRQ => RunInterrupt(bus, k, IRQ_VECTOR)
    case PHA => RunPha(bus, k)
    case PHP => RunPhp(bus, k)
    case PLA => RunPla(bus, k)
    case PLP => RunPlp(bus, k)
  }

  // One call of a static handler. SED is the one-byte instruction that counts
  // no cycle.
  function Run<M>(bus: BusOps<M>, op: Op, m: Mode, k: Core<M>, u: Unset): Ran<M> {
    match op
    case Reading(o) => RunReading(bus, o, m, k, u)
    case Adding(o) => RunAdding(bus, o, m, k, u)
    case Storing(o) => RunStore(bus, o, m, k)
    case Bumping(o) => RunBump(bus, o, m, k)
    case Shifting(o) => RunShift(bus, o, m, k)
    case Branching(o) => RunBranch(bus, o, k)
    case Inherent(o) => Ran(k.(r := OneByte(o, k.r)), if o.SED? then 0 else 1)
    case Control(o) => RunControl(bus, o, m, k)
    case BRK => RunBrk(bus, k)
  }
}
