// The staged handlers: one call per clock cycle, with the operands that are kept
// in C `static` locals between calls held in a `Latch`. A `...Plan` function is a
// handler's timetable, which micro-operation each call performs; `Perform`
// carries a micro-operation out; the `Step...` functions add what each family of
// handlers does after its switch.
module Staged {
  import opened Words
  import opened Registers
  import opened Bus
  import opened Isa
  import opened Operate

  // ADDR16, ADDR8, the operand (also DELTA, INDIRECT, and the pushed or pulled A),
  // the pushed or pulled SR, is_penultimate and is_BCD of one handler.
  datatype Latch = Latch(addr16: word, addr8: byte, operand: word, sr: Status, penultimate: bool, bcd: bool)

  datatype Cpu<M> = Cpu(k: Core<M>, l: Latch)

  datatype Stepped<M> = Stepped(c: Cpu<M>, ended: bool)

  datatype Access = Nothing | Program | At(addr: word) | Push(v: byte) | PushStatus(s: Status) | Pull

  datatype Local = Local(r: Regs, l: Latch)

  function Carry<M>(bus: BusOps<M>, k: Core<M>, a: Access): Fetched<M> {
    match a
    case Nothing => Fetched(0, k)
    case Program => Fetch(bus, k)
    case At(addr) => Read(bus, k, addr)
    case Push(v) => Fetched(0, PushByte(bus, k, v))
    case PushStatus(s) => Fetched(0, PushByte(bus, k, Pack(s)))
    case Pull => PopByte(bus, k)
  }

  // ---- Operand addressing --------------------------------------------------

  // Each makes at most one bus access. `last` marks an instruction's last call;
  // AbsPlusRead ends early when indexing crosses no page.
  datatype Micro =
    | Rest(last: bool)
    | Imm                              // operand from the program
    | ZpFetch(last: bool) | LoFetch | HiFetch
    | ZpPlus(y: bool) | AbsPlus(y: bool) | AbsPlusRead(y: bool)
    | ZpRead(last: bool) | ZpReadMove | AbsRead(last: bool)
    | PtrLo | PtrHi | PtrOr
    | Move                             // addr16 := addr8, and end
    | Bump(bump: BumpOp) | Penultimate

  const IDLE := Rest(false)

  function Index(y: bool, r: Regs): byte { if y then r.Y else r.X }

  function AccessOf(u: Micro, r: Regs, l: Latch): Access {
    match u
    case Imm => Program
    case ZpFetch(_) => Program
    case LoFetch => Program
    case HiFetch => Program
    case ZpRead(_) => At(l.addr8)
    case ZpReadMove => At(l.addr8)
    case PtrLo => At(l.addr8)
    case PtrHi => At(l.addr8)
    case PtrOr => At(l.addr8)
    case AbsRead(_) => At(l.addr16)
    case AbsPlusRead(y) =>
      var target := Add16(l.addr16, Index(y, r));
      if SamePage(l.addr16, target) then At(target) else Nothing
    case _ => Nothing
  }

  // What the byte `v` from the bus does to the latch.
  function Absorb(u: Micro, v: byte, r: Regs, l: Latch): Latch {
    match u
    case Imm => l.(operand := v)
    case ZpFetch(_) => l.(addr8 := v)
    case LoFetch => l.(addr16 := v)
    case HiFetch => l.(addr16 := OrHigh(l.addr16, v))
    case ZpPlus(y) => l.(addr8 := Add8(l.addr8, Index(y, r)))
    case AbsPlus(y) => l.(addr16 := Add16(l.addr16, Index(y, r)))
    case AbsPlusRead(y) =>
      var target := Add16(l.addr16, Index(y, r));
      l.(addr16 := target, operand := if SamePage(l.addr16, target) then v else l.operand)
    case ZpRead(_) => l.(operand := v)
    case ZpReadMove => l.(operand := v, addr16 := l.addr8)
    case AbsRead(_) => l.(operand := v)
    case PtrLo => l.(addr16 := v, addr8 := Inc8(l.addr8))
    case PtrHi => l.(addr16 := OrHigh(l.addr16, v))
    case PtrOr => l.(addr16 := OrLow(l.addr16, v))
    case Move => l.(addr16 := l.addr8)
    case Bump(b) => l.(operand := Bumped(b, Lo(l.operand)))
    case Penultimate => l.(penultimate := true)
    case Rest(_) => l
  }

  predicate Ends(u: Micro, r: Regs, l: Latch) {
    match u
    case Rest(last) => last
    case Imm => true
    case ZpFetch(last) => last
    case ZpRead(last) => last
    case AbsRead(last) => last
    case AbsPlusRead(y) => SamePage(l.addr16, Add16(l.addr16, Index(y, r)))
    case Move => true
    case _ => false
  }

  function Perform<M>(bus: BusOps<M>, u: Micro, c: Cpu<M>): Stepped<M> {
    var f := Carry(bus, c.k, AccessOf(u, c.k.r, c.l));
    Stepped(Cpu(f.k, Absorb(u, f.v, c.k.r, c.l)), Ends(u, c.k.r, c.l))
  }

  // ---- Timetables of the operand instructions ------------------------------

  predicate ZpBased(m: Mode) { m.ZeroPage? || m.ZeroPageX? || m.IndexedIndirect? || m.IndirectIndexed? }

  predicate AbsBased(m: Mode) { m.Absolute? || m.AbsoluteX? || m.AbsoluteY? }

  function FirstCall(m: Mode): Micro {
    if m.Immediate? then Imm else if ZpBased(m) then ZpFetch(false) else if AbsBased(m) then LoFetch else IDLE
  }

  function AluPlan(m: Mode, cycle: nat): Micro {
    match cycle
    case 1 => FirstCall(m)
    case 2 =>
      if m.ZeroPage? then ZpRead(true) else if m.ZeroPageX? || m.IndexedIndirect? then ZpPlus(false)
      else if AbsBased(m) then HiFetch else if m.IndirectIndexed? then PtrLo else IDLE
    case 3 =>
      if m.ZeroPageX? then ZpRead(true) else if m.Absolute? then AbsRead(true)
      else if m.AbsoluteX? then AbsPlusRead(false) else if m.AbsoluteY? then AbsPlusRead(true)
      else if m.IndexedIndirect? then PtrLo else if m.IndirectIndexed? then PtrHi else IDLE
    case 4 =>
      if m.AbsoluteX? || m.AbsoluteY? then AbsRead(true) else if m.IndexedIndirect? then PtrHi
      else if m.IndirectIndexed? then AbsPlusRead(true) else IDLE
    case 5 => AbsRead(true)
    case _ => IDLE
  }

  // The fourth call of LDA (zp),Y also indexes; see `SecondPlan`.
  function LdaPlan(m: Mode, cycle: nat): Micro {
    match cycle
    case 2 => if m.IndexedIndirect? || m.IndirectIndexed? then IDLE else AluPlan(m, 2)
    case 3 => if m.IndexedIndirect? then ZpPlus(false) else if m.IndirectIndexed? then PtrLo else AluPlan(m, 3)
    case 4 => if m.IndexedIndirect? then PtrLo else if m.IndirectIndexed? then PtrOr else AluPlan(m, 4)
    case _ => AluPlan(m, cycle)
  }

  function CmpPlan(m: Mode, cycle: nat): Micro {
    match cycle
    case 1 => if ZpBased(m) then ZpFetch(true) else FirstCall(m)
    case 3 => if m.Absolute? then ZpRead(true) else if m.IndirectIndexed? then PtrOr else AluPlan(m, 3)
    case 4 => if m.IndexedIndirect? then PtrOr else AluPlan(m, 4)
    case _ => AluPlan(m, cycle)
  }

  // LDX and LDY: no Y-indexed mode is handled.
  function LdxPlan(m: Mode, cycle: nat): Micro {
    if m.AbsoluteY? || m.IndexedIndirect? || m.IndirectIndexed? || cycle > 4 then IDLE else AluPlan(m, cycle)
  }

  // BIT, CPX and CPY: the third call reads through addr16 in every mode.
  function CpxPlan(m: Mode, cycle: nat): Micro {
    match cycle
    case 1 => if m.ZeroPage? || m.Absolute? || m.Immediate? then FirstCall(m) else IDLE
    case 2 => if m.ZeroPage? then ZpRead(true) else if m.Absolute? then HiFetch else IDLE
    case 3 => AbsRead(true)
    case _ => IDLE
  }

  function ReadPlan(op: ReadOp, m: Mode, cycle: nat): Micro {
    match op
    case LDA => LdaPlan(m, cycle)
    case LDX => LdxPlan(m, cycle)
    case LDY => LdxPlan(m, cycle)
    case CMP => CmpPlan(m, cycle)
    case CPX => CpxPlan(m, cycle)
    case CPY => CpxPlan(m, cycle)
    case BIT => CpxPlan(m, cycle)
    case _ => AluPlan(m, cycle)
  }

  function StaPlan(m: Mode, cycle: nat): Micro {
    match cycle
    case 1 => if m.Immediate? then IDLE else FirstCall(m)
    case 2 =>
      if m.ZeroPage? then Move else if m.ZeroPageX? then ZpPlus(false) else if AbsBased(m) then HiFetch else IDLE
    case 3 =>
      if m.ZeroPageX? then Move else if m.Absolute? then Rest(true)
      else if m.AbsoluteX? then AbsPlus(false) else if m.AbsoluteY? then AbsPlus(true)
      else if m.IndexedIndirect? then ZpPlus(false) else if m.IndirectIndexed? then PtrLo else IDLE
    case 4 =>
      if m.AbsoluteX? || m.AbsoluteY? then Rest(true) else if m.IndexedIndirect? then PtrLo
      else if m.IndirectIndexed? then PtrHi else IDLE
    case 5 => if m.IndexedIndirect? then PtrHi else if m.IndirectIndexed? then AbsPlus(true) else IDLE
    case _ => IDLE
  }

  // STX indexes by Y, STY by X; the third call ends in every mode.
  function StxPlan(m: Mode, y: bool, cycle: nat): Micro {
    var indexed := if y then m.ZeroPageY? else m.ZeroPageX?;
    match cycle
    case 1 => if m.ZeroPage? || indexed then ZpFetch(false) else if m.Absolute? then LoFetch else IDLE
    case 2 => if m.ZeroPage? then Move else if indexed then ZpPlus(y) else if m.Absolute? then HiFetch else IDLE
    case 3 => if indexed then Move else Rest(true)
    case _ => IDLE
  }

  function StorePlan(op: StoreOp, m: Mode, cycle: nat): Micro {
    match op
    case STA => StaPlan(m, cycle)
    case STX => StxPlan(m, true, cycle)
    case STY => StxPlan(m, false, cycle)
  }

  predicate RmwMode(m: Mode) { m.ZeroPage? || m.ZeroPageX? || m.Absolute? || m.AbsoluteX? }

  function BumpPlan(op: BumpOp, m: Mode, cycle: nat): Micro {
    match cycle
    case 1 => if RmwMode(m) then FirstCall(m) else IDLE
    case 2 =>
      if m.ZeroPage? then ZpReadMove else if m.ZeroPageX? then ZpPlus(false)
      else if m.Absolute? || m.AbsoluteX? then HiFetch else IDLE
    case 3 =>
      if m.ZeroPage? then Bump(op) else if m.ZeroPageX? then ZpReadMove
      else if m.Absolute? then AbsRead(false) else if m.AbsoluteX? then AbsPlus(false) else IDLE
    case 4 =>
      if m.ZeroPage? then Rest(true) else if m.ZeroPageX? || m.Absolute? then Bump(op)
      else if m.AbsoluteX? then AbsRead(false) else IDLE
    case 5 => if m.ZeroPageX? || m.Absolute? then Rest(true) else if m.AbsoluteX? then Bump(op) else IDLE
    case 6 => Rest(true)
    case _ => IDLE
  }

  // The accumulator form is done in the first call.
  function ShiftPlan(m: Mode, cycle: nat): Micro {
    match cycle
    case 1 => if RmwMode(m) then FirstCall(m) else Rest(m.Accumulator?)
    case 2 =>
      if m.ZeroPage? then ZpRead(false) else if m.ZeroPageX? then ZpPlus(false)
      else if m.Absolute? || m.AbsoluteX? then HiFetch else IDLE
    case 3 =>
      if m.ZeroPage? then Penultimate else if m.ZeroPageX? then ZpRead(false)
      else if m.Absolute? then AbsRead(false) else if m.AbsoluteX? then AbsPlus(false) else IDLE
    case 4 =>
      if m.ZeroPage? then Move else if m.ZeroPageX? || m.Absolute? then Penultimate
      else if m.AbsoluteX? then AbsRead(false) else IDLE
    case 5 =>
      if m.ZeroPageX? then Move else if m.Absolute? then Rest(true) else if m.AbsoluteX? then Penultimate else IDLE
    case 6 => Rest(true)
    case _ => IDLE
  }

  // ---- Control flow, stack and branches ------------------------------------

  datatype ControlMicro =
    | Pause(last: bool)
    | Delta(last: bool)                // operand from the program
    | TargetLo | TargetHi(last: bool)
    | Displace                         // branch target; ends early on the same page
    | IndLo | IndHi
    | PushPcHi | PushPcLo | PushBrk | PushSr | SetI
    | VecLo(vector: word) | VecHi(vector: word) | VecPcLo | VecPcHi
    | PopOperand | PopStatus | MaskStatus | StatusToSr(last: bool) | PopLo | PopHi | PopPc
    | AToOperand | PushOperand | OperandToA | SrToStatus | PushLatched

  function ControlAccess(u: ControlMicro, r: Regs, l: Latch): Access {
    match u
    case Delta(_) => Program
    case TargetLo => Program
    case TargetHi(_) => Program
    case IndLo => At(l.addr16)
    case IndHi => At(l.addr16)
    case VecLo(v) => At(v)
    case VecHi(v) => At(Inc16(v))
    case VecPcLo => At(NMI_VECTOR)
    case VecPcHi => At(Inc16(NMI_VECTOR))
    case PushPcHi => Push(Hi(r.PC))
    case PushPcLo => Push(Lo(r.PC))
    case PushBrk => PushStatus(r.SR.(B := true))
    case PushSr => PushStatus(r.SR)
    case PushOperand => Push(Lo(l.operand))
    case PushLatched => PushStatus(l.sr)
    case PopOperand => Pull
    case PopStatus => Pull
    case PopLo => Pull
    case PopHi => Pull
    case PopPc => Pull
    case _ => Nothing
  }

  function ControlAbsorb(u: ControlMicro, v: byte, r: Regs, l: Latch): Local {
    match u
    case Delta(_) => Local(r, l.(operand := v))
    case TargetLo => Local(r, l.(addr16 := v))
    case TargetHi(_) => Local(r, l.(addr16 := OrHigh(l.addr16, v)))
    case Displace => Local(r, l.(addr16 := Add16(r.PC, Signed(Lo(l.operand)))))
    case IndLo => Local(r, l.(operand := v, addr16 := PageRoll(l.addr16)))
    case IndHi => Local(r, l.(addr16 := OrHigh(l.operand, v)))
    case PushSr => Local(Inhibited(r), l)
    case SetI => Local(Inhibited(r), l)
    case VecLo(_) => Local(r, l.(addr16 := v))
    case VecHi(_) => Local(r, l.(addr16 := OrHigh(l.addr16, v)))
    case VecPcLo => Local(r.(PC := v), l)
    case VecPcHi => Local(r.(PC := OrHigh(r.PC, v)), l)
    case PopOperand => Local(r, l.(operand := v))
    case PopStatus => Local(r, l.(sr := Unpack(v)))
    case MaskStatus => Local(r, l.(sr := l.sr.(B := false, IGN := false)))
    case StatusToSr(_) => Local(r.(SR := l.sr), l)
    case PopLo => Local(r, l.(addr16 := v))
    case PopHi => Local(r, l.(addr16 := OrHigh(l.addr16, v)))
    case PopPc => Local(r.(PC := OrHigh(l.addr16, v)), l)
    case AToOperand => Local(r, l.(operand := r.A))
    case SrToStatus => Local(r, l.(sr := r.SR.(B := true, IGN := true)))
    case OperandToA => Local(r.(A := Lo(l.operand)), l)
    case _ => Local(r, l)
  }

  predicate ControlEnds(u: ControlMicro, r: Regs, l: Latch) {
    match u
    case Pause(last) => last
    case Delta(last) => last
    case TargetHi(last) => last
    case Displace => SamePage(Add16(r.PC, Signed(Lo(l.operand))), r.PC)
    case IndHi => true
    case VecHi(_) => true
    case VecPcHi => true
    case StatusToSr(last) => last
    case PopPc => true
    case PushOperand => true
    case PushLatched => true
    case _ => false
  }

  function PerformControl<M>(bus: BusOps<M>, u: ControlMicro, c: Cpu<M>): Stepped<M> {
    var f := Carry(bus, c.k, ControlAccess(u, c.k.r, c.l));
    var w := ControlAbsorb(u, f.v, f.k.r, c.l);
    Stepped(Cpu(f.k.(r := w.r), w.l), ControlEnds(u, c.k.r, c.l))
  }

  // The high byte of an indirect jump never comes from the next page.
  function PageRoll(a: word): word { if Lo(a) == 0xFF then a - 0xFF else a + 1 }

  function Inhibited(r: Regs): Regs { r.(SR := r.SR.(I := true)) }

  function JmpPlan(m: Mode, cycle: nat): ControlMicro {
    match cycle
    case 1 => TargetLo
    case 2 => TargetHi(m.Absolute?)
    case 3 => IndLo
    case 4 => IndHi
    case _ => Pause(false)
  }

  function JsrPlan(cycle: nat): ControlMicro {
    match cycle
    case 1 => TargetLo
    case 2 => TargetHi(false)
    case 3 => PushPcHi
    case 4 => PushPcLo
    case 5 => Pause(true)
    case _ => Pause(false)
  }

  function RtsPlan(cycle: nat): ControlMicro {
    match cycle
    case 1 => PopLo
    case 3 => PopHi
    case 5 => Pause(true)
    case _ => Pause(false)
  }

  function RtiPlan(cycle: nat): ControlMicro {
    match cycle
    case 1 => PopStatus
    case 2 => MaskStatus
    case 3 => StatusToSr(false)
    case 4 => PopLo
    case 5 => PopPc
    case _ => Pause(false)
  }

  // The first call of BRK also pushes; see `StepBrk`.
  function BrkPlan(cycle: nat): ControlMicro {
    match cycle
    case 1 => Delta(false)
    case 2 => PushPcLo
    case 3 => PushBrk
    case 4 => SetI
    case 5 => VecPcLo
    case 6 => VecPcHi
    case _ => Pause(false)
  }

  function InterruptPlan(vector: word, cycle: nat): ControlMicro {
    match cycle
    case 1 => PushPcHi
    case 2 => PushPcLo
    case 3 => PushSr
    case 4 => VecLo(vector)
    case 5 => VecHi(vector)
    case _ => Pause(false)
  }

  // PHA and PHP, then PLA and PLP.
  function PushPlan(latch: ControlMicro, push: ControlMicro, cycle: nat): ControlMicro {
    match cycle
    case 1 => latch
    case 2 => push
    case _ => Pause(false)
  }

  function PullPlan(pull: ControlMicro, second: ControlMicro, third: ControlMicro, cycle: nat): ControlMicro {
    match cycle
    case 1 => pull
    case 2 => second
    case 3 => third
    case _ => Pause(false)
  }

  // IRQ looks at the inhibit flag before every call.
  function ControlPlan(op: ControlOp, m: Mode, cycle: nat, s: Status): ControlMicro {
    match op
    case JMP => JmpPlan(m, cycle)
    case JSR => JsrPlan(cycle)
    case RTS => RtsPlan(cycle)
    case RTI => RtiPlan(cycle)
    case NMI => InterruptPlan(NMI_VECTOR, cycle)
    case IRQ => if s.I then Pause(true) else InterruptPlan(IRQ_VECTOR, cycle)
    case PHA => PushPlan(AToOperand, PushOperand, cycle)
    case PHP => PushPlan(SrToStatus, PushLatched, cycle)
    case PLA => PullPlan(PopOperand, OperandToA, Pause(true), cycle)
    case PLP => PullPlan(PopStatus, MaskStatus, StatusToSr(true), cycle)
  }

  function BranchPlan(taken: bool, cycle: nat): ControlMicro {
    if !taken then Delta(true)
    else match cycle
      case 1 => Delta(false)
      case 2 => Displace
      case 3 => Pause(true)
      case _ => Pause(false)
  }

  // ---- One call ------------------------------------------------------------

  predicate SecondIndexing(op: ReadOp, m: Mode, cycle: nat) { op.LDA? && m.IndirectIndexed? && cycle == 4 }

  function StepReading<M>(bus: BusOps<M>, op: ReadOp, m: Mode, cycle: nat, c: Cpu<M>): Stepped<M> {
    var d1 := Perform(bus, ReadPlan(op, m, cycle), c);
    var d := if SecondIndexing(op, m, cycle) then Perform(bus, AbsPlusRead(true), d1.c) else d1;
    Stepped(if d.ended then Consume(op, d.c) else d.c, d.ended)
  }

  function Consume<M>(op: ReadOp, c: Cpu<M>): Cpu<M> {
    c.(k := c.k.(r := OnOperand(op, Lo(c.l.operand), c.k.r)))
  }

  // The decimal flag is latched in the first call.
  function StepAdding<M>(bus: BusOps<M>, op: AddOp, m: Mode, cycle: nat, c: Cpu<M>): Stepped<M> {
    var e := if cycle == 1 then LatchDecimal(c) else c;
    var d := Perform(bus, AluPlan(m, cycle), e);
    Stepped(if d.ended then Add(op, d.c) else d.c, d.ended)
  }

  function LatchDecimal<M>(c: Cpu<M>): Cpu<M> { c.(l := c.l.(bcd := c.k.r.SR.D)) }

  // SBC leaves its operand latch complemented.
  function Add<M>(op: AddOp, c: Cpu<M>): Cpu<M> {
    Cpu(c.k.(r := OnAddend(op, c.l.bcd, Lo(c.l.operand), c.k.r)),
        if op.SBC? then c.l.(operand := 0xFFFF - c.l.operand) else c.l)
  }

  function StepStoring<M>(bus: BusOps<M>, op: StoreOp, m: Mode, cycle: nat, c: Cpu<M>): Stepped<M> {
    var d := Perform(bus, StorePlan(op, m, cycle), c);
    if d.ended then Stepped(d.c.(k := Write(bus, d.c.k, d.c.l.addr16, Stored(op, d.c.k.r))), true) else d
  }

  function StepBumping<M>(bus: BusOps<M>, op: BumpOp, m: Mode, cycle: nat, c: Cpu<M>): Stepped<M> {
    var d := Perform(bus, BumpPlan(op, m, cycle), c);
    if d.ended then
      var v := Lo(d.c.l.operand);
      var w := Write(bus, d.c.k, d.c.l.addr16, v);
      Stepped(d.c.(k := WithSr(w, SetNZ(w.r.SR, v))), true)
    else d
  }

  // `is_penultimate` is only reset in the first call, so in the memory modes the
  // last call shifts again instead of writing.
  function StepShifting<M>(bus: BusOps<M>, op: ShiftOp, m: Mode, cycle: nat, c: Cpu<M>): Stepped<M> {
    var e := if cycle == 1 then c.(l := c.l.(penultimate := false)) else c;
    AfterShift(bus, op, m, Perform(bus, ShiftPlan(m, cycle), e))
  }

  function AfterShift<M>(bus: BusOps<M>, op: ShiftOp, m: Mode, d: Stepped<M>): Stepped<M> {
    var k, l := d.c.k, d.c.l;
    if m.Accumulator? && d.ended then Stepped(d.c.(k := k.(r := ShiftA(op, k.r))), true)
    else if l.penultimate then
      var s := ShiftOnce(op, l.operand, k.r.SR.C);
      Stepped(Cpu(WithSr(k, SetNZC(k.r.SR, Lo(s.v), s.c)), l.(operand := s.v)), d.ended)
    else if d.ended then Stepped(d.c.(k := Write(bus, k, l.addr16, Lo(l.operand))), true)
    else d
  }

  function StepBranching<M>(bus: BusOps<M>, op: BranchOp, cycle: nat, c: Cpu<M>): Stepped<M> {
    var taken := Taken(op, c.k.r.SR);
    var d := PerformControl(bus, BranchPlan(taken, cycle), c);
    if taken && d.ended then Stepped(d.c.(k := WithPc(d.c.k, d.c.l.addr16)), true) else d
  }

  function StepControl<M>(bus: BusOps<M>, op: ControlOp, m: Mode, cycle: nat, c: Cpu<M>): Stepped<M> {
    var d := PerformControl(bus, ControlPlan(op, m, cycle, c.k.r.SR), c);
    if d.ended then Stepped(d.c.(k := d.c.k.(r := Concluded(op, d.c.k.r, d.c.l))), true) else d
  }

  function StepBrk<M>(bus: BusOps<M>, cycle: nat, c: Cpu<M>): Stepped<M> {
    var d := PerformControl(bus, BrkPlan(cycle), c);
    if cycle == 1 then PerformControl(bus, PushPcHi, d.c) else d
  }

  function Concluded(op: ControlOp, r: Regs, l: Latch): Regs {
    match op
    case JMP => r.(PC := l.addr16)
    case JSR => r.(PC := l.addr16)
    case RTS => r.(PC := l.addr16)
    case NMI => r.(PC := l.addr16)
    case IRQ => if r.SR.I then r else r.(PC := l.addr16)
    case PLA => r.(SR := SetNZ(r.SR, r.A))
    case _ => r
  }

  function WithPc<M>(k: Core<M>, pc: word): Core<M> { k.(r := k.r.(PC := pc)) }

  function WithSr<M>(k: Core<M>, s: Status): Core<M> { k.(r := k.r.(SR := s)) }

  // One call of a staged handler at the context's cycle count.
  function Step<M>(bus: BusOps<M>, op: Op, m: Mode, cycle: nat, c: Cpu<M>): Stepped<M> {
    match op
    case Reading(o) => StepReading(bus, o, m, cycle, c)
    case Adding(o) => StepAdding(bus, o, m, cycle, c)
    case Storing(o) => StepStoring(bus, o, m, cycle, c)
    case Bumping(o) => StepBumping(bus, o, m, cycle, c)
    case Shifting(o) => StepShifting(bus, o, m, cycle, c)
    case Branching(o) => StepBranching(bus, o, cycle, c)
    case Inherent(o) => Stepped(c.(k := c.k.(r := OneByte(o, c.k.r))), true)
    case Control(o) => StepControl(bus, o, m, cycle, c)
    case BRK => StepBrk(bus, cycle, c)
  }
}
