# A cycle-stepped 6502 emulator, modelled and verified

The repository is an emulator of the 6502 and 65C02 processors. Every opcode has two
handlers: a *staged* one, called once per clock cycle with its operands kept in C `static`
locals between calls, and a *static* one, which does the whole instruction in one call and adds
its cycles. Launch loops run either form; the staged loop also lets a DMA transfer seize the bus
in the middle of an instruction and looks for interrupts after it. Memory is a bus of modules
in sorted tiers. This project models those parts and proves what they do.

## How it is organised

- `Words`, `Registers`, `Bus`, `Isa`: widths and wrap-around written out; registers with the status
  as eight flags and the byte the stack sees; what a processor may ask of *any* bus; the base
  dispatch table.
- `Opcodes`: the opcode bytes from the assembler's side, and that decoding and encoding undo each other.
- `Alu`: the decimal and binary adders, a byte at a time, digit by digit, and chained over numbers of any length.
- `Staged`, `Static`, `Operate`: the two forms of every base instruction, as functions. The staged
  form is a timetable of micro-operations and a latch for the static locals; values the C code
  reads before setting them are parameters (`Unset`, `Stage`) that every theorem quantifies over.
- `Bits`, `Effects`, `Addressing`: what the shared parts of the instructions mean, said without their
  bodies: results bit by bit, flags by their place in the status byte, addresses as sums modulo 65536
  read in a fixed order, cycles as numbers. `StaticForms`, `Quirks`, `Execution` say with them what the
  static handlers, the odd staged ones and whole staged instructions do.
- `Agreement`, `WholeRuns`: the two forms do the same, instruction by instruction and over whole
  runs. `Differences`, `Disagreement`: how the others part, and that no pair of handler and mode
  outside the agreed ones does the same in both forms (`Disagreement.AgreedIff`).
- `Executor`, `Launch`: the locked staged loop as a state machine. Other threads act only in the
  windows where the lock is dropped; a window holds any sequence of their calls.
- `Endings`, `DmaTransfer`, `Interrupts`: termination, transfers and interrupts, under every
  environment.
- `Simulation`, `Transparency`, `DefaultMachine`: runs on two buses compared. A map of bus states
  that a handler's accesses cannot see commutes with the handler; hence transfers in the middle of an
  instruction, and whole launches on the repository's own default bus. `CopyOuts`, `CopyOutRuns`: runs
  of any length under any number of copy-outs.
- `Membus`, `Lookup`, `Vectors`, `Devices`, `Ram`, `Rings`: registration, access, the bus's own three words,
  the modules and the caches.
- `Stack`, `StackRuns`, `Cmos`, `Disassembly`: nested calls and interrupts on the wrapping stack, and
  launches whose opcodes spell such nests; ADC and SBC of the 65C02; the linear disassembler.
- `Processor`, `Handlers`, `CmosHandlers`, `ExecutorObject`, `MembusObject`, and the classes in
  `Devices`: the same code in the source's own form, objects with fields updated in place and
  loops over switches. The executor calls the handlers through `Handlers.Call`; each method's
  contract equates its new state with the function that the theorems are about. `Execution` calls
  a handler to its end and says what registers, bus and cycle count are then.
- `Wrappers`: `Option`.

The bus of the instruction theorems is an arbitrary state machine that reads may change as well
as writes. Equal final buses therefore mean equal traffic: a bus that records its history tells
two access orders apart. `Lookup.MembusOps` is the repository's own bus in that form, and
`DefaultMachine.LaunchIsFlat` says that a launch on its default configuration is the launch on flat
memory.

## Where code and documentation disagree

The code is followed. Findings, each a lemma: BRK goes through the NMI vector (`Agreement.AgreeBrk`);
a staged IRQ never reaches its handler (`Interrupts.IrqEntry`); taken branches are lost in the
static form (`Differences.BranchAgreesIff`); memory shifts shift twice and never write
(`Differences.StagedShiftNeverWrites`, `Quirks.ShiftTwice`); CMP compares with what its locals were left
at in the modes that begin in page zero and in absolute mode (`Quirks.ComparePageZero`,
`Quirks.CompareAbsolute`), and LDA never takes the high byte of a pointer as one
(`Quirks.LoadIndexedIndirect`, `Quirks.LoadIndirectIndexed`); four opcodes never end (`Endings.InnerLoopEndsIff`);
binary SBC hands its borrow on inverted (`Alu.SbcBinaryChainCorrectIff`); a tier registered below
the head drops the chain (`Membus.NothingLostIff`); a transfer entered before an instruction's
first call may skip the instruction (`Transparency.FirstCycleEntrySkips`); the cache peek macros
read in front of their array when the index is 0 (`Rings.PeekShowsNextPopIff`); an empty DMA range
moves a byte and one at 0xFFFF moves 65536 (`DmaTransfer.CountIsLengthIff`); the disassembler need
not end on a range that reaches past 0xFFFD (`Disassembly.DisassemblyEndsIff`).

## Model

| member | source | states |
|---|---|---|
| Agreement.StagedAgreesWithStatic | isa_6502/INC.c:8-134 | For every agreed opcode, bus, stale latch and unset local: the staged handler driven to its end leaves the registers and bus of the static call, in as many calls as the static one adds cycles |
| Agreement.AgreeReading | isa_6502/AND.c:8-197 | The same for reading instructions in their agreed modes, page-cross cycles included |
| Agreement.GatherAny | isa_6502/ADC.c:8-116 | The shared operand timetable fetches, in each of eight modes, the operand the one-call form computes, in its cycles |
| Agreement.AgreeStore | isa_6502/STA.c:7-148 | Direct and indexed stores write the same byte to the same address in both forms |
| Agreement.AgreeBump | isa_6502/INC.c:8-134 | INC and DEC read, change and write back the same byte in both forms, in all four modes |
| Agreement.AgreeJump | isa_6502/JMP.c:6-77 | Absolute and indirect jumps agree, the indirect one staying on its page |
| Agreement.AgreeJsr | isa_6502/JSR.c:8-45 | JSR agrees in both forms |
| Agreement.AgreeRts | isa_6502/RTS.c:8-44 | RTS agrees in both forms |
| Agreement.AgreeRti | isa_6502/RTI.c:9-47 | RTI agrees in both forms, status first |
| Agreement.AgreeNmi | isa_6502/NMI.c:8-47 | The staged interrupt entry takes five calls and does what the one-call form does |
| Agreement.AgreeBrk | isa_6502/BRK.c:8-56 | BRK agrees in both forms, through the NMI vector, in six cycles |
| Agreement.AgreePha | isa_6502/PHA.c:2-25 | PHA agrees in both forms |
| Agreement.AgreePhp | isa_6502/PHP.c:2-25 | PHP agrees in both forms |
| Agreement.AgreePla | isa_6502/PLA.c:2-31 | PLA agrees in both forms |
| Agreement.AgreePlp | isa_6502/PLP.c:2-32 | PLP agrees in both forms |
| WholeRuns.StagedRunIsStaticRun | executor.c:1210-1330 | If all executed opcodes are agreed and nobody interferes: after any number of instructions both launch loops have stopped for the same reason with equal registers and bus, and the static total is larger by exactly the number of instructions |
| WholeRuns.SilentLoop | executor.c:1235-1298 | Undisturbed, the inner loop is the handler driven to its end |
| Differences.BranchAgreesIff | isa_6502/BCC.c:2-41 | A branch agrees in both forms if and only if it is not taken or its displacement is 0 |
| Differences.StagedBranch | isa_6502/BCC.c:2-29 | A staged branch takes one call untaken, two on the same page, three across pages, and goes to PC plus displacement |
| Opcodes.DecodeEncoded | isa_6502.c:193-447 | The byte an instruction is written as selects that instruction and mode |
| Opcodes.EncodeDecoded | isa_6502.c:193-447 | Every slot of the table is selected by the byte its instruction is written as |
| Opcodes.OneByteEach | isa_6502.c:193-447 | No two bytes select the same instruction in the same mode |
| Opcodes.BranchCodeSaysWhen | isa_6502/BNE.c:7-10 | The upper bits of a branch opcode name the flag it looks at and the value on which it goes |
| Opcodes.NoInstruction | isa_6502.c:88-88 | A byte selects a handler if and only if some instruction is written as it; the last block is never initialised; all others are lines of one byte |
| Opcodes.LaunchMeetsNone | executor.c:449-458 | A launch ends at once, after the fetch, at an unused byte, and calls a null handler in the last block |
| Differences.LoadCountsOneMore | isa_6502/LDY.c:80-121 | Static LDY zp,X, abs and abs,X and LDX abs do what the staged form does and count exactly one cycle more |
| Differences.StagedAddMeetsAddressing | isa_6502/ADC.c:2-152 | Staged ADC and SBC add or subtract the addressed operand under the decimal flag, in the cycles of the mode, in all eight modes |
| Differences.StaticAddAgreesIff | isa_6502/ADC.c:154-259 | In all eight modes: the static form agrees if every flag left over in the unset `flag_bits` is set in the result and, in abs,X and abs,Y, the unset address is the addressed one; and, on a bus that tells reads at two addresses apart, only if so |
| Disagreement.AgreedIff | isa_6502.c:193-447 | For every pair of handler and mode in the base table: it is one of the agreed ones if and only if both forms leave equal registers, bus and cycles from every state and with every unset local, on a bus that records its traffic |
| Differences.StagedShiftNeverWrites | isa_6502/ASL.c:2-113 | A staged shift of memory shifts twice and leaves the bus as after its last read |
| Endings.InnerLoopEndsIff | executor.c:464-530 | For every table opcode, environment and state whose left-over stage does not already say end: the inner loop ends if and only if the opcode is not STA (zp,X), STA (zp),Y, LDX zp,Y or LDX abs,Y |
| Endings.InnerLoopEnds | executor.c:1236-1298 | It ends from every left-over stage, whatever transfers are requested |
| Endings.LastCallEnds | isa_6502/BRK.c:8-36 | Every other handler has ended by a fixed call, at most the sixth, whatever its state |
| Endings.NeverEndsReally | isa_6502/STA.c:66-92 | The four exceptions return `end` from no call and no state |
| Endings.TableIsTabled | isa_6502.c:193-447 | The base table holds only the listed pairs of handler and mode |
| Executor.DmaCycleCounts | executor.c:1253-1297 | Each cycle of a transfer uses up exactly one of the cycles left or ends it, and lowers the flag when it does |
| Executor.PassDecreases | executor.c:1235-1298 | Every turn of the inner loop decreases the lexicographic measure, and a running transfer keeps its flag |
| DmaTransfer.Transfer | executor.c:470-529 | A pending transfer moves its bytes in order, in two cycles each plus one stall on an odd start, with caching off and then as before, leaving registers, latches, other flags and the handler's stage alone; on any bus, with any answers |
| DmaTransfer.CountIsLengthIff | libmembus/memory_addr_range.h:64-71 | The range moves exactly its length if and only if that is at least 1 and the range stays below 0xFFFF; what it moves otherwise |
| DmaTransfer.CopyInCompletes | executor.c:509-524 | Unrefused, every index is asked for once in order, in two cycles a byte |
| DmaTransfer.CopyInRefused | executor.c:513-522 | Refused at index k: exactly the first k bytes are written, in 2k+1 cycles |
| DmaTransfer.CopyOutDelivers | executor.c:486-513 | The consumer gets successive indices and the bytes read at successive addresses just before, and the transfer stops at the first refusal |
| DmaTransfer.LoopIsOneStep | executor.c:464-530 | Inside a transfer no window opens: the loop takes the transfer as one step |
| Transparency.CopyInIsTransparent | executor.c:1236-1298 | Copy-in in the middle of an instruction, of every range and with a refusal at any byte or none, where the rest of the instruction does not touch the bytes written: final registers, caches, cache switch, latches and flags are those of the undisturbed run, each address of the range holds the byte given for it and every other address what it holds in the undisturbed run, and the cost is two cycles a byte, one for the refusal and the stall |
| Transparency.CopyOutIsTransparent | executor.c:1236-1298 | Copy-out in the middle of an instruction changes nothing but the cycle count, for every range and refusal |
| Simulation.StepCommutes | isa_6502/AND.c:8-121 | A handler call commutes with any map from one bus to another that its accesses cannot see |
| DefaultMachine.LaunchIsFlat | executor.c:438-566 | A staged launch on the default bus, of any length under any environment, is the launch on 65536 bytes of memory: same stop, registers, latches, lines, transfers and cycles, and the bus of one flattens to that of the other |
| DefaultMachine.CopyInOnDefaultBus | executor.c:464-530 | The same on the default bus: registers, latches, flags, windows left over, memory byte by byte, caches and cost |
| DefaultMachine.CopyOutOnDefaultBus | executor.c:464-530 | And for copy-outs, which leave the flattened bus as it would have been |
| CopyOutRuns.CopyOutsOnlyDelay | executor.c:438-566 | Over any staged run on memory, with any number of copy-outs asked for in any windows and no instruction skipped by the left-over stage below: the run in the same windows without those requests stops for the same reason after as many instructions, with the same registers, memory, caches, latches, flags and interrupts served; the total is larger by exactly two cycles for each byte handed over and one for each transfer that began on an odd count |
| CopyOutRuns.CopyOutsOnDefaultBus | executor.c:438-566 | The same on the default bus |
| Transparency.FirstCycleEntrySkips | executor.c:476-477 | Entered before the first call, with `next_stage` happening to say end, the instruction is skipped |
| Interrupts.RunServesEveryNmi | executor.c:438-562 | Over any run and environment, the NMI handler is entered exactly once for each instruction in whose windows the line was raised; none is lost and none is pending between instructions |
| Interrupts.InstructionServes | executor.c:464-561 | Raises within one instruction, its closing window included, coalesce into one entry; a stop asked for in any of them stands after it |
| Interrupts.ServiceEffect | executor.c:537-561 | After an instruction: exactly which handlers run, their effect and cycles; a request raised while inhibited changes nothing but its line |
| Interrupts.IrqEntry | isa_6502/IRQ.c:2-40 | The staged request handler pushes PC and status, sets I, ends in its fourth call and never loads PC |
| Interrupts.WindowEffect | executor.c:1805-1899 | A window raises exactly the lines named, the stop flag among them; the first transfer request wins, and none has effect while one is pending or running |
| Interrupts.LoopCollects | executor.c:464-530 | Up to its end an instruction serves nothing, and a line is up if and only if it was up or was raised in a window |
| Interrupts.RunStops | executor.c:438-566 | Over any run and environment: no instruction is completed after the first in whose windows a stop was asked for, and that one ends the run, done and with the flag down; a run done otherwise has reached the end of its range |
| Interrupts.StopEndsRun | executor.c:438-566 | A stop asked for in the windows of the j-th completed instruction ends the run after exactly j |
| Interrupts.NothingRunsPastEnd | executor.c:438-438 | A launch whose PC is at or past the end of the range runs nothing |
| Alu.AdcBinary | isa_6502/ADC.c:121-149 | Binary ADC: accumulator and carry are the exact sum, V is signed overflow |
| Alu.AdcDecimal | isa_6502/ADC.c:121-149 | Decimal ADC of decimal digits is the exact sum, in decimal digits |
| Alu.AdcDigits | isa_6502/ADC.c:121-149 | Decimal ADC of any two bytes, digit by digit: each digit sum above nine is adjusted by six and carries; V is the signed overflow of the sum before the high digit is adjusted |
| Alu.SbcBinary | isa_6502/SBC.c:117-152 | Binary SBC: the exact difference modulo 256 and V signed overflow; the carry is the borrow, not its complement |
| Alu.SbcDecimal | isa_6502/SBC.c:117-152 | Decimal SBC is the exact difference, in decimal digits, with carry clear on borrow |
| Alu.SbcDigits | isa_6502/SBC.c:117-152 | Decimal SBC of any two bytes, digit by digit, with the borrow that an adjustment which wraps loses; V is the signed overflow of the difference before the high digit is adjusted |
| Alu.AdcChainSum | isa_6502/ADC.c:117-150 | ADC chained over numbers of any length: the result fits the length and, with the final carry above it, is the exact sum, binary and decimal, every decimal result byte two digits |
| Alu.SbcChainDifference | isa_6502/SBC.c:117-151 | Decimal SBC chained over any length: the result fits the length and, with the final borrow, is the exact difference |
| Alu.SbcChainUndoesAdcChain | isa_6502/SBC.c:117-151 | It undoes the ADC chain, result and carry, at any length |
| Alu.SbcBinaryChainCorrectIff | isa_6502/SBC.c:117-151 | A binary SBC chain is right if and only if it is at most one byte long |
| Effects.ShiftsAreArithmetic | isa_6502/ROL.c:15-23 | With the carry as ninth bit the accumulator shifts double or halve exactly, and Z and N describe the result |
| Effects.RotatesUndo | isa_6502/ROR.c:15-23 | Rotating left and right undo each other, carry included, both ways |
| Effects.ComparesOrder | isa_6502/CMP.c:189-196 | C, Z and N hold the order of register and operand, and nothing else changes |
| Effects.EffectMeant | isa_6502/EOR.c:115-118 | AND, ORA and EOR bit by bit; loads into the named register; compares as orders; BIT sets N and V to the operand's top bits and Z if no bit is common; Z and N describe the result, and nothing else changes |
| Effects.InherentMeant | isa_6502/INX.c:2-7 | A flag instruction changes one bit of the status byte, a transfer copies one register, a count is modulo 256; Z and N describe the new value but for TXS |
| Effects.ComparedGoes | isa_6502/BNE.c:7-12 | After a comparison BEQ, BNE, BCS, BCC, BPL and BMI go exactly if register and operand are equal, unequal, in order or not |
| Effects.SummedGoes | isa_6502/BVS.c:7-12 | After a binary addition BVS and BVC go by signed overflow, BCS and BCC by the carry, the others by the sum's low byte |
| Bits.BitwiseBytes | isa_6502/AND.c:115-118 | Bit by bit, the bytewise operations are conjunction, disjunction and inequality |
| Addressing.AddressLocated | isa_6502/LDA.c:7-97 | The address of every mode, the order of the reads that find it and the carry out of its low byte, as sums modulo 256 and 65536 |
| Addressing.OperandLocated | isa_6502/LDA.c:118-183 | An operand is the byte there; abs,X and abs,Y take four cycles and not three, (zp),Y five and not four, exactly if the index carries out of the low byte |
| StaticForms.ReadingInNumbers | isa_6502/LDA.c:118-183 | Static reading instructions in their table modes: byte read, effect, PC and cycles, the unset address of AND, ORA and EOR and the late cycle of LDX and LDY included |
| StaticForms.UnsetLoad | isa_6502/LDX.c:80-121 | Static LDX zp,Y and abs,Y load an unset local, count another and fetch nothing |
| StaticForms.AddingInNumbers | isa_6502/ADC.c:154-259 | Static ADC and SBC: the sum or difference with the byte read, every unset flag on top, and the cycles |
| StaticForms.StoreInNumbers | isa_6502/STA.c:98-148 | Static stores in all table modes write the named register once, at the address, in a cycle for each access and one for an index |
| StaticForms.BumpInNumbers | isa_6502/INC.c:96-134 | INC and DEC: one read, one write of the byte one up or down, flags and cycles |
| StaticForms.ShiftInNumbers | isa_6502/ASL.c:115-169 | Static shifts of memory double or halve the byte through the carry, write it, and count the cycles |
| StaticForms.BranchInNumbers | isa_6502/BNE.c:31-41 | A static branch falls through and counts one cycle if not taken, two to the same page, three to another |
| StaticForms.InherentInNumbers | isa_6502/SED.c:8-12 | Static one-byte instructions have their effect and count one cycle, SED none |
| StaticForms.IrqInNumbers | isa_6502/IRQ.c:42-51 | The static request handler pushes, inhibits and loads PC from 0xFFFE, in five cycles |
| Quirks.ComparePageZero | isa_6502/CMP.c:9-30 | Staged CMP in the modes that begin in page zero fetches one byte, ends, and compares with the operand local as it was left |
| Quirks.FirstComparePageZero | isa_6502/CMP.c:9-30 | In a launch that has not compared before, with 0 |
| Quirks.CompareAbsolute | isa_6502/CMP.c:53-68 | Staged CMP absolute compares with the page-zero byte the last such CMP named |
| Quirks.LoadIndexedIndirect | isa_6502/LDA.c:75-112 | Staged LDA (zp,X) loads the page-zero byte that the pointer's low byte names, in five calls |
| Quirks.LoadIndirectIndexed | isa_6502/LDA.c:75-112 | Staged LDA (zp),Y indexes from the OR of the pointer's two bytes, in four calls, five if that leaves page zero |
| Quirks.ShiftTwice | isa_6502/ASL.c:2-113 | A staged shift of memory: registers, flags of the byte shifted twice, cycles, and no write |
| Registers.UnpackAfterPack | registers.h:20-54 | Eight flags and the status byte: nothing is lost from flags to byte and back |
| Registers.PackAfterUnpack | registers.h:20-54 | Nor from byte to flags and back |
| Registers.PackedByte | registers.h:20-30 | The status byte is the sum of its flags' powers of two, C the lowest and N the highest |
| Words.AddsModulo | libmembus/membus_module_mirror.c:33-34 | The conditional wraps are arithmetic modulo 256 and 65536 |
| Rings.PopsReturnLastPushes | libmembus/membus.h:202-243 | k <= 8 pops return the last k pushes newest first, from any index and across its wrap |
| Rings.NinthPopRepeatsFirst | libmembus/membus.h:202-243 | Eight is the limit: the ninth pop repeats the first |
| Rings.PeekShowsNextPopIff | libmembus/membus.h:209-222 | Peek shows the next pop, from inside the array, if and only if the index is not 0 |
| Membus.AlwaysSorted | libmembus/membus.c:157-267 | Whatever is registered in whatever order, tiers strictly increase and modules in a tier do not decrease |
| Membus.ExactContents | libmembus/membus.c:157-267 | With none below the first tier: each tier holds, at each start address, exactly the modules registered there, newest first |
| Membus.NothingLostIff | libmembus/membus.c:247-260 | The chain holds as many modules as were registered if and only if none was registered below the first one's tier |
| Membus.InsertStartingAt | libmembus/membus.c:175-190 | Insertion puts a module ahead of the others at its start address and moves nothing else |
| Lookup.WalkIsScan | libmembus/membus.c:331-343 | The double walk with its early exits makes the calls, and finds the answer, of a scan of everything registered in tier order |
| Lookup.RefusalEndsSearch | libmembus/membus.c:331-343 | A refusal ends the search: nothing behind the refusing module is asked |
| Lookup.PostObserversOnlyWatch | libmembus/membus.c:371-381 | Observers after the operation cannot alter the value, what is cached, or the vectors |
| Lookup.WalkTellIsTell | libmembus/membus.c:322-330 | The observers' walk reaches every included observer |
| Lookup.ObserversAreGiven | libmembus/membus.c:322-380 | Observers get no value before a read and the value after it, 0 before a write and the byte after it |
| Lookup.NobodyThere | libmembus/membus.c:311-386 | Where no module is, reads return 0, writes go nowhere, and neither is cached |
| Vectors.VectorRead | libmembus/membus.c:344-370 | Where no module accepts, two reads at 0xFFFA, 0xFFFC or 0xFFFE give the low and the high byte of the word kept there, and are cached |
| Vectors.VectorHalves | libmembus/membus.c:344-370 | The two bytes make up that word |
| Vectors.HalfWritten | libmembus/membus.c:441-466 | One unaccepted write there sets its half of that word and nothing else |
| Vectors.VectorWritten | libmembus/membus.c:441-466 | Two unaccepted writes there set that word and leave the other two |
| Vectors.VectorReadBack | libmembus/membus.c:344-466 | Reads then return the two bytes written |
| Vectors.VectorsKept | libmembus/membus.c:408-480 | An accepted write, and every write below 0xFFFA, leaves the three words |
| Vectors.InterruptReachesWord | isa_6502/NMI.c:8-36 | An interrupt on a bus where nobody accepts reads at the vector goes to the word kept there |
| MembusObject.MemoryBus.ReadAddr | libmembus/membus.c:311-386 | A read in place is the specified access: pre-observers, walk, vector fallback, post-observers, cache |
| MembusObject.MemoryBus.WriteAddr | libmembus/membus.c:408-480 | A write in place is the specified access, vector halves included |
| MembusObject.MemoryBus.RegisterModule | libmembus/membus.c:157-267 | Registration changes exactly one list as specified and adds one reference |
| MembusObject.MemoryBus.Walk | libmembus/membus.c:331-343 | The loops with `is_looping` and `did_read_value` compute the naive scan |
| MembusObject.MemoryBus.CopyInBytes | libmembus/membus.c:568-587 | Copy-in is the writes of its range in order, cut off at 0xFFFF if it would pass the end |
| MembusObject.MemoryBus.CopyOutBytes | libmembus/membus.c:547-566 | Copy-out is the reads of its range in order |
| MembusObject.Cache.PushByte | libmembus/membus.h:204-208 | A push stores at the index modulo 8 and advances the 8-bit index |
| MembusObject.Cache.PopByte | libmembus/membus.h:217-222 | A pop steps the index back and returns that byte |
| Membus.EveryoneIsHeldIff | libmembus/membus.c:157-267 | The lists never hold a module more often than it was registered, and hold each exactly as often if and only if none was registered below the first one's tier |
| Membus.RegisterHolds | libmembus/membus.c:157-267 | A registration adds its module once and loses nothing, or, below the head, loses everything else |
| Membus.Module.Retain | libmembus/membus.c:19-26 | One reference more |
| Membus.Module.Release | libmembus/membus.c:28-36 | One reference less; the last one frees |
| MembusObject.MemoryBus.Free | libmembus/membus.c:131-153 | Freeing the bus gives back, for every module, one reference for each place it has in a list |
| MembusObject.RegisterThenFree | libmembus/membus.c:131-267 | A bus made, given any modules in any order, and freed leaves every reference count as it was if and only if no registration dropped a chain |
| Devices.DefaultBusIsFlat | libmembus/membus_module_std64k.c:15-51 | Under any sequence of operations the default bus returns what 65536 bytes do, the last being the high byte of the request vector, and ends with the same bytes and caches |
| Devices.CopyRoundTrip | libmembus/membus.c:547-587 | Bytes copied in and out of any range of the address space come back, address 0xFFFF included |
| Devices.CopyPastEnd | libmembus/membus.c:547-587 | A range past the end of the address space is copied up to 0xFFFE, in and out; address 0xFFFF is not touched |
| Devices.MakeDefaultBus | executor.c:21-47 | The default components make such a bus |
| Devices.MirrorsKeepOffset | libmembus/membus_module_mirror.c:23-55 | Through any chain of mirrors an address keeps its offset and arrives on a page of the module |
| Devices.AliasesAgree | libmembus/membus_module_mirror.c:23-55 | After any writes through any aliases, the byte at an alias's offset is the last value written there through any of them, or, in a read-only module, what it was before |
| Devices.PokeAll | libmembus/membus_module_mirror.c:42-55 | Writes carried out through aliases leave the module's pages with those bytes |
| Devices.PokeThenRead | libmembus/membus_module_mirror.c:23-55 | A read through one alias after writes through any others returns that byte, or is refused by a write-only module |
| Devices.MirrorAlloc | libmembus/membus_module_mirror.c:71-89 | A mirror is made if and only if its last address is one; it has the original's length and holds one more reference to it |
| Devices.MirrorFree | libmembus/membus_module_mirror.c:12-19 | Freeing a mirror gives that reference back |
| Devices.ReadThrough | libmembus/membus_module_mirror.c:23-36 | A read through a chain returns the module's byte at the alias's offset, or its refusal |
| Devices.WriteThrough | libmembus/membus_module_mirror.c:42-55 | A write through a chain changes that byte only, or is refused |
| Devices.Paged.constructor | libmembus/membus_module_paged.c:62-85 | Pages beyond the address space are cut off |
| Devices.Paged.ReadAddr | libmembus/membus_module_paged.c:13-27 | Reads the byte at the offset, unless write-only |
| Devices.Paged.WriteAddr | libmembus/membus_module_paged.c:33-48 | Changes that byte only, unless read-only |
| Devices.Std64k.WriteAddr | libmembus/membus_module_std64k.c:29-40 | Changes the addressed byte in place and accepts |
| Stack.ItemResumes | isa_6502.c:44-72 | Any well-bracketed nest of calls, interrupts, BRK and saves using at most 256 stack bytes, from any stack pointer: PC, pointer, accumulator and status (but B and IGN) come back |
| Stack.PcBracket | isa_6502/RTS.c:8-28 | PC pushed, up to 254 bytes of balanced activity, PC pulled: the same PC and pointer |
| Stack.RtiBracket | isa_6502/RTI.c:9-30 | Interrupt entry, balanced activity, RTI: the same PC and pointer, and the status without B and IGN |
| Stack.OneByteTooDeep | isa_6502.c:44-72 | With 257 bytes the promise fails, from every state with A = 0 |
| StackRuns.StaticRunReturns | executor.c:1554-1703 | A static launch whose executed opcodes spell subroutines, BRKs, saves of accumulator and status and instructions that leave the stack alone, nested with at most 256 bytes in use: after the closing instruction PC is that behind the opening one, and pointer, accumulator or status come back |
| StackRuns.StagedRunReturns | executor.c:1210-1330 | So it is after an undisturbed staged launch of agreed opcodes |
| Cmos.CmosMeetsAddressing | isa_65C02/ADC.c:2-200 | 65C02 ADC and SBC in each of eight modes work on the addressed operand and take the base cycles, plus one in decimal mode |
| Cmos.DecimalCostsOneCall | isa_65C02/SBC.c:11-164 | From states that differ only in D: the same traffic and operand, one call more in decimal mode, page crossed or not |
| Cmos.ZeroPageIndirectNeverEnds | isa_65C02/ADC.c:14-30 | Zero-page-indirect, which the table offers, never ends |
| Disassembly.Disassemble | isa_6502.c:889-947 | The loop in place, on every range and cut off anywhere, is the specified sweep; for ranges ending at or below 0xFFFD its lines tile the range |
| Disassembly.DisassemblyEndsIff | isa_6502.c:915-947 | The loop ends on every memory if and only if the range is empty or ends at or below 0xFFFD |
| Disassembly.PastTheTopNeverEnds | isa_6502.c:915-947 | With an end past 0xFFFF it ends on no bus |
| Disassembly.SweepTiles | isa_6502.c:915-947 | The lines follow one another without gap or overlap |
| Disassembly.SweepReadsOnce | isa_6502.c:915-947 | The loop reads each byte of its lines once, in order, and nothing else |
| Disassembly.SweepShows | isa_6502.c:915-947 | On flat memory each line shows the opcode at its address and is as long as that opcode's line |
| Disassembly.LineIsPcAdvance | isa_6502.c:24-40 | Executing an opcode leaves PC at its own address plus the length of its line, modulo 65536, except control transfers, BRK and the opcodes that never end |
| Disassembly.LineIsFetched | isa_6502.c:24-40 | A line is as long as its opcode and the program bytes that executing it reads, jumps, calls and taken branches included; BRK reads one more than its line shows |
| Handlers.Call | executor.c:481-482 | A call through the dispatch record runs the handler's switch in place: registers, bus and locals are those of the specified call |
| Execution.RunToEnd | executor.c:1235-1298 | A handler called to its end in place takes the calls, and leaves the state, of the driven handler |
| Execution.ExecuteReading | isa_6502/AND.c:2-121 | A staged reading instruction reads its operand once, last, at the address its mode names in numbers; its effect bit by bit; PC past the operand bytes; three or four cycles in abs,X and abs,Y, four or five in (zp),Y, by the carry out of the low byte |
| Execution.ExecuteAdding | isa_6502/ADC.c:2-152 | A staged ADC or SBC leaves in accumulator and carry the exact binary or decimal result of the addressed operand, in decimal mode digit by digit for all bytes; Z and N describing it, V the signed overflow, in decimal mode before the last adjustment; all other flags and registers as they were but PC, past the operand bytes; cycles as for reading |
| Execution.ExecuteCmosAdding | isa_65C02/ADC.c:2-200 | The same of the 65C02, in one cycle more in decimal mode |
| Execution.ExecuteStoring | isa_6502/STA.c:2-96 | A staged store in its agreed modes writes the named register once, last, at the address its mode names, changes no other register than PC, in a cycle for each access and one for an index |
| Execution.ExecuteBumping | isa_6502/INC.c:2-94 | A staged INC or DEC reads and writes the addressed byte once, one up or down modulo 256, sets Z and N from it, in two cycles more than a store |
| Execution.ExecuteInherent | isa_6502/INX.c:2-7 | A one-byte instruction has its effect in one cycle and leaves the bus |
| Execution.ExecuteShift | isa_6502/ASL.c:12-24 | The accumulator doubled or halved through the carry, Z and N describing it, in one cycle |
| Execution.ExecuteBranch | isa_6502/BNE.c:2-29 | A branch goes by the flag its name says, backwards from displacement 0x80 on; one cycle if not taken, two to the page of the next instruction, three to another |
| Execution.CompareThenBranch | isa_6502/BNE.c:2-29 | A comparison and the branch behind it: PC is the target exactly if register and operand are in the order asked for |
| Execution.AddThenBranch | isa_6502/BVS.c:2-29 | A binary addition and the branch behind it: by signed overflow, carry, zero or sign of the sum |
| Execution.ExecutePush | isa_6502/PHP.c:2-18 | The accumulator, or the status with B and IGN, below the old stack pointer; two cycles |
| Execution.ExecutePull | isa_6502/PLP.c:2-23 | The byte above the stack pointer into the accumulator, described by Z and N, or its bits but B and IGN into the status; three cycles |
| Execution.ExecuteJmp | isa_6502/JMP.c:2-41 | PC is the target, for an indirect jump the word whose high byte lies on the page of its low byte; two or four cycles |
| Execution.ExecuteJsr | isa_6502/JSR.c:2-32 | PC is the target, the address two bytes on is in page one below the old stack pointer, high byte first, the pointer two lower; five cycles |
| Execution.ExecuteRts | isa_6502/RTS.c:2-30 | PC is the word above the stack pointer, the pointer two higher; five cycles |
| Execution.ExecuteRti | isa_6502/RTI.c:2-32 | The bits of the status but B and IGN, and then PC, come from above the stack pointer, the pointer three higher; five cycles |
| Execution.ExecuteBrk | isa_6502/BRK.c:2-37 | The next byte skipped, PC and the status with B pushed, interrupts inhibited, PC from the word at 0xFFFA; six cycles |
| Execution.EnterNmi | isa_6502/NMI.c:2-36 | PC and status pushed, interrupts inhibited, PC from the word at 0xFFFA; five cycles |
| Execution.EnterIrq | isa_6502/IRQ.c:2-40 | PC and status pushed, interrupts inhibited, PC as it was, in four cycles; while inhibited nothing, in one |
| Handlers.AddOperand | isa_6502/ADC.c:117-150 | The in-place adder leaves exactly the sum, binary or decimal, in accumulator and carry, and in decimal mode the adjusted digits and the overflow for all bytes |
| Handlers.SubtractOperand | isa_6502/SBC.c:117-152 | The in-place subtractor leaves exactly the decimal difference, and the adjusted digits and the overflow for all bytes |
| Handlers.StaticAnd | isa_6502/AND.c:122-197 | The whole switch: the operand of every mode, the unset address in abs,X and abs,Y, and the cycles counted |
| Handlers.StaticAdc | isa_6502/ADC.c:154-259 | The whole switch, adder included, with the unset address and the unset `flag_bits`; Differences.StaticAddAgreesIff says when that is the staged ADC |
| Handlers.StaticSbc | isa_6502/SBC.c:155-261 | The same for SBC |
| Handlers.StaticLda | isa_6502/LDA.c:118-183 | The whole switch: value, flags and cycles in every mode, page crossing included |
| Handlers.StaticSta | isa_6502/STA.c:98-148 | The whole switch: address and cycles in every mode |
| Handlers.StaticInc | isa_6502/INC.c:96-134 | The whole switch: one read, one write, flags and cycles in every mode |
| Handlers.StaticJmp | isa_6502/JMP.c:43-77 | Both modes, the indirect high byte never from the next page |
| Handlers.StaticJsr | isa_6502/JSR.c:34-45 | Target, the two pushes of the return address high byte first, and the cycles |
| Handlers.StaticRts | isa_6502/RTS.c:32-44 | The two pulls, low byte first, and the cycles |
| Handlers.StaticRti | isa_6502/RTI.c:34-47 | Status without B and IGN, then PC, and the cycles |
| Handlers.StaticBrk | isa_6502/BRK.c:39-56 | The skipped byte, the pushes with B set, I set, PC from the NMI vector, and the cycles |
| Handlers.StaticNmi | isa_6502/NMI.c:38-47 | The pushes, I set, PC from the NMI vector, and the cycles |
| Processor.Processor.PushByte | isa_6502.c:64-72 | Writes at page one, then decrements the pointer, wrapping |
| Processor.Processor.PopByte | isa_6502.c:44-51 | Increments the pointer, wrapping, then reads |
| ExecutorObject.Machine.SetNmi | executor.c:1821-1832 | Raises the line |
| ExecutorObject.Machine.SetIrq | executor.c:1805-1816 | Raises the line |
| ExecutorObject.Machine.SetExecStop | executor.c:1837-1848 | Raises the flag |
| ExecutorObject.Machine.SetDmaCopy | executor.c:1853-1899 | Takes the request, unless one is pending or running, which it leaves as it is |
| ExecutorObject.Machine.OpenWindow | executor.c:466-469 | A window has the effect of its calls in order |
| ExecutorObject.LaunchFrame.TransferCycle | executor.c:485-529 | One cycle of the transfer in place |
| ExecutorObject.LaunchFrame.OneTurn | executor.c:464-530 | One turn of the do-while in place, the handler's switch included |
| ExecutorObject.LaunchFrame.RunInstruction | executor.c:464-530 | The do-while in place, ending as specified under every environment |
| ExecutorObject.LaunchFrame.ServiceInterrupts | executor.c:537-561 | The interrupt part in place, its inner loops ending |
| ExecutorObject.LaunchFrame.RunStaged | executor.c:438-566 | The launch loop in place is the specified run |
| ExecutorObject.LaunchStaged | executor.c:1747-1785 | A staged launch in an address range drops old requests, sets PC, counts from 0, runs, and returns the cycles; outside the range it does nothing |
| ExecutorObject.LaunchStatic | executor.c:1554-1703 | The static launch, with no requests, is the specified run |

## Left out

- Command-line programs, windows, hex dumps, inline disassembly text, verbose stage callbacks, loading and saving files: input and output.
- ExecutorObject.LaunchStatic: the loop of a machine on which nobody raises a line, as is Launch.StaticLoop. DMA inside the static loops performs one transfer step per fetched opcode and skips the opcode; no transfer theorem holds there.
- executor_hard_reset, executor_soft_reset and freeing an executor or bus: a window holds the five setters only.
- Launch loops that run for ever: runs are cut off after a number of instructions that every theorem leaves arbitrary.
- Callbacks: a provider or consumer is a function of index and byte. A transfer uses each index once, so every stateful callback behaves, during one transfer, like one such function. Bus modules' callbacks are functions on the joint state of all devices; the arrays updated in place are in Devices.Std64k and Devices.Paged, and the header callbacks of the default bus are the functions those methods are proved equal to.
- Linked lists of tiers and modules are sequences in the fields of MembusObject.MemoryBus: node allocation and its failure are not modelled.
- The one-byte, compare, branch, shift, push and pull handlers, ORA, EOR, LDX, LDY, STX, STY and DEC are modelled as functions only: Handlers.Call and Handlers.CallStatic apply the function. The static locals of the handlers not being called are kept as values.
- Opcodes of table block C = 3 have a null handler; a launch that meets one is reported as NullHandler.
- C leaves open in which order the two vector bytes of the static NMI entry are read; low before high is modelled.
- Static handlers of the 65C02, its other instructions and its dispatch table.
- Membus.Module.Release: the module's own cleanup callback and its deallocation are not modelled.
- 64-bit cycle counters are unbounded numbers; a count is never wrapped.
- Transparency.CopyInIsTransparent: one copy-in in one instruction and no further request in the windows that follow, on flat memory and on the default bus; on other buses a module could observe the transfer. Whole runs are covered for copy-outs, in CopyOutRuns.CopyOutsOnlyDelay.
- Mutexes themselves, and the lock still held when a launch returns: locking is represented by the windows.
- The word module, range unions and watchpoints.
