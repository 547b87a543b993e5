# MachEmu: the 8080, its machine and its clock

A Dafny model of the MachEmu emulator: the Intel 8080 interpreter on its destructive-read
system bus, the machine's run loop with its load and save requests, the pacing clock, and the
test controllers that end a run and print a string. `dafny verify dfyconfig.toml` checks it all.

## How it is laid out

The reference is the architectural machine: `Isa` decodes by bit fields (and `Dispatch` has the switch as written), `Alu` states arithmetic
as the *Intel 8080 Assembly Language Programming Manual* does (true differences with borrow, the
two-step decimal adjust), and `Core` gives every instruction as its effect on registers, memory,
ports and ticks. `Core.Step` is one call of the interpreter, `Core.Run` a run over a schedule of
interrupts and port inputs.

The code as written is in classes that update their fields in place. `Bus` has the buses whose
receivers clear what they read and the controllers that serve them; `Intel8080` the interpreter,
one method a source method, with piecemeal counter increments, complement-and-flip subtraction
and the one-shot decimal adjust; `MachineLoop` (Machine.dfy) the run loop; `CpuClock` the clock
with its spin loop; `Controllers` the request latch and the console. Each method is proved
against the pure level, and the theorems about runs are proved there:

- `Flags`, `Laws`: what arithmetic and rotations do lane by lane, and instructions as other instructions together.
- `Footprint`, `Snapshot`, `Resume`: a resumed run cannot be told from the original one.
- `Stack`, `Calls`: well-nested stack use, returns, pops, transparent interrupt handlers.
- `Multibyte`, `DecimalProgram`: chains of any length, and the manual's decimal addition loop.
- `Protocol`, `History`, `Pattern`, `Interrupts`: request safety, the whole history of a run, captured states, the
  status word, and interrupts from the controller's answer to the vector.
- `Pacing`, `Lockstep`: time conservation, the least time a run can report, and clock syncs against interrupt services.
- `Chronicle`: a run of machine, request latch and clock together, and what follows from all of these for it;
  `MachineLoop.Machine8080.Run` makes such runs and `RunGives` draws the conclusions.

Theorems that do not depend on what a step does take the step as a parameter and are then
instantiated with the 8080's; the run loop's contracts name the processor `step` and the turn `turn`,
which its constructor fixes. What the outside supplies is a parameter too: interrupts and port inputs of
each step, readings of the host clock, when an asynchronous handler finishes and what a load handler
replies. A failed assertion of the interpreter is the outcome `Trap`.

## Where the code does not do what is said of it

- A test (Tests/MachineTest/source/MachineTest.cpp:228-270) runs a program of 2000047 ticks once and bounds the time it reports:
  at least a second, and half a millisecond more at most, for oversleep. A bound from below does not hold of runs
  in general. A run returns the time of its last sync, and a reset keeps carried error, tick count and that time
  (CpuClock/source/CpuClock.cpp:200-204). So with no ticks left over, a run that syncs and whose last instruction costs a tick never
  reports less than it emulates exactly when no oversleep was carried in and that instruction syncs; a run that never
  syncs returns the time an earlier run left: `Pacing.NeverShortIff`, `Pacing.NeverShortIffNothingCarried`. On a fresh machine
  oversleep needs a second run to show: `Lockstep.OversleepShows`.
- README.md:284 promises interrupt service after each clock tick for a frequency of one. All runs are in step exactly
  when clock and loop are locked (`Lockstep.MachineInStepIffLocked`), which a frequency of one gives only with no ticks left
  over; and a resolution finer than the host clock leaves the old service period in place (Machine/source/Machine.cpp:92-95):
  `MachineLoop.FrequencyOneLocked`, `MachineLoop.StalePeriodOutOfStep`. Runs that leave ticks over exist: `Lockstep.EveryTallyLeft`.
- A save gathers blocks with a 16-bit counter (Machine/source/Machine.cpp:350-363), so a block that reaches the top of memory makes
  it gather for ever (in practice until the host's memory is full): `Snapshot.GatherEnds`. A load counts wider and ends.
- A snapshot leaves out the interrupt flip-flop: `Resume.FlipFlopNotRestored`. A load does not force the
  status pattern as POP PSW does: an accepted status of 0 loses it (`Pattern.LoadLosesPattern`), and a run keeps it exactly
  when every reply that lands has it (`Pattern.StatusIffSound`).
- Another OUT before the next service takes back the quit an OUT 0xFF requested, unless it goes to a port the
  controller keeps for itself: `Controllers.QuitStandsIff`, and `Controllers.QuitCanBeTakenBack` for the test controllers.
- The manual lets EI take effect after the instruction that follows it, so that RET can be protected. The code enables at
  once: the step after EI acknowledges an interrupt if and only if one is raised, RET or not (`Calls.EnabledAtOnce`,
  `Calls.ReturnNotProtected`).
- A comment of the test controller (Tests/TestControllers/source/TestIoController.cpp:94-95) says that a last interrupt time made stale by a clock
  restart is put back. The difference is unsigned, so the interrupt fires at once instead: `Controllers.StaleTimerFires`.

## Model

| member | source | states |
|---|---|---|
| `Intel8080.Interpreter.Execute` | Cpu/source/8080.cpp:381-684 | from any instruction boundary, with or without a raised interrupt, one call is exactly one step of the architectural machine on registers, memory, port traffic and ticks, and leaves every bus zero and every transaction lane down |
| `Calls.InterruptTransparent` | Cpu/source/8080.cpp:388-402 | an accepted interrupt whose well-nested body keeps the register pairs and ends in EI and RET comes back to the interrupted counter with the same registers, flags, stack pointer and flip-flop; memory differs only where plain steps of the body wrote or below the stack pointer |
| `Calls.SavingHandlerTransparent` | Cpu/source/8080.cpp:1653-1673 | the same for every handler that brackets an arbitrary well-nested middle with pushes and pops of all pairs and the status word |
| `Calls.SubroutineReturns` | Cpu/source/8080.cpp:1616-1651 | every taken CALL, RST or accepted interrupt followed by a well-nested body and a taken return lands on its return address with stack pointer and live frames as they were |
| `Calls.PopYieldsPushed` | Cpu/source/8080.cpp:1578-1598 | a POP that closes a well-nested body opened by a PUSH yields the pushed word |
| `Stack.Balanced` | Cpu/source/8080.cpp:1653-1673 | over every well-nested trace whose frames fit the 64K circle the stack pointer returns to its start, wrap-around included, and no live byte above it changes |
| `Stack.ChangesOnlyBelow` | Cpu/source/8080.cpp:1698-1721 | outside what its plain steps write, such a trace changes memory only within two bytes a nesting level below the stack pointer |
| `Stack.PopsWhatWasPushed` | Cpu/source/8080.cpp:1547-1576 | the word on top after a nested body is the word its opening step pushed |
| `Stack.TraceIsRun` | Cpu/source/8080.cpp:381-684 | a well-nested trace is a run of the machine over its flattened schedule |
| `DecimalProgram.DecimalAddition` | Cpu/source/8080.cpp:801-825 | the loop LDAX D, ADC M, DAA, MOV M,A, INX D, INX H, DCR C, JNZ adds two packed decimal numbers of 1 to 256 bytes: sum modulo 100^n at HL, carry the overflow, nothing else in memory changed, 8n instructions and 50n ticks |
| `DecimalProgram.MachineObeys` | Cpu/source/8080.cpp:411-670 | the eight opcodes of that loop decode to and do what the loop proof uses |
| `DecimalProgram.LoopRun` | Cpu/source/8080.cpp:1600-1614 | the loop, for every length, is a chain of decimal byte additions stored in place |
| `Multibyte.AddDecimalsIsSum` | Cpu/source/8080.cpp:1334-1345 | for every length, ADC then DAA a byte at a time gives the packed decimal sum and carry |
| `Multibyte.AddDecimalIsSum` | Cpu/source/8080.cpp:801-825 | one ADC and DAA of packed bytes gives the packed sum modulo 100 and the decimal carry |
| `Multibyte.SubBinariesIsDifference` | Cpu/source/8080.cpp:1367-1378 | for every length a chain of subtractions with borrow gives x - y - borrow modulo 256^n with the final borrow |
| `Runs.CompareOrders` | Cpu/source/8080.cpp:1513-1525 | CMP sets zero exactly on equality and carry exactly on less-than, and keeps the accumulator |
| `Resume.FlipFlopNotRestored` | Cpu/source/8080.cpp:350-360 | the loaded processor equals the saved one exactly when the flip-flops already agreed |
| `Footprint.RunAlike` | Cpu/source/8080.cpp:381-684 | two runs from states that agree on everything read stay alike, for every schedule |
| `Footprint.StepAlike` | Cpu/source/8080.cpp:381-684 | a step does the same in two memories that agree on what it reads, and then they agree on what it writes |
| `Footprint.StepWritesOnly` | Cpu/source/8080.cpp:709-715 | a step changes memory only at the addresses its instruction names |
| `Footprint.MachineFramed` | Cpu/source/8080.cpp:702-715 | the read and write footprints are footprints of the machine step |
| `Snapshot.ScatterGather` | Machine/source/Machine.cpp:221-245 | scattering what was gathered restores the snapshot on the union of the blocks, overlaps included, and nothing else |
| `Snapshot.GatherEnds` | Machine/source/Machine.cpp:350-363 | the save loop over a block ends exactly when the block stops short of address 0xFFFF + 1, after as many passes as it has bytes; otherwise it never ends |
| `Snapshot.LoadSavedCpu` | Cpu/source/8080.cpp:326-371 | loading a saved processor image restores every register but the flip-flop |
| `Protocol.RunOrderly` | Machine/source/Machine.cpp:284-446 | over every interleaving of handlers with the loop the history is a sequence of complete requests and at most one outstanding one, matched by the two futures; nothing is outstanding once the machine is off |
| `Protocol.TurnOrderly` | Machine/source/Machine.cpp:272-454 | every turn of the loop keeps that |
| `Protocol.ServeOrderly` | Machine/source/Machine.cpp:284-452 | every answer of the controller keeps that |
| `Protocol.TurnsOneMore` | Machine/source/Machine.cpp:272-456 | a run extended by an event is the run followed by one more turn |
| `History.RequestsConserved` | Machine/source/Machine.cpp:302-446 | load and save are never outstanding together, accepted = consumed + outstanding, and on exit all are consumed and every captured state was handed over |
| `History.Cadence` | Machine/source/Machine.cpp:279-282 | every gap between interrupt services lies in [ticksPerIsr, ticksPerIsr + 17] when ticksPerIsr > 0, for any processor of at most 18 ticks |
| `Lockstep.MachineCadence` | Machine/source/Machine.cpp:272-282 | that bound for the machine itself, over every run from power on |
| `History.EveryInstruction` | Machine/source/Machine.cpp:279-282 | with ticksPerIsr <= 0 every instruction is followed by a service |
| `Lockstep.ServicesAreFlags` | Machine/source/Machine.cpp:274-282 | when the loop services interrupts depends on the instruction costs only |
| `Lockstep.StampsAreFlags` | CpuClock/source/CpuClock.cpp:120-189 | when the clock takes the time depends on the instruction costs only |
| `Pacing.PacingConserved` | CpuClock/source/CpuClock.cpp:184-188 | over every run, clock progress = synced ticks times period + error in - error out + uncovered time, and the error never becomes positive |
| `Pacing.SyncConserves` | CpuClock/source/CpuClock.cpp:126-188 | the same for one sync, with the error carried out at most zero |
| `Controllers.BaseIoController.constructor` | Tests/TestControllers/source/BaseIoController.cpp:27-39 | a fresh latch holds no request |
| `Controllers.BaseIoController.SaveStateOn` | Tests/TestControllers/source/BaseIoController.cpp:29-32 | sets the cycle of the timed save and nothing else |
| `Controllers.BaseIoController.Write` | Tests/TestControllers/source/BaseIoController.cpp:34-39 | one write overwrites all three requests |
| `Controllers.BaseIoController.ServiceInterrupts` | Tests/TestControllers/source/BaseIoController.cpp:41-62 | quit before save before load; the one request reported is cleared |
| `Controllers.CpmIoController.Write` | Tests/TestControllers/source/CpmIoController.cpp:51-102 | mode 9 appends exactly the bytes from the address, around the 64K circle, up to the first dollar sign; mode 2 appends the byte; other ports go to the latch |
| `Controllers.DollarAhead` | Tests/TestControllers/source/CpmIoController.cpp:71-82 | a dollar sign anywhere is met at a least distance from any start, so the loop ends |
| `Controllers.CpmIoController.Message` | Tests/TestControllers/source/CpmIoController.cpp:33-38 | hands the message over and empties it |
| `Runs.ReachableStatus` | Cpu/source/8080.cpp:687-700 | from power on every reachable status word has bit 1 set and bits 3 and 5 clear |
| `Runs.PushPopPsw` | Cpu/source/8080.cpp:1653-1673 | PUSH PSW then POP PSW is the identity on accumulator and flags |
| `Runs.RotatesUndo` | Cpu/source/8080.cpp:835-915 | a right rotate undoes a left rotate: through the carry on accumulator and flags, plain ones on the accumulator |
| `Calls.SmallestHandler` | Cpu/source/8080.cpp:388-402 | a concrete handler of EI and RET meets all that is asked of a handler, so an accepted interrupt resumes the program after three steps |
| `Alu.StatusRoundTrip` | Cpu/source/8080.cpp:326-371 | the status word survives the trip through a byte |
| `Dispatch.SwitchIsDecode` | Cpu/source/8080.cpp:411-670 | the switch over 256 opcodes is the decode by bit fields |
| `Intel8080.OneShotIsDaa` | Cpu/source/8080.cpp:801-825 | one added adjustment has the value, half carry and carry of the manual's two-step decimal adjust |
| `Intel8080.ComplementAddIsSubtract` | Cpu/source/8080.cpp:1347-1352 | complement, add and flip is subtraction with borrow, half borrow included |
| `Intel8080.BumpIsAdd` | Cpu/source/8080.cpp:722-762 | adding 1 or 0xFF without the carry is increment and decrement |
| `Intel8080.Interpreter.constructor` | Cpu/include/Cpu/8080.h:69-116 | power-on registers |
| `Intel8080.Interpreter.Reset` | Cpu/source/8080.cpp:687-700 | clears registers, stack pointer and flip-flop, sets the counter and the status pattern |
| `Intel8080.Interpreter.Load` | Cpu/source/8080.cpp:326-361 | succeeds exactly on a matching uuid and complete fields, restoring all but the flip-flop; otherwise nothing changes |
| `Intel8080.Interpreter.ReadFromAddress` | Cpu/source/8080.cpp:702-707 | a read transaction returns the addressed byte and leaves the bus quiet and the other lanes alone |
| `Intel8080.Interpreter.WriteToAddress` | Cpu/source/8080.cpp:709-715 | a write transaction changes one byte or one port and leaves the bus quiet and the other lanes alone |
| `Intel8080.Interpreter.Fetch` | Cpu/source/8080.cpp:373-379 | latches the byte at the counter and changes nothing else |
| `Intel8080.Interpreter.AddCore` | Cpu/source/8080.cpp:1301-1318 | sum, flags and counter of the one adder, carry lane only when asked |
| `Intel8080.Interpreter.SubCore` | Cpu/source/8080.cpp:1347-1352 | true difference and borrow flags |
| `Intel8080.Interpreter.Combine` | Cpu/source/8080.cpp:1320-1525 | the eight accumulator operations |
| `Intel8080.Interpreter.ArithRegister` | Cpu/source/8080.cpp:1320-1324 | register forms, four ticks |
| `Intel8080.Interpreter.ArithMemory` | Cpu/source/8080.cpp:1326-1331 | memory and immediate forms, seven ticks |
| `Intel8080.Interpreter.InrRegister` | Cpu/source/8080.cpp:722-726 | a register plus one modulo 256, all flags but carry from the result; 5 ticks |
| `Intel8080.Interpreter.InrMemory` | Cpu/source/8080.cpp:728-739 | the same for the byte at HL; 10 ticks |
| `Intel8080.Interpreter.DcrRegister` | Cpu/source/8080.cpp:747-752 | a register minus one modulo 256, all flags but carry from the result; 5 ticks |
| `Intel8080.Interpreter.DcrMemory` | Cpu/source/8080.cpp:754-762 | the same for the byte at HL; 10 ticks |
| `Intel8080.Interpreter.MviRegister` | Cpu/source/8080.cpp:764-776 | immediate byte to a register |
| `Intel8080.Interpreter.MviMemory` | Cpu/source/8080.cpp:778-792 | immediate byte to the byte at HL |
| `Intel8080.Interpreter.DecimalAdjust` | Cpu/source/8080.cpp:801-825 | is the manual's DAA |
| `Intel8080.Interpreter.RotateLeft` | Cpu/source/8080.cpp:835-847 | every bit one place left, the top bit into bit 0 and the carry; 4 ticks |
| `Intel8080.Interpreter.RotateRight` | Cpu/source/8080.cpp:857-869 | every bit one place right, bit 0 into the top bit and the carry; 4 ticks |
| `Intel8080.Interpreter.RotateLeftThroughCarry` | Cpu/source/8080.cpp:879-892 | every bit one place left, the old carry into bit 0, the top bit into the carry; 4 ticks |
| `Intel8080.Interpreter.RotateRightThroughCarry` | Cpu/source/8080.cpp:902-915 | every bit one place right, the old carry into the top bit, bit 0 into the carry; 4 ticks |
| `Intel8080.Interpreter.LoadImmediate` | Cpu/source/8080.cpp:917-946 | the two bytes after the opcode, low first, into the pair; 10 ticks |
| `Intel8080.Interpreter.StoreDirectPair` | Cpu/source/8080.cpp:957-973 | SHLD, wrapping past the top of memory |
| `Intel8080.Interpreter.LoadDirectPair` | Cpu/source/8080.cpp:1072-1090 | LHLD, wrapping past the top of memory |
| `Intel8080.Interpreter.StoreIndirect` | Cpu/source/8080.cpp:987-997 | accumulator to the byte the pair points at, nothing else changed; 7 ticks |
| `Intel8080.Interpreter.LoadIndirect` | Cpu/source/8080.cpp:1098-1109 | the byte the pair points at to the accumulator; 7 ticks |
| `Intel8080.Interpreter.StoreDirect` | Cpu/source/8080.cpp:1160-1175 | accumulator to the direct address; 13 ticks |
| `Intel8080.Interpreter.LoadDirect` | Cpu/source/8080.cpp:1189-1205 | the byte at the direct address to the accumulator; 13 ticks |
| `Intel8080.Interpreter.IncrementPair` | Cpu/source/8080.cpp:1005-1029 | INX wraps at 16 bits and touches no flag |
| `Intel8080.Interpreter.DecrementPair` | Cpu/source/8080.cpp:1117-1141 | DCX wraps at 16 bits and touches no flag |
| `Intel8080.Interpreter.AddPair` | Cpu/source/8080.cpp:1038-1063 | DAD: 16-bit sum and only the carry |
| `Intel8080.Interpreter.ComplementAccumulator` | Cpu/source/8080.cpp:1148-1158 | every bit of the accumulator flipped, no flag touched |
| `Intel8080.Interpreter.SetCarry` | Cpu/source/8080.cpp:1177-1187 | carry set, nothing else |
| `Intel8080.Interpreter.ComplementCarry` | Cpu/source/8080.cpp:1207-1217 | carry flipped, nothing else |
| `Intel8080.Interpreter.Move` | Cpu/source/8080.cpp:1219-1229 | one register copied, no flag touched; 5 ticks |
| `Intel8080.Interpreter.MoveFrom` | Cpu/source/8080.cpp:1231-1244 | the byte at HL to a register; 7 ticks |
| `Intel8080.Interpreter.MoveTo` | Cpu/source/8080.cpp:1246-1258 | a register to the byte at HL, nothing else changed; 7 ticks |
| `Intel8080.Interpreter.NoOperation` | Cpu/source/8080.cpp:1260-1269 | NOP and MOV of a register onto itself |
| `Intel8080.Interpreter.SkipUndefined` | Cpu/source/8080.cpp:1527-1545 | 0xDD, 0xED and 0xFD skip two bytes at no ticks |
| `Intel8080.Interpreter.RetOnFlag` | Cpu/source/8080.cpp:1547-1576 | if the condition holds, control to the word on the stack and the stack pointer up by two; 10 ticks, 11 for a conditional return, 5 if not taken |
| `Intel8080.Interpreter.JmpOnFlag` | Cpu/source/8080.cpp:1600-1614 | to the direct address if the condition holds, else past the instruction; 10 ticks either way |
| `Intel8080.Interpreter.CallOnFlag` | Cpu/source/8080.cpp:1616-1651 | if the condition holds, pushes the address after the instruction and jumps; 17 ticks taken, 11 not |
| `Intel8080.Interpreter.Restart` | Cpu/source/8080.cpp:1723-1754 | RST pushes the incremented counter |
| `Intel8080.Interpreter.Vector` | Cpu/source/8080.cpp:1698-1721 | an acknowledged interrupt pushes the counter as it is |
| `Intel8080.Interpreter.PushPair` | Cpu/source/8080.cpp:1653-1673 | PUSH, high byte first, wrapping stack pointer |
| `Intel8080.Interpreter.PopPair` | Cpu/source/8080.cpp:1578-1598 | POP; POP PSW forces the status pattern |
| `Intel8080.Interpreter.WritePort` | Cpu/source/8080.cpp:1756-1770 | the accumulator, once, to the port the next byte names |
| `Intel8080.Interpreter.ReadPort` | Cpu/source/8080.cpp:1772-1787 | what the port the next byte names returns, read once, to the accumulator |
| `Intel8080.Interpreter.ExchangeStack` | Cpu/source/8080.cpp:1796-1821 | exchanges HL with the word on the stack, wrapping at the top of memory; 18 ticks |
| `Intel8080.Interpreter.JumpIndirect` | Cpu/source/8080.cpp:1830-1839 | control to HL; 5 ticks |
| `Intel8080.Interpreter.Exchange` | Cpu/source/8080.cpp:1841-1852 | exchanges DE and HL; 4 ticks |
| `Intel8080.Interpreter.LoadStackPointer` | Cpu/source/8080.cpp:1871-1881 | stack pointer from HL; 5 ticks |
| `Intel8080.Interpreter.DisableInterrupts` | Cpu/source/8080.cpp:1859-1869 | flip-flop cleared, nothing else |
| `Intel8080.Interpreter.EnableInterrupts` | Cpu/source/8080.cpp:1887-1897 | EI, in effect at once |
| `Intel8080.Interpreter.Perform` | Cpu/source/8080.cpp:411-670 | the whole switch is the architectural instruction, or a failed assertion that changed nothing |
| `Bus.DataBus.Receive` | SystemBus/include/SystemBus/SystemBus.h:55-60 | receiving clears the bus |
| `Bus.AddressBus.Receive` | SystemBus/include/SystemBus/SystemBus.h:79-84 | receiving clears the bus |
| `Bus.ControlBus.Send` | SystemBus/include/SystemBus/SystemBus.h:98-101 | raises one lane |
| `Bus.ControlBus.Receive` | SystemBus/include/SystemBus/SystemBus.h:103-108 | reports and lowers one lane |
| `Bus.Board.ProcessControllers` | Machine/source/Machine.cpp:100-132 | serves the one announced transaction, clears its lane and the address bus, and lowers every transaction lane |
| `Bus.MemoryController.Read` | Tests/TestControllers/source/MemoryController.cpp:74-77 | returns the addressed byte |
| `Bus.MemoryController.Write` | Tests/TestControllers/source/MemoryController.cpp:79-82 | changes one byte |
| `Bus.MemoryController.Clear` | Tests/TestControllers/source/MemoryController.cpp:84-87 | zeroes memory |
| `MachineLoop.Machine8080.ServiceInterrupts` | Machine/source/Machine.cpp:282-452 | the switch over the controller's answer is the protocol's |
| `MachineLoop.Machine8080.LoadMachineState` | Machine/source/Machine.cpp:170-253 | load atomicity: the new processor and memory are those of an all-or-nothing load, for every reply |
| `MachineLoop.Machine8080.TakeReply` | Machine/source/Machine.cpp:440-444 | a reply is applied and its future emptied |
| `MachineLoop.Machine8080.CheckLoad` | Machine/source/Machine.cpp:255-270 | a running load is left alone unless waited for; a deferred or ready one is consumed |
| `MachineLoop.Machine8080.CheckSave` | Machine/source/Machine.cpp:255-270 | the same for a save |
| `MachineLoop.Machine8080.RequestLoad` | Machine/source/Machine.cpp:299-332 | accepted only with a handler and nothing outstanding; otherwise nothing changes |
| `MachineLoop.Machine8080.RequestSave` | Machine/source/Machine.cpp:334-418 | accepted only with a handler, nothing outstanding and a memory uuid; otherwise nothing changes |
| `MachineLoop.Machine8080.Capture` | Machine/source/Machine.cpp:350-388 | the captured state is the snapshot of processor and blocks now |
| `MachineLoop.Machine8080.ScatterBlock` | Machine/source/Machine.cpp:239-245 | one block restored, the index advanced by its size |
| `MachineLoop.Machine8080.ScatterBlocks` | Machine/source/Machine.cpp:221-245 | all blocks restored with the index in bounds throughout |
| `CpuClock.PacingClock.SleepFor` | CpuClock/source/CpuClock.cpp:126-161 | sleeps only from a millisecond up and subtracts what passed |
| `CpuClock.PacingClock.SpinFor` | CpuClock/source/CpuClock.cpp:163-182 | never ends early; what is left is the overspin |
| `CpuClock.PacingClock.Reset` | CpuClock/source/CpuClock.cpp:200-204 | restarts epoch and last reading, keeping error, tick count and time |
| `Multibyte.SubBinariesDecidesOrder` | Cpu/source/8080.cpp:1347-1378 | for every length, SUB then SBB gives the difference modulo 256^n, whatever the carry before; the final carry is set exactly when x < y, and the result is zero exactly when x = y |
| `Snapshot.LoadPattern` | Cpu/source/8080.cpp:350-360 | after a load the status word has its pattern exactly if the number in the text has bit 1 set and bits 3 and 5 clear |
| `Snapshot.ScatterLast` | Machine/source/Machine.cpp:239-245 | any byte string, gathered or not, leaves at a block address the last byte it has for it |
| `Resume.LoadsAllOrNothing` | Machine/source/Machine.cpp:170-253 | for every candidate reply: nothing changes, or the processor is the one in the text, each RAM-block address holds the last byte given for it, and no other address changes |
| `Pattern.StatusIffSound` | Machine/source/Machine.cpp:272-456 | over any run the status word has its pattern after every turn if and only if every reply that lands has it |
| `Pattern.MachineStatus` | Machine/source/Machine.cpp:236-245 | the same for the machine from power on; and then every state captured for a save is a reply that would land with the pattern |
| `Pattern.LoadLosesPattern` | Cpu/source/8080.cpp:350-360 | one no-operation, a load request and an accepted reply with status number 0 leave a running machine whose status word lacks the pattern |
| `History.AllowedHistory` | Machine/source/Machine.cpp:336-410 | in any allowed history handlers have received the captured states, in order, but for one still running |
| `History.CapturedAtBoundary` | Machine/source/Machine.cpp:350-391 | over any run the captured states are the snapshots of the boundaries of exactly the turns that accept a save, in order |
| `History.HandlersReceive` | Machine/source/Machine.cpp:391-407 | the k-th save handler of a run receives the state at the boundary of the k-th accepting turn, however late it runs, and only one still outstanding has not |
| `Lockstep.MachineInStepIffLocked` | Machine/source/Machine.cpp:279-282 | for every resolution, service period and tick count a run can leave: all runs from power on take the time at exactly the instructions after which interrupts are serviced, if and only if no sum of instruction costs tells resolution from period and no ticks are left over, or both act at every instruction |
| `Lockstep.InStepIffLocked` | CpuClock/source/CpuClock.cpp:118-198 | the same for any processor with the costs and the four one-byte instructions the witnesses use |
| `Lockstep.RunInStep` | CpuClock/source/CpuClock.cpp:120-189 | a locked clock and loop are in step over every run |
| `Lockstep.LeavesTally` | CpuClock/source/CpuClock.cpp:200-204 | a run leaves only tick counts that are sums of instruction costs: 0, 4, 5, 7 and more |
| `Lockstep.EveryTallyLeft` | CpuClock/source/CpuClock.cpp:200-204 | every such count is left by some run from power on that quits before the first sync, with service after every instruction |
| `Lockstep.OversleepShows` | CpuClock/source/CpuClock.cpp:184-204 | a machine full of no-operations, run twice to a quit in its first sync: the first run oversleeps by any time, and the second can report less than it emulates |
| `Lockstep.SumMet` | Cpu/source/8080.cpp:411-670 | every sum of instruction costs is met by a run from power on |
| `MachineLoop.FrequencyOneLocked` | Machine/source/Machine.cpp:92-95 | with interrupt frequency one, clock and loop are locked if and only if no ticks are left over (or the resolution is below a tick) and, after a warning, the old period cannot be told from the resolution |
| `MachineLoop.StalePeriodOutOfStep` | Machine/source/Machine.cpp:92-95 | a fresh machine given a resolution of four ticks with a warning keeps its period of zero, and some run is out of step |
| `MachineLoop.UnitFrequency` | Machine/source/Machine.cpp:92-95 | with interrupt frequency one the service period is the resolution in ticks |
| `Pacing.NeverShortIff` | CpuClock/source/CpuClock.cpp:184-204 | exactly when a run of given costs reports no less than it emulates, for all host clocks: if it syncs, when left-over ticks pay for the oversleep carried in and the ticks pending at its end; if it never syncs, when the time an earlier run left is enough |
| `Pacing.LeastTime` | CpuClock/source/CpuClock.cpp:184-188 | no host clock makes a run of these costs report less than its least time |
| `Pacing.LeastAttained` | CpuClock/source/CpuClock.cpp:184-188 | some host clock makes it report exactly that |
| `Pacing.LateRun` | CpuClock/source/CpuClock.cpp:163-185 | a run of 4-tick instructions that ends in its first sync can be late by any time and carries exactly that out as error |
| `Pacing.TimeAtSync` | CpuClock/source/CpuClock.cpp:186-188 | after a run that syncs the reported time is the last reading minus the epoch, and before any sync the time an earlier run left |
| `Pacing.CountFits` | CpuClock/source/CpuClock.cpp:122-124 | the tick count stays in 32 bits while the resolution is an instruction clear of the limit |
| `Controllers.FilledOneMore` | Tests/TestControllers/source/TestIoController.cpp:73-101 | a run that goes on by an event hears the answer of the latch it has come to, or else the controller's own |
| `Chronicle.RunIsChronicled` | Machine/source/Machine.cpp:272-456 | every run of the loop is a run of the protocol over the controller's answers, with a clock given exactly each instruction's ticks |
| `MachineLoop.Machine8080.Loop` | Machine/source/Machine.cpp:272-459 | the loop takes turns until the power-off lane is up |
| `MachineLoop.Machine8080.OneTurn` | Machine/source/Machine.cpp:274-455 | one pass of the loop body is one turn on machine, latch and clock |
| `MachineLoop.Machine8080.ExecuteAndTick` | Machine/source/Machine.cpp:274-277 | one instruction, its port write heard by the latch, and its ticks given to the clock |
| `MachineLoop.Machine8080.ExecuteInstruction` | Machine/source/Machine.cpp:275-277 | one instruction, with what handler threads did meanwhile |
| `MachineLoop.Machine8080.Ask` | Tests/TestControllers/source/TestIoController.cpp:73-101 | the latch's request first, the controller's own interrupt only if there is none |
| `MachineLoop.Machine8080.Settled` | Machine/source/Machine.cpp:279-454 | services exactly when enough ticks have passed |
| `MachineLoop.Machine8080.GatherBlock` | Machine/source/Machine.cpp:350-363 | one block gathered by the 16-bit loop |
| `MachineLoop.Machine8080.GatherBlocks` | Machine/source/Machine.cpp:350-363 | the save loops gather the blocks in order |
| `MachineLoop.Machine8080.GatherWrapping` | Machine/source/Machine.cpp:194-203 | the wider load loops gather the same bytes |
| `MachineLoop.Machine8080.SetClockResolution` | Machine/source/Machine.cpp:71-98 | range check, and the service period follows only a resolution set without a warning |
| `CpuClock.PacingClock.SetTickResolution` | CpuClock/source/CpuClock.cpp:92-116 | a resolution is kept in 32 bits; one finer than the host clock is set all the same, with a warning |
| `CpuClock.InTicksExact` | CpuClock/source/CpuClock.cpp:103-112 | a resolution keeps its length in ticks if and only if that is below 2^31 |
| `Alu.LogicByLanes` | Cpu/source/8080.cpp:1380-1480 | ANA, ORA and XRA give the one byte that is, lane by lane, the connective of their operands |
| `Intel8080.Interpreter.AndCore` | Cpu/source/8080.cpp:1380-1391 | half carry from bit 3 of either operand before the operation, then the conjunction and its flags |
| `Intel8080.Interpreter.XorCore` | Cpu/source/8080.cpp:1425-1435 | difference and its flags |
| `Intel8080.Interpreter.OrCore` | Cpu/source/8080.cpp:1469-1479 | disjunction and its flags |
| `Controllers.QuitStandsIff` | Tests/TestControllers/source/TestIoController.cpp:55-71 | OUT 0xFF followed by another OUT before the next service: the quit stands exactly if the second goes to the quit port again or to a port the controller keeps |
| `Controllers.QuitCanBeTakenBack` | Tests/TestControllers/source/BaseIoController.cpp:36-38 | OUT 0xFF followed by OUT 3 before the next service is no request, for both test controllers |
| `Controllers.TestIoController.Read` | Tests/TestControllers/source/TestIoController.cpp:33-53 | port 0 is the device, other ports read 0 |
| `Controllers.TestIoController.Write` | Tests/TestControllers/source/TestIoController.cpp:55-71 | port 0 sets the device, every other port reaches the latch |
| `Controllers.TestIoController.ServiceInterrupts` | Tests/TestControllers/source/TestIoController.cpp:73-101 | the latch's request first; else an interrupt, and a new last time, exactly if a second has passed |
| `Controllers.StaleTimerFires` | Tests/TestControllers/source/TestIoController.cpp:82-97 | once the clock has gone back behind the last time, the interrupt fires at once, unless it went back by all but a second of the 64-bit range |
| `Calls.EnabledAtOnce` | Cpu/source/8080.cpp:1887-1897 | after an executed EI the very next step acknowledges an interrupt if and only if one is raised |
| `Calls.ReturnNotProtected` | Cpu/source/8080.cpp:388-402 | an interrupt raised after EI is accepted before the RET that follows it, with the address of that RET pushed |
| `Pacing.NeverShortIffNothingCarried` | CpuClock/source/CpuClock.cpp:184-204 | with no ticks left over, for a run that syncs and whose last instruction costs at least a tick: if and only if no oversleep was carried in and that instruction syncs |
| `MachineLoop.Machine8080.Run` | Machine/source/Machine.cpp:134-473 | every run from power on goes turn by turn over the given events, from the latch and clock earlier runs left, to the machine, latch and clock it ends with; it is rejected exactly when running, and then nothing changes, or out of range, and then processor and clock have been reset; when it finishes it returns the clock's time, the bus is quiet and every lane is down |
| `MachineLoop.Machine8080.HearWrite` | Tests/TestControllers/source/TestIoController.cpp:55-71 | the port write of the instruction reaches the latch unless the controller keeps the port |
| `MachineLoop.Machine8080.PowerUp` | Machine/source/Machine.cpp:151-154 | processor and clock restarted, then resolution and service period set or the run rejected |
| `Resume.ResumeFidelity` | Machine/source/Machine.cpp:170-253 | after a snapshot is loaded into any state with the same bytes in the ROM blocks and the same flip-flop, every run that reads only vouched-for or self-written addresses is indistinguishable from the original run from the save point: traps, registers, ticks, port traffic and all vouched-for or written memory |
| `Resume.SavedIsAcceptable` | Machine/source/Machine.cpp:194-212 | a saved state is accepted by every machine with the same bytes in the ROM blocks, whatever its RAM holds, and refused if one such byte differs and the hash tells the two ROM strings apart |
| `Resume.AcceptableAcross` | Machine/source/Machine.cpp:174-234 | exactly when a state saved by one machine is accepted by another: ids of memory and processor, length of the RAM string, hash of the ROM string |
| `Resume.DamagedChangesNothing` | Machine/source/Machine.cpp:246-252 | a reply with any part missing changes nothing |
| `Resume.LoadSaved` | Machine/source/Machine.cpp:236-245 | a load restores every register but the flip-flop and every byte of the RAM blocks, and changes nothing else |
| `Snapshot.AddressesAreBlocks` | Machine/source/Machine.cpp:194-203 | the addresses gathered are exactly those of the blocks |
| `Snapshot.BlockBytes` | Machine/source/Machine.cpp:350-363 | the string holds block after block, each byte from its offset on, wrapping past the top of memory |
| `Snapshot.SameStringIff` | Machine/source/Machine.cpp:205-212 | two memories give the same string exactly if they have the same bytes in the blocks |
| `Snapshot.LoadNarrows` | Cpu/source/8080.cpp:339-358 | a load takes each number of the text modulo the width of its register |
| `Flags.ArithmeticComputes` | Cpu/source/8080.cpp:1320-1525 | ADD, ADC, SUB, SBB, ANA, XRA, ORA and CMP: sum, difference or lanes, carry or borrow, half carry from the low digits; zero, sign and parity by the set of lanes of the result byte; nothing else changed |
| `Flags.IncrementComputes` | Cpu/source/8080.cpp:722-739 | INR: the next byte modulo 256, its flags by lanes, half carry from digit 15, the carry alone |
| `Flags.DecrementComputes` | Cpu/source/8080.cpp:747-762 | DCR: the byte before, its flags by lanes, half carry unless the digit is 0, the carry alone |
| `Flags.AdjustComputes` | Cpu/source/8080.cpp:801-825 | DAA on every accumulator and flags: what is added, carry exactly if carried or above 0x99, flags by lanes |
| `Flags.OnesCountsLanes` | Cpu/include/Cpu/8080.h:126 | counting set bits half by half is the size of the set of lanes |
| `Flags.OraThenJump` | Cpu/source/8080.cpp:1600-1614 | ORA A and any of the eight conditional jumps through two steps: taken exactly as the number and the top of the set lanes of the accumulator say, to the address in the code |
| `Laws.PushLays` | Cpu/source/8080.cpp:1653-1673 | PUSH leaves the low register at the stack pointer and the high one above it |
| `Laws.StatusLanes` | Cpu/source/8080.cpp:1653-1673 | which lanes of the status byte are which flags |
| `Laws.LoadByHalves` | Cpu/source/8080.cpp:917-946 | LXI is two byte loads, low byte first in the code |
| `Laws.ExchangeOverStack` | Cpu/source/8080.cpp:1796-1821 | PUSH D, XTHL, POP D is XCHG |
| `Laws.StoreIsPush` | Cpu/source/8080.cpp:957-973 | SHLD stores what PUSH H would, and LHLD takes it back |
| `Laws.DoubleAddByHalves` | Cpu/source/8080.cpp:1038-1063 | DAD is ADD of the low bytes and ADC of the high ones on HL and carry |
| `Laws.CountsModulo` | Cpu/source/8080.cpp:1005-1029 | INX and DCX count modulo 65536 in their pair and change nothing else |
| `Laws.MoveCopies` | Cpu/source/8080.cpp:1219-1229 | MOV copies one register and changes no other |
| `Laws.LeftByLanes` | Cpu/source/8080.cpp:835-892 | a rotation to the left moves every lane up, the entering one at the bottom, the top one to the carry |
| `Laws.RightByLanes` | Cpu/source/8080.cpp:857-915 | a rotation to the right moves every lane down, the entering one on top, the bottom one to the carry |
| `Runs.StepLawful` | Cpu/source/8080.cpp:381-684 | every step keeps the status pattern, costs what the data sheet says (11 ticks for an accepted interrupt), makes at most one port access, and steps the counter over an instruction that does not transfer control |
| `Runs.StepPrice` | Cpu/source/8080.cpp:411-683 | every step costs 0, 4, 5 or 7 to 18 ticks |
| `Interrupts.VectorTaken` | Machine/source/Machine.cpp:285-298 | a due service answered with vector n: with interrupts enabled at that boundary the next turn pushes the interrupted counter, goes to 8n and disables interrupts; with interrupts disabled the interrupt is lost and the next turn is as if none were raised |
| `Interrupts.TurnRaises` | Machine/source/Machine.cpp:279-298 | a turn leaves an interrupt raised, with that number, exactly if its service was due and the controller answered with one |
| `History.RunDoes` | Machine/source/Machine.cpp:272-456 | the history of every run, whatever the interleaving: turn by turn exactly what the answers of the controller call for, and what handlers do that end in between |
| `Pacing.NeverWaits` | CpuClock/source/CpuClock.cpp:191-197 | over every run of a clock with a negative resolution each report is the reading of that call minus the epoch and none is less than an earlier one; error and tick count stay |
| `CpuClock.PacingClock.Tick` | CpuClock/source/CpuClock.cpp:118-198 | one call is the paced tick for readings the host clock gave; the spin ends; a clock that never waits takes one reading and reports it |
| `MachineLoop.PeriodIsShare` | Machine/source/Machine.cpp:92-95 | for every frequency the service period is its share of the resolution in ticks with the fraction dropped |
| `Controllers.AnswerIff` | Tests/TestControllers/source/BaseIoController.cpp:34-62 | for every controller built on the latch and any traffic since the last service: quit exactly if the standing request is port 0xFF's, save exactly if it is port 0xFE's or the cycle is the timed one and it is not 0xFF's, load exactly if it is port 0xFD's and the cycle is not the timed one; and what is held afterwards |
| `Controllers.ReportedOnce` | Tests/TestControllers/source/BaseIoController.cpp:41-62 | with nothing written since the previous service and away from the timed cycle no request is reported, except a load that stood when the previous one was the timed save |
| `Controllers.AnswersHeard` | Tests/TestControllers/source/BaseIoController.cpp:34-62 | over every run and for every service period each service answers with the last write to reach the latch since the one before, and with the controller's own interrupt only if no request stands |
| `Controllers.StopsAtFirstQuit` | Machine/source/Machine.cpp:436-446 | every run of the protocol ends in exactly the first service that answers quit |
| `Controllers.HearingsEvery` | Machine/source/Machine.cpp:279-282 | with service after every instruction each service hears the traffic of that instruction alone |
| `Chronicle.RunEnds` | Machine/source/Machine.cpp:272-459 | of every run: reported time (at least the least for a pacing clock, the last reading for one that never waits), lockstep, right answers, end at the first quit, and nothing outstanding once off |
| `MachineLoop.Machine8080.RunGives` | Machine/source/Machine.cpp:134-473 | the same of every run as Run gives it, with the machine, latch and clock it has come to |
| `Laws.LoadImmediates` | Cpu/source/8080.cpp:764-792 | MVI loads the byte LXI would load as the low one; to memory it is MVI and MOV M |
| `Laws.TransfersThroughHL` | Cpu/source/8080.cpp:987-1205 | STAX, LDAX, STA and LDA are MOV M,A and MOV A,M with the address in HL |
| `Laws.PortEcho` | Cpu/source/8080.cpp:1756-1787 | OUT then IN of the same port from a device that gives back what was written: one access each, and the accumulator as it was |
| `Laws.RotationsByLanes` | Cpu/source/8080.cpp:835-915 | RLC and RRC bring the lane that leaves in at the other end, RAL and RAR the old carry |
| `Laws.ComplementFlips` | Cpu/source/8080.cpp:1148-1158 | CMA flips every lane of the accumulator, and nothing else |
| `Laws.CarryFlips` | Cpu/source/8080.cpp:1177-1217 | CMC flips the carry, STC sets it, and neither touches anything else |
| `Laws.BumpsOperand` | Cpu/source/8080.cpp:722-762 | INR and DCR of any operand, register or memory: the neighbouring byte with its flags, the carry alone |
| `Laws.PairsAreRegisters` | Cpu/source/8080.cpp:917-946 | which registers make a pair, the high one first |
| `Laws.TakesHL` | Cpu/source/8080.cpp:1830-1881 | SPHL and PCHL take the address in HL |

The alternative dispatch table (Cpu/source/8080.cpp:39-297) lists the same 256 calls as the switch, so
`Dispatch.Switch` stands for both.

## Left out

- JSON text, base64, zlib and file formats: a saved state is a record, and a load handler's reply is nothing, text that does not parse, or fields that may be missing or fail to decode.
- MD5: any function of the ROM bytes. Only the refusal of another ROM in `Resume.SavedIsAcceptable` asks that it tell the two ROM strings at hand apart.
- Real sleeping, the sleep fraction and querying the host's timer: any readings of a host clock that never goes back and passes every time.
- Threads: asynchronous handlers interleave at instruction boundaries and right after they are launched; the running flag is not treated as shared memory, and waiting for an asynchronous run is not modelled.
- HLT and most undefined opcodes: the code asserts, the model traps.
- Registers in separate fields: the interpreter keeps its registers in one record field that its methods reassign, so aliasing of register references (all distinct in the source) is not modelled.
- Missing controllers, `Machine::Save`, `GetState`, option parsing, file loading and the Python bindings are not modelled. What a controller answers beside its request latch is a parameter of each turn.
- CpuClock.PacingClock.Tick: the 32-bit tick count is unbounded here, because `Pacing.CountFits` shows it cannot overflow unless the resolution is within an instruction of 2^31 ticks.
- 64-bit overflow of total ticks and nanoseconds, and rounding of the interrupt frequency held as a double: unbounded integers and reals.
- MachineLoop.Machine8080.Loop: takes finitely many events and may be suspended when they run out, because a run of the original need not end.
- MachineLoop.Machine8080.GatherBlocks: requires blocks that stop short of the top of memory, and so do `Capture`, `RequestSave` and `Run` when a save handler is set, because the original gathers without end otherwise; `Snapshot.GatherEnds` says exactly when. Memory for the gathered bytes is unbounded here; in the original it runs out at some point, which is caught (Machine/source/Machine.cpp:411-415).
- Controllers.CpmIoController.Write: requires a dollar sign somewhere in memory when it prints a string, because the original does not terminate otherwise.
- CpuClock.PacingClock.SpinFor: requires a host clock that passes every time, because the original spins for ever on one that stops.
