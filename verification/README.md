# emu-gb: a verified model

A Dafny model of the Game Boy emulator emu-gb: its CPU machine (timer,
interrupts, run loop, instruction set, bus, stack), its MBC1 cartridge mapper
and the real-time clock of its MBC3 mapper. `dafny verify dfyconfig.toml`
checks everything.

## How it is built

Two layers. The specification layer describes the machine as a value
(`State.dfy`) and each C function as a function on it: `Timer.dfy`, `Bus.dfy`,
`Interrupts.dfy`, `Alu.dfy`, `Opcodes.dfy`, `Fetch.dfy`, `Instructions.dfy`,
`Runs.dfy`. It says what is computed (a sum and its carry, the octal structure
of an opcode, a list of pending sources), not how. The properties are lemmas
about it: `Timer.dfy`, `TimerBatch.dfy` and `TimerNumbers.dfy` (closed forms),
`MultiByte.dfy`, `Programs.dfy`, `ProgramRuns.dfy` and `ShiftRuns.dfy`
(arithmetic of any length, and machine code that does it), `StepMemory.dfy`
(INC and DEC of a byte that moves),
`Effects.dfy`, `Runs.dfy`, `RunProperties.dfy` and `Draining.dfy` (every
instruction, every run), `StackPrograms.dfy`, `Nesting.dfy`,
`Transparency.dfy` and `NestedRuns.dfy` (well-nested programs, interrupts the
interrupted code cannot notice, and both as parts of runs).

A third group says what each opcode does in terms that are not the model's own:
the whole state after it, as ticks, places in the register file, bits of F and
bytes of the code. `Encoded.dfy` prepares it; `ControlFlow.dfy`,
`Transfers.dfy`, `Operations.dfy`, `WordOperations.dfy`, `Accumulator.dfy` and
`CbPrefix.dfy` state it, and `OpcodeMap.dfy` shows that no opcode is missing.
`Mbc1History.dfy` does the same for MBC1, by the list of writes since power-on.

The second layer, class `Emulator.Machine` in `Machine.dfy`, keeps the state in
fields and arrays as the source does and changes it in place: register file
and memory are arrays, flags are masked into F one at a time, the interrupt
search is a loop, the opcode table is a table. Each method is proved equal to
its specification function, so what is proved of runs holds of the loop.

`Mbc1.dfy`, `Mbc1Dump.dfy` and `Rtc.dfy` have the same two layers for the
cartridge side. The bus sees a cartridge as a device that answers from the
register writes it has received, so the machine properties hold for every
cartridge type; `Mbc1OnBus.dfy` plugs the MBC1 model in.

A run is a sequence of states at consecutive boundaries of the loop in
src/main.c; a pass is one trip round it. `clock` counts timer ticks and exists
only in the model. The reference for the intended behaviour is gbdev Pan Docs,
chapters "Timer and Divider Registers", "Interrupts", "MBC1" and "MBC3".

## Where the code is not what its documents say

The model follows the code.

- Dispatching an interrupt does not clear IME, so a handler can be interrupted
  at once; `Draining.DrainingOrder` shows the resulting order.
- A batch of ticks can miss the reload that single ticks would make;
  `TimerBatch.BatchExact` gives the exact condition for every batch size.
- 16-bit reads, and with them LD A,(BC), LD A,(DE) and LD A,(nn), bypass the
  device registers; `Bus.Read16Exact` says at which addresses it shows.
- Ten opcodes do not take the ticks of the opcode table:
  `Runs.TicksMatchTable`.
- INC (HL) and DEC (HL) take their flags from the byte before two ticks and
  their result from the byte after; a timer register can change in between.
  `StepMemory.StepFlagsExact` says exactly when the flags are wrong, and
  `StepMemory.StepCanMislead` gives an input.
- The MBC1 dump counts twice the banks the header promises, and aborts on a
  ROM exactly as long as its header says for every ROM-size code up to 5,
  except code 5 with multicart wiring: `Mbc1Device.HonestRomAborts`.
- The day counter's ninth bit and carry come from the wrong bits:
  `RtcModel.NinthDayBit` gives the exact condition.

## Model

| member | source | states |
|---|---|---|
| TimerModel.TimerClosedForm | src/cpu/timer.c:77-118 | After any number n of single ticks DIV, TIMA and the pending flag have their closed-form values, and the number of TIMA overflows is exactly 0 below 256-TIMA increments and 1 + (K-(256-TIMA)) div (256-TMA) from there on, across DIV wraps and reloads |
| TimerModel.OverflowsAreRequested | src/cpu/timer.c:91-117 | Over any run of single ticks, overflows plus initially pending equals interrupt requests plus still pending: none lost, none invented |
| TimerModel.IncrementsStep | src/cpu/timer.c:98-105 | One tick owes one increment exactly when the unwrapped divider reaches a multiple of the period, also where DIV wraps |
| TimerModel.CounterStep | src/cpu/timer.c:104-117 | One more increment moves the closed-form counter by one, or reloads it from 0xFF and counts an overflow |
| TimerBatch.TickNState | src/cpu/timer.c:77-118 | n single ticks touch only the timer, IF bit 2, the IME flags and the clock |
| TimerBatch.SmallBatchExact | src/cpu/timer.c:77-118 | For batches of one to four ticks (the source uses two) batch and singles agree if and only if TIMA does not wrap before the last tick |
| TimerBatch.BatchExact | src/cpu/timer.c:77-118 | For every batch size n from 0 to 255: one call with n ticks equals n calls with one, in the whole machine state, if and only if the counter does not pass 0xFF, or wraps in one of two ways a caller can tell from TIMA, TMA, DIV and IF |
| TimerBatch.OverflowsAtLast | src/cpu/timer.c:104-117 | After n single ticks TIMA has just overflowed if and only if the last tick counts and the increments so far are a wrap of the counter |
| TimerBatch.SmallBatchCanDiffer | src/cpu/timer.c:104-113 | A concrete timer on which a batch of two and two single ticks differ |
| TimerNumbers.IncrementsByTac | src/cpu/timer.c:75-102 | n ticks from divider value d owe no increment with TAC mod 8 below 4, and (d+n) div f - d div f with f = 256, 4, 16, 64 for 4, 5, 6, 7 |
| TimerNumbers.TimerByNumbers | src/cpu/timer.c:77-118 | The closed form of DIV, TIMA and the overflows with these numbers, across wraps and reloads |
| TimerNumbers.TimerOnBus | src/io.c:10-42 | Writing TAC at 0xFF07, letting n ticks pass and reading 0xFF04, 0xFF05 and bit 2 of 0xFF0F: the closed form as the bus shows it |
| TimerNumbers.WakeByNumbers | src/main.c:23-30 | The wake-up count from HALT with the period in numbers, by TAC |
| MachineState.ReadRegAfterWrite | src/cpu/cpu.c:42-87 | A register reads back what was written, cut to its width, and other registers are not disturbed |
| Bus.Write | src/cpu/memory.c:12-30 | A bus write never touches registers, IME flags, HALT or the clock |
| Bus.ReadAfterWrite | src/io.c:10-42 | A read after one write sees it (DIV as 0, TAC as its low three bits) and no other address changes |
| Bus.BusIsFlat | src/cpu/memory.c:12-55 | After any sequence of writes from 0x8000 up the bus reads like a flat byte map in which the last write wins |
| Bus.WriteByNumbers | src/io.c:10-26 | What a write does at 0xFF04 to 0xFF07, 0xFF0F, 0xFFFF, below 0x8000 and everywhere else |
| Bus.ReadByNumbers | src/io.c:28-42 | What a read shows at each of these |
| Bus.Read16ByBytes | src/cpu/memory.c:57-64 | The 16-bit read takes the low byte first, from the cartridge below 0x8000 and from the memory array above |
| Bus.Read16Exact | src/cpu/memory.c:57-64 | The 16-bit read equals two byte reads in every state if and only if both bytes are cartridge ROM or both are plain memory cells |
| Bus.PushEffect | include/cpu/stack.h:8-18 | A 16-bit push onto plain memory: two ticks, SP down two, high byte above low byte, nothing else |
| Bus.PopEffect | include/cpu/stack.h:20-31 | A 16-bit pop: two ticks, SP up two, the little-endian word at SP |
| Bus.PushPop | include/cpu/stack.h:8-31 | Popping after pushing returns the word, restores SP and leaves everything from SP up as it was |
| Interrupts.PendingListed | src/cpu/interrupt.c:92-93 | The pending list holds exactly the sources set in both IF and IE, lowest first |
| Interrupts.DispatchEffect | src/cpu/interrupt.c:79-106 | A dispatch with stack room, as the whole new state: return address pushed, vector 0x40+8k, five ticks, IME not cleared, IF as below |
| Interrupts.DispatchKeepsRequests | src/cpu/interrupt.c:101-104 | After a dispatch exactly the dispatched request is gone, and a timer request raised during its five ticks is there unless it is that one |
| Interrupts.HandleInterruptsExact | src/cpu/interrupt.c:90-111 | Nothing pending: no change; otherwise HALT ends and, with IME, the lowest pending source is the one dispatched |
| Interrupts.VectorsByBits | src/cpu/interrupt.c:90-111 | By the bits of IF and IE: with IME set PC becomes 0x40 if bit 0 is set in both, else 0x48, 0x50, 0x58, 0x60 for bits 1 to 4; with IME clear only HALT ends; with none nothing happens |
| Interrupts.HandleOne | src/cpu/interrupt.c:90-111 | One call with IME set dispatches the head of the pending list and saves the interrupted PC; the rest of the list is left if and only if the timer does not join it during the five ticks |
| Draining.UndisturbedPass | src/main.c:23-30 | A pass whose instruction raises and withdraws no request takes the head of the pending list, or dispatches nothing if there is none |
| Draining.DrainingOrder | src/main.c:23-30 | In every run of such passes the n-th pass goes to the n-th pending source in order of priority, with the PC its own instruction left on the stack, and takes five ticks more; past the end of the list nothing is dispatched |
| Draining.DrainingStops | src/main.c:23-30 | Exactly as many passes dispatch as sources were pending, to strictly increasing vectors |
| Draining.NopIsUndisturbed | src/main.c:23-30 | Such passes exist: a NOP with the timer stopped and IME set is one in every state with stack room |
| Opcodes.TableIsOctal | src/cpu/instruction_fetch.c:113-390 | All 256 entries of the opcode table, missing ones included, equal what the octal structure of the opcode calls for |
| Fetch.OperandsNameRegisters | src/cpu/instruction_fetch.c:42-52 | No entry looks up register code 6, the case the source aborts on |
| Fetch.FetchedIsWellFormed | src/cpu/instruction_fetch.c:396-621 | Every defined opcode decodes to operands its handler is defined on, in every state |
| Fetch.FetchByteFrame | src/cpu/instruction_fetch.c:17-21 | Fetching a byte moves PC by one, spends a tick and leaves registers, SP and memory alone |
| Words.BitOfBitwise | src/cpu/instruction.c:386-420 | AND, OR and XOR act on every bit independently |
| Words.BitOfWithBit | src/cpu/instruction_cb.c:211-241 | RES and SET change one bit and leave the other seven |
| MultiByte.AdcChain | src/cpu/instruction.c:366-382 | An ADC chain over n bytes is n-byte addition, C the carry out, for every n |
| MultiByte.SbcChain | src/cpu/instruction.c:316-335 | An SBC chain is n-byte subtraction, C the borrow |
| MultiByte.FirstStepIgnoresCarry | src/cpu/instruction.c:301-364 | A chain that starts with ADD or SUB is the chain started with C clear |
| MultiByte.DaaAfterAdd | src/cpu/instruction.c:183-190 | DAA after an addition yields the two decimal digits and the decimal carry of the digit sums |
| MultiByte.DaaAfterSub | src/cpu/instruction.c:191-198 | DAA after a subtraction yields the two decimal digits and the decimal borrow |
| MultiByte.BcdAddByte | src/cpu/instruction.c:178-206 | ADC;DAA on valid BCD bytes adds two decimal digit pairs with carry |
| MultiByte.BcdSubByte | src/cpu/instruction.c:178-206 | SBC;DAA on valid BCD bytes subtracts them with borrow |
| MultiByte.BcdAddChain | src/cpu/instruction.c:178-206 | ADC;DAA over n bytes is decimal addition modulo 100^n, C the decimal carry, for every n |
| MultiByte.BcdSubChain | src/cpu/instruction.c:178-206 | SBC;DAA over n bytes is decimal subtraction modulo 100^n, C the borrow |
| MultiByte.LeftChainDoubles | src/cpu/instruction_cb.c:76-136 | SLA/RL from the low byte up doubles an n-byte number, C the bit shifted out |
| MultiByte.RightChainHalves | src/cpu/instruction_cb.c:97-116 | SRL/RR from the high byte down halves it, C the remainder |
| MultiByte.FirstShiftIgnoresCarry | src/cpu/instruction_cb.c:118-198 | A chain that starts with SLA or SRL is the chain started with C clear |
| ControlFlow.JumpRelativeExact | src/cpu/instruction.c:38-50 | JR and JR NZ, Z, NC, C: to the next instruction plus the signed byte exactly when bit 7 or bit 4 of F is as the opcode asks, else to the next instruction; whole state |
| ControlFlow.JumpExact | src/cpu/instruction.c:28-36 | JP nn and its conditional forms likewise, target low byte first |
| ControlFlow.JumpHlExact | src/cpu/instruction.c:28-36 | JP HL |
| ControlFlow.CallExact | src/cpu/instruction.c:52-60 | CALL and its conditional forms: return address pushed, target low byte first, or nothing but three ticks |
| ControlFlow.RestartExact | src/cpu/instruction.c:85-91 | RST goes to its opcode minus 0xC7 |
| ControlFlow.ReturnExact | src/cpu/instruction.c:62-83 | RET, its conditional forms and RETI |
| Transfers.LoadRegisterExact | src/cpu/instruction.c:93-137 | LD r,r: destination by bits 3 to 5, source by bits 0 to 2, as places in the register file; whole state |
| Transfers.LoadImmediateExact | src/cpu/instruction.c:93-137 | LD r,n |
| Transfers.LoadFromHlExact | src/cpu/instruction.c:93-137 | LD r,(HL), read at the second tick |
| Transfers.StoreToHlExact | src/cpu/instruction.c:93-137 | LD (HL),r |
| Transfers.StoreByteToHlExact | src/cpu/instruction.c:93-137 | LD (HL),n |
| Transfers.StoreStepExact | src/cpu/instruction_fetch.c:587-597 | LD (HL+),A and LD (HL-),A: stored at the old HL |
| Transfers.LoadStepExact | src/cpu/instruction_fetch.c:501-513 | LD A,(HL+) and LD A,(HL-): read at the old HL |
| Transfers.StepHlMoves | src/cpu/instruction_fetch.c:501-513 | The step moves the number in H and L by one and no other byte |
| Transfers.StorePairExact | src/cpu/instruction.c:93-137 | LD (BC),A and LD (DE),A |
| Transfers.LoadPairExact | src/cpu/instruction_fetch.c:478-483 | LD A,(BC) and LD A,(DE): low byte of the 16-bit read |
| Transfers.StoreFarExact | src/cpu/instruction.c:93-137 | LD (nn),A |
| Transfers.LoadFarExact | src/cpu/instruction_fetch.c:485-490 | LD A,(nn): one tick, then the address, then the read |
| Transfers.StoreHighExact | src/cpu/instruction.c:139-147 | LDH (n),A, with no tick for the store |
| Transfers.StoreHighCExact | src/cpu/instruction.c:139-147 | LD (C),A likewise |
| Transfers.LoadHighExact | src/cpu/instruction.c:139-147 | LDH A,(n) and LD A,(C) |
| Transfers.LoadWordExact | src/cpu/instruction.c:93-137 | LD rr,nn, low byte first |
| Transfers.LoadSpExact | src/cpu/instruction.c:93-137 | LD SP,HL |
| Transfers.StoreSpExact | src/cpu/instruction.c:93-137 | LD (nn),SP: a batch of two ticks, then low byte and high byte |
| Transfers.LoadHlSpExact | src/cpu/instruction.c:93-137 | LD HL,SP+e with a signed e, H and C from the unsigned low byte |
| Operations.OperateByNumbers | src/cpu/instruction.c:301-434 | ADD, ADC, SUB, SBC, AND, XOR, OR, CP: result and all of F, in numbers and by bits |
| Operations.OperateRegisterExact | src/cpu/instruction.c:301-434 | The eight with a register named by bits 0 to 2; whole state |
| Operations.OperateCellExact | src/cpu/instruction.c:301-434 | with (HL) |
| Operations.OperateImmediateExact | src/cpu/instruction.c:301-434 | with an immediate byte |
| Operations.StepRegisterExact | src/cpu/instruction.c:237-297 | INC r and DEC r with Z, N, H, and C kept |
| Operations.StepCellExact | src/cpu/instruction.c:237-297 | INC (HL) and DEC (HL) |
| WordOperations.StepPairExact | src/cpu/instruction.c:246-254 | INC and DEC of BC, DE, HL |
| WordOperations.StepSpExact | src/cpu/instruction.c:246-254 | INC SP and DEC SP |
| WordOperations.AddWordExact | src/cpu/instruction.c:337-364 | ADD HL,rr with Z kept, H and C from bits 11 and 15 |
| WordOperations.AddSpExact | src/cpu/instruction.c:337-364 | ADD SP,e |
| WordOperations.PushExact | src/cpu/instruction.c:216-221 | PUSH rr: which pair |
| WordOperations.PopExact | src/cpu/instruction.c:223-229 | POP rr: which pair, and the low nibble of F |
| Accumulator.RotateLeftExact | src/cpu/instruction.c:436-467 | RLCA and RLA in numbers |
| Accumulator.RotateRightExact | src/cpu/instruction.c:469-494 | RRCA and RRA in numbers |
| Accumulator.ComplementExact | src/cpu/instruction.c:208-214 | CPL |
| Accumulator.CarryExact | src/cpu/instruction.c:162-176 | SCF and CCF |
| Accumulator.DaaExact | src/cpu/instruction.c:178-206 | DAA: the correction and F by the flags and digits |
| Accumulator.ControlExact | src/cpu/instruction.c:149-160 | NOP, STOP as far as DIV, HALT, DI and EI |
| CbPrefix.ShiftResult | src/cpu/instruction_cb.c:36-198 | Rotates and shifts by the second byte: value, C and Z in numbers |
| CbPrefix.BitResult | src/cpu/instruction_cb.c:200-241 | BIT, RES and SET by the bits of the result |
| CbPrefix.CbRegisterExact | src/cpu/instruction_cb.c:245-251 | These on a register, named by bits 0 to 2; whole state |
| CbPrefix.CbCellExact | src/cpu/instruction_cb.c:245-251 | and on (HL): read at the third tick, stored at the fourth unless BIT |
| OpcodeMap.EveryOpcodeIsStated | src/cpu/instruction_fetch.c:113-390 | An opcode is defined if and only if one of these statements covers it; eleven are not |
| Programs.LoadThroughDe | src/cpu/instruction_fetch.c:478-483 | Executing LD A,(DE) loads the memory cell, and changes no flag, pointer or byte |
| Programs.ArithmeticThroughHl | src/cpu/instruction_fetch.c:537-541 | Executing ADC/SBC A,(HL) is one arithmetic step on A and the cell at HL |
| Programs.StoreAndStep | src/cpu/instruction_fetch.c:593-597 | Executing LD (HL+),A stores A at the old HL and moves HL on |
| ProgramRuns.SteadyPass | src/main.c:23-30 | With IME clear and nothing scheduled a pass is one instruction, and stays so unless it is EI, RETI or HALT |
| ProgramRuns.BlockEffect | src/main.c:23-30 | The code bytes of LD A,(DE); ADC/SBC A,(HL); [DAA]; LD (HL+),A; INC DE at PC, run with interrupts disabled, do one step of the chain in memory, one pass for each byte |
| ProgramRuns.CodeIsChain | src/main.c:23-30 | n such blocks as bytes at PC can be run to their end, run the chain over n bytes of memory and change no other byte |
| ProgramRuns.ProgramIsChain | src/main.c:23-30 | The same at the boundaries of every run that starts there |
| ProgramRuns.ProgramAdds | src/cpu/instruction.c:366-382 | So in every run the code adds n-byte binary numbers, C the carry, for every n |
| ProgramRuns.ProgramSubtracts | src/cpu/instruction.c:316-335 | and subtracts them, C the borrow |
| ProgramRuns.ProgramAddsDecimals | src/cpu/instruction.c:178-206 | and adds 2n-digit decimal numbers |
| ProgramRuns.ProgramSubtractsDecimals | src/cpu/instruction.c:178-206 | and subtracts them |
| ShiftRuns.LeftProgram | src/cpu/instruction_cb.c:76-136 | The code bytes of RL (HL); INC HL, n times (SLA first or not), run with interrupts disabled, double the n-byte number at HL and change no other byte |
| ShiftRuns.RightProgram | src/cpu/instruction_cb.c:97-198 | RR (HL); DEC HL from the high byte down (SRL first or not) halve it |
| ShiftRuns.ProgramDoubles | src/cpu/instruction_cb.c:76-136 | So in every run, C the bit shifted out at the top |
| ShiftRuns.ProgramHalves | src/cpu/instruction_cb.c:97-198 | and C the remainder |
| StepMemory.TwoTicksLater | src/cpu/timer.c:77-118 | What two ticks make of the byte at any address: only DIV, TIMA and IF can change, and how |
| StepMemory.StepFlagsExact | src/cpu/instruction.c:237-297 | For every state: INC (HL) and DEC (HL) write one more or less than the byte two ticks on, and Z, N and H describe what they write if and only if DIV, TIMA or IF is not at HL about to cross an edge |
| StepMemory.StepCanMislead | src/cpu/instruction.c:237-269 | A concrete timer on which INC (HL) stores 0 in TIMA and leaves Z clear |
| Effects.FetchKeeps | src/cpu/instruction_fetch.c:396-621 | Operand fetch spends the ticks of its operand kind and keeps A, F and HALT |
| Effects.HandleKeeps | src/cpu/instruction.c:513-549 | Every handler but EI, DI, HALT and RETI spends the ticks of its kind and keeps IME, HALT and the clear low nibble of F |
| Effects.CbKeeps | src/cpu/instruction_cb.c:245-251 | The same for CB instructions |
| Runs.ExecuteEffect | src/cpu/instruction.c:553-559 | For every defined opcode in every state: exact ticks, and exactly what EI, DI, RETI and HALT do to the flags that steer the loop |
| Runs.ResetByNumbers | src/cpu/cpu.c:7-21 | After reset AF, BC, DE, HL, SP, PC and DIV have the values of the source, and neither HALT nor a delayed IME is up |
| Runs.TicksMatchTable | src/cpu/instruction_fetch.c:113-390 | Ticks equal the table's count, taken or not, if and only if the opcode is not one of ten listed ones; CB opcodes take 2, 3 or 4 |
| RunProperties.HandleInterruptsEffect | src/cpu/interrupt.c:90-111 | handle_interrupts never clears IME, keeps the byte registers, and takes five ticks exactly when it dispatches |
| RunProperties.PassEffect | src/main.c:23-30 | One pass: exactly when the delayed-IME flag, IME and HALT are up at its end, and F's low nibble stays clear |
| RunProperties.CleanFOverRuns | include/cpu/flag.h:12-23 | Every run that starts with a clear low nibble of F keeps it clear |
| RunProperties.CleanFFromReset | src/cpu/cpu.c:7-21 | So every run from reset does |
| RunProperties.ScheduledOnlyByEi | src/cpu/instruction.c:155-160 | In every run the delayed-IME flag is up at a boundary if and only if the pass just made executed EI without a dispatch |
| RunProperties.EiPass | src/cpu/instruction.c:155-160 | EI with IME clear: its own pass cannot dispatch and leaves IME clear |
| RunProperties.EiDelay | src/cpu/timer.c:85-89 | Exactly one more instruction executes before a dispatch, which follows if and only if something is pending and that instruction is not DI |
| RunProperties.FirstRequest | src/cpu/timer.c:91-117 | The first timer request comes exactly (256-TIMA)*f - (DIV mod f) + 1 ticks on |
| RunProperties.WakesAfter | src/main.c:24-30 | n ticks make something pending if and only if n reaches the wake-up count |
| RunProperties.HaltWakesExactly | src/main.c:23-30 | In every run that starts halted: nothing but timer ticks until pass WakePasses, HALT down at that pass, and never if there is none |
| StackPrograms.ExecutePush | src/cpu/instruction.c:216-221 | Executing PUSH rr: the pair on the stack, all registers kept |
| StackPrograms.ExecutePop | src/cpu/instruction.c:223-229 | Executing POP rr: the pair from the stack, F's low nibble cleared, the other pairs kept |
| StackPrograms.ExecuteCall | src/cpu/instruction.c:52-91 | Executing a taken CALL or an RST: the address of the next instruction on the stack |
| StackPrograms.ExecuteReturn | src/cpu/instruction.c:62-83 | Executing RET, taken RET cc or RETI: PC from the stack, registers kept, IME set by RETI |
| Nesting.NestIsBalanced | src/cpu/instruction.c:52-91 | Any well-nested stretch of PUSH/POP, CALL or RST/RET and interrupts, of any depth, restores SP and changes no byte of the stack from it up, where the stack ends at any address; what lies beyond may be written |
| Nesting.PushPopCloses | src/cpu/instruction.c:216-229 | POP yields what its PUSH stored, whatever well-nested stretch is in between |
| Nesting.CallReturnCloses | src/cpu/instruction.c:52-74 | Each return resumes just after its CALL or RST |
| Nesting.InterruptCloses | src/cpu/interrupt.c:79-111 | Dispatch, any well-nested handler, RETI: PC, SP and stack are back, IME is set |
| Nesting.RegisterOnlyIsQuiet | src/cpu/instruction.c:301-494 | Arithmetic, logic, rotate and flag instructions can stand anywhere inside a nested stretch |
| Nesting.HighStoreIsQuiet | src/cpu/instruction.c:139-147 | So can stores to the I/O page and high RAM, when the stack lies below |
| Transparency.PreservedPairsReturn | src/cpu/instruction.c:216-229 | Register pairs come back after any stretch that changes them, if at all, only between a PUSH and the POP of the same pair, in subroutines and nested interrupts too |
| Transparency.NothingToPreserve | src/cpu/instruction.c:216-229 | Inside brackets around all the pairs in question anything well nested may stand |
| Transparency.AfterClean | include/cpu/flag.h:12-23 | The unused bits of F stay clear through any well-nested stretch |
| Transparency.InterruptIsTransparent | src/cpu/interrupt.c:79-111 | An interrupt whose handler preserves the four pairs, wherever it saves them and however it is itself interrupted, gives the interrupted code back PC, SP, stack and every register, and IME set |
| Transparency.PushPopAf | src/cpu/instruction.c:223-229 | PUSH AF ... POP AF is the identity on AF if and only if F's low nibble was clear |
| NestedRuns.StretchIsRun | src/main.c:23-30 | A well-nested stretch that alternates as the loop does is what that many half passes of the loop do |
| NestedRuns.RunIsHalfSteps | src/main.c:23-30 | The boundaries of a run are two half passes apart |
| NestedRuns.BalancedInRuns | src/main.c:23-30 | Wherever a run follows a well-nested stretch, SP and the stack are back at its end |
| NestedRuns.TransparentInRuns | src/main.c:23-30 | If a pass of a run dispatches and the run then follows a handler that preserves the pairs, its RETI gives the interrupted state back its PC, SP, stack and registers |
| NestedRuns.PassAsTokens | src/main.c:23-30 | A pass of the loop reads as tokens of a stretch: it opens an interrupt frame if and only if it dispatches, and what follows is the same either way |
| Emulator.Machine.constructor | src/cpu/timer.c:14-21 | All-zero start with IME set |
| Emulator.Machine.Reset | src/cpu/cpu.c:7-21 | reset_cpu and reset_timer, as the whole new state |
| Emulator.Machine.WriteRegister16 | src/cpu/cpu.c:42-61 | Writing through the register file is writing the named register or pair |
| Emulator.Machine.ReadRegister16 | src/cpu/cpu.c:75-87 | Reading likewise |
| Emulator.Machine.SetFlag | include/cpu/flag.h:12-18 | Masking F changes the one flag |
| Emulator.Machine.SetAllFlags | include/cpu/flag.h:20-23 | All four flags at once, the low nibble cleared |
| Emulator.Machine.GetFlag | include/cpu/flag.h:25-28 | Reads the flag |
| Emulator.Machine.DelayedEffects | src/cpu/timer.c:85-96 | The delayed IME, then reload and request after an overflow |
| Emulator.Machine.CountTima | src/cpu/timer.c:104-117 | TIMA counting and overflow for a given increment |
| Emulator.Machine.TimerTicks | src/cpu/timer.c:77-118 | timer_ticks meets the specification whose closed form is proved |
| Emulator.Machine.InterruptRequest | src/cpu/interrupt.c:52-56 | Adds the vector's request bit |
| Emulator.Machine.WriteTimer | src/cpu/timer.c:28-52 | Timer register writes |
| Emulator.Machine.WriteIo | src/io.c:10-26 | I/O routing of writes |
| Emulator.Machine.WriteMemory | src/cpu/memory.c:12-30 | Bus routing of writes |
| Emulator.Machine.WriteMemory16 | src/cpu/memory.c:32-36 | Low byte, then high byte, the address wrapping |
| Emulator.Machine.ReadMemory | src/cpu/memory.c:38-55 | Bus routing of reads |
| Emulator.Machine.ReadMemory16 | src/cpu/memory.c:57-64 | The 16-bit read past the devices |
| Emulator.Machine.StackPush | include/cpu/stack.h:8-12 | One-byte push |
| Emulator.Machine.StackPush16 | include/cpu/stack.h:14-18 | High byte first |
| Emulator.Machine.StackPop | include/cpu/stack.h:20-24 | One-byte pop |
| Emulator.Machine.StackPop16 | include/cpu/stack.h:26-31 | Low byte first |
| Emulator.Machine.HandleInterrupt | src/cpu/interrupt.c:79-87 | Two ticks, push, one tick, jump |
| Emulator.Machine.HandleInterrupts | src/cpu/interrupt.c:90-111 | The priority loop meets the pending-list specification; the returned count is the ticks spent |
| Emulator.Machine.FetchInstruction | src/cpu/instruction_fetch.c:396-621 | Table lookup and operand fetch, in the order of ticks and reads of the source, as the octal decoding says |
| Emulator.Machine.StoreResult | src/cpu/instruction.c:306-311 | Flags of an 8-bit result, and the result |
| Emulator.Machine.HandleSub | src/cpu/instruction.c:301-314 | SUB by the source's formulas is subtraction with its flags |
| Emulator.Machine.HandleSbc | src/cpu/instruction.c:316-335 | SBC by truncated differences is subtraction with borrow |
| Emulator.Machine.HandleAdd | src/cpu/instruction.c:337-364 | ADD A by masked sums is addition with its flags |
| Emulator.Machine.HandleAdc | src/cpu/instruction.c:366-382 | ADC likewise with carry |
| Emulator.Machine.HandleLogic | src/cpu/instruction.c:386-420 | AND, OR, XOR |
| Emulator.Machine.HandleCp | src/cpu/instruction.c:422-434 | CP sets the flags of SUB and keeps A |
| Emulator.Machine.Corrected | src/cpu/instruction.c:183-198 | The stepwise decimal correction is one addition of 0, 6, 0x60 or 0x66 |
| Emulator.Machine.HandleDaa | src/cpu/instruction.c:178-206 | DAA |
| Emulator.Machine.HandleRotateLeft | src/cpu/instruction.c:436-467 | RLA, RLCA |
| Emulator.Machine.HandleRotateRight | src/cpu/instruction.c:469-494 | RRA, RRCA |
| Emulator.Machine.HandleFlags | src/cpu/instruction.c:162-214 | CCF, SCF, CPL |
| Emulator.Machine.SetStepFlags | src/cpu/instruction.c:256-296 | Flags of INC and DEC |
| Emulator.Machine.StepMemory | src/cpu/instruction.c:243-245 | INC (HL), DEC (HL): flags from the byte before the ticks, result from the byte after |
| Emulator.Machine.HandleAddWord | src/cpu/instruction.c:346-361 | ADD HL,rr |
| Emulator.Machine.HandleAddToSp | src/cpu/instruction.c:349-358 | ADD SP,e |
| Emulator.Machine.CbOperation | src/cpu/instruction_cb.c:36-241 | Result and flags of one CB operation |
| Emulator.Machine.CbExecuteInstruction | src/cpu/instruction_cb.c:245-251 | CB instructions on registers and (HL) |
| Emulator.Machine.ExecuteInstruction | src/cpu/instruction.c:28-559 | One instruction, fetched operand by operand and run by the handler of its mnemonic in place (jumps, calls, loads, stack, steps and the rest), meets the specification all run properties are about |
| Emulator.Machine.RunPass | src/main.c:23-30 | One pass of the loop |
| Emulator.Machine.Run | src/main.c:23-30 | Any number of passes produce a run in the sense of the run properties |
| MachineSteps.MaskIsFlagSet | include/cpu/flag.h:12-18 | Or-ing or masking F with a flag is setting that flag alone |
| MachineSteps.IncrementsFit | src/cpu/timer.c:101-102 | The 8-bit increment count loses nothing for any batch size |
| Mbc1Model.RegistersStayOk | src/cartridge/mbc1.c:27-46 | Any sequence of register writes keeps 1 <= rom_bank <= 31, ram_bank <= 3 and RAM access if and only if ram_g is 0xA |
| Mbc1Model.WritesKeepInvariant | src/cartridge/mbc1.c:27-54 | Over any sequence of writes the invariant holds, the ROM never changes, and with 32 KiB of RAM nothing aborts |
| Mbc1Model.PhysicalBounds | src/cartridge/mbc1.c:86-122 | ROM addresses stay below 2^21 (2^20 multicart), RAM below 2^15, offsets are kept, and without multicart the upper window never shows a bank with five zero low bits |
| Mbc1Model.MulticartShowsBankZero | src/cartridge/mbc1.c:105-114 | With multicart wiring it shows such a bank if and only if rom_bank is 16 |
| Mbc1Model.CellAddress | src/cartridge/mbc1.c:97-100 | Different (bank, offset) cells never share a RAM address |
| Mbc1Model.RamIsBanked | src/cartridge/mbc1.c:27-54 | After any sequence of writes every RAM cell holds the last value written to it while enabled |
| Mbc1Model.ReadsLastValue | src/cartridge/mbc1.c:124-142 | An enabled RAM read returns that value, a disabled one 0xFF |
| Mbc1History.ChipByLast | src/cartridge/mbc1.c:27-46 | From power-on each register is what the last write to its address range makes it, in numbers |
| Mbc1History.RamByHistory | src/cartridge/mbc1.c:27-142 | By the write list: RAM is enabled if and only if the last write below 0x2000 had low nibble 0xA, the bank is the low two bits last written to 0x4000-0x5FFF if the last write to 0x6000-0x7FFF was odd, else 0, and a read returns what was last stored there, or 0xFF |
| Mbc1History.RomByHistory | src/cartridge/mbc1.c:86-142 | By the write list: which bank each ROM window shows, or that the read aborts |
| Mbc1History.AbortsExactly | src/cartridge/mbc1.c:50-142 | Which reads and writes abort, for any size of ROM and RAM |
| Mbc1History.EnableStoreLoad | src/cartridge/mbc1.c:33-54 | 0x0A to 0x0000, a byte to 0xA000: it reads back |
| Mbc1Device.SelectShowsBank | src/cartridge/mbc1.c:158-167 | The three register writes invert the address translation: bank 0 to 127, 0x20, 0x40 and 0x60 included, shows all its bytes through its window |
| Mbc1Device.BankCounts | src/cartridge/mbc1.c:151 | The bank count is 2 << (code + 1) up to code 5 and wraps to 0 from 6 on |
| Mbc1Device.Mbc1.constructor | src/cartridge/memory.c:10 | The initial registers |
| Mbc1Device.Mbc1.Write | src/cartridge/mbc1.c:27-54 | write_mbc1 in place, and when its assertion fails |
| Mbc1Device.Mbc1.PhysicalAddress | src/cartridge/mbc1.c:86-122 | compute_physical_address |
| Mbc1Device.Mbc1.Read | src/cartridge/mbc1.c:124-142 | read_mbc1 |
| Mbc1Device.Mbc1.SelectBank | src/cartridge/mbc1.c:160-166 | The bank-select writes of the dump loop |
| Mbc1Device.Mbc1.DumpBank | src/cartridge/mbc1.c:168-169 | The inner loop reads one bank in order, or stops where the ROM ends |
| Mbc1Device.Mbc1.Dump | src/cartridge/mbc1.c:149-171 | With the header byte at 0x148 the dump reads 64 KiB << code bytes (none from code 6 on), every address once in increasing order, and sums them in 32 bits; it completes if and only if the ROM is long enough, and otherwise has read all of it |
| Mbc1Device.DumpSumIsByteSum | src/cartridge/mbc1.c:149-171 | Without multicart wiring that sum is the sum of the ROM bytes |
| Mbc1Device.HonestRomAborts | src/cartridge/mbc1.c:149-171 | A ROM exactly as long as its header says is too short for the dump if and only if the code is at most 5 and not 5 with multicart wiring |
| Mbc1OnBus.HistoryIsWrites | src/cartridge/memory.c:40-56 | Bus writes below 0x8000 reach the cartridge, all and in order |
| Mbc1OnBus.BankThroughBus | src/cartridge/memory.c:12-33 | After the bank-select writes over the CPU bus, the window reads the bank's ROM bytes |
| RtcModel.UpdateConserves | src/cartridge/mbc3.c:65-98 | One update carries exactly: fields in range, and their seconds equal old seconds plus accepted time modulo 256 days |
| RtcModel.UpdateByNumbers | src/cartridge/mbc3.c:65-98 | The same with the accepted time written out: none if bit 6 of the stored time is set or the host clock has not moved on |
| RtcModel.RunConserves | src/cartridge/mbc3.c:65-105 | Over any run of updates and latches elapsed time is conserved modulo 256 days |
| RtcModel.AcceptsAllThatPasses | src/cartridge/mbc3.c:70-71 | While the host clock does not go back and no stored time has bit 6 set, the accepted time is all that passes |
| RtcModel.KeepsTime | src/cartridge/mbc3.c:65-105 | Over such a run the clock runs by the host's, modulo 256 days |
| RtcModel.FlagsKept | src/cartridge/mbc3.c:89-94 | Bits 1 to 6 of the flag byte stay, the carry is never cleared and is raised exactly when the low fields wrap |
| RtcModel.ReadableOnlyLatched | src/cartridge/mbc3.c:101-105 | The readable registers change only at a latch, and then show the clock |
| RtcModel.NinthDayBit | src/cartridge/mbc3.c:89-94 | The 9-bit day counter and the carry are right if and only if the wrap count's two low bits agree, respectively the count is not 1 |
| RtcModel.DayAfter255 | src/cartridge/mbc3.c:89-94 | A concrete update on which both are wrong |
| RtcModel.Rtc.Gather | src/cartridge/mbc3.c:68-78 | Accepted time plus the fields, in seconds |
| RtcModel.Rtc.Spread | src/cartridge/mbc3.c:80-94 | Dividing step by step yields the mixed-radix fields and the flag byte |
| RtcModel.Rtc.UpdateRtc | src/cartridge/mbc3.c:65-98 | update_rtc in place |
| RtcModel.Rtc.LatchRtc | src/cartridge/mbc3.c:101-105 | latch_rtc in place |

## Left out

- Undefined opcodes: they index the register file out of range, so executing requires a defined opcode.
- Reads the source aborts on (a bank beyond the ROM, an address outside the cartridge): behind the bus the device may answer anything, 0 in the plugged MBC1, so what is proved covers every run that does not abort.
- The byte past the end of memory that a 16-bit read at 0xFFFF takes: 0 in the model; it is never used.
- Order of flag updates and result writes inside one arithmetic handler, and splitting of timer_ticks, fetch_instruction, ld, inc/dec, daa, update_rtc and dump_mbc1 into smaller methods: no tick or bus access lies in between.
- The cartridge object inside the machine class is a value; only the stand-alone Mbc1 and Rtc classes change theirs in place.
- Switching on the cartridge type in the header, including that a ROM-only cartridge is written by stores below 0x8000: any cartridge is a device in the bus model.
- Loading a cartridge, the checksum, multicart detection, and cartridge information: file I/O and printing.
- MBC2, and MBC3 beyond its clock: RAM writes that go into ROM, register mapping, and map_rtc.
- 16-bit cartridge accesses and cartridge RAM through the CPU bus: the bus sends only addresses below 0x8000 to the cartridge.
- Header ROM-size codes from 29 on, where the bank-count shift is undefined in C.
- Overflow of the host's time type in the clock arithmetic; the host clock is an argument.
- The blargg and exit-infinite-loop options, logging, traces and instruction display.
- The is_running flag, which nothing clears, and the cycle counts handlers return, which the loop ignores.
- The operand kind D8, which no opcode uses, and the invalid-instruction handler, which no table entry names.
- STOP beyond its DIV reset.
