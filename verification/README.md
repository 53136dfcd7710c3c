# 6502 interpreter of PiNES, modelled in Dafny

This project models the CPU interpreter of the PiNES console emulator. The interpreter is in `src/interpreter.c`, and the register record it mutates is in `src/headers/common.h`. It covers:

- the thirteen addressing-mode resolvers;
- every instruction handler;
- the 256-entry opcode table;
- one pass of `cpu_execute`: the reset-vector load, the single opcode fetch, the dispatch, the cycle count and the clearing of the two transient cycle counters.

The model is written in the interpreter's own terms:

- A **resolver** advances the program counter past an instruction and returns an effective address. Some resolvers also assign the page flag `oopsCycle`.
- A **handler** is a state transformer over the registers, the status flags and the bus.
- The **table** binds each opcode byte to a mnemonic, a base cycle count, a resolver and a handler.

Representation:

- Bytes and words are bounded integers (`Byte`, `Addr`). Every C truncation to `uint8_t` or `uint16_t` is written out with `Wrap8` and `Wrap16`.
- The masks `& 0xFF`, `& 0xFF00`, `& 0x7F` and the tests `& 0x80`, `& 0x40` appear as the remainders, quotients and comparisons they amount to on those values.
- Bitwise AND, OR and XOR are defined on naturals by recursion on bits.
- The status register is a record of eight booleans. `Status.Pack` and `Status.Unpack` give its byte view, the `reg` member of the C union. The two are proved inverse, and each flag sits at its bitfield position.
- C leaves the order in which bitfields are allocated to the compiler. The model assumes least-significant-bit-first allocation, so C is bit 0 and N is bit 7, as the declaration order in `src/headers/common.h` reads under that allocation. The byte view, and so PHP, PLP, BRK and RTI, rest on that assumption.
- The bus is a total function from addresses to bytes. Reads have no side effects, and a write changes one address.

The modules follow the source's structure:

- `Bits`: integer bit helpers.
- `Status`: `union StatusReg`.
- `Nes`: `struct NES` and the stack.
- `Addressing`: the resolvers.
- `Alu`: the arithmetic inside the handlers.
- `Instructions`: the handlers and their dispatch by tag.
- `Table`: `opcodes`.
- `Interpreter`: reset, fetch, one pass of the loop and its cycle count.
- `Pairs`: what pairs of handlers do together.

## Model

| member | source | states |
|---|---|---|
| Status.Set | src/headers/common.h:6-18 | assigning one bitfield member sets that flag and keeps the other seven |
| Status.PackBits | src/headers/common.h:6-18 | reading the union as a byte puts every flag at its bitfield position |
| Status.UnpackPack | src/headers/common.h:6-18 | storing the flags into the byte and loading them back gives the same flags |
| Status.PackUnpack | src/headers/common.h:6-18 | loading any byte into the flags and storing it back gives the same byte |
| Status.PackInjective | src/headers/common.h:6-18 | two flag records with the same byte are equal |
| Status.PackSet | src/headers/common.h:8-15 | assigning one flag changes exactly that bit of the byte; every other bit keeps its value |
| Nes.WithNZ | src/interpreter.c:430-432 | N is the sign bit and Z the zero test of the byte; every other flag is kept |
| Nes.StackAddress | src/interpreter.c:546 | the stack slot `0x0100 + SP` is in page one at offset SP |
| Nes.Write | src/headers/memory.h:7 | a bus write changes the written address and no other |
| Nes.Push | src/interpreter.c:544-548 | a push stores at the slot for SP and moves SP down by one, wrapping in the page; nothing else changes |
| Nes.Pull | src/interpreter.c:563-566 | a pull moves SP up by one, wrapping, and reads the slot it then designates |
| Nes.PushTwo | src/interpreter.c:367-373 | two pushes fill the slots for SP and SP−1, move SP down by two and change no other address |
| Nes.PushThree | src/interpreter.c:594-602 | three pushes fill the slots for SP, SP−1 and SP−2 and move SP down by three; every other address keeps its value |
| Nes.PowerOnZero | src/nes.c:64 | the zero-initialised record has both cycle counters clear, its status byte reads 0 (U = 0), and its first push lands at 0x0100 |
| Nes.StackSlots | src/interpreter.c:594-602 | consecutive stack slots are distinct, and repeated decrements of SP wrap in the page |
| Nes.PushPull | src/interpreter.c:544-566 | a pushed byte (PHA's push, PLA's pull) is the next byte pulled, and SP returns to its value before the push |
| Addressing.Implied | src/interpreter.c:19-22 | `imp` advances PC by one and returns address 0 |
| Addressing.Accumulator | src/interpreter.c:24-27 | `acc` advances PC by one and returns address 0 |
| Addressing.Immediate | src/interpreter.c:29-32 | `imm` advances PC by two and returns the address of the operand byte |
| Addressing.Relative | src/interpreter.c:34-42 | `rel` returns the next instruction's address plus the sign-extended offset, modulo 2^16; the page flag is 1 exactly when the target's page differs from the next instruction's page |
| Addressing.BranchTarget | src/interpreter.c:37-39 | the source's target: an offset with bit 7 clear is added as it is, one with bit 7 set moves back by 256 minus the offset, modulo 2^16 |
| Addressing.SignMagnitude | src/interpreter.c:37-39 | the source's "subtract 128 when bit 7 is set, then add the low seven bits" equals adding the two's-complement offset |
| Addressing.ForwardTarget | src/interpreter.c:37-39 | with bit 7 of the offset clear, the offset is added as it is |
| Addressing.BackwardTarget | src/interpreter.c:37-39 | with bit 7 of the offset set, the offset counts as negative |
| Addressing.Absolute | src/interpreter.c:44-49 | `abl` advances PC by three and returns the little-endian word of the two operand bytes |
| Addressing.ZeroPage | src/interpreter.c:51-55 | `zpa` advances PC by two and returns the operand byte, an address in page zero |
| Addressing.Indirect | src/interpreter.c:57-63 | `ind` advances PC by three; the target's low byte is read at the pointer and its high byte at the pointer with its low byte incremented without carry (the page-wrap quirk) |
| Addressing.NextInPage | src/interpreter.c:62 | the source's two cases (pointer ending in 0xFF, or not) read the second byte at the same address: the low byte incremented in the pointer's page |
| Addressing.IndirectPageWrapExample | src/interpreter.c:62 | a pointer 0x30FF takes the target's high byte from 0x3000, not from 0x3100 |
| Addressing.IndexedCarry | src/interpreter.c:65-79 | in `aix` and `aiy`, a carry out of the low byte when the index is added is exactly a change of the high byte |
| Addressing.AbsoluteIndexed | src/interpreter.c:65-79 | `aix` and `aiy` advance PC by three and return the base plus the index modulo 2^16; the page flag is 1 exactly when the high byte changed |
| Addressing.ZeroPageIndexed | src/interpreter.c:81-89 | `zpx` and `zpy` advance PC by two and return the operand byte plus the index, wrapped within page zero |
| Addressing.IndexedIndirect | src/interpreter.c:91-96 | `idx` advances PC by two; both pointer bytes are read in page zero at the operand plus X and the following byte, wrapping |
| Addressing.IndirectIndexed | src/interpreter.c:98-106 | `idy` advances PC by two and returns the zero-page pointer plus Y modulo 2^16; the page flag is 1 exactly when the high byte changed |
| Addressing.PointerCarry | src/interpreter.c:101-104 | `idy` adds Y to the pointer's low byte before adding the high byte; the sum is the 16-bit pointer plus Y, and the `tempAddress != (operandAddress & 0xFF00)` test is a change of high byte |
| Addressing.Resolve | src/interpreter.c:19-106 | every resolver advances PC by its instruction length (1, 2 or 3) and changes no register other than PC and the page flag |
| Addressing.ResolvePageFlag | src/interpreter.c:34-106 | `rel`, `aix`, `aiy` and `idy` set the page flag to 1 exactly on a page crossing; the other resolvers leave it as it was |
| Alu.Apply | src/interpreter.c:404-409 | an ALU step assigns C, Z, N and V and keeps the other flags |
| Alu.AddWithCarry | src/interpreter.c:402-411 | ADC's result byte plus 256 times the carry out equals A + m + C; V is set exactly on signed overflow; N and Z describe the result; there is no decimal input |
| Alu.CarryOut | src/interpreter.c:405-406 | a sum below 0x200 is its low byte plus 0x100 exactly when it exceeds 0xFF |
| Alu.SumSignBit | src/interpreter.c:408 | bit 7 of the 16-bit sum is the sign bit of its low byte |
| Alu.SumBits | src/interpreter.c:408-409 | ADC's `~(A ^ m) & (A ^ temp) & 0x80` test is exactly signed overflow of A + m + C |
| Alu.SignOfSum | src/interpreter.c:409 | signed overflow happens exactly when both operands have one sign and the result has the other |
| Alu.Complement | src/interpreter.c:415 | `m ^ 0xFF` is 0xFF − m |
| Alu.XorAllOnes | src/interpreter.c:415 | XOR with all ones subtracts from all ones |
| Alu.SubtractWithBorrow | src/interpreter.c:413-423 | SBC, computed as ADC of the complemented operand, gives A − m − (1 − C) modulo 256; C means "no borrow"; V is set on signed overflow of the difference |
| Alu.Compare | src/interpreter.c:287-317 | CMP, CPX and CPY set C exactly when reg ≥ m and Z exactly when reg = m; N is bit 7 of the wrapped difference |
| Alu.Shift | src/interpreter.c:119-213 | ASL/ROL double the byte (plus the old C for ROL) into result and C; LSR/ROR halve it (with the old C entering bit 7 for ROR), with the bit shifted out in C; N and Z describe the result byte |
| Alu.ShiftLeft | src/interpreter.c:119-137 | ASL's N from bit 6 and Z from the low seven bits are N and Z of the shifted byte; C is the bit shifted out |
| Alu.ShiftRight | src/interpreter.c:146-164 | LSR's cleared N and Z from the upper seven bits are N and Z of the shifted byte; C is bit 0 |
| Alu.RotateLeft | src/interpreter.c:173-192 | ROL's N from bit 6 is the sign of the rotated byte; the old C enters bit 0 and bit 7 leaves into C |
| Alu.RotateRight | src/interpreter.c:194-213 | ROR's N from the old C is the sign of the rotated byte; the old C enters bit 7 and bit 0 leaves into C |
| Alu.AddOverflowExample | src/interpreter.c:402-411 | 0x50 + 0x50 with C = 0 gives 0xA0 with N = V = 1 and C = Z = 0 |
| Alu.AddCarryExample | src/interpreter.c:402-411 | 0xFF + 0x01 with C = 0 gives 0x00 with C = Z = 1 and N = V = 0 |
| Instructions.Assign | src/headers/common.h:21-26 | assigning one byte register changes that register only |
| Instructions.AndAccumulator | src/interpreter.c:112-117 | AND: each bit of A is set exactly when it was set in both A and the operand; N and Z describe A; the page flag goes up by one |
| Instructions.XorAccumulator | src/interpreter.c:139-144 | EOR: each bit of A flips exactly where the operand has a set bit; N and Z describe A; the page flag goes up by one |
| Instructions.OrAccumulator | src/interpreter.c:166-171 | ORA: each bit of A is set exactly when it was set in A or in the operand; N and Z describe A; the page flag goes up by one |
| Instructions.ShiftFlags | src/interpreter.c:122-125 | a shift assigns C, N and Z and keeps the other flags |
| Instructions.ShiftOp | src/interpreter.c:119-213 | in accumulator mode only A changes and the bus is untouched; otherwise only the byte at the resolved address changes and A is kept; ASL and LSR raise the page flag before resolving |
| Instructions.Taken | src/interpreter.c:219-281 | only the eight branch handlers have a condition; each tests one flag |
| Instructions.BranchPairs | src/interpreter.c:219-281 | the branches pair up on N, V, C and Z, and in each pair exactly one is taken for any flags |
| Instructions.Branch | src/interpreter.c:219-281 | a taken branch moves PC to the relative target, sets the branch flag and adds one to the page flag; a branch not taken changes nothing at all, PC included |
| Instructions.CompareAccumulator | src/interpreter.c:287-294 | CMP sets C, Z and N from comparing A with the operand; no register changes; the page flag goes up by one |
| Instructions.BitTest | src/interpreter.c:296-301 | BIT: N is bit 7 and V bit 6 of the operand, and Z tells whether the operand shares no set bit with A |
| Instructions.CompareIndex | src/interpreter.c:303-317 | CPX and CPY set C, Z and N from comparing X or Y with the operand; the page flag is left to the resolver |
| Instructions.SetFlag | src/interpreter.c:323-356 | each of the seven flag instructions assigns its one flag, keeps the others and steps past the opcode |
| Instructions.Jump | src/interpreter.c:362-364 | JMP moves PC to the absolute target, or to the indirect one with its page-wrap quirk |
| Instructions.JumpSubroutine | src/interpreter.c:366-375 | JSR pushes the high then low byte of its own address minus one and lowers SP by two; the new PC is read from the JSR opcode byte and the byte after it; no other address changes |
| Instructions.ReturnFromSubroutine | src/interpreter.c:377-384 | RTS pulls the low then high byte and continues one past that address; SP goes up by two |
| Instructions.ReturnFromInterrupt | src/interpreter.c:386-396 | RTI pulls the status byte, then PC low and high, with no increment; B ends 0 and U ends 1; SP goes up by three |
| Instructions.AddToAccumulator | src/interpreter.c:402-411 | ADC: A and C receive A + m + C; V is signed overflow; D and I are kept; the page flag goes up by one |
| Instructions.SubtractFromAccumulator | src/interpreter.c:413-423 | SBC: A receives A − m − (1 − C) wrapped, and C means no borrow; V is signed overflow; D and I are kept; the page flag goes up by one |
| Instructions.Load | src/interpreter.c:429-456 | LDA, LDX and LDY load the operand into their register with N and Z from it; the page flag goes up by one |
| Instructions.Store | src/interpreter.c:436-460 | STA, STX and STY write their register at the resolved address and change no other address and no flag |
| Instructions.StepMemory | src/interpreter.c:462-478 | DEC and INC step the byte at the resolved address by one, wrapping, with N and Z from the new byte; no other address changes |
| Instructions.StepRegister | src/interpreter.c:512-538 | DEX, DEY, INX and INY step their register by one, wrapping, with N and Z from the new value |
| Instructions.Transfer | src/interpreter.c:484-576 | the transfers (TAX, TAY, TXA, TYA at 484-510, TXS at 558-561, TSX at 571-576) copy one register into another with N and Z from the copied byte; TXS changes no flag |
| Instructions.PushAccumulator | src/interpreter.c:544-548 | PHA writes A at the slot for SP and no other address, moves SP down by one, wrapping, and steps PC past the opcode; no flag changes |
| Instructions.PushStatus | src/interpreter.c:550-556 | PHP pushes the flags byte with U set and B as it was; afterwards the live U is 1 and the live B is 0 |
| Instructions.PullAccumulator | src/interpreter.c:563-569 | PLA pulls A with N and Z from it |
| Instructions.PullStatus | src/interpreter.c:578-584 | PLP loads the flags wholesale from the pulled byte, then sets U and clears B |
| Instructions.Break | src/interpreter.c:590-605 | BRK pushes PC+2 high and low, then the flags with I = B = 1; SP drops by three; PC comes from 0xFFFE/0xFFFF; afterwards I = 1 and B = 0; only those three stack slots change |
| Instructions.NoOperation | src/interpreter.c:607-615 | NOP and the unassigned handler still step PC past the operand bytes of their mode (1, 2 or 3 bytes in all), leave the bus alone, and change no register but PC and the page flag |
| Table.Decode | src/interpreter.c:618-635 | the entry for a byte carries that byte as its opcode, and has zero cycles exactly when its handler is the do-nothing one |
| Table.RowFacts | src/interpreter.c:619-634 | every entry of each line of the table carries the opcode of its index and is named after its handler; zero cycles exactly for the do-nothing handler; JSR only at 0x20 with the absolute resolver |
| Table.TableConsistent | src/interpreter.c:618-635 | for every byte: the entry's opcode is the byte, zero cycles marks the unassigned handler, JSR appears only at 0x20 with `abl`, and every documented handler is listed under its own mnemonic |
| Interpreter.Reset | src/interpreter.c:642 | PC is loaded little-endian from 0xFFFC/0xFFFD, and nothing else changes |
| Interpreter.Start | src/interpreter.c:642-644 | starting from the all-zero record, PC holds the reset vector and the one opcode fetched is the byte under it |
| Instructions.Perform | src/interpreter.c:647-648 | dispatching on the entry's handler: every handler other than the eight branches leaves `branchCycle` as it was |
| Interpreter.Surcharge | src/interpreter.c:650-652 | a record with both counters clear is charged nothing extra, and a page flag of 1 (a crossing the handler did not raise) costs nothing |
| Interpreter.Execute | src/interpreter.c:646-657 | one pass runs the entry's handler with its resolver, charges base cycles plus the branch flag plus one when the page flag is 2, and leaves both counters at zero |
| Interpreter.ReadPenalty | src/interpreter.c:646-657 | loads, logic, ADC, SBC and CMP (handlers at lines 112-117, 139-144, 166-171, 287-294, 402-434, 440-445 and 451-456) pay one extra cycle exactly when an `aix`, `aiy` or `idy` (or `rel`) address crosses a page |
| Interpreter.BranchPenalty | src/interpreter.c:219-281 | a branch pays nothing when not taken, one cycle when taken, and two when the target is on another page |
| Interpreter.ShiftPenalty | src/interpreter.c:119-164 | ASL and LSR never pay the page-crossing cycle: their early increment is kept at 1 or overwritten by the resolver |
| Interpreter.RotatePenalty | src/interpreter.c:173-213 | ROL and ROR never pay the page-crossing cycle |
| Interpreter.StorePenalty | src/interpreter.c:436-460 | stores never pay the page-crossing cycle |
| Interpreter.StepPenalty | src/interpreter.c:462-478 | INC and DEC never pay the page-crossing cycle |
| Interpreter.TestPenalty | src/interpreter.c:296-317 | CPX, CPY and BIT never pay the page-crossing cycle |
| Interpreter.IdlePenalty | src/interpreter.c:646-657 | JMP (lines 362-364), NOP and the unassigned entries never pay extra |
| Interpreter.ImpliedPenalty | src/interpreter.c:646-657 | flag, step and transfer instructions (lines 323-356 and 484-538) never pay extra |
| Interpreter.StackPenalty | src/interpreter.c:646-657 | JSR, RTS, RTI, BRK and the stack instructions (lines 366-396 and 544-605) never pay extra |
| Interpreter.FreePenalty | src/interpreter.c:646-657 | every handler other than a branch or a read leaves the counters at no extra cost |
| Interpreter.PenaltyOf | src/interpreter.c:650-652 | for every handler and resolver, the counters add up to the processor's timing rule: taken branch +1, +1 more across a page; page-crossing read +1; otherwise nothing |
| Interpreter.CycleCount | src/interpreter.c:650-652 | a pass is charged the table's base cycles plus that reference penalty |
| Interpreter.WaitFallsThrough | src/interpreter.c:650-655 | the wait loop's count is zero exactly for the unassigned entries, so every documented instruction leaves it spinning |
| Pairs.PushPullAccumulator | src/interpreter.c:544-569 | PHA then PLA restores A and SP, moves PC past both, and leaves N and Z describing A |
| Pairs.PushPullStatus | src/interpreter.c:550-584 | PHP then PLP restores every flag except U (ends 1) and B (ends 0), and restores SP |
| Pairs.PullPacked | src/interpreter.c:578-584 | PLP of a stored flags byte gives back those flags with U set and B cleared |
| Pairs.CallReturnsToCall | src/interpreter.c:366-384 | JSR then RTS leaves every register as before the call, PC included: the return lands on the JSR opcode itself |
| Pairs.PullReturn | src/interpreter.c:377-384 | RTS over a stacked address continues one past that address |
| Pairs.BreakReturn | src/interpreter.c:590-605 | BRK then RTI (lines 386-396) restores SP and continues two past the BRK opcode, but leaves I set; B ends 0 and U ends 1 |
| Pairs.PullFrame | src/interpreter.c:386-396 | RTI over a stacked frame restores the flags from the byte (B cleared, U set) and PC from the two address bytes |
| Pairs.BranchNotTakenStalls | src/interpreter.c:646-657 | a pass over a branch (handlers at lines 219-281) whose condition fails returns the state unchanged and charges the base cycles |
| Pairs.BranchTakenTiming | src/interpreter.c:646-657 | a pass over a taken branch (handlers at lines 219-281) moves PC to the signed target and charges base + 1, or base + 2 across a page |
| Pairs.StoreLoad | src/interpreter.c:429-460 | a store (STA, STX, STY) and then a load (LDA, LDX, LDY) through an address that resolves to the same place, after the store, read back the stored register; N and Z describe it |
| Pairs.StepMemoryBack | src/interpreter.c:462-478 | INC then DEC, or DEC then INC, on the same resolved address gives back every byte of memory |
| Pairs.StepRegisterBack | src/interpreter.c:512-538 | INX then DEX (and likewise for Y, and in either order) gives the register record back with PC moved by two; N and Z describe the register |
| Pairs.TransferBack | src/interpreter.c:484-576 | a transfer and the one back (TAX;TXA, TSX;TXS, …) keep the source register, copy it to the target and move PC by two; the flags describe the value unless both ends are S |

## Behaviour that differs from the 6502

Each of these is modelled as the source has it, and a lemma states it:

- **Branch not taken.** The handler does nothing, so PC does not move past the operand and the same branch comes up again (`Instructions.Branch`, `Pairs.BranchNotTakenStalls`). A 6502 continues with the next instruction.
- **JSR.** It pushes its own address minus one, where a 6502 pushes the address of its last byte. It also resolves the target with the absolute resolver from that lowered PC, so the target's low byte is the JSR opcode and its high byte is the operand's low byte (`Instructions.JumpSubroutine`). RTS then returns to the JSR opcode (`Pairs.CallReturnsToCall`).
- **BRK.** It sets I before pushing the status byte, so the stacked I is always 1 and RTI leaves I set (`Instructions.Break`, `Pairs.BreakReturn`).
- **PHP.** It pushes the live B bit, not a forced 1, and sets the live U bit (`Instructions.PushStatus`).
- **Single fetch.** `cpu_execute` fetches the opcode only once, before its loop (`Interpreter.Start`).
- **Cycle wait.** The wait loop `while (cycles > 0) { }` never decrements `cycles`, so it spins forever after every documented instruction (`Interpreter.WaitFallsThrough`).
- **Power-on state.** The register record starts all zero, as `struct NES consoleState = {0}` in `src/nes.c` creates it (`Nes.PowerOn`). The usual reset posture would have U = 1 and SP = 0xFD. The model follows the code.

## Left out

- The outer `while (1)` loop of `cpu_execute`. It executes one fetched opcode forever, and its wait loop never ends; the model has one pass (`Interpreter.Execute`) and states the wait loop's condition instead.
- The NMI and IRQ branches of the loop at `src/interpreter.c` 659-664. `pendingNMI` and `pendingIRQ` are read only to choose between these two branches, and both are empty. `dmaCycles`, `scanline`, `cycle` and `surface` of `struct NES` are not read at all. None of the six is modelled.
- `cpu_read` and `cpu_write` are only declared in `src/headers/memory.h`, and their definitions are not part of this model. The bus is a total, side-effect-free map from 16-bit addresses to bytes, so mapper and picture-unit register effects of reads and writes are not visible.
- The console entry point, ROM loading and the window in `src/nes.c` and `src/gui.c`: these are I/O and foreign library calls. The entry point never calls `cpu_execute`.
- The real behaviour of undocumented opcodes. The source gives them the do-nothing handler, and the model does the same.
- C `int` overflow of the two transient counters is not modelled. Each of them only ever holds 0, 1 or 2.
- Instructions.JumpSubroutine: it calls the absolute resolver directly rather than taking the resolver as a parameter. `Table.TableConsistent` proves that the only table entry with the JSR handler (0x20) binds `abl`, so this loses nothing for the table as written.
- Interpreter.Execute: its cycle count is stated from the counters the handler leaves behind. The statement against the independent timing rule is `Interpreter.CycleCount`, which assumes both counters are zero at the start of the pass. The loop clears them at `src/interpreter.c` lines 656-657. Those lines run only when the wait at 653-655 falls through, which happens only for a `nul` entry (0 cycles, `Interpreter.WaitFallsThrough`). So any pass that follows another starts with both counters clear. For the first pass the requirement depends on the caller's record. The zero-initialised record of `src/nes.c` satisfies it (`Nes.PowerOnZero`), but nothing in the source calls `cpu_execute`, so `Interpreter.Execute` requires it. `Interpreter.Execute` also ends with the clearing at 656-657 for every entry. The source reaches those lines only for a `nul` entry; after any other entry it never leaves the wait.
- Instructions.AddToAccumulator: no separate lemma says that the decimal flag is never read. The ALU step takes no decimal input, and the handler's contract passes D through unchanged.

