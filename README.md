# DonoNES CPU step engine and memory, in Dafny

DonoNES is an early NES emulator written in C. This project models its partial 6502 core and proves properties of it:

- `src/cpu.c` holds the opcode table and `step`, which fetches an opcode, rejects 0xFF and scans the table. It also holds `runInstruction`, which resolves the operand by addressing-mode index and adds up the cycles, along with the eight operand resolvers and the routines ADC, AND, ASL, the six branches and BIT.
- `src/memory.c` holds the 64KB `memory` array behind the NES address map. This covers the 2KB RAM mirrored below 0x2000, the two stubbed register windows and the cartridge space. It also holds the ROM loader.

There are two modules.

- `Memory` (Memory.dfy):
  - `Bus` is a class holding the `memory` buffer as an `array<Byte>`.
  - `fetch`, `fetch16` and `fetchZP16` become functions that read the array.
  - `store` and `initMemory` become methods that modify it.
  - `Backing` says which array cell an address is wired to.
- `Cpu` (Cpu.dfy) has two layers.
  - The pure layer has the status and register datatypes, the instruction table as a constant, and one `…Effect` function per execution routine. It also has the operand selection (`EffectiveAddress`, `Operand`) and the whole step (`RunEffect`, `StepEffect`).
  - `CPU` is a class whose fields are the C `registers` struct. Its methods do what the C functions do, in the same order. Each method's postcondition ties the new register state and the returned count to the pure layer.
  - The lemmas state what the source promises about the pure layer.

Bytes and addresses are the C `uint8_t`/`uint16_t` types, modelled as integer ranges. Wrap-around is written out: PC arithmetic and indexed addresses are taken modulo 2^16, and zero-page sums modulo 2^8. Masks become the remainders or quotients they compute. `A & val` is `BitAnd`, a bit-by-bit recursive definition, and `BitAndBit` proves it bit by bit.

The model follows the code as written, including where it differs from a real 6502:

- `initCPU` clears every flag and sets SP to 0xFF (`PowerOnState`). A real 6502 comes out of reset with I = U = 1 (P = 0x24) and SP = 0xFD, and that is also the first line of the nestest.log trace that tester.py compares against.
- IndX and IndY read their pointer with `fetch16`, so a pointer at 0xFF takes its high byte from 0x100 (`IndirectPointerReadsPastPageZero`). On a real 6502 the (zp,X) and (zp),Y pointer reads wrap within page zero. `fetchZP16` does that wrapped read and is modelled, but nothing in `cpu.c` calls it.
- No resolver ever reports a page crossing, so `extraCycles` never contribute (`StepNonBranch`).
- Branch extras come from the routine's return value, not from the table.
- An invalid opcode returns 1 as its count, with no separate error signal. A count of 1 still identifies an invalid opcode, because every live slot costs at least 2 cycles (`SlotCycles`, `OneCycleMeansInvalid`).
- The ADC rules are as written. Z is set from the unreduced sum, so it is set only when A, val and C are all zero. V is "bit 7 of A differs from bit 7 of the result".
- BIT takes N and V from `A & val` rather than from val.
- Accumulator ASL is handed val = 0, and ASL never writes memory (`AccumulatorAsl`).
- AND's zero-page and zero-page,X base cycles are 2 and 3 as written in the table.

## Model

| member | source | states |
|---|---|---|
| Memory.Backing | src/memory.c:25-38 | an address is wired to `addr & 0x7FF` below 0x2000, to nothing inside 0x2000-0x401F, and to itself from 0x4020 on |
| Memory.Bus.constructor | src/memory.c:6 | the static buffer has 65536 cells, all zero |
| Memory.Bus.Fetch | src/memory.c:25-38 | reads the cell the address is wired to; the PPU window gives `addr & 7` and the APU window `addr - 0x4000`, without reading the array |
| Memory.Bus.Fetch16 | src/memory.c:45-48 | the low byte is `fetch(addr)` and the high byte is `fetch((addr+1) mod 2^16)`, little-endian and crossing pages |
| Memory.Bus.FetchZP16 | src/memory.c:40-43 | both bytes come from page zero, at `addr & 0xFF` and `(addr+1) & 0xFF`, so 0xFF pairs with 0x00 |
| Memory.Bus.Store | src/memory.c:50-61 | writes exactly the one wired cell and leaves every other cell unchanged; stores into the register windows change nothing; afterwards every address wired to that cell reads the stored value |
| Memory.Bus.InitMemory | src/memory.c:20-23 | the cells from 0xC000 become bytes 16..16400 of the image, and everything below 0xC000 is unchanged; every address from 0xC000 then reads its ROM byte |
| Memory.RamMirror | src/memory.c:27-28 | RAM addresses 0x800 apart read the same byte |
| Cpu.AsSigned | src/cpu.c:168-170 | the int8_t reading of a byte: in -128..127 and congruent to it modulo 256 |
| Cpu.MSB | src/cpu.c:172-174 | bit 7: 1 exactly when the low byte is at least 0x80 |
| Cpu.MSB2 | src/cpu.c:176-178 | bit 6: 1 exactly when the value modulo 0x80 is at least 0x40 |
| Cpu.BitAnd | src/cpu.c:233 | `a & b` is bounded by both operands |
| Cpu.BitAndBit | src/cpu.c:233 | bit k of `a & b` is set exactly when bit k is set in both a and b |
| Cpu.BitAndHighBits | src/cpu.c:284-286 | bit 7 and bit 6 of `A & val`, stated through those bits of A and val |
| Cpu.AdcEffect | src/cpu.c:220-230 | A' plus 256 times C' is A + val + C; N' is bit 7 of A'; Z' is set only when A, val and C are all zero; V' is set when bit 7 of A differs from bit 7 of A'; X, Y, SP, PC, I, D, B and U are unchanged |
| Cpu.AndEffect | src/cpu.c:232-237 | A' is `A & val` and at most val; N' is set exactly when bit 7 is set in both A and val; Z' is A' == 0; nothing else changes |
| Cpu.AslEffect | src/cpu.c:239-248 | 2*val is A' plus 256 times C' (C' is bit 7 of val and A' is even); N' and Z' follow A'; nothing else changes |
| Cpu.BitEffect | src/cpu.c:283-289 | A is unchanged; N is bit 7 of both A and val; V is bit 6 of both; Z is `A & val == 0`; nothing else changes |
| Cpu.BranchEffect | src/cpu.c:250-257 | not taken returns 0 and changes nothing; taken changes only PC, by the signed offset modulo 2^16, and returns 1 on the same page and 2 on another |
| Cpu.ExecEffect | src/cpu.c:155 | a non-branch routine returns 0 and leaves PC alone; a branch changes only PC and returns at most 2 |
| Cpu.BranchCondition | src/cpu.c:259-281 | the six wrappers form three pairs, each testing one flag: BCS/BCC on C set/clear, BEQ/BNE on Z, BMI/BPL on N |
| Cpu.Operand | src/cpu.c:122-153 | the value handed to the routine: 0 for mode 0, the byte after the opcode for Imm, and for ZP and ZPX the work-RAM cell at the page-zero address |
| Cpu.RunEffect | src/cpu.c:118-156 | X, Y and SP never change; the count is the slot's base cycles plus at most 2; a non-branch moves PC exactly past its operand bytes and costs exactly the base cycles |
| Cpu.StepEffect | src/cpu.c:97-116 | X, Y and SP never change; the count is at least 1; a byte the decode does not know only advances PC by one and returns 1 |
| Cpu.Decode | src/cpu.c:51-68 | the table as a byte-keyed map: 0xFF decodes to nothing, and every (row, mode) it names is a live slot holding that byte |
| Cpu.PowerOnState | src/cpu.c:84-91 | after `initCPU` A, X, Y and every flag are 0, SP is 0xFF, and the first opcode comes from the first byte of the PRG-ROM bank at 0xC000 |
| Cpu.OperandLength | src/cpu.c:122-153 | the bytes after the opcode that each mode index consumes: 0 for mode 0, 1 for Imm/ZP/ZPX/IndX/IndY, 2 for Abs/AbsX/AbsY |
| Cpu.ZeroPageIndexed | src/cpu.c:190-193 | `(operand + X) & 0xFF` lies in page zero and is congruent to the sum modulo 256 |
| Cpu.Indexed | src/cpu.c:200-208 | a 16-bit base plus an index register, congruent modulo 2^16 and equal to the sum when that does not overflow |
| Cpu.EffectiveAddress | src/cpu.c:185-218 | the ZP and ZPX addresses lie in page zero; the ZP address is the operand byte |
| Cpu.IndirectPointerReadsPastPageZero | src/cpu.c:210-213 | an IndX pointer at 0xFF takes its high byte from 0x100, and agrees with a zero-page-wrapped read exactly when 0x100 and 0x00 hold the same byte |
| Cpu.TableShape | src/cpu.c:51-68 | every row has nine slots, and only the last row has a NULL execute |
| Cpu.SlotDecodes | src/cpu.c:51-68 | a live slot holding a byte other than 0xFF is the one named by the byte-keyed decode |
| Cpu.DecodeMatchesTable | src/cpu.c:51-68 | a byte other than 0xFF sits in live slot (i, k) exactly when the decode maps it to (i, k) |
| Cpu.OpcodeSlotUnique | src/cpu.c:51-68 | no byte other than 0xFF sits in two live slots, so the scan selects a unique entry |
| Cpu.AbsentMarksAdcAccumulator | src/cpu.c:54 | 0xFF sits in live slot (0, 0), the first slot the scan visits, which is ADC at 0 base cycles; without the 0xFF test the scan would run ADC there |
| Cpu.SlotCycles | src/cpu.c:51-68 | every live slot holding a byte other than 0xFF costs 2 to 7 base cycles, and branches live only in the immediate slot at 2 cycles |
| Cpu.FindSlot | src/cpu.c:100-112 | the row and column scan finds a live slot holding the byte exactly when one exists; for bytes other than 0xFF the slot found is the one the decode names |
| Cpu.StepInvalid | src/cpu.c:97-116 | a fetched 0xFF, or a byte in no live slot, only advances PC by one and returns 1 |
| Cpu.OneCycleMeansInvalid | src/cpu.c:97-116 | the count is between 1 and 7, and it is 1 exactly when the opcode is 0xFF or matches no live slot |
| Cpu.StepNonBranch | src/cpu.c:118-156 | a matched non-branch moves PC past the opcode and its operand bytes modulo 2^16, and costs exactly the slot's base cycles |
| Cpu.StepBranch | src/cpu.c:250-281 | a branch is immediate-mode; not taken it moves PC by 2 and costs 2; taken it adds the signed offset and costs 3 on the same page or 4 across |
| Cpu.AccumulatorAsl | src/cpu.c:124 | opcode 0x0A clears A, C and N, sets Z, and costs 2 |
| Cpu.AdcImmediateScenario | src/cpu.c:220-230 | `ADC #$05` with A = 0x10 and C clear gives A = 0x15 with C, Z, N and V clear and costs 2 |
| Cpu.CPU.constructor | src/cpu.c:38 | the static register struct starts out all zero |
| Cpu.CPU.InitCPU | src/cpu.c:84-91 | A = X = Y = 0, all flags clear, SP = 0xFF, PC = 0xC000 |
| Cpu.CPU.Step | src/cpu.c:97-116 | the new registers and the count are StepEffect of the old registers |
| Cpu.CPU.RunInstruction | src/cpu.c:118-156 | the new registers and the count are RunEffect of the old registers |
| Cpu.CPU.ResolveOperand | src/cpu.c:122-153 | gives the mode's operand, always reports no page crossing, and advances PC by the mode's operand length |
| Cpu.CPU.FetchPC | src/cpu.c:158-160 | returns the byte at PC and increments PC modulo 2^16 |
| Cpu.CPU.FetchPC16 | src/cpu.c:162-166 | returns the word at PC and adds 2 to PC modulo 2^16 |
| Cpu.CPU.Imm | src/cpu.c:180-183 | the operand is the byte after the opcode; PC moves by 1; no page crossing |
| Cpu.CPU.ZP | src/cpu.c:185-188 | the operand is read at the zero-page address; PC moves by 1; no page crossing |
| Cpu.CPU.ZPX | src/cpu.c:190-193 | the operand is read at `(byte + X) & 0xFF`; PC moves by 1; no page crossing |
| Cpu.CPU.Abs | src/cpu.c:195-198 | the operand is read at the 16-bit address; PC moves by 2; no page crossing |
| Cpu.CPU.AbsX | src/cpu.c:200-203 | the operand is read at the address plus X modulo 2^16; PC moves by 2; no page crossing |
| Cpu.CPU.AbsY | src/cpu.c:205-208 | the operand is read at the address plus Y modulo 2^16; PC moves by 2; no page crossing |
| Cpu.CPU.IndX | src/cpu.c:210-213 | the operand is read through the word at `(byte + X) & 0xFF`; PC moves by 1; no page crossing |
| Cpu.CPU.IndY | src/cpu.c:215-218 | the operand is read at the word at the byte, plus Y modulo 2^16; PC moves by 1; no page crossing |
| Cpu.CPU.Execute | src/cpu.c:155 | the dispatch through `inst->execute` matches ExecEffect |
| Cpu.CPU.ADC | src/cpu.c:220-230 | the registers become AdcEffect of the old ones, and it returns 0 |
| Cpu.CPU.AND | src/cpu.c:232-237 | the registers become AndEffect of the old ones, and it returns 0 |
| Cpu.CPU.ASL | src/cpu.c:239-248 | the registers become AslEffect of the old ones, and it returns 0 |
| Cpu.CPU.Branch | src/cpu.c:250-257 | the registers and the return value are BranchEffect of the old ones |
| Cpu.CPU.BCC | src/cpu.c:259-261 | branches when C is clear |
| Cpu.CPU.BCS | src/cpu.c:263-265 | branches when C is set |
| Cpu.CPU.BEQ | src/cpu.c:267-269 | branches when Z is set |
| Cpu.CPU.BMI | src/cpu.c:271-273 | branches when N is set |
| Cpu.CPU.BNE | src/cpu.c:275-277 | branches when Z is clear |
| Cpu.CPU.BPL | src/cpu.c:279-281 | branches when N is clear |
| Cpu.CPU.BIT | src/cpu.c:283-289 | the registers become BitEffect of the old ones, and it returns 0 |

## Left out

- The `fprintf(stderr, …)` diagnostics in `fetch`, `fetch16`, `fetchZP16`, `store`, `step` and `runInstruction` are output only and are modelled as nothing.
- `runInstruction`'s `default` branch (src/cpu.c:150-152) is unreachable, because the scan only produces mode indices 0..8. `Cpu.CPU.RunInstruction` and `Cpu.CPU.ResolveOperand` require `ndx < 9` instead of modelling it.
- The scan of `step` is the method `Cpu.FindSlot` and the `switch` of `runInstruction` is the method `Cpu.CPU.ResolveOperand`. Both are called from where the C code has them inline, so the behaviour and its order are the same.
- The execute function pointer is the `Mnemonic` datatype, dispatched by `Cpu.CPU.Execute`.
- The instruction name strings are kept in the table, but no code reads them.
- `cleanCPU` is empty. `cleanMemory` is declared in src/memory.h but has no definition.
- `initMemory`'s `fileSize` parameter is never read. src/memory.h declares it, but src/DonoNES.c calls `initMemory` with the image alone. `Memory.Bus.InitMemory` takes the image as a sequence and requires it to hold the header and one 16KB bank, which the `memcpy` reads unconditionally.
- src/DonoNES.c (`main`, `loadFile`) is file I/O, allocation and an endless `step()` loop. It is not part of this model.
- tester.py compares the emulator's trace against a reference log from outside the emulator, and is not part of this model.
- cpu.h is not part of this model. `NUM_INDEX_MODES` is 9, as src/cpu.c:8 defines it.
- `Step` and `RunInstruction` return the C `int` as an unbounded `int`. Every value it can return is between 1 and 7 (`OneCycleMeansInvalid`); the largest is ASL absolute,X.
