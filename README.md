# Game Boy emulator core, modelled in Dafny

This project models the core of the `gameboy` crate of neoboy, a Game Boy
emulator, and proves properties of the model. The core has five parts:

- `lib.dfy` (module `Gameboy`): the integer aliases, the error type every
  fallible operation returns, and `make_u16`, which joins two bytes into a
  word with the first byte high.
- `cartridge.dfy` (module `Cartridge`): the ROM-only cartridge. It answers
  reads in the window 0x0000-0x7FFF from its image and ignores writes.
- `memory.dfy` (module `MemoryMap`): the 64 KiB memory map. Reads and writes
  are routed by address. The cartridge serves its ROM window and cartridge
  RAM. Work RAM 0xC000-0xDDFF and its echo 0xE000-0xFDFF are written
  together. The unused block 0xFEA0-0xFEFF ignores writes. The interrupt-flag
  register IF at 0xFF0F keeps its top three bits set. `Memory` is a class
  over a 0x10000-byte array. Its `WriteByte` is proved against the pure
  function `Store`, and `Store` is proved to keep the map invariant (mirror
  equality, IF bits, unused block at zero).
- `operations.dfy` (module `Operations`): the opcode decoder. It turns the
  byte at the program counter, plus the operand bytes the opcode needs,
  into an `Operation` or an error. The table is written as the 16 rows of
  the opcode grid (`Row0` ... `RowF`, selected by the high nibble). Each row
  is proved against three reference predicates: which bytes have no entry
  (`IsUndefined`), and which take a 16-bit (`TakesImm16`) or 8-bit
  (`TakesImm8`) operand. Each row is also proved to copy operands into the
  opcode unchanged.
- `cpu.dfy` and `machine.dfy` (modules `CpuState` and `MachineCore`): the
  processor state (registers, pc, sp) and the machine.
  - `Machine.Step` decodes at pc. A NOP advances pc by one and returns one
    cycle. Any other operation returns an "unimplemented" error. A decode
    error is passed through. Only the processor changes.
  - `Stepped` is the pure specification of a step. `Run` chains steps.
  - `NopSled` proves that `n` zero bytes run as `n` one-cycle steps.

The decoder follows the crate's own table, not the hardware table, and the
model keeps these quirks on purpose:

- the first operand byte of a 16-bit immediate is its HIGH byte;
- 0x36 decodes to SCF and reads no operand;
- (HL+) and (HL-) both name plain HL;
- 0xCB gives `UnknownAluOpcodePrefix` carrying the byte after it;
- a number of bytes have no entry and give `UnknownOpcodePrefix(prefix)`:
  0x18, 0x37, the LD r,(HL) column, 0x70-0x77, 0x7E, 0xD3, 0xDB, 0xDD,
  0xE3, 0xE4, 0xEB-0xED, 0xF4, 0xFC and 0xFD.

Operand bytes are read only when the matched opcode needs them, as the
crate's decoding macro does. `OperandBytes` gives that count.

Some reads panic in the source: a cartridge read outside 0x0000-0x7FFF or
past the image, and a `pc + 1` past 0xFFFF. Each becomes a precondition
(`CanRead`, `ByteReadable`, `WordReadable`, `CanDecodeAt`, `CanStep`).

## Model

| member | source | states |
|---|---|---|
| Gameboy.NewError | gameboy/src/lib.rs:38-40 | the error carries exactly the given kind |
| Gameboy.MakeU16 | gameboy/src/lib.rs:82-84 | the high byte of the result is `msb`, the low byte is `lsb`, and the value is msb*256 + lsb |
| Gameboy.MakeU16Injective | gameboy/src/lib.rs:82-84 | distinct byte pairs make distinct words |
| Cartridge.RomOnly.constructor | gameboy/src/cartridge.rs:17-19 | the cartridge holds the given image |
| Cartridge.RomOnly.ReadByte | gameboy/src/cartridge.rs:23-27 | in the ROM window and inside the image, a read returns the image byte at that offset; any other read is excluded because it panics |
| Cartridge.RomOnly.WriteByte | gameboy/src/cartridge.rs:30-32 | a write leaves the image unchanged |
| Cartridge.RomOnly.ReadWord | gameboy/src/cartridge.rs:34-36 | the word is the byte at the address (high) joined with the byte after it (low) |
| Cartridge.RomOnly.WriteWord | gameboy/src/cartridge.rs:38-40 | nothing changes |
| MemoryMap.MirrorOf | gameboy/src/memory.rs:74-83 | the partner of a work-RAM address is 0x2000 above it in the echo region, and the partner of an echo address is 0x2000 below it in work RAM |
| MemoryMap.InterruptFlagValue | gameboy/src/memory.rs:89-94 | the stored IF byte has bits 7-5 set and bits 4-0 equal to the written value's |
| MemoryMap.InterruptFlagExamples | gameboy/tests/memory_tests.rs:50-54 | writing 0x0F to IF stores 0xEF, and writing 0x10 stores 0xF0 |
| MemoryMap.InterruptFlagIdempotent | gameboy/src/memory.rs:89-94 | writing back what IF holds leaves it unchanged |
| MemoryMap.Store | gameboy/src/memory.rs:64-98 | the array after a write: ROM, cartridge RAM and the unused block are left alone; a mirrored address and its partner both get the value; IF gets the masked value; any other address gets the value; no other byte changes; the map invariant is kept |
| MemoryMap.StoreOverwrite | gameboy/src/memory.rs:64-98 | a second write to the same address wipes out the first |
| MemoryMap.Memory.constructor | gameboy/src/memory.rs:39-49 | memory starts all zero except IF, which is 0xE0; the map invariant holds |
| MemoryMap.Memory.WriteByte | gameboy/src/memory.rs:64-98 | the new array is `Store` of the old one; the cartridge image is unchanged; the map invariant is kept |
| MemoryMap.Memory.ReadByte | gameboy/src/memory.rs:115-121 | a cartridge address reads the cartridge, any other reads the array; under the invariant, a mirrored byte equals its partner, the unused block reads 0, and IF reads with its top bits set |
| MemoryMap.Memory.ReadWord | gameboy/src/memory.rs:123-131 | on every address the word is the byte there (high) joined with the byte after it (low), and both bytes are readable |
| Operations.AsOffset8 | gameboy/src/operations.rs:198-200 | the byte read as two's complement: it agrees with the byte modulo 256 and is negative exactly when bit 7 is set |
| Operations.PrefixIntoReg8Hi | gameboy/src/operations.rs:124-134 | the register whose code is bits 5-3; field 6 gives A |
| Operations.PrefixIntoReg8Lo | gameboy/src/operations.rs:136-146 | the register whose code is bits 2-0; field 6 gives A |
| Operations.PrefixIntoReg16 | gameboy/src/operations.rs:149-156 | the pair whose code is bits 5-4, where 3 means SP; never AF |
| Operations.PrefixIntoReg16Hl | gameboy/src/operations.rs:160-166 | BC or DE for fields 0 and 1, and HL for both 2 and 3 |
| Operations.PrefixIntoReg16Af | gameboy/src/operations.rs:168-175 | the pair whose code is bits 5-4, where 3 means AF; never SP |
| Operations.PrefixIntoCond | gameboy/src/operations.rs:177-184 | the condition whose field is bits 4-3: NZ, Z, NC, C |
| Operations.FromAluPrefix | gameboy/src/operations.rs:338-342 | every byte after 0xCB is an `UnknownAluOpcodePrefix` error carrying that byte |
| Operations.Row0 | gameboy/src/operations.rs:224-243 | for 0x00-0x0F: every byte has an entry; the operand count matches `OperandBytes`; operands are copied unchanged; only 0x00 is NOP. Which opcode each cell gives is stated over `Decode` by `PairColumns`, `ByteColumns`, `RotateBytes` and `StackPointerBytes` |
| Operations.Row1 | gameboy/src/operations.rs:226-246 | for 0x10-0x1F: only 0x18 has no entry; operand count and operands as for `Row0`; no NOP. The cell opcodes are stated over `Decode` by `PairColumns` (the DE column), `ByteColumns` (D and E), `RotateBytes` (RLA, RRA) and `MiscLowBytes` (STOP) |
| Operations.Row2 | gameboy/src/operations.rs:226-249 | for 0x20-0x2F: every byte has an entry; the JR offset is the operand byte read as two's complement; operand count and operands as above; no NOP. The cell opcodes are stated over `Decode` by `ConditionFields` (JR NZ/Z), `PairColumns` (HL, and HL+ for 0x22/0x2A), `ByteColumns` (H and L) and `MiscLowBytes` (DAA, CPL) |
| Operations.Row3 | gameboy/src/operations.rs:226-253 | for 0x30-0x3F: only 0x37 has no entry, and 0x36 takes no operand; operand count and operands as above; no NOP. The cell opcodes are stated over `Decode` by `ConditionFields` (JR NC/C), `PairColumns` (SP, and HL- for 0x32/0x3A), `ByteColumns` (A, INC (HL), DEC (HL), SCF) and `MiscLowBytes` (CCF) |
| Operations.Row4 | gameboy/src/operations.rs:254-262 | for 0x40-0x4F: only 0x46 and 0x4E have no entry; no operands; no NOP |
| Operations.Row5 | gameboy/src/operations.rs:254-262 | for 0x50-0x5F: only 0x56 and 0x5E have no entry; no operands; no NOP |
| Operations.Row6 | gameboy/src/operations.rs:254-262 | for 0x60-0x6F: only 0x66 and 0x6E have no entry; no operands; no NOP |
| Operations.Row7 | gameboy/src/operations.rs:254-262 | for 0x70-0x7F: 0x70-0x77 and 0x7E have no entry; no operands; no NOP |
| Operations.Row8 | gameboy/src/operations.rs:263-270 | for 0x80-0x8F: every byte has an entry and none takes an operand; no NOP |
| Operations.Row9 | gameboy/src/operations.rs:271-278 | for 0x90-0x9F: every byte has an entry and none takes an operand; no NOP |
| Operations.RowA | gameboy/src/operations.rs:279-286 | for 0xA0-0xAF: every byte has an entry and none takes an operand; no NOP |
| Operations.RowB | gameboy/src/operations.rs:287-294 | for 0xB0-0xBF: every byte has an entry and none takes an operand; no NOP |
| Operations.RowC | gameboy/src/operations.rs:295-308 | for 0xC0-0xCF: every byte except 0xCB has an entry; operand count and operands as above; no NOP. The cell opcodes are stated over `Decode` by `ConditionFields` (RET cc, JP cc, CALL cc), `StackPairs`, `ImmediateArithmetic` (ADD d8, ADC d8), `RestartVectors` and `JumpBytes` (JP, RET, CALL) |
| Operations.RowD | gameboy/src/operations.rs:295-311 | for 0xD0-0xDF: 0xD3, 0xDB and 0xDD have no entry; operand count and operands as above; no NOP. The cell opcodes are stated over `Decode` by `ConditionFields` (RET cc, JP cc, CALL cc), `StackPairs`, `ImmediateArithmetic` (SUB d8, SBC d8), `RestartVectors` and `JumpBytes` (RETI) |
| Operations.RowE | gameboy/src/operations.rs:296-318 | for 0xE0-0xEF: 0xE3, 0xE4, 0xEB, 0xEC and 0xED have no entry; the ADD SP offset is signed; operand count and operands as above; no NOP. The cell opcodes are stated over `Decode` by `HighPageLoads` (LDH (a8),A, LD (C),A), `StackPairs`, `ImmediateArithmetic` (AND d8, XOR d8), `StackPointerBytes` (ADD SP,r8), `JumpBytes` (JP HL), `AbsoluteLoadsAndInterrupts` (LD (a16),A) and `RestartVectors` |
| Operations.RowF | gameboy/src/operations.rs:296-327 | for 0xF0-0xFF: 0xF4, 0xFC and 0xFD have no entry; the LD HL,SP+r8 offset is signed; operand count and operands as above; no NOP. The cell opcodes are stated over `Decode` by `HighPageLoads` (LDH A,(a8), LD A,(C)), `StackPairs`, `AbsoluteLoadsAndInterrupts` (DI, EI, LD A,(a16)), `ImmediateArithmetic` (OR d8, CP d8), `StackPointerBytes` (LD HL,SP+r8, LD SP,HL) and `RestartVectors` |
| Operations.Table | gameboy/src/operations.rs:224-331 | over all 256 bytes: there is no entry exactly for the undefined bytes and 0xCB; the operand count matches `OperandBytes`; operands are copied unchanged; NOP exactly for 0x00. The opcode of every defined byte is stated by the column and byte lemmas below, over `Decode` |
| Operations.Decode | gameboy/src/operations.rs:224-331 | the result is an error exactly for the undefined bytes and 0xCB; an undefined byte gives `UnknownOpcodePrefix(prefix)`; 0xCB gives `UnknownAluOpcodePrefix` of the next byte; every operation carries its prefix and its operands unchanged. Together with its own NOP clause, the lemmas `RegisterLoads`, `AccumulatorOperands`, `AccumulatorOperations`, `RestartVectors`, `PairColumns`, `ByteColumns`, `ImmediateArithmetic`, `StackPairs`, `ConditionFields`, `RotateBytes`, `MiscLowBytes`, `StackPointerBytes`, `JumpBytes`, `HighPageLoads` and `AbsoluteLoadsAndInterrupts` give the opcode of each of the 227 bytes that decode, for all operand values |
| Operations.FromMemory | gameboy/src/operations.rs:188-332 | decoding at pc tags the result with the byte at pc; it fails exactly on undefined bytes and 0xCB; the 0xCB error carries the byte at pc+1; an 8-bit immediate is the byte at pc+1; NOP exactly for a zero byte |
| Operations.FromMemoryOperands | gameboy/src/operations.rs:191-200 | a signed offset is the byte at pc+1 read as two's complement; a 16-bit immediate is the byte at pc+1 (high) joined with the byte at pc+2 (low) |
| Operations.RegisterLoads | gameboy/src/operations.rs:254-262 | every defined byte in 0x40-0x7F is LD r,r' with the destination code from bits 5-3 and the source code from bits 2-0 |
| Operations.AccumulatorOperands | gameboy/src/operations.rs:263-294 | in 0x80-0xBF, source field 6 selects the (HL) form, and every other field names the register whose code it is |
| Operations.AccumulatorOperations | gameboy/src/operations.rs:263-294 | in 0x80-0xBF, bits 5-3 select ADD, ADC, SUB, SBC, AND, XOR, OR or CP, in both directions |
| Operations.RestartVectors | gameboy/src/operations.rs:302-304 | the eight RST bytes restart at eight times their bits 5-3 |
| Operations.PairColumns | gameboy/src/operations.rs:226-242 | in rows 0x0-0x3, column 1 is LD rr,d16 (with imm16), 3 INC rr, 9 ADD HL,rr and B DEC rr, each on the pair whose code is the row (3 gives SP); column 2 is LD (rr),A and column A is LD A,(rr), on BC and DE, then HL for both HL+ and HL- |
| Operations.StackPairs | gameboy/src/operations.rs:296-300 | columns 1 and 5 of rows 0xC-0xF decode to POP and PUSH respectively; field 3 names AF |
| Operations.ConditionFields | gameboy/src/operations.rs:247-299 | for every byte: `prefix & 0xE7` equal to 0x20 is JR (offset = signed operand), 0xC0 RET cc, 0xC2 JP cc (with imm16), 0xC4 CALL cc (with imm16), each with the condition whose field is bits 4-3 |
| Operations.ByteColumns | gameboy/src/operations.rs:229-252 | in rows 0x0-0x3, columns 4/C are INC r, 5/D DEC r and 6/E LD r,d8 (with imm8), on the register whose code is bits 5-3; where bits 5-3 are 6, the bytes are INC (HL), DEC (HL) and SCF instead |
| Operations.ImmediateArithmetic | gameboy/src/operations.rs:301-327 | for the eight bytes with `prefix & 0xC7 == 0xC6`, bits 5-3 select ADD, ADC, SUB, SBC, AND, XOR, OR or CP, in both directions, carrying the operand byte |
| Operations.RotateBytes | gameboy/src/operations.rs:238-246 | 0x07 is RLCA, 0x0F RRCA, 0x17 RLA and 0x1F RRA |
| Operations.MiscLowBytes | gameboy/src/operations.rs:244-253 | 0x10 is STOP, 0x27 DAA, 0x2F CPL and 0x3F CCF |
| Operations.StackPointerBytes | gameboy/src/operations.rs:239-324 | 0x08 is LD (a16),SP with imm16, 0xE8 ADD SP with the signed operand, 0xF8 LD HL,SP+r8 with the signed operand, and 0xF9 LD SP,HL |
| Operations.JumpBytes | gameboy/src/operations.rs:298-316 | 0xC3 is JP a16, 0xC9 RET, 0xCD CALL a16, 0xD9 RETI and 0xE9 JP HL |
| Operations.HighPageLoads | gameboy/src/operations.rs:312-320 | 0xE0 is LDH (a8),A, 0xE2 LD (C),A, 0xF0 LDH A,(a8) and 0xF2 LD A,(C) |
| Operations.AbsoluteLoadsAndInterrupts | gameboy/src/operations.rs:317-326 | 0xEA is LD (a16),A, 0xFA LD A,(a16), 0xF3 DI and 0xFB EI |
| Operations.FromMemoryDecodes | gameboy/src/operations.rs:188-332 | decoding at pc is `Decode` of the byte at pc with some operand values, so every opcode lemma about `Decode` holds for `FromMemory` |
| Operations.ScfAt0x36 | gameboy/src/operations.rs:252 | 0x36 decodes to SCF and reads no operand |
| Operations.ImmediateHighByteFirst | gameboy/tests/operations_tests.rs:66 | 0x01 0x12 0x34 decodes to LD BC,0x1234 |
| Operations.OffsetExamples | gameboy/tests/operations_tests.rs:143-144 | operand 0x01 is +1 and 0xFE is -2, for LD HL,SP+r8 and for JR |
| Operations.HlIncrementForms | gameboy/tests/operations_tests.rs:153-154 | 0x22 and 0x32 both store through HL |
| Operations.ErrorExamples | gameboy/src/operations.rs:306-330 | 0xCB reports the byte after it; 0x18 reports itself as an unknown prefix |
| Operations.FromMemoryExample | gameboy/tests/operations_tests.rs:66 | three readable bytes 0x01 0x12 0x34 at pc decode to LD BC,0x1234 |
| CpuState.NewCpu | gameboy/src/cpu.rs:12-18 | at power-on pc is 0x0100 and sp is 0xFFFE |
| MachineCore.Stepped | gameboy/src/machine.rs:16-31 | a step succeeds exactly on a zero byte, returning one cycle with pc one further on; an error leaves the processor as it was; a decode error is returned unchanged; any other decoded operation gives an `Unknown` error; sp and the registers never change |
| MachineCore.NopSled | gameboy/src/machine.rs:21 | over n zero bytes, n steps all succeed with one cycle each, and pc ends n bytes further on |
| MachineCore.Machine.constructor | gameboy/src/machine.rs:12-14 | a machine over the given memory with the power-on processor |
| MachineCore.Machine.Step | gameboy/src/machine.rs:16-31 | the new processor and the result are `Stepped` of the old processor; memory is not modified |

## Left out

- Reading a ROM file (`read_rom_file`) is file I/O. `GameboyType` and `Configuration` are never used by the core.
- The `Cartridge` interface is represented by its only implementation, `RomOnly`.
- `Memory` holds a `RomOnly` directly instead of a boxed interface object.
- The register file (`registers.rs`) is not part of this model. `Registers` is a single value that a step carries along unchanged.
- ROM header parsing (`rom.rs`) is not part of this model.
- The rest of the hardware is not part of the core: video, timer, interrupts beyond the IF register, DMA, and banked cartridges.
- The 0xCB extended table has no entries in the source, so every byte after 0xCB is an error, as modelled.
- The opcode variants `Ld8RegMemHl` and `St16MemImmReg` are declared but never produced by the decoder, so the `Opcode` datatype omits them.
- `Unknown` errors from a step carry the fixed text "Unimplemented". The source also formats the opcode into the message; the exact text is not modelled.
- Panics in the source become preconditions, not error results: a cartridge read outside its window or image, a `pc + 1` or `address + 1` past 0xFFFF, and the `pc += 1` after a NOP at 0xFFFF.
- MachineCore.Run and MachineCore.CanRun are ghost definitions used to state `NopSled`. The source has no multi-step loop.
- The memory test that calls `Memory::new()` without a cartridge and expects ROM writes to read back (gameboy/tests/memory_tests.rs:4-13) does not match `write_byte`. That code ignores ROM writes, and the model follows the code.
