# rgbe core, modelled in Dafny

This project models the deterministic core of the `rgbe` Game Boy (Sharp
LR35902) emulator and proves properties of the model:

- **CPU.** It covers:
  - the register file, with its 16-bit pair views and the flag nibble of F;
  - the 256-entry main and CB-prefixed instruction tables;
  - operand fetch by addressing mode;
  - the handler of every instruction type, with flags and cycle counts;
  - the 16-bit stack;
  - interrupt request, priority and dispatch.
- **Cartridge.** It covers:
  - ROM header parsing and the header checksum;
  - MBC1/MBC3/MBC5 control registers and bank resolution;
  - gating of the external RAM.
- **Timer.** DIV/TIMA/TMA/TAC, with TIMA counting on the falling edge of a selected divider bit.
- **APU.** It covers:
  - the four channels' length counters, envelopes, sweep, duty and wave position;
  - the noise LFSR;
  - register packing;
  - the 8-step frame sequencer;
  - the integer stereo mixer.
- **LCD and PPU.** It covers:
  - LCDC/STAT bit semantics, LY wrap and the LYC coincidence flag;
  - palette lookup;
  - the scanline mode state machine;
  - OAM sprite selection;
  - VRAM/OAM access;
  - pixel composition.
- **Memory map and small devices.** It covers:
  - bus address routing and WRAM/HRAM;
  - the OAM DMA controller;
  - the active-low JOYP register;
  - the bit helpers.

State that the Rust code updates in place is a Dafny `class`, with the same
fields and methods. Each class has a value snapshot (`State()` or `Core()`),
and each method is specified by a pure function of the snapshot before the
call. The properties are proved as lemmas over those functions.

Bytes and words are the integer subset types `Common.Byte` (0..255) and
`Common.Word` (0..65535). The Rust code's wrapping arithmetic is written out as
`AddByte`/`AddWord`, and bit operations go through an 8-bit vector view
(`Common.Bits`).

The CPU reads and writes a 65536-byte image, `Common.Memory`. The routing of
those addresses to devices is modelled separately, in `Bus`.

## Model

| member | source | states |
|---|---|---|
| Common.AddByte | src/cpu/execute.rs:159-207 | `wrapping_add` on a byte: the plain sum when it fits, otherwise the sum shifted by 256 |
| Common.AddWord | src/cpu/fetch.rs:114-140 | `wrapping_add`/`wrapping_sub` on a word: the plain sum when it fits, otherwise the sum shifted by 65536 |
| Common.BitIsBitOf | src/common.rs:27-29 | `bit(v, n)` holds iff digit n of v in base 2 is 1 |
| Common.BitSetReadsBack | src/common.rs:38-44 | after `bit_set(v, n, on)`, `bit(v, n) == on` |
| Common.BitSetOthers | src/common.rs:38-44 | `bit_set` at n leaves every other bit k of v as it was |
| Common.BitSetIdempotent | src/common.rs:38-44 | applying `bit_set(v, n, on)` twice equals applying it once |
| Common.BitSetUnchanged | src/common.rs:38-44 | setting a bit to the value it already has leaves the byte unchanged |
| Common.AndBits | src/cpu/execute.rs:284-287 | bit n of `a & b` is set iff bit n is set in both |
| Common.OrBits | src/cpu/execute.rs:294-297 | bit n of `a \| b` is set iff bit n is set in either |
| Common.XorBits | src/cpu/execute.rs:289-292 | bit n of `a ^ b` is set iff it is set in exactly one of them |
| Common.NotBits | src/cpu/execute.rs:430-434 | bit n of `!a` is the complement of bit n of a |
| Common.MaskTest | src/common.rs:27-29 | `v & (1 << n) == 0` iff bit n of v is clear |
| Common.BetweenInclusive | src/common.rs:56-58 | `between(v, lo, hi)` holds at both ends, lo and hi |
| Common.BetweenNeighbours | src/common.rs:56-58 | `between` fails just below lo and just above hi |
| Common.Store | src/bus.rs:9-14 | a byte write to the 64K image changes exactly the addressed byte |
| Common.StoreWord | src/bus.rs:23-27 | a 16-bit write keeps the image a 64K image |
| Common.WordRoundTrip | src/bus.rs:17-27 | `read16` after `write16(a, v)` gives v; the low byte is at a, the high byte at a + 1 (wrapping), and every other byte is unchanged |
| Common.Memory.constructor | src/bus.rs:9-14 | the memory holds the given 64K image |
| Common.Memory.Write | src/bus.rs:13-14 | a byte write stores the byte at the address and nothing else |
| Common.Memory.Write16 | src/bus.rs:23-27 | `write16` stores the word little-endian |
| Ram.Offset | src/ram.rs:38-71 | the wrapping offset `address - base` |
| Ram.RegionRead | src/ram.rs:38-45 | a read inside the region returns the stored byte, outside it 0xFF |
| Ram.RegionWrite | src/ram.rs:48-53 | a write inside the region replaces exactly the addressed byte; outside it nothing changes |
| Ram.RegionRoundTrip | src/ram.rs:79-110 | a read after a write returns the written byte at that address and the old contents everywhere else |
| Ram.ZeroRegion | src/ram.rs:113-121 | a zeroed region reads 0 inside and 0xFF outside |
| Ram.Ram.constructor | src/ram.rs:30-35 | WRAM (0x2000 bytes) and HRAM (0x7F bytes) start all zero |
| Ram.Ram.WramRead | src/ram.rs:38-45 | 0xC000-0xDFFF reads the stored byte, any other address reads 0xFF |
| Ram.Ram.WramWrite | src/ram.rs:48-53 | the write is a region write at base 0xC000: in range it sets one byte, out of range it is a no-op |
| Ram.Ram.HramRead | src/ram.rs:56-63 | 0xFF80-0xFFFE reads the stored byte, any other address reads 0xFF |
| Ram.Ram.HramWrite | src/ram.rs:66-71 | the write is a region write at base 0xFF80 |
| Registers.JoinSplit | src/cpu/registers.rs:61-96 | joining the high and low bytes of a word gives the word back, so `bc()` after `set_bc(v)` is v, and the same holds for DE and HL |
| Registers.SplitJoin | src/cpu/registers.rs:61-96 | the high and low bytes of a joined pair are the two registers |
| Registers.AfRoundTrip | src/cpu/registers.rs:47-57 | `af()` after `set_af(v)` is `v & 0xFFF0`, and F's low nibble is 0 |
| Registers.FlagNibbleIdempotent | src/cpu/registers.rs:54-57 | masking F's low nibble twice equals masking it once |
| Registers.WithFlagsNibbles | src/cpu/registers.rs:156-161 | `set_flags` keeps F's low nibble and puts `z<<7 \| n<<6 \| h<<5 \| c<<4` in the high nibble; from F = 0 this gives 0xA0 and 0x50 in the source's examples |
| Registers.WithFlagsReadBack | src/cpu/registers.rs:156-161 | after `set_flags(z, n, h, c)` each flag getter returns its argument |
| Registers.Registers.constructor | src/cpu/registers.rs:38-40 | every register starts at 0 |
| Registers.Registers.AF | src/cpu/registers.rs:47-49 | A is the high byte of `af()` and F the low byte |
| Registers.Registers.BC | src/cpu/registers.rs:61-63 | B is the high byte of `bc()` and C the low byte |
| Registers.Registers.DE | src/cpu/registers.rs:74-76 | D is the high byte of `de()` and E the low byte |
| Registers.Registers.HL | src/cpu/registers.rs:87-89 | H is the high byte of `hl()` and L the low byte |
| Registers.Registers.SetAF | src/cpu/registers.rs:54-57 | A takes the high byte and F the high nibble of the low byte; no other register changes |
| Registers.Registers.SetBC | src/cpu/registers.rs:67-70 | B and C take the two bytes; no other register changes |
| Registers.Registers.SetDE | src/cpu/registers.rs:80-83 | D and E take the two bytes; no other register changes |
| Registers.Registers.SetHL | src/cpu/registers.rs:93-96 | H and L take the two bytes; no other register changes |
| Registers.Registers.SetFlagZ | src/cpu/registers.rs:108-116 | `flag_z()` reads back the value; every other bit of F is unchanged |
| Registers.Registers.SetFlagN | src/cpu/registers.rs:120-128 | `flag_n()` reads back the value; every other bit of F is unchanged |
| Registers.Registers.SetFlagH | src/cpu/registers.rs:132-140 | `flag_h()` reads back the value; every other bit of F is unchanged |
| Registers.Registers.SetFlagC | src/cpu/registers.rs:144-152 | `flag_c()` reads back the value; every other bit of F is unchanged |
| Registers.Registers.SetFlags | src/cpu/registers.rs:156-161 | all four flags read back as given; only F changes |
| Cpu.Priority | src/cpu/mod.rs:184-214 | each interrupt has a priority index below 5 |
| Cpu.InterruptBit | src/cpu/mod.rs:184-192 | `bit()` is `1 << i`, where i is the interrupt's priority index |
| Cpu.Vector | src/cpu/mod.rs:195-203 | `vector()` is `0x40 + 8*i` |
| Cpu.AllInterrupts | src/cpu/mod.rs:206-214 | `all()` lists the five interrupts in priority order: VBlank, LcdStat, Timer, Serial, Joypad |
| Cpu.InterruptBitInjective | src/cpu/mod.rs:184-203 | distinct interrupts have distinct bits and distinct vectors |
| Cpu.HighestPending | src/cpu/mod.rs:129-142 | None iff no interrupt is requested in the mask; otherwise a requested interrupt with no requested interrupt of higher priority |
| Cpu.SaturatingAdd | src/cpu/mod.rs:105-107 | `saturating_add` on u32: the sum, or u32::MAX when it overflows |
| Cpu.SaturatingTimes4 | src/cpu/mod.rs:110-114 | `saturating_mul(4)` on u32 |
| Cpu.Cpu.constructor | src/cpu/mod.rs:51-66 | `Cpu::new`: zeroed registers and fields, no current instruction |
| Cpu.Cpu.Init | src/cpu/mod.rs:72-87 | the boot register values (AF 0x01B0, BC 0x0013, DE 0x00D8, HL 0x014D, SP 0xFFFE, PC 0x0100) with Z, H and C set and N clear; interrupts and pending cycles are cleared |
| Cpu.Cpu.ResetStepCycles | src/cpu/mod.rs:100-102 | pending M-cycles become 0 and nothing else changes |
| Cpu.Cpu.AddMCycles | src/cpu/mod.rs:105-107 | pending M-cycles grow by n, saturating |
| Cpu.Cpu.TakeTCycles | src/cpu/mod.rs:110-114 | returns 4 × the pending M-cycles (saturating) and resets them to 0 |
| Cpu.Cpu.RequestInterrupt | src/cpu/mod.rs:119-121 | IF becomes `IF \| bit(t)`; nothing else changes |
| Cpu.Cpu.GetPendingInterrupt | src/cpu/mod.rs:129-142 | the loop over `all()` returns the highest-priority interrupt in `IF & IE & 0x1F`, and None iff `interrupts_pending()` is false |
| Cpu.Cpu.ClearInterrupt | src/cpu/mod.rs:145-147 | IF becomes `IF & !bit(t)`; nothing else changes |
| Cpu.BootFlags | src/cpu/mod.rs:231-248 | F = 0xB0 means Z, H and C are set and N is clear |
| Cpu.RequestSetsOnlyItsBit | src/cpu/mod.rs:119-121 | requesting t sets bit i of IF, where i is t's priority index, and keeps every other bit |
| Cpu.ClearResetsOnlyItsBit | src/cpu/mod.rs:145-147 | clearing t resets bit i of IF, where i is t's priority index, and keeps every other bit |
| Cpu.RequestedIsBit | src/cpu/mod.rs:129-142 | an interrupt is requested in a mask iff bit `priority` of the mask is set |
| Cpu.ScanCoversAll | src/cpu/mod.rs:129-142 | a priority scan over all five sources that finds nothing means no source is requested |
| Cpu.PendingSource | src/cpu/mod.rs:124-142 | t is pending iff it is both requested in IF and enabled in IE |
| Cpu.PendingHasSource | src/cpu/mod.rs:124-142 | a nonzero pending mask has at least one pending interrupt |
| Cpu.PendingMeansSomeSource | src/cpu/mod.rs:124-126 | `interrupts_pending()` iff some interrupt is both requested and enabled |
| Cpu.NothingRequestedInZero | src/cpu/mod.rs:124-126 | a zero mask requests no interrupt |
| Instructions.InvalidOpcodes | src/cpu/instructions.rs:396-440 | an opcode decodes to `None` (here `InvalidOp`) iff it is one of 0xD3, 0xDB, 0xDD, 0xE3, 0xE4, 0xEB, 0xEC, 0xED, 0xF4, 0xFC, 0xFD |
| Instructions.LoadBlock | src/cpu/instructions.rs:240-306 | 0x76 is `Halt`; every other opcode in 0x40-0x7F is `Ld`, with destination `[B,C,D,E,H,L,(HL),A][op>>3 & 7]` and source `[...][op & 7]`, and the matching memory mode when either is (HL) |
| Instructions.AluBlock | src/cpu/instructions.rs:307-374 | 0x80-0xBF are ADD/ADC/SUB/SBC/AND/XOR/OR/CP by `op>>3 & 7`, on A, with source `[B,C,D,E,H,L,(HL),A][op & 7]` |
| Instructions.AluImmediate | src/cpu/instructions.rs:375-441 | the column-6 opcodes from 0xC0 up are the same eight operations with an immediate byte (`RegisterD8`, A) |
| Instructions.RestartVectors | src/cpu/instructions.rs:383-442 | an opcode is `Rst` iff it is 0xC7 + 8k, and then its param is 8k |
| Instructions.RelativeJumpConditions | src/cpu/instructions.rs:197-231 | 0x18 is unconditional JR, and 0x20/0x28/0x30/0x38 carry conditions Nz/Z/Nc/C |
| Instructions.ConditionalControl | src/cpu/instructions.rs:375-408 | the conditional RET/JP/CALL opcodes in 0xC0-0xDF carry condition `[Nz,Z,Nc,C][op>>3 & 3]` |
| Instructions.PrefixEntry | src/cpu/instructions.rs:387 | 0xCB is the `Cb` prefix with an immediate byte |
| Instructions.IncDecOpcodes | src/cpu/instructions.rs:170-237 | below 0x40, INC is exactly x3 and columns 4/C, and DEC is exactly xB and columns 5/D; 16-bit forms name `[BC,DE,HL,SP][op>>4]`, 8-bit forms name `[B,C,D,E,H,L,(HL),A][op>>3 & 7]`, with (HL) in memory mode |
| Instructions.IncDecOnlyLow | src/cpu/instructions.rs:238-442 | no opcode from 0x40 up is INC or DEC |
| Instructions.CbOperand | src/cpu/instructions.rs:452-564 | every CB entry has mode `Register` and reg1 `[B,C,D,E,H,L,HL,A][op & 7]`, because the generic macro arm matches `Hl` first |
| Instructions.CbRotations | src/cpu/instructions.rs:469-516 | CB opcodes below 0x40 are RLC, RRC, RL, RR, SLA, SRA, SWAP, SRL by `op >> 3`, with param 0 |
| Instructions.CbBitOperations | src/cpu/instructions.rs:517-564 | CB opcodes from 0x40 up are BIT/RES/SET for `op >> 6` = 1/2/3, with param `(op >> 3) & 7` |
| Fetch.ReadAfterWrite | src/cpu/fetch.rs:14-53 | `read_reg(r)` after `write_reg(r, v)` is v for BC, DE, HL, SP and PC, `v & 0xFFF0` for AF, and the truncated byte for single registers (F keeps only its high nibble) |
| Fetch.NoRegIsInert | src/cpu/fetch.rs:16-37 | `write_reg(None, v)` changes nothing and `read_reg(None)` is 0 |
| Fetch.WriteRegister | src/cpu/fetch.rs:35-53 | the register file afterwards is the `write_reg` function applied to the one before |
| Fetch.FetchInstruction | src/cpu/fetch.rs:56-62 | `cur_opcode` is the byte at PC, the instruction is that opcode's table entry, PC advances by 1 (wrapping), and nothing else changes |
| Fetch.OrHighPage | src/cpu/fetch.rs:97-151 | `0xFF00 \| a` lies in 0xFF00-0xFFFF and keeps a's low byte |
| Fetch.FetchData | src/cpu/fetch.rs:65-188 | registers and CPU fields afterwards are the operand function of the state before, which is defined mode by mode from the source |
| Fetch.FetchRegister | src/cpu/fetch.rs:75-83 | Implied fetches nothing; Register takes reg1 and RegisterRegister takes reg2 as the operand; PC does not move |
| Fetch.FetchImmediate | src/cpu/fetch.rs:85-155 | the D8, RegisterD8, RegisterA8 and HlSpr forms read the byte at PC and advance PC by 1; D16/RegisterD16 read a little-endian word and advance PC by 2 |
| Fetch.FetchIndirect | src/cpu/fetch.rs:97-178 | MemoryRegister stores reg2 at the address in reg1, and RegisterMemory reads through reg2; C as an address means 0xFF00 \| C. MemoryRegisterD8 stores the byte at PC through reg1, and MemoryRegisterOnly reads and targets the address in reg1 |
| Fetch.FetchStepping | src/cpu/fetch.rs:114-140 | HLI/HLD forms: the old HL is used, then HL steps by ±1 (wrapping) |
| Fetch.FetchAbsolute | src/cpu/fetch.rs:146-186 | A8Register targets `0xFF00 \| mem[pc]`, A16Register stores reg2 at the word at PC, and RegisterA16 reads the byte at that word; PC advances by 1 or 2 |
| Fetch.DestinationFlag | src/cpu/fetch.rs:66-178 | `dest_is_mem` ends true iff the decoded mode is one of the memory-destination modes |
| Fetch.DestinationCleared | src/cpu/fetch.rs:66-67 | when the destination is not memory, `mem_dest` is 0 |
| Fetch.Immediate16 | src/cpu/fetch.rs:90-95 | D16/RegisterD16 fetch `mem[pc] \| mem[pc+1] << 8` and advance PC by 2 |
| Fetch.Immediate8 | src/cpu/fetch.rs:85-88 | the one-byte immediate forms fetch `mem[pc]` and advance PC by 1 |
| Fetch.HlStepping | src/cpu/fetch.rs:114-140 | the HLI forms leave HL one higher and the HLD forms one lower (wrapping); no other register changes |
| Fetch.HighPageDestination | src/cpu/fetch.rs:97-151 | MemoryRegister with reg1 = C, and A8Register, give a memory destination in 0xFF00-0xFFFF |
| Fetch.HighPageOpcodes | src/cpu/instructions.rs:375-441 | LD (C),A (0xE2) and LDH (a8),A (0xE0) use those two modes |
| Alu.Carry | src/cpu/execute.rs:243-256 | a flag as the digit 0 or 1 it contributes to a sum |
| Alu.Signed | src/cpu/execute.rs:309-313 | `as i8`: a value in -128..127 congruent to the byte |
| Alu.SignExtend | src/cpu/execute.rs:138-145 | `as i8 as i16 as Word` keeps the byte as its low byte |
| Alu.SignExtendAdds | src/cpu/execute.rs:309-313 | adding the sign-extended byte to a word, wrapping, adds its signed value modulo 65536 |
| Alu.Adc | src/cpu/execute.rs:243-256 | the ADC result is a byte; Z iff it is 0; N cleared |
| Alu.AdcSum | src/cpu/execute.rs:243-256 | result + 256·C = A + u + carry, and low nibble + 16·H = the sum of the low nibbles plus carry |
| Alu.Sub | src/cpu/execute.rs:258-268 | Z iff the low byte of the difference is 0; N set |
| Alu.SubDifference | src/cpu/execute.rs:258-268 | result − 256·C = A − d and the same on the low nibbles with H, so C iff A < d and H iff the low nibble borrows |
| Alu.SbcAsWritten | src/cpu/execute.rs:270-281 | SBC as written: Z comes from the whole 16-bit wrapped difference, not on the byte written back; N set |
| Alu.Sbc | src/cpu/execute.rs:270-281 | SBC with Z iff the byte written back is 0; N set |
| Alu.SbcZeroFlagAsWritten | src/cpu/execute.rs:270-281 | with A = 0, operand 0xFF and carry set, A becomes 0 but the as-written Z flag is clear; the corrected form sets it |
| Alu.SbcDifference | src/cpu/execute.rs:270-281 | result − 256·C = A − d − carry, and the same on the low nibbles with H |
| Alu.SbcFormsAgree | src/cpu/execute.rs:270-281 | the as-written and corrected SBC agree on the value and on N, H and C; they differ only where the as-written Z is clear |
| Alu.AndOp | src/cpu/execute.rs:284-287 | AND leaves a byte with flags Z = (result == 0), N clear, H set, C clear |
| Alu.XorOp | src/cpu/execute.rs:289-292 | XOR leaves a byte with Z = (result == 0) and N, H, C clear |
| Alu.OrOp | src/cpu/execute.rs:294-297 | OR leaves a byte with Z = (result == 0) and N, H, C clear |
| Alu.AndOpBits | src/cpu/execute.rs:284-287 | each bit of the AND result is the conjunction of the operands' bits |
| Alu.OrOpBits | src/cpu/execute.rs:294-297 | each bit of the OR result is the disjunction of the operands' bits |
| Alu.XorOpBits | src/cpu/execute.rs:289-292 | each bit of the XOR result is set iff the operands' bits differ |
| Alu.XorSelf | src/cpu/execute.rs:289-292 | `XOR A` clears A and sets Z |
| Alu.CpFlags | src/cpu/execute.rs:299-307 | CP always sets N |
| Alu.CpCompares | src/cpu/execute.rs:299-307 | CP sets Z iff A equals the operand and C iff A is below it |
| Alu.CpIsSubFlags | src/cpu/execute.rs:258-307 | for a byte operand CP sets exactly the flags SUB would |
| Alu.AddOp | src/cpu/execute.rs:209-241 | ADD never sets N |
| Alu.AddByteSum | src/cpu/execute.rs:209-241 | 8-bit ADD: result + 256·C = A + d, and Z iff the result byte is 0 |
| Alu.AddWordSum | src/cpu/execute.rs:209-241 | ADD HL,rr: result + 65536·C = HL + d, and Z is kept |
| Alu.AddSpOffset | src/cpu/execute.rs:218-238 | ADD SP,e8 adds the signed byte modulo 65536 and clears Z |
| Alu.RotateInverse | src/cpu/execute.rs:513-524 | RRC undoes RLC and RLC undoes RRC |
| Alu.RotateCarryInverse | src/cpu/execute.rs:525-536 | RR through the carry that RL produced restores both the value and the carry, and conversely |
| Alu.SwapTwice | src/cpu/execute.rs:549-553 | SWAP applied twice is the identity |
| Alu.ShiftLeftDoubles | src/cpu/execute.rs:525-542 | RL and SLA double the value (plus the old carry for RL), with the bit shifted out in C |
| Alu.ShiftRightHalves | src/cpu/execute.rs:543-559 | SRL halves the value with the low bit in C; SRA halves its signed value, rounding down, and shifts out the same bit |
| Alu.DaaAfterAdd | src/cpu/execute.rs:406-428 | for BCD operands, ADD followed by DAA gives the BCD digits of the decimal sum mod 100, with C iff the sum is at least 100 |
| Alu.CplComplements | src/cpu/execute.rs:430-434 | CPL is 0xFF − A, and applying it twice gives A back |
| Execute.FlagsReadBack | src/cpu/registers.rs:156-161 | on the machine, after `set_flags` each flag reads back as given |
| Execute.SetFlagReadBack | src/cpu/registers.rs:108-152 | on the machine, one flag setter sets its flag and keeps the other three |
| Execute.WriteReg8ClearsLowNibble | src/cpu/execute.rs:47-59 | writing F through `write_reg8` leaves `value & 0xF0`: the low nibble is 0, and no other register changes |
| Execute.ReadReg8AfterWrite | src/cpu/execute.rs:32-59 | `read_reg8` after `write_reg8` returns the byte for A-L, other registers keep their values, and a non-8-bit register ignores the write |
| Execute.Push16Layout | src/cpu/execute.rs:586-606 | a 16-bit push moves SP down by 2 (wrapping), stores the high byte at SP + 1 and the low byte at SP, and changes no other byte, register or field |
| Execute.PushPopRoundTrip | src/cpu/execute.rs:586-614 | `stack_pop16` after `stack_push16(v)` returns v and restores SP and every register |
| Execute.StackPush8 | src/cpu/execute.rs:586-589 | SP is decremented (wrapping), then the byte is written at the new SP |
| Execute.StackPop8 | src/cpu/execute.rs:593-597 | the byte at SP is returned, then SP is incremented (wrapping) |
| Execute.StackPush16 | src/cpu/execute.rs:601-606 | the high byte is pushed, then the low byte |
| Execute.StackPop16 | src/cpu/execute.rs:610-614 | the low byte is popped, then the high byte, and they are joined |
| Execute.JumpToIf | src/cpu/execute.rs:575-580 | when the condition holds, PC takes the address and one M-cycle is added; otherwise nothing changes |
| Execute.ProcLd | src/cpu/execute.rs:127-148 | to memory, a byte, or a little-endian word with one more M-cycle, plus one M-cycle. LD HL,SP+e8 clears Z and N, takes H and C from the low nibble and low byte sums, and adds the signed offset. Otherwise the register takes the operand |
| Execute.ProcLdh | src/cpu/execute.rs:150-157 | A is loaded from `0xFF00 \| operand`, or A is stored at the fetched destination; one M-cycle |
| Execute.StepRegister | src/cpu/execute.rs:159-207 | the shared step of INC/DEC: the register stepped by ±1 (wrapping), or the byte at HL for the (HL) form, plus an M-cycle for a 16-bit register |
| Execute.ProcInc | src/cpu/execute.rs:159-182 | the step plus, unless `op & 3 == 3`, Z from the low byte, N cleared, and H iff the low nibble became 0 |
| Execute.ProcDec | src/cpu/execute.rs:184-207 | the step minus, unless `op & 0x0B == 0x0B`, Z from the low byte, N set, and H iff the low nibble became 0xF |
| Execute.ProcAdd | src/cpu/execute.rs:209-241 | the destination takes the ADD result and F takes its flags, with N cleared; a 16-bit destination costs an M-cycle |
| Execute.WriteA | src/cpu/execute.rs:243-297 | A takes a byte result and F its four flags |
| Execute.ProcAdc | src/cpu/execute.rs:243-256 | A and F as ADC computes them, and nothing else changes |
| Execute.ProcSub | src/cpu/execute.rs:258-268 | the register takes the difference and F its flags, with N set |
| Execute.ProcSbc | src/cpu/execute.rs:270-281 | (corrected, see ## Findings) the register takes the difference with borrow and F its flags. Z comes from the byte written back, where the source tests the 16-bit difference |
| Execute.ProcAnd | src/cpu/execute.rs:284-287 | A and F as AND computes them |
| Execute.ProcXor | src/cpu/execute.rs:289-292 | A and F as XOR computes them |
| Execute.ProcOr | src/cpu/execute.rs:294-297 | A and F as OR computes them |
| Execute.ProcCp | src/cpu/execute.rs:299-307 | only F changes, to CP's flags, with N set |
| Execute.ProcJr | src/cpu/execute.rs:309-313 | `jump_to_if` to PC plus the signed operand byte |
| Execute.ProcJp | src/cpu/execute.rs:315-317 | `jump_to_if` to the operand |
| Execute.ProcCall | src/cpu/execute.rs:319-326 | when the condition holds: two M-cycles, PC pushed, PC := operand, one more M-cycle; otherwise nothing changes |
| Execute.ProcRet | src/cpu/execute.rs:328-336 | a conditional RET costs an M-cycle; when the condition holds PC is popped and three M-cycles pass |
| Execute.ProcReti | src/cpu/execute.rs:338-342 | IME is set, PC is popped, and three M-cycles pass |
| Execute.ProcRst | src/cpu/execute.rs:344-349 | two M-cycles, PC pushed, PC := the entry's parameter, one more M-cycle |
| Execute.ProcPop | src/cpu/execute.rs:351-360 | the popped word goes into the pair, two M-cycles pass, and for AF the low nibble of F is cleared |
| Execute.ProcPush | src/cpu/execute.rs:362-366 | the pair is pushed and three M-cycles pass |
| Execute.RotateA | src/cpu/execute.rs:368-394 | RLCA/RRCA/RLA/RRA: A takes the rotated value, Z, N and H are cleared, and C takes the bit shifted out |
| Execute.ProcDaa | src/cpu/execute.rs:406-428 | A is adjusted, Z comes from the new A, H is cleared, C comes from the adjustment, and N is kept |
| Execute.ProcCpl | src/cpu/execute.rs:430-434 | A is complemented, and N and H are set |
| Execute.ProcScf | src/cpu/execute.rs:436-440 | N and H are cleared and C is set |
| Execute.ProcCcf | src/cpu/execute.rs:442-446 | N and H are cleared and C is inverted |
| Execute.WriteCbResult | src/cpu/execute.rs:567-573 | the byte goes to memory at HL for the HL operand and through `write_reg8` otherwise |
| Execute.ProcCb | src/cpu/execute.rs:456-565 | the CB opcode is the operand's low byte; its table entry names the operand and the bit, and the machine afterwards is the CB effect below |
| Execute.CbOnOperand | src/cpu/execute.rs:461-565 | an (HL) operand costs 1 M-cycle for BIT and 2 for the rest. BIT sets flags only, RES/SET write the operand with the bit changed, and the rotations write their result and set F |
| Execute.CbTestBit | src/cpu/execute.rs:486-492 | BIT sets Z iff the bit is clear, clears N and sets H |
| Execute.CbShift | src/cpu/execute.rs:508-565 | the rotation chosen by `(op >> 3) & 7` is written back; Z is set from it, N and H are cleared, and C takes the bit shifted out |
| Execute.ExecuteInstruction | src/cpu/execute.rs:62-121 | (SBC corrected, see ## Findings) with no current instruction nothing changes. An undefined opcode (where the source panics) is reported and changes nothing. Otherwise the machine afterwards is that instruction's handler applied to the machine before |
| Execute.ExecuteLoad | src/cpu/execute.rs:62-114 | LD, LDH, INC and DEC dispatch to their handlers |
| Execute.ExecuteArithmetic | src/cpu/execute.rs:62-114 | ADD, ADC, SUB, SBC, AND, XOR, OR and CP dispatch to their handlers |
| Execute.ExecuteControl | src/cpu/execute.rs:62-114 | JR, JP, CALL, RET, RETI, RST, POP and PUSH dispatch to their handlers |
| Execute.ExecuteAccumulator | src/cpu/execute.rs:62-114 | the accumulator rotates, DAA, CPL, SCF and CCF dispatch to their handlers |
| Execute.ExecuteOther | src/cpu/execute.rs:396-454 | HALT sets `halted`, DI clears IME, EI sets `enabling_ime`; NOP and STOP change nothing |
| Execute.HandleInterrupts | src/cpu/execute.rs:619-646 | the machine afterwards, and whether an interrupt was served, are the dispatch function of the machine before |
| ExecuteLemmas.PushedWord | src/cpu/execute.rs:601-606 | the word at the new SP after a push is the pushed word |
| ExecuteLemmas.InterruptServedIff | src/cpu/execute.rs:619-646 | an interrupt is served iff IME is set and `IF & IE & 0x1F` is nonzero; when none is served nothing changes |
| ExecuteLemmas.InterruptDispatch | src/cpu/execute.rs:619-646 | the served interrupt is requested and enabled, with none of higher priority. IME and `halted` are cleared, exactly its IF bit is cleared, the old PC is pushed, PC is its vector, and no other register or field changes |
| ExecuteLemmas.CallEffect | src/cpu/execute.rs:319-326 | a taken CALL pushes the return address and jumps to the operand; an untaken one changes nothing |
| ExecuteLemmas.CallThenRet | src/cpu/execute.rs:319-336 | an unconditional RET after a taken CALL restores every register, including PC and SP, and every CPU field except the cycle count |
| ExecuteLemmas.PushThenPop | src/cpu/execute.rs:351-366 | PUSH rr then POP rr restores the registers; for AF the low nibble of F is cleared |
| ExecuteLemmas.RstEffect | src/cpu/execute.rs:344-349 | RST 0xC7 + 8k pushes PC and jumps to 8k |
| ExecuteLemmas.JrTarget | src/cpu/execute.rs:309-313 | a taken JR sets PC to `(PC + signed offset) mod 65536` and changes no other register; an untaken one changes nothing |
| ExecuteLemmas.AdcEffect | src/cpu/execute.rs:243-256 | A = (A + u + c) mod 256, with C iff `A + u + c > 0xFF` and H iff the low-nibble sum exceeds 0xF. Z iff A is 0, N is cleared, and nothing but A and F changes |
| ExecuteLemmas.SubEffect | src/cpu/execute.rs:258-268 | SUB A: A = (A − d) mod 256, with C iff A < d and H iff the low nibble borrows. Z iff A is 0, N is set, and nothing but A and F changes |
| ExecuteLemmas.SbcEffect | src/cpu/execute.rs:270-281 | (corrected, see ## Findings) SBC A: A = (A − d − c) mod 256, with C and H the borrows and Z iff the new A is 0 |
| ExecuteLemmas.CpEffect | src/cpu/execute.rs:299-307 | CP leaves A and every other register unchanged, sets Z iff A equals the operand, sets N, and sets C iff A is below the operand; its flags are SUB's flags |
| ExecuteLemmas.LogicBits | src/cpu/execute.rs:284-297 | AND/OR/XOR combine A with the operand bit by bit |
| ExecuteLemmas.LogicFlags | src/cpu/execute.rs:284-297 | AND sets H and clears N and C; OR and XOR clear N, H and C; all three set Z iff A is 0 and change only A and F |
| ExecuteLemmas.AddEffect | src/cpu/execute.rs:209-241 | ADD A: A + 256·C = A + d, with H iff the low nibbles overflow, Z iff A is 0, and N cleared |
| ExecuteLemmas.DaaEffect | src/cpu/execute.rs:406-428 | DAA: A takes the adjusted value, Z iff it is 0, H is cleared, C is the adjustment's carry, and N is kept |
| ExecuteLemmas.AddThenDaaDecimal | src/cpu/execute.rs:406-428 | ADD A followed by DAA on two BCD bytes leaves the BCD digits of the decimal sum mod 100, with C iff the sum is at least 100 |
| ExecuteLemmas.CplEffect | src/cpu/execute.rs:430-434 | A becomes 0xFF − A, N and H are set, Z and C are kept, and CPL twice restores A |
| ExecuteLemmas.CarryFlagEffect | src/cpu/execute.rs:436-446 | SCF sets C, CCF inverts it; both clear N and H, keep Z, and change only F, and CCF twice restores C |
| ExecuteLemmas.IncDecFlagTests | src/cpu/execute.rs:174-200 | over the instruction table, the opcode tests `op & 3 == 3` (INC) and `op & 0x0B == 0x0B` (DEC) hold exactly for the 16-bit register forms |
| ExecuteLemmas.IncByteEffect | src/cpu/execute.rs:159-182 | 8-bit INC (register or (HL)): the operand becomes operand + 1 mod 256, with Z iff 0, N cleared, H iff the low nibble is 0, and C kept |
| ExecuteLemmas.DecByteEffect | src/cpu/execute.rs:184-207 | 8-bit DEC: the operand becomes operand − 1 mod 256, with Z iff 0, N set, H iff the low nibble is 0xF, and C kept |
| ExecuteLemmas.WordStepEffect | src/cpu/execute.rs:159-207 | 16-bit INC/DEC step the pair by ±1 (wrapping) and leave F and memory alone |
| ExecuteLemmas.IncThenDec | src/cpu/execute.rs:159-207 | DEC after INC of the same operand restores every register but F, and memory |
| ExecuteLemmas.IncThenDecRegister | src/cpu/execute.rs:159-207 | DEC r after INC r restores every register but F, and memory |
| ExecuteLemmas.IncThenDecMemory | src/cpu/execute.rs:159-207 | DEC (HL) after INC (HL) restores every register but F, and all of memory |
| ExecuteLemmas.IncThenDecPair | src/cpu/execute.rs:159-207 | DEC rr after INC rr restores every register but F, including across the 16-bit wrap |
| ExecuteLemmas.DaaOfSum | src/cpu/execute.rs:406-428 | after ADD of two packed-decimal bytes, DAA leaves their decimal sum mod 100 in A, sets C iff the sum reaches 100, Z iff A is 0, and clears N and H |
| ExecuteLemmas.CcfFlags | src/cpu/execute.rs:442-446 | CCF inverts C, clears N and H, keeps Z and every other register |
| ExecuteLemmas.RrcBack | src/cpu/execute.rs:513-524 | RRC on an operand undoes an earlier RLC on it |
| ExecuteLemmas.CbBitEffect | src/cpu/execute.rs:486-492 | CB BIT b: Z iff bit b of the operand is clear, N cleared, H set, C kept, and nothing else changes |
| ExecuteLemmas.CbResSetEffect | src/cpu/execute.rs:493-504 | CB RES/SET b change bit b of the operand to 0/1 and leave every other bit, and F, unchanged |
| ExecuteLemmas.CbShiftEffect | src/cpu/execute.rs:508-565 | a CB rotation writes its result to the operand; Z iff the result is 0, N and H are cleared, and C is the bit shifted out |
| ExecuteLemmas.CbRotateBack | src/cpu/execute.rs:513-524 | CB RRC r after CB RLC r gives the operand back |
| ExecuteLemmas.ExecuteOutcome | src/cpu/execute.rs:62-121 | `execute` panics exactly on the `None` entries, which for a decoded opcode are the 11 undefined opcodes; with no current instruction it does nothing |
| ExecuteLemmas.LdWordToMemory | src/cpu/execute.rs:127-136 | LD (a16),SP stores the word little-endian at the destination and changes no other byte or register |
| ExecuteLemmas.LdHlSpOffset | src/cpu/execute.rs:138-145 | LD HL,SP+e8 sets HL to SP plus the signed offset (wrapping) and keeps SP; Z and N are cleared, and H and C are the low-nibble and low-byte carries |
| Cart.TitleOf | src/cart.rs:42-64 | the title is the longest prefix of the title bytes without a 0, and it stops at the first 0 |
| Cart.ParseHeader | src/cart.rs:42-64 | None iff the image is shorter than 0x150 bytes; otherwise the title comes from 0x134..=0x143 and each header field is the byte at its offset |
| Cart.TitleAtMost16 | src/cart.rs:42-64 | the parsed title has at most 16 characters, each a nonzero header byte at its position |
| Cart.ShiftLeft64 | src/cart.rs:67-69 | a shift on a 64-bit `usize` stays below 2^64 |
| Cart.ShiftLeftValue | src/cart.rs:67-69 | while no bit is shifted out, `x << n` is x · 2^n |
| Cart.RomSizes | src/cart.rs:67-69 | for header codes 0-8, `rom_size_bytes` is 32 KiB · 2^code, which is 2 · 2^code banks of 16 KiB |
| Cart.RamSizes | src/cart.rs:72-82 | codes 2-5 give 1, 4, 16 and 8 whole 8 KiB banks; code 1 gives less than one bank; other codes give none |
| Cart.BatteryImpliesRam | src/cart.rs:108-118 | every battery cartridge type has RAM except 0x06 and 0x0F |
| Cart.ChecksumClosedForm | src/cart.rs:242-252 | the fold `x := x - b - 1` over the header bytes equals −(their sum + their count) mod 256 |
| Cart.CalculateChecksum | src/cart.rs:242-252 | 0 for an image shorter than 0x14D; otherwise the loop computes the fold over 0x134..=0x14C |
| Cart.ValidateChecksum | src/cart.rs:228-239 | true iff the image has a whole header and the byte at 0x14D equals the fold |
| Cart.StoredChecksumValidates | src/cart.rs:228-252 | storing the calculated checksum at 0x14D makes validation succeed |
| Cart.RomBankCount | src/cart.rs:145-147 | the number of 16 KiB banks, at least 1, never more than the image holds |
| Cart.RamBankCount | src/cart.rs:150-152 | at least 1 |
| Cart.Mbc1Rom0Bank | src/cart.rs:155-164 | 0 in mode 0; in mode 1 `((ram_bank & 3) << 5) % count`; always a bank below the count |
| Cart.Mbc1RomxInRange | src/cart.rs:166-186 | the MBC1 0x4000-0x7FFF bank is below the bank count, and it is never 0 when there is more than one bank |
| Cart.Mbc1RomxValue | src/cart.rs:166-186 | the bank is the low 5 bits plus, in mode 0, the RAM bank bits at bit 5, with 0 low bits becoming 1, reduced modulo the count, and 0 becoming 1 when the count exceeds 1 |
| Cart.Get | src/cart.rs:255-300 | `get(addr).unwrap_or(0xFF)`: the byte inside the slice, 0xFF past its end |
| Cart.PlainRomxBank | src/cart.rs:268-281 | without MBC1 the 0x4000-0x7FFF bank is below the count and not 0 when the count exceeds 1 |
| Cart.RomAddressInBank | src/cart.rs:255-282 | a ROM read resolves to the selected bank at the address's offset within its 16 KiB window, and the bank is below the count |
| Cart.WriteKeepsRom | src/cart.rs:307-379 | `write` never changes the ROM image, the header or the RAM size |
| Cart.UnmappedReads | src/cart.rs:255-303 | ROM reads past the image and reads outside 0x0000-0x7FFF and 0xA000-0xBFFF return 0xFF |
| Cart.RamGated | src/cart.rs:284-287 | while RAM is disabled or absent, reads of 0xA000-0xBFFF return 0xFF and writes change nothing |
| Cart.RamRoundTrip | src/cart.rs:284-376 | with RAM usable and the offset inside it, a write stores exactly that byte and sets `need_save`, and reading it back returns it |
| Cart.RamWritePastEnd | src/cart.rs:370-373 | a RAM write whose offset is past the RAM changes nothing |
| Cart.RamEnableWrite | src/cart.rs:310-315 | a write to 0x0000-0x1FFF on MBC1/3/5 sets `ram_enabled` iff `(value & 0x0F) == 0x0A`; on other types it changes nothing |
| Cart.RomBankWrite | src/cart.rs:317-336 | a write to 0x2000-0x3FFF stores `value & 0x1F` (MBC1) or `value & 0x7F` (MBC3), with 0 becoming 1, or `value` (MBC5); other types ignore it |
| Cart.RomBankNeverZero | src/cart.rs:317-336 | after such a write on MBC1/MBC3 the bank register is between 1 and 0x1F or 0x7F |
| Cart.BankModeWrites | src/cart.rs:338-353 | 0x4000-0x5FFF stores `value & 3` (MBC1) or `value & 0x0F` (MBC3); 0x6000-0x7FFF stores the MBC1 banking mode `value & 1` |
| Cart.RegionsSeparate | src/cart.rs:307-379 | register writes never touch RAM, and RAM writes never touch the bank registers |
| Cart.LoadedState | src/cart.rs:189-225 | a freshly loaded cartridge has RAM disabled, reads 0xFF from 0xA000-0xBFFF, and needs no save |
| Cart.Cartridge.constructor | src/cart.rs:206-217 | the fields `load` sets: RAM disabled, ROM bank 1, RAM bank 0, mode 0, zeroed RAM of the header's size, and the battery flag from the type |
| Cart.Cartridge.Write | src/cart.rs:307-379 | the cartridge afterwards is `CartWrite` of the cartridge before |
| Cart.Load | src/cart.rs:189-225 | None iff the image is too short for a header; otherwise a fresh cartridge in its loaded state |
| Timer.WriteThenRead | src/timer.rs:65-96 | after a write DIV reads 0, TIMA and TMA read the value, TAC reads the value's low 3 bits, and every other register reads as before |
| Timer.Frequency | src/timer.rs:104-106 | the divider is the table entry picked by TAC's low 2 bits |
| Timer.PositionsCoverTable | src/timer.rs:119-126 | every divider in the table has a DIV bit to check, so the `_ => return` arm is never taken |
| Timer.FallingEdge | src/timer.rs:119-136 | the checked DIV bit falls on an increment iff the new DIV is a multiple of the selected divider |
| Timer.TickEffect | src/timer.rs:109-144 | a tick adds 1 to DIV mod 2^16; if enabled and at the divider boundary TIMA counts, reloading from TMA and requesting the interrupt on overflow; TMA and TAC never change |
| Timer.DisabledTick | src/timer.rs:109-117 | with TAC bit 2 clear only DIV changes |
| Timer.EnabledIsBit2 | src/timer.rs:99-101 | the timer runs iff TAC bit 2 is set |
| Timer.Timer.constructor | src/timer.rs:45-53 | DIV 0xABCC, TIMA, TMA and TAC 0, no interrupt |
| Timer.Timer.Init | src/timer.rs:56-62 | the same boot state |
| Timer.Timer.Write | src/timer.rs:76-96 | the timer afterwards is `WriteNext` of the timer before |
| Timer.Timer.Tick | src/timer.rs:109-144 | the timer afterwards is `TickNext` of the timer before |
| Timer.Timer.ClearInterrupt | src/timer.rs:147-149 | only the interrupt request is cleared |
| Channels.DutyCycles | src/apu/channels.rs:8-13 | the four duty patterns have 8 steps of 0 or 1, with 1, 2, 4 and 6 high steps (12.5%, 25%, 50%, 75%) |
| Channels.LengthClockSpec | src/apu/channels.rs:85-92 | the length counter only decreases, by exactly 1 iff length is enabled and it is positive, and the channel is switched off exactly when it reaches 0 from 1 |
| Channels.EnvelopeClockSpec | src/apu/channels.rs:94-109 | period 0 freezes the envelope; otherwise the volume moves by at most 1 in its direction and stays within 0-15 |
| Channels.TimerClockSpec | src/apu/channels.rs:75-83 | the frequency timer reloads and fires iff it was at most 1, and counts down by 1 otherwise |
| Channels.SquarePeriod | src/apu/channels.rs:80 | the square-wave period `(2048 - f) * 4` lies between 4 and 0x2000 for an 11-bit frequency |
| Channels.FrequencyHalves | src/apu/channels.rs:189-198 | NRx3 replaces the frequency's low 8 bits and NRx4 its high 3 bits, each leaving the other half alone |
| Channels.New1 | src/apu/channels.rs:51-72 | a new channel 1 is disabled, with its DAC off, and satisfies the channel invariant |
| Channels.New2 | src/apu/channels.rs:224-230 | a new channel 2 is disabled, with its DAC off |
| Channels.New3 | src/apu/channels.rs:314-319 | a new channel 3 is disabled, with its DAC off and a zeroed wave table |
| Channels.WavePeriod | src/apu/channels.rs:324 | the wave period `(2048 - f) * 2` lies between 2 and 0x1000 |
| Channels.VolumeShift | src/apu/channels.rs:336-342 | the wave volume code gives a right shift of 4, 0, 1 or 2 |
| Channels.New4 | src/apu/channels.rs:395-402 | a new channel 4 is disabled, with its DAC off and the LFSR at 0x7FFF |
| Channels.TimerPeriodTruncates | src/apu/channels.rs:417-420 | divisor code 0 with clock shift 13 gives `(8 << 13) as u16 == 0`: the period truncates to 0 |
| Channels.TickSteps | src/apu/channels.rs:75-83 | each channel's tick counts its timer down or, at 1 or below, reloads it and advances the duty step (mod 8), the wave position (mod 32) or the LFSR |
| Channels.LfsrStaysShort | src/apu/channels.rs:404-415 | the LFSR step keeps a 15-bit register within 15 bits |
| Channels.LfsrNonZero | src/apu/channels.rs:404-415 | in 15-bit mode a nonzero register never steps to 0 |
| Channels.LfsrFromReset | src/apu/channels.rs:404-415 | from the seed 0x7FFF one step gives 0x3FFF in 15-bit mode and 0x3FBF in 7-bit mode |
| Channels.NoiseTickShifts | src/apu/channels.rs:404-415 | a noise tick at timer 1 from the all-ones seed changes the LFSR |
| Channels.EnvelopeIdle | src/apu/channels.rs:94-109 | an envelope period of 0 leaves channels 1, 2 and 4 unchanged |
| Channels.SweepDirection | src/apu/channels.rs:129-140 | the sweep target is shadow ± shadow >> shift, and a decreasing target stays within 11 bits |
| Channels.SweepOverflow | src/apu/channels.rs:129-140 | a target above 2047 disables the channel; otherwise nothing changes |
| Channels.SweepFrequency | src/apu/channels.rs:111-127 | the sweep changes the frequency only when its timer expires with sweep enabled, a nonzero period and a nonzero shift; the new frequency is the target, within 11 bits, and becomes the shadow; no field but enabled, frequency, shadow and sweep timer changes, and sweep never enables the channel |
| Channels.OutputBounds | src/apu/channels.rs:142-147 | a disabled channel or one with its DAC off outputs 0, and every channel's output is within 0-15 |
| Channels.WaveVolume | src/apu/channels.rs:336-342 | volume code 0 mutes channel 3 and code 1 outputs the wave sample unshifted |
| Channels.DacSwitch | src/apu/channels.rs:182-187 | NRx2 (or NR30 bit 7) with the DAC bits clear turns the DAC off and disables the channel; otherwise the DAC is on and the channel's enabled flag is kept |
| Channels.TriggerReloads | src/apu/channels.rs:149-164 | a trigger enables the channel iff its DAC is on (and, for channel 1, the initial sweep check does not overflow), reloads a 0 length counter to 64 or 256, reloads volume and envelope timer, resets the wave position and seeds the LFSR with 0x7FFF |
| Channels.Channel1Invariant | src/apu/channels.rs:75-127 | ticks, length, envelope and sweep clocks keep channel 1's fields in range |
| Channels.Channel1WriteInvariant | src/apu/channels.rs:149-200 | triggering and register writes keep channel 1's fields in range |
| Channels.Channel2Invariant | src/apu/channels.rs:232-295 | ticks, clocks, triggers and register writes keep channel 2's fields in range |
| Channels.Channel3Invariant | src/apu/channels.rs:321-367 | ticks, length clocks, triggers, register and wave RAM writes keep channel 3's fields in range |
| Channels.Channel4Invariant | src/apu/channels.rs:404-480 | ticks, clocks, triggers and register writes keep channel 4's fields in range |
| Channels.Registers1 | src/apu/channels.rs:166-200 | NR10 reads back with bit 7 set, NR11 shows only the duty, NR11 loads `64 - (value & 0x3F)`, NR12 reads back unchanged, NR13 sets the frequency's low byte, and NR14 shows only the length enable |
| Channels.Registers2 | src/apu/channels.rs:270-295 | the same register behaviour for channel 2 |
| Channels.Registers3 | src/apu/channels.rs:351-367 | NR30 shows the DAC bit, NR31 loads `256 - value`, NR32 shows the volume code, NR33 sets the low frequency byte, NR34 shows the length enable, and wave RAM reads back what was written |
| Channels.Registers4 | src/apu/channels.rs:453-480 | NR41 loads `64 - (value & 0x3F)`, NR42 and NR43 read back unchanged, and NR44 shows the length enable |
| Apu.ResetVoices | src/apu/mod.rs:81-85 | four freshly created channels: in range and all disabled |
| Apu.PowerOnState | src/apu/mod.rs:62-78 | a new APU is on, with NR50 0x77, NR51 0xF3, NR52 reading 0xF0, and an empty audio buffer |
| Apu.PowerOnStatus | src/apu/mod.rs:243-250 | with NR52 0xF1 and fresh channels, NR52 reads 0xF0 |
| Apu.InitState | src/apu/mod.rs:81-94 | `init` gives the power-on state, keeping the buffer's contents, and leaves no samples to hand out |
| Apu.TickDisabled | src/apu/mod.rs:97-100 | a tick of a disabled APU changes nothing |
| Apu.SequencerSchedule | src/apu/mod.rs:124-166 | steps 0, 2, 4 and 6 clock every length counter; steps 2 and 6 also clock channel 1's sweep; step 7 clocks the envelopes of channels 1, 2 and 4; steps 1, 3 and 5 change nothing |
| Apu.SequencerValid | src/apu/mod.rs:124-166 | a sequencer step keeps every channel's fields in range |
| Apu.ChannelsTickValid | src/apu/mod.rs:110-113 | ticking the four channels keeps their fields in range |
| Apu.SampleAppends | src/apu/mod.rs:169-210 | generating a sample appends the mixed left and right values to the buffered audio when two slots are free, and otherwise leaves it unchanged |
| Apu.SampleValid | src/apu/mod.rs:169-210 | sample generation touches only the buffer and its position and keeps the state in range |
| Apu.PushValid | src/apu/mod.rs:205-209 | storing a stereo pair touches only the buffer and its position and keeps the state in range |
| Apu.GenerateKeepsTimer | src/apu/mod.rs:169-210 | sample generation does not read or change the sample timer |
| Apu.SequencerPhaseSpec | src/apu/mod.rs:102-107 | the sequencer timer counts to 8192 and wraps; on wrapping the step advances mod 8 and the channels are clocked for the old step; nothing else changes |
| Apu.SamplePhaseSpec | src/apu/mod.rs:116-120 | the sample timer advances by 44100 modulo the 4194304 Hz clock, and a sample is generated exactly when it wraps |
| Apu.TickTimers | src/apu/mod.rs:97-121 | an enabled tick advances both timers as above, buffers no sample unless the sample timer wraps, and keeps the master registers and the enable flag |
| Apu.MixRange | src/apu/mod.rs:169-203 | each mixed sample is a multiple of 256 between 0 and 30720, so the clamp to i16 never applies |
| Apu.ScaleRange | src/apu/mod.rs:195-203 | a panned sum of at most 60, times a volume of 1-8, divided by 4 and times 256, lies in 0-30720 |
| Apu.MixSilence | src/apu/mod.rs:183-203 | NR51 0 or all channels off gives silence on both sides |
| Apu.MixBalanced | src/apu/mod.rs:183-203 | symmetric panning and equal master volumes give equal left and right samples |
| Apu.StatusBits | src/apu/mod.rs:243-250 | NR52 reads bits 4-6 as 1, bit 7 from the stored power bit, and bits 0-3 as the four channels' enabled flags |
| Apu.WritesWhileOff | src/apu/mod.rs:262-266 | while the APU is off, writes other than NR52 and wave RAM change nothing, and wave RAM still reads back what was written |
| Apu.PowerSwitch | src/apu/mod.rs:296-310 | turning the APU off resets the channels and NR50/NR51 and makes NR52 read 0x70; turning it on only sets the power bit; writing 0 while off only clears NR52 |
| Apu.WriteValid | src/apu/mod.rs:262-312 | a register write keeps the state in range and touches only the channels and the master registers |
| Apu.MasterReadBack | src/apu/mod.rs:238-241 | with the APU on, NR50, NR51 and wave RAM read back what was written |
| Apu.Apu.constructor | src/apu/mod.rs:62-78 | the power-on state with a fresh 4096-sample buffer |
| Apu.Apu.Init | src/apu/mod.rs:81-94 | the APU afterwards is `InitNext` of the APU before |
| Apu.Apu.Tick | src/apu/mod.rs:97-121 | the APU afterwards is `TickNext` of the APU before |
| Apu.Apu.ClockFrameSequencer | src/apu/mod.rs:102-107 | the APU afterwards is `SequencerPhase` of the APU before |
| Apu.Apu.ClockSample | src/apu/mod.rs:116-120 | the APU afterwards is `SamplePhase` of the APU before |
| Apu.Apu.TickFrameSequencer | src/apu/mod.rs:124-166 | the APU afterwards is `SequencerNext` of the APU before |
| Apu.Apu.GenerateSample | src/apu/mod.rs:169-210 | the APU afterwards is `GenerateNext` of the APU before |
| Apu.Apu.GetAudioBuffer | src/apu/mod.rs:213-217 | returns exactly the buffered samples and resets the position to 0 |
| Apu.Apu.Write | src/apu/mod.rs:262-312 | the APU afterwards is `WriteNext` of the APU before |
| Lcd.ModeValue | src/lcd.rs:22-27 | the numeric mode is 0-3 |
| Lcd.LcdcBits | src/lcd.rs:157-199 | each LCDC accessor reads its documented bit: 7 enable, 6 window map, 5 window, 4 tile data, 3 background map, 2 sprite height, 1 sprites, 0 background |
| Lcd.StatWrite | src/lcd.rs:134-137 | a STAT write keeps bits 0-2 (mode and LYC flag) and takes bits 3-7 from the value; the mode and every other register are unchanged |
| Lcd.StatRead | src/lcd.rs:116 | STAT reads with bit 7 set and bits 0-6 as stored |
| Lcd.LyWriteIgnored | src/lcd.rs:140 | writing LY changes nothing |
| Lcd.WriteThenRead | src/lcd.rs:113-155 | LCDC, SCY, SCX, LYC, the palettes, WY and WX read back what was written, and a write leaves every other register's reading alone, except that an LYC write can update STAT |
| Lcd.CheckLycEffect | src/lcd.rs:261-268 | the LYC flag becomes LY == LYC, no other STAT bit changes, and the STAT interrupt is raised when they match and the LYC interrupt is enabled |
| Lcd.SetLyFlag | src/lcd.rs:246-249 | `set_ly` stores LY and sets the LYC flag iff it equals LYC, keeping the mode |
| Lcd.IncLyWraps | src/lcd.rs:252-258 | LY advances by 1 and wraps to 0 after 153; the state stays in range, the LYC flag is refreshed and the mode is kept |
| Lcd.LycWriteFlag | src/lcd.rs:142-145 | an LYC write stores it and sets the LYC flag iff LY equals it |
| Lcd.SetModeEffect | src/lcd.rs:208-211 | `set_mode` stores the mode in STAT bits 0-1, keeps bits 2-7, and raises the STAT interrupt iff that mode's interrupt enable is set |
| Lcd.TransferNoInterrupt | src/lcd.rs:271-282 | entering pixel transfer never raises a STAT interrupt |
| Lcd.Shade | src/lcd.rs:292-304 | a shade is 0-3 |
| Lcd.ShadeValue | src/lcd.rs:292-304 | the shade of colour id is the palette's 2-bit field number id |
| Lcd.ShadesOfPalette | src/lcd.rs:292-304 | the four shades are the palette's four 2-bit fields, and together they rebuild the palette |
| Lcd.IdentityPalette | src/lcd.rs:385-393 | every colour id maps to itself iff the palette is 0xE4 |
| Lcd.Lcd.constructor | src/lcd.rs:79-94 | LCDC 0x91, STAT 0x02, BGP 0xFC, OBP0 and OBP1 0xFF, everything else 0 and no interrupt |
| Lcd.Lcd.Init | src/lcd.rs:97-110 | the same power-on state |
| Lcd.Lcd.Write | src/lcd.rs:131-155 | the LCD afterwards is `WriteNext` of the LCD before |
| Lcd.Lcd.SetMode | src/lcd.rs:208-211 | the LCD afterwards is `SetModeNext` of the LCD before |
| Lcd.Lcd.SetLy | src/lcd.rs:246-249 | the LCD afterwards is `SetLyNext` of the LCD before |
| Lcd.Lcd.IncLy | src/lcd.rs:252-258 | the LCD afterwards is `IncLyNext` of the LCD before |
| Lcd.Lcd.CheckLycStep | src/lcd.rs:261-268 | the LCD afterwards is `CheckLyc` of the LCD before |
| Lcd.Lcd.ClearStatInterrupt | src/lcd.rs:285-287 | only the STAT interrupt request is cleared |
| Ppu.AddU32 | src/ppu/mod.rs:178 | a counter increment is exact while it fits in 32 bits |
| Ppu.FlagBits | src/ppu/mod.rs:34-62 | the sprite attribute accessors read flag bits 3-7, and the CGB palette is the low 3 bits |
| Ppu.EntryAt | src/ppu/mod.rs:159-170 | entry i < 40 is the four OAM bytes at 4·i (Y, X, tile, flags); any other index gives the all-zero entry |
| Ppu.Candidates | src/ppu/mod.rs:247-260 | the sprites found among the first n entries all cover the line, and there are at most n of them |
| Ppu.FirstTen | src/ppu/mod.rs:247-250 | the scan keeps at most ten sprites: the whole list when it is short, otherwise its first ten |
| Ppu.CandidatesGrow | src/ppu/mod.rs:247-260 | scanning further only appends to the sprites already found |
| Ppu.FirstTenSettled | src/ppu/mod.rs:247-250 | once ten sprites are found, scanning further does not change the selection, so the early `break` is harmless |
| Ppu.InsertByX | src/ppu/mod.rs:264 | inserting into the sorted list adds exactly that entry |
| Ppu.SortByX | src/ppu/mod.rs:264 | sorting keeps exactly the same entries (a permutation) |
| Ppu.InsertSorted | src/ppu/mod.rs:264 | insertion keeps the list sorted by X |
| Ppu.SortSorted | src/ppu/mod.rs:264 | the result of sorting is ordered by X |
| Ppu.WithXNone | src/ppu/mod.rs:264 | a list without X value x has no entries with it |
| Ppu.WithXSnoc | src/ppu/mod.rs:264 | the entries with one X value in a list extended by one entry are the earlier ones plus that entry when it matches |
| Ppu.WithXInsert | src/ppu/mod.rs:264 | insertion places a new entry after every earlier entry with the same X |
| Ppu.SortStable | src/ppu/mod.rs:262-264 | sorting is stable: entries with the same X stay in OAM order |
| Ppu.LineSpritesSpec | src/ppu/mod.rs:239-265 | the line's sprites are at most ten, a permutation of the first ten covering entries, all covering LY for the current sprite height, sorted by X, and in OAM order among equal X |
| Ppu.PlaneBit | src/ppu/mod.rs:362-363 | one bit plane's bit is 0 or 1 |
| Ppu.ColorId | src/ppu/mod.rs:362-363 | a colour id is 0-3 |
| Ppu.ColorIdBits | src/ppu/mod.rs:362-363 | the colour id's high bit is the high plane's bit, its low bit the low plane's, and it is 0 iff both bits are clear |
| Ppu.TileAddressing | src/ppu/mod.rs:351-360 | unsigned addressing puts tile i at 0x8000 + 16·i; signed addressing puts tiles 0-127 at 0x9000 + 16·i and 128-255 at 0x8800 + 16·(i − 128); every tile lies inside VRAM |
| Ppu.MapCell | src/ppu/mod.rs:345-349 | the map cell lies inside the chosen 1 KiB tile map |
| Ppu.TilePixel | src/ppu/mod.rs:341-374 | a tile pixel is a shade 0-3 |
| Ppu.TileRowInVram | src/ppu/mod.rs:364-367 | a tile row's two bytes are always inside VRAM, so the `return 0` guard is never taken |
| Ppu.BgPixel | src/ppu/mod.rs:312-320 | a background pixel is a shade 0-3 |
| Ppu.WindowPixel | src/ppu/mod.rs:323-338 | a window pixel exists iff WX ≤ 166, WY ≤ the line and x ≥ WX − 7; when it exists it is a shade 0-3 |
| Ppu.SpriteColorId | src/ppu/mod.rs:377-436 | a sprite's colour id at a pixel, when it has one, is 0-3 |
| Ppu.SpriteShade | src/ppu/mod.rs:424-429 | a sprite shade from OBP0 or OBP1 is 0-3 |
| Ppu.SpritePixel | src/ppu/mod.rs:377-436 | a sprite pixel, when present, is a shade 0-3 |
| Ppu.SpritePixelFirst | src/ppu/mod.rs:377-436 | no sprite pixel iff no sprite on the line is opaque there; otherwise it comes from the first opaque sprite in line order |
| Ppu.BackgroundShade | src/ppu/mod.rs:277-288 | the background or window shade is 0-3 |
| Ppu.BackgroundLayers | src/ppu/mod.rs:277-288 | with LCDC bit 0 clear the background is 0; with the window on and visible at the pixel it is the window's shade; otherwise it is the background's shade |
| Ppu.PixelShade | src/ppu/mod.rs:274-300 | a composed pixel is a shade 0-3 |
| Ppu.SpriteLayer | src/ppu/mod.rs:290-300 | without sprites or an opaque sprite the pixel is the background; otherwise the first opaque sprite shows unless its priority bit is set and the background is not colour 0 |
| Ppu.ArgbShades | src/ppu/mod.rs:439-448 | the ARGB colour depends on the shade's low 2 bits only, the four shades give four different colours, and shades 0 and 3 are the lightest and darkest greens |
| Ppu.Rendered | src/ppu/mod.rs:267-309 | rendering keeps the frame buffer's size |
| Ppu.RenderedRow | src/ppu/mod.rs:267-304 | rendering sets pixel x of row LY to the ARGB of the composed shade, leaves the other rows alone, and does nothing when LY is 144 or more |
| Ppu.VramRead | src/ppu/mod.rs:123-130 | inside 0x8000-0x9FFF the byte at the offset, outside it 0xFF |
| Ppu.OamRead | src/ppu/mod.rs:141-148 | inside 0xFE00-0xFE9F the byte at the offset, outside it 0xFF |
| Ppu.VramRoundTrip | src/ppu/mod.rs:123-138 | a VRAM read after a write returns the written byte at that address and the old byte elsewhere |
| Ppu.OamRoundTrip | src/ppu/mod.rs:141-156 | an OAM read after a write returns the written byte at that address and the old byte elsewhere |
| Ppu.PowerOnPhased | src/ppu/mod.rs:95-107 | a new PPU with the LCD at power-on satisfies the timing invariant |
| Ppu.TickDisabled | src/ppu/mod.rs:173-176 | with the LCD off a tick changes nothing |
| Ppu.TickOamScan | src/ppu/mod.rs:189-195 | during OAM scan a tick only counts the dot, until dot 80 selects the line's sprites and enters transfer |
| Ppu.TickTransfer | src/ppu/mod.rs:198-205 | during transfer a tick only counts the dot, until dot 252 renders the line, advances the window line counter and enters HBlank |
| Ppu.TickHBlank | src/ppu/mod.rs:208-222 | at dot 456 HBlank moves to the next line: line 144 enters VBlank, requests its interrupt and counts a frame; other lines return to OAM scan |
| Ppu.TickVBlank | src/ppu/mod.rs:225-236 | (corrected, see ## Findings) each VBlank line lasts 456 dots, and after line 153 the frame restarts at line 0 in OAM scan with the window line cleared |
| Ppu.TickPhased | src/ppu/mod.rs:173-236 | (corrected, see ## Findings) every tick keeps the timing invariant: the mode's dot bound, VBlank exactly on lines 144-153, at most ten sprites |
| Ppu.VBlankAsWrittenNeverEnds | src/ppu/mod.rs:225-236 | `mode_vblank` as written never changes the mode |
| Ppu.VBlankAsWrittenLosesFrame | src/ppu/mod.rs:225-236 | as written, the end of line 153 wraps LY to 0 while staying in VBlank, which breaks the timing invariant |
| Ppu.Ppu.constructor | src/ppu/mod.rs:95-107 | zeroed VRAM, OAM and frame buffer, all counters 0, no sprites |
| Ppu.Ppu.Init | src/ppu/mod.rs:110-120 | the same cleared state |
| Ppu.Ppu.VramWrite | src/ppu/mod.rs:133-138 | VRAM afterwards is the old VRAM with the byte stored when the address is inside it |
| Ppu.Ppu.OamWrite | src/ppu/mod.rs:151-156 | OAM afterwards is the old OAM with the byte stored when the address is inside it |
| Ppu.Ppu.ScanOam | src/ppu/mod.rs:239-265 | the loop leaves `LineSprites` of OAM and its count, changing nothing else |
| Ppu.Ppu.RenderScanline | src/ppu/mod.rs:267-309 | the loop leaves `Rendered` of the old frame buffer and advances the window line counter |
| Ppu.Ppu.PixelColor | src/ppu/mod.rs:274-300 | the composed shade of one pixel |
| Ppu.Ppu.Tick | src/ppu/mod.rs:173-186 | (VBlank corrected, see ## Findings) the PPU and LCD afterwards are `TickNext` of them before |
| Ppu.Ppu.ModeOamScan | src/ppu/mod.rs:189-195 | the PPU and LCD afterwards are `OamScanStep` of them before |
| Ppu.Ppu.ModeTransfer | src/ppu/mod.rs:198-205 | the PPU and LCD afterwards are `TransferStep` of them before |
| Ppu.Ppu.ModeHBlank | src/ppu/mod.rs:208-222 | the PPU and LCD afterwards are `HBlankStep` of them before |
| Ppu.Ppu.ModeVBlank | src/ppu/mod.rs:225-236 | (corrected, see ## Findings) the PPU and LCD afterwards are `VBlankStep` of them before |
| Ppu.Ppu.ClearVBlankInterrupt | src/ppu/mod.rs:451-453 | only the VBlank interrupt request is cleared |
| Bus.WriteNext | src/bus.rs:168-220 | a write keeps every memory region at its size |
| Bus.WriteWordNext | src/bus.rs:23-27 | a 16-bit write keeps every memory region at its size |
| Bus.ReadAfterWrite | src/bus.rs:110-220 | a write to RAM, VRAM, I/O, IE or OAM outside DMA reads back; OAM during DMA and the unusable area read 0xFF; IF reads back with bits 5-7 set; cartridge addresses read back whatever the cartridge makes of the write |
| Bus.WriteSeparation | src/bus.rs:110-220 | a write to one location leaves every other location's reading unchanged, except between two cartridge addresses (banking) |
| Bus.EchoMirror | src/bus.rs:134-137 | 0xE000-0xFDFF reads and writes WRAM 0x2000 lower |
| Bus.DmaBlocksOam | src/bus.rs:139-145 | during DMA, OAM reads 0xFF and writes are ignored |
| Bus.UnusableArea | src/bus.rs:147 | 0xFEA0-0xFEFF reads 0xFF and ignores writes |
| Bus.NoCartridge | src/bus.rs:112-130 | without a cartridge, ROM and external RAM read 0xFF and ignore writes |
| Bus.InterruptRegisters | src/bus.rs:149-162 | a write to 0xFF0F stores IF, which reads back its low 5 bits with bits 5-7 set; a write to 0xFFFF stores IE, which reads back unchanged |
| Bus.WriteFrame | src/bus.rs:168-220 | a write changes only the region its address belongs to, and never the DMA flag |
| Bus.WordRoundTrip | src/bus.rs:17-27 | a 16-bit write puts the low byte at a and the high byte at a+1, and a 16-bit read returns the word |
| Bus.Bus.constructor | src/bus.rs:73-84 | zeroed memories, IE and IF 0, no cartridge, DMA inactive |
| Bus.Bus.LoadCartridge | src/bus.rs:87-89 | only the cartridge slot changes, now holding the cartridge |
| Bus.Bus.SetDmaActive | src/bus.rs:92-94 | only the DMA flag changes |
| Bus.Bus.Read | src/bus.rs:110-165 | the byte the memory map gives for the address (`ReadOf`) |
| Bus.Bus.Write | src/bus.rs:168-220 | the bus afterwards is `WriteNext` of the bus before, with the same cartridge object |
| Bus.Bus.Read16 | src/bus.rs:17-21 | the little-endian word at a and a+1 |
| Bus.Bus.Write16 | src/bus.rs:23-27 | the bus afterwards is `WriteWordNext` of the bus before |
| Dma.Started | src/dma.rs:49-54 | a started transfer is active, at byte 0, with a 2-cycle delay and the written page |
| Dma.SourceAddress | src/dma.rs:57-59 | the source is page `value`, offset `byte` |
| Dma.DestAddress | src/dma.rs:62-64 | the destination is 0xFE00 + `byte`, inside OAM while fewer than 160 bytes are copied |
| Dma.TickKeepsValid | src/dma.rs:69-92 | a tick keeps the state in range and the page; it yields a copy iff the transfer is active and past its delay |
| Dma.Run | src/dma.rs:69-92 | n ticks yield n results and keep the state in range |
| Dma.Transfers | src/dma.rs:69-92 | from byte b past the delay, 160 − b ticks copy source page·0x100 + i to 0xFE00 + i for each remaining i, in order, and then the transfer is inactive |
| Dma.StartSequence | src/dma.rs:147-181 | after `start`, 2 idle ticks are followed by exactly 160 copies of the page into OAM, and the next tick copies nothing |
| Dma.Dma.constructor | src/dma.rs:29-36 | idle: inactive, all fields 0 |
| Dma.Dma.Init | src/dma.rs:39-44 | idle again |
| Dma.Dma.Start | src/dma.rs:49-54 | the DMA afterwards is `Started` with the written page |
| Dma.Dma.Tick | src/dma.rs:69-92 | the DMA afterwards and the returned copy are `TickNext` of the DMA before |
| Gamepad.WithKeyHeld | src/gamepad.rs:116-128 | setting one button's state changes that button only |
| Gamepad.Line | src/gamepad.rs:90-103 | each button sits on one of the four low JOYP lines |
| Gamepad.ActionOn | src/gamepad.rs:90-95 | the action button on line n: not a direction, and on that line |
| Gamepad.DirectionOn | src/gamepad.rs:98-103 | the direction on line n: a direction, and on that line |
| Gamepad.KeyOnLine | src/gamepad.rs:90-103 | every button is the action or direction button of its own line |
| Gamepad.JoypBitsRead | src/gamepad.rs:84-107 | JOYP reads bits 6-7 as 1, bits 4-5 as the selection, and line n low iff a held button on that line is in a selected group |
| Gamepad.KeyReadsLow | src/gamepad.rs:84-107 | a held, selected button pulls its line low, and a low line has such a button |
| Gamepad.NothingSelected | src/gamepad.rs:169-174 | with neither group selected JOYP reads 0xFF, whatever is held |
| Gamepad.Selection | src/gamepad.rs:111-113 | a JOYP write keeps only bits 4 and 5 of the value |
| Gamepad.SelectionBits | src/gamepad.rs:111-113 | `value & 0x30` has exactly the value's bits 4 and 5 |
| Gamepad.InterruptOnPress | src/gamepad.rs:116-134 | the joypad interrupt is requested iff it already was or the button goes from released to pressed; the selection is kept |
| Gamepad.NoInterruptWithoutEdge | src/gamepad.rs:116-134 | holding a held button or releasing one requests no interrupt |
| Gamepad.Gamepad.constructor | src/gamepad.rs:54-67 | nothing held, selection 0x30, no interrupt |
| Gamepad.Gamepad.Init | src/gamepad.rs:70-81 | the same power-on state |
| Gamepad.Gamepad.Read | src/gamepad.rs:84-107 | the clearing steps on 0xCF compute `Joyp` of the selection and the keys |
| Gamepad.Gamepad.Write | src/gamepad.rs:111-113 | only the selection changes, to `Selection(value)` |
| Gamepad.Gamepad.SetButton | src/gamepad.rs:116-134 | the gamepad afterwards is `SetButtonNext` of the gamepad before |
| Gamepad.Gamepad.ClearInterrupt | src/gamepad.rs:151-153 | only the interrupt request is cleared |

## Left out

- src/emu.rs is not part of this model: it is the glue that wires the components together, copies registers between the bus and the devices, and runs the frame loop.
- src/main.rs (command-line handling and process exit) and src/lib.rs (module declarations) are not part of this model.
- src/ui.rs, src/interrupts.rs, src/ppu/modes.rs and src/ppu/pipeline.rs hold no code and have nothing to model.
- Cart.Load: the file read, the `filename` field and the checksum warning printed on a bad checksum are left out. The image arrives as a byte sequence. `load_battery_save`, `save_battery`, `save_path` and the `Drop` implementation are file I/O and are not modelled. `need_save` is modelled as the flag those functions would consult.
- Bus: `save_battery` only forwards to the cartridge's file I/O and is left out.
- Cart.RomSizeBytes: shift amounts of 64 or more are taken modulo 64, as a release build does. A debug build would panic there instead.
- Cart.CartTypeName and the `Debug`/`Display` implementations are formatting only. No property is stated about them.
- Handing the frame buffer and the audio samples to a display or audio device is host I/O. The model keeps only the buffer contents and positions (`Ppu.Ppu.videoBuffer`, `Apu.Apu.GetAudioBuffer`).
- Execute: the CPU handlers read and write a caller-supplied 64 KiB memory image (`Common.Memory`) rather than the bus through `&mut dyn MemoryBus`. The bus's address routing is modelled on its own in `Bus`. The model does not compose the CPU with the bus, which is emu.rs's job.
- Execute.ExecuteInstruction: the panic in `proc_none` for an undefined opcode is modelled as an error result that leaves the machine unchanged.
- Execute: HALT only sets the halted flag, and STOP does nothing, as in the source. The hardware HALT bug is not modelled because the source does not implement it.
- Channels: the four channels are values with pure transition functions. The `Apu.Apu` class holds them in one field and replaces them in place. The channels' own in-place field updates are therefore captured as whole-value replacement.
- Gamepad.Gamepad: the eight button booleans are one `keys` field holding a `Keys` value, not eight separate fields. `IsPressed` reads the same information.
- Timer.TickNext: the model follows the code. TIMA counts on a falling edge of the selected DIV bit and reloads from TMA on the same tick. The one-cycle reload delay of the hardware is not modelled, because the source does not have it.
- Ppu.AddU32: `line_ticks` and `current_frame` are `u32` counters incremented with `+=`. The model wraps them modulo 2^32, as a release build does, and its contract states only the non-wrapping case. A debug build would panic on overflow.
- Dma.Dma.Tick: it requires `byte < 0xFF` while a transfer is copying, because the source's `u8` increment would overflow otherwise. Every reachable state satisfies this, since `Valid` keeps `byte` at most 160.
- Common.Bit, Common.BitSet and Lcd.Shade: these require the bit index or colour id to be in range. The source's `1 << n` and `>> (id * 2)` on a `u8` would panic for larger values.
- Dma: `write` only calls `start` and is covered by `Dma.Dma.Start`. `is_transferring` and `read` are one-line accessors and are modelled as `IsTransferring` and `Read` without a separate contract.
- Execute.ProcSbc, Execute.ExecuteInstruction, ExecuteLemmas.SbcEffect: the machine uses the corrected SBC, which sets Z iff the byte written to A is 0. `proc_sbc` as written tests the 16-bit difference instead, so with A = 0, operand 0xFF and carry set it leaves Z clear. That behaviour is modelled only by `Alu.SbcAsWritten` and `Alu.SbcZeroFlagAsWritten` (first row of "## Findings"). These members do not promise the source's Z flag for SBC.
- Ppu.Ppu.ModeVBlank, Ppu.Ppu.Tick, Ppu.TickVBlank, Ppu.TickPhased: the machine uses the intended restart, in which the frame starts again at line 0 in OAM scan after line 153. `mode_vblank` as written wraps LY to 0 and stays in VBlank for ever. That behaviour is modelled only by `Ppu.VBlankStepAsWritten`, `Ppu.VBlankAsWrittenNeverEnds` and `Ppu.VBlankAsWrittenLosesFrame` (second row of "## Findings"). These members do not promise the source's behaviour at the end of a frame, and the timing invariant of `Ppu.TickPhased` does not hold for the code as written.
- Bus.Bus.Read and Bus.Bus.Write: the cartridge is shared with the bus by reference. Its ROM image is a value, and its RAM is an array that the bus's frame names.

## Findings

| source | as written | input that shows it | evidently intended | confidence | as-written member | corrected member |
|---|---|---|---|---|---|---|
| src/cpu/execute.rs:270-281 | SBC computes Z from the 16-bit `reg_val.wrapping_sub(fetched_data + c)`, but A receives only the low 8 bits of that difference | A = 0x00, operand 0xFF, carry set: A becomes 0x00 but Z is cleared | Z is set iff the 8-bit result written to A is 0 | not executed | Alu.SbcAsWritten, Alu.SbcZeroFlagAsWritten | Alu.Sbc, Alu.SbcDifference, Alu.SbcFormsAgree |
| src/ppu/mod.rs:225-236 | `mode_vblank` calls `inc_ly`, which already wraps LY from 153 to 0 (src/lcd.rs:252-258), and only then checks `ly >= 154`, which can never hold | LY = 153 in VBlank at dot 456: LY becomes 0 and the PPU stays in VBlank, so the next frame is never drawn | after line 153, the frame restarts at line 0 in OAM scan with the window line counter cleared | not executed | Ppu.VBlankStepAsWritten, Ppu.VBlankAsWrittenNeverEnds, Ppu.VBlankAsWrittenLosesFrame | Ppu.VBlankStep, Ppu.TickVBlank, Ppu.TickPhased |
