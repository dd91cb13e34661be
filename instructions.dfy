/**
 * The instruction tables: the 256-entry main opcode table and the
 * 256-entry table of CB-prefixed opcodes, with the operand kinds each entry
 * names. InstructionType::None is written `InvalidOp`, RegisterType::None
 * `NoReg` and ConditionType::None `Always`.
 */
module Instructions {
  import opened Common

  datatype InstructionType =
    | InvalidOp | Nop | Ld | Inc | Dec | Rlca | Add | Rrca | Stop | Rla | Jr | Rra
    | Daa | Cpl | Scf | Ccf | Halt | Adc | Sub | Sbc | And | Xor | Or | Cp | Pop
    | Jp | Push | Ret | Cb | Call | Reti | Ldh | Di | Ei | Rst
    | Rlc | Rrc | Rl | Rr | Sla | Sra | Swap | Srl | Bit | Res | Set

  datatype AddressingMode =
    | Implied | Register | RegisterRegister | MemoryRegister | RegisterMemory
    | RegisterD8 | RegisterD16 | RegisterA8 | RegisterA16 | A8Register | A16Register
    | MemoryRegisterD8 | HliRegister | HldRegister | RegisterHli | RegisterHld
    | HlSpr | D8 | D16 | MemoryRegisterOnly

  datatype RegisterType = NoReg | A | F | B | C | D | E | H | L | Af | Bc | De | Hl | Sp | Pc

  datatype ConditionType = Always | Nz | Z | Nc | C

  /** One decoded table entry (`Instruction` in the source). */
  datatype Instruction = Instruction(instType: InstructionType, mode: AddressingMode,
                                     reg1: RegisterType, reg2: RegisterType,
                                     cond: ConditionType, param: Byte)

  /** `Instruction::new()`: the all-default entry. */
  const DefaultInstruction := Instruction(InvalidOp, Implied, NoReg, NoReg, Always, 0)

  /** The 16-bit registers (`is_16bit_reg`). */
  predicate Is16Bit(r: RegisterType)
  {
    r in {Af, Bc, De, Hl, Sp, Pc}
  }

  /**
   * The operand order B, C, D, E, H, L, (HL), A that the low three bits of an
   * opcode select; in the CB table (HL) is spelled `Hl`.
   */
  function OperandOf(k: Byte): RegisterType
  {
    if k % 8 == 0 then B else if k % 8 == 1 then RegisterType.C else if k % 8 == 2 then D
    else if k % 8 == 3 then E else if k % 8 == 4 then H else if k % 8 == 5 then L
    else if k % 8 == 6 then Hl else A
  }

  /** Main table, opcodes 0x00-0x0F. */
  function MainRow0(col: Byte): Instruction
    requires col < 16
  {
    if col == 0x0 then Instruction(Nop, Implied, NoReg, NoReg, ConditionType.Always, 0)
    else if col == 0x1 then Instruction(Ld, RegisterD16, Bc, NoReg, ConditionType.Always, 0)
    else if col == 0x2 then Instruction(Ld, MemoryRegister, Bc, A, ConditionType.Always, 0)
    else if col == 0x3 then Instruction(Inc, Register, Bc, NoReg, ConditionType.Always, 0)
    else if col == 0x4 then Instruction(Inc, Register, B, NoReg, ConditionType.Always, 0)
    else if col == 0x5 then Instruction(Dec, Register, B, NoReg, ConditionType.Always, 0)
    else if col == 0x6 then Instruction(Ld, RegisterD8, B, NoReg, ConditionType.Always, 0)
    else if col == 0x7 then Instruction(Rlca, Implied, NoReg, NoReg, ConditionType.Always, 0)
    else if col == 0x8 then Instruction(Ld, A16Register, NoReg, Sp, ConditionType.Always, 0)
    else if col == 0x9 then Instruction(Add, RegisterRegister, Hl, Bc, ConditionType.Always, 0)
    else if col == 0xA then Instruction(Ld, RegisterMemory, A, Bc, ConditionType.Always, 0)
    else if col == 0xB then Instruction(Dec, Register, Bc, NoReg, ConditionType.Always, 0)
    else if col == 0xC then Instruction(Inc, Register, RegisterType.C, NoReg, ConditionType.Always, 0)
    else if col == 0xD then Instruction(Dec, Register, RegisterType.C, NoReg, ConditionType.Always, 0)
    else if col == 0xE then Instruction(Ld, RegisterD8, RegisterType.C, NoReg, ConditionType.Always, 0)
    else Instruction(Rrca, Implied, NoReg, NoReg, ConditionType.Always, 0)
  }

  /** Main table, opcodes 0x10-0x1F. */
  function MainRow1(col: Byte): Instruction
    requires col < 16
  {
    if col == 0x0 then Instruction(Stop, Implied, NoReg, NoReg, ConditionType.Always, 0)
    else if col == 0x1 then Instruction(Ld, RegisterD16, De, NoReg, ConditionType.Always, 0)
    else if col == 0x2 then Instruction(Ld, MemoryRegister, De, A, ConditionType.Always, 0)
    else if col == 0x3 then Instruction(Inc, Register, De, NoReg, ConditionType.Always, 0)
    else if col == 0x4 then Instruction(Inc, Register, D, NoReg, ConditionType.Always, 0)
    else if col == 0x5 then Instruction(Dec, Register, D, NoReg, ConditionType.Always, 0)
    else if col == 0x6 then Instruction(Ld, RegisterD8, D, NoReg, ConditionType.Always, 0)
    else if col == 0x7 then Instruction(Rla, Implied, NoReg, NoReg, ConditionType.Always, 0)
    else if col == 0x8 then Instruction(Jr, D8, NoReg, NoReg, ConditionType.Always, 0)
    else if col == 0x9 then Instruction(Add, RegisterRegister, Hl, De, ConditionType.Always, 0)
    else if col == 0xA then Instruction(Ld, RegisterMemory, A, De, ConditionType.Always, 0)
    else if col == 0xB then Instruction(Dec, Register, De, NoReg, ConditionType.Always, 0)
    else if col == 0xC then Instruction(Inc, Register, E, NoReg, ConditionType.Always, 0)
    else if col == 0xD then Instruction(Dec, Register, E, NoReg, ConditionType.Always, 0)
    else if col == 0xE then Instruction(Ld, RegisterD8, E, NoReg, ConditionType.Always, 0)
    else Instruction(Rra, Implied, NoReg, NoReg, ConditionType.Always, 0)
  }

  /** Main table, opcodes 0x20-0x2F. */
  function MainRow2(col: Byte): Instruction
    requires col < 16
  {
    if col == 0x0 then Instruction(Jr, D8, NoReg, NoReg, Nz, 0)
    else if col == 0x1 then Instruction(Ld, RegisterD16, Hl, NoReg, ConditionType.Always, 0)
    else if col == 0x2 then Instruction(Ld, HliRegister, Hl, A, ConditionType.Always, 0)
    else if col == 0x3 then Instruction(Inc, Register, Hl, NoReg, ConditionType.Always, 0)
    else if col == 0x4 then Instruction(Inc, Register, H, NoReg, ConditionType.Always, 0)
    else if col == 0x5 then Instruction(Dec, Register, H, NoReg, ConditionType.Always, 0)
    else if col == 0x6 then Instruction(Ld, RegisterD8, H, NoReg, ConditionType.Always, 0)
    else if col == 0x7 then Instruction(Daa, Implied, NoReg, NoReg, ConditionType.Always, 0)
    else if col == 0x8 then Instruction(Jr, D8, NoReg, NoReg, Z, 0)
    else if col == 0x9 then Instruction(Add, RegisterRegister, Hl, Hl, ConditionType.Always, 0)
    else if col == 0xA then Instruction(Ld, RegisterHli, A, Hl, ConditionType.Always, 0)
    else if col == 0xB then Instruction(Dec, Register, Hl, NoReg, ConditionType.Always, 0)
    else if col == 0xC then Instruction(Inc, Register, L, NoReg, ConditionType.Always, 0)
    else if col == 0xD then Instruction(Dec, Register, L, NoReg, ConditionType.Always, 0)
    else if col == 0xE then Instruction(Ld, RegisterD8, L, NoReg, ConditionType.Always, 0)
    else Instruction(Cpl, Implied, NoReg, NoReg, ConditionType.Always, 0)
  }

  /** Main table, opcodes 0x30-0x3F. */
  function MainRow3(col: Byte): Instruction
    requires col < 16
  {
    if col == 0x0 then Instruction(Jr, D8, NoReg, NoReg, Nc, 0)
    else if col == 0x1 then Instruction(Ld, RegisterD16, Sp, NoReg, ConditionType.Always, 0)
    else if col == 0x2 then Instruction(Ld, HldRegister, Hl, A, ConditionType.Always, 0)
    else if col == 0x3 then Instruction(Inc, Register, Sp, NoReg, ConditionType.Always, 0)
    else if col == 0x4 then Instruction(Inc, MemoryRegisterOnly, Hl, NoReg, ConditionType.Always, 0)
    else if col == 0x5 then Instruction(Dec, MemoryRegisterOnly, Hl, NoReg, ConditionType.Always, 0)
    else if col == 0x6 then Instruction(Ld, MemoryRegisterD8, Hl, NoReg, ConditionType.Always, 0)
    else if col == 0x7 then Instruction(Scf, Implied, NoReg, NoReg, ConditionType.Always, 0)
    else if col == 0x8 then Instruction(Jr, D8, NoReg, NoReg, ConditionType.C, 0)
    else if col == 0x9 then Instruction(Add, RegisterRegister, Hl, Sp, ConditionType.Always, 0)
    else if col == 0xA then Instruction(Ld, RegisterHld, A, Hl, ConditionType.Always, 0)
    else if col == 0xB then Instruction(Dec, Register, Sp, NoReg, ConditionType.Always, 0)
    else if col == 0xC then Instruction(Inc, Register, A, NoReg, ConditionType.Always, 0)
    else if col == 0xD then Instruction(Dec, Register, A, NoReg, ConditionType.Always, 0)
    else if col == 0xE then Instruction(Ld, RegisterD8, A, NoReg, ConditionType.Always, 0)
    else Instruction(Ccf, Implied, NoReg, NoReg, ConditionType.Always, 0)
  }

  /** Main table, opcodes 0x40-0x4F. */
  function MainRow4(col: Byte): Instruction
    requires col < 16
  {
    if col == 0x0 then Instruction(Ld, RegisterRegister, B, B, ConditionType.Always, 0)
    else if col == 0x1 then Instruction(Ld, RegisterRegister, B, RegisterType.C, ConditionType.Always, 0)
    else if col == 0x2 then Instruction(Ld, RegisterRegister, B, D, ConditionType.Always, 0)
    else if col == 0x3 then Instruction(Ld, RegisterRegister, B, E, ConditionType.Always, 0)
    else if col == 0x4 then Instruction(Ld, RegisterRegister, B, H, ConditionType.Always, 0)
    else if col == 0x5 then Instruction(Ld, RegisterRegister, B, L, ConditionType.Always, 0)
    else if col == 0x6 then Instruction(Ld, RegisterMemory, B, Hl, ConditionType.Always, 0)
    else if col == 0x7 then Instruction(Ld, RegisterRegister, B, A, ConditionType.Always, 0)
    else if col == 0x8 then Instruction(Ld, RegisterRegister, RegisterType.C, B, ConditionType.Always, 0)
    else if col == 0x9 then Instruction(Ld, RegisterRegister, RegisterType.C, RegisterType.C, ConditionType.Always, 0)
    else if col == 0xA then Instruction(Ld, RegisterRegister, RegisterType.C, D, ConditionType.Always, 0)
    else if col == 0xB then Instruction(Ld, RegisterRegister, RegisterType.C, E, ConditionType.Always, 0)
    else if col == 0xC then Instruction(Ld, RegisterRegister, RegisterType.C, H, ConditionType.Always, 0)
    else if col == 0xD then Instruction(Ld, RegisterRegister, RegisterType.C, L, ConditionType.Always, 0)
    else if col == 0xE then Instruction(Ld, RegisterMemory, RegisterType.C, Hl, ConditionType.Always, 0)
    else Instruction(Ld, RegisterRegister, RegisterType.C, A, ConditionType.Always, 0)
  }

  /** Main table, opcodes 0x50-0x5F. */
  function MainRow5(col: Byte): Instruction
    requires col < 16
  {
    if col == 0x0 then Instruction(Ld, RegisterRegister, D, B, ConditionType.Always, 0)
    else if col == 0x1 then Instruction(Ld, RegisterRegister, D, RegisterType.C, ConditionType.Always, 0)
    else if col == 0x2 then Instruction(Ld, RegisterRegister, D, D, ConditionType.Always, 0)
    else if col == 0x3 then Instruction(Ld, RegisterRegister, D, E, ConditionType.Always, 0)
    else if col == 0x4 then Instruction(Ld, RegisterRegister, D, H, ConditionType.Always, 0)
    else if col == 0x5 then Instruction(Ld, RegisterRegister, D, L, ConditionType.Always, 0)
    else if col == 0x6 then Instruction(Ld, RegisterMemory, D, Hl, ConditionType.Always, 0)
    else if col == 0x7 then Instruction(Ld, RegisterRegister, D, A, ConditionType.Always, 0)
    else if col == 0x8 then Instruction(Ld, RegisterRegister, E, B, ConditionType.Always, 0)
    else if col == 0x9 then Instruction(Ld, RegisterRegister, E, RegisterType.C, ConditionType.Always, 0)
    else if col == 0xA then Instruction(Ld, RegisterRegister, E, D, ConditionType.Always, 0)
    else if col == 0xB then Instruction(Ld, RegisterRegister, E, E, ConditionType.Always, 0)
    else if col == 0xC then Instruction(Ld, RegisterRegister, E, H, ConditionType.Always, 0)
    else if col == 0xD then Instruction(Ld, RegisterRegister, E, L, ConditionType.Always, 0)
    else if col == 0xE then Instruction(Ld, RegisterMemory, E, Hl, ConditionType.Always, 0)
    else Instruction(Ld, RegisterRegister, E, A, ConditionType.Always, 0)
  }

  /** Main table, opcodes 0x60-0x6F. */
  function MainRow6(col: Byte): Instruction
    requires col < 16
  {
    if col == 0x0 then Instruction(Ld, RegisterRegister, H, B, ConditionType.Always, 0)
    else if col == 0x1 then Instruction(Ld, RegisterRegister, H, RegisterType.C, ConditionType.Always, 0)
    else if col == 0x2 then Instruction(Ld, RegisterRegister, H, D, ConditionType.Always, 0)
    else if col == 0x3 then Instruction(Ld, RegisterRegister, H, E, ConditionType.Always, 0)
    else if col == 0x4 then Instruction(Ld, RegisterRegister, H, H, ConditionType.Always, 0)
    else if col == 0x5 then Instruction(Ld, RegisterRegister, H, L, ConditionType.Always, 0)
    else if col == 0x6 then Instruction(Ld, RegisterMemory, H, Hl, ConditionType.Always, 0)
    else if col == 0x7 then Instruction(Ld, RegisterRegister, H, A, ConditionType.Always, 0)
    else if col == 0x8 then Instruction(Ld, RegisterRegister, L, B, ConditionType.Always, 0)
    else if col == 0x9 then Instruction(Ld, RegisterRegister, L, RegisterType.C, ConditionType.Always, 0)
    else if col == 0xA then Instruction(Ld, RegisterRegister, L, D, ConditionType.Always, 0)
    else if col == 0xB then Instruction(Ld, RegisterRegister, L, E, ConditionType.Always, 0)
    else if col == 0xC then Instruction(Ld, RegisterRegister, L, H, ConditionType.Always, 0)
    else if col == 0xD then Instruction(Ld, RegisterRegister, L, L, ConditionType.Always, 0)
    else if col == 0xE then Instruction(Ld, RegisterMemory, L, Hl, ConditionType.Always, 0)
    else Instruction(Ld, RegisterRegister, L, A, ConditionType.Always, 0)
  }

  /** Main table, opcodes 0x70-0x7F. */
  function MainRow7(col: Byte): Instruction
    requires col < 16
  {
    if col == 0x0 then Instruction(Ld, MemoryRegister, Hl, B, ConditionType.Always, 0)
    else if col == 0x1 then Instruction(Ld, MemoryRegister, Hl, RegisterType.C, ConditionType.Always, 0)
    else if col == 0x2 then Instruction(Ld, MemoryRegister, Hl, D, ConditionType.Always, 0)
    else if col == 0x3 then Instruction(Ld, MemoryRegister, Hl, E, ConditionType.Always, 0)
    else if col == 0x4 then Instruction(Ld, MemoryRegister, Hl, H, ConditionType.Always, 0)
    else if col == 0x5 then Instruction(Ld, MemoryRegister, Hl, L, ConditionType.Always, 0)
    else if col == 0x6 then Instruction(Halt, Implied, NoReg, NoReg, ConditionType.Always, 0)
    else if col == 0x7 then Instruction(Ld, MemoryRegister, Hl, A, ConditionType.Always, 0)
    else if col == 0x8 then Instruction(Ld, RegisterRegister, A, B, ConditionType.Always, 0)
    else if col == 0x9 then Instruction(Ld, RegisterRegister, A, RegisterType.C, ConditionType.Always, 0)
    else if col == 0xA then Instruction(Ld, RegisterRegister, A, D, ConditionType.Always, 0)
    else if col == 0xB then Instruction(Ld, RegisterRegister, A, E, ConditionType.Always, 0)
    else if col == 0xC then Instruction(Ld, RegisterRegister, A, H, ConditionType.Always, 0)
    else if col == 0xD then Instruction(Ld, RegisterRegister, A, L, ConditionType.Always, 0)
    else if col == 0xE then Instruction(Ld, RegisterMemory, A, Hl, ConditionType.Always, 0)
    else Instruction(Ld, RegisterRegister, A, A, ConditionType.Always, 0)
  }

  /** Main table, opcodes 0x80-0x8F. */
  function MainRow8(col: Byte): Instruction
    requires col < 16
  {
    if col == 0x0 then Instruction(Add, RegisterRegister, A, B, ConditionType.Always, 0)
    else if col == 0x1 then Instruction(Add, RegisterRegister, A, RegisterType.C, ConditionType.Always, 0)
    else if col == 0x2 then Instruction(Add, RegisterRegister, A, D, ConditionType.Always, 0)
    else if col == 0x3 then Instruction(Add, RegisterRegister, A, E, ConditionType.Always, 0)
    else if col == 0x4 then Instruction(Add, RegisterRegister, A, H, ConditionType.Always, 0)
    else if col == 0x5 then Instruction(Add, RegisterRegister, A, L, ConditionType.Always, 0)
    else if col == 0x6 then Instruction(Add, RegisterMemory, A, Hl, ConditionType.Always, 0)
    else if col == 0x7 then Instruction(Add, RegisterRegister, A, A, ConditionType.Always, 0)
    else if col == 0x8 then Instruction(Adc, RegisterRegister, A, B, ConditionType.Always, 0)
    else if col == 0x9 then Instruction(Adc, RegisterRegister, A, RegisterType.C, ConditionType.Always, 0)
    else if col == 0xA then Instruction(Adc, RegisterRegister, A, D, ConditionType.Always, 0)
    else if col == 0xB then Instruction(Adc, RegisterRegister, A, E, ConditionType.Always, 0)
    else if col == 0xC then Instruction(Adc, RegisterRegister, A, H, ConditionType.Always, 0)
    else if col == 0xD then Instruction(Adc, RegisterRegister, A, L, ConditionType.Always, 0)
    else if col == 0xE then Instruction(Adc, RegisterMemory, A, Hl, ConditionType.Always, 0)
    else Instruction(Adc, RegisterRegister, A, A, ConditionType.Always, 0)
  }

  /** Main table, opcodes 0x90-0x9F. */
  function MainRow9(col: Byte): Instruction
    requires col < 16
  {
    if col == 0x0 then Instruction(Sub, RegisterRegister, A, B, ConditionType.Always, 0)
    else if col == 0x1 then Instruction(Sub, RegisterRegister, A, RegisterType.C, ConditionType.Always, 0)
    else if col == 0x2 then Instruction(Sub, RegisterRegister, A, D, ConditionType.Always, 0)
    else if col == 0x3 then Instruction(Sub, RegisterRegister, A, E, ConditionType.Always, 0)
    else if col == 0x4 then Instruction(Sub, RegisterRegister, A, H, ConditionType.Always, 0)
    else if col == 0x5 then Instruction(Sub, RegisterRegister, A, L, ConditionType.Always, 0)
    else if col == 0x6 then Instruction(Sub, RegisterMemory, A, Hl, ConditionType.Always, 0)
    else if col == 0x7 then Instruction(Sub, RegisterRegister, A, A, ConditionType.Always, 0)
    else if col == 0x8 then Instruction(Sbc, RegisterRegister, A, B, ConditionType.Always, 0)
    else if col == 0x9 then Instruction(Sbc, RegisterRegister, A, RegisterType.C, ConditionType.Always, 0)
    else if col == 0xA then Instruction(Sbc, RegisterRegister, A, D, ConditionType.Always, 0)
    else if col == 0xB then Instruction(Sbc, RegisterRegister, A, E, ConditionType.Always, 0)
    else if col == 0xC then Instruction(Sbc, RegisterRegister, A, H, ConditionType.Always, 0)
    else if col == 0xD then Instruction(Sbc, RegisterRegister, A, L, ConditionType.Always, 0)
    else if col == 0xE then Instruction(Sbc, RegisterMemory, A, Hl, ConditionType.Always, 0)
    else Instruction(Sbc, RegisterRegister, A, A, ConditionType.Always, 0)
  }

  /** Main table, opcodes 0xA0-0xAF. */
  function MainRowA(col: Byte): Instruction
    requires col < 16
  {
    if col == 0x0 then Instruction(And, RegisterRegister, A, B, ConditionType.Always, 0)
    else if col == 0x1 then Instruction(And, RegisterRegister, A, RegisterType.C, ConditionType.Always, 0)
    else if col == 0x2 then Instruction(And, RegisterRegister, A, D, ConditionType.Always, 0)
    else if col == 0x3 then Instruction(And, RegisterRegister, A, E, ConditionType.Always, 0)
    else if col == 0x4 then Instruction(And, RegisterRegister, A, H, ConditionType.Always, 0)
    else if col == 0x5 then Instruction(And, RegisterRegister, A, L, ConditionType.Always, 0)
    else if col == 0x6 then Instruction(And, RegisterMemory, A, Hl, ConditionType.Always, 0)
    else if col == 0x7 then Instruction(And, RegisterRegister, A, A, ConditionType.Always, 0)
    else if col == 0x8 then Instruction(Xor, RegisterRegister, A, B, ConditionType.Always, 0)
    else if col == 0x9 then Instruction(Xor, RegisterRegister, A, RegisterType.C, ConditionType.Always, 0)
    else if col == 0xA then Instruction(Xor, RegisterRegister, A, D, ConditionType.Always, 0)
    else if col == 0xB then Instruction(Xor, RegisterRegister, A, E, ConditionType.Always, 0)
    else if col == 0xC then Instruction(Xor, RegisterRegister, A, H, ConditionType.Always, 0)
    else if col == 0xD then Instruction(Xor, RegisterRegister, A, L, ConditionType.Always, 0)
    else if col == 0xE then Instruction(Xor, RegisterMemory, A, Hl, ConditionType.Always, 0)
    else Instruction(Xor, RegisterRegister, A, A, ConditionType.Always, 0)
  }

  /** Main table, opcodes 0xB0-0xBF. */
  function MainRowB(col: Byte): Instruction
    requires col < 16
  {
    if col == 0x0 then Instruction(Or, RegisterRegister, A, B, ConditionType.Always, 0)
    else if col == 0x1 then Instruction(Or, RegisterRegister, A, RegisterType.C, ConditionType.Always, 0)
    else if col == 0x2 then Instruction(Or, RegisterRegister, A, D, ConditionType.Always, 0)
    else if col == 0x3 then Instruction(Or, RegisterRegister, A, E, ConditionType.Always, 0)
    else if col == 0x4 then Instruction(Or, RegisterRegister, A, H, ConditionType.Always, 0)
    else if col == 0x5 then Instruction(Or, RegisterRegister, A, L, ConditionType.Always, 0)
    else if col == 0x6 then Instruction(Or, RegisterMemory, A, Hl, ConditionType.Always, 0)
    else if col == 0x7 then Instruction(Or, RegisterRegister, A, A, ConditionType.Always, 0)
    else if col == 0x8 then Instruction(Cp, RegisterRegister, A, B, ConditionType.Always, 0)
    else if col == 0x9 then Instruction(Cp, RegisterRegister, A, RegisterType.C, ConditionType.Always, 0)
    else if col == 0xA then Instruction(Cp, RegisterRegister, A, D, ConditionType.Always, 0)
    else if col == 0xB then Instruction(Cp, RegisterRegister, A, E, ConditionType.Always, 0)
    else if col == 0xC then Instruction(Cp, RegisterRegister, A, H, ConditionType.Always, 0)
    else if col == 0xD then Instruction(Cp, RegisterRegister, A, L, ConditionType.Always, 0)
    else if col == 0xE then Instruction(Cp, RegisterMemory, A, Hl, ConditionType.Always, 0)
    else Instruction(Cp, RegisterRegister, A, A, ConditionType.Always, 0)
  }

  /** Main table, opcodes 0xC0-0xCF. */
  function MainRowC(col: Byte): Instruction
    requires col < 16
  {
    if col == 0x0 then Instruction(Ret, Implied, NoReg, NoReg, Nz, 0)
    else if col == 0x1 then Instruction(Pop, Register, Bc, NoReg, ConditionType.Always, 0)
    else if col == 0x2 then Instruction(Jp, D16, NoReg, NoReg, Nz, 0)
    else if col == 0x3 then Instruction(Jp, D16, NoReg, NoReg, ConditionType.Always, 0)
    else if col == 0x4 then Instruction(Call, D16, NoReg, NoReg, Nz, 0)
    else if col == 0x5 then Instruction(Push, Register, Bc, NoReg, ConditionType.Always, 0)
    else if col == 0x6 then Instruction(Add, RegisterD8, A, NoReg, ConditionType.Always, 0)
    else if col == 0x7 then Instruction(Rst, Implied, NoReg, NoReg, ConditionType.Always, 0x00)
    else if col == 0x8 then Instruction(Ret, Implied, NoReg, NoReg, Z, 0)
    else if col == 0x9 then Instruction(Ret, Implied, NoReg, NoReg, ConditionType.Always, 0)
    else if col == 0xA then Instruction(Jp, D16, NoReg, NoReg, Z, 0)
    else if col == 0xB then Instruction(Cb, D8, NoReg, NoReg, ConditionType.Always, 0)
    else if col == 0xC then Instruction(Call, D16, NoReg, NoReg, Z, 0)
    else if col == 0xD then Instruction(Call, D16, NoReg, NoReg, ConditionType.Always, 0)
    else if col == 0xE then Instruction(Adc, RegisterD8, A, NoReg, ConditionType.Always, 0)
    else Instruction(Rst, Implied, NoReg, NoReg, ConditionType.Always, 0x08)
  }

  /** Main table, opcodes 0xD0-0xDF. */
  function MainRowD(col: Byte): Instruction
    requires col < 16
  {
    if col == 0x0 then Instruction(Ret, Implied, NoReg, NoReg, Nc, 0)
    else if col == 0x1 then Instruction(Pop, Register, De, NoReg, ConditionType.Always, 0)
    else if col == 0x2 then Instruction(Jp, D16, NoReg, NoReg, Nc, 0)
    else if col == 0x3 then Instruction(InvalidOp, Implied, NoReg, NoReg, ConditionType.Always, 0)
    else if col == 0x4 then Instruction(Call, D16, NoReg, NoReg, Nc, 0)
    else if col == 0x5 then Instruction(Push, Register, De, NoReg, ConditionType.Always, 0)
    else if col == 0x6 then Instruction(Sub, RegisterD8, A, NoReg, ConditionType.Always, 0)
    else if col == 0x7 then Instruction(Rst, Implied, NoReg, NoReg, ConditionType.Always, 0x10)
    else if col == 0x8 then Instruction(Ret, Implied, NoReg, NoReg, ConditionType.C, 0)
    else if col == 0x9 then Instruction(Reti, Implied, NoReg, NoReg, ConditionType.Always, 0)
    else if col == 0xA then Instruction(Jp, D16, NoReg, NoReg, ConditionType.C, 0)
    else if col == 0xB then Instruction(InvalidOp, Implied, NoReg, NoReg, ConditionType.Always, 0)
    else if col == 0xC then Instruction(Call, D16, NoReg, NoReg, ConditionType.C, 0)
    else if col == 0xD then Instruction(InvalidOp, Implied, NoReg, NoReg, ConditionType.Always, 0)
    else if col == 0xE then Instruction(Sbc, RegisterD8, A, NoReg, ConditionType.Always, 0)
    else Instruction(Rst, Implied, NoReg, NoReg, ConditionType.Always, 0x18)
  }

  /** Main table, opcodes 0xE0-0xEF. */
  function MainRowE(col: Byte): Instruction
    requires col < 16
  {
    if col == 0x0 then Instruction(Ldh, A8Register, NoReg, A, ConditionType.Always, 0)
    else if col == 0x1 then Instruction(Pop, Register, Hl, NoReg, ConditionType.Always, 0)
    else if col == 0x2 then Instruction(Ld, MemoryRegister, RegisterType.C, A, ConditionType.Always, 0)
    else if col == 0x3 then Instruction(InvalidOp, Implied, NoReg, NoReg, ConditionType.Always, 0)
    else if col == 0x4 then Instruction(InvalidOp, Implied, NoReg, NoReg, ConditionType.Always, 0)
    else if col == 0x5 then Instruction(Push, Register, Hl, NoReg, ConditionType.Always, 0)
    else if col == 0x6 then Instruction(And, RegisterD8, A, NoReg, ConditionType.Always, 0)
    else if col == 0x7 then Instruction(Rst, Implied, NoReg, NoReg, ConditionType.Always, 0x20)
    else if col == 0x8 then Instruction(Add, RegisterD8, Sp, NoReg, ConditionType.Always, 0)
    else if col == 0x9 then Instruction(Jp, Register, Hl, NoReg, ConditionType.Always, 0)
    else if col == 0xA then Instruction(Ld, A16Register, NoReg, A, ConditionType.Always, 0)
    else if col == 0xB then Instruction(InvalidOp, Implied, NoReg, NoReg, ConditionType.Always, 0)
    else if col == 0xC then Instruction(InvalidOp, Implied, NoReg, NoReg, ConditionType.Always, 0)
    else if col == 0xD then Instruction(InvalidOp, Implied, NoReg, NoReg, ConditionType.Always, 0)
    else if col == 0xE then Instruction(Xor, RegisterD8, A, NoReg, ConditionType.Always, 0)
    else Instruction(Rst, Implied, NoReg, NoReg, ConditionType.Always, 0x28)
  }

  /** Main table, opcodes 0xF0-0xFF. */
  function MainRowF(col: Byte): Instruction
    requires col < 16
  {
    if col == 0x0 then Instruction(Ldh, RegisterA8, A, NoReg, ConditionType.Always, 0)
    else if col == 0x1 then Instruction(Pop, Register, Af, NoReg, ConditionType.Always, 0)
    else if col == 0x2 then Instruction(Ld, RegisterMemory, A, RegisterType.C, ConditionType.Always, 0)
    else if col == 0x3 then Instruction(Di, Implied, NoReg, NoReg, ConditionType.Always, 0)
    else if col == 0x4 then Instruction(InvalidOp, Implied, NoReg, NoReg, ConditionType.Always, 0)
    else if col == 0x5 then Instruction(Push, Register, Af, NoReg, ConditionType.Always, 0)
    else if col == 0x6 then Instruction(Or, RegisterD8, A, NoReg, ConditionType.Always, 0)
    else if col == 0x7 then Instruction(Rst, Implied, NoReg, NoReg, ConditionType.Always, 0x30)
    else if col == 0x8 then Instruction(Ld, HlSpr, Hl, Sp, ConditionType.Always, 0)
    else if col == 0x9 then Instruction(Ld, RegisterRegister, Sp, Hl, ConditionType.Always, 0)
    else if col == 0xA then Instruction(Ld, RegisterA16, A, NoReg, ConditionType.Always, 0)
    else if col == 0xB then Instruction(Ei, Implied, NoReg, NoReg, ConditionType.Always, 0)
    else if col == 0xC then Instruction(InvalidOp, Implied, NoReg, NoReg, ConditionType.Always, 0)
    else if col == 0xD then Instruction(InvalidOp, Implied, NoReg, NoReg, ConditionType.Always, 0)
    else if col == 0xE then Instruction(Cp, RegisterD8, A, NoReg, ConditionType.Always, 0)
    else Instruction(Rst, Implied, NoReg, NoReg, ConditionType.Always, 0x38)
  }

  /** `instruction_by_opcode`: every byte selects an entry of the main table, row by row. */
  function InstructionByOpcode(op: Byte): Instruction
  {
    if op < 0x80 then
      if op < 0x40 then
        if op < 0x20 then
          if op < 0x10 then
            MainRow0(op)
          else
            MainRow1(op - 0x10)
        else
          if op < 0x30 then
            MainRow2(op - 0x20)
          else
            MainRow3(op - 0x30)
      else
        if op < 0x60 then
          if op < 0x50 then
            MainRow4(op - 0x40)
          else
            MainRow5(op - 0x50)
        else
          if op < 0x70 then
            MainRow6(op - 0x60)
          else
            MainRow7(op - 0x70)
    else
      if op < 0xC0 then
        if op < 0xA0 then
          if op < 0x90 then
            MainRow8(op - 0x80)
          else
            MainRow9(op - 0x90)
        else
          if op < 0xB0 then
            MainRowA(op - 0xA0)
          else
            MainRowB(op - 0xB0)
      else
        if op < 0xE0 then
          if op < 0xD0 then
            MainRowC(op - 0xC0)
          else
            MainRowD(op - 0xD0)
        else
          if op < 0xF0 then
            MainRowE(op - 0xE0)
          else
            MainRowF(op - 0xF0)
  }

  /** A CB table entry: every one has mode Register, no second register and no condition. */
  function CbEntry(t: InstructionType, r: RegisterType, b: Byte): Instruction
  {
    Instruction(t, Register, r, NoReg, Always, b)
  }

  /** CB table, opcodes 0x00-0x1F. */
  function CbRow0(col: Byte): Instruction
    requires col < 32
  {
    if col == 0x00 then CbEntry(Rlc, B, 0)
    else if col == 0x01 then CbEntry(Rlc, RegisterType.C, 0)
    else if col == 0x02 then CbEntry(Rlc, D, 0)
    else if col == 0x03 then CbEntry(Rlc, E, 0)
    else if col == 0x04 then CbEntry(Rlc, H, 0)
    else if col == 0x05 then CbEntry(Rlc, L, 0)
    else if col == 0x06 then CbEntry(Rlc, Hl, 0)
    else if col == 0x07 then CbEntry(Rlc, A, 0)
    else if col == 0x08 then CbEntry(Rrc, B, 0)
    else if col == 0x09 then CbEntry(Rrc, RegisterType.C, 0)
    else if col == 0x0A then CbEntry(Rrc, D, 0)
    else if col == 0x0B then CbEntry(Rrc, E, 0)
    else if col == 0x0C then CbEntry(Rrc, H, 0)
    else if col == 0x0D then CbEntry(Rrc, L, 0)
    else if col == 0x0E then CbEntry(Rrc, Hl, 0)
    else if col == 0x0F then CbEntry(Rrc, A, 0)
    else if col == 0x10 then CbEntry(Rl, B, 0)
    else if col == 0x11 then CbEntry(Rl, RegisterType.C, 0)
    else if col == 0x12 then CbEntry(Rl, D, 0)
    else if col == 0x13 then CbEntry(Rl, E, 0)
    else if col == 0x14 then CbEntry(Rl, H, 0)
    else if col == 0x15 then CbEntry(Rl, L, 0)
    else if col == 0x16 then CbEntry(Rl, Hl, 0)
    else if col == 0x17 then CbEntry(Rl, A, 0)
    else if col == 0x18 then CbEntry(Rr, B, 0)
    else if col == 0x19 then CbEntry(Rr, RegisterType.C, 0)
    else if col == 0x1A then CbEntry(Rr, D, 0)
    else if col == 0x1B then CbEntry(Rr, E, 0)
    else if col == 0x1C then CbEntry(Rr, H, 0)
    else if col == 0x1D then CbEntry(Rr, L, 0)
    else if col == 0x1E then CbEntry(Rr, Hl, 0)
    else CbEntry(Rr, A, 0)
  }

  /** CB table, opcodes 0x20-0x3F. */
  function CbRow1(col: Byte): Instruction
    requires col < 32
  {
    if col == 0x00 then CbEntry(Sla, B, 0)
    else if col == 0x01 then CbEntry(Sla, RegisterType.C, 0)
    else if col == 0x02 then CbEntry(Sla, D, 0)
    else if col == 0x03 then CbEntry(Sla, E, 0)
    else if col == 0x04 then CbEntry(Sla, H, 0)
    else if col == 0x05 then CbEntry(Sla, L, 0)
    else if col == 0x06 then CbEntry(Sla, Hl, 0)
    else if col == 0x07 then CbEntry(Sla, A, 0)
    else if col == 0x08 then CbEntry(Sra, B, 0)
    else if col == 0x09 then CbEntry(Sra, RegisterType.C, 0)
    else if col == 0x0A then CbEntry(Sra, D, 0)
    else if col == 0x0B then CbEntry(Sra, E, 0)
    else if col == 0x0C then CbEntry(Sra, H, 0)
    else if col == 0x0D then CbEntry(Sra, L, 0)
    else if col == 0x0E then CbEntry(Sra, Hl, 0)
    else if col == 0x0F then CbEntry(Sra, A, 0)
    else if col == 0x10 then CbEntry(Swap, B, 0)
    else if col == 0x11 then CbEntry(Swap, RegisterType.C, 0)
    else if col == 0x12 then CbEntry(Swap, D, 0)
    else if col == 0x13 then CbEntry(Swap, E, 0)
    else if col == 0x14 then CbEntry(Swap, H, 0)
    else if col == 0x15 then CbEntry(Swap, L, 0)
    else if col == 0x16 then CbEntry(Swap, Hl, 0)
    else if col == 0x17 then CbEntry(Swap, A, 0)
    else if col == 0x18 then CbEntry(Srl, B, 0)
    else if col == 0x19 then CbEntry(Srl, RegisterType.C, 0)
    else if col == 0x1A then CbEntry(Srl, D, 0)
    else if col == 0x1B then CbEntry(Srl, E, 0)
    else if col == 0x1C then CbEntry(Srl, H, 0)
    else if col == 0x1D then CbEntry(Srl, L, 0)
    else if col == 0x1E then CbEntry(Srl, Hl, 0)
    else CbEntry(Srl, A, 0)
  }

  /** CB table, opcodes 0x40-0x5F. */
  function CbRow2(col: Byte): Instruction
    requires col < 32
  {
    if col == 0x00 then CbEntry(Bit, B, 0)
    else if col == 0x01 then CbEntry(Bit, RegisterType.C, 0)
    else if col == 0x02 then CbEntry(Bit, D, 0)
    else if col == 0x03 then CbEntry(Bit, E, 0)
    else if col == 0x04 then CbEntry(Bit, H, 0)
    else if col == 0x05 then CbEntry(Bit, L, 0)
    else if col == 0x06 then CbEntry(Bit, Hl, 0)
    else if col == 0x07 then CbEntry(Bit, A, 0)
    else if col == 0x08 then CbEntry(Bit, B, 1)
    else if col == 0x09 then CbEntry(Bit, RegisterType.C, 1)
    else if col == 0x0A then CbEntry(Bit, D, 1)
    else if col == 0x0B then CbEntry(Bit, E, 1)
    else if col == 0x0C then CbEntry(Bit, H, 1)
    else if col == 0x0D then CbEntry(Bit, L, 1)
    else if col == 0x0E then CbEntry(Bit, Hl, 1)
    else if col == 0x0F then CbEntry(Bit, A, 1)
    else if col == 0x10 then CbEntry(Bit, B, 2)
    else if col == 0x11 then CbEntry(Bit, RegisterType.C, 2)
    else if col == 0x12 then CbEntry(Bit, D, 2)
    else if col == 0x13 then CbEntry(Bit, E, 2)
    else if col == 0x14 then CbEntry(Bit, H, 2)
    else if col == 0x15 then CbEntry(Bit, L, 2)
    else if col == 0x16 then CbEntry(Bit, Hl, 2)
    else if col == 0x17 then CbEntry(Bit, A, 2)
    else if col == 0x18 then CbEntry(Bit, B, 3)
    else if col == 0x19 then CbEntry(Bit, RegisterType.C, 3)
    else if col == 0x1A then CbEntry(Bit, D, 3)
    else if col == 0x1B then CbEntry(Bit, E, 3)
    else if col == 0x1C then CbEntry(Bit, H, 3)
    else if col == 0x1D then CbEntry(Bit, L, 3)
    else if col == 0x1E then CbEntry(Bit, Hl, 3)
    else CbEntry(Bit, A, 3)
  }

  /** CB table, opcodes 0x60-0x7F. */
  function CbRow3(col: Byte): Instruction
    requires col < 32
  {
    if col == 0x00 then CbEntry(Bit, B, 4)
    else if col == 0x01 then CbEntry(Bit, RegisterType.C, 4)
    else if col == 0x02 then CbEntry(Bit, D, 4)
    else if col == 0x03 then CbEntry(Bit, E, 4)
    else if col == 0x04 then CbEntry(Bit, H, 4)
    else if col == 0x05 then CbEntry(Bit, L, 4)
    else if col == 0x06 then CbEntry(Bit, Hl, 4)
    else if col == 0x07 then CbEntry(Bit, A, 4)
    else if col == 0x08 then CbEntry(Bit, B, 5)
    else if col == 0x09 then CbEntry(Bit, RegisterType.C, 5)
    else if col == 0x0A then CbEntry(Bit, D, 5)
    else if col == 0x0B then CbEntry(Bit, E, 5)
    else if col == 0x0C then CbEntry(Bit, H, 5)
    else if col == 0x0D then CbEntry(Bit, L, 5)
    else if col == 0x0E then CbEntry(Bit, Hl, 5)
    else if col == 0x0F then CbEntry(Bit, A, 5)
    else if col == 0x10 then CbEntry(Bit, B, 6)
    else if col == 0x11 then CbEntry(Bit, RegisterType.C, 6)
    else if col == 0x12 then CbEntry(Bit, D, 6)
    else if col == 0x13 then CbEntry(Bit, E, 6)
    else if col == 0x14 then CbEntry(Bit, H, 6)
    else if col == 0x15 then CbEntry(Bit, L, 6)
    else if col == 0x16 then CbEntry(Bit, Hl, 6)
    else if col == 0x17 then CbEntry(Bit, A, 6)
    else if col == 0x18 then CbEntry(Bit, B, 7)
    else if col == 0x19 then CbEntry(Bit, RegisterType.C, 7)
    else if col == 0x1A then CbEntry(Bit, D, 7)
    else if col == 0x1B then CbEntry(Bit, E, 7)
    else if col == 0x1C then CbEntry(Bit, H, 7)
    else if col == 0x1D then CbEntry(Bit, L, 7)
    else if col == 0x1E then CbEntry(Bit, Hl, 7)
    else CbEntry(Bit, A, 7)
  }

  /** CB table, opcodes 0x80-0x9F. */
  function CbRow4(col: Byte): Instruction
    requires col < 32
  {
    if col == 0x00 then CbEntry(Res, B, 0)
    else if col == 0x01 then CbEntry(Res, RegisterType.C, 0)
    else if col == 0x02 then CbEntry(Res, D, 0)
    else if col == 0x03 then CbEntry(Res, E, 0)
    else if col == 0x04 then CbEntry(Res, H, 0)
    else if col == 0x05 then CbEntry(Res, L, 0)
    else if col == 0x06 then CbEntry(Res, Hl, 0)
    else if col == 0x07 then CbEntry(Res, A, 0)
    else if col == 0x08 then CbEntry(Res, B, 1)
    else if col == 0x09 then CbEntry(Res, RegisterType.C, 1)
    else if col == 0x0A then CbEntry(Res, D, 1)
    else if col == 0x0B then CbEntry(Res, E, 1)
    else if col == 0x0C then CbEntry(Res, H, 1)
    else if col == 0x0D then CbEntry(Res, L, 1)
    else if col == 0x0E then CbEntry(Res, Hl, 1)
    else if col == 0x0F then CbEntry(Res, A, 1)
    else if col == 0x10 then CbEntry(Res, B, 2)
    else if col == 0x11 then CbEntry(Res, RegisterType.C, 2)
    else if col == 0x12 then CbEntry(Res, D, 2)
    else if col == 0x13 then CbEntry(Res, E, 2)
    else if col == 0x14 then CbEntry(Res, H, 2)
    else if col == 0x15 then CbEntry(Res, L, 2)
    else if col == 0x16 then CbEntry(Res, Hl, 2)
    else if col == 0x17 then CbEntry(Res, A, 2)
    else if col == 0x18 then CbEntry(Res, B, 3)
    else if col == 0x19 then CbEntry(Res, RegisterType.C, 3)
    else if col == 0x1A then CbEntry(Res, D, 3)
    else if col == 0x1B then CbEntry(Res, E, 3)
    else if col == 0x1C then CbEntry(Res, H, 3)
    else if col == 0x1D then CbEntry(Res, L, 3)
    else if col == 0x1E then CbEntry(Res, Hl, 3)
    else CbEntry(Res, A, 3)
  }

  /** CB table, opcodes 0xA0-0xBF. */
  function CbRow5(col: Byte): Instruction
    requires col < 32
  {
    if col == 0x00 then CbEntry(Res, B, 4)
    else if col == 0x01 then CbEntry(Res, RegisterType.C, 4)
    else if col == 0x02 then CbEntry(Res, D, 4)
    else if col == 0x03 then CbEntry(Res, E, 4)
    else if col == 0x04 then CbEntry(Res, H, 4)
    else if col == 0x05 then CbEntry(Res, L, 4)
    else if col == 0x06 then CbEntry(Res, Hl, 4)
    else if col == 0x07 then CbEntry(Res, A, 4)
    else if col == 0x08 then CbEntry(Res, B, 5)
    else if col == 0x09 then CbEntry(Res, RegisterType.C, 5)
    else if col == 0x0A then CbEntry(Res, D, 5)
    else if col == 0x0B then CbEntry(Res, E, 5)
    else if col == 0x0C then CbEntry(Res, H, 5)
    else if col == 0x0D then CbEntry(Res, L, 5)
    else if col == 0x0E then CbEntry(Res, Hl, 5)
    else if col == 0x0F then CbEntry(Res, A, 5)
    else if col == 0x10 then CbEntry(Res, B, 6)
    else if col == 0x11 then CbEntry(Res, RegisterType.C, 6)
    else if col == 0x12 then CbEntry(Res, D, 6)
    else if col == 0x13 then CbEntry(Res, E, 6)
    else if col == 0x14 then CbEntry(Res, H, 6)
    else if col == 0x15 then CbEntry(Res, L, 6)
    else if col == 0x16 then CbEntry(Res, Hl, 6)
    else if col == 0x17 then CbEntry(Res, A, 6)
    else if col == 0x18 then CbEntry(Res, B, 7)
    else if col == 0x19 then CbEntry(Res, RegisterType.C, 7)
    else if col == 0x1A then CbEntry(Res, D, 7)
    else if col == 0x1B then CbEntry(Res, E, 7)
    else if col == 0x1C then CbEntry(Res, H, 7)
    else if col == 0x1D then CbEntry(Res, L, 7)
    else if col == 0x1E then CbEntry(Res, Hl, 7)
    else CbEntry(Res, A, 7)
  }

  /** CB table, opcodes 0xC0-0xDF. */
  function CbRow6(col: Byte): Instruction
    requires col < 32
  {
    if col == 0x00 then CbEntry(Set, B, 0)
    else if col == 0x01 then CbEntry(Set, RegisterType.C, 0)
    else if col == 0x02 then CbEntry(Set, D, 0)
    else if col == 0x03 then CbEntry(Set, E, 0)
    else if col == 0x04 then CbEntry(Set, H, 0)
    else if col == 0x05 then CbEntry(Set, L, 0)
    else if col == 0x06 then CbEntry(Set, Hl, 0)
    else if col == 0x07 then CbEntry(Set, A, 0)
    else if col == 0x08 then CbEntry(Set, B, 1)
    else if col == 0x09 then CbEntry(Set, RegisterType.C, 1)
    else if col == 0x0A then CbEntry(Set, D, 1)
    else if col == 0x0B then CbEntry(Set, E, 1)
    else if col == 0x0C then CbEntry(Set, H, 1)
    else if col == 0x0D then CbEntry(Set, L, 1)
    else if col == 0x0E then CbEntry(Set, Hl, 1)
    else if col == 0x0F then CbEntry(Set, A, 1)
    else if col == 0x10 then CbEntry(Set, B, 2)
    else if col == 0x11 then CbEntry(Set, RegisterType.C, 2)
    else if col == 0x12 then CbEntry(Set, D, 2)
    else if col == 0x13 then CbEntry(Set, E, 2)
    else if col == 0x14 then CbEntry(Set, H, 2)
    else if col == 0x15 then CbEntry(Set, L, 2)
    else if col == 0x16 then CbEntry(Set, Hl, 2)
    else if col == 0x17 then CbEntry(Set, A, 2)
    else if col == 0x18 then CbEntry(Set, B, 3)
    else if col == 0x19 then CbEntry(Set, RegisterType.C, 3)
    else if col == 0x1A then CbEntry(Set, D, 3)
    else if col == 0x1B then CbEntry(Set, E, 3)
    else if col == 0x1C then CbEntry(Set, H, 3)
    else if col == 0x1D then CbEntry(Set, L, 3)
    else if col == 0x1E then CbEntry(Set, Hl, 3)
    else CbEntry(Set, A, 3)
  }

  /** CB table, opcodes 0xE0-0xFF. */
  function CbRow7(col: Byte): Instruction
    requires col < 32
  {
    if col == 0x00 then CbEntry(Set, B, 4)
    else if col == 0x01 then CbEntry(Set, RegisterType.C, 4)
    else if col == 0x02 then CbEntry(Set, D, 4)
    else if col == 0x03 then CbEntry(Set, E, 4)
    else if col == 0x04 then CbEntry(Set, H, 4)
    else if col == 0x05 then CbEntry(Set, L, 4)
    else if col == 0x06 then CbEntry(Set, Hl, 4)
    else if col == 0x07 then CbEntry(Set, A, 4)
    else if col == 0x08 then CbEntry(Set, B, 5)
    else if col == 0x09 then CbEntry(Set, RegisterType.C, 5)
    else if col == 0x0A then CbEntry(Set, D, 5)
    else if col == 0x0B then CbEntry(Set, E, 5)
    else if col == 0x0C then CbEntry(Set, H, 5)
    else if col == 0x0D then CbEntry(Set, L, 5)
    else if col == 0x0E then CbEntry(Set, Hl, 5)
    else if col == 0x0F then CbEntry(Set, A, 5)
    else if col == 0x10 then CbEntry(Set, B, 6)
    else if col == 0x11 then CbEntry(Set, RegisterType.C, 6)
    else if col == 0x12 then CbEntry(Set, D, 6)
    else if col == 0x13 then CbEntry(Set, E, 6)
    else if col == 0x14 then CbEntry(Set, H, 6)
    else if col == 0x15 then CbEntry(Set, L, 6)
    else if col == 0x16 then CbEntry(Set, Hl, 6)
    else if col == 0x17 then CbEntry(Set, A, 6)
    else if col == 0x18 then CbEntry(Set, B, 7)
    else if col == 0x19 then CbEntry(Set, RegisterType.C, 7)
    else if col == 0x1A then CbEntry(Set, D, 7)
    else if col == 0x1B then CbEntry(Set, E, 7)
    else if col == 0x1C then CbEntry(Set, H, 7)
    else if col == 0x1D then CbEntry(Set, L, 7)
    else if col == 0x1E then CbEntry(Set, Hl, 7)
    else CbEntry(Set, A, 7)
  }

  /** `cb_instruction_by_opcode`: every byte selects an entry of the CB table, row by row. */
  function CbInstructionByOpcode(op: Byte): Instruction
  {
    if op < 0x80 then
      if op < 0x40 then
        if op < 0x20 then
          CbRow0(op)
        else
          CbRow1(op - 0x20)
      else
        if op < 0x60 then
          CbRow2(op - 0x40)
        else
          CbRow3(op - 0x60)
    else
      if op < 0xC0 then
        if op < 0xA0 then
          CbRow4(op - 0x80)
        else
          CbRow5(op - 0xA0)
      else
        if op < 0xE0 then
          CbRow6(op - 0xC0)
        else
          CbRow7(op - 0xE0)
  }

  /** The eleven opcodes the hardware leaves undefined, and only these, decode to `InvalidOp`. */
  lemma InvalidOpcodes(op: Byte)
    ensures InstructionByOpcode(op).instType == InvalidOp <==>
            op in {0xD3, 0xDB, 0xDD, 0xE3, 0xE4, 0xEB, 0xEC, 0xED, 0xF4, 0xFC, 0xFD}
  {
    if op <= 0x1F { InvalidOpcodesFrom00(op); } else if op <= 0x3F { InvalidOpcodesFrom20(op); } else if op <= 0x5F { InvalidOpcodesFrom40(op); } else if op <= 0x7F { InvalidOpcodesFrom60(op); } else if op <= 0x9F { InvalidOpcodesFrom80(op); } else if op <= 0xBF { InvalidOpcodesFromA0(op); } else if op <= 0xDF { InvalidOpcodesFromC0(op); } else { InvalidOpcodesFromE0(op); }
  }

  /** `InvalidOpcodes` for the opcodes 0x00-0x1F. */
  lemma InvalidOpcodesFrom00(op: Byte)
    requires 0x00 <= op <= 0x1F
    ensures InstructionByOpcode(op).instType == InvalidOp <==>
            op in {0xD3, 0xDB, 0xDD, 0xE3, 0xE4, 0xEB, 0xEC, 0xED, 0xF4, 0xFC, 0xFD}
  {
    if op == 0x00 {} else if op == 0x01 {} else if op == 0x02 {} else if op == 0x03 {} else if op == 0x04 {} else if op == 0x05 {} else if op == 0x06 {} else if op == 0x07 {} else if op == 0x08 {} else if op == 0x09 {} else if op == 0x0A {} else if op == 0x0B {} else if op == 0x0C {} else if op == 0x0D {} else if op == 0x0E {} else if op == 0x0F {} else if op == 0x10 {} else if op == 0x11 {} else if op == 0x12 {} else if op == 0x13 {} else if op == 0x14 {} else if op == 0x15 {} else if op == 0x16 {} else if op == 0x17 {} else if op == 0x18 {} else if op == 0x19 {} else if op == 0x1A {} else if op == 0x1B {} else if op == 0x1C {} else if op == 0x1D {} else if op == 0x1E {} else {}
  }

  /** `InvalidOpcodes` for the opcodes 0x20-0x3F. */
  lemma InvalidOpcodesFrom20(op: Byte)
    requires 0x20 <= op <= 0x3F
    ensures InstructionByOpcode(op).instType == InvalidOp <==>
            op in {0xD3, 0xDB, 0xDD, 0xE3, 0xE4, 0xEB, 0xEC, 0xED, 0xF4, 0xFC, 0xFD}
  {
    if op == 0x20 {} else if op == 0x21 {} else if op == 0x22 {} else if op == 0x23 {} else if op == 0x24 {} else if op == 0x25 {} else if op == 0x26 {} else if op == 0x27 {} else if op == 0x28 {} else if op == 0x29 {} else if op == 0x2A {} else if op == 0x2B {} else if op == 0x2C {} else if op == 0x2D {} else if op == 0x2E {} else if op == 0x2F {} else if op == 0x30 {} else if op == 0x31 {} else if op == 0x32 {} else if op == 0x33 {} else if op == 0x34 {} else if op == 0x35 {} else if op == 0x36 {} else if op == 0x37 {} else if op == 0x38 {} else if op == 0x39 {} else if op == 0x3A {} else if op == 0x3B {} else if op == 0x3C {} else if op == 0x3D {} else if op == 0x3E {} else {}
  }

  /** `InvalidOpcodes` for the opcodes 0x40-0x5F. */
  lemma InvalidOpcodesFrom40(op: Byte)
    requires 0x40 <= op <= 0x5F
    ensures InstructionByOpcode(op).instType == InvalidOp <==>
            op in {0xD3, 0xDB, 0xDD, 0xE3, 0xE4, 0xEB, 0xEC, 0xED, 0xF4, 0xFC, 0xFD}
  {
    if op == 0x40 {} else if op == 0x41 {} else if op == 0x42 {} else if op == 0x43 {} else if op == 0x44 {} else if op == 0x45 {} else if op == 0x46 {} else if op == 0x47 {} else if op == 0x48 {} else if op == 0x49 {} else if op == 0x4A {} else if op == 0x4B {} else if op == 0x4C {} else if op == 0x4D {} else if op == 0x4E {} else if op == 0x4F {} else if op == 0x50 {} else if op == 0x51 {} else if op == 0x52 {} else if op == 0x53 {} else if op == 0x54 {} else if op == 0x55 {} else if op == 0x56 {} else if op == 0x57 {} else if op == 0x58 {} else if op == 0x59 {} else if op == 0x5A {} else if op == 0x5B {} else if op == 0x5C {} else if op == 0x5D {} else if op == 0x5E {} else {}
  }

  /** `InvalidOpcodes` for the opcodes 0x60-0x7F. */
  lemma InvalidOpcodesFrom60(op: Byte)
    requires 0x60 <= op <= 0x7F
    ensures InstructionByOpcode(op).instType == InvalidOp <==>
            op in {0xD3, 0xDB, 0xDD, 0xE3, 0xE4, 0xEB, 0xEC, 0xED, 0xF4, 0xFC, 0xFD}
  {
    if op == 0x60 {} else if op == 0x61 {} else if op == 0x62 {} else if op == 0x63 {} else if op == 0x64 {} else if op == 0x65 {} else if op == 0x66 {} else if op == 0x67 {} else if op == 0x68 {} else if op == 0x69 {} else if op == 0x6A {} else if op == 0x6B {} else if op == 0x6C {} else if op == 0x6D {} else if op == 0x6E {} else if op == 0x6F {} else if op == 0x70 {} else if op == 0x71 {} else if op == 0x72 {} else if op == 0x73 {} else if op == 0x74 {} else if op == 0x75 {} else if op == 0x76 {} else if op == 0x77 {} else if op == 0x78 {} else if op == 0x79 {} else if op == 0x7A {} else if op == 0x7B {} else if op == 0x7C {} else if op == 0x7D {} else if op == 0x7E {} else {}
  }

  /** `InvalidOpcodes` for the opcodes 0x80-0x9F. */
  lemma InvalidOpcodesFrom80(op: Byte)
    requires 0x80 <= op <= 0x9F
    ensures InstructionByOpcode(op).instType == InvalidOp <==>
            op in {0xD3, 0xDB, 0xDD, 0xE3, 0xE4, 0xEB, 0xEC, 0xED, 0xF4, 0xFC, 0xFD}
  {
    if op == 0x80 {} else if op == 0x81 {} else if op == 0x82 {} else if op == 0x83 {} else if op == 0x84 {} else if op == 0x85 {} else if op == 0x86 {} else if op == 0x87 {} else if op == 0x88 {} else if op == 0x89 {} else if op == 0x8A {} else if op == 0x8B {} else if op == 0x8C {} else if op == 0x8D {} else if op == 0x8E {} else if op == 0x8F {} else if op == 0x90 {} else if op == 0x91 {} else if op == 0x92 {} else if op == 0x93 {} else if op == 0x94 {} else if op == 0x95 {} else if op == 0x96 {} else if op == 0x97 {} else if op == 0x98 {} else if op == 0x99 {} else if op == 0x9A {} else if op == 0x9B {} else if op == 0x9C {} else if op == 0x9D {} else if op == 0x9E {} else {}
  }

  /** `InvalidOpcodes` for the opcodes 0xA0-0xBF. */
  lemma InvalidOpcodesFromA0(op: Byte)
    requires 0xA0 <= op <= 0xBF
    ensures InstructionByOpcode(op).instType == InvalidOp <==>
            op in {0xD3, 0xDB, 0xDD, 0xE3, 0xE4, 0xEB, 0xEC, 0xED, 0xF4, 0xFC, 0xFD}
  {
    if op == 0xA0 {} else if op == 0xA1 {} else if op == 0xA2 {} else if op == 0xA3 {} else if op == 0xA4 {} else if op == 0xA5 {} else if op == 0xA6 {} else if op == 0xA7 {} else if op == 0xA8 {} else if op == 0xA9 {} else if op == 0xAA {} else if op == 0xAB {} else if op == 0xAC {} else if op == 0xAD {} else if op == 0xAE {} else if op == 0xAF {} else if op == 0xB0 {} else if op == 0xB1 {} else if op == 0xB2 {} else if op == 0xB3 {} else if op == 0xB4 {} else if op == 0xB5 {} else if op == 0xB6 {} else if op == 0xB7 {} else if op == 0xB8 {} else if op == 0xB9 {} else if op == 0xBA {} else if op == 0xBB {} else if op == 0xBC {} else if op == 0xBD {} else if op == 0xBE {} else {}
  }

  /** `InvalidOpcodes` for the opcodes 0xC0-0xDF. */
  lemma InvalidOpcodesFromC0(op: Byte)
    requires 0xC0 <= op <= 0xDF
    ensures InstructionByOpcode(op).instType == InvalidOp <==>
            op in {0xD3, 0xDB, 0xDD, 0xE3, 0xE4, 0xEB, 0xEC, 0xED, 0xF4, 0xFC, 0xFD}
  {
    if op == 0xC0 {} else if op == 0xC1 {} else if op == 0xC2 {} else if op == 0xC3 {} else if op == 0xC4 {} else if op == 0xC5 {} else if op == 0xC6 {} else if op == 0xC7 {} else if op == 0xC8 {} else if op == 0xC9 {} else if op == 0xCA {} else if op == 0xCB {} else if op == 0xCC {} else if op == 0xCD {} else if op == 0xCE {} else if op == 0xCF {} else if op == 0xD0 {} else if op == 0xD1 {} else if op == 0xD2 {} else if op == 0xD3 {} else if op == 0xD4 {} else if op == 0xD5 {} else if op == 0xD6 {} else if op == 0xD7 {} else if op == 0xD8 {} else if op == 0xD9 {} else if op == 0xDA {} else if op == 0xDB {} else if op == 0xDC {} else if op == 0xDD {} else if op == 0xDE {} else {}
  }

  /** `InvalidOpcodes` for the opcodes 0xE0-0xFF. */
  lemma InvalidOpcodesFromE0(op: Byte)
    requires 0xE0 <= op <= 0xFF
    ensures InstructionByOpcode(op).instType == InvalidOp <==>
            op in {0xD3, 0xDB, 0xDD, 0xE3, 0xE4, 0xEB, 0xEC, 0xED, 0xF4, 0xFC, 0xFD}
  {
    if op == 0xE0 {} else if op == 0xE1 {} else if op == 0xE2 {} else if op == 0xE3 {} else if op == 0xE4 {} else if op == 0xE5 {} else if op == 0xE6 {} else if op == 0xE7 {} else if op == 0xE8 {} else if op == 0xE9 {} else if op == 0xEA {} else if op == 0xEB {} else if op == 0xEC {} else if op == 0xED {} else if op == 0xEE {} else if op == 0xEF {} else if op == 0xF0 {} else if op == 0xF1 {} else if op == 0xF2 {} else if op == 0xF3 {} else if op == 0xF4 {} else if op == 0xF5 {} else if op == 0xF6 {} else if op == 0xF7 {} else if op == 0xF8 {} else if op == 0xF9 {} else if op == 0xFA {} else if op == 0xFB {} else if op == 0xFC {} else if op == 0xFD {} else if op == 0xFE {} else {}
  }

  /**
   * 0x40-0x7F: 0x76 is HALT and every other opcode is `LD dst, src` with the
   * destination chosen by bits 3-5 and the source by bits 0-2; an (HL)
   * operand turns the register mode into the matching memory mode.
   */
  lemma LoadBlock(op: Byte)
    requires 0x40 <= op <= 0x7F
    ensures op == 0x76 ==> InstructionByOpcode(op).instType == Halt
    ensures op != 0x76 ==>
      var i := InstructionByOpcode(op);
      i.instType == Ld && i.cond == Always && i.param == 0 &&
      if op % 8 == 6 then i.mode == RegisterMemory && i.reg1 == OperandOf(op / 8) && i.reg2 == Hl
      else if op / 8 % 8 == 6 then i.mode == MemoryRegister && i.reg1 == Hl && i.reg2 == OperandOf(op)
      else i.mode == RegisterRegister && i.reg1 == OperandOf(op / 8) && i.reg2 == OperandOf(op)
  {
    if op <= 0x4F { LoadBlockFrom40(op); } else if op <= 0x5F { LoadBlockFrom50(op); } else if op <= 0x6F { LoadBlockFrom60(op); } else { LoadBlockFrom70(op); }
  }

  /** `LoadBlock` for the opcodes 0x40-0x4F. */
  lemma LoadBlockFrom40(op: Byte)
    requires 0x40 <= op <= 0x4F
    requires 0x40 <= op <= 0x7F
    ensures op == 0x76 ==> InstructionByOpcode(op).instType == Halt
    ensures op != 0x76 ==>
      var i := InstructionByOpcode(op);
      i.instType == Ld && i.cond == Always && i.param == 0 &&
      if op % 8 == 6 then i.mode == RegisterMemory && i.reg1 == OperandOf(op / 8) && i.reg2 == Hl
      else if op / 8 % 8 == 6 then i.mode == MemoryRegister && i.reg1 == Hl && i.reg2 == OperandOf(op)
      else i.mode == RegisterRegister && i.reg1 == OperandOf(op / 8) && i.reg2 == OperandOf(op)
  {
    if op == 0x40 {} else if op == 0x41 {} else if op == 0x42 {} else if op == 0x43 {} else if op == 0x44 {} else if op == 0x45 {} else if op == 0x46 {} else if op == 0x47 {} else if op == 0x48 {} else if op == 0x49 {} else if op == 0x4A {} else if op == 0x4B {} else if op == 0x4C {} else if op == 0x4D {} else if op == 0x4E {} else {}
  }

  /** `LoadBlock` for the opcodes 0x50-0x5F. */
  lemma LoadBlockFrom50(op: Byte)
    requires 0x50 <= op <= 0x5F
    requires 0x40 <= op <= 0x7F
    ensures op == 0x76 ==> InstructionByOpcode(op).instType == Halt
    ensures op != 0x76 ==>
      var i := InstructionByOpcode(op);
      i.instType == Ld && i.cond == Always && i.param == 0 &&
      if op % 8 == 6 then i.mode == RegisterMemory && i.reg1 == OperandOf(op / 8) && i.reg2 == Hl
      else if op / 8 % 8 == 6 then i.mode == MemoryRegister && i.reg1 == Hl && i.reg2 == OperandOf(op)
      else i.mode == RegisterRegister && i.reg1 == OperandOf(op / 8) && i.reg2 == OperandOf(op)
  {
    if op == 0x50 {} else if op == 0x51 {} else if op == 0x52 {} else if op == 0x53 {} else if op == 0x54 {} else if op == 0x55 {} else if op == 0x56 {} else if op == 0x57 {} else if op == 0x58 {} else if op == 0x59 {} else if op == 0x5A {} else if op == 0x5B {} else if op == 0x5C {} else if op == 0x5D {} else if op == 0x5E {} else {}
  }

  /** `LoadBlock` for the opcodes 0x60-0x6F. */
  lemma LoadBlockFrom60(op: Byte)
    requires 0x60 <= op <= 0x6F
    requires 0x40 <= op <= 0x7F
    ensures op == 0x76 ==> InstructionByOpcode(op).instType == Halt
    ensures op != 0x76 ==>
      var i := InstructionByOpcode(op);
      i.instType == Ld && i.cond == Always && i.param == 0 &&
      if op % 8 == 6 then i.mode == RegisterMemory && i.reg1 == OperandOf(op / 8) && i.reg2 == Hl
      else if op / 8 % 8 == 6 then i.mode == MemoryRegister && i.reg1 == Hl && i.reg2 == OperandOf(op)
      else i.mode == RegisterRegister && i.reg1 == OperandOf(op / 8) && i.reg2 == OperandOf(op)
  {
    if op == 0x60 {} else if op == 0x61 {} else if op == 0x62 {} else if op == 0x63 {} else if op == 0x64 {} else if op == 0x65 {} else if op == 0x66 {} else if op == 0x67 {} else if op == 0x68 {} else if op == 0x69 {} else if op == 0x6A {} else if op == 0x6B {} else if op == 0x6C {} else if op == 0x6D {} else if op == 0x6E {} else {}
  }

  /** `LoadBlock` for the opcodes 0x70-0x7F. */
  lemma LoadBlockFrom70(op: Byte)
    requires 0x70 <= op <= 0x7F
    requires 0x40 <= op <= 0x7F
    ensures op == 0x76 ==> InstructionByOpcode(op).instType == Halt
    ensures op != 0x76 ==>
      var i := InstructionByOpcode(op);
      i.instType == Ld && i.cond == Always && i.param == 0 &&
      if op % 8 == 6 then i.mode == RegisterMemory && i.reg1 == OperandOf(op / 8) && i.reg2 == Hl
      else if op / 8 % 8 == 6 then i.mode == MemoryRegister && i.reg1 == Hl && i.reg2 == OperandOf(op)
      else i.mode == RegisterRegister && i.reg1 == OperandOf(op / 8) && i.reg2 == OperandOf(op)
  {
    if op == 0x70 {} else if op == 0x71 {} else if op == 0x72 {} else if op == 0x73 {} else if op == 0x74 {} else if op == 0x75 {} else if op == 0x76 {} else if op == 0x77 {} else if op == 0x78 {} else if op == 0x79 {} else if op == 0x7A {} else if op == 0x7B {} else if op == 0x7C {} else if op == 0x7D {} else if op == 0x7E {} else {}
  }

  /** The ALU operation selected by bits 3-5 of 0x80-0xBF and of 0xC6-0xFE. */
  function AluOf(k: Byte): InstructionType
  {
    if k % 8 == 0 then Add else if k % 8 == 1 then Adc else if k % 8 == 2 then Sub
    else if k % 8 == 3 then Sbc else if k % 8 == 4 then And else if k % 8 == 5 then Xor
    else if k % 8 == 6 then Or else Cp
  }

  /**
   * 0x80-0xBF: the ALU operation of bits 3-5 applied to A and the operand of
   * bits 0-2, read from memory at HL for (HL).
   */
  lemma AluBlock(op: Byte)
    requires 0x80 <= op <= 0xBF
    ensures var i := InstructionByOpcode(op);
      i.instType == AluOf(op / 8) && i.reg1 == A && i.cond == Always &&
      if op % 8 == 6 then i.mode == RegisterMemory && i.reg2 == Hl
      else i.mode == RegisterRegister && i.reg2 == OperandOf(op)
  {
    if op <= 0x8F { AluBlockFrom80(op); } else if op <= 0x9F { AluBlockFrom90(op); } else if op <= 0xAF { AluBlockFromA0(op); } else { AluBlockFromB0(op); }
  }

  /** `AluBlock` for the opcodes 0x80-0x8F. */
  lemma AluBlockFrom80(op: Byte)
    requires 0x80 <= op <= 0x8F
    requires 0x80 <= op <= 0xBF
    ensures var i := InstructionByOpcode(op);
      i.instType == AluOf(op / 8) && i.reg1 == A && i.cond == Always &&
      if op % 8 == 6 then i.mode == RegisterMemory && i.reg2 == Hl
      else i.mode == RegisterRegister && i.reg2 == OperandOf(op)
  {
    if op == 0x80 {} else if op == 0x81 {} else if op == 0x82 {} else if op == 0x83 {} else if op == 0x84 {} else if op == 0x85 {} else if op == 0x86 {} else if op == 0x87 {} else if op == 0x88 {} else if op == 0x89 {} else if op == 0x8A {} else if op == 0x8B {} else if op == 0x8C {} else if op == 0x8D {} else if op == 0x8E {} else {}
  }

  /** `AluBlock` for the opcodes 0x90-0x9F. */
  lemma AluBlockFrom90(op: Byte)
    requires 0x90 <= op <= 0x9F
    requires 0x80 <= op <= 0xBF
    ensures var i := InstructionByOpcode(op);
      i.instType == AluOf(op / 8) && i.reg1 == A && i.cond == Always &&
      if op % 8 == 6 then i.mode == RegisterMemory && i.reg2 == Hl
      else i.mode == RegisterRegister && i.reg2 == OperandOf(op)
  {
    if op == 0x90 {} else if op == 0x91 {} else if op == 0x92 {} else if op == 0x93 {} else if op == 0x94 {} else if op == 0x95 {} else if op == 0x96 {} else if op == 0x97 {} else if op == 0x98 {} else if op == 0x99 {} else if op == 0x9A {} else if op == 0x9B {} else if op == 0x9C {} else if op == 0x9D {} else if op == 0x9E {} else {}
  }

  /** `AluBlock` for the opcodes 0xA0-0xAF. */
  lemma AluBlockFromA0(op: Byte)
    requires 0xA0 <= op <= 0xAF
    requires 0x80 <= op <= 0xBF
    ensures var i := InstructionByOpcode(op);
      i.instType == AluOf(op / 8) && i.reg1 == A && i.cond == Always &&
      if op % 8 == 6 then i.mode == RegisterMemory && i.reg2 == Hl
      else i.mode == RegisterRegister && i.reg2 == OperandOf(op)
  {
    if op == 0xA0 {} else if op == 0xA1 {} else if op == 0xA2 {} else if op == 0xA3 {} else if op == 0xA4 {} else if op == 0xA5 {} else if op == 0xA6 {} else if op == 0xA7 {} else if op == 0xA8 {} else if op == 0xA9 {} else if op == 0xAA {} else if op == 0xAB {} else if op == 0xAC {} else if op == 0xAD {} else if op == 0xAE {} else {}
  }

  /** `AluBlock` for the opcodes 0xB0-0xBF. */
  lemma AluBlockFromB0(op: Byte)
    requires 0xB0 <= op <= 0xBF
    requires 0x80 <= op <= 0xBF
    ensures var i := InstructionByOpcode(op);
      i.instType == AluOf(op / 8) && i.reg1 == A && i.cond == Always &&
      if op % 8 == 6 then i.mode == RegisterMemory && i.reg2 == Hl
      else i.mode == RegisterRegister && i.reg2 == OperandOf(op)
  {
    if op == 0xB0 {} else if op == 0xB1 {} else if op == 0xB2 {} else if op == 0xB3 {} else if op == 0xB4 {} else if op == 0xB5 {} else if op == 0xB6 {} else if op == 0xB7 {} else if op == 0xB8 {} else if op == 0xB9 {} else if op == 0xBA {} else if op == 0xBB {} else if op == 0xBC {} else if op == 0xBD {} else if op == 0xBE {} else {}
  }

  /** The immediate ALU forms 0xC6, 0xCE, ..., 0xFE use the same operation order on A and d8. */
  lemma AluImmediate(op: Byte)
    requires op >= 0xC0 && op % 8 == 6
    ensures var i := InstructionByOpcode(op);
      i.instType == AluOf(op / 8) && i.mode == RegisterD8 && i.reg1 == A
  {
    if op == 0xC6 {} else if op == 0xCE {} else if op == 0xD6 {} else if op == 0xDE {} else if op == 0xE6 {} else if op == 0xEE {} else if op == 0xF6 {} else {}
  }

  /** RST opcodes are exactly 0xC7 + 8k, and each carries the target 8k as its parameter. */
  lemma RestartVectors(op: Byte)
    ensures InstructionByOpcode(op).instType == Rst <==> op % 8 == 7 && op >= 0xC0
    ensures op % 8 == 7 && op >= 0xC0 ==> InstructionByOpcode(op).param == op - 0xC7
  {
    if op <= 0x1F { RestartVectorsFrom00(op); } else if op <= 0x3F { RestartVectorsFrom20(op); } else if op <= 0x5F { RestartVectorsFrom40(op); } else if op <= 0x7F { RestartVectorsFrom60(op); } else if op <= 0x9F { RestartVectorsFrom80(op); } else if op <= 0xBF { RestartVectorsFromA0(op); } else if op <= 0xDF { RestartVectorsFromC0(op); } else { RestartVectorsFromE0(op); }
  }

  /** `RestartVectors` for the opcodes 0x00-0x1F. */
  lemma RestartVectorsFrom00(op: Byte)
    requires 0x00 <= op <= 0x1F
    ensures InstructionByOpcode(op).instType == Rst <==> op % 8 == 7 && op >= 0xC0
    ensures op % 8 == 7 && op >= 0xC0 ==> InstructionByOpcode(op).param == op - 0xC7
  {
    if op == 0x00 {} else if op == 0x01 {} else if op == 0x02 {} else if op == 0x03 {} else if op == 0x04 {} else if op == 0x05 {} else if op == 0x06 {} else if op == 0x07 {} else if op == 0x08 {} else if op == 0x09 {} else if op == 0x0A {} else if op == 0x0B {} else if op == 0x0C {} else if op == 0x0D {} else if op == 0x0E {} else if op == 0x0F {} else if op == 0x10 {} else if op == 0x11 {} else if op == 0x12 {} else if op == 0x13 {} else if op == 0x14 {} else if op == 0x15 {} else if op == 0x16 {} else if op == 0x17 {} else if op == 0x18 {} else if op == 0x19 {} else if op == 0x1A {} else if op == 0x1B {} else if op == 0x1C {} else if op == 0x1D {} else if op == 0x1E {} else {}
  }

  /** `RestartVectors` for the opcodes 0x20-0x3F. */
  lemma RestartVectorsFrom20(op: Byte)
    requires 0x20 <= op <= 0x3F
    ensures InstructionByOpcode(op).instType == Rst <==> op % 8 == 7 && op >= 0xC0
    ensures op % 8 == 7 && op >= 0xC0 ==> InstructionByOpcode(op).param == op - 0xC7
  {
    if op == 0x20 {} else if op == 0x21 {} else if op == 0x22 {} else if op == 0x23 {} else if op == 0x24 {} else if op == 0x25 {} else if op == 0x26 {} else if op == 0x27 {} else if op == 0x28 {} else if op == 0x29 {} else if op == 0x2A {} else if op == 0x2B {} else if op == 0x2C {} else if op == 0x2D {} else if op == 0x2E {} else if op == 0x2F {} else if op == 0x30 {} else if op == 0x31 {} else if op == 0x32 {} else if op == 0x33 {} else if op == 0x34 {} else if op == 0x35 {} else if op == 0x36 {} else if op == 0x37 {} else if op == 0x38 {} else if op == 0x39 {} else if op == 0x3A {} else if op == 0x3B {} else if op == 0x3C {} else if op == 0x3D {} else if op == 0x3E {} else {}
  }

  /** `RestartVectors` for the opcodes 0x40-0x5F. */
  lemma RestartVectorsFrom40(op: Byte)
    requires 0x40 <= op <= 0x5F
    ensures InstructionByOpcode(op).instType == Rst <==> op % 8 == 7 && op >= 0xC0
    ensures op % 8 == 7 && op >= 0xC0 ==> InstructionByOpcode(op).param == op - 0xC7
  {
    if op == 0x40 {} else if op == 0x41 {} else if op == 0x42 {} else if op == 0x43 {} else if op == 0x44 {} else if op == 0x45 {} else if op == 0x46 {} else if op == 0x47 {} else if op == 0x48 {} else if op == 0x49 {} else if op == 0x4A {} else if op == 0x4B {} else if op == 0x4C {} else if op == 0x4D {} else if op == 0x4E {} else if op == 0x4F {} else if op == 0x50 {} else if op == 0x51 {} else if op == 0x52 {} else if op == 0x53 {} else if op == 0x54 {} else if op == 0x55 {} else if op == 0x56 {} else if op == 0x57 {} else if op == 0x58 {} else if op == 0x59 {} else if op == 0x5A {} else if op == 0x5B {} else if op == 0x5C {} else if op == 0x5D {} else if op == 0x5E {} else {}
  }

  /** `RestartVectors` for the opcodes 0x60-0x7F. */
  lemma RestartVectorsFrom60(op: Byte)
    requires 0x60 <= op <= 0x7F
    ensures InstructionByOpcode(op).instType == Rst <==> op % 8 == 7 && op >= 0xC0
    ensures op % 8 == 7 && op >= 0xC0 ==> InstructionByOpcode(op).param == op - 0xC7
  {
    if op == 0x60 {} else if op == 0x61 {} else if op == 0x62 {} else if op == 0x63 {} else if op == 0x64 {} else if op == 0x65 {} else if op == 0x66 {} else if op == 0x67 {} else if op == 0x68 {} else if op == 0x69 {} else if op == 0x6A {} else if op == 0x6B {} else if op == 0x6C {} else if op == 0x6D {} else if op == 0x6E {} else if op == 0x6F {} else if op == 0x70 {} else if op == 0x71 {} else if op == 0x72 {} else if op == 0x73 {} else if op == 0x74 {} else if op == 0x75 {} else if op == 0x76 {} else if op == 0x77 {} else if op == 0x78 {} else if op == 0x79 {} else if op == 0x7A {} else if op == 0x7B {} else if op == 0x7C {} else if op == 0x7D {} else if op == 0x7E {} else {}
  }

  /** `RestartVectors` for the opcodes 0x80-0x9F. */
  lemma RestartVectorsFrom80(op: Byte)
    requires 0x80 <= op <= 0x9F
    ensures InstructionByOpcode(op).instType == Rst <==> op % 8 == 7 && op >= 0xC0
    ensures op % 8 == 7 && op >= 0xC0 ==> InstructionByOpcode(op).param == op - 0xC7
  {
    if op == 0x80 {} else if op == 0x81 {} else if op == 0x82 {} else if op == 0x83 {} else if op == 0x84 {} else if op == 0x85 {} else if op == 0x86 {} else if op == 0x87 {} else if op == 0x88 {} else if op == 0x89 {} else if op == 0x8A {} else if op == 0x8B {} else if op == 0x8C {} else if op == 0x8D {} else if op == 0x8E {} else if op == 0x8F {} else if op == 0x90 {} else if op == 0x91 {} else if op == 0x92 {} else if op == 0x93 {} else if op == 0x94 {} else if op == 0x95 {} else if op == 0x96 {} else if op == 0x97 {} else if op == 0x98 {} else if op == 0x99 {} else if op == 0x9A {} else if op == 0x9B {} else if op == 0x9C {} else if op == 0x9D {} else if op == 0x9E {} else {}
  }

  /** `RestartVectors` for the opcodes 0xA0-0xBF. */
  lemma RestartVectorsFromA0(op: Byte)
    requires 0xA0 <= op <= 0xBF
    ensures InstructionByOpcode(op).instType == Rst <==> op % 8 == 7 && op >= 0xC0
    ensures op % 8 == 7 && op >= 0xC0 ==> InstructionByOpcode(op).param == op - 0xC7
  {
    if op == 0xA0 {} else if op == 0xA1 {} else if op == 0xA2 {} else if op == 0xA3 {} else if op == 0xA4 {} else if op == 0xA5 {} else if op == 0xA6 {} else if op == 0xA7 {} else if op == 0xA8 {} else if op == 0xA9 {} else if op == 0xAA {} else if op == 0xAB {} else if op == 0xAC {} else if op == 0xAD {} else if op == 0xAE {} else if op == 0xAF {} else if op == 0xB0 {} else if op == 0xB1 {} else if op == 0xB2 {} else if op == 0xB3 {} else if op == 0xB4 {} else if op == 0xB5 {} else if op == 0xB6 {} else if op == 0xB7 {} else if op == 0xB8 {} else if op == 0xB9 {} else if op == 0xBA {} else if op == 0xBB {} else if op == 0xBC {} else if op == 0xBD {} else if op == 0xBE {} else {}
  }

  /** `RestartVectors` for the opcodes 0xC0-0xDF. */
  lemma RestartVectorsFromC0(op: Byte)
    requires 0xC0 <= op <= 0xDF
    ensures InstructionByOpcode(op).instType == Rst <==> op % 8 == 7 && op >= 0xC0
    ensures op % 8 == 7 && op >= 0xC0 ==> InstructionByOpcode(op).param == op - 0xC7
  {
    if op == 0xC0 {} else if op == 0xC1 {} else if op == 0xC2 {} else if op == 0xC3 {} else if op == 0xC4 {} else if op == 0xC5 {} else if op == 0xC6 {} else if op == 0xC7 {} else if op == 0xC8 {} else if op == 0xC9 {} else if op == 0xCA {} else if op == 0xCB {} else if op == 0xCC {} else if op == 0xCD {} else if op == 0xCE {} else if op == 0xCF {} else if op == 0xD0 {} else if op == 0xD1 {} else if op == 0xD2 {} else if op == 0xD3 {} else if op == 0xD4 {} else if op == 0xD5 {} else if op == 0xD6 {} else if op == 0xD7 {} else if op == 0xD8 {} else if op == 0xD9 {} else if op == 0xDA {} else if op == 0xDB {} else if op == 0xDC {} else if op == 0xDD {} else if op == 0xDE {} else {}
  }

  /** `RestartVectors` for the opcodes 0xE0-0xFF. */
  lemma RestartVectorsFromE0(op: Byte)
    requires 0xE0 <= op <= 0xFF
    ensures InstructionByOpcode(op).instType == Rst <==> op % 8 == 7 && op >= 0xC0
    ensures op % 8 == 7 && op >= 0xC0 ==> InstructionByOpcode(op).param == op - 0xC7
  {
    if op == 0xE0 {} else if op == 0xE1 {} else if op == 0xE2 {} else if op == 0xE3 {} else if op == 0xE4 {} else if op == 0xE5 {} else if op == 0xE6 {} else if op == 0xE7 {} else if op == 0xE8 {} else if op == 0xE9 {} else if op == 0xEA {} else if op == 0xEB {} else if op == 0xEC {} else if op == 0xED {} else if op == 0xEE {} else if op == 0xEF {} else if op == 0xF0 {} else if op == 0xF1 {} else if op == 0xF2 {} else if op == 0xF3 {} else if op == 0xF4 {} else if op == 0xF5 {} else if op == 0xF6 {} else if op == 0xF7 {} else if op == 0xF8 {} else if op == 0xF9 {} else if op == 0xFA {} else if op == 0xFB {} else if op == 0xFC {} else if op == 0xFD {} else if op == 0xFE {} else {}
  }

  /** JR: 0x18 is unconditional and 0x20/0x28/0x30/0x38 test NZ/Z/NC/C. */
  lemma RelativeJumpConditions()
    ensures InstructionByOpcode(0x18) == Instruction(Jr, D8, NoReg, NoReg, Always, 0)
    ensures InstructionByOpcode(0x20) == Instruction(Jr, D8, NoReg, NoReg, Nz, 0)
    ensures InstructionByOpcode(0x28) == Instruction(Jr, D8, NoReg, NoReg, Z, 0)
    ensures InstructionByOpcode(0x30) == Instruction(Jr, D8, NoReg, NoReg, Nc, 0)
    ensures InstructionByOpcode(0x38) == Instruction(Jr, D8, NoReg, NoReg, ConditionType.C, 0)
  {
  }

  /** The condition code in bits 3-4 of the conditional forms. */
  function ConditionOf(k: Byte): ConditionType
  {
    if k % 4 == 0 then Nz else if k % 4 == 1 then Z else if k % 4 == 2 then Nc else ConditionType.C
  }

  /** Conditional RET, JP and CALL (0xC0-0xDF, low bits 0, 2 and 4) test the condition of bits 3-4. */
  lemma ConditionalControl(op: Byte)
    requires 0xC0 <= op <= 0xDF && (op % 8 == 0 || op % 8 == 2 || op % 8 == 4)
    ensures var i := InstructionByOpcode(op);
      i.cond == ConditionOf(op / 8) &&
      i.instType == (if op % 8 == 0 then Ret else if op % 8 == 2 then Jp else Call)
  {
    if op == 0xC0 {} else if op == 0xC2 {} else if op == 0xC4 {} else if op == 0xC8 {} else if op == 0xCA {} else if op == 0xCC {} else if op == 0xD0 {} else if op == 0xD2 {} else if op == 0xD4 {} else if op == 0xD8 {} else if op == 0xDA {} else {}
  }

  /** The shift/rotate operation selected by bits 3-5 of a CB opcode below 0x40. */
  function RotationOf(k: Byte): InstructionType
  {
    if k % 8 == 0 then Rlc else if k % 8 == 1 then Rrc else if k % 8 == 2 then Rl
    else if k % 8 == 3 then Rr else if k % 8 == 4 then Sla else if k % 8 == 5 then Sra
    else if k % 8 == 6 then Swap else Srl
  }

  /** Every CB entry has mode Register, reg1 the operand of bits 0-2 ((HL) as `Hl`), and nothing else. */
  lemma CbOperand(op: Byte)
    ensures var i := CbInstructionByOpcode(op);
      i.mode == Register && i.reg1 == OperandOf(op) && i.reg2 == NoReg && i.cond == Always
  {
    if op <= 0x07 { CbOperandFrom00(op); } else if op <= 0x0F { CbOperandFrom08(op); } else if op <= 0x17 { CbOperandFrom10(op); } else if op <= 0x1F { CbOperandFrom18(op); } else if op <= 0x27 { CbOperandFrom20(op); } else if op <= 0x2F { CbOperandFrom28(op); } else if op <= 0x37 { CbOperandFrom30(op); } else if op <= 0x3F { CbOperandFrom38(op); } else if op <= 0x47 { CbOperandFrom40(op); } else if op <= 0x4F { CbOperandFrom48(op); } else if op <= 0x57 { CbOperandFrom50(op); } else if op <= 0x5F { CbOperandFrom58(op); } else if op <= 0x67 { CbOperandFrom60(op); } else if op <= 0x6F { CbOperandFrom68(op); } else if op <= 0x77 { CbOperandFrom70(op); } else if op <= 0x7F { CbOperandFrom78(op); } else if op <= 0x87 { CbOperandFrom80(op); } else if op <= 0x8F { CbOperandFrom88(op); } else if op <= 0x97 { CbOperandFrom90(op); } else if op <= 0x9F { CbOperandFrom98(op); } else if op <= 0xA7 { CbOperandFromA0(op); } else if op <= 0xAF { CbOperandFromA8(op); } else if op <= 0xB7 { CbOperandFromB0(op); } else if op <= 0xBF { CbOperandFromB8(op); } else if op <= 0xC7 { CbOperandFromC0(op); } else if op <= 0xCF { CbOperandFromC8(op); } else if op <= 0xD7 { CbOperandFromD0(op); } else if op <= 0xDF { CbOperandFromD8(op); } else if op <= 0xE7 { CbOperandFromE0(op); } else if op <= 0xEF { CbOperandFromE8(op); } else if op <= 0xF7 { CbOperandFromF0(op); } else { CbOperandFromF8(op); }
  }

  /** `CbOperand` for the opcodes 0x00-0x07. */
  lemma CbOperandFrom00(op: Byte)
    requires 0x00 <= op <= 0x07
    ensures var i := CbInstructionByOpcode(op);
      i.mode == Register && i.reg1 == OperandOf(op) && i.reg2 == NoReg && i.cond == Always
  {
    if op == 0x00 {} else if op == 0x01 {} else if op == 0x02 {} else if op == 0x03 {} else if op == 0x04 {} else if op == 0x05 {} else if op == 0x06 {} else {}
  }

  /** `CbOperand` for the opcodes 0x08-0x0F. */
  lemma CbOperandFrom08(op: Byte)
    requires 0x08 <= op <= 0x0F
    ensures var i := CbInstructionByOpcode(op);
      i.mode == Register && i.reg1 == OperandOf(op) && i.reg2 == NoReg && i.cond == Always
  {
    if op == 0x08 {} else if op == 0x09 {} else if op == 0x0A {} else if op == 0x0B {} else if op == 0x0C {} else if op == 0x0D {} else if op == 0x0E {} else {}
  }

  /** `CbOperand` for the opcodes 0x10-0x17. */
  lemma CbOperandFrom10(op: Byte)
    requires 0x10 <= op <= 0x17
    ensures var i := CbInstructionByOpcode(op);
      i.mode == Register && i.reg1 == OperandOf(op) && i.reg2 == NoReg && i.cond == Always
  {
    if op == 0x10 {} else if op == 0x11 {} else if op == 0x12 {} else if op == 0x13 {} else if op == 0x14 {} else if op == 0x15 {} else if op == 0x16 {} else {}
  }

  /** `CbOperand` for the opcodes 0x18-0x1F. */
  lemma CbOperandFrom18(op: Byte)
    requires 0x18 <= op <= 0x1F
    ensures var i := CbInstructionByOpcode(op);
      i.mode == Register && i.reg1 == OperandOf(op) && i.reg2 == NoReg && i.cond == Always
  {
    if op == 0x18 {} else if op == 0x19 {} else if op == 0x1A {} else if op == 0x1B {} else if op == 0x1C {} else if op == 0x1D {} else if op == 0x1E {} else {}
  }

  /** `CbOperand` for the opcodes 0x20-0x27. */
  lemma CbOperandFrom20(op: Byte)
    requires 0x20 <= op <= 0x27
    ensures var i := CbInstructionByOpcode(op);
      i.mode == Register && i.reg1 == OperandOf(op) && i.reg2 == NoReg && i.cond == Always
  {
    if op == 0x20 {} else if op == 0x21 {} else if op == 0x22 {} else if op == 0x23 {} else if op == 0x24 {} else if op == 0x25 {} else if op == 0x26 {} else {}
  }

  /** `CbOperand` for the opcodes 0x28-0x2F. */
  lemma CbOperandFrom28(op: Byte)
    requires 0x28 <= op <= 0x2F
    ensures var i := CbInstructionByOpcode(op);
      i.mode == Register && i.reg1 == OperandOf(op) && i.reg2 == NoReg && i.cond == Always
  {
    if op == 0x28 {} else if op == 0x29 {} else if op == 0x2A {} else if op == 0x2B {} else if op == 0x2C {} else if op == 0x2D {} else if op == 0x2E {} else {}
  }

  /** `CbOperand` for the opcodes 0x30-0x37. */
  lemma CbOperandFrom30(op: Byte)
    requires 0x30 <= op <= 0x37
    ensures var i := CbInstructionByOpcode(op);
      i.mode == Register && i.reg1 == OperandOf(op) && i.reg2 == NoReg && i.cond == Always
  {
    if op == 0x30 {} else if op == 0x31 {} else if op == 0x32 {} else if op == 0x33 {} else if op == 0x34 {} else if op == 0x35 {} else if op == 0x36 {} else {}
  }

  /** `CbOperand` for the opcodes 0x38-0x3F. */
  lemma CbOperandFrom38(op: Byte)
    requires 0x38 <= op <= 0x3F
    ensures var i := CbInstructionByOpcode(op);
      i.mode == Register && i.reg1 == OperandOf(op) && i.reg2 == NoReg && i.cond == Always
  {
    if op == 0x38 {} else if op == 0x39 {} else if op == 0x3A {} else if op == 0x3B {} else if op == 0x3C {} else if op == 0x3D {} else if op == 0x3E {} else {}
  }

  /** `CbOperand` for the opcodes 0x40-0x47. */
  lemma CbOperandFrom40(op: Byte)
    requires 0x40 <= op <= 0x47
    ensures var i := CbInstructionByOpcode(op);
      i.mode == Register && i.reg1 == OperandOf(op) && i.reg2 == NoReg && i.cond == Always
  {
    if op == 0x40 {} else if op == 0x41 {} else if op == 0x42 {} else if op == 0x43 {} else if op == 0x44 {} else if op == 0x45 {} else if op == 0x46 {} else {}
  }

  /** `CbOperand` for the opcodes 0x48-0x4F. */
  lemma CbOperandFrom48(op: Byte)
    requires 0x48 <= op <= 0x4F
    ensures var i := CbInstructionByOpcode(op);
      i.mode == Register && i.reg1 == OperandOf(op) && i.reg2 == NoReg && i.cond == Always
  {
    if op == 0x48 {} else if op == 0x49 {} else if op == 0x4A {} else if op == 0x4B {} else if op == 0x4C {} else if op == 0x4D {} else if op == 0x4E {} else {}
  }

  /** `CbOperand` for the opcodes 0x50-0x57. */
  lemma CbOperandFrom50(op: Byte)
    requires 0x50 <= op <= 0x57
    ensures var i := CbInstructionByOpcode(op);
      i.mode == Register && i.reg1 == OperandOf(op) && i.reg2 == NoReg && i.cond == Always
  {
    if op == 0x50 {} else if op == 0x51 {} else if op == 0x52 {} else if op == 0x53 {} else if op == 0x54 {} else if op == 0x55 {} else if op == 0x56 {} else {}
  }

  /** `CbOperand` for the opcodes 0x58-0x5F. */
  lemma CbOperandFrom58(op: Byte)
    requires 0x58 <= op <= 0x5F
    ensures var i := CbInstructionByOpcode(op);
      i.mode == Register && i.reg1 == OperandOf(op) && i.reg2 == NoReg && i.cond == Always
  {
    if op == 0x58 {} else if op == 0x59 {} else if op == 0x5A {} else if op == 0x5B {} else if op == 0x5C {} else if op == 0x5D {} else if op == 0x5E {} else {}
  }

  /** `CbOperand` for the opcodes 0x60-0x67. */
  lemma CbOperandFrom60(op: Byte)
    requires 0x60 <= op <= 0x67
    ensures var i := CbInstructionByOpcode(op);
      i.mode == Register && i.reg1 == OperandOf(op) && i.reg2 == NoReg && i.cond == Always
  {
    if op == 0x60 {} else if op == 0x61 {} else if op == 0x62 {} else if op == 0x63 {} else if op == 0x64 {} else if op == 0x65 {} else if op == 0x66 {} else {}
  }

  /** `CbOperand` for the opcodes 0x68-0x6F. */
  lemma CbOperandFrom68(op: Byte)
    requires 0x68 <= op <= 0x6F
    ensures var i := CbInstructionByOpcode(op);
      i.mode == Register && i.reg1 == OperandOf(op) && i.reg2 == NoReg && i.cond == Always
  {
    if op == 0x68 {} else if op == 0x69 {} else if op == 0x6A {} else if op == 0x6B {} else if op == 0x6C {} else if op == 0x6D {} else if op == 0x6E {} else {}
  }

  /** `CbOperand` for the opcodes 0x70-0x77. */
  lemma CbOperandFrom70(op: Byte)
    requires 0x70 <= op <= 0x77
    ensures var i := CbInstructionByOpcode(op);
      i.mode == Register && i.reg1 == OperandOf(op) && i.reg2 == NoReg && i.cond == Always
  {
    if op == 0x70 {} else if op == 0x71 {} else if op == 0x72 {} else if op == 0x73 {} else if op == 0x74 {} else if op == 0x75 {} else if op == 0x76 {} else {}
  }

  /** `CbOperand` for the opcodes 0x78-0x7F. */
  lemma CbOperandFrom78(op: Byte)
    requires 0x78 <= op <= 0x7F
    ensures var i := CbInstructionByOpcode(op);
      i.mode == Register && i.reg1 == OperandOf(op) && i.reg2 == NoReg && i.cond == Always
  {
    if op == 0x78 {} else if op == 0x79 {} else if op == 0x7A {} else if op == 0x7B {} else if op == 0x7C {} else if op == 0x7D {} else if op == 0x7E {} else {}
  }

  /** `CbOperand` for the opcodes 0x80-0x87. */
  lemma CbOperandFrom80(op: Byte)
    requires 0x80 <= op <= 0x87
    ensures var i := CbInstructionByOpcode(op);
      i.mode == Register && i.reg1 == OperandOf(op) && i.reg2 == NoReg && i.cond == Always
  {
    if op == 0x80 {} else if op == 0x81 {} else if op == 0x82 {} else if op == 0x83 {} else if op == 0x84 {} else if op == 0x85 {} else if op == 0x86 {} else {}
  }

  /** `CbOperand` for the opcodes 0x88-0x8F. */
  lemma CbOperandFrom88(op: Byte)
    requires 0x88 <= op <= 0x8F
    ensures var i := CbInstructionByOpcode(op);
      i.mode == Register && i.reg1 == OperandOf(op) && i.reg2 == NoReg && i.cond == Always
  {
    if op == 0x88 {} else if op == 0x89 {} else if op == 0x8A {} else if op == 0x8B {} else if op == 0x8C {} else if op == 0x8D {} else if op == 0x8E {} else {}
  }

  /** `CbOperand` for the opcodes 0x90-0x97. */
  lemma CbOperandFrom90(op: Byte)
    requires 0x90 <= op <= 0x97
    ensures var i := CbInstructionByOpcode(op);
      i.mode == Register && i.reg1 == OperandOf(op) && i.reg2 == NoReg && i.cond == Always
  {
    if op == 0x90 {} else if op == 0x91 {} else if op == 0x92 {} else if op == 0x93 {} else if op == 0x94 {} else if op == 0x95 {} else if op == 0x96 {} else {}
  }

  /** `CbOperand` for the opcodes 0x98-0x9F. */
  lemma CbOperandFrom98(op: Byte)
    requires 0x98 <= op <= 0x9F
    ensures var i := CbInstructionByOpcode(op);
      i.mode == Register && i.reg1 == OperandOf(op) && i.reg2 == NoReg && i.cond == Always
  {
    if op == 0x98 {} else if op == 0x99 {} else if op == 0x9A {} else if op == 0x9B {} else if op == 0x9C {} else if op == 0x9D {} else if op == 0x9E {} else {}
  }

  /** `CbOperand` for the opcodes 0xA0-0xA7. */
  lemma CbOperandFromA0(op: Byte)
    requires 0xA0 <= op <= 0xA7
    ensures var i := CbInstructionByOpcode(op);
      i.mode == Register && i.reg1 == OperandOf(op) && i.reg2 == NoReg && i.cond == Always
  {
    if op == 0xA0 {} else if op == 0xA1 {} else if op == 0xA2 {} else if op == 0xA3 {} else if op == 0xA4 {} else if op == 0xA5 {} else if op == 0xA6 {} else {}
  }

  /** `CbOperand` for the opcodes 0xA8-0xAF. */
  lemma CbOperandFromA8(op: Byte)
    requires 0xA8 <= op <= 0xAF
    ensures var i := CbInstructionByOpcode(op);
      i.mode == Register && i.reg1 == OperandOf(op) && i.reg2 == NoReg && i.cond == Always
  {
    if op == 0xA8 {} else if op == 0xA9 {} else if op == 0xAA {} else if op == 0xAB {} else if op == 0xAC {} else if op == 0xAD {} else if op == 0xAE {} else {}
  }

  /** `CbOperand` for the opcodes 0xB0-0xB7. */
  lemma CbOperandFromB0(op: Byte)
    requires 0xB0 <= op <= 0xB7
    ensures var i := CbInstructionByOpcode(op);
      i.mode == Register && i.reg1 == OperandOf(op) && i.reg2 == NoReg && i.cond == Always
  {
    if op == 0xB0 {} else if op == 0xB1 {} else if op == 0xB2 {} else if op == 0xB3 {} else if op == 0xB4 {} else if op == 0xB5 {} else if op == 0xB6 {} else {}
  }

  /** `CbOperand` for the opcodes 0xB8-0xBF. */
  lemma CbOperandFromB8(op: Byte)
    requires 0xB8 <= op <= 0xBF
    ensures var i := CbInstructionByOpcode(op);
      i.mode == Register && i.reg1 == OperandOf(op) && i.reg2 == NoReg && i.cond == Always
  {
    if op == 0xB8 {} else if op == 0xB9 {} else if op == 0xBA {} else if op == 0xBB {} else if op == 0xBC {} else if op == 0xBD {} else if op == 0xBE {} else {}
  }

  /** `CbOperand` for the opcodes 0xC0-0xC7. */
  lemma CbOperandFromC0(op: Byte)
    requires 0xC0 <= op <= 0xC7
    ensures var i := CbInstructionByOpcode(op);
      i.mode == Register && i.reg1 == OperandOf(op) && i.reg2 == NoReg && i.cond == Always
  {
    if op == 0xC0 {} else if op == 0xC1 {} else if op == 0xC2 {} else if op == 0xC3 {} else if op == 0xC4 {} else if op == 0xC5 {} else if op == 0xC6 {} else {}
  }

  /** `CbOperand` for the opcodes 0xC8-0xCF. */
  lemma CbOperandFromC8(op: Byte)
    requires 0xC8 <= op <= 0xCF
    ensures var i := CbInstructionByOpcode(op);
      i.mode == Register && i.reg1 == OperandOf(op) && i.reg2 == NoReg && i.cond == Always
  {
    if op == 0xC8 {} else if op == 0xC9 {} else if op == 0xCA {} else if op == 0xCB {} else if op == 0xCC {} else if op == 0xCD {} else if op == 0xCE {} else {}
  }

  /** `CbOperand` for the opcodes 0xD0-0xD7. */
  lemma CbOperandFromD0(op: Byte)
    requires 0xD0 <= op <= 0xD7
    ensures var i := CbInstructionByOpcode(op);
      i.mode == Register && i.reg1 == OperandOf(op) && i.reg2 == NoReg && i.cond == Always
  {
    if op == 0xD0 {} else if op == 0xD1 {} else if op == 0xD2 {} else if op == 0xD3 {} else if op == 0xD4 {} else if op == 0xD5 {} else if op == 0xD6 {} else {}
  }

  /** `CbOperand` for the opcodes 0xD8-0xDF. */
  lemma CbOperandFromD8(op: Byte)
    requires 0xD8 <= op <= 0xDF
    ensures var i := CbInstructionByOpcode(op);
      i.mode == Register && i.reg1 == OperandOf(op) && i.reg2 == NoReg && i.cond == Always
  {
    if op == 0xD8 {} else if op == 0xD9 {} else if op == 0xDA {} else if op == 0xDB {} else if op == 0xDC {} else if op == 0xDD {} else if op == 0xDE {} else {}
  }

  /** `CbOperand` for the opcodes 0xE0-0xE7. */
  lemma CbOperandFromE0(op: Byte)
    requires 0xE0 <= op <= 0xE7
    ensures var i := CbInstructionByOpcode(op);
      i.mode == Register && i.reg1 == OperandOf(op) && i.reg2 == NoReg && i.cond == Always
  {
    if op == 0xE0 {} else if op == 0xE1 {} else if op == 0xE2 {} else if op == 0xE3 {} else if op == 0xE4 {} else if op == 0xE5 {} else if op == 0xE6 {} else {}
  }

  /** `CbOperand` for the opcodes 0xE8-0xEF. */
  lemma CbOperandFromE8(op: Byte)
    requires 0xE8 <= op <= 0xEF
    ensures var i := CbInstructionByOpcode(op);
      i.mode == Register && i.reg1 == OperandOf(op) && i.reg2 == NoReg && i.cond == Always
  {
    if op == 0xE8 {} else if op == 0xE9 {} else if op == 0xEA {} else if op == 0xEB {} else if op == 0xEC {} else if op == 0xED {} else if op == 0xEE {} else {}
  }

  /** `CbOperand` for the opcodes 0xF0-0xF7. */
  lemma CbOperandFromF0(op: Byte)
    requires 0xF0 <= op <= 0xF7
    ensures var i := CbInstructionByOpcode(op);
      i.mode == Register && i.reg1 == OperandOf(op) && i.reg2 == NoReg && i.cond == Always
  {
    if op == 0xF0 {} else if op == 0xF1 {} else if op == 0xF2 {} else if op == 0xF3 {} else if op == 0xF4 {} else if op == 0xF5 {} else if op == 0xF6 {} else {}
  }

  /** `CbOperand` for the opcodes 0xF8-0xFF. */
  lemma CbOperandFromF8(op: Byte)
    requires 0xF8 <= op <= 0xFF
    ensures var i := CbInstructionByOpcode(op);
      i.mode == Register && i.reg1 == OperandOf(op) && i.reg2 == NoReg && i.cond == Always
  {
    if op == 0xF8 {} else if op == 0xF9 {} else if op == 0xFA {} else if op == 0xFB {} else if op == 0xFC {} else if op == 0xFD {} else if op == 0xFE {} else {}
  }

  /** Below 0x40, bits 3-5 of a CB opcode pick the shift or rotate, with no bit parameter. */
  lemma CbRotations(op: Byte)
    requires op < 0x40
    ensures CbInstructionByOpcode(op).instType == RotationOf(op / 8)
    ensures CbInstructionByOpcode(op).param == 0
  {
    if op <= 0x07 { CbRotationsFrom00(op); } else if op <= 0x0F { CbRotationsFrom08(op); } else if op <= 0x17 { CbRotationsFrom10(op); } else if op <= 0x1F { CbRotationsFrom18(op); } else if op <= 0x27 { CbRotationsFrom20(op); } else if op <= 0x2F { CbRotationsFrom28(op); } else if op <= 0x37 { CbRotationsFrom30(op); } else { CbRotationsFrom38(op); }
  }

  /** `CbRotations` for the opcodes 0x00-0x07. */
  lemma CbRotationsFrom00(op: Byte)
    requires 0x00 <= op <= 0x07
    requires op < 0x40
    ensures CbInstructionByOpcode(op).instType == RotationOf(op / 8)
    ensures CbInstructionByOpcode(op).param == 0
  {
    if op == 0x00 {} else if op == 0x01 {} else if op == 0x02 {} else if op == 0x03 {} else if op == 0x04 {} else if op == 0x05 {} else if op == 0x06 {} else {}
  }

  /** `CbRotations` for the opcodes 0x08-0x0F. */
  lemma CbRotationsFrom08(op: Byte)
    requires 0x08 <= op <= 0x0F
    requires op < 0x40
    ensures CbInstructionByOpcode(op).instType == RotationOf(op / 8)
    ensures CbInstructionByOpcode(op).param == 0
  {
    if op == 0x08 {} else if op == 0x09 {} else if op == 0x0A {} else if op == 0x0B {} else if op == 0x0C {} else if op == 0x0D {} else if op == 0x0E {} else {}
  }

  /** `CbRotations` for the opcodes 0x10-0x17. */
  lemma CbRotationsFrom10(op: Byte)
    requires 0x10 <= op <= 0x17
    requires op < 0x40
    ensures CbInstructionByOpcode(op).instType == RotationOf(op / 8)
    ensures CbInstructionByOpcode(op).param == 0
  {
    if op == 0x10 {} else if op == 0x11 {} else if op == 0x12 {} else if op == 0x13 {} else if op == 0x14 {} else if op == 0x15 {} else if op == 0x16 {} else {}
  }

  /** `CbRotations` for the opcodes 0x18-0x1F. */
  lemma CbRotationsFrom18(op: Byte)
    requires 0x18 <= op <= 0x1F
    requires op < 0x40
    ensures CbInstructionByOpcode(op).instType == RotationOf(op / 8)
    ensures CbInstructionByOpcode(op).param == 0
  {
    if op == 0x18 {} else if op == 0x19 {} else if op == 0x1A {} else if op == 0x1B {} else if op == 0x1C {} else if op == 0x1D {} else if op == 0x1E {} else {}
  }

  /** `CbRotations` for the opcodes 0x20-0x27. */
  lemma CbRotationsFrom20(op: Byte)
    requires 0x20 <= op <= 0x27
    requires op < 0x40
    ensures CbInstructionByOpcode(op).instType == RotationOf(op / 8)
    ensures CbInstructionByOpcode(op).param == 0
  {
    if op == 0x20 {} else if op == 0x21 {} else if op == 0x22 {} else if op == 0x23 {} else if op == 0x24 {} else if op == 0x25 {} else if op == 0x26 {} else {}
  }

  /** `CbRotations` for the opcodes 0x28-0x2F. */
  lemma CbRotationsFrom28(op: Byte)
    requires 0x28 <= op <= 0x2F
    requires op < 0x40
    ensures CbInstructionByOpcode(op).instType == RotationOf(op / 8)
    ensures CbInstructionByOpcode(op).param == 0
  {
    if op == 0x28 {} else if op == 0x29 {} else if op == 0x2A {} else if op == 0x2B {} else if op == 0x2C {} else if op == 0x2D {} else if op == 0x2E {} else {}
  }

  /** `CbRotations` for the opcodes 0x30-0x37. */
  lemma CbRotationsFrom30(op: Byte)
    requires 0x30 <= op <= 0x37
    requires op < 0x40
    ensures CbInstructionByOpcode(op).instType == RotationOf(op / 8)
    ensures CbInstructionByOpcode(op).param == 0
  {
    if op == 0x30 {} else if op == 0x31 {} else if op == 0x32 {} else if op == 0x33 {} else if op == 0x34 {} else if op == 0x35 {} else if op == 0x36 {} else {}
  }

  /** `CbRotations` for the opcodes 0x38-0x3F. */
  lemma CbRotationsFrom38(op: Byte)
    requires 0x38 <= op <= 0x3F
    requires op < 0x40
    ensures CbInstructionByOpcode(op).instType == RotationOf(op / 8)
    ensures CbInstructionByOpcode(op).param == 0
  {
    if op == 0x38 {} else if op == 0x39 {} else if op == 0x3A {} else if op == 0x3B {} else if op == 0x3C {} else if op == 0x3D {} else if op == 0x3E {} else {}
  }

  /** From 0x40 on, bits 6-7 pick BIT, RES or SET and bits 3-5 the bit number. */
  lemma CbBitOperations(op: Byte)
    requires op >= 0x40
    ensures CbInstructionByOpcode(op).param == op / 8 % 8
    ensures CbInstructionByOpcode(op).instType ==
              (if op / 64 == 1 then Bit else if op / 64 == 2 then Res else Set)
  {
    if op <= 0x47 { CbBitOperationsFrom40(op); } else if op <= 0x4F { CbBitOperationsFrom48(op); } else if op <= 0x57 { CbBitOperationsFrom50(op); } else if op <= 0x5F { CbBitOperationsFrom58(op); } else if op <= 0x67 { CbBitOperationsFrom60(op); } else if op <= 0x6F { CbBitOperationsFrom68(op); } else if op <= 0x77 { CbBitOperationsFrom70(op); } else if op <= 0x7F { CbBitOperationsFrom78(op); } else if op <= 0x87 { CbBitOperationsFrom80(op); } else if op <= 0x8F { CbBitOperationsFrom88(op); } else if op <= 0x97 { CbBitOperationsFrom90(op); } else if op <= 0x9F { CbBitOperationsFrom98(op); } else if op <= 0xA7 { CbBitOperationsFromA0(op); } else if op <= 0xAF { CbBitOperationsFromA8(op); } else if op <= 0xB7 { CbBitOperationsFromB0(op); } else if op <= 0xBF { CbBitOperationsFromB8(op); } else if op <= 0xC7 { CbBitOperationsFromC0(op); } else if op <= 0xCF { CbBitOperationsFromC8(op); } else if op <= 0xD7 { CbBitOperationsFromD0(op); } else if op <= 0xDF { CbBitOperationsFromD8(op); } else if op <= 0xE7 { CbBitOperationsFromE0(op); } else if op <= 0xEF { CbBitOperationsFromE8(op); } else if op <= 0xF7 { CbBitOperationsFromF0(op); } else { CbBitOperationsFromF8(op); }
  }

  /** `CbBitOperations` for the opcodes 0x40-0x47. */
  lemma CbBitOperationsFrom40(op: Byte)
    requires 0x40 <= op <= 0x47
    requires op >= 0x40
    ensures CbInstructionByOpcode(op).param == op / 8 % 8
    ensures CbInstructionByOpcode(op).instType ==
              (if op / 64 == 1 then Bit else if op / 64 == 2 then Res else Set)
  {
    if op == 0x40 {} else if op == 0x41 {} else if op == 0x42 {} else if op == 0x43 {} else if op == 0x44 {} else if op == 0x45 {} else if op == 0x46 {} else {}
  }

  /** `CbBitOperations` for the opcodes 0x48-0x4F. */
  lemma CbBitOperationsFrom48(op: Byte)
    requires 0x48 <= op <= 0x4F
    requires op >= 0x40
    ensures CbInstructionByOpcode(op).param == op / 8 % 8
    ensures CbInstructionByOpcode(op).instType ==
              (if op / 64 == 1 then Bit else if op / 64 == 2 then Res else Set)
  {
    if op == 0x48 {} else if op == 0x49 {} else if op == 0x4A {} else if op == 0x4B {} else if op == 0x4C {} else if op == 0x4D {} else if op == 0x4E {} else {}
  }

  /** `CbBitOperations` for the opcodes 0x50-0x57. */
  lemma CbBitOperationsFrom50(op: Byte)
    requires 0x50 <= op <= 0x57
    requires op >= 0x40
    ensures CbInstructionByOpcode(op).param == op / 8 % 8
    ensures CbInstructionByOpcode(op).instType ==
              (if op / 64 == 1 then Bit else if op / 64 == 2 then Res else Set)
  {
    if op == 0x50 {} else if op == 0x51 {} else if op == 0x52 {} else if op == 0x53 {} else if op == 0x54 {} else if op == 0x55 {} else if op == 0x56 {} else {}
  }

  /** `CbBitOperations` for the opcodes 0x58-0x5F. */
  lemma CbBitOperationsFrom58(op: Byte)
    requires 0x58 <= op <= 0x5F
    requires op >= 0x40
    ensures CbInstructionByOpcode(op).param == op / 8 % 8
    ensures CbInstructionByOpcode(op).instType ==
              (if op / 64 == 1 then Bit else if op / 64 == 2 then Res else Set)
  {
    if op == 0x58 {} else if op == 0x59 {} else if op == 0x5A {} else if op == 0x5B {} else if op == 0x5C {} else if op == 0x5D {} else if op == 0x5E {} else {}
  }

  /** `CbBitOperations` for the opcodes 0x60-0x67. */
  lemma CbBitOperationsFrom60(op: Byte)
    requires 0x60 <= op <= 0x67
    requires op >= 0x40
    ensures CbInstructionByOpcode(op).param == op / 8 % 8
    ensures CbInstructionByOpcode(op).instType ==
              (if op / 64 == 1 then Bit else if op / 64 == 2 then Res else Set)
  {
    if op == 0x60 {} else if op == 0x61 {} else if op == 0x62 {} else if op == 0x63 {} else if op == 0x64 {} else if op == 0x65 {} else if op == 0x66 {} else {}
  }

  /** `CbBitOperations` for the opcodes 0x68-0x6F. */
  lemma CbBitOperationsFrom68(op: Byte)
    requires 0x68 <= op <= 0x6F
    requires op >= 0x40
    ensures CbInstructionByOpcode(op).param == op / 8 % 8
    ensures CbInstructionByOpcode(op).instType ==
              (if op / 64 == 1 then Bit else if op / 64 == 2 then Res else Set)
  {
    if op == 0x68 {} else if op == 0x69 {} else if op == 0x6A {} else if op == 0x6B {} else if op == 0x6C {} else if op == 0x6D {} else if op == 0x6E {} else {}
  }

  /** `CbBitOperations` for the opcodes 0x70-0x77. */
  lemma CbBitOperationsFrom70(op: Byte)
    requires 0x70 <= op <= 0x77
    requires op >= 0x40
    ensures CbInstructionByOpcode(op).param == op / 8 % 8
    ensures CbInstructionByOpcode(op).instType ==
              (if op / 64 == 1 then Bit else if op / 64 == 2 then Res else Set)
  {
    if op == 0x70 {} else if op == 0x71 {} else if op == 0x72 {} else if op == 0x73 {} else if op == 0x74 {} else if op == 0x75 {} else if op == 0x76 {} else {}
  }

  /** `CbBitOperations` for the opcodes 0x78-0x7F. */
  lemma CbBitOperationsFrom78(op: Byte)
    requires 0x78 <= op <= 0x7F
    requires op >= 0x40
    ensures CbInstructionByOpcode(op).param == op / 8 % 8
    ensures CbInstructionByOpcode(op).instType ==
              (if op / 64 == 1 then Bit else if op / 64 == 2 then Res else Set)
  {
    if op == 0x78 {} else if op == 0x79 {} else if op == 0x7A {} else if op == 0x7B {} else if op == 0x7C {} else if op == 0x7D {} else if op == 0x7E {} else {}
  }

  /** `CbBitOperations` for the opcodes 0x80-0x87. */
  lemma CbBitOperationsFrom80(op: Byte)
    requires 0x80 <= op <= 0x87
    requires op >= 0x40
    ensures CbInstructionByOpcode(op).param == op / 8 % 8
    ensures CbInstructionByOpcode(op).instType ==
              (if op / 64 == 1 then Bit else if op / 64 == 2 then Res else Set)
  {
    if op == 0x80 {} else if op == 0x81 {} else if op == 0x82 {} else if op == 0x83 {} else if op == 0x84 {} else if op == 0x85 {} else if op == 0x86 {} else {}
  }

  /** `CbBitOperations` for the opcodes 0x88-0x8F. */
  lemma CbBitOperationsFrom88(op: Byte)
    requires 0x88 <= op <= 0x8F
    requires op >= 0x40
    ensures CbInstructionByOpcode(op).param == op / 8 % 8
    ensures CbInstructionByOpcode(op).instType ==
              (if op / 64 == 1 then Bit else if op / 64 == 2 then Res else Set)
  {
    if op == 0x88 {} else if op == 0x89 {} else if op == 0x8A {} else if op == 0x8B {} else if op == 0x8C {} else if op == 0x8D {} else if op == 0x8E {} else {}
  }

  /** `CbBitOperations` for the opcodes 0x90-0x97. */
  lemma CbBitOperationsFrom90(op: Byte)
    requires 0x90 <= op <= 0x97
    requires op >= 0x40
    ensures CbInstructionByOpcode(op).param == op / 8 % 8
    ensures CbInstructionByOpcode(op).instType ==
              (if op / 64 == 1 then Bit else if op / 64 == 2 then Res else Set)
  {
    if op == 0x90 {} else if op == 0x91 {} else if op == 0x92 {} else if op == 0x93 {} else if op == 0x94 {} else if op == 0x95 {} else if op == 0x96 {} else {}
  }

  /** `CbBitOperations` for the opcodes 0x98-0x9F. */
  lemma CbBitOperationsFrom98(op: Byte)
    requires 0x98 <= op <= 0x9F
    requires op >= 0x40
    ensures CbInstructionByOpcode(op).param == op / 8 % 8
    ensures CbInstructionByOpcode(op).instType ==
              (if op / 64 == 1 then Bit else if op / 64 == 2 then Res else Set)
  {
    if op == 0x98 {} else if op == 0x99 {} else if op == 0x9A {} else if op == 0x9B {} else if op == 0x9C {} else if op == 0x9D {} else if op == 0x9E {} else {}
  }

  /** `CbBitOperations` for the opcodes 0xA0-0xA7. */
  lemma CbBitOperationsFromA0(op: Byte)
    requires 0xA0 <= op <= 0xA7
    requires op >= 0x40
    ensures CbInstructionByOpcode(op).param == op / 8 % 8
    ensures CbInstructionByOpcode(op).instType ==
              (if op / 64 == 1 then Bit else if op / 64 == 2 then Res else Set)
  {
    if op == 0xA0 {} else if op == 0xA1 {} else if op == 0xA2 {} else if op == 0xA3 {} else if op == 0xA4 {} else if op == 0xA5 {} else if op == 0xA6 {} else {}
  }

  /** `CbBitOperations` for the opcodes 0xA8-0xAF. */
  lemma CbBitOperationsFromA8(op: Byte)
    requires 0xA8 <= op <= 0xAF
    requires op >= 0x40
    ensures CbInstructionByOpcode(op).param == op / 8 % 8
    ensures CbInstructionByOpcode(op).instType ==
              (if op / 64 == 1 then Bit else if op / 64 == 2 then Res else Set)
  {
    if op == 0xA8 {} else if op == 0xA9 {} else if op == 0xAA {} else if op == 0xAB {} else if op == 0xAC {} else if op == 0xAD {} else if op == 0xAE {} else {}
  }

  /** `CbBitOperations` for the opcodes 0xB0-0xB7. */
  lemma CbBitOperationsFromB0(op: Byte)
    requires 0xB0 <= op <= 0xB7
    requires op >= 0x40
    ensures CbInstructionByOpcode(op).param == op / 8 % 8
    ensures CbInstructionByOpcode(op).instType ==
              (if op / 64 == 1 then Bit else if op / 64 == 2 then Res else Set)
  {
    if op == 0xB0 {} else if op == 0xB1 {} else if op == 0xB2 {} else if op == 0xB3 {} else if op == 0xB4 {} else if op == 0xB5 {} else if op == 0xB6 {} else {}
  }

  /** `CbBitOperations` for the opcodes 0xB8-0xBF. */
  lemma CbBitOperationsFromB8(op: Byte)
    requires 0xB8 <= op <= 0xBF
    requires op >= 0x40
    ensures CbInstructionByOpcode(op).param == op / 8 % 8
    ensures CbInstructionByOpcode(op).instType ==
              (if op / 64 == 1 then Bit else if op / 64 == 2 then Res else Set)
  {
    if op == 0xB8 {} else if op == 0xB9 {} else if op == 0xBA {} else if op == 0xBB {} else if op == 0xBC {} else if op == 0xBD {} else if op == 0xBE {} else {}
  }

  /** `CbBitOperations` for the opcodes 0xC0-0xC7. */
  lemma CbBitOperationsFromC0(op: Byte)
    requires 0xC0 <= op <= 0xC7
    requires op >= 0x40
    ensures CbInstructionByOpcode(op).param == op / 8 % 8
    ensures CbInstructionByOpcode(op).instType ==
              (if op / 64 == 1 then Bit else if op / 64 == 2 then Res else Set)
  {
    if op == 0xC0 {} else if op == 0xC1 {} else if op == 0xC2 {} else if op == 0xC3 {} else if op == 0xC4 {} else if op == 0xC5 {} else if op == 0xC6 {} else {}
  }

  /** `CbBitOperations` for the opcodes 0xC8-0xCF. */
  lemma CbBitOperationsFromC8(op: Byte)
    requires 0xC8 <= op <= 0xCF
    requires op >= 0x40
    ensures CbInstructionByOpcode(op).param == op / 8 % 8
    ensures CbInstructionByOpcode(op).instType ==
              (if op / 64 == 1 then Bit else if op / 64 == 2 then Res else Set)
  {
    if op == 0xC8 {} else if op == 0xC9 {} else if op == 0xCA {} else if op == 0xCB {} else if op == 0xCC {} else if op == 0xCD {} else if op == 0xCE {} else {}
  }

  /** `CbBitOperations` for the opcodes 0xD0-0xD7. */
  lemma CbBitOperationsFromD0(op: Byte)
    requires 0xD0 <= op <= 0xD7
    requires op >= 0x40
    ensures CbInstructionByOpcode(op).param == op / 8 % 8
    ensures CbInstructionByOpcode(op).instType ==
              (if op / 64 == 1 then Bit else if op / 64 == 2 then Res else Set)
  {
    if op == 0xD0 {} else if op == 0xD1 {} else if op == 0xD2 {} else if op == 0xD3 {} else if op == 0xD4 {} else if op == 0xD5 {} else if op == 0xD6 {} else {}
  }

  /** `CbBitOperations` for the opcodes 0xD8-0xDF. */
  lemma CbBitOperationsFromD8(op: Byte)
    requires 0xD8 <= op <= 0xDF
    requires op >= 0x40
    ensures CbInstructionByOpcode(op).param == op / 8 % 8
    ensures CbInstructionByOpcode(op).instType ==
              (if op / 64 == 1 then Bit else if op / 64 == 2 then Res else Set)
  {
    if op == 0xD8 {} else if op == 0xD9 {} else if op == 0xDA {} else if op == 0xDB {} else if op == 0xDC {} else if op == 0xDD {} else if op == 0xDE {} else {}
  }

  /** `CbBitOperations` for the opcodes 0xE0-0xE7. */
  lemma CbBitOperationsFromE0(op: Byte)
    requires 0xE0 <= op <= 0xE7
    requires op >= 0x40
    ensures CbInstructionByOpcode(op).param == op / 8 % 8
    ensures CbInstructionByOpcode(op).instType ==
              (if op / 64 == 1 then Bit else if op / 64 == 2 then Res else Set)
  {
    if op == 0xE0 {} else if op == 0xE1 {} else if op == 0xE2 {} else if op == 0xE3 {} else if op == 0xE4 {} else if op == 0xE5 {} else if op == 0xE6 {} else {}
  }

  /** `CbBitOperations` for the opcodes 0xE8-0xEF. */
  lemma CbBitOperationsFromE8(op: Byte)
    requires 0xE8 <= op <= 0xEF
    requires op >= 0x40
    ensures CbInstructionByOpcode(op).param == op / 8 % 8
    ensures CbInstructionByOpcode(op).instType ==
              (if op / 64 == 1 then Bit else if op / 64 == 2 then Res else Set)
  {
    if op == 0xE8 {} else if op == 0xE9 {} else if op == 0xEA {} else if op == 0xEB {} else if op == 0xEC {} else if op == 0xED {} else if op == 0xEE {} else {}
  }

  /** `CbBitOperations` for the opcodes 0xF0-0xF7. */
  lemma CbBitOperationsFromF0(op: Byte)
    requires 0xF0 <= op <= 0xF7
    requires op >= 0x40
    ensures CbInstructionByOpcode(op).param == op / 8 % 8
    ensures CbInstructionByOpcode(op).instType ==
              (if op / 64 == 1 then Bit else if op / 64 == 2 then Res else Set)
  {
    if op == 0xF0 {} else if op == 0xF1 {} else if op == 0xF2 {} else if op == 0xF3 {} else if op == 0xF4 {} else if op == 0xF5 {} else if op == 0xF6 {} else {}
  }

  /** `CbBitOperations` for the opcodes 0xF8-0xFF. */
  lemma CbBitOperationsFromF8(op: Byte)
    requires 0xF8 <= op <= 0xFF
    requires op >= 0x40
    ensures CbInstructionByOpcode(op).param == op / 8 % 8
    ensures CbInstructionByOpcode(op).instType ==
              (if op / 64 == 1 then Bit else if op / 64 == 2 then Res else Set)
  {
    if op == 0xF8 {} else if op == 0xF9 {} else if op == 0xFA {} else if op == 0xFB {} else if op == 0xFC {} else if op == 0xFD {} else if op == 0xFE {} else {}
  }

  /** 0xCB is the prefix entry, fetching the second opcode byte as d8. */
  lemma PrefixEntry()
    ensures InstructionByOpcode(0xCB) == Instruction(Cb, D8, NoReg, NoReg, Always, 0)
  {
  }

  /** The register pairs BC, DE, HL, SP in the order bits 4-5 of an opcode select them. */
  function PairOf(k: Byte): RegisterType
  {
    if k % 4 == 0 then Bc else if k % 4 == 1 then De else if k % 4 == 2 then Hl else Sp
  }

  /**
   * In 0x00-0x3F the 16-bit INC and DEC sit at low nibble 3 and 0xB on the
   * pair of bits 4-5, the 8-bit forms at bits 0-2 = 4 and 5 on the operand
   * of bits 3-5, (HL) as a memory operand.
   */
  lemma IncDecOpcodes(op: Byte)
    requires op < 0x40
    ensures InstructionByOpcode(op).instType == Inc <==> op % 16 == 3 || op % 8 == 4
    ensures InstructionByOpcode(op).instType == Dec <==> op % 16 == 0xB || op % 8 == 5
    ensures op % 16 == 3 || op % 16 == 0xB ==>
      InstructionByOpcode(op).mode == Register && InstructionByOpcode(op).reg1 == PairOf(op / 16)
    ensures op % 8 == 4 || op % 8 == 5 ==>
      InstructionByOpcode(op).reg1 == OperandOf(op / 8) &&
      InstructionByOpcode(op).mode == (if op / 8 % 8 == 6 then MemoryRegisterOnly else Register)
  {
    if op <= 0x1F { IncDecOpcodesFrom00(op); } else { IncDecOpcodesFrom20(op); }
  }

  /** `IncDecOpcodes` for the opcodes 0x00-0x1F. */
  lemma IncDecOpcodesFrom00(op: Byte)
    requires 0x00 <= op <= 0x1F
    requires op < 0x40
    ensures InstructionByOpcode(op).instType == Inc <==> op % 16 == 3 || op % 8 == 4
    ensures InstructionByOpcode(op).instType == Dec <==> op % 16 == 0xB || op % 8 == 5
    ensures op % 16 == 3 || op % 16 == 0xB ==>
      InstructionByOpcode(op).mode == Register && InstructionByOpcode(op).reg1 == PairOf(op / 16)
    ensures op % 8 == 4 || op % 8 == 5 ==>
      InstructionByOpcode(op).reg1 == OperandOf(op / 8) &&
      InstructionByOpcode(op).mode == (if op / 8 % 8 == 6 then MemoryRegisterOnly else Register)
  {
    if op == 0x00 {} else if op == 0x01 {} else if op == 0x02 {} else if op == 0x03 {} else if op == 0x04 {} else if op == 0x05 {} else if op == 0x06 {} else if op == 0x07 {} else if op == 0x08 {} else if op == 0x09 {} else if op == 0x0A {} else if op == 0x0B {} else if op == 0x0C {} else if op == 0x0D {} else if op == 0x0E {} else if op == 0x0F {} else if op == 0x10 {} else if op == 0x11 {} else if op == 0x12 {} else if op == 0x13 {} else if op == 0x14 {} else if op == 0x15 {} else if op == 0x16 {} else if op == 0x17 {} else if op == 0x18 {} else if op == 0x19 {} else if op == 0x1A {} else if op == 0x1B {} else if op == 0x1C {} else if op == 0x1D {} else if op == 0x1E {} else {}
  }

  /** `IncDecOpcodes` for the opcodes 0x20-0x3F. */
  lemma IncDecOpcodesFrom20(op: Byte)
    requires 0x20 <= op <= 0x3F
    requires op < 0x40
    ensures InstructionByOpcode(op).instType == Inc <==> op % 16 == 3 || op % 8 == 4
    ensures InstructionByOpcode(op).instType == Dec <==> op % 16 == 0xB || op % 8 == 5
    ensures op % 16 == 3 || op % 16 == 0xB ==>
      InstructionByOpcode(op).mode == Register && InstructionByOpcode(op).reg1 == PairOf(op / 16)
    ensures op % 8 == 4 || op % 8 == 5 ==>
      InstructionByOpcode(op).reg1 == OperandOf(op / 8) &&
      InstructionByOpcode(op).mode == (if op / 8 % 8 == 6 then MemoryRegisterOnly else Register)
  {
    if op == 0x20 {} else if op == 0x21 {} else if op == 0x22 {} else if op == 0x23 {} else if op == 0x24 {} else if op == 0x25 {} else if op == 0x26 {} else if op == 0x27 {} else if op == 0x28 {} else if op == 0x29 {} else if op == 0x2A {} else if op == 0x2B {} else if op == 0x2C {} else if op == 0x2D {} else if op == 0x2E {} else if op == 0x2F {} else if op == 0x30 {} else if op == 0x31 {} else if op == 0x32 {} else if op == 0x33 {} else if op == 0x34 {} else if op == 0x35 {} else if op == 0x36 {} else if op == 0x37 {} else if op == 0x38 {} else if op == 0x39 {} else if op == 0x3A {} else if op == 0x3B {} else if op == 0x3C {} else if op == 0x3D {} else if op == 0x3E {} else {}
  }

  /** No opcode from 0x40 up is an INC or a DEC. */
  lemma IncDecOnlyLow(op: Byte)
    requires op >= 0x40
    ensures InstructionByOpcode(op).instType != Inc && InstructionByOpcode(op).instType != Dec
  {
    if op <= 0x5F { IncDecOnlyLowFrom40(op); } else if op <= 0x7F { IncDecOnlyLowFrom60(op); } else if op <= 0x9F { IncDecOnlyLowFrom80(op); } else if op <= 0xBF { IncDecOnlyLowFromA0(op); } else if op <= 0xDF { IncDecOnlyLowFromC0(op); } else { IncDecOnlyLowFromE0(op); }
  }

  /** `IncDecOnlyLow` for the opcodes 0x40-0x5F. */
  lemma IncDecOnlyLowFrom40(op: Byte)
    requires 0x40 <= op <= 0x5F
    requires op >= 0x40
    ensures InstructionByOpcode(op).instType != Inc && InstructionByOpcode(op).instType != Dec
  {
    if op == 0x40 {} else if op == 0x41 {} else if op == 0x42 {} else if op == 0x43 {} else if op == 0x44 {} else if op == 0x45 {} else if op == 0x46 {} else if op == 0x47 {} else if op == 0x48 {} else if op == 0x49 {} else if op == 0x4A {} else if op == 0x4B {} else if op == 0x4C {} else if op == 0x4D {} else if op == 0x4E {} else if op == 0x4F {} else if op == 0x50 {} else if op == 0x51 {} else if op == 0x52 {} else if op == 0x53 {} else if op == 0x54 {} else if op == 0x55 {} else if op == 0x56 {} else if op == 0x57 {} else if op == 0x58 {} else if op == 0x59 {} else if op == 0x5A {} else if op == 0x5B {} else if op == 0x5C {} else if op == 0x5D {} else if op == 0x5E {} else {}
  }

  /** `IncDecOnlyLow` for the opcodes 0x60-0x7F. */
  lemma IncDecOnlyLowFrom60(op: Byte)
    requires 0x60 <= op <= 0x7F
    requires op >= 0x40
    ensures InstructionByOpcode(op).instType != Inc && InstructionByOpcode(op).instType != Dec
  {
    if op == 0x60 {} else if op == 0x61 {} else if op == 0x62 {} else if op == 0x63 {} else if op == 0x64 {} else if op == 0x65 {} else if op == 0x66 {} else if op == 0x67 {} else if op == 0x68 {} else if op == 0x69 {} else if op == 0x6A {} else if op == 0x6B {} else if op == 0x6C {} else if op == 0x6D {} else if op == 0x6E {} else if op == 0x6F {} else if op == 0x70 {} else if op == 0x71 {} else if op == 0x72 {} else if op == 0x73 {} else if op == 0x74 {} else if op == 0x75 {} else if op == 0x76 {} else if op == 0x77 {} else if op == 0x78 {} else if op == 0x79 {} else if op == 0x7A {} else if op == 0x7B {} else if op == 0x7C {} else if op == 0x7D {} else if op == 0x7E {} else {}
  }

  /** `IncDecOnlyLow` for the opcodes 0x80-0x9F. */
  lemma IncDecOnlyLowFrom80(op: Byte)
    requires 0x80 <= op <= 0x9F
    requires op >= 0x40
    ensures InstructionByOpcode(op).instType != Inc && InstructionByOpcode(op).instType != Dec
  {
    if op == 0x80 {} else if op == 0x81 {} else if op == 0x82 {} else if op == 0x83 {} else if op == 0x84 {} else if op == 0x85 {} else if op == 0x86 {} else if op == 0x87 {} else if op == 0x88 {} else if op == 0x89 {} else if op == 0x8A {} else if op == 0x8B {} else if op == 0x8C {} else if op == 0x8D {} else if op == 0x8E {} else if op == 0x8F {} else if op == 0x90 {} else if op == 0x91 {} else if op == 0x92 {} else if op == 0x93 {} else if op == 0x94 {} else if op == 0x95 {} else if op == 0x96 {} else if op == 0x97 {} else if op == 0x98 {} else if op == 0x99 {} else if op == 0x9A {} else if op == 0x9B {} else if op == 0x9C {} else if op == 0x9D {} else if op == 0x9E {} else {}
  }

  /** `IncDecOnlyLow` for the opcodes 0xA0-0xBF. */
  lemma IncDecOnlyLowFromA0(op: Byte)
    requires 0xA0 <= op <= 0xBF
    requires op >= 0x40
    ensures InstructionByOpcode(op).instType != Inc && InstructionByOpcode(op).instType != Dec
  {
    if op == 0xA0 {} else if op == 0xA1 {} else if op == 0xA2 {} else if op == 0xA3 {} else if op == 0xA4 {} else if op == 0xA5 {} else if op == 0xA6 {} else if op == 0xA7 {} else if op == 0xA8 {} else if op == 0xA9 {} else if op == 0xAA {} else if op == 0xAB {} else if op == 0xAC {} else if op == 0xAD {} else if op == 0xAE {} else if op == 0xAF {} else if op == 0xB0 {} else if op == 0xB1 {} else if op == 0xB2 {} else if op == 0xB3 {} else if op == 0xB4 {} else if op == 0xB5 {} else if op == 0xB6 {} else if op == 0xB7 {} else if op == 0xB8 {} else if op == 0xB9 {} else if op == 0xBA {} else if op == 0xBB {} else if op == 0xBC {} else if op == 0xBD {} else if op == 0xBE {} else {}
  }

  /** `IncDecOnlyLow` for the opcodes 0xC0-0xDF. */
  lemma IncDecOnlyLowFromC0(op: Byte)
    requires 0xC0 <= op <= 0xDF
    requires op >= 0x40
    ensures InstructionByOpcode(op).instType != Inc && InstructionByOpcode(op).instType != Dec
  {
    if op == 0xC0 {} else if op == 0xC1 {} else if op == 0xC2 {} else if op == 0xC3 {} else if op == 0xC4 {} else if op == 0xC5 {} else if op == 0xC6 {} else if op == 0xC7 {} else if op == 0xC8 {} else if op == 0xC9 {} else if op == 0xCA {} else if op == 0xCB {} else if op == 0xCC {} else if op == 0xCD {} else if op == 0xCE {} else if op == 0xCF {} else if op == 0xD0 {} else if op == 0xD1 {} else if op == 0xD2 {} else if op == 0xD3 {} else if op == 0xD4 {} else if op == 0xD5 {} else if op == 0xD6 {} else if op == 0xD7 {} else if op == 0xD8 {} else if op == 0xD9 {} else if op == 0xDA {} else if op == 0xDB {} else if op == 0xDC {} else if op == 0xDD {} else if op == 0xDE {} else {}
  }

  /** `IncDecOnlyLow` for the opcodes 0xE0-0xFF. */
  lemma IncDecOnlyLowFromE0(op: Byte)
    requires 0xE0 <= op <= 0xFF
    requires op >= 0x40
    ensures InstructionByOpcode(op).instType != Inc && InstructionByOpcode(op).instType != Dec
  {
    if op == 0xE0 {} else if op == 0xE1 {} else if op == 0xE2 {} else if op == 0xE3 {} else if op == 0xE4 {} else if op == 0xE5 {} else if op == 0xE6 {} else if op == 0xE7 {} else if op == 0xE8 {} else if op == 0xE9 {} else if op == 0xEA {} else if op == 0xEB {} else if op == 0xEC {} else if op == 0xED {} else if op == 0xEE {} else if op == 0xEF {} else if op == 0xF0 {} else if op == 0xF1 {} else if op == 0xF2 {} else if op == 0xF3 {} else if op == 0xF4 {} else if op == 0xF5 {} else if op == 0xF6 {} else if op == 0xF7 {} else if op == 0xF8 {} else if op == 0xF9 {} else if op == 0xFA {} else if op == 0xFB {} else if op == 0xFC {} else if op == 0xFD {} else if op == 0xFE {} else {}
  }

}
