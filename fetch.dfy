/**
 * Operand fetch: reading and writing a register named by the instruction
 * tables, fetching the next opcode, and `fetch_data`, which per addressing
 * mode loads the operand into `fetched_data`, advances PC past immediates,
 * steps HL for the (HL+)/(HL-) forms and chooses the memory destination.
 */
module Fetch {
  import opened Common
  import opened Registers
  import opened Instructions
  import opened Cpu

  /** `read_reg`: 8-bit registers zero-extended, pairs joined, NoReg reads 0. */
  function ReadReg(rf: RegFile, r: RegisterType): Word
  {
    match r
    case NoReg => 0
    case A => rf.a
    case F => rf.f
    case B => rf.b
    case C => rf.c
    case D => rf.d
    case E => rf.e
    case H => rf.h
    case L => rf.l
    case Af => Join(rf.a, rf.f)
    case Bc => Join(rf.b, rf.c)
    case De => Join(rf.d, rf.e)
    case Hl => Join(rf.h, rf.l)
    case Sp => rf.sp
    case Pc => rf.pc
  }

  /**
   * `write_reg`: an 8-bit register takes the low byte of the value (`as
   * Byte`), F only its high nibble, a pair both halves (AF through `set_af`),
   * and NoReg ignores the write.
   */
  function WriteReg(rf: RegFile, r: RegisterType, v: Word): RegFile
  {
    match r
    case NoReg => rf
    case A => rf.(a := LowByte(v))
    case F => rf.(f := FlagNibble(v))
    case B => rf.(b := LowByte(v))
    case C => rf.(c := LowByte(v))
    case D => rf.(d := LowByte(v))
    case E => rf.(e := LowByte(v))
    case H => rf.(h := LowByte(v))
    case L => rf.(l := LowByte(v))
    case Af => rf.(a := HighByte(v), f := FlagNibble(v))
    case Bc => rf.(b := HighByte(v), c := LowByte(v))
    case De => rf.(d := HighByte(v), e := LowByte(v))
    case Hl => rf.(h := HighByte(v), l := LowByte(v))
    case Sp => rf.(sp := v)
    case Pc => rf.(pc := v)
  }

  /**
   * What a register reads after it is written: the value itself for BC, DE,
   * HL, SP and PC, `v & 0xFFF0` for AF, the low byte for an 8-bit register,
   * its high nibble for F, and 0 for NoReg.
   */
  lemma ReadAfterWrite(rf: RegFile, r: RegisterType, v: Word)
    ensures ReadReg(WriteReg(rf, r, v), r) ==
      match r
      case NoReg => 0
      case F => FlagNibble(v)
      case Af => v - v % 0x10
      case Bc | De | Hl | Sp | Pc => v
      case _ => LowByte(v)
  {
    match r
    case Af => AfRoundTrip(v);
    case Bc => JoinSplit(v);
    case De => JoinSplit(v);
    case Hl => JoinSplit(v);
    case _ =>
  }

  /** Writing NoReg changes nothing and reading it gives 0. */
  lemma NoRegIsInert(rf: RegFile, v: Word)
    ensures WriteReg(rf, NoReg, v) == rf && ReadReg(rf, NoReg) == 0
  {
  }

  /** `write_reg` on the CPU's register file. */
  method WriteRegister(cpu: Cpu, r: RegisterType, v: Word)
    modifies cpu.regs
    ensures cpu.regs.State() == WriteReg(old(cpu.regs.State()), r, v)
  {
    var regs := cpu.regs;
    match r
    case NoReg =>
    case A => regs.a := LowByte(v);
    case F => regs.f := FlagNibble(v);
    case B => regs.b := LowByte(v);
    case C => regs.c := LowByte(v);
    case D => regs.d := LowByte(v);
    case E => regs.e := LowByte(v);
    case H => regs.h := LowByte(v);
    case L => regs.l := LowByte(v);
    case Af => regs.SetAF(v);
    case Bc => regs.SetBC(v);
    case De => regs.SetDE(v);
    case Hl => regs.SetHL(v);
    case Sp => regs.sp := v;
    case Pc => regs.pc := v;
  }

  /** `fetch_instruction`: reads the opcode at PC, steps PC by one (wrapping) and decodes it. */
  method FetchInstruction(cpu: Cpu, mem: Memory) returns (inst: Instruction)
    requires mem.Valid()
    modifies cpu, cpu.regs
    ensures cpu.curOpcode == mem.Read(old(cpu.regs.pc))
    ensures inst == InstructionByOpcode(cpu.curOpcode)
    ensures cpu.regs.State() == old(cpu.regs.State()).(pc := AddWord(old(cpu.regs.pc), 1))
    ensures cpu.Core() == old(cpu.Core()).(curOpcode := cpu.curOpcode, curInst := Some(inst))
  {
    cpu.curOpcode := mem.Read(cpu.regs.pc);
    cpu.regs.pc := AddWord(cpu.regs.pc, 1);
    inst := InstructionByOpcode(cpu.curOpcode);
    cpu.curInst := Some(inst);
  }

  /** The 16-bit little-endian immediate at PC: low byte first. */
  function Imm16(m: seq<Byte>, pc: Word): Word
    requires IsImage(m)
  {
    Join(At(m, AddWord(pc, 1)), At(m, pc))
  }

  /** `a | 0xFF00`: the high byte forced to 0xFF, the low byte kept. */
  function OrHighPage(a: Word): (r: Word)
    ensures r >= 0xFF00 && LowByte(r) == LowByte(a)
  {
    0xFF00 + LowByte(a)
  }

  /** A `(C)` operand addresses the high page 0xFF00 + C; any other register its own value. */
  function HighPage(r: RegisterType, a: Word): Word
  {
    if r == RegisterType.C then OrHighPage(a) else a
  }

  /** The registers and CPU fields after `fetch_data`. */
  datatype Operands = Operands(regs: RegFile, core: CoreState)

  /** An operand taken from a register. */
  function FromRegister(rf: RegFile, c: CoreState, r: RegisterType): Operands
  {
    Operands(rf, c.(fetchedData := ReadReg(rf, r)))
  }

  /** The 8-bit immediate at PC; PC steps past it. */
  function FromImmediate8(rf: RegFile, c: CoreState, m: seq<Byte>): Operands
    requires IsImage(m)
  {
    Operands(rf.(pc := AddWord(rf.pc, 1)), c.(fetchedData := At(m, rf.pc)))
  }

  /** The 16-bit immediate at PC; PC steps past it. */
  function FromImmediate16(rf: RegFile, c: CoreState, m: seq<Byte>): Operands
    requires IsImage(m)
  {
    Operands(rf.(pc := AddWord(rf.pc, 2)), c.(fetchedData := Imm16(m, rf.pc)))
  }

  /** A register operand stored to the address in another register. */
  function ToMemory(rf: RegFile, c: CoreState, dst: Word, src: RegisterType): Operands
  {
    Operands(rf, c.(fetchedData := ReadReg(rf, src), memDest := dst, destIsMem := true))
  }

  /** A byte loaded from memory. */
  function FromMemory(rf: RegFile, c: CoreState, m: seq<Byte>, addr: Word): Operands
    requires IsImage(m)
  {
    Operands(rf, c.(fetchedData := At(m, addr)))
  }

  /** HL stepped by `delta` (wrapping) after the operand was taken. */
  function StepHL(o: Operands, delta: int): Operands
  {
    o.(regs := WriteReg(o.regs, Hl, AddWord(ReadReg(o.regs, Hl), delta)))
  }

  /** Modes whose operand is a register (or nothing). */
  predicate RegisterForm(mode: AddressingMode)
  {
    mode.Implied? || mode.Register? || mode.RegisterRegister?
  }

  /** Modes that read an immediate at PC into `fetched_data`. */
  predicate ImmediateForm(mode: AddressingMode)
  {
    mode.RegisterD8? || mode.D8? || mode.RegisterA8? || mode.HlSpr? || mode.RegisterD16? || mode.D16?
  }

  /** Modes that go through the address held in a register, without stepping it. */
  predicate IndirectForm(mode: AddressingMode)
  {
    mode.MemoryRegister? || mode.RegisterMemory? || mode.MemoryRegisterD8? || mode.MemoryRegisterOnly?
  }

  /** Modes that go through HL and step it. */
  predicate SteppingForm(mode: AddressingMode)
  {
    mode.RegisterHli? || mode.RegisterHld? || mode.HliRegister? || mode.HldRegister?
  }

  /** Modes with an absolute address at PC: the rest. */
  predicate AbsoluteForm(mode: AddressingMode)
  {
    mode.A8Register? || mode.A16Register? || mode.RegisterA16?
  }

  function RegisterOperands(inst: Instruction, rf: RegFile, c: CoreState): Operands
    requires RegisterForm(inst.mode)
  {
    if inst.mode.Implied? then Operands(rf, c)
    else if inst.mode.Register? then FromRegister(rf, c, inst.reg1)
    else FromRegister(rf, c, inst.reg2)
  }

  function ImmediateOperands(inst: Instruction, rf: RegFile, c: CoreState, m: seq<Byte>): Operands
    requires IsImage(m) && ImmediateForm(inst.mode)
  {
    if inst.mode.RegisterD16? || inst.mode.D16? then FromImmediate16(rf, c, m)
    else FromImmediate8(rf, c, m)
  }

  function IndirectOperands(inst: Instruction, rf: RegFile, c: CoreState, m: seq<Byte>): Operands
    requires IsImage(m) && IndirectForm(inst.mode)
  {
    if inst.mode.MemoryRegister? then
      ToMemory(rf, c, HighPage(inst.reg1, ReadReg(rf, inst.reg1)), inst.reg2)
    else if inst.mode.RegisterMemory? then
      FromMemory(rf, c, m, HighPage(inst.reg2, ReadReg(rf, inst.reg2)))
    else if inst.mode.MemoryRegisterD8? then
      var o := FromImmediate8(rf, c, m);
      o.(core := o.core.(memDest := ReadReg(o.regs, inst.reg1), destIsMem := true))
    else
      var a := ReadReg(rf, inst.reg1);
      Operands(rf, c.(memDest := a, destIsMem := true, fetchedData := At(m, a)))
  }

  function SteppingOperands(inst: Instruction, rf: RegFile, c: CoreState, m: seq<Byte>): Operands
    requires IsImage(m) && SteppingForm(inst.mode)
  {
    var delta := if inst.mode.RegisterHli? || inst.mode.HliRegister? then 1 else -1;
    if inst.mode.RegisterHli? || inst.mode.RegisterHld? then
      StepHL(FromMemory(rf, c, m, ReadReg(rf, inst.reg2)), delta)
    else
      StepHL(ToMemory(rf, c, ReadReg(rf, inst.reg1), inst.reg2), delta)
  }

  function AbsoluteOperands(inst: Instruction, rf: RegFile, c: CoreState, m: seq<Byte>): Operands
    requires IsImage(m) && AbsoluteForm(inst.mode)
  {
    if inst.mode.A8Register? then
      Operands(rf.(pc := AddWord(rf.pc, 1)), c.(memDest := OrHighPage(At(m, rf.pc)), destIsMem := true))
    else if inst.mode.A16Register? then
      ToMemory(rf.(pc := AddWord(rf.pc, 2)), c, Imm16(m, rf.pc), inst.reg2)
    else
      FromMemory(rf.(pc := AddWord(rf.pc, 2)), c, m, Imm16(m, rf.pc))
  }

  /** What each addressing mode reads and moves, from the state with the destination cleared. */
  function ModeOperands(inst: Instruction, rf: RegFile, c: CoreState, m: seq<Byte>): Operands
    requires IsImage(m)
  {
    if RegisterForm(inst.mode) then RegisterOperands(inst, rf, c)
    else if ImmediateForm(inst.mode) then ImmediateOperands(inst, rf, c, m)
    else if IndirectForm(inst.mode) then IndirectOperands(inst, rf, c, m)
    else if SteppingForm(inst.mode) then SteppingOperands(inst, rf, c, m)
    else AbsoluteOperands(inst, rf, c, m)
  }

  /**
   * `fetch_data` over a memory image: the memory destination is cleared
   * first, then the current instruction's mode decides what is read and
   * what moves.
   */
  function FetchOperands(rf: RegFile, core: CoreState, m: seq<Byte>): Operands
    requires IsImage(m)
  {
    var c0 := core.(memDest := 0, destIsMem := false);
    if core.curInst.None? then Operands(rf, c0) else ModeOperands(core.curInst.value, rf, c0, m)
  }

  /** The addressing modes whose destination is memory. */
  predicate WritesMemory(mode: AddressingMode)
  {
    mode in {MemoryRegister, HliRegister, HldRegister, A8Register, A16Register,
             MemoryRegisterD8, MemoryRegisterOnly}
  }

  /** `fetch_data` on the CPU, reading `bus`. */
  method FetchData(cpu: Cpu, mem: Memory)
    requires mem.Valid()
    modifies cpu, cpu.regs
    ensures cpu.regs.State() == FetchOperands(old(cpu.regs.State()), old(cpu.Core()), mem.bytes).regs
    ensures cpu.Core() == FetchOperands(old(cpu.regs.State()), old(cpu.Core()), mem.bytes).core
  {
    cpu.memDest := 0;
    cpu.destIsMem := false;
    if cpu.curInst.None? {
      return;
    }
    var inst := cpu.curInst.value;
    if RegisterForm(inst.mode) {
      FetchRegister(cpu, inst);
    } else if ImmediateForm(inst.mode) {
      FetchImmediate(cpu, mem, inst);
    } else if IndirectForm(inst.mode) {
      FetchIndirect(cpu, mem, inst);
    } else if SteppingForm(inst.mode) {
      FetchStepping(cpu, mem, inst);
    } else {
      FetchAbsolute(cpu, mem, inst);
    }
  }

  method FetchRegister(cpu: Cpu, inst: Instruction)
    requires RegisterForm(inst.mode)
    modifies cpu
    ensures cpu.regs.State() == RegisterOperands(inst, old(cpu.regs.State()), old(cpu.Core())).regs
    ensures cpu.Core() == RegisterOperands(inst, old(cpu.regs.State()), old(cpu.Core())).core
  {
    match inst.mode
    case Register =>
      cpu.fetchedData := ReadReg(cpu.regs.State(), inst.reg1);
    case RegisterRegister =>
      cpu.fetchedData := ReadReg(cpu.regs.State(), inst.reg2);
    case _ =>
  }

  method FetchImmediate(cpu: Cpu, mem: Memory, inst: Instruction)
    requires mem.Valid() && ImmediateForm(inst.mode)
    modifies cpu, cpu.regs
    ensures cpu.regs.State() == ImmediateOperands(inst, old(cpu.regs.State()), old(cpu.Core()), mem.bytes).regs
    ensures cpu.Core() == ImmediateOperands(inst, old(cpu.regs.State()), old(cpu.Core()), mem.bytes).core
  {
    var regs := cpu.regs;
    if inst.mode.RegisterD16? || inst.mode.D16? {
      var lo := mem.Read(regs.pc);
      var hi := mem.Read(AddWord(regs.pc, 1));
      cpu.fetchedData := Join(hi, lo);
      regs.pc := AddWord(regs.pc, 2);
    } else {
      cpu.fetchedData := mem.Read(regs.pc);
      regs.pc := AddWord(regs.pc, 1);
    }
  }

  method FetchIndirect(cpu: Cpu, mem: Memory, inst: Instruction)
    requires mem.Valid() && IndirectForm(inst.mode)
    modifies cpu, cpu.regs
    ensures cpu.regs.State() == IndirectOperands(inst, old(cpu.regs.State()), old(cpu.Core()), mem.bytes).regs
    ensures cpu.Core() == IndirectOperands(inst, old(cpu.regs.State()), old(cpu.Core()), mem.bytes).core
  {
    var regs := cpu.regs;
    match inst.mode
    case MemoryRegister =>
      cpu.fetchedData := ReadReg(regs.State(), inst.reg2);
      cpu.memDest := ReadReg(regs.State(), inst.reg1);
      cpu.destIsMem := true;
      if inst.reg1 == RegisterType.C {
        cpu.memDest := OrHighPage(cpu.memDest);
      }
    case RegisterMemory =>
      var addr := ReadReg(regs.State(), inst.reg2);
      if inst.reg2 == RegisterType.C {
        addr := OrHighPage(addr);
      }
      cpu.fetchedData := mem.Read(addr);
    case MemoryRegisterD8 =>
      cpu.fetchedData := mem.Read(regs.pc);
      regs.pc := AddWord(regs.pc, 1);
      cpu.memDest := ReadReg(regs.State(), inst.reg1);
      cpu.destIsMem := true;
    case MemoryRegisterOnly =>
      cpu.memDest := ReadReg(regs.State(), inst.reg1);
      cpu.destIsMem := true;
      cpu.fetchedData := mem.Read(ReadReg(regs.State(), inst.reg1));
  }

  method FetchStepping(cpu: Cpu, mem: Memory, inst: Instruction)
    requires mem.Valid() && SteppingForm(inst.mode)
    modifies cpu, cpu.regs
    ensures cpu.regs.State() == SteppingOperands(inst, old(cpu.regs.State()), old(cpu.Core()), mem.bytes).regs
    ensures cpu.Core() == SteppingOperands(inst, old(cpu.regs.State()), old(cpu.Core()), mem.bytes).core
  {
    var regs := cpu.regs;
    if inst.mode.RegisterHli? || inst.mode.RegisterHld? {
      cpu.fetchedData := mem.Read(ReadReg(regs.State(), inst.reg2));
    } else {
      cpu.fetchedData := ReadReg(regs.State(), inst.reg2);
      cpu.memDest := ReadReg(regs.State(), inst.reg1);
      cpu.destIsMem := true;
    }
    if inst.mode.RegisterHli? || inst.mode.HliRegister? {
      regs.SetHL(AddWord(regs.HL(), 1));
    } else {
      regs.SetHL(AddWord(regs.HL(), -1));
    }
  }

  method FetchAbsolute(cpu: Cpu, mem: Memory, inst: Instruction)
    requires mem.Valid() && AbsoluteForm(inst.mode)
    modifies cpu, cpu.regs
    ensures cpu.regs.State() == AbsoluteOperands(inst, old(cpu.regs.State()), old(cpu.Core()), mem.bytes).regs
    ensures cpu.Core() == AbsoluteOperands(inst, old(cpu.regs.State()), old(cpu.Core()), mem.bytes).core
  {
    var regs := cpu.regs;
    match inst.mode
    case A8Register =>
      cpu.memDest := OrHighPage(mem.Read(regs.pc));
      cpu.destIsMem := true;
      regs.pc := AddWord(regs.pc, 1);
    case A16Register =>
      var lo := mem.Read(regs.pc);
      var hi := mem.Read(AddWord(regs.pc, 1));
      cpu.memDest := Join(hi, lo);
      cpu.destIsMem := true;
      regs.pc := AddWord(regs.pc, 2);
      cpu.fetchedData := ReadReg(regs.State(), inst.reg2);
    case RegisterA16 =>
      var lo := mem.Read(regs.pc);
      var hi := mem.Read(AddWord(regs.pc, 1));
      var addr := Join(hi, lo);
      regs.pc := AddWord(regs.pc, 2);
      cpu.fetchedData := mem.Read(addr);
  }

  /** An instruction is current: the state `fetch_data` is reached in after `fetch_instruction`. */
  predicate Decoded(core: CoreState)
  {
    core.curInst.Some?
  }

  /** The memory destination flag is set exactly for the memory-destination modes. */
  lemma DestinationFlag(rf: RegFile, core: CoreState, m: seq<Byte>)
    requires IsImage(m)
    ensures FetchOperands(rf, core, m).core.destIsMem <==>
            Decoded(core) && WritesMemory(core.curInst.value.mode)
  {
    if core.curInst.Some? {
      var mode := core.curInst.value.mode;
      if RegisterForm(mode) {
      } else if ImmediateForm(mode) {
      } else if IndirectForm(mode) {
      } else if SteppingForm(mode) {
      } else {
      }
    }
  }

  /** Without a memory destination, `mem_dest` keeps the 0 it was reset to. */
  lemma DestinationCleared(rf: RegFile, core: CoreState, m: seq<Byte>)
    requires IsImage(m)
    ensures !FetchOperands(rf, core, m).core.destIsMem ==> FetchOperands(rf, core, m).core.memDest == 0
  {
    if core.curInst.Some? {
      var mode := core.curInst.value.mode;
      if RegisterForm(mode) {
      } else if ImmediateForm(mode) {
      } else if IndirectForm(mode) {
      } else if SteppingForm(mode) {
      } else {
      }
    }
  }

  /** The D16 forms load the little-endian word at PC and step PC by two. */
  lemma Immediate16(rf: RegFile, core: CoreState, m: seq<Byte>)
    requires IsImage(m) && Decoded(core) && core.curInst.value.mode in {D16, RegisterD16}
    ensures var o := FetchOperands(rf, core, m);
      o.core.fetchedData == Join(At(m, AddWord(rf.pc, 1)), At(m, rf.pc)) &&
      o.regs == rf.(pc := AddWord(rf.pc, 2))
  {
  }

  /** The D8-style forms load the byte at PC and step PC by one. */
  lemma Immediate8(rf: RegFile, core: CoreState, m: seq<Byte>)
    requires IsImage(m) && Decoded(core) && core.curInst.value.mode in {D8, RegisterD8, RegisterA8, HlSpr}
    ensures var o := FetchOperands(rf, core, m);
      o.core.fetchedData == At(m, rf.pc) && o.regs == rf.(pc := AddWord(rf.pc, 1))
  {
  }

  /**
   * The (HL+) and (HL-) forms use the old HL and step it by one (wrapping);
   * nothing else in the register file changes.
   */
  lemma HlStepping(rf: RegFile, core: CoreState, m: seq<Byte>)
    requires IsImage(m) && Decoded(core)
    requires core.curInst.value.mode in {RegisterHli, RegisterHld, HliRegister, HldRegister}
    requires core.curInst.value.reg1 == Hl || core.curInst.value.reg2 == Hl
    ensures var mode := core.curInst.value.mode;
      var o := FetchOperands(rf, core, m);
      var hl := Join(rf.h, rf.l);
      Join(o.regs.h, o.regs.l) == (if mode in {RegisterHli, HliRegister} then AddWord(hl, 1) else AddWord(hl, -1)) &&
      o.regs.(h := rf.h, l := rf.l) == rf
  {
    var hl := Join(rf.h, rf.l);
    JoinSplit(AddWord(hl, 1));
    JoinSplit(AddWord(hl, -1));
  }

  /** `LD (C),A` and `LDH (a8),A` write into the high page 0xFF00-0xFFFF. */
  lemma HighPageDestination(rf: RegFile, core: CoreState, m: seq<Byte>)
    requires IsImage(m) && Decoded(core)
    requires core.curInst.value.mode == A8Register ||
             (core.curInst.value.mode == MemoryRegister && core.curInst.value.reg1 == RegisterType.C)
    ensures FetchOperands(rf, core, m).core.memDest >= 0xFF00
  {
  }

  /** Fetching the opcode after decoding 0xE2 or 0xE0 gives exactly those two high-page cases. */
  lemma HighPageOpcodes()
    ensures InstructionByOpcode(0xE2).mode == MemoryRegister && InstructionByOpcode(0xE2).reg1 == RegisterType.C
    ensures InstructionByOpcode(0xE0).mode == A8Register
  {
  }
}
