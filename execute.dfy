/**
 * Instruction execution: the handler of every instruction type, the 8-bit
 * register helpers, conditional jumps, the 16-bit stack and interrupt
 * dispatch. Each handler is a method on the CPU and the memory it writes,
 * specified by a function of the whole machine state before it runs; the
 * lemmas below the functions state what each instruction does.
 */
module Execute {
  import opened Common
  import opened Registers
  import I = Instructions
  import opened Alu
  import opened Cpu
  import Fetch

  /** Everything an instruction can change: the registers, the CPU's own fields and the address space. */
  datatype Machine = Machine(regs: RegFile, core: CoreState, mem: seq<Byte>)

  /** The machine a CPU and a memory form together. */
  function MachineOf(cpu: Cpu, mem: Memory): Machine
    reads cpu, cpu.regs, mem
  {
    Machine(cpu.regs.State(), cpu.Core(), mem.bytes)
  }

  // ---------------------------------------------------------------------
  // Flags, cycles and 8-bit registers
  // ---------------------------------------------------------------------

  predicate ZOf(rf: RegFile) { Bit(rf.f, ZeroBit) }
  predicate NOf(rf: RegFile) { Bit(rf.f, SubtractBit) }
  predicate HOf(rf: RegFile) { Bit(rf.f, HalfCarryBit) }
  predicate COf(rf: RegFile) { Bit(rf.f, CarryBit) }

  /** HL as a word. */
  function HlOf(rf: RegFile): Word
  {
    Join(rf.h, rf.l)
  }

  /** `add_m_cycles(n)`. */
  function Tick(m: Machine, n: U32): Machine
  {
    m.(core := m.core.(pendingMCycles := SaturatingAdd(m.core.pendingMCycles, n)))
  }

  /** `set_flags(z, n, h, c)`. */
  function WithFlagsOf(m: Machine, z: bool, n: bool, h: bool, c: bool): Machine
  {
    m.(regs := m.regs.(f := WithFlags(m.regs.f, z, n, h, c)))
  }

  /** One flag setter (`set_flag_z` and the like) for the flag at bit k. */
  function SetFlagOf(m: Machine, k: nat, on: bool): Machine
    requires k < 8
  {
    m.(regs := m.regs.(f := BitSet(m.regs.f, k, on)))
  }

  /** After `set_flags` each flag reads back as given and only F has changed. */
  lemma FlagsReadBack(m: Machine, z: bool, n: bool, h: bool, c: bool)
    ensures var r := WithFlagsOf(m, z, n, h, c).regs;
      ZOf(r) == z && NOf(r) == n && HOf(r) == h && COf(r) == c
  {
    WithFlagsReadBack(m.regs.f, z, n, h, c);
  }

  /** After one flag setter that flag reads back as given and the other flags keep their values. */
  lemma SetFlagReadBack(m: Machine, k: nat, on: bool)
    requires k in {ZeroBit, SubtractBit, HalfCarryBit, CarryBit}
    ensures var r := SetFlagOf(m, k, on).regs;
      Bit(r.f, k) == on &&
      (k != ZeroBit ==> ZOf(r) == ZOf(m.regs)) && (k != SubtractBit ==> NOf(r) == NOf(m.regs)) &&
      (k != HalfCarryBit ==> HOf(r) == HOf(m.regs)) && (k != CarryBit ==> COf(r) == COf(m.regs))
  {
    var f := m.regs.f;
    BitSetReadsBack(f, k, on);
    if k != ZeroBit { BitSetOthers(f, k, on, ZeroBit); }
    if k != SubtractBit { BitSetOthers(f, k, on, SubtractBit); }
    if k != HalfCarryBit { BitSetOthers(f, k, on, HalfCarryBit); }
    if k != CarryBit { BitSetOthers(f, k, on, CarryBit); }
  }

  /** `check_condition`: Always holds; Z/NZ test the zero flag and C/NC the carry flag. */
  predicate Condition(rf: RegFile, cond: I.ConditionType)
  {
    match cond
    case Always => true
    case Z => ZOf(rf)
    case Nz => !ZOf(rf)
    case C => COf(rf)
    case Nc => !COf(rf)
  }

  /** `read_reg8`: the eight 8-bit registers; anything else reads 0. */
  function ReadReg8(rf: RegFile, r: I.RegisterType): Byte
  {
    match r
    case A => rf.a
    case F => rf.f
    case B => rf.b
    case C => rf.c
    case D => rf.d
    case E => rf.e
    case H => rf.h
    case L => rf.l
    case _ => 0
  }

  /** `write_reg8`: F keeps only the high nibble of the value; a non-8-bit register ignores the write. */
  function WriteReg8(rf: RegFile, r: I.RegisterType, v: Byte): RegFile
  {
    match r
    case A => rf.(a := v)
    case F => rf.(f := FlagNibble(v))
    case B => rf.(b := v)
    case C => rf.(c := v)
    case D => rf.(d := v)
    case E => rf.(e := v)
    case H => rf.(h := v)
    case L => rf.(l := v)
    case _ => rf
  }

  /** The 8-bit registers an instruction can name as a byte operand. */
  predicate IsByteReg(r: I.RegisterType)
  {
    r in {I.A, I.B, I.RegisterType.C, I.D, I.E, I.H, I.L}
  }

  /**
   * Writing F through `write_reg8` clears its low nibble and keeps the high
   * nibble of the value; no other register changes.
   */
  lemma WriteReg8ClearsLowNibble(rf: RegFile, v: Byte)
    ensures WriteReg8(rf, I.F, v).f % 0x10 == 0
    ensures WriteReg8(rf, I.F, v).f / 0x10 == v / 0x10
    ensures WriteReg8(rf, I.F, v).(f := rf.f) == rf
  {
  }

  /**
   * A byte register reads back what was written to it and the other
   * registers keep their values; a register that is not 8-bit is not changed.
   */
  lemma ReadReg8AfterWrite(rf: RegFile, r: I.RegisterType, v: Byte, s: I.RegisterType)
    ensures IsByteReg(r) ==> ReadReg8(WriteReg8(rf, r, v), r) == v
    ensures s != r && s != I.F ==> ReadReg8(WriteReg8(rf, r, v), s) == ReadReg8(rf, s)
    ensures !IsByteReg(r) && r != I.F ==> WriteReg8(rf, r, v) == rf
  {
  }

  // ---------------------------------------------------------------------
  // The stack
  // ---------------------------------------------------------------------

  /** `stack_push8`: SP steps down by one (wrapping), then the byte is stored at the new SP. */
  function Push8(m: Machine, v: Byte): (r: Machine)
    requires IsImage(m.mem)
    ensures IsImage(r.mem)
  {
    var sp := AddWord(m.regs.sp, -1);
    m.(regs := m.regs.(sp := sp), mem := Store(m.mem, sp, v))
  }

  /** `stack_pop8`: the byte at SP, then SP steps up by one (wrapping). */
  function Pop8(m: Machine): (Byte, Machine)
    requires IsImage(m.mem)
  {
    (At(m.mem, m.regs.sp), m.(regs := m.regs.(sp := AddWord(m.regs.sp, 1))))
  }

  /** `stack_push16`: the high byte is pushed first, then the low byte, so SP ends at the low byte. */
  function Push16(m: Machine, v: Word): (r: Machine)
    requires IsImage(m.mem)
    ensures IsImage(r.mem)
  {
    Push8(Push8(m, HighByte(v)), LowByte(v))
  }

  /** `stack_pop16`: the low byte is popped first, then the high byte. */
  function Pop16(m: Machine): (Word, Machine)
    requires IsImage(m.mem)
  {
    var (lo, m1) := Pop8(m);
    var (hi, m2) := Pop8(m1);
    (Join(hi, lo), m2)
  }

  /**
   * A 16-bit push moves SP down by two (wrapping), stores the high byte at
   * SP + 1 and the low byte at SP, and changes nothing else.
   */
  lemma Push16Layout(m: Machine, v: Word)
    requires IsImage(m.mem)
    ensures var r := Push16(m, v);
      r.regs == m.regs.(sp := AddWord(m.regs.sp, -2)) && r.core == m.core &&
      At(r.mem, AddWord(r.regs.sp, 1)) == HighByte(v) && At(r.mem, r.regs.sp) == LowByte(v)
    ensures var r := Push16(m, v);
      forall k: Word :: k != r.regs.sp && k != AddWord(r.regs.sp, 1) ==> At(r.mem, k) == At(m.mem, k)
  {
    var sp1 := AddWord(m.regs.sp, -1);
    var sp2 := AddWord(sp1, -1);
    assert sp2 == AddWord(m.regs.sp, -2);
    assert AddWord(sp2, 1) == sp1;
  }

  /** Popping a word just pushed gives it back and restores SP; the registers and CPU fields are as before. */
  lemma PushPopRoundTrip(m: Machine, v: Word)
    requires IsImage(m.mem)
    ensures var (w, r) := Pop16(Push16(m, v));
      w == v && r.regs == m.regs && r.core == m.core
  {
    Push16Layout(m, v);
    var sp1 := AddWord(m.regs.sp, -1);
    var sp2 := AddWord(sp1, -1);
    assert AddWord(sp2, 1) == sp1;
    assert AddWord(sp1, 1) == m.regs.sp;
    JoinSplit(v);
  }

  /** `stack_push8` on the CPU and the bus. */
  method StackPush8(cpu: Cpu, mem: Memory, v: Byte)
    requires mem.Valid()
    modifies cpu.regs, mem
    ensures mem.Valid() && MachineOf(cpu, mem) == Push8(old(MachineOf(cpu, mem)), v)
  {
    cpu.regs.sp := AddWord(cpu.regs.sp, -1);
    mem.Write(cpu.regs.sp, v);
  }

  /** `stack_pop8` on the CPU and the bus. */
  method StackPop8(cpu: Cpu, mem: Memory) returns (v: Byte)
    requires mem.Valid()
    modifies cpu.regs
    ensures (v, MachineOf(cpu, mem)) == Pop8(old(MachineOf(cpu, mem)))
  {
    v := mem.Read(cpu.regs.sp);
    cpu.regs.sp := AddWord(cpu.regs.sp, 1);
  }

  /** `stack_push16` on the CPU and the bus. */
  method StackPush16(cpu: Cpu, mem: Memory, v: Word)
    requires mem.Valid()
    modifies cpu.regs, mem
    ensures mem.Valid() && MachineOf(cpu, mem) == Push16(old(MachineOf(cpu, mem)), v)
  {
    StackPush8(cpu, mem, HighByte(v));
    StackPush8(cpu, mem, LowByte(v));
  }

  /** `stack_pop16` on the CPU and the bus. */
  method StackPop16(cpu: Cpu, mem: Memory) returns (v: Word)
    requires mem.Valid()
    modifies cpu.regs
    ensures (v, MachineOf(cpu, mem)) == Pop16(old(MachineOf(cpu, mem)))
  {
    var lo := StackPop8(cpu, mem);
    var hi := StackPop8(cpu, mem);
    v := Join(hi, lo);
  }

  // ---------------------------------------------------------------------
  // The machine after each handler
  // ---------------------------------------------------------------------

  /** `jump_to_if`: when the condition holds PC takes the address and one M-cycle is added. */
  function JumpNext(m: Machine, addr: Word, cond: I.ConditionType): Machine
  {
    if Condition(m.regs, cond) then Tick(m.(regs := m.regs.(pc := addr)), 1) else m
  }

  /** A byte result written to A together with its flags. */
  function ToA(m: Machine, r: AluOut): Machine
    requires r.value < 0x100
  {
    WithFlagsOf(m.(regs := m.regs.(a := r.value)), r.flags.z, r.flags.n, r.flags.h, r.flags.c)
  }

  /** An accumulator rotate: A takes the value, Z, N and H are cleared and C takes the bit shifted out. */
  function RotateANext(m: Machine, r: Shifted): Machine
  {
    WithFlagsOf(m.(regs := m.regs.(a := r.value)), false, false, false, r.carry)
  }

  /**
   * `proc_ld`: to memory a byte (or, for a 16-bit source, a little-endian
   * word and one more M-cycle) and one M-cycle; LD HL, SP+e8 with the
   * carries of the low byte; otherwise the register takes the operand.
   */
  function LdNext(m: Machine, inst: I.Instruction): (r: Machine)
    requires IsImage(m.mem)
    ensures IsImage(r.mem)
  {
    var fd := m.core.fetchedData;
    if m.core.destIsMem then
      if I.Is16Bit(inst.reg2) then
        var m1 := Tick(m, 1);
        Tick(m1.(mem := StoreWord(m1.mem, m1.core.memDest, fd)), 1)
      else
        Tick(m.(mem := Store(m.mem, m.core.memDest, LowByte(fd))), 1)
    else if inst.mode == I.HlSpr then
      var rv := Fetch.ReadReg(m.regs, inst.reg2);
      var m1 := WithFlagsOf(m, false, false, rv % 0x10 + fd % 0x10 >= 0x10, rv % 0x100 + fd % 0x100 >= 0x100);
      m1.(regs := Fetch.WriteReg(m1.regs, inst.reg1, AddWord(Fetch.ReadReg(m1.regs, inst.reg2), SignExtend(LowByte(fd)))))
    else
      m.(regs := Fetch.WriteReg(m.regs, inst.reg1, fd))
  }

  /** `proc_ldh`: A from the high page 0xFF00 | operand, or A to the fetched destination; one M-cycle. */
  function LdhNext(m: Machine, inst: I.Instruction): (r: Machine)
    requires IsImage(m.mem)
    ensures IsImage(r.mem)
  {
    var m1 :=
      if inst.reg1 == I.A then m.(regs := m.regs.(a := At(m.mem, Fetch.OrHighPage(m.core.fetchedData))))
      else m.(mem := Store(m.mem, m.core.memDest, m.regs.a));
    Tick(m1, 1)
  }

  /** `cur_opcode & 0x03 == 0x03`: the opcode of a 16-bit INC, which leaves the flags alone. */
  predicate IncKeepsFlags(op: Byte)
  {
    op % 4 == 3
  }

  /** `cur_opcode & 0x0B == 0x0B`: the opcode of a 16-bit DEC, which leaves the flags alone. */
  predicate DecKeepsFlags(op: Byte)
  {
    op % 4 == 3 && op / 8 % 2 == 1
  }

  /** The step of `proc_inc` / `proc_dec` (delta 1 or -1) before the flags: the new machine and `val`. */
  function StepNext(m: Machine, inst: I.Instruction, delta: int): (r: (Machine, Word))
    requires IsImage(m.mem)
    ensures IsImage(r.0.mem)
  {
    var val := AddWord(Fetch.ReadReg(m.regs, inst.reg1), delta);
    var m1 := if I.Is16Bit(inst.reg1) then Tick(m, 1) else m;
    if inst.reg1 == I.Hl && inst.mode == I.MemoryRegisterOnly then
      var b := AddByte(At(m1.mem, HlOf(m1.regs)), delta);
      (m1.(mem := Store(m1.mem, HlOf(m1.regs), b)), b)
    else
      var rf := Fetch.WriteReg(m1.regs, inst.reg1, val);
      (m1.(regs := rf), Fetch.ReadReg(rf, inst.reg1))
  }

  /**
   * `proc_inc`: the register (or the byte at HL for INC (HL)) plus one,
   * wrapping; an extra M-cycle for a 16-bit register; then, unless the
   * opcode is a 16-bit INC, Z from the low byte, N cleared and H set when
   * the low nibble wrapped to 0.
   */
  function IncNext(m: Machine, inst: I.Instruction): (r: Machine)
    requires IsImage(m.mem)
    ensures IsImage(r.mem)
  {
    var (m1, v) := StepNext(m, inst, 1);
    if IncKeepsFlags(m.core.curOpcode) then m1
    else SetFlagOf(SetFlagOf(SetFlagOf(m1, ZeroBit, v % 0x100 == 0), SubtractBit, false), HalfCarryBit, v % 0x10 == 0)
  }

  /** `proc_dec`: as INC with minus one, N set and H set when the low nibble wrapped to 0xF. */
  function DecNext(m: Machine, inst: I.Instruction): (r: Machine)
    requires IsImage(m.mem)
    ensures IsImage(r.mem)
  {
    var (m1, v) := StepNext(m, inst, -1);
    if DecKeepsFlags(m.core.curOpcode) then m1
    else SetFlagOf(SetFlagOf(SetFlagOf(m1, ZeroBit, v % 0x100 == 0), SubtractBit, true), HalfCarryBit, v % 0x10 == 0xF)
  }

  /** `proc_add`: the destination takes `AddOp`'s value and F its flags; a 16-bit destination costs an M-cycle. */
  function AddNext(m: Machine, inst: I.Instruction): Machine
  {
    var r := AddOp(inst.reg1, Fetch.ReadReg(m.regs, inst.reg1), m.core.fetchedData, ZOf(m.regs));
    var m1 := if I.Is16Bit(inst.reg1) then Tick(m, 1) else m;
    WithFlagsOf(m1.(regs := Fetch.WriteReg(m1.regs, inst.reg1, r.value)), r.flags.z, false, r.flags.h, r.flags.c)
  }

  /** `proc_adc`: A + operand + C. */
  function AdcNext(m: Machine): Machine
  {
    ToA(m, Adc(m.regs.a, m.core.fetchedData, COf(m.regs)))
  }

  /** `proc_sub`: the register minus the operand, written back; N set. */
  function SubNext(m: Machine, inst: I.Instruction): Machine
  {
    var r := Sub(Fetch.ReadReg(m.regs, inst.reg1), m.core.fetchedData);
    WithFlagsOf(m.(regs := Fetch.WriteReg(m.regs, inst.reg1, r.value)), r.flags.z, true, r.flags.h, r.flags.c)
  }

  /** `proc_sbc`, with Z taken from the byte written back (see `Alu.Sbc`). */
  function SbcNext(m: Machine, inst: I.Instruction): Machine
  {
    var r := Sbc(Fetch.ReadReg(m.regs, inst.reg1), m.core.fetchedData, COf(m.regs));
    WithFlagsOf(m.(regs := Fetch.WriteReg(m.regs, inst.reg1, r.value)), r.flags.z, true, r.flags.h, r.flags.c)
  }

  /** `proc_and`, `proc_xor`, `proc_or`: A combined with the low byte of the operand. */
  function AndNext(m: Machine): Machine { ToA(m, AndOp(m.regs.a, m.core.fetchedData)) }
  function XorNext(m: Machine): Machine { ToA(m, XorOp(m.regs.a, m.core.fetchedData)) }
  function OrNext(m: Machine): Machine { ToA(m, OrOp(m.regs.a, m.core.fetchedData)) }

  /** `proc_cp`: only F changes, to the flags of A minus the operand. */
  function CpNext(m: Machine): Machine
  {
    var f := CpFlags(m.regs.a, m.core.fetchedData);
    WithFlagsOf(m, f.z, true, f.h, f.c)
  }

  /** `proc_jr`: PC plus the sign-extended low byte of the operand, if the condition holds. */
  function JrNext(m: Machine, inst: I.Instruction): Machine
  {
    JumpNext(m, AddWord(m.regs.pc, SignExtend(LowByte(m.core.fetchedData))), inst.cond)
  }

  /** `proc_jp`: PC takes the operand if the condition holds. */
  function JpNext(m: Machine, inst: I.Instruction): Machine
  {
    JumpNext(m, m.core.fetchedData, inst.cond)
  }

  /** `proc_call`: if the condition holds, two M-cycles, PC pushed, PC := operand, one more M-cycle. */
  function CallNext(m: Machine, inst: I.Instruction): (r: Machine)
    requires IsImage(m.mem)
    ensures IsImage(r.mem)
  {
    if Condition(m.regs, inst.cond) then
      var m1 := Push16(Tick(m, 2), m.regs.pc);
      Tick(m1.(regs := m1.regs.(pc := m.core.fetchedData)), 1)
    else m
  }

  /** `proc_ret`: a conditional RET costs an M-cycle; if the condition holds PC is popped and three M-cycles pass. */
  function RetNext(m: Machine, inst: I.Instruction): (r: Machine)
    requires IsImage(m.mem)
    ensures IsImage(r.mem)
  {
    var m1 := if inst.cond != I.Always then Tick(m, 1) else m;
    if Condition(m1.regs, inst.cond) then
      var (pc, m2) := Pop16(m1);
      Tick(m2.(regs := m2.regs.(pc := pc)), 3)
    else m1
  }

  /** `proc_reti`: IME set, PC popped, three M-cycles. */
  function RetiNext(m: Machine): (r: Machine)
    requires IsImage(m.mem)
    ensures IsImage(r.mem)
  {
    var (pc, m1) := Pop16(m.(core := m.core.(ime := true)));
    Tick(m1.(regs := m1.regs.(pc := pc)), 3)
  }

  /** `proc_rst`: two M-cycles, PC pushed, PC := the entry's vector, one more M-cycle. */
  function RstNext(m: Machine, inst: I.Instruction): (r: Machine)
    requires IsImage(m.mem)
    ensures IsImage(r.mem)
  {
    var m1 := Push16(Tick(m, 2), m.regs.pc);
    Tick(m1.(regs := m1.regs.(pc := inst.param)), 1)
  }

  /** `proc_pop`: a word popped into the register pair, two M-cycles; for AF the low nibble of F is cleared. */
  function PopNext(m: Machine, inst: I.Instruction): (r: Machine)
    requires IsImage(m.mem)
    ensures IsImage(r.mem)
  {
    var (v, m1) := Pop16(m);
    var m2 := Tick(m1, 2);
    var rf := Fetch.WriteReg(m2.regs, inst.reg1, v);
    m2.(regs := if inst.reg1 == I.Af then rf.(f := FlagNibble(rf.f)) else rf)
  }

  /** `proc_push`: the register pushed, three M-cycles. */
  function PushNext(m: Machine, inst: I.Instruction): (r: Machine)
    requires IsImage(m.mem)
    ensures IsImage(r.mem)
  {
    Tick(Push16(m, Fetch.ReadReg(m.regs, inst.reg1)), 3)
  }

  /** `proc_daa`: A adjusted; Z from the new A, H cleared, C from the adjustment, N kept. */
  function DaaNext(m: Machine): Machine
  {
    var r := Daa(m.regs.a, NOf(m.regs), HOf(m.regs), COf(m.regs));
    SetFlagOf(SetFlagOf(SetFlagOf(m.(regs := m.regs.(a := r.value)), ZeroBit, r.value == 0), HalfCarryBit, false),
              CarryBit, r.carry)
  }

  /** `proc_cpl`: A complemented; N and H set. */
  function CplNext(m: Machine): Machine
  {
    SetFlagOf(SetFlagOf(m.(regs := m.regs.(a := Cpl(m.regs.a))), SubtractBit, true), HalfCarryBit, true)
  }

  /** `proc_scf`: N and H cleared, C set. */
  function ScfNext(m: Machine): Machine
  {
    SetFlagOf(SetFlagOf(SetFlagOf(m, SubtractBit, false), HalfCarryBit, false), CarryBit, true)
  }

  /** `proc_ccf`: N and H cleared, C inverted. */
  function CcfNext(m: Machine): Machine
  {
    var m1 := SetFlagOf(SetFlagOf(m, SubtractBit, false), HalfCarryBit, false);
    SetFlagOf(m1, CarryBit, !COf(m1.regs))
  }

  /** Every CB table entry has a bit position below 8. */
  lemma CbParamBelow8(op: Byte)
    ensures I.CbInstructionByOpcode(op).param < 8
  {
    if op < 0x40 { I.CbRotations(op); } else { I.CbBitOperations(op); }
  }

  /** The rotation or shift a CB opcode below 0x40 selects by `(op >> 3) & 7`. */
  function CbRotate(idx: nat, v: Byte, carry: bool): Shifted
  {
    if idx == 0 then Rlc(v) else if idx == 1 then Rrc(v) else if idx == 2 then Rl(v, carry)
    else if idx == 3 then Rr(v, carry) else if idx == 4 then Sla(v) else if idx == 5 then Sra(v)
    else if idx == 6 then Swap(v) else if idx == 7 then Srl(v) else Shifted(v, false)
  }

  /** The byte operand named by reg: the byte at HL for `Hl` (the (HL) operand), an 8-bit register otherwise. */
  function ByteOperand(m: Machine, reg: I.RegisterType): Byte
    requires IsImage(m.mem)
  {
    if reg == I.Hl then At(m.mem, HlOf(m.regs)) else ReadReg8(m.regs, reg)
  }

  /** `write_cb_result`: to the byte at HL for `Hl`, through `write_reg8` otherwise. */
  function WriteCbNext(m: Machine, reg: I.RegisterType, v: Byte): (r: Machine)
    requires IsImage(m.mem)
    ensures IsImage(r.mem)
  {
    if reg == I.Hl then m.(mem := Store(m.mem, HlOf(m.regs), v)) else m.(regs := WriteReg8(m.regs, reg, v))
  }

  /**
   * `proc_cb`: the CB opcode is the low byte of the operand; its entry names
   * the operand and the bit. An (HL) operand costs one more M-cycle for BIT
   * and two for the rest. BIT sets Z when the bit is clear, N cleared, H set;
   * RES and SET write the operand with the bit changed; a rotation or shift
   * writes its result and sets Z from it, N and H cleared, C from the bit
   * shifted out.
   */
  function CbNext(m: Machine): (r: Machine)
    requires IsImage(m.mem)
    ensures IsImage(r.mem)
  {
    var op := LowByte(m.core.fetchedData);
    var ci := I.CbInstructionByOpcode(op);
    CbParamBelow8(op);
    CbApply(m, op, ci.reg1, ci.param)
  }

  /** `proc_cb` once the entry of opcode op has named the operand reg and the bit b. */
  function CbApply(m: Machine, op: Byte, reg: I.RegisterType, b: nat): (r: Machine)
    requires IsImage(m.mem) && b < 8
    ensures IsImage(r.mem)
  {
    var v := ByteOperand(m, reg);
    var bitOp := op / 64;
    var m1 := if reg == I.Hl then Tick(m, if bitOp == 1 then 1 else 2) else m;
    if bitOp == 1 then CbBitNext(m1, v, b)
    else if bitOp == 2 then WriteCbNext(m1, reg, BitSet(v, b, false))
    else if bitOp == 3 then WriteCbNext(m1, reg, BitSet(v, b, true))
    else CbShiftNext(m1, op, reg, v)
  }

  /** BIT b of the operand value v: Z set exactly when the bit is clear, N cleared, H set. */
  function CbBitNext(m: Machine, v: Byte, b: nat): Machine
    requires b < 8
  {
    SetFlagOf(SetFlagOf(SetFlagOf(m, ZeroBit, !Bit(v, b)), SubtractBit, false), HalfCarryBit, true)
  }

  /** A CB rotation or shift of the operand value v: the result written back, Z from it, N and H cleared, C the bit shifted out. */
  function CbShiftNext(m: Machine, op: Byte, reg: I.RegisterType, v: Byte): (r: Machine)
    requires IsImage(m.mem)
    ensures IsImage(r.mem)
  {
    var r := CbRotate(op / 8 % 8, v, COf(m.regs));
    WithFlagsOf(WriteCbNext(m, reg, r.value), r.value == 0, false, false, r.carry)
  }

  /** What `execute` does: the machine after the current instruction, or `proc_none`'s panic. */
  datatype Outcome = Executed(m: Machine) | InvalidInstruction

  /** `execute`: no current instruction leaves the machine as it is; otherwise its handler runs. */
  function ExecuteNext(m: Machine): (r: Outcome)
    requires IsImage(m.mem)
    ensures r.Executed? ==> IsImage(r.m.mem)
  {
    if m.core.curInst.None? then Executed(m)
    else
      var inst := m.core.curInst.value;
      if inst.instType == I.InvalidOp then InvalidInstruction
      else if LoadGroup(inst.instType) then Executed(LoadNext(m, inst))
      else if ArithmeticGroup(inst.instType) then Executed(ArithmeticNext(m, inst))
      else if ControlGroup(inst.instType) then Executed(ControlNext(m, inst))
      else if AccumulatorGroup(inst.instType) then Executed(AccumulatorNext(m, inst))
      else if inst.instType == I.Cb then Executed(CbNext(m))
      else Executed(OtherNext(m, inst))
  }

  /** The loads and INC/DEC. */
  predicate LoadGroup(t: I.InstructionType)
  {
    t in {I.Ld, I.Ldh, I.Inc, I.Dec}
  }

  /** The 8- and 16-bit arithmetic and logic. */
  predicate ArithmeticGroup(t: I.InstructionType)
  {
    t in {I.Add, I.Adc, I.Sub, I.Sbc, I.And, I.Xor, I.Or, I.Cp}
  }

  /** Jumps, calls, returns, restarts and the stack. */
  predicate ControlGroup(t: I.InstructionType)
  {
    t in {I.Jr, I.Jp, I.Call, I.Ret, I.Reti, I.Rst, I.Pop, I.Push}
  }

  /** The accumulator rotates, DAA, CPL and the carry-flag instructions. */
  predicate AccumulatorGroup(t: I.InstructionType)
  {
    t in {I.Rlca, I.Rrca, I.Rla, I.Rra, I.Daa, I.Cpl, I.Scf, I.Ccf}
  }

  function LoadNext(m: Machine, inst: I.Instruction): (r: Machine)
    requires IsImage(m.mem) && LoadGroup(inst.instType)
    ensures IsImage(r.mem)
  {
    match inst.instType
    case Ld => LdNext(m, inst)
    case Ldh => LdhNext(m, inst)
    case Inc => IncNext(m, inst)
    case Dec => DecNext(m, inst)
  }

  function ArithmeticNext(m: Machine, inst: I.Instruction): (r: Machine)
    requires ArithmeticGroup(inst.instType)
    ensures r.mem == m.mem
  {
    match inst.instType
    case Add => AddNext(m, inst)
    case Adc => AdcNext(m)
    case Sub => SubNext(m, inst)
    case Sbc => SbcNext(m, inst)
    case And => AndNext(m)
    case Xor => XorNext(m)
    case Or => OrNext(m)
    case Cp => CpNext(m)
  }

  function ControlNext(m: Machine, inst: I.Instruction): (r: Machine)
    requires IsImage(m.mem) && ControlGroup(inst.instType)
    ensures IsImage(r.mem)
  {
    match inst.instType
    case Jr => JrNext(m, inst)
    case Jp => JpNext(m, inst)
    case Call => CallNext(m, inst)
    case Ret => RetNext(m, inst)
    case Reti => RetiNext(m)
    case Rst => RstNext(m, inst)
    case Pop => PopNext(m, inst)
    case Push => PushNext(m, inst)
  }

  function AccumulatorNext(m: Machine, inst: I.Instruction): (r: Machine)
    requires AccumulatorGroup(inst.instType)
    ensures r.mem == m.mem
  {
    match inst.instType
    case Rlca => RotateANext(m, Rlc(m.regs.a))
    case Rrca => RotateANext(m, Rrc(m.regs.a))
    case Rla => RotateANext(m, Rl(m.regs.a, COf(m.regs)))
    case Rra => RotateANext(m, Rr(m.regs.a, COf(m.regs)))
    case Daa => DaaNext(m)
    case Cpl => CplNext(m)
    case Scf => ScfNext(m)
    case Ccf => CcfNext(m)
  }

  /** HALT, DI and EI; the CB sub-types, NOP and STOP do nothing. */
  function OtherNext(m: Machine, inst: I.Instruction): (r: Machine)
    ensures r.mem == m.mem
  {
    if inst.instType == I.Halt then m.(core := m.core.(halted := true))
    else if inst.instType == I.Di then m.(core := m.core.(ime := false))
    else if inst.instType == I.Ei then m.(core := m.core.(enablingIme := true))
    else m
  }

  /**
   * `handle_interrupts`: with IME set and a request pending, the highest
   * priority one is served: IME cleared, its IF bit cleared, PC pushed, PC
   * set to its vector and the CPU woken from HALT. Returns whether one was
   * served.
   */
  function InterruptNext(m: Machine): (r: (bool, Machine))
    requires IsImage(m.mem)
    ensures IsImage(r.1.mem)
  {
    var pending := PendingMask(m.core.intFlags, m.core.ieRegister);
    if !m.core.ime || pending == 0 then (false, m)
    else
      match HighestPending(pending)
      case None => (false, m)
      case Some(t) =>
        var m1 := m.(core := m.core.(ime := false, intFlags := And(m.core.intFlags, Not(InterruptBit(t)))));
        var m2 := Push16(m1, m1.regs.pc);
        (true, m2.(regs := m2.regs.(pc := Vector(t)), core := m2.core.(halted := false)))
  }

  // ---------------------------------------------------------------------
  // The handlers on the CPU and the bus
  // ---------------------------------------------------------------------

  /** `jump_to_if`. */
  method JumpToIf(cpu: Cpu, mem: Memory, addr: Word, cond: I.ConditionType)
    modifies cpu, cpu.regs
    ensures MachineOf(cpu, mem) == JumpNext(old(MachineOf(cpu, mem)), addr, cond)
  {
    if Condition(cpu.regs.State(), cond) {
      cpu.regs.pc := addr;
      cpu.AddMCycles(1);
    }
  }

  method ProcLd(cpu: Cpu, mem: Memory, inst: I.Instruction)
    requires mem.Valid()
    modifies cpu, cpu.regs, mem
    ensures mem.Valid() && MachineOf(cpu, mem) == LdNext(old(MachineOf(cpu, mem)), inst)
  {
    if cpu.destIsMem {
      if I.Is16Bit(inst.reg2) {
        cpu.AddMCycles(1);
        mem.Write16(cpu.memDest, cpu.fetchedData);
      } else {
        mem.Write(cpu.memDest, LowByte(cpu.fetchedData));
      }
      cpu.AddMCycles(1);
      return;
    }
    if inst.mode == I.HlSpr {
      var rv := Fetch.ReadReg(cpu.regs.State(), inst.reg2);
      var fd := cpu.fetchedData;
      cpu.regs.SetFlags(false, false, rv % 0x10 + fd % 0x10 >= 0x10, rv % 0x100 + fd % 0x100 >= 0x100);
      Fetch.WriteRegister(cpu, inst.reg1, AddWord(Fetch.ReadReg(cpu.regs.State(), inst.reg2), SignExtend(LowByte(fd))));
      return;
    }
    Fetch.WriteRegister(cpu, inst.reg1, cpu.fetchedData);
  }

  method ProcLdh(cpu: Cpu, mem: Memory, inst: I.Instruction)
    requires mem.Valid()
    modifies cpu, cpu.regs, mem
    ensures mem.Valid() && MachineOf(cpu, mem) == LdhNext(old(MachineOf(cpu, mem)), inst)
  {
    if inst.reg1 == I.A {
      cpu.regs.a := mem.Read(Fetch.OrHighPage(cpu.fetchedData));
    } else {
      mem.Write(cpu.memDest, cpu.regs.a);
    }
    cpu.AddMCycles(1);
  }

  /** The common part of `proc_inc` and `proc_dec`: the write, and `val` for the flags. */
  method StepRegister(cpu: Cpu, mem: Memory, inst: I.Instruction, delta: int) returns (val: Word)
    requires mem.Valid()
    modifies cpu, cpu.regs, mem
    ensures mem.Valid() && (MachineOf(cpu, mem), val) == StepNext(old(MachineOf(cpu, mem)), inst, delta)
  {
    val := AddWord(Fetch.ReadReg(cpu.regs.State(), inst.reg1), delta);
    if I.Is16Bit(inst.reg1) {
      cpu.AddMCycles(1);
    }
    if inst.reg1 == I.Hl && inst.mode == I.MemoryRegisterOnly {
      var b := AddByte(mem.Read(cpu.regs.HL()), delta);
      mem.Write(cpu.regs.HL(), b);
      val := b;
    } else {
      Fetch.WriteRegister(cpu, inst.reg1, val);
      val := Fetch.ReadReg(cpu.regs.State(), inst.reg1);
    }
  }

  method ProcInc(cpu: Cpu, mem: Memory, inst: I.Instruction)
    requires mem.Valid()
    modifies cpu, cpu.regs, mem
    ensures mem.Valid() && MachineOf(cpu, mem) == IncNext(old(MachineOf(cpu, mem)), inst)
  {
    var val := StepRegister(cpu, mem, inst, 1);
    if IncKeepsFlags(cpu.curOpcode) {
      return;
    }
    cpu.regs.SetFlagZ(val % 0x100 == 0);
    cpu.regs.SetFlagN(false);
    cpu.regs.SetFlagH(val % 0x10 == 0);
  }

  method ProcDec(cpu: Cpu, mem: Memory, inst: I.Instruction)
    requires mem.Valid()
    modifies cpu, cpu.regs, mem
    ensures mem.Valid() && MachineOf(cpu, mem) == DecNext(old(MachineOf(cpu, mem)), inst)
  {
    var val := StepRegister(cpu, mem, inst, -1);
    if DecKeepsFlags(cpu.curOpcode) {
      return;
    }
    cpu.regs.SetFlagZ(val % 0x100 == 0);
    cpu.regs.SetFlagN(true);
    cpu.regs.SetFlagH(val % 0x10 == 0xF);
  }

  method ProcAdd(cpu: Cpu, mem: Memory, inst: I.Instruction)
    modifies cpu, cpu.regs
    ensures MachineOf(cpu, mem) == AddNext(old(MachineOf(cpu, mem)), inst)
  {
    var r := AddOp(inst.reg1, Fetch.ReadReg(cpu.regs.State(), inst.reg1), cpu.fetchedData, cpu.regs.FlagZ());
    if I.Is16Bit(inst.reg1) {
      cpu.AddMCycles(1);
    }
    Fetch.WriteRegister(cpu, inst.reg1, r.value);
    cpu.regs.SetFlags(r.flags.z, false, r.flags.h, r.flags.c);
  }

  /** A byte result and its flags written to A and F. */
  method WriteA(cpu: Cpu, mem: Memory, r: AluOut)
    requires r.value < 0x100
    modifies cpu.regs
    ensures MachineOf(cpu, mem) == ToA(old(MachineOf(cpu, mem)), r)
  {
    cpu.regs.a := r.value;
    cpu.regs.SetFlags(r.flags.z, r.flags.n, r.flags.h, r.flags.c);
  }

  method ProcAdc(cpu: Cpu, mem: Memory)
    modifies cpu.regs
    ensures MachineOf(cpu, mem) == AdcNext(old(MachineOf(cpu, mem)))
  {
    WriteA(cpu, mem, Adc(cpu.regs.a, cpu.fetchedData, cpu.regs.FlagC()));
  }

  method ProcSub(cpu: Cpu, mem: Memory, inst: I.Instruction)
    modifies cpu.regs
    ensures MachineOf(cpu, mem) == SubNext(old(MachineOf(cpu, mem)), inst)
  {
    var r := Sub(Fetch.ReadReg(cpu.regs.State(), inst.reg1), cpu.fetchedData);
    Fetch.WriteRegister(cpu, inst.reg1, r.value);
    cpu.regs.SetFlags(r.flags.z, true, r.flags.h, r.flags.c);
  }

  method ProcSbc(cpu: Cpu, mem: Memory, inst: I.Instruction)
    modifies cpu.regs
    ensures MachineOf(cpu, mem) == SbcNext(old(MachineOf(cpu, mem)), inst)
  {
    var r := Sbc(Fetch.ReadReg(cpu.regs.State(), inst.reg1), cpu.fetchedData, cpu.regs.FlagC());
    Fetch.WriteRegister(cpu, inst.reg1, r.value);
    cpu.regs.SetFlags(r.flags.z, true, r.flags.h, r.flags.c);
  }

  method ProcAnd(cpu: Cpu, mem: Memory)
    modifies cpu.regs
    ensures MachineOf(cpu, mem) == AndNext(old(MachineOf(cpu, mem)))
  {
    WriteA(cpu, mem, AndOp(cpu.regs.a, cpu.fetchedData));
  }

  method ProcXor(cpu: Cpu, mem: Memory)
    modifies cpu.regs
    ensures MachineOf(cpu, mem) == XorNext(old(MachineOf(cpu, mem)))
  {
    WriteA(cpu, mem, XorOp(cpu.regs.a, cpu.fetchedData));
  }

  method ProcOr(cpu: Cpu, mem: Memory)
    modifies cpu.regs
    ensures MachineOf(cpu, mem) == OrNext(old(MachineOf(cpu, mem)))
  {
    WriteA(cpu, mem, OrOp(cpu.regs.a, cpu.fetchedData));
  }

  method ProcCp(cpu: Cpu, mem: Memory)
    modifies cpu.regs
    ensures MachineOf(cpu, mem) == CpNext(old(MachineOf(cpu, mem)))
  {
    var f := CpFlags(cpu.regs.a, cpu.fetchedData);
    cpu.regs.SetFlags(f.z, true, f.h, f.c);
  }

  method ProcJr(cpu: Cpu, mem: Memory, inst: I.Instruction)
    modifies cpu, cpu.regs
    ensures MachineOf(cpu, mem) == JrNext(old(MachineOf(cpu, mem)), inst)
  {
    JumpToIf(cpu, mem, AddWord(cpu.regs.pc, SignExtend(LowByte(cpu.fetchedData))), inst.cond);
  }

  method ProcJp(cpu: Cpu, mem: Memory, inst: I.Instruction)
    modifies cpu, cpu.regs
    ensures MachineOf(cpu, mem) == JpNext(old(MachineOf(cpu, mem)), inst)
  {
    JumpToIf(cpu, mem, cpu.fetchedData, inst.cond);
  }

  method ProcCall(cpu: Cpu, mem: Memory, inst: I.Instruction)
    requires mem.Valid()
    modifies cpu, cpu.regs, mem
    ensures mem.Valid() && MachineOf(cpu, mem) == CallNext(old(MachineOf(cpu, mem)), inst)
  {
    if Condition(cpu.regs.State(), inst.cond) {
      cpu.AddMCycles(2);
      StackPush16(cpu, mem, cpu.regs.pc);
      cpu.regs.pc := cpu.fetchedData;
      cpu.AddMCycles(1);
    }
  }

  method ProcRet(cpu: Cpu, mem: Memory, inst: I.Instruction)
    requires mem.Valid()
    modifies cpu, cpu.regs
    ensures MachineOf(cpu, mem) == RetNext(old(MachineOf(cpu, mem)), inst)
  {
    if inst.cond != I.Always {
      cpu.AddMCycles(1);
    }
    if Condition(cpu.regs.State(), inst.cond) {
      var pc := StackPop16(cpu, mem);
      cpu.regs.pc := pc;
      cpu.AddMCycles(3);
    }
  }

  method ProcReti(cpu: Cpu, mem: Memory)
    requires mem.Valid()
    modifies cpu, cpu.regs
    ensures MachineOf(cpu, mem) == RetiNext(old(MachineOf(cpu, mem)))
  {
    cpu.ime := true;
    var pc := StackPop16(cpu, mem);
    cpu.regs.pc := pc;
    cpu.AddMCycles(3);
  }

  method ProcRst(cpu: Cpu, mem: Memory, inst: I.Instruction)
    requires mem.Valid()
    modifies cpu, cpu.regs, mem
    ensures mem.Valid() && MachineOf(cpu, mem) == RstNext(old(MachineOf(cpu, mem)), inst)
  {
    cpu.AddMCycles(2);
    StackPush16(cpu, mem, cpu.regs.pc);
    cpu.regs.pc := inst.param;
    cpu.AddMCycles(1);
  }

  method ProcPop(cpu: Cpu, mem: Memory, inst: I.Instruction)
    requires mem.Valid()
    modifies cpu, cpu.regs
    ensures MachineOf(cpu, mem) == PopNext(old(MachineOf(cpu, mem)), inst)
  {
    var v := StackPop16(cpu, mem);
    cpu.AddMCycles(2);
    Fetch.WriteRegister(cpu, inst.reg1, v);
    if inst.reg1 == I.Af {
      cpu.regs.f := FlagNibble(cpu.regs.f);
    }
  }

  method ProcPush(cpu: Cpu, mem: Memory, inst: I.Instruction)
    requires mem.Valid()
    modifies cpu, cpu.regs, mem
    ensures mem.Valid() && MachineOf(cpu, mem) == PushNext(old(MachineOf(cpu, mem)), inst)
  {
    StackPush16(cpu, mem, Fetch.ReadReg(cpu.regs.State(), inst.reg1));
    cpu.AddMCycles(3);
  }

  /** `proc_rlca`, `proc_rrca`, `proc_rla`, `proc_rra`: A takes the rotated value. */
  method RotateA(cpu: Cpu, mem: Memory, r: Shifted)
    modifies cpu.regs
    ensures MachineOf(cpu, mem) == RotateANext(old(MachineOf(cpu, mem)), r)
  {
    cpu.regs.a := r.value;
    cpu.regs.SetFlags(false, false, false, r.carry);
  }

  method ProcDaa(cpu: Cpu, mem: Memory)
    modifies cpu.regs
    ensures MachineOf(cpu, mem) == DaaNext(old(MachineOf(cpu, mem)))
  {
    var r := Daa(cpu.regs.a, cpu.regs.FlagN(), cpu.regs.FlagH(), cpu.regs.FlagC());
    cpu.regs.a := r.value;
    cpu.regs.SetFlagZ(r.value == 0);
    cpu.regs.SetFlagH(false);
    cpu.regs.SetFlagC(r.carry);
  }

  method ProcCpl(cpu: Cpu, mem: Memory)
    modifies cpu.regs
    ensures MachineOf(cpu, mem) == CplNext(old(MachineOf(cpu, mem)))
  {
    cpu.regs.a := Cpl(cpu.regs.a);
    cpu.regs.SetFlagN(true);
    cpu.regs.SetFlagH(true);
  }

  method ProcScf(cpu: Cpu, mem: Memory)
    modifies cpu.regs
    ensures MachineOf(cpu, mem) == ScfNext(old(MachineOf(cpu, mem)))
  {
    cpu.regs.SetFlagN(false);
    cpu.regs.SetFlagH(false);
    cpu.regs.SetFlagC(true);
  }

  method ProcCcf(cpu: Cpu, mem: Memory)
    modifies cpu.regs
    ensures MachineOf(cpu, mem) == CcfNext(old(MachineOf(cpu, mem)))
  {
    cpu.regs.SetFlagN(false);
    cpu.regs.SetFlagH(false);
    cpu.regs.SetFlagC(!cpu.regs.FlagC());
  }

  /** `write_cb_result`. */
  method WriteCbResult(cpu: Cpu, mem: Memory, reg: I.RegisterType, v: Byte)
    requires mem.Valid()
    modifies cpu.regs, mem
    ensures mem.Valid() && MachineOf(cpu, mem) == WriteCbNext(old(MachineOf(cpu, mem)), reg, v)
  {
    if reg == I.Hl {
      mem.Write(cpu.regs.HL(), v);
    } else {
      var regs := cpu.regs;
      match reg
      case A => regs.a := v;
      case F => regs.f := FlagNibble(v);
      case B => regs.b := v;
      case C => regs.c := v;
      case D => regs.d := v;
      case E => regs.e := v;
      case H => regs.h := v;
      case L => regs.l := v;
      case _ =>
    }
  }

  method ProcCb(cpu: Cpu, mem: Memory)
    requires mem.Valid()
    modifies cpu, cpu.regs, mem
    ensures mem.Valid() && MachineOf(cpu, mem) == CbNext(old(MachineOf(cpu, mem)))
  {
    var op := LowByte(cpu.fetchedData);
    var ci := I.CbInstructionByOpcode(op);
    CbParamBelow8(op);
    CbOnOperand(cpu, mem, op, ci.reg1, ci.param);
  }

  /** The body of `proc_cb` after the table lookup. */
  method CbOnOperand(cpu: Cpu, mem: Memory, op: Byte, reg: I.RegisterType, b: nat)
    requires mem.Valid() && b < 8
    modifies cpu, cpu.regs, mem
    ensures mem.Valid() && MachineOf(cpu, mem) == CbApply(old(MachineOf(cpu, mem)), op, reg, b)
  {
    var regVal := if reg == I.Hl then mem.Read(cpu.regs.HL()) else ReadReg8(cpu.regs.State(), reg);
    var bitOp := op / 64;
    if reg == I.Hl {
      if bitOp == 1 {
        cpu.AddMCycles(1);
      } else {
        cpu.AddMCycles(2);
      }
    }
    if bitOp == 1 {
      CbTestBit(cpu, mem, regVal, b);
      return;
    } else if bitOp == 2 {
      WriteCbResult(cpu, mem, reg, BitSet(regVal, b, false));
      return;
    } else if bitOp == 3 {
      WriteCbResult(cpu, mem, reg, BitSet(regVal, b, true));
      return;
    }
    CbShift(cpu, mem, op, reg, regVal);
  }

  /** The BIT part of `proc_cb`. */
  method CbTestBit(cpu: Cpu, mem: Memory, v: Byte, b: nat)
    requires b < 8
    modifies cpu.regs
    ensures MachineOf(cpu, mem) == CbBitNext(old(MachineOf(cpu, mem)), v, b)
  {
    cpu.regs.SetFlagZ(!Bit(v, b));
    cpu.regs.SetFlagN(false);
    cpu.regs.SetFlagH(true);
  }

  /** The rotate and shift part of `proc_cb`. */
  method CbShift(cpu: Cpu, mem: Memory, op: Byte, reg: I.RegisterType, v: Byte)
    requires mem.Valid()
    modifies cpu.regs, mem
    ensures mem.Valid() && MachineOf(cpu, mem) == CbShiftNext(old(MachineOf(cpu, mem)), op, reg, v)
  {
    var r := CbRotate(op / 8 % 8, v, cpu.regs.FlagC());
    WriteCbResult(cpu, mem, reg, r.value);
    cpu.regs.SetFlags(r.value == 0, false, false, r.carry);
  }

  /**
   * `execute`: runs the handler of the current instruction. Returns true,
   * with nothing changed, for an undefined opcode, where the source panics.
   */
  method ExecuteInstruction(cpu: Cpu, mem: Memory) returns (invalid: bool)
    requires mem.Valid()
    modifies cpu, cpu.regs, mem
    ensures mem.Valid()
    ensures invalid <==> ExecuteNext(old(MachineOf(cpu, mem))).InvalidInstruction?
    ensures invalid ==> MachineOf(cpu, mem) == old(MachineOf(cpu, mem))
    ensures !invalid ==> MachineOf(cpu, mem) == ExecuteNext(old(MachineOf(cpu, mem))).m
  {
    invalid := false;
    if cpu.curInst.None? {
      return;
    }
    var inst := cpu.curInst.value;
    if inst.instType == I.InvalidOp {
      invalid := true;
    } else if LoadGroup(inst.instType) {
      ExecuteLoad(cpu, mem, inst);
    } else if ArithmeticGroup(inst.instType) {
      ExecuteArithmetic(cpu, mem, inst);
    } else if ControlGroup(inst.instType) {
      ExecuteControl(cpu, mem, inst);
    } else if AccumulatorGroup(inst.instType) {
      ExecuteAccumulator(cpu, mem, inst);
    } else if inst.instType == I.Cb {
      ProcCb(cpu, mem);
    } else {
      ExecuteOther(cpu, mem, inst);
    }
  }

  method ExecuteLoad(cpu: Cpu, mem: Memory, inst: I.Instruction)
    requires mem.Valid() && LoadGroup(inst.instType)
    modifies cpu, cpu.regs, mem
    ensures mem.Valid() && MachineOf(cpu, mem) == LoadNext(old(MachineOf(cpu, mem)), inst)
  {
    match inst.instType
    case Ld => ProcLd(cpu, mem, inst);
    case Ldh => ProcLdh(cpu, mem, inst);
    case Inc => ProcInc(cpu, mem, inst);
    case Dec => ProcDec(cpu, mem, inst);
  }

  method ExecuteArithmetic(cpu: Cpu, mem: Memory, inst: I.Instruction)
    requires ArithmeticGroup(inst.instType)
    modifies cpu, cpu.regs
    ensures MachineOf(cpu, mem) == ArithmeticNext(old(MachineOf(cpu, mem)), inst)
  {
    match inst.instType
    case Add => ProcAdd(cpu, mem, inst);
    case Adc => ProcAdc(cpu, mem);
    case Sub => ProcSub(cpu, mem, inst);
    case Sbc => ProcSbc(cpu, mem, inst);
    case And => ProcAnd(cpu, mem);
    case Xor => ProcXor(cpu, mem);
    case Or => ProcOr(cpu, mem);
    case Cp => ProcCp(cpu, mem);
  }

  method ExecuteControl(cpu: Cpu, mem: Memory, inst: I.Instruction)
    requires mem.Valid() && ControlGroup(inst.instType)
    modifies cpu, cpu.regs, mem
    ensures mem.Valid() && MachineOf(cpu, mem) == ControlNext(old(MachineOf(cpu, mem)), inst)
  {
    match inst.instType
    case Jr => ProcJr(cpu, mem, inst);
    case Jp => ProcJp(cpu, mem, inst);
    case Call => ProcCall(cpu, mem, inst);
    case Ret => ProcRet(cpu, mem, inst);
    case Reti => ProcReti(cpu, mem);
    case Rst => ProcRst(cpu, mem, inst);
    case Pop => ProcPop(cpu, mem, inst);
    case Push => ProcPush(cpu, mem, inst);
  }

  method ExecuteAccumulator(cpu: Cpu, mem: Memory, inst: I.Instruction)
    requires AccumulatorGroup(inst.instType)
    modifies cpu.regs
    ensures MachineOf(cpu, mem) == AccumulatorNext(old(MachineOf(cpu, mem)), inst)
  {
    match inst.instType
    case Rlca => RotateA(cpu, mem, Rlc(cpu.regs.a));
    case Rrca => RotateA(cpu, mem, Rrc(cpu.regs.a));
    case Rla => RotateA(cpu, mem, Rl(cpu.regs.a, cpu.regs.FlagC()));
    case Rra => RotateA(cpu, mem, Rr(cpu.regs.a, cpu.regs.FlagC()));
    case Daa => ProcDaa(cpu, mem);
    case Cpl => ProcCpl(cpu, mem);
    case Scf => ProcScf(cpu, mem);
    case Ccf => ProcCcf(cpu, mem);
  }

  method ExecuteOther(cpu: Cpu, mem: Memory, inst: I.Instruction)
    modifies cpu
    ensures MachineOf(cpu, mem) == OtherNext(old(MachineOf(cpu, mem)), inst)
  {
    if inst.instType == I.Halt {
      cpu.halted := true;
    } else if inst.instType == I.Di {
      cpu.ime := false;
    } else if inst.instType == I.Ei {
      cpu.enablingIme := true;
    }
  }

  /** `handle_interrupts` on the CPU and the bus. */
  method HandleInterrupts(cpu: Cpu, mem: Memory) returns (handled: bool)
    requires mem.Valid()
    modifies cpu, cpu.regs, mem
    ensures mem.Valid() && (handled, MachineOf(cpu, mem)) == InterruptNext(old(MachineOf(cpu, mem)))
  {
    if !cpu.ime || !cpu.InterruptsPending() {
      return false;
    }
    var pending := cpu.GetPendingInterrupt();
    match pending
    case None =>
      assert false;
      return false;
    case Some(t) =>
      cpu.ime := false;
      cpu.ClearInterrupt(t);
      StackPush16(cpu, mem, cpu.regs.pc);
      cpu.regs.pc := Vector(t);
      cpu.halted := false;
      return true;
  }
}
