/**
 * What the instruction handlers do, stated on the machine state: the
 * arithmetic each performs and the flags it leaves, the round trips of the
 * stack instructions, the CB operations on their operand, and what interrupt
 * dispatch changes.
 */
module ExecuteLemmas {
  import opened Common
  import opened Registers
  import I = Instructions
  import opened Alu
  import opened Cpu
  import Fetch
  import opened Execute

  // ---------------------------------------------------------------------
  // Interrupt dispatch
  // ---------------------------------------------------------------------

  /** The word a 16-bit push leaves at the new SP is the value pushed. */
  lemma PushedWord(m: Machine, v: Word)
    requires IsImage(m.mem)
    ensures LoadWord(Push16(m, v).mem, Push16(m, v).regs.sp) == v
  {
    Push16Layout(m, v);
    JoinSplit(v);
  }

  /**
   * `handle_interrupts` serves an interrupt exactly when IME is set and some
   * interrupt is both requested and enabled; otherwise nothing changes.
   */
  lemma InterruptServedIff(m: Machine)
    requires IsImage(m.mem)
    ensures InterruptNext(m).0 <==> m.core.ime && PendingMask(m.core.intFlags, m.core.ieRegister) != 0
    ensures !InterruptNext(m).0 ==> InterruptNext(m).1 == m
  {
    if m.core.ime && PendingMask(m.core.intFlags, m.core.ieRegister) != 0 {
      PendingHasSource(m.core.intFlags, m.core.ieRegister);
    }
  }

  /**
   * Serving interrupt t: t is requested and enabled and no requested and
   * enabled interrupt has a higher priority; IME is cleared, only t's IF bit
   * is cleared, the old PC is the word on the stack two bytes below the old
   * SP, PC is t's vector and HALT ends. No other register changes.
   */
  lemma InterruptDispatch(m: Machine, t: InterruptType)
    requires IsImage(m.mem) && m.core.ime
    requires HighestPending(PendingMask(m.core.intFlags, m.core.ieRegister)) == Some(t)
    ensures Requested(m.core.intFlags, t) && Requested(m.core.ieRegister, t)
    ensures forall u :: Priority(u) < Priority(t) ==> !(Requested(m.core.intFlags, u) && Requested(m.core.ieRegister, u))
    ensures var (served, r) := InterruptNext(m);
      served && r.regs == m.regs.(sp := AddWord(m.regs.sp, -2), pc := Vector(t)) &&
      LoadWord(r.mem, r.regs.sp) == m.regs.pc &&
      r.core == m.core.(ime := false, halted := false, intFlags := r.core.intFlags)
    ensures forall k :: 0 <= k < 8 ==>
      Bit(InterruptNext(m).1.core.intFlags, k) == (k != Priority(t) && Bit(m.core.intFlags, k))
  {
    var ifl, ie := m.core.intFlags, m.core.ieRegister;
    NothingRequestedInZero();
    PendingSource(ifl, ie, t);
    forall u | Priority(u) < Priority(t)
      ensures !(Requested(ifl, u) && Requested(ie, u))
    {
      PendingSource(ifl, ie, u);
    }
    forall k | 0 <= k < 8
      ensures Bit(And(ifl, Not(InterruptBit(t))), k) == (k != Priority(t) && Bit(ifl, k))
    {
      ClearResetsOnlyItsBit(ifl, t, k);
    }
    var m1 := m.(core := m.core.(ime := false, intFlags := And(ifl, Not(InterruptBit(t)))));
    Push16Layout(m1, m1.regs.pc);
    PushedWord(m1, m1.regs.pc);
  }

  // ---------------------------------------------------------------------
  // Calls, returns, restarts, jumps and the stack
  // ---------------------------------------------------------------------

  /**
   * CALL: when the condition holds PC takes the operand and the return
   * address (the PC after the operand) is the word at the new SP, two bytes
   * down; otherwise nothing changes.
   */
  lemma CallEffect(m: Machine, call: I.Instruction)
    requires IsImage(m.mem)
    ensures var r := CallNext(m, call);
      if Condition(m.regs, call.cond) then
        r.regs == m.regs.(sp := AddWord(m.regs.sp, -2), pc := m.core.fetchedData) &&
        LoadWord(r.mem, r.regs.sp) == m.regs.pc
      else r == m
  {
    if Condition(m.regs, call.cond) {
      Push16Layout(Tick(m, 2), m.regs.pc);
      PushedWord(Tick(m, 2), m.regs.pc);
    }
  }

  /**
   * A taken CALL followed by an unconditional RET returns to the address
   * after the CALL with SP restored: all registers, and all CPU fields but
   * the cycle count, are as before.
   */
  lemma CallThenRet(m: Machine, call: I.Instruction, ret: I.Instruction)
    requires IsImage(m.mem) && Condition(m.regs, call.cond) && ret.cond == I.Always
    ensures var r := RetNext(CallNext(m, call), ret);
      r.regs == m.regs && r.core.(pendingMCycles := m.core.pendingMCycles) == m.core
  {
    var m0 := Tick(m, 2);
    var m1 := Push16(m0, m.regs.pc);
    PushPopRoundTrip(m0, m.regs.pc);
    var (w, m3) := Pop16(m1);
    var m2 := CallNext(m, call);
    assert m2 == Tick(m1.(regs := m1.regs.(pc := m.core.fetchedData)), 1);
    assert Pop16(m2).0 == w;
    assert Pop16(m2).1.regs == m3.regs.(pc := m.core.fetchedData);
  }

  /** Popping ignores the cycle count: a pop after a tick is the pop with the tick after it. */
  lemma PopAfterTick(m: Machine, n: U32)
    requires IsImage(m.mem)
    ensures Pop16(Tick(m, n)) == (Pop16(m).0, Tick(Pop16(m).1, n))
  {
  }

  /** Writing a register pair with the value it holds changes nothing, except that AF loses F's low nibble. */
  lemma WriteBackPair(rf: RegFile, r: I.RegisterType)
    requires r in {I.Af, I.Bc, I.De, I.Hl, I.Sp}
    ensures Fetch.WriteReg(rf, r, Fetch.ReadReg(rf, r)) == if r == I.Af then rf.(f := FlagNibble(rf.f)) else rf
  {
    match r
    case Af => SplitJoin(rf.a, rf.f);
    case Bc => SplitJoin(rf.b, rf.c);
    case De => SplitJoin(rf.d, rf.e);
    case Hl => SplitJoin(rf.h, rf.l);
    case Sp =>
  }

  /**
   * PUSH rr followed by POP rr gives BC, DE and HL back with SP restored; for
   * AF the low nibble of F comes back cleared.
   */
  lemma PushThenPop(m: Machine, push: I.Instruction, pop: I.Instruction)
    requires IsImage(m.mem) && push.reg1 == pop.reg1 && push.reg1 in {I.Af, I.Bc, I.De, I.Hl}
    ensures PopNext(PushNext(m, push), pop).regs ==
      if push.reg1 == I.Af then m.regs.(f := FlagNibble(m.regs.f)) else m.regs
  {
    var rf := m.regs;
    var v := Fetch.ReadReg(rf, push.reg1);
    PushPopRoundTrip(m, v);
    PopAfterTick(Push16(m, v), 3);
    var (w, m2) := Pop16(PushNext(m, push));
    assert w == v && m2.regs == rf;
    WriteBackPair(rf, push.reg1);
    FlagNibbleIdempotent(rf.f);
  }

  /**
   * RST: the opcode 0xC7 + 8k jumps to 8k, the vector its bits 3-5 name,
   * with the return address as the word at the new SP, two bytes down.
   */
  lemma RstEffect(m: Machine, op: Byte)
    requires IsImage(m.mem) && I.InstructionByOpcode(op).instType == I.Rst
    ensures var r := RstNext(m, I.InstructionByOpcode(op));
      r.regs == m.regs.(sp := AddWord(m.regs.sp, -2), pc := 8 * (op / 8 % 8)) &&
      LoadWord(r.mem, r.regs.sp) == m.regs.pc
  {
    var inst := I.InstructionByOpcode(op);
    I.RestartVectors(op);
    assert inst.param == 8 * (op / 8 % 8);
    RstPushes(m, inst);
  }

  /** RST on the machine: PC takes the entry's vector and the return address is the word at the new SP. */
  lemma RstPushes(m: Machine, inst: I.Instruction)
    requires IsImage(m.mem)
    ensures var r := RstNext(m, inst);
      r.regs == m.regs.(sp := AddWord(m.regs.sp, -2), pc := inst.param) && LoadWord(r.mem, r.regs.sp) == m.regs.pc
  {
    Push16Layout(Tick(m, 2), m.regs.pc);
    PushedWord(Tick(m, 2), m.regs.pc);
  }

  /** JR: when the condition holds PC moves by the signed offset, wrapping; otherwise nothing changes. */
  lemma JrTarget(m: Machine, inst: I.Instruction)
    ensures var r := JrNext(m, inst);
      if Condition(m.regs, inst.cond) then
        r.regs == m.regs.(pc := (m.regs.pc + Signed(LowByte(m.core.fetchedData))) % 0x1_0000)
      else r == m
  {
    SignExtendAdds(m.regs.pc, LowByte(m.core.fetchedData));
  }

  // ---------------------------------------------------------------------
  // 8-bit arithmetic and logic
  // ---------------------------------------------------------------------

  /**
   * ADC A, n on a byte operand: A and the new C are the 9-bit sum A + n + C,
   * H is the carry out of the low nibbles, Z is set iff the new A is 0, N is
   * cleared, and nothing but A and F changes.
   */
  lemma AdcEffect(m: Machine)
    requires m.core.fetchedData < 0x100
    ensures var r := AdcNext(m); var u := m.core.fetchedData;
      r.regs.a + 0x100 * Carry(COf(r.regs)) == m.regs.a + u + Carry(COf(m.regs)) &&
      r.regs.a % 0x10 + 0x10 * Carry(HOf(r.regs)) == m.regs.a % 0x10 + u % 0x10 + Carry(COf(m.regs)) &&
      (ZOf(r.regs) <==> r.regs.a == 0) && !NOf(r.regs) &&
      r.regs.(a := m.regs.a, f := m.regs.f) == m.regs && r.core == m.core && r.mem == m.mem
  {
    var x := Adc(m.regs.a, m.core.fetchedData, COf(m.regs));
    AdcSum(m.regs.a, m.core.fetchedData, COf(m.regs));
    FlagsReadBack(m.(regs := m.regs.(a := x.value)), x.flags.z, x.flags.n, x.flags.h, x.flags.c);
  }

  /**
   * SUB A, n on a byte operand: the new A less 0x100 times the new C is
   * A - n, H is the borrow out of the low nibble, Z is set iff the new A is
   * 0, N is set, and nothing but A and F changes.
   */
  lemma SubEffect(m: Machine, inst: I.Instruction)
    requires inst.reg1 == I.A && m.core.fetchedData < 0x100
    ensures var r := SubNext(m, inst); var d := m.core.fetchedData;
      r.regs.a - 0x100 * Carry(COf(r.regs)) == m.regs.a - d &&
      r.regs.a % 0x10 - 0x10 * Carry(HOf(r.regs)) == m.regs.a % 0x10 - d % 0x10 &&
      (ZOf(r.regs) <==> r.regs.a == 0) && NOf(r.regs) &&
      r.regs.(a := m.regs.a, f := m.regs.f) == m.regs && r.core == m.core && r.mem == m.mem
  {
    var x := Sub(m.regs.a, m.core.fetchedData);
    SubDifference(m.regs.a, m.core.fetchedData);
    FlagsReadBack(m.(regs := m.regs.(a := LowByte(x.value))), x.flags.z, true, x.flags.h, x.flags.c);
  }

  /**
   * SBC A, n on a byte operand: as SUB with the old carry subtracted as
   * well; Z is set iff the byte written to A is 0.
   */
  lemma SbcEffect(m: Machine, inst: I.Instruction)
    requires inst.reg1 == I.A && m.core.fetchedData < 0x100
    ensures var r := SbcNext(m, inst); var d := m.core.fetchedData;
      r.regs.a - 0x100 * Carry(COf(r.regs)) == m.regs.a - d - Carry(COf(m.regs)) &&
      r.regs.a % 0x10 - 0x10 * Carry(HOf(r.regs)) == m.regs.a % 0x10 - d % 0x10 - Carry(COf(m.regs)) &&
      (ZOf(r.regs) <==> r.regs.a == 0) && NOf(r.regs) &&
      r.regs.(a := m.regs.a, f := m.regs.f) == m.regs && r.core == m.core && r.mem == m.mem
  {
    var x := Sbc(m.regs.a, m.core.fetchedData, COf(m.regs));
    SbcDifference(m.regs.a, m.core.fetchedData, COf(m.regs));
    FlagsReadBack(m.(regs := m.regs.(a := LowByte(x.value))), x.flags.z, true, x.flags.h, x.flags.c);
  }

  /**
   * CP n compares without writing: Z iff A == n, C iff A < n, N set, and
   * only F changes; for a byte operand F is exactly what SUB A, n leaves.
   */
  lemma CpEffect(m: Machine, sub: I.Instruction)
    requires sub.reg1 == I.A
    ensures var r := CpNext(m);
      (ZOf(r.regs) <==> m.regs.a == m.core.fetchedData) && NOf(r.regs) &&
      (COf(r.regs) <==> m.regs.a < m.core.fetchedData) &&
      r.regs.(f := m.regs.f) == m.regs && r.core == m.core && r.mem == m.mem
    ensures m.core.fetchedData < 0x100 ==> CpNext(m).regs.f == SubNext(m, sub).regs.f
  {
    var f := CpFlags(m.regs.a, m.core.fetchedData);
    CpCompares(m.regs.a, m.core.fetchedData);
    FlagsReadBack(m, f.z, true, f.h, f.c);
    if m.core.fetchedData < 0x100 {
      CpIsSubFlags(m.regs.a, m.core.fetchedData);
    }
  }

  /** AND, OR and XOR work bit by bit on A and the low byte of the operand. */
  lemma LogicBits(m: Machine, k: nat)
    requires k < 8
    ensures var d := LowByte(m.core.fetchedData);
      Bit(AndNext(m).regs.a, k) == (Bit(m.regs.a, k) && Bit(d, k)) &&
      Bit(OrNext(m).regs.a, k) == (Bit(m.regs.a, k) || Bit(d, k)) &&
      Bit(XorNext(m).regs.a, k) == (Bit(m.regs.a, k) != Bit(d, k))
  {
    var d := LowByte(m.core.fetchedData);
    assert LowByte(d) == d;
    assert AndOp(m.regs.a, d) == AndOp(m.regs.a, m.core.fetchedData);
    assert OrOp(m.regs.a, d) == OrOp(m.regs.a, m.core.fetchedData);
    assert XorOp(m.regs.a, d) == XorOp(m.regs.a, m.core.fetchedData);
    AndOpBits(m.regs.a, d, k);
    OrOpBits(m.regs.a, d, k);
    XorOpBits(m.regs.a, d, k);
  }

  /**
   * The flags of AND, OR and XOR: Z iff the new A is 0, N and C cleared, H
   * set by AND only; only A and F change. XOR A clears A and sets Z.
   */
  lemma LogicFlags(m: Machine)
    ensures var r := AndNext(m).regs;
      (ZOf(r) <==> r.a == 0) && !NOf(r) && HOf(r) && !COf(r) && r.(a := m.regs.a, f := m.regs.f) == m.regs
    ensures var r := OrNext(m).regs;
      (ZOf(r) <==> r.a == 0) && !NOf(r) && !HOf(r) && !COf(r) && r.(a := m.regs.a, f := m.regs.f) == m.regs
    ensures var r := XorNext(m).regs;
      (ZOf(r) <==> r.a == 0) && !NOf(r) && !HOf(r) && !COf(r) && r.(a := m.regs.a, f := m.regs.f) == m.regs
    ensures m.core.fetchedData == m.regs.a ==> XorNext(m).regs.a == 0 && ZOf(XorNext(m).regs)
  {
    var a, d := m.regs.a, m.core.fetchedData;
    var x, y, z := AndOp(a, d), OrOp(a, d), XorOp(a, d);
    FlagsReadBack(m.(regs := m.regs.(a := x.value)), x.flags.z, x.flags.n, x.flags.h, x.flags.c);
    FlagsReadBack(m.(regs := m.regs.(a := y.value)), y.flags.z, y.flags.n, y.flags.h, y.flags.c);
    FlagsReadBack(m.(regs := m.regs.(a := z.value)), z.flags.z, z.flags.n, z.flags.h, z.flags.c);
    if d == a {
      XorSelf(a);
    }
  }

  /**
   * ADD A, n on a byte operand: the new A and C are the 9-bit sum, H the
   * carry out of the low nibbles, Z iff the new A is 0, N cleared; only A
   * and F change.
   */
  lemma AddEffect(m: Machine, add: I.Instruction)
    requires add.reg1 == I.A && m.core.fetchedData < 0x100
    ensures var r := AddNext(m, add); var d := m.core.fetchedData;
      r.regs.a + 0x100 * Carry(COf(r.regs)) == m.regs.a + d &&
      (HOf(r.regs) <==> m.regs.a % 0x10 + d % 0x10 > 0xF) &&
      (ZOf(r.regs) <==> r.regs.a == 0) && !NOf(r.regs) &&
      r.regs.(a := m.regs.a, f := m.regs.f) == m.regs && r.core == m.core && r.mem == m.mem
  {
    var sum := AddOp(I.A, m.regs.a, m.core.fetchedData, ZOf(m.regs));
    AddByteSum(m.regs.a, m.core.fetchedData);
    assert sum == AddOp(I.A, m.regs.a, m.core.fetchedData, false).(flags := sum.flags);
    FlagsReadBack(m.(regs := m.regs.(a := LowByte(sum.value))), sum.flags.z, false, sum.flags.h, sum.flags.c);
  }

  /** DAA on the machine: A takes the adjusted value, Z iff it is 0, H cleared, C the adjustment's carry, N kept. */
  lemma DaaEffect(m: Machine)
    ensures var d := Daa(m.regs.a, NOf(m.regs), HOf(m.regs), COf(m.regs)); var r := DaaNext(m).regs;
      r.a == d.value && (ZOf(r) <==> d.value == 0) && !HOf(r) && COf(r) == d.carry && NOf(r) == NOf(m.regs)
  {
    var d := Daa(m.regs.a, NOf(m.regs), HOf(m.regs), COf(m.regs));
    var m2 := m.(regs := m.regs.(a := d.value));
    var m3 := SetFlagOf(m2, ZeroBit, d.value == 0);
    var m4 := SetFlagOf(m3, HalfCarryBit, false);
    SetFlagReadBack(m2, ZeroBit, d.value == 0);
    SetFlagReadBack(m3, HalfCarryBit, false);
    SetFlagReadBack(m4, CarryBit, d.carry);
  }

  /**
   * ADD A, n on two decimal-digit bytes followed by DAA: A holds the decimal
   * digits of the sum modulo 100, C is set exactly when the sum reaches 100,
   * Z iff the new A is 0, N and H cleared.
   */
  lemma AddThenDaaDecimal(m: Machine, add: I.Instruction)
    requires add.reg1 == I.A && m.core.fetchedData < 0x100
    requires IsBcd(m.regs.a) && IsBcd(m.core.fetchedData)
    ensures var r := DaaNext(AddNext(m, add)).regs;
      var s := BcdValue(m.regs.a) + BcdValue(m.core.fetchedData);
      IsBcd(r.a) && BcdValue(r.a) == s % 100 && (COf(r) <==> s >= 100) &&
      (ZOf(r) <==> r.a == 0) && !NOf(r) && !HOf(r)
  {
    var x, y := m.regs.a, m.core.fetchedData;
    var m1 := AddNext(m, add);
    AddEffect(m, add);
    DivMod256(Carry(COf(m1.regs)), m1.regs.a);
    DaaOfSum(m1, x, y);
  }

  /** DAA on the flags an addition of two decimal-digit bytes x and y leaves. */
  lemma DaaOfSum(m: Machine, x: Byte, y: Byte)
    requires IsBcd(x) && IsBcd(y) && m.regs.a == (x + y) % 0x100 && !NOf(m.regs)
    requires (HOf(m.regs) <==> x % 0x10 + y % 0x10 > 0xF) && (COf(m.regs) <==> x + y > 0xFF)
    ensures var r := DaaNext(m).regs; var s := BcdValue(x) + BcdValue(y);
      IsBcd(r.a) && BcdValue(r.a) == s % 100 && (COf(r) <==> s >= 100) &&
      (ZOf(r) <==> r.a == 0) && !NOf(r) && !HOf(r)
  {
    DaaEffect(m);
    assert Daa(m.regs.a, NOf(m.regs), HOf(m.regs), COf(m.regs)) == AddThenDaa(x, y);
    DaaAfterAdd(x, y);
  }

  /** CPL: A becomes 0xFF - A, N and H are set, Z and C kept; CPL twice gives A back. */
  lemma CplEffect(m: Machine)
    ensures var r := CplNext(m).regs;
      r.a == 0xFF - m.regs.a && NOf(r) && HOf(r) && ZOf(r) == ZOf(m.regs) && COf(r) == COf(m.regs)
    ensures CplNext(CplNext(m)).regs.a == m.regs.a
  {
    CplComplements(m.regs.a);
    var m1 := m.(regs := m.regs.(a := Cpl(m.regs.a)));
    SetFlagReadBack(m1, SubtractBit, true);
    SetFlagReadBack(SetFlagOf(m1, SubtractBit, true), HalfCarryBit, true);
  }

  /**
   * SCF sets C and CCF inverts it, both clearing N and H and keeping Z; CCF
   * twice gives C back. Neither changes anything but F.
   */
  lemma CarryFlagEffect(m: Machine)
    ensures var r := ScfNext(m).regs;
      COf(r) && !NOf(r) && !HOf(r) && ZOf(r) == ZOf(m.regs) && r.(f := m.regs.f) == m.regs
    ensures var r := CcfNext(m).regs;
      COf(r) == !COf(m.regs) && !NOf(r) && !HOf(r) && ZOf(r) == ZOf(m.regs) && r.(f := m.regs.f) == m.regs
    ensures COf(CcfNext(CcfNext(m)).regs) == COf(m.regs)
  {
    CcfFlags(m);
    CcfFlags(CcfNext(m));
    var m1 := SetFlagOf(m, SubtractBit, false);
    var m2 := SetFlagOf(m1, HalfCarryBit, false);
    SetFlagReadBack(m, SubtractBit, false);
    SetFlagReadBack(m1, HalfCarryBit, false);
    SetFlagReadBack(m2, CarryBit, true);
  }

  /** The flags CCF leaves, one machine at a time. */
  lemma CcfFlags(m: Machine)
    ensures var r := CcfNext(m).regs;
      COf(r) == !COf(m.regs) && !NOf(r) && !HOf(r) && ZOf(r) == ZOf(m.regs) && r.(f := m.regs.f) == m.regs
  {
    var m1 := SetFlagOf(m, SubtractBit, false);
    var m2 := SetFlagOf(m1, HalfCarryBit, false);
    SetFlagReadBack(m, SubtractBit, false);
    SetFlagReadBack(m1, HalfCarryBit, false);
    SetFlagReadBack(m2, CarryBit, !COf(m2.regs));
  }

  // ---------------------------------------------------------------------
  // INC and DEC
  // ---------------------------------------------------------------------

  /**
   * The opcode tests with which `proc_inc` and `proc_dec` leave the flags
   * alone pick out exactly the 16-bit register forms among the INC and DEC
   * opcodes.
   */
  lemma IncDecFlagTests(op: Byte)
    ensures var i := I.InstructionByOpcode(op);
      i.instType == I.Inc ==> (IncKeepsFlags(op) <==> i.mode == I.Register && I.Is16Bit(i.reg1))
    ensures var i := I.InstructionByOpcode(op);
      i.instType == I.Dec ==> (DecKeepsFlags(op) <==> i.mode == I.Register && I.Is16Bit(i.reg1))
  {
    if op < 0x40 {
      I.IncDecOpcodes(op);
      FlagTestsByForm(op, I.InstructionByOpcode(op));
    } else {
      I.IncDecOnlyLow(op);
    }
  }

  /** The flag tests on an opcode below 0x40 whose entry has the INC / DEC layout of that block. */
  lemma FlagTestsByForm(op: Byte, i: I.Instruction)
    requires op < 0x40
    requires i.instType == I.Inc <==> op % 16 == 3 || op % 8 == 4
    requires i.instType == I.Dec <==> op % 16 == 0xB || op % 8 == 5
    requires op % 16 == 3 || op % 16 == 0xB ==> i.mode == I.Register && i.reg1 == I.PairOf(op / 16)
    requires op % 8 == 4 || op % 8 == 5 ==>
      i.reg1 == I.OperandOf(op / 8) && i.mode == (if op / 8 % 8 == 6 then I.MemoryRegisterOnly else I.Register)
    ensures i.instType == I.Inc ==> (IncKeepsFlags(op) <==> i.mode == I.Register && I.Is16Bit(i.reg1))
    ensures i.instType == I.Dec ==> (DecKeepsFlags(op) <==> i.mode == I.Register && I.Is16Bit(i.reg1))
  {
    var lo, hi := op % 16, op / 16;
    assert op == 16 * hi + lo;
    DivMod16(hi, lo);
  }

  /** The operand forms of the 8-bit INC and DEC: an 8-bit register, or the byte at HL. */
  predicate ByteForm(inst: I.Instruction)
  {
    (IsByteReg(inst.reg1) && inst.mode == I.Register) || (inst.reg1 == I.Hl && inst.mode == I.MemoryRegisterOnly)
  }

  /** The 8-bit step of INC / DEC: the operand becomes `AddByte(v, delta)` and nothing else but the cycle count changes. */
  lemma ByteStep(m: Machine, inst: I.Instruction, delta: int)
    requires IsImage(m.mem) && ByteForm(inst) && (delta == 1 || delta == -1)
    ensures var (r, v) := StepNext(m, inst, delta);
      v == AddByte(ByteOperand(m, inst.reg1), delta) && ByteOperand(r, inst.reg1) == v &&
      (inst.mode == I.Register ==> r.regs == WriteReg8(m.regs, inst.reg1, v) && r.mem == m.mem) &&
      (inst.mode == I.MemoryRegisterOnly ==> r.regs == m.regs && r.mem == Store(m.mem, HlOf(m.regs), v))
  {
    if inst.mode == I.Register {
      var old8 := ReadReg8(m.regs, inst.reg1);
      assert Fetch.ReadReg(m.regs, inst.reg1) == old8;
      var val := AddWord(old8, delta);
      assert LowByte(val) == AddByte(old8, delta);
    }
  }

  /**
   * INC r and INC (HL): the operand steps up by one with wrap-around; unless
   * the opcode is a 16-bit INC, Z is set iff the new operand is 0, N is
   * cleared, H is set iff its low nibble wrapped to 0, and C is kept.
   */
  lemma IncByteEffect(m: Machine, inst: I.Instruction)
    requires IsImage(m.mem) && ByteForm(inst) && !IncKeepsFlags(m.core.curOpcode)
    ensures var r := IncNext(m, inst); var v := ByteOperand(r, inst.reg1);
      v == AddByte(ByteOperand(m, inst.reg1), 1) &&
      (ZOf(r.regs) <==> v == 0) && !NOf(r.regs) && (HOf(r.regs) <==> v % 0x10 == 0) && COf(r.regs) == COf(m.regs)
  {
    ByteStep(m, inst, 1);
    var (m1, v) := StepNext(m, inst, 1);
    var m2 := SetFlagOf(m1, ZeroBit, v % 0x100 == 0);
    var m3 := SetFlagOf(m2, SubtractBit, false);
    SetFlagReadBack(m1, ZeroBit, v % 0x100 == 0);
    SetFlagReadBack(m2, SubtractBit, false);
    SetFlagReadBack(m3, HalfCarryBit, v % 0x10 == 0);
  }

  /**
   * DEC r and DEC (HL): the operand steps down by one with wrap-around;
   * unless the opcode is a 16-bit DEC, Z is set iff the new operand is 0, N
   * is set, H is set iff its low nibble wrapped to 0xF, and C is kept.
   */
  lemma DecByteEffect(m: Machine, inst: I.Instruction)
    requires IsImage(m.mem) && ByteForm(inst) && !DecKeepsFlags(m.core.curOpcode)
    ensures var r := DecNext(m, inst); var v := ByteOperand(r, inst.reg1);
      v == AddByte(ByteOperand(m, inst.reg1), -1) &&
      (ZOf(r.regs) <==> v == 0) && NOf(r.regs) && (HOf(r.regs) <==> v % 0x10 == 0xF) && COf(r.regs) == COf(m.regs)
  {
    ByteStep(m, inst, -1);
    var (m1, v) := StepNext(m, inst, -1);
    var m2 := SetFlagOf(m1, ZeroBit, v % 0x100 == 0);
    var m3 := SetFlagOf(m2, SubtractBit, true);
    SetFlagReadBack(m1, ZeroBit, v % 0x100 == 0);
    SetFlagReadBack(m2, SubtractBit, true);
    SetFlagReadBack(m3, HalfCarryBit, v % 0x10 == 0xF);
  }

  /**
   * INC rr and DEC rr on BC, DE, HL or SP: the pair steps by one with
   * wrap-around and, for the 16-bit opcodes, F is untouched; memory is
   * unchanged.
   */
  lemma WordStepEffect(m: Machine, inst: I.Instruction)
    requires IsImage(m.mem) && inst.reg1 in {I.Bc, I.De, I.Hl, I.Sp} && inst.mode == I.Register
    ensures IncKeepsFlags(m.core.curOpcode) ==>
      var r := IncNext(m, inst);
      Fetch.ReadReg(r.regs, inst.reg1) == AddWord(Fetch.ReadReg(m.regs, inst.reg1), 1) && r.regs.f == m.regs.f && r.mem == m.mem
    ensures DecKeepsFlags(m.core.curOpcode) ==>
      var r := DecNext(m, inst);
      Fetch.ReadReg(r.regs, inst.reg1) == AddWord(Fetch.ReadReg(m.regs, inst.reg1), -1) && r.regs.f == m.regs.f && r.mem == m.mem
  {
    Fetch.ReadAfterWrite(m.regs, inst.reg1, AddWord(Fetch.ReadReg(m.regs, inst.reg1), 1));
    Fetch.ReadAfterWrite(m.regs, inst.reg1, AddWord(Fetch.ReadReg(m.regs, inst.reg1), -1));
  }

  /** Storing back the byte an address held gives the image it was before the first store. */
  lemma StoreBack(m: seq<Byte>, a: Word, v: Byte)
    requires IsImage(m)
    ensures Store(Store(m, a, v), a, At(m, a)) == m
  {
  }

  /** Stepping a byte up by one and back down gives it back. */
  lemma ByteUpDown(v: Byte)
    ensures AddByte(AddByte(v, 1), -1) == v
  {
  }

  /** DEC after INC on an 8-bit register: every register but F, and the memory, are as before. */
  lemma IncThenDecRegister(m: Machine, inst: I.Instruction)
    requires IsImage(m.mem) && IsByteReg(inst.reg1) && inst.mode == I.Register
    ensures var r := DecNext(IncNext(m, inst), inst);
      r.regs.(f := m.regs.f) == m.regs && r.mem == m.mem
  {
    var m1 := IncNext(m, inst);
    ByteStep(m, inst, 1);
    ByteStep(m1, inst, -1);
    var v := ByteOperand(m, inst.reg1);
    ByteUpDown(v);
    var r1 := WriteReg8(m.regs, inst.reg1, AddByte(v, 1));
    assert m1.regs == r1.(f := m1.regs.f);
    var r2 := WriteReg8(m1.regs, inst.reg1, v);
    assert r2.(f := m.regs.f) == m.regs;
  }

  /** DEC (HL) after INC (HL): the registers but F, and the whole memory, are as before. */
  lemma IncThenDecMemory(m: Machine, inst: I.Instruction)
    requires IsImage(m.mem) && inst.reg1 == I.Hl && inst.mode == I.MemoryRegisterOnly
    ensures var r := DecNext(IncNext(m, inst), inst);
      r.regs.(f := m.regs.f) == m.regs && r.mem == m.mem
  {
    var m1 := IncNext(m, inst);
    ByteStep(m, inst, 1);
    ByteStep(m1, inst, -1);
    var hl := HlOf(m.regs);
    var v := At(m.mem, hl);
    ByteUpDown(v);
    assert m1.mem == Store(m.mem, hl, AddByte(v, 1));
    StoreBack(m.mem, hl, AddByte(v, 1));
  }

  /** The 16-bit step of INC / DEC on BC, DE, HL or SP: only the pair changes, by delta with wrap-around. */
  lemma PairStep(m: Machine, inst: I.Instruction, delta: int)
    requires IsImage(m.mem) && inst.reg1 in {I.Bc, I.De, I.Hl, I.Sp} && inst.mode == I.Register
    ensures var r := StepNext(m, inst, delta).0;
      r.mem == m.mem && r.regs == Fetch.WriteReg(m.regs, inst.reg1, AddWord(Fetch.ReadReg(m.regs, inst.reg1), delta))
  {
  }

  /** A pair reads back the word written to it, whatever F holds. */
  lemma PairWriteRead(rf: RegFile, r: I.RegisterType, w: Word, fl: Byte)
    requires r in {I.Bc, I.De, I.Hl, I.Sp}
    ensures Fetch.ReadReg(Fetch.WriteReg(rf, r, w).(f := fl), r) == w
  {
    Fetch.ReadAfterWrite(rf, r, w);
  }

  /** A second write to a pair replaces the first; F set in between stays. */
  lemma PairWriteTwice(rf: RegFile, r: I.RegisterType, w1: Word, w2: Word, fl: Byte)
    requires r in {I.Bc, I.De, I.Hl, I.Sp}
    ensures Fetch.WriteReg(Fetch.WriteReg(rf, r, w1).(f := fl), r, w2) == Fetch.WriteReg(rf, r, w2).(f := fl)
  {
  }

  /** Stepping a word up by one and back down gives it back. */
  lemma WordUpDown(w: Word)
    ensures AddWord(AddWord(w, 1), -1) == w
  {
  }

  /** DEC rr after INC rr: every register but F is as before. */
  lemma IncThenDecPair(m: Machine, inst: I.Instruction)
    requires IsImage(m.mem) && inst.reg1 in {I.Bc, I.De, I.Hl, I.Sp} && inst.mode == I.Register
    ensures var r := DecNext(IncNext(m, inst), inst);
      r.regs.(f := m.regs.f) == m.regs && r.mem == m.mem
  {
    var rf, reg := m.regs, inst.reg1;
    var w := Fetch.ReadReg(rf, reg);
    var m1 := IncNext(m, inst);
    PairStep(m, inst, 1);
    assert m1.regs == Fetch.WriteReg(rf, reg, AddWord(w, 1)).(f := m1.regs.f) && m1.mem == m.mem;
    PairWriteRead(rf, reg, AddWord(w, 1), m1.regs.f);
    PairStep(m1, inst, -1);
    WordUpDown(w);
    var m2 := DecNext(m1, inst);
    assert m2.regs == Fetch.WriteReg(m1.regs, reg, w).(f := m2.regs.f);
    PairWriteTwice(rf, reg, AddWord(w, 1), w, m1.regs.f);
    WriteBackPair(rf, reg);
  }

  /**
   * DEC after INC on the same operand gives it back: every register but F,
   * and the whole memory, are as before.
   */
  lemma IncThenDec(m: Machine, inst: I.Instruction)
    requires IsImage(m.mem)
    requires ByteForm(inst) || (inst.reg1 in {I.Bc, I.De, I.Hl, I.Sp} && inst.mode == I.Register)
    ensures var r := DecNext(IncNext(m, inst), inst);
      r.regs.(f := m.regs.f) == m.regs && r.mem == m.mem
  {
    if inst.mode == I.MemoryRegisterOnly {
      IncThenDecMemory(m, inst);
    } else if IsByteReg(inst.reg1) {
      IncThenDecRegister(m, inst);
    } else {
      IncThenDecPair(m, inst);
    }
  }

  // ---------------------------------------------------------------------
  // CB-prefixed instructions
  // ---------------------------------------------------------------------

  /**
   * BIT b, r (CB 0x40-0x7F): nothing but F changes; Z is set exactly when
   * bit b of the operand is clear, b being bits 3-5 of the CB opcode and the
   * operand the one its bits 0-2 name; N is cleared, H set and C kept.
   */
  lemma CbBitEffect(m: Machine)
    requires IsImage(m.mem) && LowByte(m.core.fetchedData) / 64 == 1
    ensures var op := LowByte(m.core.fetchedData); var r := CbNext(m);
      r.mem == m.mem && r.regs.(f := m.regs.f) == m.regs &&
      (ZOf(r.regs) <==> !Bit(ByteOperand(m, I.OperandOf(op)), op / 8 % 8)) &&
      !NOf(r.regs) && HOf(r.regs) && COf(r.regs) == COf(m.regs)
  {
    var op := LowByte(m.core.fetchedData);
    I.CbBitOperations(op);
    I.CbOperand(op);
    var reg, b := I.OperandOf(op), op / 8 % 8;
    var m1 := if reg == I.Hl then Tick(m, 1) else m;
    BitFlags(m1, ByteOperand(m, reg), b);
  }

  /** The flags `CbBitNext` leaves. */
  lemma BitFlags(m: Machine, v: Byte, b: nat)
    requires b < 8
    ensures var r := CbBitNext(m, v, b);
      r.mem == m.mem && r.regs.(f := m.regs.f) == m.regs && r.core == m.core &&
      (ZOf(r.regs) <==> !Bit(v, b)) && !NOf(r.regs) && HOf(r.regs) && COf(r.regs) == COf(m.regs)
  {
    var m1 := SetFlagOf(m, ZeroBit, !Bit(v, b));
    var m2 := SetFlagOf(m1, SubtractBit, false);
    SetFlagReadBack(m, ZeroBit, !Bit(v, b));
    SetFlagReadBack(m1, SubtractBit, false);
    SetFlagReadBack(m2, HalfCarryBit, true);
  }

  /** Writing a CB result and reading the same operand back gives the result. */
  lemma WriteCbReadBack(m: Machine, reg: I.RegisterType, v: Byte)
    requires IsImage(m.mem) && (IsByteReg(reg) || reg == I.Hl)
    ensures var r := WriteCbNext(m, reg, v);
      ByteOperand(r, reg) == v && r.regs.f == m.regs.f && r.core == m.core
  {
  }

  /**
   * RES b, r and SET b, r (CB 0x80-0xFF): bit b of the operand is cleared
   * (RES, 0x80-0xBF) or set (SET, 0xC0-0xFF), every other bit of it is kept,
   * and the flags are untouched.
   */
  lemma CbResSetEffect(m: Machine)
    requires IsImage(m.mem) && LowByte(m.core.fetchedData) >= 0x80
    ensures var op := LowByte(m.core.fetchedData); var reg := I.OperandOf(op); var r := CbNext(m);
      ByteOperand(r, reg) == BitSet(ByteOperand(m, reg), op / 8 % 8, op >= 0xC0) && r.regs.f == m.regs.f
    ensures var op := LowByte(m.core.fetchedData); var reg := I.OperandOf(op); var r := CbNext(m);
      Bit(ByteOperand(r, reg), op / 8 % 8) == (op >= 0xC0) &&
      forall k :: 0 <= k < 8 && k != op / 8 % 8 ==> Bit(ByteOperand(r, reg), k) == Bit(ByteOperand(m, reg), k)
  {
    var op := LowByte(m.core.fetchedData);
    I.CbBitOperations(op);
    I.CbOperand(op);
    var reg, b, on := I.OperandOf(op), op / 8 % 8, op >= 0xC0;
    var v := ByteOperand(m, reg);
    var m1 := if reg == I.Hl then Tick(m, 2) else m;
    assert ByteOperand(m1, reg) == v;
    WriteCbReadBack(m1, reg, BitSet(v, b, on));
    BitSetReadsBack(v, b, on);
    forall k | 0 <= k < 8 && k != b
      ensures Bit(BitSet(v, b, on), k) == Bit(v, k)
    {
      BitSetOthers(v, b, on, k);
    }
  }

  /**
   * The rotations and shifts (CB 0x00-0x3F): the operand takes the result of
   * the operation bits 3-5 select; Z is set iff the result is 0, N and H are
   * cleared and C is the bit shifted out.
   */
  lemma CbShiftEffect(m: Machine)
    requires IsImage(m.mem) && LowByte(m.core.fetchedData) < 0x40
    ensures var op := LowByte(m.core.fetchedData); var reg := I.OperandOf(op);
      var s := CbRotate(op / 8 % 8, ByteOperand(m, reg), COf(m.regs)); var r := CbNext(m);
      ByteOperand(r, reg) == s.value && (ZOf(r.regs) <==> s.value == 0) && !NOf(r.regs) && !HOf(r.regs) &&
      COf(r.regs) == s.carry
  {
    var op := LowByte(m.core.fetchedData);
    I.CbOperand(op);
    var reg := I.OperandOf(op);
    var v := ByteOperand(m, reg);
    var m1 := if reg == I.Hl then Tick(m, 2) else m;
    assert ByteOperand(m1, reg) == v && COf(m1.regs) == COf(m.regs);
    var s := CbRotate(op / 8 % 8, v, COf(m.regs));
    var m2 := WriteCbNext(m1, reg, s.value);
    WriteCbReadBack(m1, reg, s.value);
    FlagsReadBack(m2, s.value == 0, false, false, s.carry);
    assert ByteOperand(WithFlagsOf(m2, s.value == 0, false, false, s.carry), reg) == s.value;
  }

  /** RLC r (CB 0x00-0x07) followed by RRC r (8 opcodes on) gives the operand back. */
  lemma CbRotateBack(m: Machine)
    requires IsImage(m.mem) && m.core.fetchedData < 8
    ensures var reg := I.OperandOf(m.core.fetchedData); var m1 := CbNext(m);
      ByteOperand(CbNext(m1.(core := m1.core.(fetchedData := m.core.fetchedData + 8))), reg) == ByteOperand(m, reg)
  {
    var op := m.core.fetchedData;
    var reg := I.OperandOf(op);
    var v := ByteOperand(m, reg);
    RlcOperand(m, op);
    var m1 := CbNext(m);
    RrcBack(m1.(core := m1.core.(fetchedData := op + 8)), reg, v);
  }

  /** RLC r on the operand of the CB opcode op < 8. */
  lemma RlcOperand(m: Machine, op: Byte)
    requires IsImage(m.mem) && op < 8 && m.core.fetchedData == op
    ensures ByteOperand(CbNext(m), I.OperandOf(op)) == Rlc(ByteOperand(m, I.OperandOf(op))).value
  {
    assert LowByte(op) == op && op / 8 % 8 == 0;
    CbShiftEffect(m);
  }

  /** RRC r, the CB opcode 8 above an RLC on the same operand, undoes that RLC. */
  lemma RrcBack(m: Machine, reg: I.RegisterType, v: Byte)
    requires IsImage(m.mem) && 8 <= m.core.fetchedData < 0x10 && reg == I.OperandOf(m.core.fetchedData - 8)
    requires ByteOperand(m, reg) == Rlc(v).value
    ensures ByteOperand(CbNext(m), reg) == v
  {
    var op := m.core.fetchedData;
    assert LowByte(op) == op && op / 8 % 8 == 1 && I.OperandOf(op) == reg;
    CbShiftEffect(m);
    RotateInverse(v);
  }

  // ---------------------------------------------------------------------
  // Dispatch and loads
  // ---------------------------------------------------------------------

  /**
   * `execute` fails exactly on an undefined opcode's entry, which for a
   * decoded instruction means exactly the eleven undefined opcodes; with no
   * current instruction nothing changes.
   */
  lemma ExecuteOutcome(m: Machine)
    requires IsImage(m.mem)
    ensures ExecuteNext(m).InvalidInstruction? <==>
      m.core.curInst.Some? && m.core.curInst.value.instType == I.InvalidOp
    ensures m.core.curInst == Some(I.InstructionByOpcode(m.core.curOpcode)) ==>
      (ExecuteNext(m).InvalidInstruction? <==>
       m.core.curOpcode in {0xD3, 0xDB, 0xDD, 0xE3, 0xE4, 0xEB, 0xEC, 0xED, 0xF4, 0xFC, 0xFD})
    ensures m.core.curInst.None? ==> ExecuteNext(m) == Executed(m)
  {
    I.InvalidOpcodes(m.core.curOpcode);
  }

  /**
   * LD to memory of a 16-bit source (LD (a16), SP): the word reads back
   * little-endian at the destination, no other byte changes, and the
   * registers are untouched.
   */
  lemma LdWordToMemory(m: Machine, inst: I.Instruction)
    requires IsImage(m.mem) && m.core.destIsMem && I.Is16Bit(inst.reg2)
    ensures var r := LdNext(m, inst); var a := m.core.memDest;
      LoadWord(r.mem, a) == m.core.fetchedData && r.regs == m.regs &&
      forall k: Word :: k != a && k != AddWord(a, 1) ==> At(r.mem, k) == At(m.mem, k)
  {
    WordRoundTrip(m.mem, m.core.memDest, m.core.fetchedData);
  }

  /**
   * LD HL, SP+e8: HL takes SP plus the signed offset, wrapping; Z and N are
   * cleared and H and C are the carries out of bits 3 and 7 of SP plus the
   * offset byte; SP is kept.
   */
  lemma LdHlSpOffset(m: Machine, inst: I.Instruction)
    requires IsImage(m.mem) && !m.core.destIsMem && inst.mode == I.HlSpr && inst.reg1 == I.Hl && inst.reg2 == I.Sp
    ensures var r := LdNext(m, inst).regs; var sp, e := m.regs.sp, m.core.fetchedData;
      HlOf(r) == (sp + Signed(LowByte(e))) % 0x1_0000 && r.sp == sp && !ZOf(r) && !NOf(r) &&
      (HOf(r) <==> sp % 0x10 + e % 0x10 >= 0x10) && (COf(r) <==> sp % 0x100 + e % 0x100 >= 0x100)
  {
    var sp, e := m.regs.sp, m.core.fetchedData;
    var m1 := WithFlagsOf(m, false, false, sp % 0x10 + e % 0x10 >= 0x10, sp % 0x100 + e % 0x100 >= 0x100);
    FlagsReadBack(m, false, false, sp % 0x10 + e % 0x10 >= 0x10, sp % 0x100 + e % 0x100 >= 0x100);
    SignExtendAdds(sp, LowByte(e));
    Fetch.ReadAfterWrite(m1.regs, I.Hl, AddWord(sp, SignExtend(LowByte(e))));
  }
}
