/**
 * The CPU's own state beside the register file: halt and interrupt-enable
 * flags, the IE/IF copies, the operands of the instruction being executed,
 * the M-cycle counter, and the interrupt sources with their priority, IF/IE
 * bit and vector.
 */
module Cpu {
  import opened Common
  import opened Registers
  import Instructions

  /** The five interrupt sources, highest priority first. */
  datatype InterruptType = VBlank | LcdStat | Timer | Serial | Joypad

  /** Position of an interrupt in the priority order (0 is served first). */
  function Priority(t: InterruptType): (i: nat)
    ensures i < 5
  {
    match t
    case VBlank => 0
    case LcdStat => 1
    case Timer => 2
    case Serial => 3
    case Joypad => 4
  }

  /** `InterruptType::bit`: the IF/IE mask of a source, one bit per priority position. */
  function InterruptBit(t: InterruptType): (m: Byte)
    ensures m == Pow2(Priority(t))
  {
    match t
    case VBlank => 0x01
    case LcdStat => 0x02
    case Timer => 0x04
    case Serial => 0x08
    case Joypad => 0x10
  }

  /** `InterruptType::vector`: 0x40 + 8 * priority. */
  function Vector(t: InterruptType): (v: Word)
    ensures v == 0x40 + 8 * Priority(t)
  {
    match t
    case VBlank => 0x0040
    case LcdStat => 0x0048
    case Timer => 0x0050
    case Serial => 0x0058
    case Joypad => 0x0060
  }

  /** `InterruptType::all`: every source exactly once, in priority order. */
  function AllInterrupts(): (s: seq<InterruptType>)
    ensures |s| == 5
    ensures forall i :: 0 <= i < |s| ==> Priority(s[i]) == i
  {
    [VBlank, LcdStat, Timer, Serial, Joypad]
  }

  /** Different sources have different masks and vectors, so either identifies the source. */
  lemma InterruptBitInjective(t: InterruptType, u: InterruptType)
    ensures InterruptBit(t) == InterruptBit(u) <==> t == u
    ensures Vector(t) == Vector(u) <==> t == u
  {
  }

  /** The requests that are both flagged in IF and enabled in IE: `IF & IE & 0x1F`. */
  function PendingMask(ifl: Byte, ie: Byte): Byte
  {
    And(And(ifl, ie), 0x1F)
  }

  /** `(m & t.bit()) != 0`: the source's bit is set in m. */
  predicate Requested(m: Byte, t: InterruptType)
  {
    And(m, InterruptBit(t)) != 0
  }

  /**
   * The request served first: the source of the lowest set bit of the mask,
   * or None when no source bit is set.
   */
  function HighestPending(m: Byte): (r: Option<InterruptType>)
    ensures r.None? <==> forall t :: !Requested(m, t)
    ensures r.Some? ==> Requested(m, r.value)
    ensures r.Some? ==> forall t :: Priority(t) < Priority(r.value) ==> !Requested(m, t)
  {
    if Requested(m, VBlank) then Some(VBlank)
    else if Requested(m, LcdStat) then Some(LcdStat)
    else if Requested(m, Timer) then Some(Timer)
    else if Requested(m, Serial) then Some(Serial)
    else if Requested(m, Joypad) then Some(Joypad)
    else None
  }

  /** `saturating_add` on `u32`. */
  function SaturatingAdd(a: U32, b: U32): (r: U32)
    ensures r >= a && r >= b
    ensures r == U32Max || r == a + b
    ensures a + b <= U32Max ==> r == a + b
  {
    if a + b > U32Max then U32Max else a + b
  }

  /** `saturating_mul(4)` on `u32`: M-cycles to T-cycles. */
  function SaturatingTimes4(a: U32): (r: U32)
    ensures r == U32Max || r == 4 * a
    ensures 4 * a <= U32Max ==> r == 4 * a
    ensures 4 * a > U32Max ==> r == U32Max
  {
    if 4 * a > U32Max then U32Max else 4 * a
  }

  /** Every field of the CPU other than the registers, as one value. */
  datatype CoreState = CoreState(
    halted: bool, ime: bool, enablingIme: bool, ieRegister: Byte, intFlags: Byte,
    fetchedData: Word, memDest: Word, destIsMem: bool, curOpcode: Byte,
    curInst: Option<Instructions.Instruction>, pendingMCycles: U32)

  class Cpu {
    const regs: Registers
    var halted: bool
    var ime: bool
    var enablingIme: bool
    var ieRegister: Byte
    var intFlags: Byte
    var fetchedData: Word
    var memDest: Word
    var destIsMem: bool
    var curOpcode: Byte
    var curInst: Option<Instructions.Instruction>
    var pendingMCycles: U32

    function Core(): CoreState
      reads this
    {
      CoreState(halted, ime, enablingIme, ieRegister, intFlags, fetchedData, memDest,
                destIsMem, curOpcode, curInst, pendingMCycles)
    }

    /** `Cpu::new()`: zeroed registers, nothing pending, no current instruction. */
    constructor ()
      ensures regs.State() == RegFile(0, 0, 0, 0, 0, 0, 0, 0, 0, 0)
      ensures Core() == CoreState(false, false, false, 0, 0, 0, 0, false, 0, None, 0)
    {
      regs := new Registers();
      halted, ime, enablingIme := false, false, false;
      ieRegister, intFlags := 0, 0;
      fetchedData, memDest, destIsMem := 0, 0, false;
      curOpcode, curInst, pendingMCycles := 0, None, 0;
    }

    /**
     * `init`: the register values the boot ROM leaves behind (PC = 0x100,
     * SP = 0xFFFE, AF = 0x01B0, BC = 0x0013, DE = 0x00D8, HL = 0x014D), with
     * Z, H and C set and interrupts off.
     */
    method Init()
      modifies this, regs
      ensures regs.State() == RegFile(0x01, 0xB0, 0x00, 0x13, 0x00, 0xD8, 0x01, 0x4D, 0x0100, 0xFFFE)
      ensures regs.FlagZ() && !regs.FlagN() && regs.FlagH() && regs.FlagC()
      ensures Core() == old(Core()).(halted := false, ime := false, enablingIme := false,
                                     ieRegister := 0, intFlags := 0, pendingMCycles := 0)
    {
      regs.pc := 0x0100;
      regs.sp := 0xFFFE;
      regs.SetAF(0x01B0);
      regs.SetBC(0x0013);
      regs.SetDE(0x00D8);
      regs.SetHL(0x014D);
      BootFlags();
      halted := false;
      ime := false;
      enablingIme := false;
      ieRegister := 0;
      intFlags := 0;
      pendingMCycles := 0;
    }

    /** `reset_step_cycles`. */
    method ResetStepCycles()
      modifies this
      ensures Core() == old(Core()).(pendingMCycles := 0)
    {
      pendingMCycles := 0;
    }

    /** `add_m_cycles`: saturating accumulation. */
    method AddMCycles(n: U32)
      modifies this
      ensures Core() == old(Core()).(pendingMCycles := SaturatingAdd(old(pendingMCycles), n))
    {
      pendingMCycles := SaturatingAdd(pendingMCycles, n);
    }

    /** `take_t_cycles`: returns four T-cycles per pending M-cycle (saturating) and clears the count. */
    method TakeTCycles() returns (t: U32)
      modifies this
      ensures t == SaturatingTimes4(old(pendingMCycles))
      ensures Core() == old(Core()).(pendingMCycles := 0)
    {
      t := SaturatingTimes4(pendingMCycles);
      pendingMCycles := 0;
    }

    /** `request_interrupt`: ORs the source's bit into IF. */
    method RequestInterrupt(t: InterruptType)
      modifies this
      ensures Core() == old(Core()).(intFlags := Or(old(intFlags), InterruptBit(t)))
    {
      intFlags := Or(intFlags, InterruptBit(t));
    }

    /** `interrupts_pending`: some source is both requested and enabled. */
    predicate InterruptsPending()
      reads this
    {
      PendingMask(intFlags, ieRegister) != 0
    }

    /**
     * `get_pending_interrupt`: scans the sources in priority order and
     * returns the first whose bit is set in IF & IE & 0x1F.
     */
    method GetPendingInterrupt() returns (r: Option<InterruptType>)
      ensures r == HighestPending(PendingMask(intFlags, ieRegister))
      ensures r.None? <==> !InterruptsPending()
    {
      var pending := PendingMask(intFlags, ieRegister);
      if pending == 0 {
        NothingRequestedInZero();
        return None;
      }
      var all := AllInterrupts();
      var i := 0;
      while i < |all|
        invariant 0 <= i <= |all|
        invariant forall j :: 0 <= j < i ==> !Requested(pending, all[j])
      {
        if And(pending, InterruptBit(all[i])) != 0 {
          ghost var h := HighestPending(pending).value;
          assert Priority(h) <= i;
          assert all[Priority(h)] == h;
          return Some(all[i]);
        }
        i := i + 1;
      }
      // a non-zero pending mask has a source bit, so the scan returns inside the loop
      ScanCoversAll(pending, all);
      PendingHasSource(intFlags, ieRegister);
      assert false;
      return None;
    }

    /** `clear_interrupt`: clears the source's bit in IF. */
    method ClearInterrupt(t: InterruptType)
      modifies this
      ensures Core() == old(Core()).(intFlags := And(old(intFlags), Not(InterruptBit(t))))
    {
      intFlags := And(intFlags, Not(InterruptBit(t)));
    }
  }

  /** F = 0xB0 after boot: Z, H and C set, N clear. */
  lemma BootFlags()
    ensures Bit(0xB0, ZeroBit) && !Bit(0xB0, SubtractBit) && Bit(0xB0, HalfCarryBit) && Bit(0xB0, CarryBit)
  {
  }

  /** A scan of every source in priority order that finds no request means nothing is requested. */
  lemma ScanCoversAll(m: Byte, all: seq<InterruptType>)
    requires all == AllInterrupts()
    requires forall j :: 0 <= j < |all| ==> !Requested(m, all[j])
    ensures forall t :: !Requested(m, t)
  {
    forall t ensures !Requested(m, t) {
      assert all[Priority(t)] == t;
    }
  }

  /** The mask of a source, as a `bv8`, is `1 << priority`. */
  lemma InterruptBitView(t: InterruptType)
    ensures Bits(InterruptBit(t)) == Mask(Priority(t))
  {
    MaskValue(Priority(t));
    BitsOfByte(Mask(Priority(t)));
  }

  /** Two single-bit masks share a bit exactly when they are the same position. */
  lemma MasksOverlap(p: nat, k: nat)
    requires p < 8 && k < 8
    ensures Mask(p) & Mask(k) != 0 <==> p == k
  {
    MaskIsSingleBit(p);
    MaskIsSingleBit(k);
    assert Mask(p) & Mask(k) != 0 <==> Mask(p) == Mask(k);
    if p != k {
      MaskInjective(p, k);
    }
  }

  /** Different positions have different masks. */
  lemma MaskInjective(p: nat, k: nat)
    requires p < 8 && k < 8 && p != k
    ensures Mask(p) != Mask(k)
  {
    assert Pow2(p) != Pow2(k);
    assert Pow2(p) == Mask(p) as int && Pow2(k) == Mask(k) as int by {
      PowIsMask(p);
      PowIsMask(k);
    }
  }

  /** `1 << n` as a `bv8` and as an integer agree. */
  lemma PowIsMask(n: nat)
    requires n < 8
    ensures Pow2(n) == Mask(n) as int
  {
  }

  /** A source's mask has exactly the bit of its priority position set. */
  lemma InterruptBitBits(t: InterruptType, k: nat)
    requires k < 8
    ensures Bit(InterruptBit(t), k) <==> k == Priority(t)
  {
    InterruptBitView(t);
    MasksOverlap(Priority(t), k);
  }

  /** A source is requested in m exactly when bit `priority` of m is set. */
  lemma RequestedIsBit(m: Byte, t: InterruptType)
    ensures Requested(m, t) <==> Bit(m, Priority(t))
  {
    var b := InterruptBit(t);
    assert Bits(b) == Mask(Priority(t)) by { InterruptBitView(t); }
    AndIsZero(m, b);
  }

  /** Requesting sets exactly the source's bit of IF and keeps every other bit. */
  lemma RequestSetsOnlyItsBit(ifl: Byte, t: InterruptType, k: nat)
    requires k < 8
    ensures Bit(Or(ifl, InterruptBit(t)), k) == (k == Priority(t) || Bit(ifl, k))
  {
    OrBits(ifl, InterruptBit(t), k);
    InterruptBitBits(t, k);
  }

  /** Clearing resets exactly the source's bit of IF and keeps every other bit. */
  lemma ClearResetsOnlyItsBit(ifl: Byte, t: InterruptType, k: nat)
    requires k < 8
    ensures Bit(And(ifl, Not(InterruptBit(t))), k) == (k != Priority(t) && Bit(ifl, k))
  {
    AndBits(ifl, Not(InterruptBit(t)), k);
    NotBits(InterruptBit(t), k);
    InterruptBitBits(t, k);
  }

  /** A source is pending exactly when it is both requested in IF and enabled in IE. */
  lemma PendingSource(ifl: Byte, ie: Byte, t: InterruptType)
    ensures Requested(PendingMask(ifl, ie), t) <==> Requested(ifl, t) && Requested(ie, t)
  {
    var p := Priority(t);
    RequestedIsBit(PendingMask(ifl, ie), t);
    RequestedIsBit(ifl, t);
    RequestedIsBit(ie, t);
    AndBits(And(ifl, ie), 0x1F, p);
    AndBits(ifl, ie, p);
    LowFiveSet(p);
  }

  /** Bits 0-4 of 0x1F are set. */
  lemma LowFiveSet(p: nat)
    requires p < 5
    ensures Bit(0x1F, p)
  {
    if p == 0 {} else if p == 1 {} else if p == 2 {} else if p == 3 {} else {}
  }

  /** Nothing is requested in the zero mask. */
  lemma NothingRequestedInZero()
    ensures forall t :: !Requested(0, t)
  {
    forall t ensures !Requested(0, t) {
      AndIsZero(0, InterruptBit(t));
    }
  }

  /** A non-zero `bv8` with no bit above bit 4 has one of bits 0-4 set. */
  lemma LowFiveBits(y: bv8) returns (k: nat)
    requires y & 0xE0 == 0 && y != 0
    ensures k < 5 && y & Mask(k) != 0
  {
    if y & 0x01 != 0 { k := 0; }
    else if y & 0x02 != 0 { k := 1; }
    else if y & 0x04 != 0 { k := 2; }
    else if y & 0x08 != 0 { k := 3; }
    else { k := 4; }
  }

  /** A non-zero pending mask has one of bits 0-4 set. */
  lemma PendingBit(ifl: Byte, ie: Byte) returns (k: nat)
    requires PendingMask(ifl, ie) != 0
    ensures k < 5 && Bit(PendingMask(ifl, ie), k)
  {
    var m := PendingMask(ifl, ie);
    assert Bits(m) & 0xE0 == 0 by {
      AndView(And(ifl, ie), 0x1F);
    }
    assert Bits(m) != 0 by {
      ByteOfBits(m);
    }
    k := LowFiveBits(Bits(m));
  }

  /** A non-zero pending mask has a source that is requested in it. */
  lemma PendingHasSource(ifl: Byte, ie: Byte)
    requires PendingMask(ifl, ie) != 0
    ensures exists t :: Requested(PendingMask(ifl, ie), t)
  {
    var k := PendingBit(ifl, ie);
    var t := AllInterrupts()[k];
    RequestedIsBit(PendingMask(ifl, ie), t);
  }

  /** Something is pending exactly when some source is both requested in IF and enabled in IE. */
  lemma PendingMeansSomeSource(ifl: Byte, ie: Byte)
    ensures PendingMask(ifl, ie) != 0 <==> exists t :: Requested(ifl, t) && Requested(ie, t)
  {
    var m := PendingMask(ifl, ie);
    if m != 0 {
      PendingHasSource(ifl, ie);
      var t :| Requested(m, t);
      PendingSource(ifl, ie, t);
    } else {
      forall t ensures !(Requested(ifl, t) && Requested(ie, t)) {
        PendingSource(ifl, ie, t);
        NothingRequestedInZero();
      }
    }
  }
}
