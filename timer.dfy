/**
 * The timer: DIV (0xFF04) is the high byte of a 16-bit counter that
 * advances every T-cycle; TIMA (0xFF05) counts falling edges of one bit of
 * that counter, chosen by TAC (0xFF07) bits 0-1, while TAC bit 2 is set; when
 * TIMA overflows it reloads from TMA (0xFF06) and requests the timer
 * interrupt.
 */
module Timer {
  import opened Common

  /** `TIMER_FREQUENCIES`: T-cycles per TIMA increment, indexed by TAC bits 0-1. */
  const Frequencies: seq<nat> := [1024, 16, 64, 256]

  /** The timer's fields as one value. */
  datatype TimerState = TimerState(div: Word, tima: Byte, tma: Byte, tac: Byte, interruptRequested: bool)

  /** `Timer::new()` and `init`: the counter the boot ROM leaves behind, everything else zero. */
  const Boot: TimerState := TimerState(0xABCC, 0, 0, 0, false)

  /** `read`: DIV is the counter's high byte; TIMA, TMA and TAC read as stored; any other address reads 0xFF. */
  function ReadOf(s: TimerState, a: Word): Byte
  {
    if a == 0xFF04 then s.div / 0x100
    else if a == 0xFF05 then s.tima
    else if a == 0xFF06 then s.tma
    else if a == 0xFF07 then s.tac
    else 0xFF
  }

  /** `write`: any DIV write clears the counter; TAC keeps its low three bits; other addresses are ignored. */
  function WriteNext(s: TimerState, a: Word, v: Byte): TimerState
  {
    if a == 0xFF04 then s.(div := 0)
    else if a == 0xFF05 then s.(tima := v)
    else if a == 0xFF06 then s.(tma := v)
    else if a == 0xFF07 then s.(tac := And(v, 0x07))
    else s
  }

  /**
   * A write then a read of the same register: DIV reads 0, TAC the low three
   * bits of the value, TIMA and TMA the value; every other register reads as
   * before.
   */
  lemma WriteThenRead(s: TimerState, a: Word, v: Byte)
    ensures a == 0xFF04 ==> ReadOf(WriteNext(s, a, v), a) == 0
    ensures a == 0xFF05 || a == 0xFF06 ==> ReadOf(WriteNext(s, a, v), a) == v
    ensures a == 0xFF07 ==> ReadOf(WriteNext(s, a, v), a) == v % 8
    ensures forall b: Word :: b != a ==> ReadOf(WriteNext(s, a, v), b) == ReadOf(s, b)
  {
    LowMasks(v);
  }

  /** `timer_enabled`: TAC bit 2. */
  predicate Enabled(tac: Byte)
  {
    And(tac, 0x04) != 0
  }

  /** `timer_frequency`: the table entry selected by TAC bits 0-1. */
  function Frequency(tac: Byte): (r: nat)
    ensures r == Frequencies[tac % 4]
  {
    LowMasks(tac);
    Frequencies[And(tac, 0x03)]
  }

  /** The DIV bit whose falling edge advances TIMA, for each table frequency. */
  function BitPosition(freq: nat): Option<nat>
  {
    if freq == 1024 then Some(9)
    else if freq == 16 then Some(3)
    else if freq == 64 then Some(5)
    else if freq == 256 then Some(7)
    else None
  }

  /** TIMA plus one, or TMA on overflow (`overflowing_add(1)`). */
  function Increment(s: TimerState): TimerState
  {
    if s.tima == 0xFF then s.(tima := s.tma, interruptRequested := true)
    else s.(tima := s.tima + 1)
  }

  /**
   * `tick`: the counter advances, wrapping; while TAC enables the timer, a
   * falling edge of the selected DIV bit advances TIMA.
   */
  function TickNext(s: TimerState): TimerState
  {
    var prev := s.div;
    var s1 := s.(div := AddWord(s.div, 1));
    if !Enabled(s.tac) then s1
    else match BitPosition(Frequency(s.tac))
      case None => s1
      case Some(pos) =>
        if WordBit(prev, pos) && !WordBit(s1.div, pos) then Increment(s1) else s1
  }

  /** Every frequency in the table has a bit position (the fall-through return is dead). */
  lemma PositionsCoverTable(tac: Byte)
    ensures BitPosition(Frequency(tac)).Some?
  {
  }

  /**
   * Bit n of the counter falls on an increment exactly when the new counter
   * value is a multiple of 2 to the n + 1; for the four positions the table
   * uses, that is the tick on which the count reaches a multiple of the
   * selected frequency.
   */
  lemma FallingEdge(tac: Byte, w: Word)
    ensures BitPosition(Frequency(tac)).Some?
    ensures var pos := BitPosition(Frequency(tac)).value;
            (WordBit(w, pos) && !WordBit(AddWord(w, 1), pos)) <==> AddWord(w, 1) % Frequency(tac) == 0
  {
    var f := Frequency(tac);
    if f == 1024 {
      assert Pow2(9) == 512;
      Edge512(w);
    } else if f == 16 {
      assert Pow2(3) == 8;
      Edge8(w);
    } else if f == 64 {
      assert Pow2(5) == 32;
      Edge32(w);
    } else {
      assert Pow2(7) == 128;
      Edge128(w);
    }
  }

  /** The falling edge of bit 3. */
  lemma Edge8(w: Word)
    ensures ((w / 8) % 2 == 1 && (AddWord(w, 1) / 8) % 2 == 0) <==> AddWord(w, 1) % 16 == 0
  {
  }

  /** The falling edge of bit 5. */
  lemma Edge32(w: Word)
    ensures ((w / 32) % 2 == 1 && (AddWord(w, 1) / 32) % 2 == 0) <==> AddWord(w, 1) % 64 == 0
  {
  }

  /** The falling edge of bit 7. */
  lemma Edge128(w: Word)
    ensures ((w / 128) % 2 == 1 && (AddWord(w, 1) / 128) % 2 == 0) <==> AddWord(w, 1) % 256 == 0
  {
  }

  /** The falling edge of bit 9. */
  lemma Edge512(w: Word)
    ensures ((w / 512) % 2 == 1 && (AddWord(w, 1) / 512) % 2 == 0) <==> AddWord(w, 1) % 1024 == 0
  {
  }

  /**
   * What a tick does, stated without bit positions: the counter advances by
   * one, wrapping; TMA and TAC are kept; TIMA advances (reloading from TMA
   * and requesting the interrupt on overflow) exactly when TAC bit 2 is set
   * and the new count is a multiple of the selected frequency; an interrupt
   * request is never withdrawn.
   */
  lemma TickEffect(s: TimerState)
    ensures TickNext(s).div == AddWord(s.div, 1)
    ensures TickNext(s).tma == s.tma && TickNext(s).tac == s.tac
    ensures var counts := Enabled(s.tac) && AddWord(s.div, 1) % Frequency(s.tac) == 0;
            TickNext(s).tima == (if !counts then s.tima else if s.tima == 0xFF then s.tma else s.tima + 1) &&
            TickNext(s).interruptRequested == (s.interruptRequested || (counts && s.tima == 0xFF))
  {
    FallingEdge(s.tac, s.div);
  }

  /** With TAC bit 2 clear, ticks move only the counter. */
  lemma DisabledTick(s: TimerState)
    requires !Enabled(s.tac)
    ensures TickNext(s) == s.(div := AddWord(s.div, 1))
  {
  }

  /** TAC bit 2 is the enable bit of `timer_enabled`. */
  lemma EnabledIsBit2(tac: Byte)
    ensures Enabled(tac) <==> Bit(tac, 2)
  {
    MaskTest(tac, 2);
  }

  /** The timer. */
  class Timer {
    var div: Word
    var tima: Byte
    var tma: Byte
    var tac: Byte
    var interruptRequested: bool

    function State(): TimerState
      reads this
    {
      TimerState(div, tima, tma, tac, interruptRequested)
    }

    /** `Timer::new()`. */
    constructor ()
      ensures State() == Boot
    {
      div, tima, tma, tac, interruptRequested := 0xABCC, 0, 0, 0, false;
    }

    /** `init`. */
    method Init()
      modifies this
      ensures State() == Boot
    {
      div := 0xABCC;
      tima := 0;
      tma := 0;
      tac := 0;
      interruptRequested := false;
    }

    /** `write`. */
    method Write(a: Word, v: Byte)
      modifies this
      ensures State() == WriteNext(old(State()), a, v)
    {
      if a == 0xFF04 {
        div := 0;
      } else if a == 0xFF05 {
        tima := v;
      } else if a == 0xFF06 {
        tma := v;
      } else if a == 0xFF07 {
        tac := And(v, 0x07);
      }
    }

    /** `tick`: one T-cycle. */
    method Tick()
      modifies this
      ensures State() == TickNext(old(State()))
    {
      var prevDiv := div;
      div := AddWord(div, 1);
      if !Enabled(tac) {
        return;
      }
      var freq := Frequency(tac);
      var pos := BitPosition(freq);
      if pos.None? {
        return;
      }
      var bitPos := pos.value;
      if WordBit(prevDiv, bitPos) && !WordBit(div, bitPos) {
        if tima == 0xFF {
          tima := tma;
          interruptRequested := true;
        } else {
          tima := tima + 1;
        }
      }
    }

    /** `clear_interrupt`. */
    method ClearInterrupt()
      modifies this
      ensures State() == old(State()).(interruptRequested := false)
    {
      interruptRequested := false;
    }
  }
}
