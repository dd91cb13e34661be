/**
 * The four sound channels of the audio unit: two square-wave channels (the
 * first with a frequency sweep), a wave channel that plays 32 four-bit
 * samples, and a noise channel driven by a linear-feedback shift register.
 *
 * The channels are plain structs held by value inside the audio unit; each
 * `&mut self` operation is modelled as a next-state function on the
 * channel's value, and the audio unit's methods assign the result back.
 * Register fields that the source always fills through a bit mask are given
 * the mask's range as their type.
 */
module Channels {
  import opened Common

  /** A two-bit field. */
  type U2 = x: int | 0 <= x < 4
  /** A three-bit field. */
  type U3 = x: int | 0 <= x < 8
  /** A four-bit field. */
  type U4 = x: int | 0 <= x < 16
  /** A five-bit field. */
  type U5 = x: int | 0 <= x < 32
  /** An eleven-bit channel frequency (NRx3 low byte, NRx4 bits 0-2). */
  type U11 = x: int | 0 <= x < 0x800

  /** The 16 bytes (32 four-bit samples) of wave RAM. */
  type WaveTable = s: seq<Byte> | |s| == 16
    witness [0, 0, 0, 0, 0, 0, 0, 0, 0, 0, 0, 0, 0, 0, 0, 0]

  /** `w | (b << n)` for a single bit `b`. */
  function OrBit(w: Word, n: U4, b: bool): (r: Word)
  {
    if b && !WordBit(w, n) then (w + Pow2(n)) % 0x1_0000 else w
  }

  /** `w & !(1 << n)`. */
  function ClearBit(w: Word, n: U4): (r: Word)
  {
    if WordBit(w, n) then WordBitBound(w, n); w - Pow2(n) else w
  }

  // ---------------------------------------------------------------------
  // Duty patterns
  // ---------------------------------------------------------------------

  /** The four square-wave duty patterns, eight steps each. */
  const DutyPatterns: seq<seq<Byte>> := [
    [0, 0, 0, 0, 0, 0, 0, 1], // 12.5%
    [1, 0, 0, 0, 0, 0, 0, 1], // 25%
    [1, 0, 0, 0, 0, 1, 1, 1], // 50%
    [0, 1, 1, 1, 1, 1, 1, 0]  // 75%
  ]

  /** The number of high steps in an eight-step pattern. */
  function HighSteps(p: seq<Byte>): int
    requires |p| == 8
  {
    p[0] as int + p[1] + p[2] + p[3] + p[4] + p[5] + p[6] + p[7]
  }

  /** The patterns are 0/1 waveforms with 1, 2, 4 and 6 high steps of eight. */
  lemma DutyCycles()
    ensures |DutyPatterns| == 4
    ensures forall d :: 0 <= d < 4 ==> |DutyPatterns[d]| == 8
    ensures forall d, k :: 0 <= d < 4 && 0 <= k < 8 ==>
      DutyPatterns[d][k] == 0 || DutyPatterns[d][k] == 1
    ensures HighSteps(DutyPatterns[0]) == 1
    ensures HighSteps(DutyPatterns[1]) == 2
    ensures HighSteps(DutyPatterns[2]) == 4
    ensures HighSteps(DutyPatterns[3]) == 6
  {
  }

  // ---------------------------------------------------------------------
  // Units shared by several channels
  // ---------------------------------------------------------------------

  /** One length clock: the new counter and the new `enabled` flag. */
  function LengthClock(counter: Word, lengthEnabled: bool, enabled: bool): (Word, bool)
  {
    if lengthEnabled && counter > 0 then
      (counter - 1, if counter - 1 == 0 then false else enabled)
    else
      (counter, enabled)
  }

  /**
   * The length counter only counts down, and only while length is enabled and
   * it is not yet zero; it never re-enables a channel, and it silences exactly
   * the channel whose counter runs from 1 to 0.
   */
  lemma LengthClockSpec(counter: Word, lengthEnabled: bool, enabled: bool)
    ensures LengthClock(counter, lengthEnabled, enabled).0 <= counter
    ensures LengthClock(counter, lengthEnabled, enabled).0 < counter <==> lengthEnabled && counter > 0
    ensures LengthClock(counter, lengthEnabled, enabled).0 < counter ==>
      LengthClock(counter, lengthEnabled, enabled).0 == counter - 1
    ensures LengthClock(counter, lengthEnabled, enabled).1 ==> enabled
    ensures enabled && !LengthClock(counter, lengthEnabled, enabled).1 <==>
      enabled && lengthEnabled && counter == 1
  {
  }

  /** One envelope clock: the new envelope timer and the new volume. */
  function EnvelopeClock(period: U3, add: bool, timer: Byte, volume: Byte): (Byte, Byte)
  {
    if period == 0 then (timer, volume)
    else
      var t := if timer > 0 then timer - 1 else 0;
      if t == 0 then
        (period,
         if add && volume < 15 then volume + 1
         else if !add && volume > 0 then volume - 1
         else volume)
      else
        (t, volume)
  }

  /**
   * Period 0 freezes the envelope; otherwise the volume moves by at most one
   * step, in the envelope's direction, and a volume within 0..15 stays there.
   */
  lemma EnvelopeClockSpec(period: U3, add: bool, timer: Byte, volume: Byte)
    ensures period == 0 ==> EnvelopeClock(period, add, timer, volume) == (timer, volume)
    ensures volume <= 15 ==> EnvelopeClock(period, add, timer, volume).1 <= 15
    ensures var v := EnvelopeClock(period, add, timer, volume).1;
      v == volume || (add && v == volume + 1) || (!add && v == volume - 1)
    ensures timer <= 7 ==> EnvelopeClock(period, add, timer, volume).0 <= 7
  {
  }

  /**
   * One step of a frequency timer: count down and, on reaching zero, reload
   * and report that the waveform advances.
   */
  function TimerClock(timer: Word, reload: Word): (Word, bool)
  {
    var t := if timer > 0 then timer - 1 else 0;
    if t == 0 then (reload, true) else (t, false)
  }

  /** The waveform advances exactly when the timer was at most 1, and then reloads. */
  lemma TimerClockSpec(timer: Word, reload: Word)
    ensures TimerClock(timer, reload).1 <==> timer <= 1
    ensures TimerClock(timer, reload) == if timer <= 1 then (reload, true) else (timer - 1, false)
  {
  }

  /** The square channels' timer period, `(2048 - frequency) * 4`. */
  function SquarePeriod(f: U11): (r: Word)
    ensures 4 <= r <= 0x2000
  {
    (2048 - f) * 4
  }

  /** NRx3: `(frequency & 0x700) | value`. */
  function FrequencyLow(f: U11, value: Byte): (r: U11)
  {
    ((f / 256) % 8) * 256 + value
  }

  /** NRx4: `(frequency & 0xFF) | ((value & 7) << 8)`. */
  function FrequencyHigh(f: U11, value: Byte): (r: U11)
  {
    f % 256 + (value % 8) * 256
  }

  /** The two frequency registers replace disjoint parts of the eleven-bit frequency. */
  lemma FrequencyHalves(f: U11, value: Byte)
    ensures FrequencyLow(f, value) % 256 == value
    ensures FrequencyLow(f, value) / 256 == f / 256
    ensures FrequencyHigh(f, value) % 256 == f % 256
    ensures FrequencyHigh(f, value) / 256 == value % 8
  {
  }

  /** The NRx2 envelope register read back: volume (bits 4-7), direction (bit 3), period (bits 0-2). */
  function PackEnvelope(volumeInitial: U4, add: bool, period: U3): (r: Byte)
  {
    volumeInitial * 16 + (if add then 8 else 0) + period
  }

  /** NRx4 read back: only the length-enable bit is readable. */
  function PackLengthEnable(lengthEnabled: bool): (r: Byte)
  {
    if lengthEnabled then 0xFF else 0xBF
  }

  // ---------------------------------------------------------------------
  // Channel 1: square wave with sweep
  // ---------------------------------------------------------------------

  datatype Channel1 = Channel1(
    enabled: bool, dacEnabled: bool,
    sweepPeriod: U3, sweepNegate: bool, sweepShift: U3, sweepTimer: Byte,
    sweepEnabled: bool, sweepShadow: Word,
    duty: U2, lengthCounter: Word,
    volume: Byte, volumeInitial: U4, envelopeAdd: bool, envelopePeriod: U3, envelopeTimer: Byte,
    frequency: U11, lengthEnabled: bool,
    timer: Word, dutyPosition: U3)

  /** The ranges every reachable channel-1 state keeps. */
  predicate Valid1(c: Channel1)
  {
    c.volume <= 15 && c.lengthCounter <= 64 && c.sweepTimer <= 8 && c.sweepShadow < 0x800
    && c.envelopeTimer <= 7 && c.timer <= 0x2000
  }

  function New1(): (c: Channel1)
    ensures Valid1(c) && !c.enabled && !c.dacEnabled
  {
    Channel1(false, false, 0, false, 0, 0, false, 0, 0, 0, 0, 0, false, 0, 0, 0, false, 0, 0)
  }

  /** `tick`: clock the frequency timer and step through the duty pattern. */
  function Tick1(c: Channel1): (r: Channel1)
  {
    var (t, step) := TimerClock(c.timer, SquarePeriod(c.frequency));
    c.(timer := t, dutyPosition := if step then (c.dutyPosition + 1) % 8 else c.dutyPosition)
  }

  /** `tick_length`. */
  function TickLength1(c: Channel1): (r: Channel1)
  {
    var (n, e) := LengthClock(c.lengthCounter, c.lengthEnabled, c.enabled);
    c.(lengthCounter := n, enabled := e)
  }

  /** `tick_envelope`. */
  function TickEnvelope1(c: Channel1): (r: Channel1)
  {
    var (t, v) := EnvelopeClock(c.envelopePeriod, c.envelopeAdd, c.envelopeTimer, c.volume);
    c.(envelopeTimer := t, volume := v)
  }

  /**
   * `calculate_sweep`: the shadow frequency moved by `shadow >> shift` (with
   * 16-bit wrap-around), and the channel disabled if that exceeds 2047.
   */
  function CalculateSweep(c: Channel1): (r: (Channel1, Word))
  {
    var f := SweepTarget(c.sweepShadow, c.sweepShift, c.sweepNegate);
    (if f > 2047 then c.(enabled := false) else c, f)
  }

  /** The next sweep frequency: `shadow -/+ (shadow >> shift)`, wrapping in 16 bits. */
  function SweepTarget(shadow: Word, shift: U3, negate: bool): (r: Word)
  {
    var delta := shadow / Pow2(shift);
    if negate then (shadow - delta) % 0x1_0000 else (shadow + delta) % 0x1_0000
  }

  /** `tick_sweep`. */
  function TickSweep1(c: Channel1): (r: Channel1)
  {
    var t := if c.sweepTimer > 0 then c.sweepTimer - 1 else 0;
    if t != 0 then c.(sweepTimer := t)
    else
      var c1 := c.(sweepTimer := if c.sweepPeriod > 0 then c.sweepPeriod else 8);
      if c1.sweepEnabled && c1.sweepPeriod > 0 then
        var (c2, f) := CalculateSweep(c1);
        if f <= 2047 && c2.sweepShift > 0 then
          CalculateSweep(c2.(frequency := f, sweepShadow := f)).0
        else c2
      else c1
  }

  /** `output`: the duty step times the volume; silent when disabled. */
  function Output1(c: Channel1): (r: Byte)
  {
    if !c.enabled || !c.dacEnabled then 0
    else DutyPatterns[c.duty][c.dutyPosition] * c.volume
  }

  /** `trigger`. */
  function Trigger1(c: Channel1): (r: Channel1)
  {
    var c1 := c.(enabled := c.dacEnabled,
                 lengthCounter := if c.lengthCounter == 0 then 64 else c.lengthCounter,
                 timer := SquarePeriod(c.frequency),
                 envelopeTimer := c.envelopePeriod,
                 volume := c.volumeInitial,
                 sweepShadow := c.frequency,
                 sweepTimer := if c.sweepPeriod > 0 then c.sweepPeriod else 8,
                 sweepEnabled := c.sweepPeriod > 0 || c.sweepShift > 0);
    if c.sweepShift > 0 then CalculateSweep(c1).0 else c1
  }

  /** NR10 read: bit 7 reads as 1 above period, direction and shift. */
  function ReadNr10(c: Channel1): (r: Byte)
  {
    0x80 + c.sweepPeriod * 16 + (if c.sweepNegate then 8 else 0) + c.sweepShift
  }

  function WriteNr10(c: Channel1, value: Byte): (r: Channel1)
  {
    c.(sweepPeriod := (value / 16) % 8, sweepNegate := BitOf(value, 3), sweepShift := value % 8)
  }

  /** NR11 read: only the duty (bits 6-7) is readable. */
  function ReadNr11(c: Channel1): (r: Byte)
  {
    c.duty * 64 + 0x3F
  }

  function WriteNr11(c: Channel1, value: Byte): (r: Channel1)
  {
    c.(duty := value / 64, lengthCounter := 64 - value % 64)
  }

  function ReadNr12(c: Channel1): (r: Byte)
  {
    PackEnvelope(c.volumeInitial, c.envelopeAdd, c.envelopePeriod)
  }

  /** NR12 write; a zero upper five bits (`value & 0xF8 == 0`) turns the DAC and the channel off. */
  function WriteNr12(c: Channel1, value: Byte): (r: Channel1)
  {
    var dac := value / 8 != 0;
    c.(volumeInitial := value / 16, envelopeAdd := BitOf(value, 3), envelopePeriod := value % 8,
       dacEnabled := dac, enabled := if dac then c.enabled else false)
  }

  function WriteNr13(c: Channel1, value: Byte): (r: Channel1)
  {
    c.(frequency := FrequencyLow(c.frequency, value))
  }

  function ReadNr14(c: Channel1): (r: Byte)
  {
    PackLengthEnable(c.lengthEnabled)
  }

  /** NR14 write; bit 7 triggers the channel after the frequency is updated. */
  function WriteNr14(c: Channel1, value: Byte): (r: Channel1)
  {
    var c1 := c.(lengthEnabled := BitOf(value, 6), frequency := FrequencyHigh(c.frequency, value));
    if BitOf(value, 7) then Trigger1(c1) else c1
  }

  // ---------------------------------------------------------------------
  // Channel 2: square wave
  // ---------------------------------------------------------------------

  datatype Channel2 = Channel2(
    enabled: bool, dacEnabled: bool,
    duty: U2, lengthCounter: Word,
    volume: Byte, volumeInitial: U4, envelopeAdd: bool, envelopePeriod: U3, envelopeTimer: Byte,
    frequency: U11, lengthEnabled: bool,
    timer: Word, dutyPosition: U3)

  predicate Valid2(c: Channel2)
  {
    c.volume <= 15 && c.lengthCounter <= 64 && c.envelopeTimer <= 7 && c.timer <= 0x2000
  }

  function New2(): (c: Channel2)
    ensures Valid2(c) && !c.enabled && !c.dacEnabled
  {
    Channel2(false, false, 0, 0, 0, 0, false, 0, 0, 0, false, 0, 0)
  }

  function Tick2(c: Channel2): (r: Channel2)
  {
    var (t, step) := TimerClock(c.timer, SquarePeriod(c.frequency));
    c.(timer := t, dutyPosition := if step then (c.dutyPosition + 1) % 8 else c.dutyPosition)
  }

  function TickLength2(c: Channel2): (r: Channel2)
  {
    var (n, e) := LengthClock(c.lengthCounter, c.lengthEnabled, c.enabled);
    c.(lengthCounter := n, enabled := e)
  }

  function TickEnvelope2(c: Channel2): (r: Channel2)
  {
    var (t, v) := EnvelopeClock(c.envelopePeriod, c.envelopeAdd, c.envelopeTimer, c.volume);
    c.(envelopeTimer := t, volume := v)
  }

  function Output2(c: Channel2): (r: Byte)
  {
    if !c.enabled || !c.dacEnabled then 0
    else DutyPatterns[c.duty][c.dutyPosition] * c.volume
  }

  function Trigger2(c: Channel2): (r: Channel2)
  {
    c.(enabled := c.dacEnabled,
       lengthCounter := if c.lengthCounter == 0 then 64 else c.lengthCounter,
       timer := SquarePeriod(c.frequency),
       envelopeTimer := c.envelopePeriod,
       volume := c.volumeInitial)
  }

  function ReadNr21(c: Channel2): (r: Byte)
  {
    c.duty * 64 + 0x3F
  }

  function WriteNr21(c: Channel2, value: Byte): (r: Channel2)
  {
    c.(duty := value / 64, lengthCounter := 64 - value % 64)
  }

  function ReadNr22(c: Channel2): (r: Byte)
  {
    PackEnvelope(c.volumeInitial, c.envelopeAdd, c.envelopePeriod)
  }

  function WriteNr22(c: Channel2, value: Byte): (r: Channel2)
  {
    var dac := value / 8 != 0;
    c.(volumeInitial := value / 16, envelopeAdd := BitOf(value, 3), envelopePeriod := value % 8,
       dacEnabled := dac, enabled := if dac then c.enabled else false)
  }

  function WriteNr23(c: Channel2, value: Byte): (r: Channel2)
  {
    c.(frequency := FrequencyLow(c.frequency, value))
  }

  function ReadNr24(c: Channel2): (r: Byte)
  {
    PackLengthEnable(c.lengthEnabled)
  }

  function WriteNr24(c: Channel2, value: Byte): (r: Channel2)
  {
    var c1 := c.(lengthEnabled := BitOf(value, 6), frequency := FrequencyHigh(c.frequency, value));
    if BitOf(value, 7) then Trigger2(c1) else c1
  }

  // ---------------------------------------------------------------------
  // Channel 3: wave
  // ---------------------------------------------------------------------

  datatype Channel3 = Channel3(
    enabled: bool, dacEnabled: bool,
    lengthCounter: Word, volumeCode: U2,
    frequency: U11, lengthEnabled: bool,
    waveRam: WaveTable, timer: Word, wavePosition: U5)

  predicate Valid3(c: Channel3)
  {
    c.lengthCounter <= 256 && c.timer <= 0x1000
  }

  function New3(): (c: Channel3)
    ensures Valid3(c) && !c.enabled && !c.dacEnabled
    ensures forall i :: 0 <= i < 16 ==> c.waveRam[i] == 0
  {
    Channel3(false, false, 0, 0, 0, false, [0, 0, 0, 0, 0, 0, 0, 0, 0, 0, 0, 0, 0, 0, 0, 0], 0, 0)
  }

  /** The wave channel's timer period, `(2048 - frequency) * 2`. */
  function WavePeriod(f: U11): (r: Word)
    ensures 2 <= r <= 0x1000
  {
    (2048 - f) * 2
  }

  function Tick3(c: Channel3): (r: Channel3)
  {
    var (t, step) := TimerClock(c.timer, WavePeriod(c.frequency));
    c.(timer := t, wavePosition := if step then (c.wavePosition + 1) % 32 else c.wavePosition)
  }

  function TickLength3(c: Channel3): (r: Channel3)
  {
    var (n, e) := LengthClock(c.lengthCounter, c.lengthEnabled, c.enabled);
    c.(lengthCounter := n, enabled := e)
  }

  /** The right shift applied to a wave sample for each volume code (0 mutes). */
  function VolumeShift(code: U2): (r: nat)
    ensures r <= 4
  {
    match code
    case 0 => 4
    case 1 => 0
    case 2 => 1
    case 3 => 2
  }

  /** The four-bit sample at a position: the high nibble first, then the low one. */
  function WaveSample(ram: WaveTable, position: U5): (r: U4)
  {
    var b := ram[position / 2];
    if position % 2 == 0 then b / 16 else b % 16
  }

  function Output3(c: Channel3): (r: Byte)
  {
    if !c.enabled || !c.dacEnabled then 0
    else WaveSample(c.waveRam, c.wavePosition) / Pow2(VolumeShift(c.volumeCode))
  }

  function Trigger3(c: Channel3): (r: Channel3)
  {
    c.(enabled := c.dacEnabled,
       lengthCounter := if c.lengthCounter == 0 then 256 else c.lengthCounter,
       timer := WavePeriod(c.frequency),
       wavePosition := 0)
  }

  function ReadNr30(c: Channel3): (r: Byte)
  {
    if c.dacEnabled then 0xFF else 0x7F
  }

  function WriteNr30(c: Channel3, value: Byte): (r: Channel3)
  {
    var dac := BitOf(value, 7);
    c.(dacEnabled := dac, enabled := if dac then c.enabled else false)
  }

  function WriteNr31(c: Channel3, value: Byte): (r: Channel3)
  {
    c.(lengthCounter := 256 - value)
  }

  /** NR32 read: the volume code in bits 5-6, all other bits read as 1. */
  function ReadNr32(c: Channel3): (r: Byte)
  {
    c.volumeCode * 32 + 0x9F
  }

  function WriteNr32(c: Channel3, value: Byte): (r: Channel3)
  {
    c.(volumeCode := (value / 32) % 4)
  }

  function WriteNr33(c: Channel3, value: Byte): (r: Channel3)
  {
    c.(frequency := FrequencyLow(c.frequency, value))
  }

  function ReadNr34(c: Channel3): (r: Byte)
  {
    PackLengthEnable(c.lengthEnabled)
  }

  function WriteNr34(c: Channel3, value: Byte): (r: Channel3)
  {
    var c1 := c.(lengthEnabled := BitOf(value, 6), frequency := FrequencyHigh(c.frequency, value));
    if BitOf(value, 7) then Trigger3(c1) else c1
  }

  /** Wave RAM is indexed by `address - 0xFF30`; other addresses are out of bounds. */
  function ReadWaveRam(c: Channel3, address: Word): (r: Byte)
    requires 0xFF30 <= address <= 0xFF3F
  {
    c.waveRam[address - 0xFF30]
  }

  function WriteWaveRam(c: Channel3, address: Word, value: Byte): (r: Channel3)
    requires 0xFF30 <= address <= 0xFF3F
  {
    c.(waveRam := c.waveRam[address - 0xFF30 := value])
  }

  // ---------------------------------------------------------------------
  // Channel 4: noise
  // ---------------------------------------------------------------------

  datatype Channel4 = Channel4(
    enabled: bool, dacEnabled: bool,
    lengthCounter: Word,
    volume: Byte, volumeInitial: U4, envelopeAdd: bool, envelopePeriod: U3, envelopeTimer: Byte,
    clockShift: U4, widthMode: bool, divisorCode: U3,
    lengthEnabled: bool, timer: Word, lfsr: Word)

  predicate Valid4(c: Channel4)
  {
    c.volume <= 15 && c.lengthCounter <= 64 && c.envelopeTimer <= 7 && c.lfsr < 0x8000
  }

  function New4(): (c: Channel4)
    ensures Valid4(c) && !c.enabled && !c.dacEnabled && c.lfsr == 0x7FFF
  {
    Channel4(false, false, 0, 0, 0, false, 0, 0, 0, false, 0, false, 0, 0x7FFF)
  }

  /**
   * `get_timer_period`: the divisor (8 for code 0, else 16 times the code)
   * shifted left by the clock shift in 16 bits, so bits above bit 15 are lost.
   */
  function TimerPeriod4(c: Channel4): (r: Word)
  {
    var divisor := if c.divisorCode == 0 then 8 else c.divisorCode * 16;
    (divisor * Pow2(c.clockShift)) % 0x1_0000
  }

  /** The 16-bit shift drops the period to 0 for large shifts: code 0 with shift 13 is 8 << 13 = 0x1_0000. */
  lemma TimerPeriodTruncates(c: Channel4)
    requires c.divisorCode == 0 && c.clockShift == 13
    ensures TimerPeriod4(c) == 0
  {
  }

  /**
   * One LFSR shift: the XOR of bits 0 and 1 moves into bit 14 (and, in
   * 7-bit width mode, also replaces bit 6).
   */
  function LfsrStep(lfsr: Word, widthMode: bool): (r: Word)
  {
    var x := (lfsr % 2 + (lfsr / 2) % 2) % 2 == 1;
    var l := OrBit(lfsr / 2, 14, x);
    if widthMode then OrBit(ClearBit(l, 6), 6, x) else l
  }

  function Tick4(c: Channel4): (r: Channel4)
  {
    var (t, step) := TimerClock(c.timer, TimerPeriod4(c));
    c.(timer := t, lfsr := if step then LfsrStep(c.lfsr, c.widthMode) else c.lfsr)
  }

  function TickLength4(c: Channel4): (r: Channel4)
  {
    var (n, e) := LengthClock(c.lengthCounter, c.lengthEnabled, c.enabled);
    c.(lengthCounter := n, enabled := e)
  }

  function TickEnvelope4(c: Channel4): (r: Channel4)
  {
    var (t, v) := EnvelopeClock(c.envelopePeriod, c.envelopeAdd, c.envelopeTimer, c.volume);
    c.(envelopeTimer := t, volume := v)
  }

  /** `output`: the volume while bit 0 of the LFSR is clear. */
  function Output4(c: Channel4): (r: Byte)
  {
    if !c.enabled || !c.dacEnabled then 0
    else if c.lfsr % 2 == 0 then c.volume else 0
  }

  function Trigger4(c: Channel4): (r: Channel4)
  {
    c.(enabled := c.dacEnabled,
       lengthCounter := if c.lengthCounter == 0 then 64 else c.lengthCounter,
       timer := TimerPeriod4(c),
       envelopeTimer := c.envelopePeriod,
       volume := c.volumeInitial,
       lfsr := 0x7FFF)
  }

  function WriteNr41(c: Channel4, value: Byte): (r: Channel4)
  {
    c.(lengthCounter := 64 - value % 64)
  }

  function ReadNr42(c: Channel4): (r: Byte)
  {
    PackEnvelope(c.volumeInitial, c.envelopeAdd, c.envelopePeriod)
  }

  function WriteNr42(c: Channel4, value: Byte): (r: Channel4)
  {
    var dac := value / 8 != 0;
    c.(volumeInitial := value / 16, envelopeAdd := BitOf(value, 3), envelopePeriod := value % 8,
       dacEnabled := dac, enabled := if dac then c.enabled else false)
  }

  /** NR43 read: clock shift (bits 4-7), width mode (bit 3), divisor code (bits 0-2). */
  function ReadNr43(c: Channel4): (r: Byte)
  {
    c.clockShift * 16 + (if c.widthMode then 8 else 0) + c.divisorCode
  }

  function WriteNr43(c: Channel4, value: Byte): (r: Channel4)
  {
    c.(clockShift := value / 16, widthMode := BitOf(value, 3), divisorCode := value % 8)
  }

  function ReadNr44(c: Channel4): (r: Byte)
  {
    PackLengthEnable(c.lengthEnabled)
  }

  function WriteNr44(c: Channel4, value: Byte): (r: Channel4)
  {
    var c1 := c.(lengthEnabled := BitOf(value, 6));
    if BitOf(value, 7) then Trigger4(c1) else c1
  }

  // ---------------------------------------------------------------------
  // Properties
  // ---------------------------------------------------------------------

  /** Each channel's frequency timer counts down and, at zero, reloads and advances the waveform; nothing else changes. */
  lemma TickSteps(c1: Channel1, c2: Channel2, c3: Channel3, c4: Channel4)
    ensures Tick1(c1) == if c1.timer <= 1
      then c1.(timer := SquarePeriod(c1.frequency), dutyPosition := (c1.dutyPosition + 1) % 8)
      else c1.(timer := c1.timer - 1)
    ensures Tick2(c2) == if c2.timer <= 1
      then c2.(timer := SquarePeriod(c2.frequency), dutyPosition := (c2.dutyPosition + 1) % 8)
      else c2.(timer := c2.timer - 1)
    ensures Tick3(c3) == if c3.timer <= 1
      then c3.(timer := WavePeriod(c3.frequency), wavePosition := (c3.wavePosition + 1) % 32)
      else c3.(timer := c3.timer - 1)
    ensures Tick4(c4) == if c4.timer <= 1
      then c4.(timer := TimerPeriod4(c4), lfsr := LfsrStep(c4.lfsr, c4.widthMode))
      else c4.(timer := c4.timer - 1)
  {
    TimerClockSpec(c1.timer, SquarePeriod(c1.frequency));
    TimerClockSpec(c2.timer, SquarePeriod(c2.frequency));
    TimerClockSpec(c3.timer, WavePeriod(c3.frequency));
    TimerClockSpec(c4.timer, TimerPeriod4(c4));
  }

  /** The LFSR stays a 15-bit value. */
  lemma LfsrStaysShort(lfsr: Word, widthMode: bool)
    requires lfsr < 0x8000
    ensures LfsrStep(lfsr, widthMode) < 0x8000
  {
    var x := (lfsr % 2 + (lfsr / 2) % 2) % 2 == 1;
    var l := OrBit(lfsr / 2, 14, x);
    assert l < 0x8000;
    if widthMode {
      var k := ClearBit(l, 6);
      assert k <= l;
      SetBit6Below(k);
    }
  }

  /** Setting bit 6 of a 15-bit value leaves it a 15-bit value. */
  lemma SetBit6Below(k: Word)
    requires k < 0x8000
    ensures OrBit(k, 6, true) < 0x8000
  {
    assert Pow2(6) == 64;
    if !WordBit(k, 6) {
      var q := k / 64;
      assert q < 512 && q % 2 == 0;
      assert q <= 510;
      assert k < 64 * q + 64;
    }
  }


  /** In 15-bit mode a non-zero LFSR never becomes zero (it would then stay silent-or-loud forever). */
  lemma LfsrNonZero(lfsr: Word)
    requires 0 < lfsr < 0x8000
    ensures LfsrStep(lfsr, false) != 0
  {
  }

  /** From the reset value 0x7FFF one shift in 15-bit mode gives 0x3FFF, and in width mode 0x3FBF. */
  lemma LfsrFromReset()
    ensures LfsrStep(0x7FFF, false) == 0x3FFF
    ensures LfsrStep(0x7FFF, true) == 0x3FBF
  {
    assert WordBit(0x3FFF, 14) == false;
    assert WordBit(0x3FFF, 6);
  }

  /** A tick that expires the noise timer changes the LFSR from its reset value. */
  lemma NoiseTickShifts(c: Channel4)
    requires c.timer == 1 && c.lfsr == 0x7FFF
    ensures Tick4(c).lfsr != c.lfsr
  {
    LfsrFromReset();
  }

  /** While the envelope period is 0, the envelope clock changes nothing. */
  lemma EnvelopeIdle(c1: Channel1, c2: Channel2, c4: Channel4)
    ensures c1.envelopePeriod == 0 ==> TickEnvelope1(c1) == c1
    ensures c2.envelopePeriod == 0 ==> TickEnvelope2(c2) == c2
    ensures c4.envelopePeriod == 0 ==> TickEnvelope4(c4) == c4
  {
  }

  /** The sweep target moves away from the shadow frequency in the sweep's direction, by `shadow >> shift`. */
  lemma SweepDirection(shadow: Word, shift: U3, negate: bool)
    requires shadow < 0x800
    ensures negate ==> SweepTarget(shadow, shift, negate) == shadow - shadow / Pow2(shift)
    ensures !negate ==> SweepTarget(shadow, shift, negate) == shadow + shadow / Pow2(shift)
    ensures negate ==> SweepTarget(shadow, shift, negate) <= 2047
  {
  }

  /** `calculate_sweep` disables the channel exactly when the target exceeds 2047, and changes nothing else. */
  lemma SweepOverflow(c: Channel1)
    ensures CalculateSweep(c).1 > 2047 ==> CalculateSweep(c).0 == c.(enabled := false)
    ensures CalculateSweep(c).1 <= 2047 ==> CalculateSweep(c).0 == c
  {
  }

  /**
   * A sweep clock changes the frequency only when the sweep timer expires with
   * sweep enabled, a non-zero period and a non-zero shift, and then to the
   * sweep target, which is at most 2047 and becomes the new shadow.
   */
  lemma SweepFrequency(c: Channel1)
    ensures var r := TickSweep1(c);
      r.frequency != c.frequency ==>
        c.sweepTimer <= 1 && c.sweepEnabled && c.sweepPeriod > 0 && c.sweepShift > 0
        && r.frequency == SweepTarget(c.sweepShadow, c.sweepShift, c.sweepNegate)
        && r.frequency <= 2047 && r.sweepShadow == r.frequency
    ensures var r := TickSweep1(c);
      r.(enabled := c.enabled, frequency := c.frequency, sweepShadow := c.sweepShadow,
         sweepTimer := c.sweepTimer) == c
    ensures TickSweep1(c).enabled ==> c.enabled
  {
    var t := if c.sweepTimer > 0 then c.sweepTimer - 1 else 0;
    if t == 0 {
      var c1 := c.(sweepTimer := if c.sweepPeriod > 0 then c.sweepPeriod else 8);
      if c1.sweepEnabled && c1.sweepPeriod > 0 {
        SweepOverflow(c1);
        var (c2, f) := CalculateSweep(c1);
        if f <= 2047 && c2.sweepShift > 0 {
          SweepOverflow(c2.(frequency := f, sweepShadow := f));
        }
      }
    }
  }

  /** Outputs are silent while a channel or its DAC is off, and never exceed 15. */
  lemma OutputBounds(c1: Channel1, c2: Channel2, c3: Channel3, c4: Channel4)
    requires Valid1(c1) && Valid2(c2) && Valid4(c4)
    ensures !c1.enabled || !c1.dacEnabled ==> Output1(c1) == 0
    ensures !c2.enabled || !c2.dacEnabled ==> Output2(c2) == 0
    ensures !c3.enabled || !c3.dacEnabled ==> Output3(c3) == 0
    ensures !c4.enabled || !c4.dacEnabled ==> Output4(c4) == 0
    ensures Output1(c1) <= 15 && Output2(c2) <= 15 && Output3(c3) <= 15 && Output4(c4) <= 15
  {
    DutyCycles();
  }

  /** Volume code 0 mutes the wave channel; code 1 plays the sample at full volume. */
  lemma WaveVolume(c: Channel3)
    requires c.enabled && c.dacEnabled
    ensures c.volumeCode == 0 ==> Output3(c) == 0
    ensures c.volumeCode == 1 ==> Output3(c) == WaveSample(c.waveRam, c.wavePosition)
  {
  }

  /**
   * An envelope register write whose upper five bits are zero turns off both
   * the DAC and the channel; otherwise the DAC is on and `enabled` is kept.
   */
  lemma DacSwitch(c1: Channel1, c2: Channel2, c3: Channel3, c4: Channel4, value: Byte)
    ensures value / 8 == 0 ==> !WriteNr12(c1, value).dacEnabled && !WriteNr12(c1, value).enabled
    ensures value / 8 == 0 ==> !WriteNr22(c2, value).dacEnabled && !WriteNr22(c2, value).enabled
    ensures value / 8 == 0 ==> !WriteNr42(c4, value).dacEnabled && !WriteNr42(c4, value).enabled
    ensures value / 8 != 0 ==> WriteNr12(c1, value).dacEnabled && WriteNr12(c1, value).enabled == c1.enabled
    ensures value / 8 != 0 ==> WriteNr22(c2, value).dacEnabled && WriteNr22(c2, value).enabled == c2.enabled
    ensures value / 8 != 0 ==> WriteNr42(c4, value).dacEnabled && WriteNr42(c4, value).enabled == c4.enabled
    ensures value < 0x80 ==> !WriteNr30(c3, value).dacEnabled && !WriteNr30(c3, value).enabled
    ensures value >= 0x80 ==> WriteNr30(c3, value).dacEnabled && WriteNr30(c3, value).enabled == c3.enabled
  {
  }

  /**
   * A trigger enables the channel exactly when its DAC is on (channel 1 is then
   * disabled again if its first sweep target overflows), reloads a zero length
   * counter to the full length, and restarts the envelope at its initial volume.
   */
  lemma TriggerReloads(c1: Channel1, c2: Channel2, c3: Channel3, c4: Channel4)
    ensures Trigger1(c1).enabled == (c1.dacEnabled && !(c1.sweepShift > 0
      && SweepTarget(c1.frequency, c1.sweepShift, c1.sweepNegate) > 2047))
    ensures Trigger2(c2).enabled == c2.dacEnabled
    ensures Trigger3(c3).enabled == c3.dacEnabled
    ensures Trigger4(c4).enabled == c4.dacEnabled
    ensures Trigger1(c1).lengthCounter == if c1.lengthCounter == 0 then 64 else c1.lengthCounter
    ensures Trigger2(c2).lengthCounter == if c2.lengthCounter == 0 then 64 else c2.lengthCounter
    ensures Trigger3(c3).lengthCounter == if c3.lengthCounter == 0 then 256 else c3.lengthCounter
    ensures Trigger4(c4).lengthCounter == if c4.lengthCounter == 0 then 64 else c4.lengthCounter
    ensures Trigger1(c1).volume == c1.volumeInitial && Trigger1(c1).envelopeTimer == c1.envelopePeriod
    ensures Trigger2(c2).volume == c2.volumeInitial && Trigger2(c2).envelopeTimer == c2.envelopePeriod
    ensures Trigger4(c4).volume == c4.volumeInitial && Trigger4(c4).lfsr == 0x7FFF
    ensures Trigger3(c3).wavePosition == 0
    ensures Trigger1(c1).sweepShadow == c1.frequency && Trigger1(c1).frequency == c1.frequency
  {
  }

  /** Every channel-1 clock keeps the channel's ranges. */
  lemma Channel1Invariant(c: Channel1)
    requires Valid1(c)
    ensures Valid1(Tick1(c)) && Valid1(TickLength1(c)) && Valid1(TickEnvelope1(c))
    ensures Valid1(TickSweep1(c))
  {
    EnvelopeClockSpec(c.envelopePeriod, c.envelopeAdd, c.envelopeTimer, c.volume);
    SweepValid(c);
  }

  lemma SweepValid(c: Channel1)
    requires Valid1(c)
    ensures Valid1(TickSweep1(c))
  {
    var t := if c.sweepTimer > 0 then c.sweepTimer - 1 else 0;
    if t == 0 {
      var c1 := c.(sweepTimer := if c.sweepPeriod > 0 then c.sweepPeriod else 8);
      assert Valid1(c1);
      if c1.sweepEnabled && c1.sweepPeriod > 0 {
        SweepOverflow(c1);
        var (c2, f) := CalculateSweep(c1);
        if f <= 2047 && c2.sweepShift > 0 {
          var c3 := c2.(frequency := f, sweepShadow := f);
          assert Valid1(c3);
          SweepOverflow(c3);
        }
      }
    }
  }

  /** Triggering and every channel-1 register write keep the channel's ranges. */
  lemma Channel1WriteInvariant(c: Channel1, value: Byte)
    requires Valid1(c)
    ensures Valid1(Trigger1(c))
    ensures Valid1(WriteNr10(c, value)) && Valid1(WriteNr11(c, value)) && Valid1(WriteNr12(c, value))
    ensures Valid1(WriteNr13(c, value)) && Valid1(WriteNr14(c, value))
  {
    TriggerValid(c);
    var c1 := c.(lengthEnabled := BitOf(value, 6), frequency := FrequencyHigh(c.frequency, value));
    TriggerValid(c1);
  }

  lemma TriggerValid(c: Channel1)
    requires Valid1(c)
    ensures Valid1(Trigger1(c)) && Trigger1(c).lengthEnabled == c.lengthEnabled
  {
    var c1 := c.(enabled := c.dacEnabled,
                 lengthCounter := if c.lengthCounter == 0 then 64 else c.lengthCounter,
                 timer := SquarePeriod(c.frequency),
                 envelopeTimer := c.envelopePeriod,
                 volume := c.volumeInitial,
                 sweepShadow := c.frequency,
                 sweepTimer := if c.sweepPeriod > 0 then c.sweepPeriod else 8,
                 sweepEnabled := c.sweepPeriod > 0 || c.sweepShift > 0);
    SweepOverflow(c1);
  }

  lemma Channel2Invariant(c: Channel2, value: Byte)
    requires Valid2(c)
    ensures Valid2(Tick2(c)) && Valid2(TickLength2(c)) && Valid2(TickEnvelope2(c)) && Valid2(Trigger2(c))
    ensures Valid2(WriteNr21(c, value)) && Valid2(WriteNr22(c, value))
    ensures Valid2(WriteNr23(c, value)) && Valid2(WriteNr24(c, value))
  {
    EnvelopeClockSpec(c.envelopePeriod, c.envelopeAdd, c.envelopeTimer, c.volume);
  }

  lemma Channel3Invariant(c: Channel3, address: Word, value: Byte)
    requires Valid3(c)
    ensures Valid3(Tick3(c)) && Valid3(TickLength3(c)) && Valid3(Trigger3(c))
    ensures Valid3(WriteNr30(c, value)) && Valid3(WriteNr31(c, value)) && Valid3(WriteNr32(c, value))
    ensures Valid3(WriteNr33(c, value)) && Valid3(WriteNr34(c, value))
    ensures 0xFF30 <= address <= 0xFF3F ==> Valid3(WriteWaveRam(c, address, value))
  {
  }

  lemma Channel4Invariant(c: Channel4, value: Byte)
    requires Valid4(c)
    ensures Valid4(Tick4(c)) && Valid4(TickLength4(c)) && Valid4(TickEnvelope4(c)) && Valid4(Trigger4(c))
    ensures Valid4(WriteNr41(c, value)) && Valid4(WriteNr42(c, value))
    ensures Valid4(WriteNr43(c, value)) && Valid4(WriteNr44(c, value))
  {
    EnvelopeClockSpec(c.envelopePeriod, c.envelopeAdd, c.envelopeTimer, c.volume);
    LfsrStaysShort(c.lfsr, c.widthMode);
  }

  /** The low seven bits of a byte split into bits 4-6, bit 3 and bits 0-2. */
  lemma SweepFields(value: Byte)
    ensures value % 0x80 == ((value / 16) % 8) * 16 + (if BitOf(value, 3) then 8 else 0) + value % 8
  {
    EnvelopeFields(value);
    var q := value / 16;
    assert value % 0x80 == (q % 8) * 16 + value % 16;
  }

  /** A byte splits into its upper four bits, bit 3 and its lower three bits. */
  lemma EnvelopeFields(value: Byte)
    ensures value == (value / 16) * 16 + (if BitOf(value, 3) then 8 else 0) + value % 8
  {
    var q, r := value / 16, value % 16;
    assert value / 8 == 2 * q + r / 8;
    assert BitOf(value, 3) <==> r / 8 == 1;
    assert value % 8 == r % 8;
  }

  /**
   * Read-back of the channel-1 registers: NR10 returns the written value with
   * bit 7 set, NR11 only the duty, NR12 the written value, NR14 only the
   * length-enable bit; NR11 loads `64 - (value & 0x3F)` into the length counter
   * and NR13 sets the low byte of the frequency.
   */
  lemma Registers1(c: Channel1, value: Byte)
    ensures ReadNr10(WriteNr10(c, value)) == 0x80 + value % 0x80
    ensures ReadNr11(WriteNr11(c, value)) == (value / 64) * 64 + 0x3F
    ensures WriteNr11(c, value).lengthCounter == 64 - value % 64
    ensures ReadNr12(WriteNr12(c, value)) == value
    ensures WriteNr13(c, value).frequency % 256 == value
    ensures ReadNr14(WriteNr14(c, value)) == if BitOf(value, 6) then 0xFF else 0xBF
  {
    ReadBack10(c, value);
    ReadBack12(c, value);
    ReadBack14(c, value);
    FrequencyHalves(c.frequency, value);
  }

  lemma ReadBack10(c: Channel1, value: Byte)
    ensures ReadNr10(WriteNr10(c, value)) == 0x80 + value % 0x80
  {
    SweepFields(value);
  }

  lemma ReadBack12(c: Channel1, value: Byte)
    ensures ReadNr12(WriteNr12(c, value)) == value
  {
    EnvelopeFields(value);
  }

  lemma ReadBack14(c: Channel1, value: Byte)
    ensures ReadNr14(WriteNr14(c, value)) == if BitOf(value, 6) then 0xFF else 0xBF
  {
    var c1 := c.(lengthEnabled := BitOf(value, 6), frequency := FrequencyHigh(c.frequency, value));
    TriggerKeepsLengthEnable(c1);
  }

  lemma TriggerKeepsLengthEnable(c: Channel1)
    ensures Trigger1(c).lengthEnabled == c.lengthEnabled
  {
  }

  lemma Registers2(c: Channel2, value: Byte)
    ensures ReadNr21(WriteNr21(c, value)) == (value / 64) * 64 + 0x3F
    ensures WriteNr21(c, value).lengthCounter == 64 - value % 64
    ensures ReadNr22(WriteNr22(c, value)) == value
    ensures WriteNr23(c, value).frequency % 256 == value
    ensures ReadNr24(WriteNr24(c, value)) == if BitOf(value, 6) then 0xFF else 0xBF
  {
    EnvelopeFields(value);
    FrequencyHalves(c.frequency, value);
  }

  /** Read-back of the wave channel's registers and of wave RAM. */
  lemma Registers3(c: Channel3, address: Word, value: Byte)
    ensures ReadNr30(WriteNr30(c, value)) == if value >= 0x80 then 0xFF else 0x7F
    ensures WriteNr31(c, value).lengthCounter == 256 - value
    ensures ReadNr32(WriteNr32(c, value)) == ((value / 32) % 4) * 32 + 0x9F
    ensures WriteNr33(c, value).frequency % 256 == value
    ensures ReadNr34(WriteNr34(c, value)) == if BitOf(value, 6) then 0xFF else 0xBF
    ensures 0xFF30 <= address <= 0xFF3F ==> ReadWaveRam(WriteWaveRam(c, address, value), address) == value
  {
    FrequencyHalves(c.frequency, value);
  }

  lemma Registers4(c: Channel4, value: Byte)
    ensures WriteNr41(c, value).lengthCounter == 64 - value % 64
    ensures ReadNr42(WriteNr42(c, value)) == value
    ensures ReadNr43(WriteNr43(c, value)) == value
    ensures ReadNr44(WriteNr44(c, value)) == if BitOf(value, 6) then 0xFF else 0xBF
  {
    ReadBack42(c, value);
    ReadBack43(c, value);
  }

  lemma ReadBack42(c: Channel4, value: Byte)
    ensures ReadNr42(WriteNr42(c, value)) == value
  {
    EnvelopeFields(value);
  }

  lemma ReadBack43(c: Channel4, value: Byte)
    ensures ReadNr43(WriteNr43(c, value)) == value
  {
    EnvelopeFields(value);
  }
}
