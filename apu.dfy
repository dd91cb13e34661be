/**
 * The audio processing unit: the four channels, the 512 Hz frame sequencer
 * that clocks their length counters, sweep and envelopes, the stereo mixer
 * and the sample buffer, and the sound registers at 0xFF10-0xFF3F.
 */
module Apu {
  import opened Common
  import opened Channels

  /** Output sample rate in Hz. */
  const SampleRate: nat := 44100
  /** CPU clock in Hz (T-cycles per second). */
  const CpuClock: nat := 4194304
  /** T-cycles per frame sequencer step (512 Hz). */
  const FrameSequencerRate: nat := 8192
  /** Length of the sample buffer (interleaved left/right samples). */
  const BufferLength: nat := 4096

  /** `i16` in the source. */
  type I16 = x: int | -0x8000 <= x < 0x8000

  /** The four channels, held by value. */
  datatype Voices = Voices(ch1: Channel1, ch2: Channel2, ch3: Channel3, ch4: Channel4)

  predicate VoicesValid(v: Voices)
  {
    Valid1(v.ch1) && Valid2(v.ch2) && Valid3(v.ch3) && Valid4(v.ch4)
  }

  /** Every channel in its power-on state. */
  function ResetVoices(): (v: Voices)
    ensures VoicesValid(v)
    ensures !v.ch1.enabled && !v.ch2.enabled && !v.ch3.enabled && !v.ch4.enabled
  {
    Voices(New1(), New2(), New3(), New4())
  }

  /** A snapshot of the audio unit. */
  datatype ApuState = ApuState(
    voices: Voices,
    nr50: Byte, nr51: Byte, nr52: Byte,
    sequencerTimer: U32, sequencerStep: Byte, sampleTimer: U32,
    buffer: seq<I16>, bufferPos: nat,
    enabled: bool)

  /** The ranges every reachable state keeps. */
  predicate Valid(s: ApuState)
  {
    VoicesValid(s.voices)
    && s.sequencerTimer < FrameSequencerRate && s.sequencerStep < 8 && s.sampleTimer < CpuClock
    && |s.buffer| == BufferLength && s.bufferPos <= |s.buffer| && s.bufferPos % 2 == 0
  }

  /** `Apu::new`. */
  function PowerOn(): (s: ApuState)
  {
    ApuState(ResetVoices(), 0x77, 0xF3, 0xF1, 0, 0, 0, seq(BufferLength, _ => 0), 0, true)
  }

  /** `Apu::init`: like power-on, but the buffer contents are kept. */
  function InitNext(s: ApuState): (r: ApuState)
  {
    s.(voices := ResetVoices(), nr50 := 0x77, nr51 := 0xF3, nr52 := 0xF1,
       sequencerTimer := 0, sequencerStep := 0, sampleTimer := 0, bufferPos := 0, enabled := true)
  }

  // ---------------------------------------------------------------------
  // Frame sequencer and channel clocks
  // ---------------------------------------------------------------------

  /** The length clock applied to all four channels. */
  function LengthAll(v: Voices): Voices
  {
    Voices(TickLength1(v.ch1), TickLength2(v.ch2), TickLength3(v.ch3), TickLength4(v.ch4))
  }

  /** The clocks one frame sequencer step gives the channels. */
  function SequencerClock(v: Voices, step: Byte): Voices
  {
    if step == 0 || step == 4 then LengthAll(v)
    else if step == 2 || step == 6 then
      var w := LengthAll(v);
      w.(ch1 := TickSweep1(w.ch1))
    else if step == 7 then
      Voices(TickEnvelope1(v.ch1), TickEnvelope2(v.ch2), v.ch3, TickEnvelope4(v.ch4))
    else v
  }

  /** `tick_frame_sequencer`: clock the channels for this step, then advance the step modulo 8. */
  function SequencerNext(s: ApuState): (r: ApuState)
  {
    s.(voices := SequencerClock(s.voices, s.sequencerStep), sequencerStep := (s.sequencerStep + 1) % 8)
  }

  /** One T-cycle of every channel's frequency timer. */
  function ChannelsTick(v: Voices): Voices
  {
    Voices(Tick1(v.ch1), Tick2(v.ch2), Tick3(v.ch3), Tick4(v.ch4))
  }

  /** The frame sequencer part of a tick: count one T-cycle and run a sequencer step every 8192. */
  function SequencerPhase(s: ApuState): (r: ApuState)
  {
    var t := (s.sequencerTimer + 1) % 0x1_0000_0000;
    if t >= FrameSequencerRate then SequencerNext(s.(sequencerTimer := 0))
    else s.(sequencerTimer := t)
  }

  /** The sampling part of a tick: add 44100 per T-cycle and emit a sample on each CPU_CLOCK crossed. */
  function SamplePhase(s: ApuState): (r: ApuState)
  {
    var st := (s.sampleTimer + SampleRate) % 0x1_0000_0000;
    if st >= CpuClock then GenerateNext(s.(sampleTimer := st - CpuClock))
    else s.(sampleTimer := st)
  }

  /** `Apu::tick`, with 32-bit wrap-around on the two timers. */
  function TickNext(s: ApuState): (r: ApuState)
  {
    if !s.enabled then s
    else
      var s1 := SequencerPhase(s);
      SamplePhase(s1.(voices := ChannelsTick(s1.voices)))
  }

  // ---------------------------------------------------------------------
  // Mixer and sample buffer
  // ---------------------------------------------------------------------

  /** `clamp(-32768, 32767)`. */
  function Clamp(x: int): (r: I16)
  {
    if x < -0x8000 then -0x8000 else if x > 0x7FFF then 0x7FFF else x
  }

  /** The channel outputs routed to one side: channel k+1 when bit `base + k` of NR51 is set. */
  function Panned(v: Voices, nr51: Byte, base: nat): (r: nat)
    requires base == 0 || base == 4
  {
    (if BitOf(nr51, base) then Output1(v.ch1) else 0)
    + (if BitOf(nr51, base + 1) then Output2(v.ch2) else 0)
    + (if BitOf(nr51, base + 2) then Output3(v.ch3) else 0)
    + (if BitOf(nr51, base + 3) then Output4(v.ch4) else 0)
  }

  /**
   * One side's sample: the panned sum times the master volume (1-8) divided
   * by 4, scaled by 256 and clamped to 16 bits. The sum is never negative, so
   * the source's truncating division agrees with Dafny's.
   */
  function Scale(sum: nat, volume: nat): (r: I16)
  {
    Clamp((sum * volume) / 4 * 256)
  }

  /** `generate_sample`'s mix: (left, right). Left uses NR51 bits 4-7 and NR50 bits 4-6, right bits 0-3 and 0-2. */
  function Mix(v: Voices, nr50: Byte, nr51: Byte): (I16, I16)
  {
    (Scale(Panned(v, nr51, 4), (nr50 / 16) % 8 + 1), Scale(Panned(v, nr51, 0), nr50 % 8 + 1))
  }

  /** `generate_sample`: append the stereo pair while both slots fit in the buffer. */
  function GenerateNext(s: ApuState): (r: ApuState)
  {
    if s.bufferPos >= |s.buffer| then s
    else
      var (left, right) := Mix(s.voices, s.nr50, s.nr51);
      PushPair(s, left, right)
  }

  /** Store a stereo pair at the write position when both slots fit. */
  function PushPair(s: ApuState, left: I16, right: I16): (r: ApuState)
  {
    if s.bufferPos + 1 < |s.buffer| then
      s.(buffer := s.buffer[s.bufferPos := left][s.bufferPos + 1 := right], bufferPos := s.bufferPos + 2)
    else s
  }

  /** The samples produced since the buffer was last taken. */
  function AudioOut(s: ApuState): seq<I16>
    requires s.bufferPos <= |s.buffer|
  {
    s.buffer[..s.bufferPos]
  }

  // ---------------------------------------------------------------------
  // Registers
  // ---------------------------------------------------------------------

  /** NR52 read: bit 7 from NR52, bits 4-6 always set, bits 0-3 the channels' `enabled` flags. */
  function Nr52Status(s: ApuState): (r: Byte)
  {
    var v := s.voices;
    (s.nr52 / 128) * 128 + 0x70 + EnableNibble(v.ch1.enabled, v.ch2.enabled, v.ch3.enabled, v.ch4.enabled)
  }

  /** True for the wave RAM addresses 0xFF30-0xFF3F. */
  predicate IsWaveRam(a: Word)
  {
    0xFF30 <= a <= 0xFF3F
  }

  /** `Apu::read`: write-only and unmapped registers read 0xFF. */
  function ReadOf(s: ApuState, a: Word): (r: Byte)
  {
    var v := s.voices;
    if a == 0xFF10 then ReadNr10(v.ch1)
    else if a == 0xFF11 then ReadNr11(v.ch1)
    else if a == 0xFF12 then ReadNr12(v.ch1)
    else if a == 0xFF14 then ReadNr14(v.ch1)
    else if a == 0xFF16 then ReadNr21(v.ch2)
    else if a == 0xFF17 then ReadNr22(v.ch2)
    else if a == 0xFF19 then ReadNr24(v.ch2)
    else if a == 0xFF1A then ReadNr30(v.ch3)
    else if a == 0xFF1C then ReadNr32(v.ch3)
    else if a == 0xFF1E then ReadNr34(v.ch3)
    else if IsWaveRam(a) then ReadWaveRam(v.ch3, a)
    else if a == 0xFF21 then ReadNr42(v.ch4)
    else if a == 0xFF22 then ReadNr43(v.ch4)
    else if a == 0xFF23 then ReadNr44(v.ch4)
    else if a == 0xFF24 then s.nr50
    else if a == 0xFF25 then s.nr51
    else if a == 0xFF26 then Nr52Status(s)
    else 0xFF
  }

  /** A write to one of channel 1's or channel 2's registers. */
  function WriteSquare(v: Voices, a: Word, value: Byte): Voices
  {
    if a == 0xFF10 then v.(ch1 := WriteNr10(v.ch1, value))
    else if a == 0xFF11 then v.(ch1 := WriteNr11(v.ch1, value))
    else if a == 0xFF12 then v.(ch1 := WriteNr12(v.ch1, value))
    else if a == 0xFF13 then v.(ch1 := WriteNr13(v.ch1, value))
    else if a == 0xFF14 then v.(ch1 := WriteNr14(v.ch1, value))
    else if a == 0xFF16 then v.(ch2 := WriteNr21(v.ch2, value))
    else if a == 0xFF17 then v.(ch2 := WriteNr22(v.ch2, value))
    else if a == 0xFF18 then v.(ch2 := WriteNr23(v.ch2, value))
    else if a == 0xFF19 then v.(ch2 := WriteNr24(v.ch2, value))
    else v
  }

  /** A write to one of channel 3's, wave RAM's or channel 4's registers. */
  function WriteWaveNoise(v: Voices, a: Word, value: Byte): Voices
  {
    if a == 0xFF1A then v.(ch3 := WriteNr30(v.ch3, value))
    else if a == 0xFF1B then v.(ch3 := WriteNr31(v.ch3, value))
    else if a == 0xFF1C then v.(ch3 := WriteNr32(v.ch3, value))
    else if a == 0xFF1D then v.(ch3 := WriteNr33(v.ch3, value))
    else if a == 0xFF1E then v.(ch3 := WriteNr34(v.ch3, value))
    else if IsWaveRam(a) then v.(ch3 := WriteWaveRam(v.ch3, a, value))
    else if a == 0xFF20 then v.(ch4 := WriteNr41(v.ch4, value))
    else if a == 0xFF21 then v.(ch4 := WriteNr42(v.ch4, value))
    else if a == 0xFF22 then v.(ch4 := WriteNr43(v.ch4, value))
    else if a == 0xFF23 then v.(ch4 := WriteNr44(v.ch4, value))
    else v
  }

  /**
   * `Apu::write`. While the unit is off only NR52 and wave RAM take writes.
   * Writing NR52 switches the unit on or off with bit 7; switching it off
   * resets every channel and clears NR50 and NR51.
   */
  function WriteNext(s: ApuState, a: Word, value: Byte): (r: ApuState)
  {
    if !s.enabled && a != 0xFF26 && !IsWaveRam(a) then s
    else if a == 0xFF24 then s.(nr50 := value)
    else if a == 0xFF25 then s.(nr51 := value)
    else if a == 0xFF26 then
      var on := BitOf(value, 7);
      var s1 := s.(enabled := on, nr52 := if on then 0x80 else 0);
      if s.enabled && !on then s1.(voices := ResetVoices(), nr50 := 0, nr51 := 0) else s1
    else if a < 0xFF1A then s.(voices := WriteSquare(s.voices, a, value))
    else s.(voices := WriteWaveNoise(s.voices, a, value))
  }

  // ---------------------------------------------------------------------
  // Properties
  // ---------------------------------------------------------------------

  /** Power-on: the unit is on with NR50 = 0x77 and NR51 = 0xF3, and NR52 reads 0xF0. */
  lemma PowerOnState()
    ensures Valid(PowerOn())
    ensures PowerOn().enabled && PowerOn().nr50 == 0x77 && PowerOn().nr51 == 0xF3
    ensures ReadOf(PowerOn(), 0xFF26) == 0xF0
    ensures AudioOut(PowerOn()) == []
  {
    var s := PowerOn();
    assert s.bufferPos == 0 && |s.buffer| == BufferLength;
    assert Valid(s);
    PowerOnStatus(s);
  }

  lemma PowerOnStatus(s: ApuState)
    requires s.nr52 == 0xF1 && s.voices == ResetVoices()
    ensures ReadOf(s, 0xFF26) == 0xF0
  {
    assert Nr52Status(s) == 0xF0;
  }

  /** `init` restores the power-on registers and empties the output, keeping the buffer storage. */
  lemma InitState(s: ApuState)
    requires |s.buffer| == BufferLength
    ensures Valid(InitNext(s))
    ensures InitNext(s) == PowerOn().(buffer := s.buffer)
    ensures AudioOut(InitNext(s)) == []
  {
  }

  /** Ticking the unit while it is switched off changes nothing. */
  lemma TickDisabled(s: ApuState)
    requires !s.enabled
    ensures TickNext(s) == s
  {
  }

  /**
   * The frame sequencer schedule: length counters are clocked on the even
   * steps, the sweep on steps 2 and 6 (after the length clock), the envelopes
   * of channels 1, 2 and 4 on step 7 only, and steps 1, 3 and 5 do nothing.
   */
  lemma SequencerSchedule(v: Voices, step: Byte)
    requires step < 8
    ensures var r := SequencerClock(v, step);
      r.ch1 == (if step % 4 == 2 then TickSweep1(TickLength1(v.ch1))
                else if step % 2 == 0 then TickLength1(v.ch1)
                else if step == 7 then TickEnvelope1(v.ch1) else v.ch1)
    ensures var r := SequencerClock(v, step);
      r.ch2 == (if step % 2 == 0 then TickLength2(v.ch2)
                else if step == 7 then TickEnvelope2(v.ch2) else v.ch2)
    ensures var r := SequencerClock(v, step);
      r.ch3 == (if step % 2 == 0 then TickLength3(v.ch3) else v.ch3)
    ensures var r := SequencerClock(v, step);
      r.ch4 == (if step % 2 == 0 then TickLength4(v.ch4)
                else if step == 7 then TickEnvelope4(v.ch4) else v.ch4)
    ensures step == 1 || step == 3 || step == 5 ==> SequencerClock(v, step) == v
  {
  }

  /** Every sequencer step keeps the channels' ranges. */
  lemma SequencerValid(v: Voices, step: Byte)
    requires VoicesValid(v)
    ensures VoicesValid(SequencerClock(v, step))
  {
    Channel1Invariant(v.ch1);
    Channel1Invariant(TickLength1(v.ch1));
    Channel2Invariant(v.ch2, 0);
    Channel3Invariant(v.ch3, 0xFF30, 0);
    Channel4Invariant(v.ch4, 0);
  }

  /** The channels' frequency timers keep the channels' ranges. */
  lemma ChannelsTickValid(v: Voices)
    requires VoicesValid(v)
    ensures VoicesValid(ChannelsTick(v))
  {
    Channel1Invariant(v.ch1);
    Channel2Invariant(v.ch2, 0);
    Channel3Invariant(v.ch3, 0xFF30, 0);
    Channel4Invariant(v.ch4, 0);
  }

  /**
   * Each sample generation appends one stereo pair to the output while two
   * slots remain and otherwise leaves the output alone.
   */
  lemma SampleAppends(s: ApuState)
    requires Valid(s)
    ensures var r := GenerateNext(s);
      r.bufferPos <= |r.buffer| &&
      AudioOut(r) == if s.bufferPos + 2 <= |s.buffer|
        then AudioOut(s) + [Mix(s.voices, s.nr50, s.nr51).0, Mix(s.voices, s.nr50, s.nr51).1]
        else AudioOut(s)
  {
    if s.bufferPos + 2 <= |s.buffer| {
      var (left, right) := Mix(s.voices, s.nr50, s.nr51);
      AppendPair(s.buffer, s.bufferPos, left, right);
    }
  }

  /** Writing a pair at p and p + 1 extends the prefix of length p by that pair. */
  lemma AppendPair(b: seq<I16>, p: nat, left: I16, right: I16)
    requires p + 2 <= |b|
    ensures b[p := left][p + 1 := right][..p + 2] == b[..p] + [left, right]
  {
  }

  /** Sample generation keeps every range and changes only the buffer and the write position. */
  lemma SampleValid(s: ApuState)
    requires Valid(s)
    ensures Valid(GenerateNext(s))
    ensures GenerateNext(s).(buffer := s.buffer, bufferPos := s.bufferPos) == s
  {
    if s.bufferPos < |s.buffer| {
      var (left, right) := Mix(s.voices, s.nr50, s.nr51);
      PushValid(s, left, right);
    }
  }

  lemma PushValid(s: ApuState, left: I16, right: I16)
    requires Valid(s)
    ensures Valid(PushPair(s, left, right))
    ensures PushPair(s, left, right).(buffer := s.buffer, bufferPos := s.bufferPos) == s
  {
    if s.bufferPos + 1 < |s.buffer| {
      assert s.bufferPos + 2 <= |s.buffer|;
    }
  }

  /** Sample generation does not look at or change the sample timer. */
  lemma GenerateKeepsTimer(s: ApuState, t: U32)
    ensures GenerateNext(s.(sampleTimer := t)) == GenerateNext(s).(sampleTimer := t)
  {
  }

  /**
   * The frame sequencer part of a tick counts modulo 8192 and, when it wraps,
   * runs the current step and advances the step modulo 8.
   */
  lemma SequencerPhaseSpec(s: ApuState)
    requires Valid(s)
    ensures var r := SequencerPhase(s);
      Valid(r) && r.sequencerTimer == (s.sequencerTimer + 1) % FrameSequencerRate
      && r.sequencerStep == (if s.sequencerTimer + 1 == FrameSequencerRate
                             then (s.sequencerStep + 1) % 8 else s.sequencerStep)
      && r.voices == (if s.sequencerTimer + 1 == FrameSequencerRate
                      then SequencerClock(s.voices, s.sequencerStep) else s.voices)
      && r.(voices := s.voices, sequencerTimer := s.sequencerTimer, sequencerStep := s.sequencerStep) == s
  {
    SequencerValid(s.voices, s.sequencerStep);
  }

  /**
   * The sampling part of a tick advances the sample timer by 44100 modulo
   * CPU_CLOCK and generates a sample exactly when it wraps.
   */
  lemma SamplePhaseSpec(s: ApuState)
    requires Valid(s)
    ensures var r := SamplePhase(s);
      Valid(r) && r.sampleTimer == (s.sampleTimer + SampleRate) % CpuClock
      && r.(sampleTimer := s.sampleTimer) == (if s.sampleTimer + SampleRate >= CpuClock
                                             then GenerateNext(s) else s)
  {
    var st := s.sampleTimer + SampleRate;
    assert st < 0x1_0000_0000;
    if st >= CpuClock {
      var t := s.(sampleTimer := st - CpuClock);
      assert Valid(t);
      SampleValid(t);
      GenerateKeepsTimer(s, st - CpuClock);
      assert SamplePhase(s) == GenerateNext(t) == GenerateNext(s).(sampleTimer := st - CpuClock);
    } else {
      assert SamplePhase(s) == s.(sampleTimer := st);
    }
  }

  /**
   * One enabled tick: the frame sequencer timer counts modulo 8192 and the
   * step advances modulo 8 when it wraps; the sample timer advances by 44100
   * modulo CPU_CLOCK; the output grows only when the sample timer wraps; the
   * registers are untouched and every range is kept.
   */
  lemma TickTimers(s: ApuState)
    requires Valid(s) && s.enabled
    ensures Valid(TickNext(s))
    ensures TickNext(s).sequencerTimer == (s.sequencerTimer + 1) % FrameSequencerRate
    ensures TickNext(s).sequencerStep ==
      if s.sequencerTimer + 1 == FrameSequencerRate then (s.sequencerStep + 1) % 8 else s.sequencerStep
    ensures TickNext(s).sampleTimer == (s.sampleTimer + SampleRate) % CpuClock
    ensures s.sampleTimer + SampleRate < CpuClock ==> TickNext(s).bufferPos == s.bufferPos
    ensures var r := TickNext(s);
      r.nr50 == s.nr50 && r.nr51 == s.nr51 && r.nr52 == s.nr52 && r.enabled
  {
    var s1 := SequencerPhase(s);
    SequencerPhaseSpec(s);
    var s2 := s1.(voices := ChannelsTick(s1.voices));
    ChannelsTickValid(s1.voices);
    SamplePhaseSpec(s2);
    if s2.sampleTimer + SampleRate >= CpuClock {
      SampleValid(s2);
    }
  }

  /** The clamp never engages: each side is a multiple of 256 between 0 and 30720 (15 * 4 * 8 / 4 * 256). */
  lemma MixRange(v: Voices, nr50: Byte, nr51: Byte)
    requires VoicesValid(v)
    ensures var (left, right) := Mix(v, nr50, nr51);
      0 <= left <= 30720 && left % 256 == 0 && 0 <= right <= 30720 && right % 256 == 0
  {
    OutputBounds(v.ch1, v.ch2, v.ch3, v.ch4);
    ScaleRange(Panned(v, nr51, 4), (nr50 / 16) % 8 + 1);
    ScaleRange(Panned(v, nr51, 0), nr50 % 8 + 1);
  }

  lemma ScaleRange(sum: nat, volume: nat)
    requires sum <= 60 && 1 <= volume <= 8
    ensures 0 <= Scale(sum, volume) <= 30720 && Scale(sum, volume) % 256 == 0
  {
    var p := sum * volume;
    assert p <= 60 * volume <= 480;
    var q := p / 4;
    assert q <= 120;
    DivMod256(q, 0);
    assert Scale(sum, volume) == 256 * q;
  }

  /** Nothing panned, or every channel off, gives silence on both sides. */
  lemma MixSilence(v: Voices, nr50: Byte, nr51: Byte)
    ensures nr51 == 0 ==> Mix(v, nr50, nr51) == (0, 0)
    ensures !v.ch1.enabled && !v.ch2.enabled && !v.ch3.enabled && !v.ch4.enabled ==>
      Mix(v, nr50, nr51) == (0, 0)
  {
    if nr51 == 0 || (!v.ch1.enabled && !v.ch2.enabled && !v.ch3.enabled && !v.ch4.enabled) {
      assert Panned(v, nr51, 0) == 0 && Panned(v, nr51, 4) == 0;
    }
  }

  /** The bits of 16 * h + l: bits 0-3 are those of l, bits 4-7 those of h. */
  lemma NibbleBit(h: nat, l: nat, k: nat)
    requires l < 16 && 16 * h + l < 256 && k < 4
    ensures BitOf(16 * h + l, k) == BitOf(l, k)
    ensures BitOf(16 * h + l, 4 + k) == BitOf(h, k)
  {
    LowNibbleBit(h, l, k);
    HighNibbleBit(h, l, k);
  }

  lemma LowNibbleBit(h: nat, l: nat, k: nat)
    requires l < 16 && 16 * h + l < 256 && k < 4
    ensures BitOf(16 * h + l, k) == BitOf(l, k)
  {
    if k == 0 { LowBit0(h, l); }
    else if k == 1 { LowBit1(h, l); }
    else if k == 2 { LowBit2(h, l); }
    else { LowBit3(h, l); }
  }

  lemma LowBit0(h: nat, l: nat)
    requires l < 16 && 16 * h + l < 256
    ensures BitOf(16 * h + l, 0) == BitOf(l, 0)
  {
    DivMod2(8 * h + l / 2, l % 2);
  }

  lemma LowBit1(h: nat, l: nat)
    requires l < 16 && 16 * h + l < 256
    ensures BitOf(16 * h + l, 1) == BitOf(l, 1)
  {
    DivMod2(8 * h + l / 2, l % 2);
    DivMod2(4 * h, (l / 2) % 2);
  }

  lemma LowBit2(h: nat, l: nat)
    requires l < 16 && 16 * h + l < 256
    ensures BitOf(16 * h + l, 2) == BitOf(l, 2)
  {
    DivMod4(4 * h + l / 4, l % 4);
    DivMod2(2 * h, (l / 4) % 2);
  }

  lemma LowBit3(h: nat, l: nat)
    requires l < 16 && 16 * h + l < 256
    ensures BitOf(16 * h + l, 3) == BitOf(l, 3)
  {
    DivMod8(2 * h + l / 8, l % 8);
    DivMod2(h, l / 8);
  }

  /** Quotient and remainder of 4 * k + t and 8 * k + t. */
  lemma DivMod4(k: int, t: int)
    requires 0 <= t < 4
    ensures (4 * k + t) / 4 == k && (4 * k + t) % 4 == t
  {
  }

  lemma DivMod8(k: int, t: int)
    requires 0 <= t < 8
    ensures (8 * k + t) / 8 == k && (8 * k + t) % 8 == t
  {
  }

  lemma HighNibbleBit(h: nat, l: nat, k: nat)
    requires l < 16 && 16 * h + l < 256 && k < 4
    ensures BitOf(16 * h + l, 4 + k) == BitOf(h, k)
  {
    var v := 16 * h + l;
    DivMod16(h, l);
    if k == 1 {
      assert v / 32 == h / 2;
    } else if k == 2 {
      assert v / 64 == h / 4;
    } else if k == 3 {
      assert v / 128 == h / 8;
    }
  }

  /** With the same panning and master volume on both sides, left and right are equal. */
  lemma MixBalanced(v: Voices, nr50: Byte, nr51: Byte)
    requires nr51 / 16 == nr51 % 16 && (nr50 / 16) % 8 == nr50 % 8
    ensures Mix(v, nr50, nr51).0 == Mix(v, nr50, nr51).1
  {
    forall k | 0 <= k < 4
      ensures BitOf(nr51, 4 + k) == BitOf(nr51, k)
    {
      NibbleBit(nr51 / 16, nr51 % 16, k);
    }
  }

  /** NR52 reads bit 7 from NR52, bits 4-6 as 1 and bits 0-3 as the four channels' `enabled` flags. */
  lemma StatusBits(s: ApuState)
    ensures var r := ReadOf(s, 0xFF26);
      BitOf(r, 4) && BitOf(r, 5) && BitOf(r, 6) && (BitOf(r, 7) <==> BitOf(s.nr52, 7))
    ensures var r := ReadOf(s, 0xFF26);
      (BitOf(r, 0) <==> s.voices.ch1.enabled) && (BitOf(r, 1) <==> s.voices.ch2.enabled)
      && (BitOf(r, 2) <==> s.voices.ch3.enabled) && (BitOf(r, 3) <==> s.voices.ch4.enabled)
  {
    var v := s.voices;
    var e := EnableNibble(v.ch1.enabled, v.ch2.enabled, v.ch3.enabled, v.ch4.enabled);
    var h := (s.nr52 / 128) * 8 + 7;
    assert ReadOf(s, 0xFF26) == 16 * h + e;
    EnableNibbleBits(v.ch1.enabled, v.ch2.enabled, v.ch3.enabled, v.ch4.enabled);
    StatusHigh(s.nr52);
    NibbleBit(h, e, 0);
    NibbleBit(h, e, 1);
    NibbleBit(h, e, 2);
    NibbleBit(h, e, 3);
  }

  /** The low nibble of NR52: one bit per channel. */
  function EnableNibble(e1: bool, e2: bool, e3: bool, e4: bool): nat
  {
    (if e1 then 1 else 0) + (if e2 then 2 else 0) + (if e3 then 4 else 0) + (if e4 then 8 else 0)
  }

  lemma EnableNibbleBits(e1: bool, e2: bool, e3: bool, e4: bool)
    ensures EnableNibble(e1, e2, e3, e4) < 16
    ensures var e := EnableNibble(e1, e2, e3, e4);
      (BitOf(e, 0) <==> e1) && (BitOf(e, 1) <==> e2) && (BitOf(e, 2) <==> e3) && (BitOf(e, 3) <==> e4)
  {
  }

  /** The high nibble of NR52: the power bit over three fixed 1 bits. */
  lemma StatusHigh(nr52: Byte)
    ensures var h := (nr52 / 128) * 8 + 7;
      h < 16 && BitOf(h, 0) && BitOf(h, 1) && BitOf(h, 2) && (BitOf(h, 3) <==> BitOf(nr52, 7))
  {
  }

  /** While the unit is off, writes other than to NR52 and wave RAM are dropped. */
  lemma WritesWhileOff(s: ApuState, a: Word, value: Byte)
    requires !s.enabled
    ensures a != 0xFF26 && !IsWaveRam(a) ==> WriteNext(s, a, value) == s
    ensures IsWaveRam(a) ==> ReadOf(WriteNext(s, a, value), a) == value
  {
  }

  /**
   * Clearing bit 7 of NR52 while the unit is on switches it off, resets every
   * channel (wave RAM included) and clears NR50 and NR51; NR52 then reads 0x70.
   * Setting bit 7 while it is off switches it on and changes nothing else.
   */
  lemma PowerSwitch(s: ApuState, value: Byte)
    ensures s.enabled && !BitOf(value, 7) ==>
      var r := WriteNext(s, 0xFF26, value);
      !r.enabled && r.voices == ResetVoices() && r.nr50 == 0 && r.nr51 == 0 && ReadOf(r, 0xFF26) == 0x70
    ensures !s.enabled && BitOf(value, 7) ==>
      WriteNext(s, 0xFF26, value) == s.(enabled := true, nr52 := 0x80)
    ensures !s.enabled && !BitOf(value, 7) ==>
      WriteNext(s, 0xFF26, value) == s.(nr52 := 0)
  {
  }

  /** A register write changes only the channels and the master registers, and keeps every range. */
  lemma WriteValid(s: ApuState, a: Word, value: Byte)
    requires Valid(s)
    ensures Valid(WriteNext(s, a, value))
    ensures var r := WriteNext(s, a, value);
      r.(voices := s.voices, nr50 := s.nr50, nr51 := s.nr51, nr52 := s.nr52, enabled := s.enabled) == s
  {
    WriteSquareValid(s.voices, a, value);
    WriteWaveNoiseValid(s.voices, a, value);
  }

  lemma WriteSquareValid(v: Voices, a: Word, value: Byte)
    requires VoicesValid(v)
    ensures VoicesValid(WriteSquare(v, a, value))
  {
    Channel1WriteInvariant(v.ch1, value);
    Channel2Invariant(v.ch2, value);
  }

  lemma WriteWaveNoiseValid(v: Voices, a: Word, value: Byte)
    requires VoicesValid(v)
    ensures VoicesValid(WriteWaveNoise(v, a, value))
  {
    if a <= 0xFF1E || IsWaveRam(a) {
      Channel3Invariant(v.ch3, a, value);
    } else {
      Channel4Invariant(v.ch4, value);
    }
  }

  /** NR50, NR51 and wave RAM read back what was written while the unit is on. */
  lemma MasterReadBack(s: ApuState, a: Word, value: Byte)
    requires s.enabled
    ensures ReadOf(WriteNext(s, 0xFF24, value), 0xFF24) == value
    ensures ReadOf(WriteNext(s, 0xFF25, value), 0xFF25) == value
    ensures IsWaveRam(a) ==> ReadOf(WriteNext(s, a, value), a) == value
  {
  }

  // ---------------------------------------------------------------------
  // The audio unit as an object
  // ---------------------------------------------------------------------

  class Apu {
    /** The channels `ch1` .. `ch4`, which the source embeds by value. */
    var voices: Voices
    var nr50: Byte
    var nr51: Byte
    var nr52: Byte
    var frameSequencerTimer: U32
    var frameSequencerStep: Byte
    var sampleTimer: U32
    const audioBuffer: array<I16>
    var bufferPos: nat
    var enabled: bool

    function State(): ApuState
      reads this, audioBuffer
    {
      ApuState(voices, nr50, nr51, nr52,
               frameSequencerTimer, frameSequencerStep, sampleTimer,
               audioBuffer[..], bufferPos, enabled)
    }

    /** `Apu::new`. */
    constructor ()
      ensures State() == PowerOn() && fresh(audioBuffer)
    {
      voices := Voices(New1(), New2(), New3(), New4());
      nr50, nr51, nr52 := 0x77, 0xF3, 0xF1;
      frameSequencerTimer, frameSequencerStep, sampleTimer := 0, 0, 0;
      audioBuffer := new I16[BufferLength](_ => 0);
      bufferPos := 0;
      enabled := true;
    }

    method Init()
      modifies this
      ensures State() == InitNext(old(State()))
    {
      voices := Voices(New1(), New2(), New3(), New4());
      nr50, nr51, nr52 := 0x77, 0xF3, 0xF1;
      frameSequencerTimer, frameSequencerStep, sampleTimer := 0, 0, 0;
      bufferPos := 0;
      enabled := true;
    }

    /** `Apu::tick`: one T-cycle. */
    method Tick()
      modifies this, audioBuffer
      ensures State() == TickNext(old(State()))
    {
      if !enabled {
        return;
      }
      ClockFrameSequencer();
      voices := Voices(Tick1(voices.ch1), Tick2(voices.ch2), Tick3(voices.ch3), Tick4(voices.ch4));
      ClockSample();
    }

    /** The frame sequencer timer of `tick`. */
    method ClockFrameSequencer()
      modifies this
      ensures State() == SequencerPhase(old(State()))
    {
      frameSequencerTimer := (frameSequencerTimer + 1) % 0x1_0000_0000;
      if frameSequencerTimer >= FrameSequencerRate {
        frameSequencerTimer := 0;
        TickFrameSequencer();
      }
    }

    /** The sample timer of `tick`. */
    method ClockSample()
      modifies this, audioBuffer
      ensures State() == SamplePhase(old(State()))
    {
      sampleTimer := (sampleTimer + SampleRate) % 0x1_0000_0000;
      if sampleTimer >= CpuClock {
        sampleTimer := sampleTimer - CpuClock;
        GenerateSample();
      }
    }

    method TickFrameSequencer()
      modifies this
      ensures State() == SequencerNext(old(State()))
    {
      var step := frameSequencerStep;
      var v := voices;
      if step == 0 || step == 4 {
        voices := Voices(TickLength1(v.ch1), TickLength2(v.ch2), TickLength3(v.ch3), TickLength4(v.ch4));
      } else if step == 2 || step == 6 {
        voices := Voices(TickSweep1(TickLength1(v.ch1)), TickLength2(v.ch2), TickLength3(v.ch3),
                         TickLength4(v.ch4));
      } else if step == 7 {
        voices := Voices(TickEnvelope1(v.ch1), TickEnvelope2(v.ch2), v.ch3, TickEnvelope4(v.ch4));
      }
      frameSequencerStep := (frameSequencerStep + 1) % 8;
    }

    method GenerateSample()
      modifies this, audioBuffer
      ensures State() == GenerateNext(old(State()))
    {
      if bufferPos >= audioBuffer.Length {
        return;
      }
      var (left, right) := Mix(voices, nr50, nr51);
      if bufferPos + 1 < audioBuffer.Length {
        audioBuffer[bufferPos] := left;
        audioBuffer[bufferPos + 1] := right;
        bufferPos := bufferPos + 2;
      }
    }

    /** `get_audio_buffer`: the samples written so far; the write position starts again at 0. */
    method GetAudioBuffer() returns (samples: seq<I16>)
      requires bufferPos <= audioBuffer.Length
      modifies this
      ensures samples == AudioOut(old(State()))
      ensures State() == old(State()).(bufferPos := 0)
    {
      samples := audioBuffer[..bufferPos];
      bufferPos := 0;
    }

    method Write(a: Word, value: Byte)
      modifies this
      ensures State() == WriteNext(old(State()), a, value)
    {
      if !enabled && a != 0xFF26 && !IsWaveRam(a) {
        return;
      }
      if a == 0xFF24 {
        nr50 := value;
      } else if a == 0xFF25 {
        nr51 := value;
      } else if a == 0xFF26 {
        var wasEnabled := enabled;
        enabled := BitOf(value, 7);
        nr52 := if enabled then 0x80 else 0;
        if wasEnabled && !enabled {
          voices := Voices(New1(), New2(), New3(), New4());
          nr50 := 0;
          nr51 := 0;
        }
      } else if a < 0xFF1A {
        voices := WriteSquare(voices, a, value);
      } else {
        voices := WriteWaveNoise(voices, a, value);
      }
    }
  }
}
