/**
 * The LCD registers 0xFF40-0xFF4B: LCDC (control bits), STAT (mode in bits
 * 0-1, the LY=LYC flag in bit 2, interrupt enables in bits 3-6), the scroll
 * and window positions, LY and LYC, and the three palettes. The PPU drives
 * LY and the mode; the CPU reads and writes the rest through `read`/`write`.
 */
module Lcd {
  import opened Common

  /** The four PPU modes, with the values they take in STAT bits 0-1. */
  datatype PpuMode = HBlank | VBlank | OamScan | Transfer

  /** `mode as u8`. */
  function ModeValue(m: PpuMode): (r: Byte)
    ensures r < 4
  {
    match m
    case HBlank => 0
    case VBlank => 1
    case OamScan => 2
    case Transfer => 3
  }

  /** `PpuMode::from(value)`: the mode named by the two low bits. */
  function ModeFrom(v: Byte): (r: PpuMode)
    ensures ModeValue(r) == v % 4
  {
    Low2(v);
    var b := And(v, 0x03);
    if b == 0 then HBlank else if b == 1 then VBlank else if b == 2 then OamScan else Transfer
  }

  /** `& 0x03` is the remainder modulo 4. */
  lemma Low2(v: Byte)
    ensures And(v, 0x03) == v % 4
  {
    LowMasks(v);
  }

  /** The registers as one value. */
  datatype LcdState = LcdState(
    lcdc: Byte, stat: Byte, scy: Byte, scx: Byte, ly: Byte, lyc: Byte,
    bgp: Byte, obp0: Byte, obp1: Byte, wy: Byte, wx: Byte, statInterrupt: bool)

  /** `Lcd::new()` and `init`: display and background on, OAM-scan mode, the boot palettes. */
  const PowerOn: LcdState := LcdState(0x91, 0x02, 0, 0, 0, 0, 0xFC, 0xFF, 0xFF, 0, 0, false)

  /** LY stays on the 154 lines of a frame. */
  predicate Valid(s: LcdState)
  {
    s.ly <= 153
  }

  // ---------------------------------------------------------------------
  // LCDC accessors

  /** `lcd_enabled`: LCDC bit 7. */
  predicate LcdEnabled(s: LcdState) { Bit(s.lcdc, 7) }

  /** `window_tile_map`: LCDC bit 6 picks 0x9C00 over 0x9800. */
  function WindowTileMap(s: LcdState): Word { if Bit(s.lcdc, 6) then 0x9C00 else 0x9800 }

  /** `window_enabled`: LCDC bit 5. */
  predicate WindowEnabled(s: LcdState) { Bit(s.lcdc, 5) }

  /** `bg_tile_data`: LCDC bit 4 picks unsigned tiles at 0x8000 over signed ones around 0x9000. */
  function BgTileData(s: LcdState): Word { if Bit(s.lcdc, 4) then 0x8000 else 0x8800 }

  /** `bg_tile_map`: LCDC bit 3 picks 0x9C00 over 0x9800. */
  function BgTileMap(s: LcdState): Word { if Bit(s.lcdc, 3) then 0x9C00 else 0x9800 }

  /** `sprite_height`: LCDC bit 2 picks 8x16 sprites over 8x8. */
  function SpriteHeight(s: LcdState): Byte { if Bit(s.lcdc, 2) then 16 else 8 }

  /** `sprites_enabled`: LCDC bit 1. */
  predicate SpritesEnabled(s: LcdState) { Bit(s.lcdc, 1) }

  /** `bg_window_enabled`: LCDC bit 0. */
  predicate BgWindowEnabled(s: LcdState) { Bit(s.lcdc, 0) }

  /**
   * Each LCDC accessor is the arithmetic bit of the control byte it is
   * documented to read.
   */
  lemma LcdcBits(s: LcdState)
    ensures LcdEnabled(s) <==> BitOf(s.lcdc, 7)
    ensures WindowTileMap(s) == (if BitOf(s.lcdc, 6) then 0x9C00 else 0x9800)
    ensures WindowEnabled(s) <==> BitOf(s.lcdc, 5)
    ensures BgTileData(s) == (if BitOf(s.lcdc, 4) then 0x8000 else 0x8800)
    ensures BgTileMap(s) == (if BitOf(s.lcdc, 3) then 0x9C00 else 0x9800)
    ensures SpriteHeight(s) == (if BitOf(s.lcdc, 2) then 16 else 8)
    ensures SpritesEnabled(s) <==> BitOf(s.lcdc, 1)
    ensures BgWindowEnabled(s) <==> BitOf(s.lcdc, 0)
  {
    BitIsBitOf(s.lcdc, 7);
    BitIsBitOf(s.lcdc, 6);
    BitIsBitOf(s.lcdc, 5);
    BitIsBitOf(s.lcdc, 4);
    BitIsBitOf(s.lcdc, 3);
    BitIsBitOf(s.lcdc, 2);
    BitIsBitOf(s.lcdc, 1);
    BitIsBitOf(s.lcdc, 0);
  }

  // ---------------------------------------------------------------------
  // STAT accessors and updates

  /** `mode`: STAT bits 0-1. */
  function Mode(s: LcdState): PpuMode
  {
    ModeFrom(And(s.stat, 0x03))
  }

  /** `lyc_flag`: STAT bit 2. */
  predicate LycFlag(s: LcdState) { Bit(s.stat, 2) }
  /** `hblank_int_enabled`: STAT bit 3. */
  predicate HBlankIntEnabled(s: LcdState) { Bit(s.stat, 3) }
  /** `vblank_int_enabled`: STAT bit 4. */
  predicate VBlankIntEnabled(s: LcdState) { Bit(s.stat, 4) }
  /** `oam_int_enabled`: STAT bit 5. */
  predicate OamIntEnabled(s: LcdState) { Bit(s.stat, 5) }
  /** `lyc_int_enabled`: STAT bit 6. */
  predicate LycIntEnabled(s: LcdState) { Bit(s.stat, 6) }

  /** The STAT interrupt enable for a mode; Transfer has none. */
  predicate ModeIntEnabled(s: LcdState, m: PpuMode)
  {
    match m
    case HBlank => HBlankIntEnabled(s)
    case VBlank => VBlankIntEnabled(s)
    case OamScan => OamIntEnabled(s)
    case Transfer => false
  }

  /** `check_stat_interrupt`: raise the STAT interrupt when the current mode's enable bit is set. */
  function CheckStatInterrupt(s: LcdState): LcdState
  {
    if ModeIntEnabled(s, Mode(s)) then s.(statInterrupt := true) else s
  }

  /** `set_mode`: the mode replaces STAT bits 0-1, then the mode's interrupt is checked. */
  function SetModeNext(s: LcdState, m: PpuMode): LcdState
  {
    CheckStatInterrupt(s.(stat := Or(And(s.stat, 0xFC), ModeValue(m))))
  }

  /**
   * `check_lyc`: STAT bit 2 becomes the coincidence LY == LYC, and a
   * coincidence with STAT bit 6 set raises the STAT interrupt.
   */
  function CheckLyc(s: LcdState): LcdState
  {
    var coincidence := s.ly == s.lyc;
    var s1 := s.(stat := BitSet(s.stat, 2, coincidence));
    if coincidence && LycIntEnabled(s1) then s1.(statInterrupt := true) else s1
  }

  /** `set_ly`. */
  function SetLyNext(s: LcdState, v: Byte): LcdState
  {
    CheckLyc(s.(ly := v))
  }

  /** `inc_ly`: LY advances with `u8` wrap-around and restarts at 0 past line 153. */
  function IncLyNext(s: LcdState): LcdState
  {
    var ly := AddByte(s.ly, 1);
    CheckLyc(s.(ly := if ly > 153 then 0 else ly))
  }

  /** `read`: STAT reads with bit 7 set; the DMA register and unused addresses read 0xFF. */
  function ReadOf(s: LcdState, a: Word): Byte
  {
    if a == 0xFF40 then s.lcdc
    else if a == 0xFF41 then Or(s.stat, 0x80)
    else if a == 0xFF42 then s.scy
    else if a == 0xFF43 then s.scx
    else if a == 0xFF44 then s.ly
    else if a == 0xFF45 then s.lyc
    else if a == 0xFF47 then s.bgp
    else if a == 0xFF48 then s.obp0
    else if a == 0xFF49 then s.obp1
    else if a == 0xFF4A then s.wy
    else if a == 0xFF4B then s.wx
    else 0xFF
  }

  /**
   * `write`: STAT takes only bits 3-7 of the value, LY ignores writes, and
   * an LYC write re-checks the coincidence.
   */
  function WriteNext(s: LcdState, a: Word, v: Byte): LcdState
  {
    if a == 0xFF40 then s.(lcdc := v)
    else if a == 0xFF41 then s.(stat := Or(And(s.stat, 0x07), And(v, 0xF8)))
    else if a == 0xFF42 then s.(scy := v)
    else if a == 0xFF43 then s.(scx := v)
    else if a == 0xFF45 then CheckLyc(s.(lyc := v))
    else if a == 0xFF47 then s.(bgp := v)
    else if a == 0xFF48 then s.(obp0 := v)
    else if a == 0xFF49 then s.(obp1 := v)
    else if a == 0xFF4A then s.(wy := v)
    else if a == 0xFF4B then s.(wx := v)
    else s
  }

  /**
   * `(x & 0x07) | (y & 0xF8)`, bit by bit: the three low bits come from x and
   * the five high bits from y.
   */
  lemma MergeStatBits(x: bv8, y: bv8, m: bv8)
    requires SingleBit(m)
    ensures ((x & 0x07) | (y & 0xF8)) & m != 0 <==> if m < 0x08 then x & m != 0 else y & m != 0
    ensures ((x & 0x07) | (y & 0xF8)) & 0x03 == x & 0x03
  {
  }

  /** `(x & 0xFC) | v` for a two-bit v: v in bits 0-1, x's bits above. */
  lemma MergeModeBits(x: bv8, v: bv8, m: bv8)
    requires SingleBit(m) && m >= 0x04 && v < 4
    ensures ((x & 0xFC) | v) & m != 0 <==> x & m != 0
    ensures ((x & 0xFC) | v) & 0x03 == v
  {
  }

  /** `x | 0x80` sets bit 7 and keeps the others. */
  lemma SetTopBit(x: bv8, m: bv8)
    requires SingleBit(m)
    ensures ((x | 0x80) & m != 0) <==> m == 0x80 || x & m != 0
  {
  }

  /**
   * A STAT write keeps the mode and the coincidence flag (bits 0-2) and takes
   * the interrupt enables (bits 3-7) from the value; nothing else changes.
   */
  lemma StatWrite(s: LcdState, v: Byte)
    ensures forall n: nat :: n < 3 ==> (Bit(WriteNext(s, 0xFF41, v).stat, n) <==> Bit(s.stat, n))
    ensures forall n: nat :: 3 <= n < 8 ==> (Bit(WriteNext(s, 0xFF41, v).stat, n) <==> Bit(v, n))
    ensures Mode(WriteNext(s, 0xFF41, v)) == Mode(s)
    ensures WriteNext(s, 0xFF41, v) == s.(stat := WriteNext(s, 0xFF41, v).stat)
  {
    StatMerge(s.stat, v);
  }

  /** `(a & 0x07) | (v & 0xF8)` on bytes: bits 0-2 of a, bits 3-7 of v. */
  lemma StatMerge(a: Byte, v: Byte)
    ensures forall n: nat :: n < 8 ==> (Bit(Or(And(a, 0x07), And(v, 0xF8)), n) <==> if n < 3 then Bit(a, n) else Bit(v, n))
    ensures And(Or(And(a, 0x07), And(v, 0xF8)), 0x03) == And(a, 0x03)
  {
    forall n: nat | n < 8
      ensures Bit(Or(And(a, 0x07), And(v, 0xF8)), n) <==> if n < 3 then Bit(a, n) else Bit(v, n)
    {
      StatMergeBit(a, v, n);
    }
    StatMergeView(a, v);
    MergeStatBits(Bits(a), Bits(v), 0x01);
    AndView(Or(And(a, 0x07), And(v, 0xF8)), 0x03);
    AndView(a, 0x03);
    BitsOfByte(0x03);
  }

  /** The `bv8` view of the merged STAT byte. */
  lemma StatMergeView(a: Byte, v: Byte)
    ensures Bits(Or(And(a, 0x07), And(v, 0xF8))) == (Bits(a) & 0x07) | (Bits(v) & 0xF8)
  {
    OrView(And(a, 0x07), And(v, 0xF8));
    AndView(a, 0x07);
    AndView(v, 0xF8);
    BitsOfByte(0x07);
    BitsOfByte(0xF8);
  }

  /** One bit of the merged STAT byte. */
  lemma StatMergeBit(a: Byte, v: Byte, n: nat)
    requires n < 8
    ensures Bit(Or(And(a, 0x07), And(v, 0xF8)), n) <==> if n < 3 then Bit(a, n) else Bit(v, n)
  {
    StatMergeView(a, v);
    MaskIsSingleBit(n);
    MergeStatBits(Bits(a), Bits(v), Mask(n));
  }

  /** A STAT read is the register with bit 7 forced on. */
  lemma StatRead(s: LcdState)
    ensures Bit(ReadOf(s, 0xFF41), 7)
    ensures forall n: nat :: n < 7 ==> (Bit(ReadOf(s, 0xFF41), n) <==> Bit(s.stat, n))
  {
    OrView(s.stat, 0x80);
    BitsOfByte(0x80);
    forall n: nat | n < 8
      ensures Bit(ReadOf(s, 0xFF41), n) <==> n == 7 || Bit(s.stat, n)
    {
      MaskIsSingleBit(n);
      SetTopBit(Bits(s.stat), Mask(n));
    }
  }

  /** LY is read-only: a write to 0xFF44 changes nothing. */
  lemma LyWriteIgnored(s: LcdState, v: Byte)
    ensures WriteNext(s, 0xFF44, v) == s
  {
  }

  /**
   * A write then a read: LCDC, the scroll and window positions, LYC and the
   * palettes read back the value; no register but the one written (and STAT,
   * whose flag an LYC write updates) changes.
   */
  lemma WriteThenRead(s: LcdState, a: Word, v: Byte)
    ensures a == 0xFF40 || a == 0xFF42 || a == 0xFF43 || a == 0xFF45 || a == 0xFF47 ||
            a == 0xFF48 || a == 0xFF49 || a == 0xFF4A || a == 0xFF4B ==>
              ReadOf(WriteNext(s, a, v), a) == v
    ensures forall b: Word :: b != a && (b == 0xFF41 ==> a != 0xFF45) ==>
              ReadOf(WriteNext(s, a, v), b) == ReadOf(s, b)
  {
    if a == 0xFF45 {
      CheckLycEffect(s.(lyc := v));
    }
  }

  /**
   * `check_lyc` sets the flag to LY == LYC and touches no other STAT bit; the
   * interrupt is raised by a coincidence with bit 6 set, and never withdrawn.
   */
  lemma CheckLycEffect(s: LcdState)
    ensures LycFlag(CheckLyc(s)) <==> s.ly == s.lyc
    ensures forall n: nat :: n < 8 && n != 2 ==> (Bit(CheckLyc(s).stat, n) <==> Bit(s.stat, n))
    ensures CheckLyc(s).statInterrupt <==> s.statInterrupt || (s.ly == s.lyc && LycIntEnabled(s))
    ensures CheckLyc(s) == s.(stat := CheckLyc(s).stat, statInterrupt := CheckLyc(s).statInterrupt)
  {
    var c := s.ly == s.lyc;
    BitSetReadsBack(s.stat, 2, c);
    forall n: nat | n < 8 && n != 2
      ensures Bit(BitSet(s.stat, 2, c), n) <==> Bit(s.stat, n)
    {
      BitSetOthers(s.stat, 2, c, n);
    }
  }

  /** After `set_ly`, STAT bit 2 is LY == LYC. */
  lemma SetLyFlag(s: LcdState, v: Byte)
    ensures SetLyNext(s, v).ly == v
    ensures LycFlag(SetLyNext(s, v)) <==> v == s.lyc
    ensures Mode(SetLyNext(s, v)) == Mode(s)
  {
    CheckLycEffect(s.(ly := v));
    SameMode(SetLyNext(s, v).stat, s.stat);
  }

  /** The mode is STAT bits 0-1: two STAT values that agree there give the same mode. */
  lemma SameMode(x: Byte, y: Byte)
    requires Bit(x, 0) == Bit(y, 0) && Bit(x, 1) == Bit(y, 1)
    ensures ModeFrom(And(x, 0x03)) == ModeFrom(And(y, 0x03))
  {
    BitIsBitOf(x, 0);
    BitIsBitOf(x, 1);
    BitIsBitOf(y, 0);
    BitIsBitOf(y, 1);
    Low2(x);
    Low2(y);
    assert x % 4 == 2 * ((x / 2) % 2) + x % 2;
    assert y % 4 == 2 * ((y / 2) % 2) + y % 2;
  }

  /**
   * `inc_ly` moves to the next line and from line 153 (or any value past it)
   * back to 0, so LY never passes 153; STAT bit 2 is then LY == LYC.
   */
  lemma IncLyWraps(s: LcdState)
    ensures IncLyNext(s).ly == if s.ly >= 153 then 0 else s.ly + 1
    ensures Valid(IncLyNext(s))
    ensures LycFlag(IncLyNext(s)) <==> IncLyNext(s).ly == s.lyc
    ensures Mode(IncLyNext(s)) == Mode(s)
  {
    var ly := AddByte(s.ly, 1);
    CheckLycEffect(s.(ly := if ly > 153 then 0 else ly));
    SameMode(IncLyNext(s).stat, s.stat);
  }

  /** After an LYC write, STAT bit 2 is LY == LYC. */
  lemma LycWriteFlag(s: LcdState, v: Byte)
    ensures WriteNext(s, 0xFF45, v).lyc == v
    ensures LycFlag(WriteNext(s, 0xFF45, v)) <==> s.ly == v
  {
    CheckLycEffect(s.(lyc := v));
  }

  /**
   * After `set_mode(m)`, `mode()` is m, STAT bits 2-7 are as before, and the
   * STAT interrupt is raised exactly when m's enable bit is set (never for
   * Transfer); nothing else changes.
   */
  lemma SetModeEffect(s: LcdState, m: PpuMode)
    ensures Mode(SetModeNext(s, m)) == m
    ensures forall n: nat :: 2 <= n < 8 ==> (Bit(SetModeNext(s, m).stat, n) <==> Bit(s.stat, n))
    ensures SetModeNext(s, m).statInterrupt <==> s.statInterrupt || ModeIntEnabled(s, m)
    ensures SetModeNext(s, m) == s.(stat := SetModeNext(s, m).stat, statInterrupt := SetModeNext(s, m).statInterrupt)
  {
    ModeMerge(s.stat, ModeValue(m));
  }

  /** `(a & 0xFC) | v` on bytes, for a two-bit v: bits 0-1 are v, bits 2-7 those of a. */
  lemma ModeMerge(a: Byte, v: Byte)
    requires v < 4
    ensures forall n: nat :: 2 <= n < 8 ==> (Bit(Or(And(a, 0xFC), v), n) <==> Bit(a, n))
    ensures And(Or(And(a, 0xFC), v), 0x03) == v
  {
    forall n: nat | 2 <= n < 8
      ensures Bit(Or(And(a, 0xFC), v), n) <==> Bit(a, n)
    {
      ModeMergeBit(a, v, n);
    }
    ModeMergeView(a, v);
    SmallBits(v);
    MergeModeBits(Bits(a), Bits(v), 0x04);
    AndView(Or(And(a, 0xFC), v), 0x03);
    BitsOfByte(0x03);
  }

  /** The `bv8` view of STAT with a new mode. */
  lemma ModeMergeView(a: Byte, v: Byte)
    requires v < 4
    ensures Bits(Or(And(a, 0xFC), v)) == (Bits(a) & 0xFC) | Bits(v)
  {
    OrView(And(a, 0xFC), v);
    AndView(a, 0xFC);
    BitsOfByte(0xFC);
  }

  /** The view of a two-bit value. */
  lemma SmallBits(v: Byte)
    requires v < 4
    ensures Bits(v) < 4 && Bits(v) as int == v
  {
    if v == 0 {
    } else if v == 1 {
      assert Bits(1) == 1;
    } else if v == 2 {
      assert Bits(2) == 2;
    } else {
      assert Bits(3) == 3;
    }
  }

  /** One bit above the mode field of STAT with a new mode. */
  lemma ModeMergeBit(a: Byte, v: Byte, n: nat)
    requires v < 4 && 2 <= n < 8
    ensures Bit(Or(And(a, 0xFC), v), n) <==> Bit(a, n)
  {
    ModeMergeView(a, v);
    SmallBits(v);
    MaskIsSingleBit(n);
    MergeModeBits(Bits(a), Bits(v), Mask(n));
  }

  /** Entering Transfer never raises the STAT interrupt. */
  lemma TransferNoInterrupt(s: LcdState)
    ensures SetModeNext(s, Transfer).statInterrupt == s.statInterrupt
  {
    SetModeEffect(s, Transfer);
  }

  // ---------------------------------------------------------------------
  // Palettes

  /**
   * `(palette >> (color_id * 2)) & 0x03`: the shade the palette gives a
   * colour id. The shift by more than 7 that would panic is excluded.
   */
  function Shade(palette: Byte, id: nat): (r: Byte)
    requires id < 4
    ensures r < 4
  {
    Low2(palette / Pow2(id * 2));
    And(palette / Pow2(id * 2), 0x03)
  }

  /** `bg_color`. */
  function BgColor(s: LcdState, id: nat): Byte requires id < 4 { Shade(s.bgp, id) }
  /** `sprite_color_0`. */
  function SpriteColor0(s: LcdState, id: nat): Byte requires id < 4 { Shade(s.obp0, id) }
  /** `sprite_color_1`. */
  function SpriteColor1(s: LcdState, id: nat): Byte requires id < 4 { Shade(s.obp1, id) }

  /** The shift is a division by 4 to the power id, the mask a remainder modulo 4. */
  lemma ShadeValue(p: Byte, id: nat)
    requires id < 4
    ensures Shade(p, id) == (p / Pow2(id * 2)) % 4
  {
    Low2(p / Pow2(id * 2));
  }

  /**
   * A palette byte is its four shades, two bits each with colour 0 lowest:
   * each shade is read from its own two bits.
   */
  lemma ShadesOfPalette(p: Byte)
    ensures Shade(p, 0) == p % 4 && Shade(p, 1) == (p / 4) % 4
    ensures Shade(p, 2) == (p / 16) % 4 && Shade(p, 3) == p / 64
    ensures p == Shade(p, 0) + 4 * Shade(p, 1) + 16 * Shade(p, 2) + 64 * Shade(p, 3)
  {
    ShadeValue(p, 0);
    ShadeValue(p, 1);
    ShadeValue(p, 2);
    ShadeValue(p, 3);
    assert Pow2(0) == 1 && Pow2(2) == 4 && Pow2(4) == 16 && Pow2(6) == 64;
    assert p / 16 == (p / 4) / 4;
    assert p / 64 == (p / 16) / 4;
  }

  /** The palette 0b11100100 maps every colour id to itself, and it is the only one that does. */
  lemma IdentityPalette(p: Byte)
    ensures (forall id: nat :: id < 4 ==> Shade(p, id) == id) <==> p == 0xE4
  {
    ShadesOfPalette(p);
    if p == 0xE4 {
      assert p % 4 == 0 && (p / 4) % 4 == 1 && (p / 16) % 4 == 2 && p / 64 == 3;
      forall id: nat | id < 4
        ensures Shade(p, id) == id
      {
        if id == 0 {} else if id == 1 {} else if id == 2 {} else {}
      }
    }
  }

  // ---------------------------------------------------------------------

  /** The LCD controller. */
  class Lcd {
    var lcdc: Byte
    var stat: Byte
    var scy: Byte
    var scx: Byte
    var ly: Byte
    var lyc: Byte
    var bgp: Byte
    var obp0: Byte
    var obp1: Byte
    var wy: Byte
    var wx: Byte
    var statInterrupt: bool

    function State(): LcdState
      reads this
    {
      LcdState(lcdc, stat, scy, scx, ly, lyc, bgp, obp0, obp1, wy, wx, statInterrupt)
    }

    /** `Lcd::new()`. */
    constructor ()
      ensures State() == PowerOn
    {
      lcdc, stat, scy, scx, ly, lyc := 0x91, 0x02, 0, 0, 0, 0;
      bgp, obp0, obp1, wy, wx, statInterrupt := 0xFC, 0xFF, 0xFF, 0, 0, false;
    }

    /** `init`. */
    method Init()
      modifies this
      ensures State() == PowerOn
    {
      lcdc, stat, scy, scx, ly, lyc := 0x91, 0x02, 0, 0, 0, 0;
      bgp, obp0, obp1, wy, wx, statInterrupt := 0xFC, 0xFF, 0xFF, 0, 0, false;
    }

    /** `read`. */
    function Read(a: Word): Byte
      reads this
    {
      ReadOf(State(), a)
    }

    /** `write`. */
    method Write(a: Word, v: Byte)
      modifies this
      ensures State() == WriteNext(old(State()), a, v)
    {
      if a == 0xFF40 {
        lcdc := v;
      } else if a == 0xFF41 {
        stat := Or(And(stat, 0x07), And(v, 0xF8));
      } else if a == 0xFF42 {
        scy := v;
      } else if a == 0xFF43 {
        scx := v;
      } else if a == 0xFF45 {
        lyc := v;
        CheckLycStep();
      } else if a == 0xFF47 {
        bgp := v;
      } else if a == 0xFF48 {
        obp0 := v;
      } else if a == 0xFF49 {
        obp1 := v;
      } else if a == 0xFF4A {
        wy := v;
      } else if a == 0xFF4B {
        wx := v;
      }
    }

    /** `set_mode`. */
    method SetMode(m: PpuMode)
      modifies this
      ensures State() == SetModeNext(old(State()), m)
    {
      stat := Or(And(stat, 0xFC), ModeValue(m));
      var shouldInterrupt := ModeIntEnabled(State(), Mode(State()));
      if shouldInterrupt {
        statInterrupt := true;
      }
    }

    /** `set_ly`. */
    method SetLy(v: Byte)
      modifies this
      ensures State() == SetLyNext(old(State()), v)
    {
      ly := v;
      CheckLycStep();
    }

    /** `inc_ly`. */
    method IncLy()
      modifies this
      ensures State() == IncLyNext(old(State()))
    {
      ly := AddByte(ly, 1);
      if ly > 153 {
        ly := 0;
      }
      CheckLycStep();
    }

    /** `check_lyc`. */
    method CheckLycStep()
      modifies this
      ensures State() == CheckLyc(old(State()))
    {
      var coincidence := ly == lyc;
      stat := BitSet(stat, 2, coincidence);
      if coincidence && Bit(stat, 6) {
        statInterrupt := true;
      }
    }

    /** `clear_stat_interrupt`. */
    method ClearStatInterrupt()
      modifies this
      ensures State() == old(State()).(statInterrupt := false)
    {
      statInterrupt := false;
    }
  }
}
