/**
 * The pixel processing unit: 8 KiB of VRAM, the 160-byte OAM (40 sprite
 * entries of four bytes), the 160x144 ARGB frame buffer, and the per-line
 * state machine OAM scan (80 dots), pixel transfer (to dot 252), HBlank (to
 * dot 456) on lines 0-143 and VBlank on lines 144-153.
 */
module Ppu {
  import opened Common
  import Ram
  import Lcd

  const ScreenWidth: nat := 160
  const ScreenHeight: nat := 144
  const LinesPerFrame: nat := 154
  const TicksPerLine: nat := 456
  /** The dot at which OAM scan ends. */
  const OamScanEnd: nat := 80
  /** The dot at which pixel transfer ends: 80 + 172. */
  const TransferEnd: nat := 252
  const VramBase: Word := 0x8000
  const VramSize: nat := 0x2000
  const OamBase: Word := 0xFE00
  const OamSize: nat := 160
  /** Sprites one line can show. */
  const MaxLineSprites: nat := 10
  const BufferSize: nat := 160 * 144

  /** `u32 += 1` with wrap-around. */
  function AddU32(a: U32, b: nat): (r: U32)
    ensures a + b <= U32Max ==> r == a + b
  {
    (a + b) % (U32Max + 1)
  }

  // ---------------------------------------------------------------------
  // OAM entries

  /** `OamEntry`: Y position plus 16, X position plus 8, tile index and flags. */
  datatype OamEntry = OamEntry(y: Byte, x: Byte, tile: Byte, flags: Byte)

  /** `OamEntry::default()`. */
  const NoEntry: OamEntry := OamEntry(0, 0, 0, 0)

  /** `cgb_palette`: flag bits 0-2. */
  function CgbPalette(e: OamEntry): Byte { And(e.flags, 0x07) }
  /** `cgb_vram_bank`: flag bit 3. */
  predicate CgbVramBank(e: OamEntry) { Bit(e.flags, 3) }
  /** `palette_number`: flag bit 4 picks OBP1 over OBP0. */
  predicate PaletteNumber(e: OamEntry) { Bit(e.flags, 4) }
  /** `x_flip`: flag bit 5. */
  predicate XFlip(e: OamEntry) { Bit(e.flags, 5) }
  /** `y_flip`: flag bit 6. */
  predicate YFlip(e: OamEntry) { Bit(e.flags, 6) }
  /** `bg_priority`: flag bit 7, the background and window drawn over the sprite. */
  predicate BgPriority(e: OamEntry) { Bit(e.flags, 7) }

  /** The flag accessors are the arithmetic bits 3-7 of the flags byte, and the CGB palette its three low bits. */
  lemma FlagBits(e: OamEntry)
    ensures CgbPalette(e) == e.flags % 8
    ensures CgbVramBank(e) <==> BitOf(e.flags, 3)
    ensures PaletteNumber(e) <==> BitOf(e.flags, 4)
    ensures XFlip(e) <==> BitOf(e.flags, 5)
    ensures YFlip(e) <==> BitOf(e.flags, 6)
    ensures BgPriority(e) <==> BitOf(e.flags, 7)
  {
    LowMasks(e.flags);
    BitIsBitOf(e.flags, 3);
    BitIsBitOf(e.flags, 4);
    BitIsBitOf(e.flags, 5);
    BitIsBitOf(e.flags, 6);
    BitIsBitOf(e.flags, 7);
  }

  /** OAM as a sequence of 160 bytes. */
  predicate IsOam(oam: seq<Byte>)
  {
    |oam| == OamSize
  }

  /** `get_oam_entry(i)`: bytes 4i .. 4i + 3 of OAM for i < 40, the default entry past the table. */
  function EntryAt(oam: seq<Byte>, i: nat): (r: OamEntry)
    requires IsOam(oam)
    ensures i < 40 ==> r == OamEntry(oam[4 * i], oam[4 * i + 1], oam[4 * i + 2], oam[4 * i + 3])
    ensures i >= 40 ==> r == NoEntry
  {
    if i >= 40 then NoEntry
    else
      var offset := i * 4;
      OamEntry(oam[offset], oam[offset + 1], oam[offset + 2], oam[offset + 3])
  }

  // ---------------------------------------------------------------------
  // Sprite selection

  /** The sprite's rows, from Y - 16, cover line ly for a sprite height h. */
  predicate Covers(e: OamEntry, ly: int, h: int)
  {
    e.y - 16 <= ly < e.y - 16 + h
  }

  /** The entries among the first n of OAM whose rows cover line ly, in OAM order. */
  function Candidates(oam: seq<Byte>, ly: int, h: int, n: nat): (r: seq<OamEntry>)
    requires IsOam(oam)
    ensures |r| <= n
    ensures forall k :: 0 <= k < |r| ==> Covers(r[k], ly, h)
  {
    if n == 0 then []
    else
      var e := EntryAt(oam, n - 1);
      Candidates(oam, ly, h, n - 1) + (if Covers(e, ly, h) then [e] else [])
  }

  /** At most the first ten of a sequence. */
  function FirstTen(s: seq<OamEntry>): (r: seq<OamEntry>)
    ensures |r| <= MaxLineSprites
    ensures |s| <= MaxLineSprites ==> r == s
    ensures |s| > MaxLineSprites ==> r == s[..MaxLineSprites]
  {
    if |s| <= MaxLineSprites then s else s[..MaxLineSprites]
  }

  /** Looking at more entries only appends to the candidates. */
  lemma {:induction false} CandidatesGrow(oam: seq<Byte>, ly: int, h: int, i: nat, j: nat)
    requires IsOam(oam) && i <= j
    ensures Candidates(oam, ly, h, i) <= Candidates(oam, ly, h, j)
    decreases j
  {
    if i < j {
      CandidatesGrow(oam, ly, h, i, j - 1);
    }
  }

  /** Once ten candidates are found, later entries do not change the first ten. */
  lemma FirstTenSettled(oam: seq<Byte>, ly: int, h: int, i: nat, j: nat)
    requires IsOam(oam) && i <= j && |Candidates(oam, ly, h, i)| >= MaxLineSprites
    ensures FirstTen(Candidates(oam, ly, h, j)) == FirstTen(Candidates(oam, ly, h, i))
  {
    CandidatesGrow(oam, ly, h, i, j);
    var a := Candidates(oam, ly, h, i);
    var b := Candidates(oam, ly, h, j);
    assert b[..MaxLineSprites] == a[..MaxLineSprites];
  }

  /** The sprites OAM scan selects for line ly: the first ten covering entries, in OAM order. */
  function Selected(oam: seq<Byte>, l: Lcd.LcdState): seq<OamEntry>
    requires IsOam(oam)
  {
    FirstTen(Candidates(oam, l.ly, Lcd.SpriteHeight(l), 40))
  }

  // ---------------------------------------------------------------------
  // Stable ordering by X (`sort_by(|a, b| a.x.cmp(&b.x))`)

  /** Ordered by X position. */
  predicate SortedByX(s: seq<OamEntry>)
  {
    forall i, j :: 0 <= i < j < |s| ==> s[i].x <= s[j].x
  }

  /** The entries with X position x, in order. */
  function WithX(s: seq<OamEntry>, x: int): seq<OamEntry>
  {
    if s == [] then [] else (if s[0].x == x then [s[0]] else []) + WithX(s[1..], x)
  }

  /** Inserting after every entry whose X is at most e's keeps equal X values in arrival order. */
  function InsertByX(e: OamEntry, s: seq<OamEntry>): (r: seq<OamEntry>)
    ensures |r| == |s| + 1
    ensures multiset(r) == multiset(s) + multiset{e}
  {
    if s == [] then [e]
    else if e.x < s[0].x then [e] + s
    else
      assert s == [s[0]] + s[1..];
      [s[0]] + InsertByX(e, s[1..])
  }

  /** A stable sort by X: each entry is inserted after those before it with no greater X. */
  function SortByX(s: seq<OamEntry>): (r: seq<OamEntry>)
    ensures |r| == |s|
    ensures multiset(r) == multiset(s)
  {
    if s == [] then []
    else
      assert s == s[..|s| - 1] + [s[|s| - 1]];
      InsertByX(s[|s| - 1], SortByX(s[..|s| - 1]))
  }

  /** Insertion keeps a sequence ordered. */
  lemma {:induction false} InsertSorted(e: OamEntry, s: seq<OamEntry>)
    requires SortedByX(s)
    ensures SortedByX(InsertByX(e, s))
    decreases |s|
  {
    if s != [] && e.x >= s[0].x {
      var tail := s[1..];
      InsertSorted(e, tail);
      var t := InsertByX(e, tail);
      forall k | 0 <= k < |t|
        ensures s[0].x <= t[k].x
      {
        assert t[k] in multiset(tail) + multiset{e};
        if t[k] != e {
          assert t[k] in tail;
          var m :| 0 <= m < |tail| && tail[m] == t[k];
          assert s[m + 1] == t[k];
        }
      }
      assert InsertByX(e, s) == [s[0]] + t;
    }
  }

  /** The result of the sort is ordered by X. */
  lemma {:induction false} SortSorted(s: seq<OamEntry>)
    ensures SortedByX(SortByX(s))
    decreases |s|
  {
    if s != [] {
      SortSorted(s[..|s| - 1]);
      InsertSorted(s[|s| - 1], SortByX(s[..|s| - 1]));
    }
  }

  /** No entry has X position x: none is kept. */
  lemma {:induction false} WithXNone(s: seq<OamEntry>, x: int)
    requires forall k :: 0 <= k < |s| ==> s[k].x != x
    ensures WithX(s, x) == []
    decreases |s|
  {
    if s != [] {
      WithXNone(s[1..], x);
    }
  }

  /** Filtering a sequence with one more entry at the end. */
  lemma {:induction false} WithXSnoc(s: seq<OamEntry>, e: OamEntry, x: int)
    ensures WithX(s + [e], x) == WithX(s, x) + (if e.x == x then [e] else [])
    decreases |s|
  {
    var t := if e.x == x then [e] else [];
    if s == [] {
      assert [] + [e] == [e];
    } else {
      var h := if s[0].x == x then [s[0]] else [];
      assert (s + [e])[0] == s[0] && (s + [e])[1..] == s[1..] + [e];
      WithXSnoc(s[1..], e, x);
      calc {
        WithX(s + [e], x);
        h + WithX(s[1..] + [e], x);
        h + (WithX(s[1..], x) + t);
        (h + WithX(s[1..], x)) + t;
        WithX(s, x) + t;
      }
    }
  }

  /** Inserting into an ordered sequence puts e after every entry with the same X. */
  lemma {:induction false} WithXInsert(e: OamEntry, s: seq<OamEntry>, x: int)
    requires SortedByX(s)
    ensures WithX(InsertByX(e, s), x) == WithX(s, x) + (if e.x == x then [e] else [])
    decreases |s|
  {
    if s == [] {
    } else if e.x < s[0].x {
      assert ([e] + s)[1..] == s;
      if e.x == x {
        WithXNone(s, x);
      }
    } else {
      var t := [s[0]] + InsertByX(e, s[1..]);
      assert t[1..] == InsertByX(e, s[1..]);
      WithXInsert(e, s[1..], x);
    }
  }

  /**
   * The sort is stable: for every X position, the entries with that X keep
   * their relative order. With `SortSorted` this fixes the result.
   */
  lemma {:induction false} SortStable(s: seq<OamEntry>, x: int)
    ensures WithX(SortByX(s), x) == WithX(s, x)
    decreases |s|
  {
    if s != [] {
      var init, last := s[..|s| - 1], s[|s| - 1];
      SortStable(init, x);
      SortSorted(init);
      WithXInsert(last, SortByX(init), x);
      WithXSnoc(init, last, x);
      assert init + [last] == s;
    }
  }

  /**
   * `scan_oam`'s result: the sprites selected for the line, stably sorted
   * by X.
   */
  function LineSprites(oam: seq<Byte>, l: Lcd.LcdState): seq<OamEntry>
    requires IsOam(oam)
  {
    SortByX(Selected(oam, l))
  }

  /**
   * The line's sprites: at most ten, each covering LY, exactly the selected
   * ones (as a multiset), ordered by X, and keeping OAM order among equal X.
   */
  lemma LineSpritesSpec(oam: seq<Byte>, l: Lcd.LcdState)
    requires IsOam(oam)
    ensures |LineSprites(oam, l)| <= MaxLineSprites
    ensures multiset(LineSprites(oam, l)) == multiset(Selected(oam, l))
    ensures forall k :: 0 <= k < |LineSprites(oam, l)| ==> Covers(LineSprites(oam, l)[k], l.ly, Lcd.SpriteHeight(l))
    ensures SortedByX(LineSprites(oam, l))
    ensures forall x: int :: WithX(LineSprites(oam, l), x) == WithX(Selected(oam, l), x)
  {
    var sel := Selected(oam, l);
    SortSorted(sel);
    forall x: int
      ensures WithX(LineSprites(oam, l), x) == WithX(sel, x)
    {
      SortStable(sel, x);
    }
    var r := LineSprites(oam, l);
    forall k | 0 <= k < |r|
      ensures Covers(r[k], l.ly, Lcd.SpriteHeight(l))
    {
      assert r[k] in multiset(sel);
      var m :| 0 <= m < |sel| && sel[m] == r[k];
    }
  }

  // ---------------------------------------------------------------------
  // Pixels

  /** `(v >> n) & 1`: bit n of a bit plane byte as 0 or 1. */
  function PlaneBit(v: Byte, n: nat): (r: nat)
    requires n < 8
    ensures r < 2
  {
    (v / Pow2(n)) % 2
  }

  /** `((hi >> n) & 1) << 1 | ((lo >> n) & 1)`: the colour id of pixel bit n of a tile row. */
  function ColorId(lo: Byte, hi: Byte, n: nat): (r: nat)
    requires n < 8
    ensures r < 4
  {
    2 * PlaneBit(hi, n) + PlaneBit(lo, n)
  }

  /**
   * The colour id's high bit is bit n of the high plane and its low bit is
   * bit n of the low plane, by the mask test; id 0 means both are clear.
   */
  lemma ColorIdBits(lo: Byte, hi: Byte, n: nat)
    requires n < 8
    ensures ColorId(lo, hi, n) / 2 == 1 <==> Bit(hi, n)
    ensures ColorId(lo, hi, n) % 2 == 1 <==> Bit(lo, n)
    ensures ColorId(lo, hi, n) == 0 <==> !Bit(lo, n) && !Bit(hi, n)
  {
    BitIsBitOf(lo, n);
    BitIsBitOf(hi, n);
  }

  /** `tile_index as i8`. */
  function Signed(b: Byte): int
  {
    if b < 0x80 then b else b - 0x100
  }

  /** The tile data address: unsigned from 0x8000, or signed around 0x9000. */
  function TileAddress(tileData: Word, index: Byte): (r: Word)
    requires tileData == 0x8000 || tileData == 0x8800
  {
    if tileData == 0x8000 then tileData + index * 16
    else 0x9000 + Signed(index) * 16
  }

  /**
   * Unsigned addressing puts tile i at 0x8000 + 16i; signed addressing puts
   * tiles 0-127 at 0x9000 and tiles 128-255 at 0x8800; either way the
   * 16-byte tile lies inside VRAM.
   */
  lemma TileAddressing(tileData: Word, index: Byte)
    requires tileData == 0x8000 || tileData == 0x8800
    ensures tileData == 0x8000 ==> TileAddress(tileData, index) == 0x8000 + 16 * index
    ensures tileData == 0x8800 && index < 0x80 ==> TileAddress(tileData, index) == 0x9000 + 16 * index
    ensures tileData == 0x8800 && index >= 0x80 ==> TileAddress(tileData, index) == 0x8800 + 16 * (index - 0x80)
    ensures VramBase <= TileAddress(tileData, index) && TileAddress(tileData, index) + 16 <= VramBase + VramSize
  {
  }

  /** The tile map byte for pixel (x, y) of the 32x32-tile map at tileMap. */
  function MapCell(tileMap: Word, x: Byte, y: Byte): (r: Word)
    requires tileMap == 0x9800 || tileMap == 0x9C00
    ensures tileMap <= r < tileMap + 0x400
  {
    tileMap + (y / 8) * 32 + x / 8
  }

  /** The tile maps the accessors name. */
  predicate IsTileMap(a: Word) { a == 0x9800 || a == 0x9C00 }
  /** The tile data bases the accessors name. */
  predicate IsTileData(a: Word) { a == 0x8000 || a == 0x8800 }

  /**
   * `get_tile_pixel`: the shade, through BGP, of pixel (x mod 8) of row
   * (y mod 8) of the tile the map names for (x, y); bit 7 of a row is its
   * leftmost pixel.
   */
  function TilePixel(vram: seq<Byte>, l: Lcd.LcdState, tileMap: Word, tileData: Word, x: Byte, y: Byte): (r: Byte)
    requires |vram| == VramSize && IsTileMap(tileMap) && IsTileData(tileData)
    ensures r < 4
  {
    var index := vram[MapCell(tileMap, x, y) - VramBase];
    var tileAddr := TileAddress(tileData, index);
    var addr := tileAddr - VramBase + (y % 8) * 2;
    if addr + 1 >= |vram| then 0
    else Lcd.BgColor(l, ColorId(vram[addr], vram[addr + 1], 7 - x % 8))
  }

  /** The row bytes a tile pixel reads always lie inside VRAM, so the fallback shade 0 is never used. */
  lemma TileRowInVram(tileData: Word, index: Byte, y: Byte)
    requires IsTileData(tileData)
    ensures TileAddress(tileData, index) - VramBase + (y % 8) * 2 + 1 < VramSize
  {
    TileAddressing(tileData, index);
  }

  /** `get_bg_pixel`: the background scrolls by SCX/SCY, wrapping round the 256x256 map. */
  function BgPixel(vram: seq<Byte>, l: Lcd.LcdState, x: Byte, y: Byte): (r: Byte)
    requires |vram| == VramSize
    ensures r < 4
  {
    TilePixel(vram, l, Lcd.BgTileMap(l), Lcd.BgTileData(l), AddByte(l.scx, x), AddByte(l.scy, y))
  }

  /**
   * `get_window_pixel`: nothing while WX > 166 or WY > y or left of WX - 7;
   * otherwise the window tile pixel at the window's own column and line.
   */
  function WindowPixel(vram: seq<Byte>, l: Lcd.LcdState, windowLine: Byte, x: Byte, y: Byte): (r: Option<Byte>)
    requires |vram| == VramSize
    ensures r.Some? <==> l.wx <= 166 && l.wy <= y && x >= l.wx - 7
    ensures r.Some? ==> r.value < 4
  {
    if l.wx > 166 || l.wy > y then None
    else
      var winX := x - (l.wx - 7);
      if winX < 0 then None
      else Some(TilePixel(vram, l, Lcd.WindowTileMap(l), Lcd.BgTileData(l), winX % 0x100, windowLine))
  }

  /**
   * The colour id a sprite gives pixel (x, y), if the pixel is within the
   * sprite's eight columns; flips mirror the column and row, and 8x16
   * sprites use the even tile of the pair.
   */
  function SpriteColorId(e: OamEntry, vram: seq<Byte>, l: Lcd.LcdState, x: Byte, y: Byte): (r: Option<nat>)
    requires |vram| == VramSize
    ensures r.Some? ==> r.value < 4
  {
    var h := Lcd.SpriteHeight(l);
    var spriteX := e.x - 8;
    var spriteY := e.y - 16;
    if x < spriteX || x >= spriteX + 8 then None
    else
      var column := x - spriteX;
      var row := (y - spriteY) % 0x100;
      var px := if XFlip(e) then 7 - column else column;
      var py := if YFlip(e) then (h - 1 - row) % 0x100 else row;
      var tile := if h == 16 then And(e.tile, 0xFE) else e.tile;
      var tileAddr := VramBase + tile * 16 + py * 2;
      var addr := tileAddr - VramBase;
      if addr + 1 >= |vram| then None
      else Some(ColorId(vram[addr], vram[addr + 1], 7 - px))
  }

  /** The sprite covers the pixel with a colour id other than the transparent 0. */
  predicate Opaque(e: OamEntry, vram: seq<Byte>, l: Lcd.LcdState, x: Byte, y: Byte)
    requires |vram| == VramSize
  {
    var c := SpriteColorId(e, vram, l, x, y);
    c.Some? && c.value != 0
  }

  /** A sprite's shade for an opaque colour id, through OBP1 or OBP0 by its palette flag. */
  function SpriteShade(e: OamEntry, l: Lcd.LcdState, id: nat): (r: Byte)
    requires id < 4
    ensures r < 4
  {
    if PaletteNumber(e) then Lcd.SpriteColor1(l, id) else Lcd.SpriteColor0(l, id)
  }

  /** The shade and priority flag an opaque sprite gives the pixel. */
  function SpriteHit(e: OamEntry, vram: seq<Byte>, l: Lcd.LcdState, x: Byte, y: Byte): (Byte, bool)
    requires |vram| == VramSize && Opaque(e, vram, l, x, y)
  {
    (SpriteShade(e, l, SpriteColorId(e, vram, l, x, y).value), BgPriority(e))
  }

  /** `get_sprite_pixel`: the first sprite in the line's order that is opaque at the pixel. */
  function SpritePixel(sprites: seq<OamEntry>, vram: seq<Byte>, l: Lcd.LcdState, x: Byte, y: Byte): (r: Option<(Byte, bool)>)
    requires |vram| == VramSize
    ensures r.Some? ==> r.value.0 < 4
  {
    if sprites == [] then None
    else if Opaque(sprites[0], vram, l, x, y) then Some(SpriteHit(sprites[0], vram, l, x, y))
    else SpritePixel(sprites[1..], vram, l, x, y)
  }

  /**
   * Colour id 0 is transparent: the sprite pixel is missing exactly when no
   * sprite is opaque at the pixel, and otherwise comes from the first opaque
   * one, whatever the transparent sprites before it.
   */
  lemma {:induction false} SpritePixelFirst(sprites: seq<OamEntry>, vram: seq<Byte>, l: Lcd.LcdState, x: Byte, y: Byte)
    requires |vram| == VramSize
    ensures SpritePixel(sprites, vram, l, x, y).None? <==>
            forall i :: 0 <= i < |sprites| ==> !Opaque(sprites[i], vram, l, x, y)
    ensures forall i :: (0 <= i < |sprites| && Opaque(sprites[i], vram, l, x, y) &&
                         (forall j :: 0 <= j < i ==> !Opaque(sprites[j], vram, l, x, y))) ==>
              SpritePixel(sprites, vram, l, x, y) == Some(SpriteHit(sprites[i], vram, l, x, y))
    decreases |sprites|
  {
    if sprites != [] {
      SpritePixelFirst(sprites[1..], vram, l, x, y);
      forall i | 1 <= i < |sprites|
        ensures sprites[i] == sprites[1..][i - 1]
      {
      }
    }
  }

  /** The background and window shade of a pixel, before sprites. */
  function BackgroundShade(vram: seq<Byte>, l: Lcd.LcdState, windowLine: Byte, x: Byte, y: Byte): (r: Byte)
    requires |vram| == VramSize
    ensures r < 4
  {
    var bg := if Lcd.BgWindowEnabled(l) then BgPixel(vram, l, x, y) else 0;
    if Lcd.WindowEnabled(l) && Lcd.BgWindowEnabled(l) then
      match WindowPixel(vram, l, windowLine, x, y)
      case Some(w) => w
      case None => bg
    else bg
  }

  /**
   * Background and window: LCDC bit 0 clear blanks both; a visible window
   * pixel replaces the background; otherwise the background shows.
   */
  lemma BackgroundLayers(vram: seq<Byte>, l: Lcd.LcdState, windowLine: Byte, x: Byte, y: Byte)
    requires |vram| == VramSize
    ensures !Lcd.BgWindowEnabled(l) ==> BackgroundShade(vram, l, windowLine, x, y) == 0
    ensures Lcd.BgWindowEnabled(l) && Lcd.WindowEnabled(l) && l.wx <= 166 && l.wy <= y && x >= l.wx - 7 ==>
              BackgroundShade(vram, l, windowLine, x, y) == WindowPixel(vram, l, windowLine, x, y).value
    ensures Lcd.BgWindowEnabled(l) && !(Lcd.WindowEnabled(l) && l.wx <= 166 && l.wy <= y && x >= l.wx - 7) ==>
              BackgroundShade(vram, l, windowLine, x, y) == BgPixel(vram, l, x, y)
  {
  }

  /** The shade `render_scanline` gives pixel (x, y): background, window, then sprites. */
  function PixelShade(vram: seq<Byte>, sprites: seq<OamEntry>, l: Lcd.LcdState, windowLine: Byte, x: Byte, y: Byte): (r: Byte)
    requires |vram| == VramSize
    ensures r < 4
  {
    var under := BackgroundShade(vram, l, windowLine, x, y);
    if Lcd.SpritesEnabled(l) then
      match SpritePixel(sprites, vram, l, x, y)
      case Some(hit) => if !hit.1 || under == 0 then hit.0 else under
      case None => under
    else under
  }

  /**
   * Sprites over the background: with sprites off or none opaque at the
   * pixel, the background and window show; otherwise the first opaque
   * sprite shows unless its priority flag is set and the background shade
   * is not 0.
   */
  lemma SpriteLayer(vram: seq<Byte>, sprites: seq<OamEntry>, l: Lcd.LcdState, windowLine: Byte, x: Byte, y: Byte, i: nat)
    requires |vram| == VramSize
    ensures !Lcd.SpritesEnabled(l) || (forall k :: 0 <= k < |sprites| ==> !Opaque(sprites[k], vram, l, x, y)) ==>
              PixelShade(vram, sprites, l, windowLine, x, y) == BackgroundShade(vram, l, windowLine, x, y)
    ensures Lcd.SpritesEnabled(l) && i < |sprites| && Opaque(sprites[i], vram, l, x, y) &&
            (forall j :: 0 <= j < i ==> !Opaque(sprites[j], vram, l, x, y)) ==>
              var under := BackgroundShade(vram, l, windowLine, x, y);
              PixelShade(vram, sprites, l, windowLine, x, y) ==
                if !BgPriority(sprites[i]) || under == 0 then SpriteHit(sprites[i], vram, l, x, y).0 else under
  {
    SpritePixelFirst(sprites, vram, l, x, y);
  }

  /** `color_to_argb`: the four greens of the original screen, lightest for shade 0. */
  function Argb(shade: Byte): U32
  {
    Lcd.Low2(shade);
    var c := And(shade, 0x03);
    if c == 0 then 0xFF9BBC0F
    else if c == 1 then 0xFF8BAC0F
    else if c == 2 then 0xFF306230
    else 0xFF0F380F
  }

  /** Only the shade's two low bits matter, and the four shades get four different colours. */
  lemma ArgbShades(a: Byte, b: Byte)
    ensures Argb(a) == Argb(a % 4)
    ensures a < 4 && b < 4 && Argb(a) == Argb(b) ==> a == b
    ensures Argb(0) == 0xFF9BBC0F && Argb(3) == 0xFF0F380F
  {
    Lcd.Low2(a);
    Lcd.Low2(a % 4);
    Lcd.Low2(b);
    Lcd.Low2(0);
    Lcd.Low2(3);
  }

  /** The frame buffer after `render_scanline` on line l.ly: that line's 160 pixels, nothing else. */
  function Rendered(video: seq<U32>, vram: seq<Byte>, sprites: seq<OamEntry>, l: Lcd.LcdState, windowLine: Byte): (r: seq<U32>)
    requires |video| == BufferSize && |vram| == VramSize
    ensures |r| == BufferSize
  {
    if l.ly >= ScreenHeight then video
    else
      seq(BufferSize, k requires 0 <= k < BufferSize => RenderedAt(video, vram, sprites, l, windowLine, k))
  }

  /** Entry k of the frame buffer after rendering line l.ly < 144. */
  function RenderedAt(video: seq<U32>, vram: seq<Byte>, sprites: seq<OamEntry>, l: Lcd.LcdState, windowLine: Byte, k: nat): U32
    requires |video| == BufferSize && |vram| == VramSize && k < BufferSize
  {
    if l.ly * ScreenWidth <= k < l.ly * ScreenWidth + ScreenWidth
    then Argb(PixelShade(vram, sprites, l, windowLine, k - l.ly * ScreenWidth, l.ly))
    else video[k]
  }

  /** The window line counter after `render_scanline`: one more when the window was on this line. */
  function WindowLineAfter(l: Lcd.LcdState, windowLine: Byte): Byte
  {
    if l.ly >= ScreenHeight then windowLine
    else if Lcd.WindowEnabled(l) && l.wy <= l.ly && l.wx <= 166 then AddByte(windowLine, 1)
    else windowLine
  }

  /**
   * Rendering line ly changes only the 160 buffer entries of row ly, each to
   * the colour of its pixel; lines 144 and up draw nothing.
   */
  lemma RenderedRow(video: seq<U32>, vram: seq<Byte>, sprites: seq<OamEntry>, l: Lcd.LcdState, windowLine: Byte, x: nat, k: nat)
    requires |video| == BufferSize && |vram| == VramSize
    ensures l.ly < ScreenHeight && x < ScreenWidth ==>
              Rendered(video, vram, sprites, l, windowLine)[l.ly * ScreenWidth + x] == Argb(PixelShade(vram, sprites, l, windowLine, x, l.ly))
    ensures k < BufferSize && !(l.ly * ScreenWidth <= k < l.ly * ScreenWidth + ScreenWidth) ==>
              Rendered(video, vram, sprites, l, windowLine)[k] == video[k]
    ensures l.ly >= ScreenHeight ==> Rendered(video, vram, sprites, l, windowLine) == video
  {
    if l.ly < ScreenHeight {
      var r := Rendered(video, vram, sprites, l, windowLine);
      if x < ScreenWidth {
        assert r[l.ly * ScreenWidth + x] == RenderedAt(video, vram, sprites, l, windowLine, l.ly * ScreenWidth + x);
      }
      if k < BufferSize {
        assert r[k] == RenderedAt(video, vram, sprites, l, windowLine, k);
      }
    }
  }

  // ---------------------------------------------------------------------
  // VRAM and OAM access

  /** `vram_read`: addresses 0x8000-0x9FFF read VRAM, any other address 0xFF. */
  function VramRead(vram: seq<Byte>, a: Word): (r: Byte)
    requires |vram| == VramSize
    ensures Between(a, 0x8000, 0x9FFF) ==> r == vram[a - 0x8000]
    ensures !Between(a, 0x8000, 0x9FFF) ==> r == 0xFF
  {
    Ram.RegionRead(vram, VramBase, a)
  }

  /** `oam_read`: addresses 0xFE00-0xFE9F read OAM, any other address 0xFF. */
  function OamRead(oam: seq<Byte>, a: Word): (r: Byte)
    requires IsOam(oam)
    ensures Between(a, 0xFE00, 0xFE9F) ==> r == oam[a - 0xFE00]
    ensures !Between(a, 0xFE00, 0xFE9F) ==> r == 0xFF
  {
    Ram.RegionRead(oam, OamBase, a)
  }

  /** A VRAM write reads back at its address and leaves every other address as it was. */
  lemma VramRoundTrip(vram: seq<Byte>, a: Word, b: Word, v: Byte)
    requires |vram| == VramSize
    ensures VramRead(Ram.RegionWrite(vram, VramBase, a, v), b) ==
            if b == a && Between(a, 0x8000, 0x9FFF) then v else VramRead(vram, b)
  {
    Ram.RegionRoundTrip(vram, VramBase, a, b, v);
  }

  /** An OAM write reads back at its address and leaves every other address as it was. */
  lemma OamRoundTrip(oam: seq<Byte>, a: Word, b: Word, v: Byte)
    requires IsOam(oam)
    ensures OamRead(Ram.RegionWrite(oam, OamBase, a, v), b) ==
            if b == a && Between(a, 0xFE00, 0xFE9F) then v else OamRead(oam, b)
  {
    Ram.RegionRoundTrip(oam, OamBase, a, b, v);
  }

  // ---------------------------------------------------------------------
  // The line state machine

  /** The PPU's scalar fields and sprite list. */
  datatype LineState = LineState(currentFrame: U32, lineTicks: U32, windowLine: Byte, vblankInterrupt: bool,
                                 lineSprites: seq<OamEntry>, spriteCount: nat)

  /** What a PPU tick reads and changes: its own fields, the frame buffer and the LCD registers. */
  datatype PpuState = PpuState(line: LineState, video: seq<U32>, lcd: Lcd.LcdState)

  /** `mode_oam_scan`: at dot 80 the line's sprites are chosen and pixel transfer begins. */
  function OamScanStep(s: PpuState, oam: seq<Byte>): PpuState
    requires IsOam(oam)
  {
    if s.line.lineTicks >= OamScanEnd then
      s.(line := s.line.(lineSprites := LineSprites(oam, s.lcd), spriteCount := |Selected(oam, s.lcd)|),
         lcd := Lcd.SetModeNext(s.lcd, Lcd.Transfer))
    else s
  }

  /** `mode_transfer`: at dot 252 the line is drawn and HBlank begins. */
  function TransferStep(s: PpuState, vram: seq<Byte>): PpuState
    requires |s.video| == BufferSize && |vram| == VramSize
  {
    if s.line.lineTicks >= TransferEnd then
      s.(video := Rendered(s.video, vram, s.line.lineSprites, s.lcd, s.line.windowLine),
         line := s.line.(windowLine := WindowLineAfter(s.lcd, s.line.windowLine)),
         lcd := Lcd.SetModeNext(s.lcd, Lcd.HBlank))
    else s
  }

  /**
   * `mode_hblank`: at dot 456 the next line starts; after line 143 that is
   * VBlank, which requests the VBlank interrupt and counts a frame.
   */
  function HBlankStep(s: PpuState): PpuState
  {
    if s.line.lineTicks >= TicksPerLine then
      var l := Lcd.IncLyNext(s.lcd);
      if l.ly >= ScreenHeight then
        s.(line := s.line.(lineTicks := 0, vblankInterrupt := true, currentFrame := AddU32(s.line.currentFrame, 1)),
           lcd := Lcd.SetModeNext(l, Lcd.VBlank))
      else
        s.(line := s.line.(lineTicks := 0), lcd := Lcd.SetModeNext(l, Lcd.OamScan))
    else s
  }

  /**
   * `mode_vblank` as written: the exit test `ly >= 154` comes after `inc_ly`,
   * which has already wrapped LY past 153 to 0, so it never holds.
   */
  function VBlankStepAsWritten(s: PpuState): PpuState
  {
    if s.line.lineTicks >= TicksPerLine then
      var l := Lcd.IncLyNext(s.lcd);
      if l.ly >= LinesPerFrame then
        s.(line := s.line.(lineTicks := 0, windowLine := 0), lcd := Lcd.SetModeNext(Lcd.SetLyNext(l, 0), Lcd.OamScan))
      else
        s.(line := s.line.(lineTicks := 0), lcd := l)
    else s
  }

  /**
   * `mode_vblank` as intended: after line 153 LY is back at 0, and the frame
   * restarts with OAM scan and the window line counter cleared.
   */
  function VBlankStep(s: PpuState): PpuState
  {
    if s.line.lineTicks >= TicksPerLine then
      var l := Lcd.IncLyNext(s.lcd);
      if l.ly == 0 then
        s.(line := s.line.(lineTicks := 0, windowLine := 0), lcd := Lcd.SetModeNext(Lcd.SetLyNext(l, 0), Lcd.OamScan))
      else
        s.(line := s.line.(lineTicks := 0), lcd := l)
    else s
  }

  /** `tick`: nothing while the LCD is off; otherwise one more dot and the current mode's step. */
  function TickNext(s: PpuState, vram: seq<Byte>, oam: seq<Byte>): PpuState
    requires |s.video| == BufferSize && |vram| == VramSize && IsOam(oam)
  {
    if !Lcd.LcdEnabled(s.lcd) then s
    else
      var s1 := s.(line := s.line.(lineTicks := AddU32(s.line.lineTicks, 1)));
      match Lcd.Mode(s.lcd)
      case OamScan => OamScanStep(s1, oam)
      case Transfer => TransferStep(s1, vram)
      case HBlank => HBlankStep(s1)
      case VBlank => VBlankStep(s1)
  }

  /**
   * The timing the PPU keeps: OAM scan before dot 80, transfer before dot
   * 252, each line shorter than 456 dots; lines 0-143 are drawn and lines
   * 144-153 are VBlank; at most ten sprites, counted; a full frame buffer.
   */
  predicate Phased(s: PpuState)
  {
    && Lcd.Valid(s.lcd)
    && |s.video| == BufferSize
    && s.line.spriteCount == |s.line.lineSprites| <= MaxLineSprites
    && (Lcd.Mode(s.lcd) == Lcd.VBlank <==> s.lcd.ly >= ScreenHeight)
    && match Lcd.Mode(s.lcd)
       case OamScan => s.line.lineTicks < OamScanEnd
       case Transfer => s.line.lineTicks < TransferEnd
       case HBlank => s.line.lineTicks < TicksPerLine
       case VBlank => s.line.lineTicks < TicksPerLine
  }

  /** Power-on: the LCD's registers at power-on and a cleared PPU keep the timing. */
  lemma PowerOnPhased()
    ensures Phased(PpuState(LineState(0, 0, 0, false, [], 0), seq(BufferSize, _ => 0), Lcd.PowerOn))
  {
    Lcd.Low2(0x02);
  }

  /** With the LCD off, a tick changes nothing. */
  lemma TickDisabled(s: PpuState, vram: seq<Byte>, oam: seq<Byte>)
    requires |s.video| == BufferSize && |vram| == VramSize && IsOam(oam)
    requires !Lcd.LcdEnabled(s.lcd)
    ensures TickNext(s, vram, oam) == s
  {
  }

  /**
   * During OAM scan a tick only counts the dot, until dot 80 chooses the
   * line's sprites and enters pixel transfer on the same line.
   */
  lemma TickOamScan(s: PpuState, vram: seq<Byte>, oam: seq<Byte>)
    requires |vram| == VramSize && IsOam(oam) && Phased(s)
    requires Lcd.LcdEnabled(s.lcd) && Lcd.Mode(s.lcd) == Lcd.OamScan
    ensures var t := TickNext(s, vram, oam);
            var dot := s.line.lineTicks + 1;
            && t.line.lineTicks == dot && t.lcd.ly == s.lcd.ly && t.video == s.video
            && t.line.currentFrame == s.line.currentFrame && t.line.windowLine == s.line.windowLine
            && Lcd.Mode(t.lcd) == (if dot == OamScanEnd then Lcd.Transfer else Lcd.OamScan)
            && (dot == OamScanEnd ==> t.line.lineSprites == LineSprites(oam, s.lcd))
            && (dot < OamScanEnd ==> t == s.(line := s.line.(lineTicks := dot)))
            && Phased(t)
  {
    Lcd.SetModeEffect(s.lcd, Lcd.Transfer);
    LineSpritesSpec(oam, s.lcd);
    assert |multiset(LineSprites(oam, s.lcd))| == |multiset(Selected(oam, s.lcd))|;
  }

  /**
   * During pixel transfer a tick only counts the dot, until dot 252 draws
   * the line into the frame buffer and enters HBlank.
   */
  lemma TickTransfer(s: PpuState, vram: seq<Byte>, oam: seq<Byte>)
    requires |vram| == VramSize && IsOam(oam) && Phased(s)
    requires Lcd.LcdEnabled(s.lcd) && Lcd.Mode(s.lcd) == Lcd.Transfer
    ensures var t := TickNext(s, vram, oam);
            var dot := s.line.lineTicks + 1;
            && t.line.lineTicks == dot && t.lcd.ly == s.lcd.ly && t.line.currentFrame == s.line.currentFrame
            && Lcd.Mode(t.lcd) == (if dot == TransferEnd then Lcd.HBlank else Lcd.Transfer)
            && (dot == TransferEnd ==>
                  t.video == Rendered(s.video, vram, s.line.lineSprites, s.lcd, s.line.windowLine) &&
                  t.line.windowLine == WindowLineAfter(s.lcd, s.line.windowLine))
            && (dot < TransferEnd ==> t == s.(line := s.line.(lineTicks := dot)))
            && Phased(t)
  {
    Lcd.SetModeEffect(s.lcd, Lcd.HBlank);
  }

  /**
   * At dot 456 of HBlank the next line starts at dot 0: line 144 enters
   * VBlank, requests the VBlank interrupt and counts a frame; any other line
   * starts with OAM scan.
   */
  lemma TickHBlank(s: PpuState, vram: seq<Byte>, oam: seq<Byte>)
    requires |vram| == VramSize && IsOam(oam) && Phased(s)
    requires Lcd.LcdEnabled(s.lcd) && Lcd.Mode(s.lcd) == Lcd.HBlank
    ensures var t := TickNext(s, vram, oam);
            var dot := s.line.lineTicks + 1;
            var entersVBlank := dot == TicksPerLine && s.lcd.ly + 1 == ScreenHeight;
            && t.video == s.video && t.line.windowLine == s.line.windowLine
            && t.line.lineTicks == (if dot == TicksPerLine then 0 else dot)
            && t.lcd.ly == (if dot == TicksPerLine then s.lcd.ly + 1 else s.lcd.ly)
            && Lcd.Mode(t.lcd) == (if dot < TicksPerLine then Lcd.HBlank else if entersVBlank then Lcd.VBlank else Lcd.OamScan)
            && t.line.currentFrame == (if entersVBlank then AddU32(s.line.currentFrame, 1) else s.line.currentFrame)
            && t.line.vblankInterrupt == (s.line.vblankInterrupt || entersVBlank)
            && Phased(t)
  {
    var s1 := s.(line := s.line.(lineTicks := s.line.lineTicks + 1));
    if s1.line.lineTicks >= TicksPerLine {
      var l := Lcd.IncLyNext(s1.lcd);
      Lcd.IncLyWraps(s1.lcd);
      Lcd.SetModeEffect(l, Lcd.VBlank);
      Lcd.SetModeEffect(l, Lcd.OamScan);
    }
  }

  /**
   * At dot 456 of VBlank the next line starts at dot 0: after line 153 the
   * frame restarts at line 0 with OAM scan and the window line counter
   * cleared; lines 145-153 stay in VBlank.
   */
  lemma TickVBlank(s: PpuState, vram: seq<Byte>, oam: seq<Byte>)
    requires |vram| == VramSize && IsOam(oam) && Phased(s)
    requires Lcd.LcdEnabled(s.lcd) && Lcd.Mode(s.lcd) == Lcd.VBlank
    ensures var t := TickNext(s, vram, oam);
            var dot := s.line.lineTicks + 1;
            var restarts := dot == TicksPerLine && s.lcd.ly == LinesPerFrame - 1;
            && t.video == s.video && t.line.currentFrame == s.line.currentFrame
            && t.line.vblankInterrupt == s.line.vblankInterrupt
            && t.line.lineTicks == (if dot == TicksPerLine then 0 else dot)
            && t.lcd.ly == (if dot < TicksPerLine then s.lcd.ly else if restarts then 0 else s.lcd.ly + 1)
            && Lcd.Mode(t.lcd) == (if restarts then Lcd.OamScan else Lcd.VBlank)
            && t.line.windowLine == (if restarts then 0 else s.line.windowLine)
            && Phased(t)
  {
    var s1 := s.(line := s.line.(lineTicks := s.line.lineTicks + 1));
    if s1.line.lineTicks >= TicksPerLine {
      var l := Lcd.IncLyNext(s1.lcd);
      Lcd.IncLyWraps(s1.lcd);
      Lcd.SetLyFlag(l, 0);
      Lcd.SetModeEffect(Lcd.SetLyNext(l, 0), Lcd.OamScan);
    }
  }

  /** Every tick keeps the timing, from any state that has it. */
  lemma TickPhased(s: PpuState, vram: seq<Byte>, oam: seq<Byte>)
    requires |vram| == VramSize && IsOam(oam) && Phased(s)
    ensures Phased(TickNext(s, vram, oam))
  {
    if Lcd.LcdEnabled(s.lcd) {
      match Lcd.Mode(s.lcd)
      case OamScan => TickOamScan(s, vram, oam);
      case Transfer => TickTransfer(s, vram, oam);
      case HBlank => TickHBlank(s, vram, oam);
      case VBlank => TickVBlank(s, vram, oam);
    }
  }

  /**
   * As written, the VBlank step never sets a mode: the PPU stays in VBlank
   * whatever the line.
   */
  lemma VBlankAsWrittenNeverEnds(s: PpuState)
    ensures Lcd.Mode(VBlankStepAsWritten(s).lcd) == Lcd.Mode(s.lcd)
  {
    Lcd.IncLyWraps(s.lcd);
  }

  /**
   * The input that shows it: at dot 456 of line 153 the as-written step
   * wraps LY to 0 but stays in VBlank, so line 0 is never drawn and the
   * timing the PPU should keep is lost.
   */
  lemma VBlankAsWrittenLosesFrame(s: PpuState)
    requires Lcd.Mode(s.lcd) == Lcd.VBlank && s.lcd.ly == 153 && s.line.lineTicks == TicksPerLine
    ensures VBlankStepAsWritten(s).lcd.ly == 0
    ensures Lcd.Mode(VBlankStepAsWritten(s).lcd) == Lcd.VBlank
    ensures !Phased(VBlankStepAsWritten(s))
  {
    Lcd.IncLyWraps(s.lcd);
  }

  // ---------------------------------------------------------------------
  // The PPU object

  /** The pixel processing unit. */
  class Ppu {
    const vram: array<Byte>
    const oam: array<Byte>
    const videoBuffer: array<U32>
    var currentFrame: U32
    var lineTicks: U32
    var windowLine: Byte
    var vblankInterrupt: bool
    var lineSprites: seq<OamEntry>
    var spriteCount: nat

    /** The buffers have their fixed sizes and are distinct. */
    predicate Valid()
      reads this
    {
      vram.Length == VramSize && oam.Length == OamSize && videoBuffer.Length == BufferSize && vram != oam
    }

    /** The scalar fields and the sprite list. */
    function Line(): LineState
      reads this
    {
      LineState(currentFrame, lineTicks, windowLine, vblankInterrupt, lineSprites, spriteCount)
    }

    /** What a tick reads and changes, together with the LCD registers. */
    function State(lcd: Lcd.Lcd): PpuState
      reads this, videoBuffer, lcd
    {
      PpuState(Line(), videoBuffer[..], lcd.State())
    }

    /** `Ppu::new()`: zeroed VRAM, OAM and frame buffer, no sprites. */
    constructor ()
      ensures Valid() && fresh(vram) && fresh(oam) && fresh(videoBuffer)
      ensures vram[..] == seq(VramSize, _ => 0) && oam[..] == seq(OamSize, _ => 0)
      ensures videoBuffer[..] == seq(BufferSize, _ => 0)
      ensures Line() == LineState(0, 0, 0, false, [], 0)
    {
      vram := new Byte[VramSize](_ => 0);
      oam := new Byte[OamSize](_ => 0);
      videoBuffer := new U32[BufferSize](_ => 0);
      currentFrame, lineTicks, windowLine, vblankInterrupt := 0, 0, 0, false;
      lineSprites, spriteCount := [], 0;
    }

    /** `init`: everything cleared again. */
    method Init()
      requires Valid()
      modifies this, vram, oam, videoBuffer
      ensures Valid()
      ensures vram[..] == seq(VramSize, _ => 0) && oam[..] == seq(OamSize, _ => 0)
      ensures videoBuffer[..] == seq(BufferSize, _ => 0)
      ensures Line() == LineState(0, 0, 0, false, [], 0)
    {
      forall i | 0 <= i < vram.Length {
        vram[i] := 0;
      }
      forall i | 0 <= i < oam.Length {
        oam[i] := 0;
      }
      forall i | 0 <= i < videoBuffer.Length {
        videoBuffer[i] := 0;
      }
      currentFrame := 0;
      lineTicks := 0;
      windowLine := 0;
      vblankInterrupt := false;
      lineSprites := [];
      spriteCount := 0;
    }

    /** `vram_write`: the byte at a in 0x8000-0x9FFF; any other address is ignored. */
    method VramWrite(a: Word, v: Byte)
      requires Valid()
      modifies vram
      ensures vram[..] == Ram.RegionWrite(old(vram[..]), VramBase, a, v)
    {
      var off := Ram.Offset(a, VramBase);
      if off < vram.Length {
        vram[off] := v;
      }
    }

    /** `oam_write`: the byte at a in 0xFE00-0xFE9F; any other address is ignored. */
    method OamWrite(a: Word, v: Byte)
      requires Valid()
      modifies oam
      ensures oam[..] == Ram.RegionWrite(old(oam[..]), OamBase, a, v)
    {
      var off := Ram.Offset(a, OamBase);
      if off < oam.Length {
        oam[off] := v;
      }
    }

    /**
     * `scan_oam`: the first ten entries in OAM order whose rows cover line
     * LY, sorted stably by X.
     */
    method ScanOam(l: Lcd.LcdState)
      requires Valid()
      modifies this
      ensures lineSprites == LineSprites(oam[..], l)
      ensures spriteCount == |Selected(oam[..], l)|
      ensures Line() == old(Line()).(lineSprites := lineSprites, spriteCount := spriteCount)
    {
      ghost var line0 := Line();
      ghost var table := oam[..];
      lineSprites := [];
      spriteCount := 0;
      var ly := l.ly;
      var h := Lcd.SpriteHeight(l);
      var i := 0;
      while i < 40
        invariant 0 <= i <= 40
        invariant table == oam[..]
        invariant lineSprites == Candidates(table, ly, h, i)
        invariant spriteCount == |lineSprites| <= MaxLineSprites
        invariant Line() == line0.(lineSprites := lineSprites, spriteCount := spriteCount)
      {
        if spriteCount >= MaxLineSprites {
          break;
        }
        var entry := EntryAt(oam[..], i);
        assert Candidates(table, ly, h, i + 1)
          == Candidates(table, ly, h, i) + (if Covers(entry, ly, h) then [entry] else []);
        var spriteY := entry.y - 16;
        if ly >= spriteY && ly < spriteY + h {
          lineSprites := lineSprites + [entry];
          spriteCount := spriteCount + 1;
        }
        i := i + 1;
      }
      if i < 40 {
        FirstTenSettled(oam[..], ly, h, i, 40);
      }
      assert lineSprites == Selected(oam[..], l);
      lineSprites := SortByX(lineSprites);
    }

    /**
     * `render_scanline`: for a line below 144, each of its 160 pixels gets
     * the colour of background, window and sprites in that order; then the
     * window line counter advances if the window was on this line.
     */
    method RenderScanline(l: Lcd.LcdState)
      requires Valid()
      modifies this, videoBuffer
      ensures videoBuffer[..] == Rendered(old(videoBuffer[..]), vram[..], lineSprites, l, old(windowLine))
      ensures Line() == old(Line()).(windowLine := WindowLineAfter(l, old(windowLine)))
    {
      var ly := l.ly;
      if ly >= ScreenHeight {
        return;
      }
      var x := 0;
      while x < ScreenWidth
        invariant 0 <= x <= ScreenWidth
        invariant Line() == old(Line())
        invariant forall k :: 0 <= k < BufferSize ==>
                    videoBuffer[k] == if ly * ScreenWidth <= k < ly * ScreenWidth + x
                                      then RenderedAt(old(videoBuffer[..]), vram[..], lineSprites, l, windowLine, k)
                                      else old(videoBuffer[k])
      {
        var color := PixelColor(l, x, ly);
        videoBuffer[ly * ScreenWidth + x] := Argb(color);
        x := x + 1;
      }
      assert videoBuffer[..] == Rendered(old(videoBuffer[..]), vram[..], lineSprites, l, windowLine);
      if Lcd.WindowEnabled(l) && l.wy <= l.ly && l.wx <= 166 {
        windowLine := AddByte(windowLine, 1);
      }
    }

    /**
     * The colour id one pixel of `render_scanline` gets: background, then a
     * visible window, then the first opaque sprite unless it is behind a
     * non-zero background.
     */
    method PixelColor(l: Lcd.LcdState, x: Byte, y: Byte) returns (color: Byte)
      requires Valid()
      ensures color == PixelShade(vram[..], lineSprites, l, windowLine, x, y)
    {
      color := 0;
      if Lcd.BgWindowEnabled(l) {
        color := BgPixel(vram[..], l, x, y);
      }
      if Lcd.WindowEnabled(l) && Lcd.BgWindowEnabled(l) {
        var w := WindowPixel(vram[..], l, windowLine, x, y);
        if w.Some? {
          color := w.value;
        }
      }
      if Lcd.SpritesEnabled(l) {
        var hit := SpritePixel(lineSprites, vram[..], l, x, y);
        if hit.Some? && (!hit.value.1 || color == 0) {
          color := hit.value.0;
        }
      }
    }

    /** `tick`: one dot of the PPU. */
    method Tick(lcd: Lcd.Lcd)
      requires Valid()
      modifies this, videoBuffer, lcd
      ensures State(lcd) == TickNext(old(State(lcd)), vram[..], oam[..])
    {
      if !Lcd.LcdEnabled(lcd.State()) {
        return;
      }
      lineTicks := AddU32(lineTicks, 1);
      match Lcd.Mode(lcd.State())
      case OamScan => ModeOamScan(lcd);
      case Transfer => ModeTransfer(lcd);
      case HBlank => ModeHBlank(lcd);
      case VBlank => ModeVBlank(lcd);
    }

    /** `mode_oam_scan`. */
    method ModeOamScan(lcd: Lcd.Lcd)
      requires Valid()
      modifies this, lcd
      ensures State(lcd) == OamScanStep(old(State(lcd)), oam[..])
    {
      if lineTicks >= OamScanEnd {
        ScanOam(lcd.State());
        lcd.SetMode(Lcd.Transfer);
      }
    }

    /** `mode_transfer`. */
    method ModeTransfer(lcd: Lcd.Lcd)
      requires Valid()
      modifies this, videoBuffer, lcd
      ensures State(lcd) == TransferStep(old(State(lcd)), vram[..])
    {
      if lineTicks >= TransferEnd {
        RenderScanline(lcd.State());
        lcd.SetMode(Lcd.HBlank);
      }
    }

    /** `mode_hblank`. */
    method ModeHBlank(lcd: Lcd.Lcd)
      requires Valid()
      modifies this, lcd
      ensures State(lcd) == HBlankStep(old(State(lcd)))
    {
      if lineTicks >= TicksPerLine {
        lineTicks := 0;
        lcd.IncLy();
        if lcd.ly >= ScreenHeight {
          lcd.SetMode(Lcd.VBlank);
          vblankInterrupt := true;
          currentFrame := AddU32(currentFrame, 1);
        } else {
          lcd.SetMode(Lcd.OamScan);
        }
      }
    }

    /** `mode_vblank`, with the exit after line 153 as intended. */
    method ModeVBlank(lcd: Lcd.Lcd)
      requires Valid()
      modifies this, lcd
      ensures State(lcd) == VBlankStep(old(State(lcd)))
    {
      if lineTicks >= TicksPerLine {
        lineTicks := 0;
        lcd.IncLy();
        if lcd.ly == 0 {
          lcd.SetLy(0);
          lcd.SetMode(Lcd.OamScan);
          windowLine := 0;
        }
      }
    }

    /** `clear_vblank_interrupt`. */
    method ClearVBlankInterrupt()
      modifies this
      ensures Line() == old(Line()).(vblankInterrupt := false)
    {
      vblankInterrupt := false;
    }
  }
}
