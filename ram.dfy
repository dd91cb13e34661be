/**
 * Work RAM (8 KiB at 0xC000-0xDFFF) and high RAM (127 bytes at
 * 0xFF80-0xFFFE). Each is a fixed array addressed by the offset
 * `address.wrapping_sub(base)`: an offset past the end of the array reads
 * 0xFF and drops a write, and because the subtraction wraps, an address below
 * the base is past the end as well.
 */
module Ram {
  import opened Common

  const WramBase: Word := 0xC000
  const WramSize: nat := 0x2000
  const HramBase: Word := 0xFF80
  const HramSize: nat := 0x7F

  /** `address.wrapping_sub(base)`. */
  function Offset(a: Word, base: Word): (r: Word)
    ensures base <= a ==> r == a - base
    ensures a < base ==> r == a - base + 0x1_0000
  {
    AddWord(a, -(base as int))
  }

  /** The address lies in the region of |s| bytes starting at base. */
  predicate InRegion(s: seq<Byte>, base: Word, a: Word)
  {
    base <= a < base + |s|
  }

  /**
   * A bounds-checked read through the wrapping offset: the region's byte for
   * an address inside it, 0xFF for every other address.
   */
  function RegionRead(s: seq<Byte>, base: Word, a: Word): (r: Byte)
    requires base + |s| <= 0x1_0000
    ensures InRegion(s, base, a) ==> r == s[a - base]
    ensures !InRegion(s, base, a) ==> r == 0xFF
  {
    var off := Offset(a, base);
    if off >= |s| then 0xFF else s[off]
  }

  /**
   * A bounds-checked write through the wrapping offset: only the addressed
   * byte changes, and an address outside the region changes nothing.
   */
  function RegionWrite(s: seq<Byte>, base: Word, a: Word, v: Byte): (r: seq<Byte>)
    requires base + |s| <= 0x1_0000
    ensures |r| == |s|
    ensures InRegion(s, base, a) ==> r == s[a - base := v]
    ensures !InRegion(s, base, a) ==> r == s
  {
    var off := Offset(a, base);
    if off < |s| then s[off := v] else s
  }

  /**
   * A write then a read of the same region: the written address reads back
   * the value, every other address reads what it read before.
   */
  lemma RegionRoundTrip(s: seq<Byte>, base: Word, a: Word, b: Word, v: Byte)
    requires base + |s| <= 0x1_0000
    ensures RegionRead(RegionWrite(s, base, a, v), base, b) ==
            if b == a && InRegion(s, base, a) then v else RegionRead(s, base, b)
  {
  }

  /** A region of zeros reads 0 inside and 0xFF outside. */
  lemma ZeroRegion(n: nat, base: Word, a: Word)
    requires base + n <= 0x1_0000
    ensures RegionRead(seq(n, _ => 0), base, a) == if base <= a < base + n then 0 else 0xFF
  {
  }

  /** The two RAM areas: work RAM and high RAM. */
  class Ram {
    const wram: array<Byte>
    const hram: array<Byte>

    predicate Valid()
      reads this
    {
      wram.Length == WramSize && hram.Length == HramSize
    }

    /** `Ram::new()`: both arrays zeroed. */
    constructor ()
      ensures Valid() && fresh(wram) && fresh(hram)
      ensures wram[..] == seq(WramSize, _ => 0) && hram[..] == seq(HramSize, _ => 0)
    {
      wram := new Byte[WramSize](_ => 0);
      hram := new Byte[HramSize](_ => 0);
    }

    /** `wram_read`: the byte at a for 0xC000-0xDFFF, 0xFF for any other address. */
    function WramRead(a: Word): (r: Byte)
      reads this, wram
      requires Valid()
      ensures Between(a, 0xC000, 0xDFFF) ==> r == wram[a - 0xC000]
      ensures !Between(a, 0xC000, 0xDFFF) ==> r == 0xFF
    {
      RegionRead(wram[..], WramBase, a)
    }

    /** `wram_write`: stores v for 0xC000-0xDFFF, ignores any other address. */
    method WramWrite(a: Word, v: Byte)
      requires Valid()
      modifies wram
      ensures wram[..] == RegionWrite(old(wram[..]), WramBase, a, v)
    {
      var off := Offset(a, WramBase);
      if off < WramSize {
        wram[off] := v;
      }
    }

    /** `hram_read`: the byte at a for 0xFF80-0xFFFE, 0xFF for any other address. */
    function HramRead(a: Word): (r: Byte)
      reads this, hram
      requires Valid()
      ensures Between(a, 0xFF80, 0xFFFE) ==> r == hram[a - 0xFF80]
      ensures !Between(a, 0xFF80, 0xFFFE) ==> r == 0xFF
    {
      RegionRead(hram[..], HramBase, a)
    }

    /** `hram_write`: stores v for 0xFF80-0xFFFE, ignores any other address. */
    method HramWrite(a: Word, v: Byte)
      requires Valid()
      modifies hram
      ensures hram[..] == RegionWrite(old(hram[..]), HramBase, a, v)
    {
      var off := Offset(a, HramBase);
      if off < HramSize {
        hram[off] := v;
      }
    }
  }
}
