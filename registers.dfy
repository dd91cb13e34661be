/**
 * The LR35902 register file: eight 8-bit registers, SP and PC, the 16-bit
 * pair views AF, BC, DE and HL, and the Z/N/H/C flags kept in the high
 * nibble of F.
 */
module Registers {
  import opened Common

  /** A value snapshot of every register, used to state what a step changes. */
  datatype RegFile = RegFile(a: Byte, f: Byte, b: Byte, c: Byte, d: Byte, e: Byte,
                             h: Byte, l: Byte, pc: Word, sp: Word)

  /** `(hi as Word) << 8 | lo as Word`: the pair view of two 8-bit registers. */
  function Join(hi: Byte, lo: Byte): Word
  {
    hi * 0x100 + lo
  }

  /** `((value >> 8) & 0xFF) as Byte`. */
  function HighByte(w: Word): Byte
  {
    w / 0x100
  }

  /** `(value & 0xFF) as Byte`. */
  function LowByte(w: Word): Byte
  {
    w % 0x100
  }

  /** Splitting a word and joining the halves gives the word back. */
  lemma JoinSplit(w: Word)
    ensures Join(HighByte(w), LowByte(w)) == w
  {
  }

  /** Joining two bytes and splitting the word gives the bytes back. */
  lemma SplitJoin(hi: Byte, lo: Byte)
    ensures HighByte(Join(hi, lo)) == hi && LowByte(Join(hi, lo)) == lo
  {
  }

  /** The F value `set_af` stores, `(value & 0xF0) as Byte`: the low nibble is dropped. */
  function FlagNibble(w: Word): Byte
  {
    w % 0x100 / 0x10 * 0x10
  }

  /** AF written through `set_af` reads back as `value & 0xFFF0`: only its low four bits are cleared. */
  lemma AfRoundTrip(w: Word)
    ensures Join(HighByte(w), FlagNibble(w)) == w - w % 0x10
    ensures FlagNibble(w) % 0x10 == 0
  {
  }

  /** Masking the low nibble off twice is masking it once: a value `set_af` stored survives a second store. */
  lemma FlagNibbleIdempotent(w: Word)
    ensures FlagNibble(FlagNibble(w)) == FlagNibble(w)
  {
    var k := w % 0x100 / 0x10;
    DivMod256(0, 0x10 * k);
    DivMod16(k, 0);
  }

  /** Bit positions of the four flags in F. */
  const ZeroBit: nat := 7
  const SubtractBit: nat := 6
  const HalfCarryBit: nat := 5
  const CarryBit: nat := 4

  /** The F value `set_flags(z, n, h, c)` leaves: the four setters applied in order. */
  function WithFlags(f: Byte, z: bool, n: bool, h: bool, c: bool): Byte
  {
    BitSet(BitSet(BitSet(BitSet(f, ZeroBit, z), SubtractBit, n), HalfCarryBit, h), CarryBit, c)
  }

  /** The flag nibble z<<7 | n<<6 | h<<5 | c<<4 written as a sum of bits. */
  function FlagBits(z: bool, n: bool, h: bool, c: bool): Byte
  {
    (if z then 0x80 else 0) + (if n then 0x40 else 0) + (if h then 0x20 else 0) + (if c then 0x10 else 0)
  }

  /** `set_flags` on the `bv8` view: the high nibble is replaced and the low nibble kept. */
  lemma FlagSettersBits(x: bv8, z: bool, n: bool, h: bool, c: bool)
    ensures SetBits(SetBits(SetBits(SetBits(x, ZeroBit, z), SubtractBit, n), HalfCarryBit, h), CarryBit, c)
         == (x & 0x0F) | FlagBitsView(z, n, h, c)
  {
  }

  /**
   * `set_flags` replaces the high nibble of F by the four flags and keeps the
   * low nibble.
   */
  lemma WithFlagsNibbles(f: Byte, z: bool, n: bool, h: bool, c: bool)
    ensures WithFlags(f, z, n, h, c) == f % 0x10 + FlagBits(z, n, h, c)
  {
    WithFlagsBits(f, z, n, h, c);
    NibblesAdd(Bits(f) & 0x0F, FlagBitsView(z, n, h, c));
    LowNibbleValue(f);
  }

  /** `set_flags` as an operation on the `bv8` view of F. */
  lemma WithFlagsBits(f: Byte, z: bool, n: bool, h: bool, c: bool)
    ensures WithFlags(f, z, n, h, c) == ((Bits(f) & 0x0F) | FlagBitsView(z, n, h, c)) as int
  {
    var x := Bits(f);
    WithFlagsView(f, z, n, h, c);
    FlagSettersBits(x, z, n, h, c);
    ByteOfBits(WithFlags(f, z, n, h, c));
  }

  /** From F = 0, `set_flags` yields exactly the flag bits: 0xA0 for Z and H, 0x50 for N and C. */
  lemma WithFlagsFromZero(z: bool, n: bool, h: bool, c: bool)
    ensures WithFlags(0, z, n, h, c) == FlagBits(z, n, h, c)
    ensures WithFlags(0, true, false, true, false) == 0xA0
    ensures WithFlags(0, false, true, false, true) == 0x50
  {
    WithFlagsNibbles(0, z, n, h, c);
    WithFlagsNibbles(0, true, false, true, false);
    WithFlagsNibbles(0, false, true, false, true);
  }

  /** The flag bits on the `bv8` view; their value is `FlagBits`. */
  function FlagBitsView(z: bool, n: bool, h: bool, c: bool): (x: bv8)
    ensures x & 0x0F == 0 && x as int == FlagBits(z, n, h, c)
  {
    (if z then 0x80 else 0) | (if n then 0x40 else 0) | (if h then 0x20 else 0) | (if c then 0x10 else 0)
  }

  /** The `bv8` view of `set_flags`' result is the four setters applied to the view. */
  lemma WithFlagsView(f: Byte, z: bool, n: bool, h: bool, c: bool)
    ensures Bits(WithFlags(f, z, n, h, c))
         == SetBits(SetBits(SetBits(SetBits(Bits(f), ZeroBit, z), SubtractBit, n), HalfCarryBit, h), CarryBit, c)
  {
    var x := Bits(f);
    var f1 := BitSet(f, ZeroBit, z);
    var x1 := SetBits(x, ZeroBit, z);
    assert Bits(f1) == x1 by { BitSetView(f, ZeroBit, z); }
    var f2 := BitSet(f1, SubtractBit, n);
    var x2 := SetBits(x1, SubtractBit, n);
    assert Bits(f2) == x2 by { BitSetView(f1, SubtractBit, n); }
    var f3 := BitSet(f2, HalfCarryBit, h);
    var x3 := SetBits(x2, HalfCarryBit, h);
    assert Bits(f3) == x3 by { BitSetView(f2, HalfCarryBit, h); }
    BitSetView(f3, CarryBit, c);
  }

  /** A low nibble and a high nibble combined by `|` have the sum of their values. */
  lemma NibblesAdd(lo: bv8, hi: bv8)
    requires lo & 0xF0 == 0 && hi & 0x0F == 0
    ensures (lo | hi) as int == lo as int + hi as int
  {
  }

  /** `value & 0x0F` is the value modulo 16. */
  lemma LowNibbleValue(v: Byte)
    ensures (Bits(v) & 0x0F) as int == v % 0x10
  {
    ByteOfBits(v);
    LowNibbleOfBits(Bits(v));
  }

  /** On `bv8`, `x & 0x0F` read as an integer is x modulo 16. */
  lemma LowNibbleOfBits(x: bv8)
    ensures (x & 0x0F) as int == x as int % 0x10
  {
  }

  /** Each flag of `set_flags` reads back. */
  lemma WithFlagsReadBack(f: Byte, z: bool, n: bool, h: bool, c: bool)
    ensures Bit(WithFlags(f, z, n, h, c), ZeroBit) == z
    ensures Bit(WithFlags(f, z, n, h, c), SubtractBit) == n
    ensures Bit(WithFlags(f, z, n, h, c), HalfCarryBit) == h
    ensures Bit(WithFlags(f, z, n, h, c), CarryBit) == c
  {
    var f1 := BitSet(f, ZeroBit, z);
    var f2 := BitSet(f1, SubtractBit, n);
    var f3 := BitSet(f2, HalfCarryBit, h);
    BitSetReadsBack(f3, CarryBit, c);
    BitSetReadsBack(f2, HalfCarryBit, h);
    BitSetOthers(f3, CarryBit, c, HalfCarryBit);
    BitSetReadsBack(f1, SubtractBit, n);
    BitSetOthers(f2, HalfCarryBit, h, SubtractBit);
    BitSetOthers(f3, CarryBit, c, SubtractBit);
    BitSetReadsBack(f, ZeroBit, z);
    BitSetOthers(f1, SubtractBit, n, ZeroBit);
    BitSetOthers(f2, HalfCarryBit, h, ZeroBit);
    BitSetOthers(f3, CarryBit, c, ZeroBit);
  }

  class Registers {
    var a: Byte
    var f: Byte
    var b: Byte
    var c: Byte
    var d: Byte
    var e: Byte
    var h: Byte
    var l: Byte
    var pc: Word
    var sp: Word

    /** Every register as one value. */
    function State(): RegFile
      reads this
    {
      RegFile(a, f, b, c, d, e, h, l, pc, sp)
    }

    /** `Registers::new()`: all zero. */
    constructor ()
      ensures State() == RegFile(0, 0, 0, 0, 0, 0, 0, 0, 0, 0)
    {
      a, f, b, c, d, e, h, l := 0, 0, 0, 0, 0, 0, 0, 0;
      pc, sp := 0, 0;
    }

    /** `af()`: A is the high byte and F the low byte. */
    function AF(): (r: Word)
      reads this
      ensures HighByte(r) == a && LowByte(r) == f
    {
      Join(a, f)
    }

    /** `bc()`. */
    function BC(): (r: Word)
      reads this
      ensures HighByte(r) == b && LowByte(r) == c
    {
      Join(b, c)
    }

    /** `de()`. */
    function DE(): (r: Word)
      reads this
      ensures HighByte(r) == d && LowByte(r) == e
    {
      Join(d, e)
    }

    /** `hl()`. */
    function HL(): (r: Word)
      reads this
      ensures HighByte(r) == h && LowByte(r) == l
    {
      Join(h, l)
    }

    /** `set_af`: only A and F change; A gets the high byte and F the flag nibble (see `AfRoundTrip`). */
    method SetAF(v: Word)
      modifies this
      ensures State() == old(State()).(a := HighByte(v), f := FlagNibble(v))
    {
      a := HighByte(v);
      f := FlagNibble(v);
    }

    /** `set_bc`: only B and C change, to the high and low byte of v (see `JoinSplit`). */
    method SetBC(v: Word)
      modifies this
      ensures State() == old(State()).(b := HighByte(v), c := LowByte(v))
    {
      b := HighByte(v);
      c := LowByte(v);
    }

    /** `set_de`: only D and E change, to the high and low byte of v (see `JoinSplit`). */
    method SetDE(v: Word)
      modifies this
      ensures State() == old(State()).(d := HighByte(v), e := LowByte(v))
    {
      d := HighByte(v);
      e := LowByte(v);
    }

    /** `set_hl`: only H and L change, to the high and low byte of v (see `JoinSplit`). */
    method SetHL(v: Word)
      modifies this
      ensures State() == old(State()).(h := HighByte(v), l := LowByte(v))
    {
      h := HighByte(v);
      l := LowByte(v);
    }

    /** `flag_z()`: bit 7 of F. */
    predicate FlagZ()
      reads this
    {
      Bit(f, ZeroBit)
    }

    /** `flag_n()`: bit 6 of F. */
    predicate FlagN()
      reads this
    {
      Bit(f, SubtractBit)
    }

    /** `flag_h()`: bit 5 of F. */
    predicate FlagH()
      reads this
    {
      Bit(f, HalfCarryBit)
    }

    /** `flag_c()`: bit 4 of F. */
    predicate FlagC()
      reads this
    {
      Bit(f, CarryBit)
    }

    /** `set_flag_z`: Z reads back as `on`; no other bit of F and no other register changes. */
    method SetFlagZ(on: bool)
      modifies this
      ensures State() == old(State()).(f := BitSet(old(f), ZeroBit, on))
      ensures FlagZ() == on
      ensures forall k :: 0 <= k < 8 && k != ZeroBit ==> Bit(f, k) == Bit(old(f), k)
    {
      ghost var f0 := f;
      f := BitSet(f, ZeroBit, on);
      BitSetReadsBack(f0, ZeroBit, on);
      forall k | 0 <= k < 8 && k != ZeroBit ensures Bit(f, k) == Bit(f0, k) {
        BitSetOthers(f0, ZeroBit, on, k);
      }
    }

    /** `set_flag_n`. */
    method SetFlagN(on: bool)
      modifies this
      ensures State() == old(State()).(f := BitSet(old(f), SubtractBit, on))
      ensures FlagN() == on
      ensures forall k :: 0 <= k < 8 && k != SubtractBit ==> Bit(f, k) == Bit(old(f), k)
    {
      ghost var f0 := f;
      f := BitSet(f, SubtractBit, on);
      BitSetReadsBack(f0, SubtractBit, on);
      forall k | 0 <= k < 8 && k != SubtractBit ensures Bit(f, k) == Bit(f0, k) {
        BitSetOthers(f0, SubtractBit, on, k);
      }
    }

    /** `set_flag_h`. */
    method SetFlagH(on: bool)
      modifies this
      ensures State() == old(State()).(f := BitSet(old(f), HalfCarryBit, on))
      ensures FlagH() == on
      ensures forall k :: 0 <= k < 8 && k != HalfCarryBit ==> Bit(f, k) == Bit(old(f), k)
    {
      ghost var f0 := f;
      f := BitSet(f, HalfCarryBit, on);
      BitSetReadsBack(f0, HalfCarryBit, on);
      forall k | 0 <= k < 8 && k != HalfCarryBit ensures Bit(f, k) == Bit(f0, k) {
        BitSetOthers(f0, HalfCarryBit, on, k);
      }
    }

    /** `set_flag_c`. */
    method SetFlagC(on: bool)
      modifies this
      ensures State() == old(State()).(f := BitSet(old(f), CarryBit, on))
      ensures FlagC() == on
      ensures forall k :: 0 <= k < 8 && k != CarryBit ==> Bit(f, k) == Bit(old(f), k)
    {
      ghost var f0 := f;
      f := BitSet(f, CarryBit, on);
      BitSetReadsBack(f0, CarryBit, on);
      forall k | 0 <= k < 8 && k != CarryBit ensures Bit(f, k) == Bit(f0, k) {
        BitSetOthers(f0, CarryBit, on, k);
      }
    }

    /** `set_flags`: the four setters in order; the low nibble of F is kept. */
    method SetFlags(z: bool, n: bool, hc: bool, cy: bool)
      modifies this
      ensures State() == old(State()).(f := WithFlags(old(f), z, n, hc, cy))
      ensures FlagZ() == z && FlagN() == n && FlagH() == hc && FlagC() == cy
    {
      ghost var f0 := f;
      SetFlagZ(z);
      SetFlagN(n);
      SetFlagH(hc);
      SetFlagC(cy);
      WithFlagsReadBack(f0, z, n, hc, cy);
    }
  }
}
