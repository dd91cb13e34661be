/**
 * Byte and word types shared by every component, the bit helpers `bit`,
 * `bit_set` and `between`, and a flat 64 KiB memory used where a component
 * talks to the memory bus through reads and writes only.
 *
 * Bytes and words are bounded integers; the bitwise operators of the source
 * are computed on the `bv8` view of a byte (`Bits(v)`) and converted back,
 * and the wrapping arithmetic of `u8`/`u16` is written out with `%`.
 */
module Common {
  /** `u8` in the source. */
  type Byte = x: int | 0 <= x < 0x100
  /** `u16` in the source. */
  type Word = x: int | 0 <= x < 0x1_0000

  /** `u32` in the source, kept as a bounded integer. */
  const U32Max: int := 0xFFFF_FFFF
  type U32 = x: int | 0 <= x <= U32Max

  /** Rust's `Option`. */
  datatype Option<T> = None | Some(value: T)

  /** `a.wrapping_add(b)` on `u8`; a negative b is a wrapping subtraction. */
  function AddByte(a: Byte, b: int): (r: Byte)
    ensures 0 <= a + b < 0x100 ==> r == a + b
    ensures 0x100 <= a + b < 0x200 ==> r == a + b - 0x100
    ensures -0x100 <= a + b < 0 ==> r == a + b + 0x100
  {
    (a + b) % 0x100
  }

  /** `a.wrapping_add(b)` on `u16`; a negative b is a wrapping subtraction. */
  function AddWord(a: Word, b: int): (r: Word)
    ensures 0 <= a + b < 0x1_0000 ==> r == a + b
    ensures 0x1_0000 <= a + b < 0x2_0000 ==> r == a + b - 0x1_0000
    ensures -0x1_0000 <= a + b < 0 ==> r == a + b + 0x1_0000
  {
    (a + b) % 0x1_0000
  }

  /** A value written as 2 * k + t with 0 <= t < 2 has quotient k and remainder t. */
  lemma DivMod2(k: int, t: int)
    requires 0 <= t < 2
    ensures (2 * k + t) / 2 == k && (2 * k + t) % 2 == t
  {
  }

  /** The same for nibbles: quotient k and remainder t of 0x10 * k + t. */
  lemma DivMod16(k: int, t: int)
    requires 0 <= t < 0x10
    ensures (0x10 * k + t) / 0x10 == k && (0x10 * k + t) % 0x10 == t
  {
  }

  /** The same for the halves of a byte. */
  lemma DivMod128(k: int, t: int)
    requires 0 <= t < 0x80
    ensures (0x80 * k + t) / 0x80 == k && (0x80 * k + t) % 0x80 == t
  {
  }

  /** The same for bytes. */
  lemma DivMod256(k: int, t: int)
    requires 0 <= t < 0x100
    ensures (0x100 * k + t) / 0x100 == k && (0x100 * k + t) % 0x100 == t
  {
  }

  /** The same for words. */
  lemma DivMod65536(k: int, t: int)
    requires 0 <= t < 0x1_0000
    ensures (0x1_0000 * k + t) / 0x1_0000 == k && (0x1_0000 * k + t) % 0x1_0000 == t
  {
  }

  /**
   * The `bv8` view of a byte (`v as u8` in bit operations), built up bit by
   * bit from the top so that the solver never converts an unknown integer.
   */
  function Bits(v: Byte): bv8
    decreases v
  {
    if v == 0 then 0 else (Bits(v / 2) << 1) | (if v % 2 == 1 then 1 else 0)
  }

  /** Shifting a bit in at the bottom of a byte below 0x80 doubles it and adds the bit. */
  lemma ShiftInValue(x: bv8, b: bool)
    requires x as int < 0x80
    ensures ((x << 1) | (if b then 1 else 0)) as int == 2 * (x as int) + (if b then 1 else 0)
  {
  }

  /** The `bv8` view of a byte read back as an integer is the byte itself. */
  lemma {:induction false} ByteOfBits(v: Byte)
    ensures Bits(v) as int == v
    decreases v
  {
    if v != 0 {
      ByteOfBits(v / 2);
      ShiftInValue(Bits(v / 2), v % 2 == 1);
    }
  }

  /** The view of a `bv8`'s integer value is the `bv8` itself. */
  lemma BitsOfByte(x: bv8)
    ensures Bits(x as int) == x
  {
    ByteOfBits(x as int);
  }

  /** `a & b` on bytes. */
  function And(a: Byte, b: Byte): Byte
  {
    (Bits(a) & Bits(b)) as int
  }

  /** `a | b` on bytes. */
  function Or(a: Byte, b: Byte): Byte
  {
    (Bits(a) | Bits(b)) as int
  }

  /** `a ^ b` on bytes. */
  function Xor(a: Byte, b: Byte): Byte
  {
    (Bits(a) ^ Bits(b)) as int
  }

  /** `!a` on bytes. */
  function Not(a: Byte): Byte
  {
    (!Bits(a)) as int
  }

  /** `1 << n` on `u8`, for a bit position of a byte. */
  function Mask(n: nat): bv8
    requires n < 8
  {
    if n == 0 then 0x01 else if n == 1 then 0x02 else if n == 2 then 0x04 else if n == 3 then 0x08
    else if n == 4 then 0x10 else if n == 5 then 0x20 else if n == 6 then 0x40 else 0x80
  }

  /** Bit n of a `bv8` by the mask test `x & (1 << n) != 0`. */
  predicate BitOfBits(x: bv8, n: nat)
    requires n < 8
  {
    x & Mask(n) != 0
  }

  /**
   * 2 to the power n: the value of `1 << n` while nothing is shifted out.
   * The bit positions of a byte are listed, larger exponents go a byte at a time.
   */
  function Pow2(n: nat): (r: nat)
    ensures r >= 1
    ensures n < 8 ==> r < 0x100
  {
    if n == 0 then 1 else if n == 1 then 2 else if n == 2 then 4 else if n == 3 then 8
    else if n == 4 then 16 else if n == 5 then 32 else if n == 6 then 64 else if n == 7 then 128
    else 256 * Pow2(n - 8)
  }

  /** Each further power doubles the previous one. */
  lemma {:induction false} Pow2Step(n: nat)
    requires n >= 1
    ensures Pow2(n) == 2 * Pow2(n - 1)
  {
    if n > 8 {
      Pow2Step(n - 8);
    }
  }

  /** Bit n of v read off arithmetically: the reference meaning of "bit n is 1". */
  predicate BitOf(v: Byte, n: nat)
    requires n < 8
  {
    (v / Pow2(n)) % 2 == 1
  }

  /** Bit n of a 16-bit value, `(w >> n) & 1 == 1`. */
  predicate WordBit(w: Word, n: nat)
  {
    (w / Pow2(n)) % 2 == 1
  }

  /** A value whose bit n is set is at least 2 to the n. */
  lemma WordBitBound(w: Word, n: nat)
    requires WordBit(w, n)
    ensures Pow2(n) <= w
  {
    QuotientBound(w, Pow2(n));
  }

  /** A positive quotient means the divisor is at most the dividend. */
  lemma QuotientBound(w: nat, p: nat)
    requires p >= 1 && (w / p) % 2 == 1
    ensures p <= w
  {
  }

  /**
   * `bit(value, n)`: the single-bit mask test. `1 << n` overflows a `u8` for
   * n >= 8, so the position is required to be a bit of the byte.
   */
  predicate Bit(v: Byte, n: nat)
    requires n < 8
  {
    BitOfBits(Bits(v), n)
  }

  /** The mask test agrees with the arithmetic bit, for every byte and position. */
  lemma {:induction false} BitIsBitOf(v: Byte, n: nat)
    requires n < 8
    ensures Bit(v, n) <==> BitOf(v, n)
    decreases v
  {
    if v == 0 {
      assert Bits(0) == 0;
    } else {
      ShiftInBit(Bits(v / 2), v % 2 == 1, n);
      if n != 0 {
        BitIsBitOf(v / 2, n - 1);
        HalfDigit(v, n);
      }
    }
  }

  /** Bit n of a byte with a bit shifted in at the bottom: the new bit for n = 0, else old bit n - 1. */
  lemma ShiftInBit(x: bv8, b: bool, n: nat)
    requires n < 8
    ensures ((x << 1) | (if b then 1 else 0)) & Mask(n) != 0 <==> if n == 0 then b else x & Mask(n - 1) != 0
  {
    if n == 0 {} else if n == 1 {} else if n == 2 {} else if n == 3 {}
    else if n == 4 {} else if n == 5 {} else if n == 6 {} else {}
  }

  /** Dividing by 2 to the n is halving and then dividing by 2 to the n - 1. */
  lemma HalfDigit(v: Byte, n: nat)
    requires 1 <= n < 8
    ensures v / Pow2(n) == (v / 2) / Pow2(n - 1)
  {
    if n == 1 {} else if n == 2 {} else if n == 3 {} else if n == 4 {}
    else if n == 5 {} else if n == 6 {} else {}
  }

  /** `1 << n` has the value 2 to the power n. */
  lemma MaskValue(n: nat)
    requires n < 8
    ensures Mask(n) as int == Pow2(n)
  {
  }

  /** `bit_set` on the `bv8` view. */
  function SetBits(x: bv8, n: nat, on: bool): bv8
    requires n < 8
  {
    if on then x | Mask(n) else x & !Mask(n)
  }

  /**
   * `bit_set(&mut value, n, on)`: the updated byte is returned instead of
   * written through the reference.
   */
  function BitSet(v: Byte, n: nat, on: bool): (r: Byte)
    requires n < 8
  {
    SetBits(Bits(v), n, on) as int
  }

  /** A `bv8` with exactly one bit set. */
  predicate SingleBit(m: bv8)
  {
    m == 0x01 || m == 0x02 || m == 0x04 || m == 0x08 || m == 0x10 || m == 0x20 || m == 0x40 || m == 0x80
  }

  /** Every `1 << n` has exactly one bit set. */
  lemma MaskIsSingleBit(n: nat)
    requires n < 8
    ensures SingleBit(Mask(n))
  {
  }

  /** The mask test on `x & y` is the conjunction of the two bits. */
  lemma BitsOfAnd(x: bv8, y: bv8, m: bv8)
    requires SingleBit(m)
    ensures ((x & y) & m != 0) == ((x & m != 0) && (y & m != 0))
  {
  }

  /** The mask test on `x | y` is the disjunction of the two bits. */
  lemma BitsOfOr(x: bv8, y: bv8, m: bv8)
    requires SingleBit(m)
    ensures ((x | y) & m != 0) == ((x & m != 0) || (y & m != 0))
  {
  }

  /** The mask test on `x ^ y` is the exclusive or of the two bits. */
  lemma BitsOfXor(x: bv8, y: bv8, m: bv8)
    requires SingleBit(m)
    ensures ((x ^ y) & m != 0) == ((x & m != 0) != (y & m != 0))
  {
  }

  /** Every bit of `a & b` is set exactly when it is set in both a and b. */
  lemma AndBits(a: Byte, b: Byte, n: nat)
    requires n < 8
    ensures Bit(And(a, b), n) == (Bit(a, n) && Bit(b, n))
  {
    AndView(a, b);
    MaskIsSingleBit(n);
    BitsOfAnd(Bits(a), Bits(b), Mask(n));
  }

  /** The `bv8` view of `a & b` is the conjunction of the views. */
  lemma AndView(a: Byte, b: Byte)
    ensures Bits(And(a, b)) == Bits(a) & Bits(b)
  {
    BitsOfByte(Bits(a) & Bits(b));
  }

  /** Every bit of `a | b` is set exactly when it is set in a or in b. */
  lemma OrBits(a: Byte, b: Byte, n: nat)
    requires n < 8
    ensures Bit(Or(a, b), n) == (Bit(a, n) || Bit(b, n))
  {
    OrView(a, b);
    MaskIsSingleBit(n);
    BitsOfOr(Bits(a), Bits(b), Mask(n));
  }

  /** The `bv8` view of `a | b` is the disjunction of the views. */
  lemma OrView(a: Byte, b: Byte)
    ensures Bits(Or(a, b)) == Bits(a) | Bits(b)
  {
    BitsOfByte(Bits(a) | Bits(b));
  }

  /** Every bit of `a ^ b` is set exactly when a and b differ in it. */
  lemma XorBits(a: Byte, b: Byte, n: nat)
    requires n < 8
    ensures Bit(Xor(a, b), n) == (Bit(a, n) != Bit(b, n))
  {
    XorView(a, b);
    MaskIsSingleBit(n);
    BitsOfXor(Bits(a), Bits(b), Mask(n));
  }

  /** The `bv8` view of `a ^ b` is the exclusive or of the views. */
  lemma XorView(a: Byte, b: Byte)
    ensures Bits(Xor(a, b)) == Bits(a) ^ Bits(b)
  {
    BitsOfByte(Bits(a) ^ Bits(b));
  }

  /** The `bv8` view of `!a` is the complement of the view. */
  lemma NotView(a: Byte)
    ensures Bits(Not(a)) == !Bits(a)
  {
    BitsOfByte(!Bits(a));
  }

  /** Every bit of `!a` is the complement of that bit of a. */
  lemma NotBits(a: Byte, n: nat)
    requires n < 8
    ensures Bit(Not(a), n) == !Bit(a, n)
  {
    NotView(a);
    MaskIsSingleBit(n);
  }

  /** `a & b` is zero exactly when the views have no set bit in common. */
  lemma AndIsZero(a: Byte, b: Byte)
    ensures And(a, b) == 0 <==> Bits(a) & Bits(b) == 0
  {
    BitsOfByte(Bits(a) & Bits(b));
  }

  /** The mask test `v & (1 << n) == 0` is the test that bit n is clear. */
  lemma MaskTest(v: Byte, n: nat)
    requires n < 8
    ensures And(v, Pow2(n)) == 0 <==> !Bit(v, n)
  {
    AndIsZero(v, Pow2(n));
    MaskValue(n);
    BitsOfByte(Mask(n));
  }

  /** Each mask of the n low bits, `v & (2^n - 1)`, is v modulo 2 to the n. */
  lemma LowMasks(v: Byte)
    ensures And(v, 0x01) == v % 2
    ensures And(v, 0x03) == v % 4
    ensures And(v, 0x07) == v % 8
    ensures And(v, 0x0F) == v % 16
    ensures And(v, 0x1F) == v % 32
    ensures And(v, 0x3F) == v % 64
    ensures And(v, 0x7F) == v % 128
  {
    ByteOfBits(v);
    assert Bits(0x01) == 0x01;
    LowBits1(Bits(v));
    assert Bits(0x03) == 0x03;
    LowBits2(Bits(v));
    assert Bits(0x07) == 0x07;
    LowBits3(Bits(v));
    assert Bits(0x0F) == 0x0F;
    LowBits4(Bits(v));
    assert Bits(0x1F) == 0x1F;
    LowBits5(Bits(v));
    assert Bits(0x3F) == 0x3F;
    LowBits6(Bits(v));
    assert Bits(0x7F) == 0x7F;
    LowBits7(Bits(v));
  }

  /** The low bit of a `bv8`, as an integer, is its value modulo 2. */
  lemma LowBits1(x: bv8)
    ensures (x & 0x01) as int == (x as int) % 2
  {
  }

  /** The 2 low bits of a `bv8`, as an integer, are its value modulo 4. */
  lemma LowBits2(x: bv8)
    ensures (x & 0x03) as int == (x as int) % 4
  {
  }

  /** The 3 low bits of a `bv8`, as an integer, are its value modulo 8. */
  lemma LowBits3(x: bv8)
    ensures (x & 0x07) as int == (x as int) % 8
  {
  }

  /** The 4 low bits of a `bv8`, as an integer, are its value modulo 16. */
  lemma LowBits4(x: bv8)
    ensures (x & 0x0F) as int == (x as int) % 16
  {
  }

  /** The 5 low bits of a `bv8`, as an integer, are its value modulo 32. */
  lemma LowBits5(x: bv8)
    ensures (x & 0x1F) as int == (x as int) % 32
  {
  }

  /** The 6 low bits of a `bv8`, as an integer, are its value modulo 64. */
  lemma LowBits6(x: bv8)
    ensures (x & 0x3F) as int == (x as int) % 64
  {
  }

  /** The 7 low bits of a `bv8`, as an integer, are its value modulo 128. */
  lemma LowBits7(x: bv8)
    ensures (x & 0x7F) as int == (x as int) % 128
  {
  }

  /** Setting or clearing the bits of one mask leaves a different single bit as it was. */
  lemma SetBitsOther(x: bv8, m: bv8, p: bv8, on: bool)
    requires SingleBit(m) && SingleBit(p) && m != p
    ensures ((if on then x | m else x & !m) & p != 0) == (x & p != 0)
  {
  }

  /** Setting or clearing a single bit: it reads back, it is idempotent, and setting it to its value is no change. */
  lemma SetBitsSame(x: bv8, m: bv8, on: bool)
    requires SingleBit(m)
    ensures ((if on then x | m else x & !m) & m != 0) == on
    ensures (if on then x | m else x & !m) == (if on then (x | m) | m else (x & !m) & !m)
    ensures (if x & m != 0 then x | m else x & !m) == x
  {
  }

  /** The `bv8` view of `bit_set`'s result is `bit_set` on the view. */
  lemma BitSetView(v: Byte, n: nat, on: bool)
    requires n < 8
    ensures Bits(BitSet(v, n, on)) == SetBits(Bits(v), n, on)
  {
    BitsOfByte(SetBits(Bits(v), n, on));
  }

  /** After `bit_set`, bit n reads back as `on`. */
  lemma BitSetReadsBack(v: Byte, n: nat, on: bool)
    requires n < 8
    ensures Bit(BitSet(v, n, on), n) == on
  {
    BitSetView(v, n, on);
    MaskIsSingleBit(n);
    SetBitsSame(Bits(v), Mask(n), on);
  }

  /** `bit_set` touches no other bit. */
  lemma BitSetOthers(v: Byte, n: nat, on: bool, k: nat)
    requires n < 8 && k < 8 && k != n
    ensures Bit(BitSet(v, n, on), k) == Bit(v, k)
  {
    BitSetView(v, n, on);
    MaskIsSingleBit(n);
    MaskIsSingleBit(k);
    SetBitsOther(Bits(v), Mask(n), Mask(k), on);
  }

  /** Two bytes with the same `bv8` view are equal. */
  lemma ViewInjective(a: Byte, b: Byte)
    requires Bits(a) == Bits(b)
    ensures a == b
  {
    ByteOfBits(a);
    ByteOfBits(b);
  }

  /** A second `bit_set` with the same arguments changes nothing. */
  lemma BitSetIdempotent(v: Byte, n: nat, on: bool)
    requires n < 8
    ensures BitSet(BitSet(v, n, on), n, on) == BitSet(v, n, on)
  {
    var w := BitSet(v, n, on);
    BitSetView(v, n, on);
    BitSetView(w, n, on);
    SetBitsTwice(Bits(v), n, on);
    ViewInjective(BitSet(w, n, on), w);
  }

  /** On the `bv8` view, setting a bit twice is setting it once. */
  lemma SetBitsTwice(x: bv8, n: nat, on: bool)
    requires n < 8
    ensures SetBits(SetBits(x, n, on), n, on) == SetBits(x, n, on)
  {
    MaskIsSingleBit(n);
    SetBitsSame(x, Mask(n), on);
  }

  /** Setting a bit to the value it already has changes nothing. */
  lemma BitSetUnchanged(v: Byte, n: nat)
    requires n < 8
    ensures BitSet(v, n, Bit(v, n)) == v
  {
    BitSetView(v, n, Bit(v, n));
    MaskIsSingleBit(n);
    SetBitsSame(Bits(v), Mask(n), Bit(v, n));
    ViewInjective(BitSet(v, n, Bit(v, n)), v);
  }

  /** `between(value, low, high)`: inclusive range test on words. */
  predicate Between(v: Word, lo: Word, hi: Word)
  {
    v >= lo && v <= hi
  }

  /** Both ends of a non-empty range are inside it. */
  lemma BetweenInclusive(lo: Word, hi: Word)
    requires lo <= hi
    ensures Between(lo, lo, hi) && Between(hi, lo, hi)
  {
  }

  /** The words just below and just above the range are outside it. */
  lemma BetweenNeighbours(lo: Word, hi: Word)
    requires lo <= hi
    ensures lo > 0 ==> !Between(lo - 1, lo, hi)
    ensures hi < 0xFFFF ==> !Between(hi + 1, lo, hi)
  {
  }

  /** A 64 KiB memory image: one byte per word address. */
  predicate IsImage(m: seq<Byte>)
  {
    |m| == 0x10000
  }

  /** The byte of a memory image at address a. */
  function At(m: seq<Byte>, a: Word): Byte
    requires IsImage(m)
  {
    m[a]
  }

  /** The image after a write: address a now holds v and every other address is unchanged. */
  function Store(m: seq<Byte>, a: Word, v: Byte): (r: seq<Byte>)
    requires IsImage(m)
    ensures IsImage(r)
    ensures forall k: Word :: At(r, k) == if k == a then v else At(m, k)
  {
    m[a := v]
  }

  /** `read16`: the little-endian word at a; the high byte is at a + 1, wrapping at 0xFFFF. */
  function LoadWord(m: seq<Byte>, a: Word): Word
    requires IsImage(m)
  {
    At(m, AddWord(a, 1)) * 0x100 + At(m, a)
  }

  /** `write16`: the low byte of v is stored at a, then the high byte at a + 1 (wrapping). */
  function StoreWord(m: seq<Byte>, a: Word, v: Word): (r: seq<Byte>)
    requires IsImage(m)
    ensures IsImage(r)
  {
    Store(Store(m, a, v % 0x100), AddWord(a, 1), v / 0x100)
  }

  /**
   * A word stored at a reads back from a, little-endian, and every address
   * other than a and a + 1 keeps its byte.
   */
  lemma WordRoundTrip(m: seq<Byte>, a: Word, v: Word)
    requires IsImage(m)
    ensures LoadWord(StoreWord(m, a, v), a) == v
    ensures At(StoreWord(m, a, v), a) == v % 0x100
    ensures At(StoreWord(m, a, v), AddWord(a, 1)) == v / 0x100
    ensures forall k: Word :: k != a && k != AddWord(a, 1) ==> At(StoreWord(m, a, v), k) == At(m, k)
  {
    assert AddWord(a, 1) != a;
  }

  /**
   * The address space the CPU reads and writes through the bus, held as a
   * value that writes replace.
   */
  class Memory {
    var bytes: seq<Byte>

    predicate Valid()
      reads this
    {
      IsImage(bytes)
    }

    constructor (image: seq<Byte>)
      requires IsImage(image)
      ensures bytes == image && Valid()
    {
      bytes := image;
    }

    /** The byte at address a. */
    function Read(a: Word): Byte
      reads this
      requires Valid()
    {
      At(bytes, a)
    }

    /** Stores v at address a. */
    method Write(a: Word, v: Byte)
      requires Valid()
      modifies this
      ensures Valid() && bytes == Store(old(bytes), a, v)
    {
      bytes := Store(bytes, a, v);
    }

    /** `MemoryBus::write16`: two byte writes, the low byte first. */
    method Write16(a: Word, v: Word)
      requires Valid()
      modifies this
      ensures Valid() && bytes == StoreWord(old(bytes), a, v)
    {
      Write(a, v % 0x100);
      Write(AddWord(a, 1), v / 0x100);
    }
  }
}
