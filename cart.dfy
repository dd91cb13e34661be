/**
 * The cartridge: the ROM header, the header checksum, and the memory bank
 * controllers MBC1, MBC3 and MBC5, which map 16 KiB ROM banks into
 * 0x4000-0x7FFF (and, on MBC1, 0x0000-0x3FFF) and 8 KiB RAM banks into
 * 0xA000-0xBFFF.
 */
module Cart {
  import opened Common

  const TitleStart: nat := 0x134
  const TitleEnd: nat := 0x143
  const CartTypeOffset: nat := 0x147
  const RomSizeOffset: nat := 0x148
  const RamSizeOffset: nat := 0x149
  const LicCodeOffset: nat := 0x14B
  const VersionOffset: nat := 0x14C
  const ChecksumOffset: nat := 0x14D
  /** The smallest image with a whole header. */
  const HeaderLength: nat := 0x150

  const RomBankSize: nat := 0x4000
  const RamBankSize: nat := 0x2000

  /** `RomHeader`. */
  datatype RomHeader = RomHeader(title: string, cartType: Byte, romSize: Byte, ramSize: Byte,
                                 licCode: Byte, version: Byte, checksum: Byte)

  /** The title: the bytes up to the first 0, one character per byte. */
  function TitleOf(bytes: seq<Byte>): (r: string)
    ensures |r| <= |bytes|
    ensures forall i | 0 <= i < |r| :: r[i] as int == bytes[i] && bytes[i] != 0
    ensures |r| < |bytes| ==> bytes[|r|] == 0
  {
    if |bytes| == 0 || bytes[0] == 0 then "" else [bytes[0] as char] + TitleOf(bytes[1..])
  }

  /** `RomHeader::parse`: no header for an image shorter than 0x150 bytes. */
  function ParseHeader(rom: seq<Byte>): (r: Option<RomHeader>)
    ensures r.None? <==> |rom| < HeaderLength
    ensures r.Some? ==>
              r.value.title == TitleOf(rom[TitleStart..TitleEnd + 1]) &&
              r.value.cartType == rom[CartTypeOffset] && r.value.romSize == rom[RomSizeOffset] &&
              r.value.ramSize == rom[RamSizeOffset] && r.value.licCode == rom[LicCodeOffset] &&
              r.value.version == rom[VersionOffset] && r.value.checksum == rom[ChecksumOffset]
  {
    if |rom| < HeaderLength then None
    else Some(RomHeader(TitleOf(rom[TitleStart..TitleEnd + 1]), rom[CartTypeOffset], rom[RomSizeOffset],
                        rom[RamSizeOffset], rom[LicCodeOffset], rom[VersionOffset], rom[ChecksumOffset]))
  }

  /** The parsed title has at most 16 characters, all nonzero. */
  lemma TitleAtMost16(rom: seq<Byte>)
    requires |rom| >= HeaderLength
    ensures |ParseHeader(rom).value.title| <= 16
    ensures forall i | 0 <= i < |ParseHeader(rom).value.title| ::
              ParseHeader(rom).value.title[i] as int == rom[TitleStart + i] != 0
  {
  }

  const U64Modulus: nat := 0x1_0000_0000_0000_0000

  /** `x << n` on a 64-bit `usize`, one doubling at a time, dropping bits shifted out. */
  function ShiftLeft64(x: nat, n: nat): (r: nat)
    requires x < U64Modulus
    ensures r < U64Modulus
    decreases n
  {
    if n == 0 then x else ShiftLeft64((2 * x) % U64Modulus, n - 1)
  }

  /** While nothing is shifted out, the shift multiplies by 2 to the n. */
  lemma {:induction false} ShiftLeftValue(x: nat, n: nat)
    requires x * Pow2(n) < U64Modulus
    ensures ShiftLeft64(x, n) == x * Pow2(n)
    decreases n
  {
    if n > 0 {
      Pow2Step(n);
      DoubleFactor(x, Pow2(n - 1));
      assert (2 * x) % U64Modulus == 2 * x;
      ShiftLeftValue(2 * x, n - 1);
    }
  }

  /** Moving a factor 2 between the two sides of a product. */
  lemma DoubleFactor(x: nat, p: nat)
    requires p >= 1
    ensures x * (2 * p) == (2 * x) * p && 2 * x <= (2 * x) * p
  {
  }

  /**
   * `rom_size_bytes`: `32768 << rom_size` on a 64-bit `usize`, with the
   * shift amount taken modulo 64 as release builds do.
   */
  function RomSizeBytes(h: RomHeader): nat
  {
    ShiftLeft64(32768, h.romSize % 64)
  }

  /**
   * For the header codes 0-8, the ROM size is 32 KiB doubled `rom_size`
   * times, which is also 2 * (rom_size + 1) ROM banks.
   */
  lemma RomSizes(h: RomHeader)
    requires h.romSize <= 8
    ensures RomSizeBytes(h) == 32768 * Pow2(h.romSize)
    ensures RomSizeBytes(h) == RomBankSize * 2 * Pow2(h.romSize)
  {
    assert Pow2(h.romSize) <= 256 by {
      PowerMonotone(h.romSize, 8);
    }
    ShiftLeftValue(32768, h.romSize);
  }

  /** Powers of two grow with the exponent. */
  lemma {:induction false} PowerMonotone(m: nat, n: nat)
    requires m <= n
    ensures Pow2(m) <= Pow2(n)
    decreases n
  {
    if m < n {
      Pow2Step(n);
      PowerMonotone(m, n - 1);
    }
  }

  /** `ram_size_bytes`: the RAM size table; unknown codes mean no RAM. */
  function RamSizeBytes(h: RomHeader): nat
  {
    if h.ramSize == 0 then 0
    else if h.ramSize == 1 then 2048
    else if h.ramSize == 2 then 8192
    else if h.ramSize == 3 then 32768
    else if h.ramSize == 4 then 131072
    else if h.ramSize == 5 then 65536
    else 0
  }

  /**
   * Codes 2-5 give whole 8 KiB banks (1, 4, 16 and 8 of them); code 1 gives
   * less than one bank; every other code gives none.
   */
  lemma RamSizes(h: RomHeader)
    ensures 2 <= h.ramSize <= 5 ==> RamSizeBytes(h) % RamBankSize == 0 && RamSizeBytes(h) > 0
    ensures h.ramSize == 3 ==> RamSizeBytes(h) / RamBankSize == 4
    ensures h.ramSize == 4 ==> RamSizeBytes(h) / RamBankSize == 16
    ensures h.ramSize == 5 ==> RamSizeBytes(h) / RamBankSize == 8
    ensures h.ramSize == 1 ==> 0 < RamSizeBytes(h) < RamBankSize
    ensures (h.ramSize == 0 || h.ramSize > 5) ==> RamSizeBytes(h) == 0
  {
  }

  /** `cart_type_name`. */
  function CartTypeName(t: Byte): string
  {
    if t == 0x00 then "ROM ONLY"
    else if t == 0x01 then "MBC1"
    else if t == 0x02 then "MBC1+RAM"
    else if t == 0x03 then "MBC1+RAM+BATTERY"
    else if t == 0x05 then "MBC2"
    else if t == 0x06 then "MBC2+BATTERY"
    else if t == 0x08 then "ROM+RAM"
    else if t == 0x09 then "ROM+RAM+BATTERY"
    else if t == 0x0F then "MBC3+TIMER+BATTERY"
    else if t == 0x10 then "MBC3+TIMER+RAM+BATTERY"
    else if t == 0x11 then "MBC3"
    else if t == 0x12 then "MBC3+RAM"
    else if t == 0x13 then "MBC3+RAM+BATTERY"
    else if t == 0x19 then "MBC5"
    else if t == 0x1A then "MBC5+RAM"
    else if t == 0x1B then "MBC5+RAM+BATTERY"
    else "UNKNOWN"
  }

  /** `has_battery`. */
  predicate HasBattery(t: Byte)
  {
    t in {0x03, 0x06, 0x09, 0x0F, 0x10, 0x13, 0x1B}
  }

  /** `has_ram`. */
  predicate HasRam(t: Byte)
  {
    t in {0x02, 0x03, 0x08, 0x09, 0x10, 0x12, 0x13, 0x1A, 0x1B}
  }

  /** Every battery-backed type also has RAM, except MBC2+BATTERY and MBC3+TIMER+BATTERY. */
  lemma BatteryImpliesRam(t: Byte)
    ensures HasBattery(t) && t != 0x06 && t != 0x0F ==> HasRam(t)
    ensures t == 0x06 || t == 0x0F ==> HasBattery(t) && !HasRam(t)
  {
  }

  /** `is_mbc1`. */
  predicate IsMbc1(t: Byte)
  {
    0x01 <= t <= 0x03
  }

  /** `is_mbc3`. */
  predicate IsMbc3(t: Byte)
  {
    0x0F <= t <= 0x13
  }

  /** `is_mbc5`. */
  predicate IsMbc5(t: Byte)
  {
    0x19 <= t <= 0x1E
  }

  /** The header checksum fold `x := x - b - 1` (wrapping) over the bytes, from the left. */
  function ChecksumFold(bytes: seq<Byte>): Byte
  {
    if |bytes| == 0 then 0
    else AddByte(AddByte(ChecksumFold(bytes[..|bytes| - 1]), -(bytes[|bytes| - 1] as int)), -1)
  }

  /** The sum of the bytes. */
  function Sum(bytes: seq<Byte>): nat
  {
    if |bytes| == 0 then 0 else Sum(bytes[..|bytes| - 1]) + bytes[|bytes| - 1]
  }

  /** The fold in closed form: minus the sum of the bytes and the byte count, modulo 256. */
  lemma {:induction false} ChecksumClosedForm(bytes: seq<Byte>)
    ensures ChecksumFold(bytes) == (-(Sum(bytes) + |bytes|)) % 0x100
  {
    if |bytes| > 0 {
      var init := bytes[..|bytes| - 1];
      ChecksumClosedForm(init);
      var x := ChecksumFold(init);
      var b := bytes[|bytes| - 1];
      assert AddByte(AddByte(x, -(b as int)), -1) == (x as int - b - 1) % 0x100;
      ModShift(-(Sum(init) + |init|), x, -(b as int) - 1);
    }
  }

  /** Adding to numbers with equal residues gives equal residues. */
  lemma ModShift(u: int, x: Byte, d: int)
    requires x == u % 0x100
    ensures (x + d) % 0x100 == (u + d) % 0x100
  {
  }

  /** The header bytes the checksum covers: 0x134 through 0x14C. */
  function HeaderBytes(rom: seq<Byte>): seq<Byte>
    requires |rom| >= ChecksumOffset
  {
    rom[TitleStart..ChecksumOffset]
  }

  /** The checksum byte at 0x14D matches the fold of the header bytes. */
  predicate ChecksumValid(rom: seq<Byte>)
  {
    |rom| >= HeaderLength && ChecksumFold(HeaderBytes(rom)) == rom[ChecksumOffset]
  }

  /** `calculate_checksum`: 0 for an image too short to hold the checksum. */
  method CalculateChecksum(rom: seq<Byte>) returns (r: Byte)
    ensures |rom| < ChecksumOffset ==> r == 0
    ensures |rom| >= ChecksumOffset ==> r == ChecksumFold(HeaderBytes(rom))
  {
    if |rom| < ChecksumOffset {
      return 0;
    }
    var checksum: Byte := 0;
    var i := TitleStart;
    while i <= 0x14C
      invariant TitleStart <= i <= ChecksumOffset
      invariant checksum == ChecksumFold(rom[TitleStart..i])
    {
      assert rom[TitleStart..i + 1][..i - TitleStart] == rom[TitleStart..i];
      checksum := AddByte(AddByte(checksum, -(rom[i] as int)), -1);
      i := i + 1;
    }
    r := checksum;
  }

  /** `validate_checksum`: false for an image without a whole header. */
  method ValidateChecksum(rom: seq<Byte>) returns (r: bool)
    ensures r <==> ChecksumValid(rom)
  {
    if |rom| < HeaderLength {
      return false;
    }
    var checksum: Byte := 0;
    var i := TitleStart;
    while i <= 0x14C
      invariant TitleStart <= i <= ChecksumOffset
      invariant checksum == ChecksumFold(rom[TitleStart..i])
    {
      assert rom[TitleStart..i + 1][..i - TitleStart] == rom[TitleStart..i];
      checksum := AddByte(AddByte(checksum, -(rom[i] as int)), -1);
      i := i + 1;
    }
    r := checksum == rom[ChecksumOffset];
  }

  /**
   * Storing the calculated checksum at 0x14D makes the image pass
   * validation: the checksum byte is not among the bytes it covers.
   */
  lemma StoredChecksumValidates(rom: seq<Byte>)
    requires |rom| >= HeaderLength
    ensures ChecksumValid(rom[ChecksumOffset := ChecksumFold(HeaderBytes(rom))])
  {
    var fixed := rom[ChecksumOffset := ChecksumFold(HeaderBytes(rom))];
    assert HeaderBytes(fixed) == HeaderBytes(rom);
  }

  /** The cartridge's fields as one value (the file name is I/O and not part of it). */
  datatype CartState = CartState(rom: seq<Byte>, header: RomHeader, ramEnabled: bool, romBank: Byte,
                                 ramBank: Byte, bankingMode: Byte, ram: seq<Byte>, battery: bool, needSave: bool)

  /** `load` after the image has been read and parsed, without the battery save file. */
  function Loaded(rom: seq<Byte>, h: RomHeader): CartState
  {
    CartState(rom, h, false, 1, 0, 0, seq(RamSizeBytes(h), _ => 0), HasBattery(h.cartType), false)
  }

  /** `rom_bank_count`: 16 KiB banks in the image, at least one. */
  function RomBankCount(s: CartState): (r: nat)
    ensures r >= 1
    ensures |s.rom| >= RomBankSize ==> r * RomBankSize <= |s.rom|
  {
    var n := |s.rom| / RomBankSize;
    if n > 1 then n else 1
  }

  /** `ram_bank_count`: 8 KiB banks of RAM, at least one. */
  function RamBankCount(s: CartState): (r: nat)
    ensures r >= 1
  {
    var n := |s.ram| / RamBankSize;
    if n > 1 then n else 1
  }

  /** `mbc1_rom0_bank`: in mode 1 the two RAM-bank bits select bank 0, 32, 64 or 96. */
  function Mbc1Rom0Bank(s: CartState): (r: nat)
    ensures r < RomBankCount(s)
    ensures s.bankingMode != 1 ==> r == 0
    ensures s.bankingMode == 1 ==> r == (32 * (s.ramBank % 4)) % RomBankCount(s)
  {
    LowMasks(s.ramBank);
    if s.bankingMode == 1 then (And(s.ramBank, 0x03) * 32) % RomBankCount(s) else 0
  }

  /** The bank of `mbc1_romx_bank` before `%= bank_count`: the low five bits, the two high bits in mode 0, and 0 in the low bits bumped to 1. */
  function Mbc1Unreduced(s: CartState): nat
  {
    var bank0 := And(s.romBank, 0x1F);
    var bank1 := if s.bankingMode == 0 then Or(bank0, And(s.ramBank, 0x03) * 32) else bank0;
    if And(bank1, 0x1F) == 0 then bank1 + 1 else bank1
  }

  /** `mbc1_romx_bank`: the bank for 0x4000-0x7FFF. */
  function Mbc1RomxBank(s: CartState): (r: nat)
  {
    var count := RomBankCount(s);
    var bank := Mbc1Unreduced(s) % count;
    if bank == 0 && count > 1 then 1 else bank
  }

  /** The MBC1 0x4000-0x7FFF bank is always in the image's range, and never bank 0 when there is more than one bank. */
  lemma Mbc1RomxInRange(s: CartState)
    ensures Mbc1RomxBank(s) < RomBankCount(s)
    ensures RomBankCount(s) > 1 ==> Mbc1RomxBank(s) != 0
  {
  }

  /**
   * The MBC1 bank number in arithmetic terms: the five low bank bits, plus
   * 32 times the two RAM-bank bits in mode 0, plus one if the five low bits
   * are zero, taken modulo the bank count (with 0 replaced by 1).
   */
  lemma Mbc1RomxValue(s: CartState)
    ensures var low := s.romBank % 32;
            var high := if s.bankingMode == 0 then 32 * (s.ramBank % 4) else 0;
            var bank := low + high + (if low == 0 then 1 else 0);
            var count := RomBankCount(s);
            Mbc1RomxBank(s) == if bank % count == 0 && count > 1 then 1 else bank % count
  {
    Mbc1UnreducedValue(s);
  }

  /** The unreduced MBC1 bank in arithmetic terms. */
  lemma Mbc1UnreducedValue(s: CartState)
    ensures var low := s.romBank % 32;
            Mbc1Unreduced(s) == low + (if s.bankingMode == 0 then 32 * (s.ramBank % 4) else 0) + (if low == 0 then 1 else 0)
  {
    Low5(s.romBank);
    Low2(s.ramBank);
    var bank0 := And(s.romBank, 0x1F);
    if s.bankingMode == 0 {
      var hi := s.ramBank % 4;
      OrHighBits(bank0, hi);
      HighLowMask(bank0, hi);
    } else {
      Low5(bank0);
    }
  }

  /** `v & 0x1F` is v modulo 32. */
  lemma Low5(v: Byte)
    ensures And(v, 0x1F) == v % 32
  {
    LowMasks(v);
  }

  /** `v & 0x03` is v modulo 4. */
  lemma Low2(v: Byte)
    ensures And(v, 0x03) == v % 4
  {
    LowMasks(v);
  }

  /** The low five bits of x + 32 * y are x. */
  lemma HighLowMask(x: Byte, y: nat)
    requires x < 32 && y < 4
    ensures And(x + 32 * y, 0x1F) == x
  {
    Low5(x + 32 * y);
    DivMod32(y, x);
  }

  /** Quotient k and remainder t of 32 * k + t. */
  lemma DivMod32(k: int, t: int)
    requires 0 <= t < 32
    ensures (32 * k + t) / 32 == k && (32 * k + t) % 32 == t
  {
  }

  /** A value below 32 and a multiple of 32 below 128 share no bit, so `|` adds them. */
  lemma OrHighBits(x: Byte, y: nat)
    requires x < 32 && y < 4
    ensures Or(x, 32 * y) == x + 32 * y
  {
    ByteOfBits(x);
    HighMaskBits(y);
    OrHigh(Bits(x), Bits(32 * y));
  }

  /** The `bv8` views of 0, 32, 64 and 96. */
  lemma HighMaskBits(y: nat)
    requires y < 4
    ensures Bits(32 * y) & 0x1F == 0 && Bits(32 * y) as int == 32 * y
  {
    ByteOfBits(32 * y);
    if y == 0 {
      assert Bits(0) == 0;
    } else if y == 1 {
      assert Bits(32) == 0x20;
    } else if y == 2 {
      assert Bits(64) == 0x40;
    } else {
      assert Bits(96) == 0x60;
    }
  }

  /** For x below 32, `x | m` adds m when m uses only bits 5-7. */
  lemma OrHigh(b: bv8, m: bv8)
    requires b < 0x20 && m & 0x1F == 0
    ensures ((b | m) as int) == b as int + m as int
  {
  }

  /** `rom.get(addr).copied().unwrap_or(0xFF)`. */
  function Get(m: seq<Byte>, addr: nat): (r: Byte)
    ensures addr < |m| ==> r == m[addr]
    ensures addr >= |m| ==> r == 0xFF
  {
    if addr < |m| then m[addr] else 0xFF
  }

  /** The bank for 0x4000-0x7FFF on a cartridge without MBC1: the bank register modulo the count, 0 replaced by 1. */
  function PlainRomxBank(s: CartState): (r: nat)
    ensures r < RomBankCount(s)
    ensures RomBankCount(s) > 1 ==> r != 0
  {
    var count := RomBankCount(s);
    var bank := s.romBank % count;
    if bank == 0 && count > 1 then 1 else bank
  }

  /** The image offset a ROM read at a (0x0000-0x7FFF) resolves to. */
  function RomAddress(s: CartState, a: Word): nat
    requires a <= 0x7FFF
  {
    if a <= 0x3FFF then
      if IsMbc1(s.header.cartType) then Mbc1Rom0Bank(s) * RomBankSize + a else a
    else
      var bank := if IsMbc1(s.header.cartType) then Mbc1RomxBank(s) else PlainRomxBank(s);
      bank * RomBankSize + (a - 0x4000)
  }

  /**
   * A ROM read lands in the selected bank at the address's offset within
   * its 16 KiB window, and the selected bank is always one the image's bank
   * count allows; so on an image whose size is a nonzero multiple of 16 KiB
   * every ROM read is inside the image.
   */
  lemma RomAddressInBank(s: CartState, a: Word)
    requires a <= 0x7FFF
    ensures RomAddress(s, a) % RomBankSize == a % RomBankSize
    ensures RomAddress(s, a) / RomBankSize < RomBankCount(s)
    ensures |s.rom| >= RomBankSize && |s.rom| % RomBankSize == 0 ==> RomAddress(s, a) < |s.rom|
  {
    Mbc1RomxInRange(s);
    var bank: nat;
    if a <= 0x3FFF {
      bank := if IsMbc1(s.header.cartType) then Mbc1Rom0Bank(s) else 0;
    } else {
      bank := if IsMbc1(s.header.cartType) then Mbc1RomxBank(s) else PlainRomxBank(s);
    }
    var off := a % RomBankSize;
    assert RomAddress(s, a) == bank * RomBankSize + off;
    assert bank < RomBankCount(s);
    BankSplit(bank, off, RomBankCount(s));
    if |s.rom| >= RomBankSize && |s.rom| % RomBankSize == 0 {
      assert RomBankCount(s) * RomBankSize == |s.rom|;
    }
  }

  /** An offset inside bank b of c: its bank and offset, and its bound. */
  lemma BankSplit(b: nat, off: nat, c: nat)
    requires off < RomBankSize && b < c
    ensures (b * RomBankSize + off) / RomBankSize == b
    ensures (b * RomBankSize + off) % RomBankSize == off
    ensures b * RomBankSize + off < c * RomBankSize
  {
    assert (b + 1) * RomBankSize <= c * RomBankSize;
  }

  /** The RAM bank register as the A000-BFFF window uses it, before the modulo. */
  function RamBankSelect(s: CartState): nat
  {
    if IsMbc3(s.header.cartType) then And(s.ramBank, 0x03)
    else if s.bankingMode == 1 then s.ramBank
    else 0
  }

  /** The RAM offset an access at a (0xA000-0xBFFF) resolves to. */
  function RamAddress(s: CartState, a: Word): nat
    requires 0xA000 <= a
  {
    (RamBankSelect(s) % RamBankCount(s)) * RamBankSize + (a - 0xA000)
  }

  /** Cartridge RAM is usable: enabled by the MBC and present. */
  predicate RamUsable(s: CartState)
  {
    s.ramEnabled && |s.ram| > 0
  }

  /** `Cartridge::read`. */
  function CartRead(s: CartState, a: Word): Byte
  {
    if a <= 0x7FFF then Get(s.rom, RomAddress(s, a))
    else if Between(a, 0xA000, 0xBFFF) then
      if !RamUsable(s) then 0xFF else Get(s.ram, RamAddress(s, a))
    else 0xFF
  }

  /** `Cartridge::write`: MBC register writes below 0x8000, banked RAM at 0xA000-0xBFFF. */
  function CartWrite(s: CartState, a: Word, v: Byte): CartState
  {
    var t := s.header.cartType;
    if a <= 0x1FFF then
      if IsMbc1(t) || IsMbc3(t) || IsMbc5(t) then s.(ramEnabled := And(v, 0x0F) == 0x0A) else s
    else if a <= 0x3FFF then
      if IsMbc1(t) then
        var bank := And(v, 0x1F);
        s.(romBank := if bank == 0 then 1 else bank)
      else if IsMbc3(t) then
        var bank := And(v, 0x7F);
        s.(romBank := if bank == 0 then 1 else bank)
      else if IsMbc5(t) then s.(romBank := v)
      else s
    else if a <= 0x5FFF then
      if IsMbc1(t) then s.(ramBank := And(v, 0x03))
      else if IsMbc3(t) then s.(ramBank := And(v, 0x0F))
      else s
    else if a <= 0x7FFF then
      if IsMbc1(t) then s.(bankingMode := And(v, 0x01)) else s
    else if Between(a, 0xA000, 0xBFFF) then
      if !RamUsable(s) then s
      else
        var addr := RamAddress(s, a);
        if addr < |s.ram| then s.(ram := s.ram[addr := v], needSave := true) else s
    else s
  }

  /** `needs_save`. */
  predicate NeedsSave(s: CartState)
  {
    s.battery && s.needSave
  }

  /** A write never changes the image or the header. */
  lemma WriteKeepsRom(s: CartState, a: Word, v: Byte)
    ensures CartWrite(s, a, v).rom == s.rom && CartWrite(s, a, v).header == s.header
    ensures |CartWrite(s, a, v).ram| == |s.ram|
  {
  }

  /** ROM reads past the image read 0xFF; reads outside the ROM and RAM windows read 0xFF. */
  lemma UnmappedReads(s: CartState, a: Word)
    ensures a <= 0x7FFF && RomAddress(s, a) >= |s.rom| ==> CartRead(s, a) == 0xFF
    ensures (0x8000 <= a < 0xA000 || a > 0xBFFF) ==> CartRead(s, a) == 0xFF
  {
  }

  /** While RAM is disabled or absent, the RAM window reads 0xFF and ignores writes. */
  lemma RamGated(s: CartState, a: Word, v: Byte)
    requires !RamUsable(s) && Between(a, 0xA000, 0xBFFF)
    ensures CartRead(s, a) == 0xFF
    ensures CartWrite(s, a, v) == s
  {
  }

  /**
   * With RAM usable, a write to the RAM window reads back at the same
   * address when it lands inside the RAM, changes only that byte and marks
   * the RAM for saving; the bank registers are unchanged.
   */
  lemma RamRoundTrip(s: CartState, a: Word, v: Byte)
    requires RamUsable(s) && Between(a, 0xA000, 0xBFFF) && RamAddress(s, a) < |s.ram|
    ensures CartRead(CartWrite(s, a, v), a) == v
    ensures CartWrite(s, a, v) == s.(ram := s.ram[RamAddress(s, a) := v], needSave := true)
  {
    var t := CartWrite(s, a, v);
    assert RamAddress(t, a) == RamAddress(s, a);
  }

  /** A RAM-window write that resolves past the end of the RAM changes nothing. */
  lemma RamWritePastEnd(s: CartState, a: Word, v: Byte)
    requires Between(a, 0xA000, 0xBFFF) && RamAddress(s, a) >= |s.ram|
    ensures CartWrite(s, a, v) == s
  {
  }

  /** 0x0000-0x1FFF on MBC1, MBC3 and MBC5 enables RAM exactly for a low nibble of 0xA; other cartridges ignore it. */
  lemma RamEnableWrite(s: CartState, a: Word, v: Byte)
    requires a <= 0x1FFF
    ensures var t := s.header.cartType;
            CartWrite(s, a, v) ==
              if IsMbc1(t) || IsMbc3(t) || IsMbc5(t) then s.(ramEnabled := v % 16 == 0x0A) else s
  {
    LowMasks(v);
  }

  /**
   * 0x2000-0x3FFF selects the ROM bank: the five low bits on MBC1 and the
   * seven low bits on MBC3, with 0 selecting 1, the whole byte on MBC5;
   * other cartridges ignore it.
   */
  lemma RomBankWrite(s: CartState, a: Word, v: Byte)
    requires 0x2000 <= a <= 0x3FFF
    ensures var t := s.header.cartType;
            CartWrite(s, a, v) ==
              if IsMbc1(t) then s.(romBank := if v % 32 == 0 then 1 else v % 32)
              else if IsMbc3(t) then s.(romBank := if v % 128 == 0 then 1 else v % 128)
              else if IsMbc5(t) then s.(romBank := v)
              else s
  {
    LowMasks(v);
  }

  /** The ROM bank register written through MBC1 or MBC3 is never 0. */
  lemma RomBankNeverZero(s: CartState, a: Word, v: Byte)
    requires 0x2000 <= a <= 0x3FFF && (IsMbc1(s.header.cartType) || IsMbc3(s.header.cartType))
    ensures 1 <= CartWrite(s, a, v).romBank
    ensures IsMbc1(s.header.cartType) ==> CartWrite(s, a, v).romBank <= 0x1F
    ensures IsMbc3(s.header.cartType) ==> CartWrite(s, a, v).romBank <= 0x7F
  {
    RomBankWrite(s, a, v);
  }

  /** 0x4000-0x5FFF sets the RAM bank (two bits on MBC1, four on MBC3); 0x6000-0x7FFF sets the MBC1 mode bit. */
  lemma BankModeWrites(s: CartState, a: Word, v: Byte)
    requires 0x4000 <= a <= 0x7FFF
    ensures var t := s.header.cartType;
            CartWrite(s, a, v) ==
              if a <= 0x5FFF then
                if IsMbc1(t) then s.(ramBank := v % 4)
                else if IsMbc3(t) then s.(ramBank := v % 16)
                else s
              else if IsMbc1(t) then s.(bankingMode := v % 2)
              else s
  {
    LowMasks(v);
  }

  /** Writes to the MBC registers leave the RAM contents alone; RAM writes leave the registers alone. */
  lemma RegionsSeparate(s: CartState, a: Word, v: Byte)
    ensures a <= 0x7FFF ==> CartWrite(s, a, v).ram == s.ram && CartWrite(s, a, v).needSave == s.needSave
    ensures a > 0x7FFF ==>
              var t := CartWrite(s, a, v);
              t.ramEnabled == s.ramEnabled && t.romBank == s.romBank &&
              t.ramBank == s.ramBank && t.bankingMode == s.bankingMode
  {
  }

  /** A freshly loaded cartridge: RAM disabled, so its window reads 0xFF, and ROM bank 1 in the switchable window. */
  lemma LoadedState(rom: seq<Byte>, h: RomHeader, a: Word)
    ensures !RamUsable(Loaded(rom, h))
    ensures Between(a, 0xA000, 0xBFFF) ==> CartRead(Loaded(rom, h), a) == 0xFF
    ensures !NeedsSave(Loaded(rom, h))
  {
  }

  /** The cartridge. The image never changes; the RAM is a fixed-size buffer. */
  class Cartridge {
    const rom: seq<Byte>
    const header: RomHeader
    var ramEnabled: bool
    var romBank: Byte
    var ramBank: Byte
    var bankingMode: Byte
    const ram: array<Byte>
    const battery: bool
    var needSave: bool

    function State(): CartState
      reads this, ram
    {
      CartState(rom, header, ramEnabled, romBank, ramBank, bankingMode, ram[..], battery, needSave)
    }

    /** The parts of `load` that follow the file read: header fields, bank 1, zeroed RAM. */
    constructor (image: seq<Byte>, h: RomHeader)
      ensures State() == Loaded(image, h)
      ensures fresh(ram)
    {
      rom := image;
      header := h;
      ramEnabled := false;
      romBank := 1;
      ramBank := 0;
      bankingMode := 0;
      ram := new Byte[RamSizeBytes(h)](_ => 0);
      battery := HasBattery(h.cartType);
      needSave := false;
    }

    /** `read`. */
    function Read(a: Word): Byte
      reads this, ram
    {
      CartRead(State(), a)
    }

    /** `write`. */
    method Write(a: Word, v: Byte)
      modifies this, ram
      ensures State() == CartWrite(old(State()), a, v)
    {
      var t := header.cartType;
      if a <= 0x1FFF {
        if IsMbc1(t) || IsMbc3(t) || IsMbc5(t) {
          ramEnabled := And(v, 0x0F) == 0x0A;
        }
      } else if a <= 0x3FFF {
        if IsMbc1(t) {
          var bank := And(v, 0x1F);
          if bank == 0 {
            bank := 1;
          }
          romBank := bank;
        } else if IsMbc3(t) {
          var bank := And(v, 0x7F);
          if bank == 0 {
            bank := 1;
          }
          romBank := bank;
        } else if IsMbc5(t) {
          romBank := v;
        }
      } else if a <= 0x5FFF {
        if IsMbc1(t) {
          ramBank := And(v, 0x03);
        } else if IsMbc3(t) {
          ramBank := And(v, 0x0F);
        }
      } else if a <= 0x7FFF {
        if IsMbc1(t) {
          bankingMode := And(v, 0x01);
        }
      } else if Between(a, 0xA000, 0xBFFF) {
        if !ramEnabled || ram.Length == 0 {
          return;
        }
        var addr := RamAddress(State(), a);
        if addr < ram.Length {
          ram[addr] := v;
          needSave := true;
        }
      }
    }

    /** `needs_save`. */
    predicate NeedsSave()
      reads this
    {
      battery && needSave
    }
  }

  /**
   * `load` without the file system: the image is parsed, and an image too
   * short for a header is refused as the source refuses it.
   */
  method Load(image: seq<Byte>) returns (r: Option<Cartridge>)
    ensures r.None? <==> |image| < HeaderLength
    ensures r.Some? ==> fresh(r.value) && fresh(r.value.ram) &&
                        r.value.State() == Loaded(image, ParseHeader(image).value)
  {
    var h := ParseHeader(image);
    if h.None? {
      return None;
    }
    var c := new Cartridge(image, h.value);
    return Some(c);
  }
}
