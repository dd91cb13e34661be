/**
 * The arithmetic of the instruction handlers as values: the 8-bit adds and
 * subtracts with their flag results, the logic operations, the rotates and
 * shifts of the accumulator and of the CB-prefixed group, decimal adjust,
 * complement and sign extension of relative offsets. Each function computes
 * what the handler computes; the lemmas next to it say what that means.
 */
module Alu {
  import opened Common
  import opened Registers
  import Instructions

  /** The four flags a handler hands to `set_flags`. */
  datatype Flags = Flags(z: bool, n: bool, h: bool, c: bool)

  /** A result value (at most 16 bits wide) together with its flags. */
  datatype AluOut = AluOut(value: Word, flags: Flags)

  /** A rotated or shifted byte and the bit that moved into the carry. */
  datatype Shifted = Shifted(value: Byte, carry: bool)

  /** `if flag { 1 } else { 0 }`. */
  function Carry(b: bool): (r: nat)
    ensures r <= 1 && (r == 1 <==> b)
  {
    if b then 1 else 0
  }

  /** The two's-complement value of a byte (`as i8`). */
  function Signed(b: Byte): (r: int)
    ensures -0x80 <= r < 0x80
    ensures r % 0x100 == b
  {
    if b < 0x80 then b else b - 0x100
  }

  /** `b as i8 as i16 as Word`: the byte sign-extended to 16 bits. */
  function SignExtend(b: Byte): (r: Word)
    ensures LowByte(r) == b
  {
    if b < 0x80 then b else b + 0xFF00
  }

  /** Adding a sign-extended offset with 16-bit wrap-around adds its signed value. */
  lemma SignExtendAdds(pc: Word, b: Byte)
    ensures AddWord(pc, SignExtend(b)) == (pc + Signed(b)) % 0x1_0000
  {
  }

  /** `proc_adc`: A + u + carry kept to 8 bits; H and C are the carries out of bits 3 and 7. */
  function Adc(a: Byte, u: Word, carry: bool): (r: AluOut)
    ensures r.value < 0x100
    ensures r.flags.z <==> r.value == 0
    ensures !r.flags.n
  {
    var s := a + u + Carry(carry);
    AluOut(s % 0x100, Flags(s % 0x100 == 0, false, a % 0x10 + u % 0x10 + Carry(carry) > 0xF, s > 0xFF))
  }

  /**
   * For a byte operand ADC is a 9-bit addition: the result and the carry
   * together are the full sum, and the low nibble and H are the sum of the
   * low nibbles.
   */
  lemma AdcSum(a: Byte, u: Byte, carry: bool)
    ensures var r := Adc(a, u, carry);
      r.value + 0x100 * Carry(r.flags.c) == a + u + Carry(carry) &&
      r.value % 0x10 + 0x10 * Carry(r.flags.h) == a % 0x10 + u % 0x10 + Carry(carry)
  {
    var cf := Carry(carry);
    var ah, al, uh, ul := a / 0x10, a % 0x10, u / 0x10, u % 0x10;
    assert a == 0x10 * ah + al && u == 0x10 * uh + ul;
    var t := al + ul + cf;
    var s := a + u + cf;
    var cc, hc := Carry(s > 0xFF), Carry(t > 0xF);
    DivMod256(cc, s - 0x100 * cc);
    var v := s - 0x100 * cc;
    assert Adc(a, u, carry).value == v;
    DivMod16(ah + uh - 0x10 * cc + hc, t - 0x10 * hc);
  }

  /**
   * `proc_sub` on the 16-bit register value: the difference wrapped to 16
   * bits, Z from its low byte, H and C as the borrows out of bits 4 and 8.
   */
  function Sub(rv: Word, d: Word): (r: AluOut)
    ensures r.flags.z <==> LowByte(r.value) == 0
    ensures r.flags.n
  {
    var v := (rv - d) % 0x1_0000;
    AluOut(v, Flags(v % 0x100 == 0, true, rv % 0x10 - d % 0x10 < 0, rv - d < 0))
  }

  /** For bytes SUB is an 8-bit subtraction whose borrow is C and whose nibble borrow is H. */
  lemma SubDifference(a: Byte, d: Byte)
    ensures var r := Sub(a, d);
      LowByte(r.value) - 0x100 * Carry(r.flags.c) == a - d &&
      LowByte(r.value) % 0x10 - 0x10 * Carry(r.flags.h) == a % 0x10 - d % 0x10
  {
    var ah, al, dh, dl := a / 0x10, a % 0x10, d / 0x10, d % 0x10;
    assert a == 0x10 * ah + al && d == 0x10 * dh + dl;
    var diff := a - d;
    var bc: int := Carry(diff < 0);
    DivMod65536(-bc, diff + 0x1_0000 * bc);
    var v := diff + 0x1_0000 * bc;
    assert Sub(a, d).value == v;
    DivMod256(0xFF * bc, diff + 0x100 * bc);
    var lb := diff + 0x100 * bc;
    assert LowByte(v) == lb;
    var hb := Carry(al - dl < 0);
    DivMod16(ah - dh + 0x10 * bc - hb, al - dl + 0x10 * hb);
  }

  /**
   * `proc_sbc` as the source computes it: the operand plus carry is
   * subtracted in 16 bits, and Z tests the whole 16-bit difference.
   */
  function SbcAsWritten(rv: Word, d: Word, carry: bool): (r: AluOut)
    ensures r.flags.z <==> r.value == 0
    ensures r.flags.n
  {
    var cf := Carry(carry);
    var v := (rv - (d + cf) % 0x1_0000) % 0x1_0000;
    AluOut(v, Flags(v == 0, true, rv % 0x10 - d % 0x10 - cf < 0, rv - d - cf < 0))
  }

  /**
   * SBC with a zero flag for the byte written back: A - d - carry leaves
   * A = 0 exactly when Z is set, as for every other 8-bit arithmetic
   * instruction.
   */
  function Sbc(rv: Word, d: Word, carry: bool): (r: AluOut)
    ensures r.flags.z <==> LowByte(r.value) == 0
    ensures r.flags.n
  {
    var cf := Carry(carry);
    var v := (rv - (d + cf) % 0x1_0000) % 0x1_0000;
    AluOut(v, Flags(v % 0x100 == 0, true, rv % 0x10 - d % 0x10 - cf < 0, rv - d - cf < 0))
  }

  /**
   * `SBC A, 0xFF` with A = 0 and the carry set: the byte written to A is 0,
   * yet the source's Z flag is clear, because the 16-bit difference is 0xFF00.
   */
  lemma SbcZeroFlagAsWritten()
    ensures LowByte(SbcAsWritten(0, 0xFF, true).value) == 0
    ensures !SbcAsWritten(0, 0xFF, true).flags.z
    ensures Sbc(0, 0xFF, true).flags.z
  {
  }

  /** For bytes the corrected SBC is an 8-bit subtraction of operand and carry, with C the borrow. */
  lemma SbcDifference(a: Byte, d: Byte, carry: bool)
    ensures var r := Sbc(a, d, carry);
      LowByte(r.value) - 0x100 * Carry(r.flags.c) == a - d - Carry(carry) &&
      LowByte(r.value) % 0x10 - 0x10 * Carry(r.flags.h) == a % 0x10 - d % 0x10 - Carry(carry)
  {
    var cf := Carry(carry);
    var ah, al, dh, dl := a / 0x10, a % 0x10, d / 0x10, d % 0x10;
    assert a == 0x10 * ah + al && d == 0x10 * dh + dl;
    DivMod65536(0, d + cf);
    var diff := a - d - cf;
    var bc: int := Carry(diff < 0);
    DivMod65536(-bc, diff + 0x1_0000 * bc);
    var v := diff + 0x1_0000 * bc;
    assert Sbc(a, d, carry).value == v;
    DivMod256(0xFF * bc, diff + 0x100 * bc);
    var lb := diff + 0x100 * bc;
    assert LowByte(v) == lb;
    var t := al - dl - cf;
    var hb := Carry(t < 0);
    DivMod16(ah - dh + 0x10 * bc - hb, t + 0x10 * hb);
  }

  /** The two SBC forms differ only in Z, and only when the difference is a multiple of 0x100 but not 0. */
  lemma SbcFormsAgree(rv: Word, d: Word, carry: bool)
    ensures SbcAsWritten(rv, d, carry).value == Sbc(rv, d, carry).value
    ensures SbcAsWritten(rv, d, carry).flags.(z := true) == Sbc(rv, d, carry).flags.(z := true)
    ensures SbcAsWritten(rv, d, carry).flags.z ==> Sbc(rv, d, carry).flags.z
  {
  }

  /** `proc_and`: A & low byte of the operand; Z from the result, H set, N and C clear. */
  function AndOp(a: Byte, d: Word): (r: AluOut)
    ensures r.value < 0x100
    ensures r.flags == Flags(r.value == 0, false, true, false)
  {
    var v := And(a, LowByte(d));
    AluOut(v, Flags(v == 0, false, true, false))
  }

  /** `proc_xor`: A ^ low byte of the operand; Z from the result, N, H and C clear. */
  function XorOp(a: Byte, d: Word): (r: AluOut)
    ensures r.value < 0x100
    ensures r.flags == Flags(r.value == 0, false, false, false)
  {
    var v := Xor(a, LowByte(d));
    AluOut(v, Flags(v == 0, false, false, false))
  }

  /** `proc_or`: A | low byte of the operand; Z from the result, N, H and C clear. */
  function OrOp(a: Byte, d: Word): (r: AluOut)
    ensures r.value < 0x100
    ensures r.flags == Flags(r.value == 0, false, false, false)
  {
    var v := Or(a, LowByte(d));
    AluOut(v, Flags(v == 0, false, false, false))
  }

  /** Each bit of the AND result is set exactly when it is set in both operands. */
  lemma AndOpBits(a: Byte, d: Byte, k: nat)
    requires k < 8
    ensures Bit(AndOp(a, d).value, k) == (Bit(a, k) && Bit(d, k))
  {
    assert LowByte(d) == d;
    AndBits(a, d, k);
  }

  /** Each bit of the OR result is set exactly when it is set in either operand. */
  lemma OrOpBits(a: Byte, d: Byte, k: nat)
    requires k < 8
    ensures Bit(OrOp(a, d).value, k) == (Bit(a, k) || Bit(d, k))
  {
    assert LowByte(d) == d;
    OrBits(a, d, k);
  }

  /** Each bit of the XOR result is set exactly when the operands' bits differ. */
  lemma XorOpBits(a: Byte, d: Byte, k: nat)
    requires k < 8
    ensures Bit(XorOp(a, d).value, k) == (Bit(a, k) != Bit(d, k))
  {
    assert LowByte(d) == d;
    XorBits(a, d, k);
  }

  /** `XOR A` clears A and sets Z. */
  lemma XorSelf(a: Byte)
    ensures XorOp(a, a).value == 0 && XorOp(a, a).flags.z
  {
    assert LowByte(a) == a;
    var x := Bits(a);
    assert x ^ x == 0;
    assert Bits(Xor(a, a)) == 0 by { XorView(a, a); }
    ViewInjective(Xor(a, a), 0);
  }

  /** `proc_cp`: the flags of A - operand; A itself is not written. */
  function CpFlags(a: Byte, d: Word): (f: Flags)
    ensures f.n
  {
    var n := a - d;
    Flags(n == 0, true, a % 0x10 - d % 0x10 < 0, n < 0)
  }

  /** CP sets Z exactly when A equals the operand and C exactly when A is below it. */
  lemma CpCompares(a: Byte, d: Word)
    ensures CpFlags(a, d).z <==> a == d
    ensures CpFlags(a, d).c <==> a < d
  {
  }

  /** For a byte operand CP sets the flags SUB would set. */
  lemma CpIsSubFlags(a: Byte, d: Byte)
    ensures CpFlags(a, d) == Sub(a, d).flags
  {
  }

  /**
   * `proc_add`'s value and flags for destination `reg1`: the 8-bit form, the
   * 16-bit HL form (Z kept, H and C out of bits 11 and 15) and ADD SP, e8
   * (sign-extended operand, Z clear, H and C out of bits 3 and 7).
   */
  function AddOp(reg1: Instructions.RegisterType, rv: Word, d: Word, zOld: bool): (r: AluOut)
    ensures !r.flags.n
  {
    var val := if reg1 == Instructions.Sp then AddWord(rv, SignExtend(LowByte(d))) else AddWord(rv, d);
    var h8 := rv % 0x10 + d % 0x10 >= 0x10;
    var c8 := rv % 0x100 + d % 0x100 >= 0x100;
    if reg1 == Instructions.Sp then AluOut(val, Flags(false, false, h8, c8))
    else if Instructions.Is16Bit(reg1) then
      AluOut(val, Flags(zOld, false, rv % 0x1000 + d % 0x1000 >= 0x1000, rv + d >= 0x1_0000))
    else AluOut(val, Flags(val % 0x100 == 0, false, h8, c8))
  }

  /** ADD A, r: the low byte and C together are the 9-bit sum; Z iff that byte is 0. */
  lemma AddByteSum(a: Byte, d: Byte)
    ensures var r := AddOp(Instructions.A, a, d, false);
      LowByte(r.value) + 0x100 * Carry(r.flags.c) == a + d &&
      (r.flags.z <==> LowByte(r.value) == 0)
  {
  }

  /** ADD HL, rr: the result and C together are the 17-bit sum and Z is kept. */
  lemma AddWordSum(hl: Word, d: Word, zOld: bool)
    ensures var r := AddOp(Instructions.Hl, hl, d, zOld);
      r.value + 0x1_0000 * Carry(r.flags.c) == hl + d && r.flags.z == zOld
  {
  }

  /** ADD SP, e8 adds the signed offset with wrap-around and clears Z. */
  lemma AddSpOffset(sp: Word, e: Byte)
    ensures AddOp(Instructions.Sp, sp, e, true).value == (sp + Signed(e)) % 0x1_0000
    ensures !AddOp(Instructions.Sp, sp, e, true).flags.z
  {
    SignExtendAdds(sp, e);
  }

  /** RLC / RLCA: bit 7 goes to bit 0 and into the carry. */
  function Rlc(v: Byte): Shifted
  {
    Shifted(v * 2 % 0x100 + v / 0x80, v >= 0x80)
  }

  /** RRC / RRCA: bit 0 goes to bit 7 and into the carry. */
  function Rrc(v: Byte): Shifted
  {
    Shifted(v / 2 + v % 2 * 0x80, v % 2 == 1)
  }

  /** RL / RLA: a 9-bit rotation through the carry, to the left. */
  function Rl(v: Byte, carry: bool): Shifted
  {
    Shifted(v * 2 % 0x100 + Carry(carry), v >= 0x80)
  }

  /** RR / RRA: a 9-bit rotation through the carry, to the right. */
  function Rr(v: Byte, carry: bool): Shifted
  {
    Shifted(v / 2 + Carry(carry) * 0x80, v % 2 == 1)
  }

  /** SLA: shift left, bit 7 into the carry, 0 into bit 0. */
  function Sla(v: Byte): Shifted
  {
    Shifted(v * 2 % 0x100, v >= 0x80)
  }

  /** SRA: `((v as i8) >> 1) as u8`, bit 0 into the carry. */
  function Sra(v: Byte): Shifted
  {
    Shifted(v / 2 + (if v >= 0x80 then 0x80 else 0), v % 2 == 1)
  }

  /** SWAP: the two nibbles exchanged; the carry is cleared. */
  function Swap(v: Byte): Shifted
  {
    Shifted(v % 0x10 * 0x10 + v / 0x10, false)
  }

  /** SRL: logical shift right, bit 0 into the carry. */
  function Srl(v: Byte): Shifted
  {
    Shifted(v / 2, v % 2 == 1)
  }

  /** RRC undoes RLC and RLC undoes RRC. */
  lemma RotateInverse(v: Byte)
    ensures Rrc(Rlc(v).value).value == v
    ensures Rlc(Rrc(v).value).value == v
  {
    var q, r := v / 0x80, v % 0x80;
    assert v == 0x80 * q + r;
    DivMod256(q, 2 * r);
    assert Rlc(v).value == 2 * r + q;
    DivMod2(r, q);
    var k, b := v / 2, v % 2;
    assert v == 2 * k + b;
    assert Rrc(v).value == 0x80 * b + k;
    DivMod128(b, k);
    DivMod256(b, 2 * k);
  }

  /** Rotating through the carry and back restores both the byte and the carry. */
  lemma RotateCarryInverse(v: Byte, carry: bool)
    ensures var s := Rl(v, carry); Rr(s.value, s.carry) == Shifted(v, carry)
    ensures var s := Rr(v, carry); Rl(s.value, s.carry) == Shifted(v, carry)
  {
    var q, r := v / 0x80, v % 0x80;
    assert v == 0x80 * q + r;
    DivMod256(q, 2 * r);
    assert Rl(v, carry) == Shifted(2 * r + Carry(carry), q == 1);
    DivMod2(r, Carry(carry));
    var k, b := v / 2, v % 2;
    assert v == 2 * k + b;
    assert Rr(v, carry) == Shifted(0x80 * Carry(carry) + k, b == 1);
    DivMod128(Carry(carry), k);
    DivMod256(Carry(carry), 2 * k);
  }

  /** SWAP applied twice is the identity. */
  lemma SwapTwice(v: Byte)
    ensures Swap(Swap(v).value).value == v
  {
    var hi, lo := v / 0x10, v % 0x10;
    assert v == 0x10 * hi + lo;
    assert Swap(v).value == 0x10 * lo + hi;
    DivMod16(lo, hi);
  }

  /** RL is a 9-bit doubling with the carry shifted in; SLA the same with 0 shifted in. */
  lemma ShiftLeftDoubles(v: Byte, carry: bool)
    ensures Rl(v, carry).value + 0x100 * Carry(Rl(v, carry).carry) == 2 * v + Carry(carry)
    ensures Sla(v).value + 0x100 * Carry(Sla(v).carry) == 2 * v
  {
    var q, r := v / 0x80, v % 0x80;
    assert v == 0x80 * q + r;
    DivMod256(q, 2 * r);
  }

  /** SRL halves the byte with the dropped bit in the carry; SRA halves it as a signed value. */
  lemma ShiftRightHalves(v: Byte)
    ensures 2 * Srl(v).value + Carry(Srl(v).carry) == v
    ensures Signed(Sra(v).value) == Signed(v) / 2
    ensures Sra(v).carry == Srl(v).carry
  {
    var k, b := v / 2, v % 2;
    assert v == 2 * k + b;
    if v >= 0x80 {
      assert Sra(v).value == k + 0x80;
      assert Signed(v) == 2 * (k - 0x80) + b;
      DivMod2(k - 0x80, b);
    } else {
      DivMod2(k, b);
    }
  }

  /**
   * `proc_daa`: the decimal adjustment after an addition (N clear) or a
   * subtraction (N set); returns the adjusted A and the new carry.
   */
  function Daa(a: Byte, n: bool, h: bool, c: bool): Shifted
  {
    var u := if h || (!n && a % 0x10 > 9) then 6 else 0;
    var fc := c || (!n && a > 0x99);
    var u' := if fc then u + 0x60 else u;
    Shifted(if n then AddByte(a, -u') else AddByte(a, u'), fc)
  }

  /** A byte holding two decimal digits, and the number it stands for. */
  predicate IsBcd(v: Byte)
  {
    v % 0x10 <= 9 && v / 0x10 <= 9
  }

  function BcdValue(v: Byte): nat
  {
    v / 0x10 * 10 + v % 0x10
  }

  /**
   * ADD of two decimal-digit bytes followed by DAA gives the decimal digits
   * of the sum modulo 100, with the carry set exactly when the sum reaches 100.
   */
  lemma DaaAfterAdd(x: Byte, y: Byte)
    requires IsBcd(x) && IsBcd(y)
    ensures IsBcd(AddThenDaa(x, y).value)
    ensures BcdValue(AddThenDaa(x, y).value) == (BcdValue(x) + BcdValue(y)) % 100
    ensures AddThenDaa(x, y).carry <==> BcdValue(x) + BcdValue(y) >= 100
  {
    var xh, xl := BcdDigits(x);
    var yh, yl := BcdDigits(y);
    var n := BcdValue(x) + BcdValue(y);
    var fc := Carry(n >= 100);
    var rest := n - 100 * fc;
    DivMod100(fc, rest);
    var d1, d0 := DecimalDigits(rest);
    DaaDigitSum(xh, xl, yh, yl, fc, d1, d0);
    AddThenDaaOfDigits(x, y, xh, xl, yh, yl);
    DivMod16(d1, d0);
  }

  /** The two decimal digits of a byte that holds them. */
  lemma BcdDigits(v: Byte) returns (hi: int, lo: int)
    requires IsBcd(v)
    ensures 0 <= hi <= 9 && 0 <= lo <= 9 && v == 0x10 * hi + lo && BcdValue(v) == 10 * hi + lo
  {
    hi, lo := v / 0x10, v % 0x10;
  }

  /** The two decimal digits of a number below 100. */
  lemma DecimalDigits(n: int) returns (hi: int, lo: int)
    requires 0 <= n < 100
    ensures 0 <= hi <= 9 && 0 <= lo <= 9 && n == 10 * hi + lo
  {
    hi, lo := n / 10, n % 10;
  }

  /**
   * The same for the digits: when the digit pairs `xh xl` and `yh yl` add up
   * to the decimal number `fc d1 d0`, ADD then DAA leaves `d1 d0` in A and fc in C.
   */
  lemma DaaDigitSum(xh: int, xl: int, yh: int, yl: int, fc: int, d1: int, d0: int)
    requires 0 <= xh <= 9 && 0 <= xl <= 9 && 0 <= yh <= 9 && 0 <= yl <= 9
    requires 0 <= fc <= 1 && 0 <= d1 <= 9 && 0 <= d0 <= 9
    requires 10 * (xh + yh) + xl + yl == 100 * fc + 10 * d1 + d0
    ensures var s := 0x10 * (xh + yh) + xl + yl;
      var a := s - 0x100 * Carry(s > 0xFF);
      0 <= a < 0x100 &&
      Daa(a, false, xl + yl > 0xF, s > 0xFF) == Shifted(0x10 * d1 + d0, fc == 1)
  {
    var low, high := xl + yl, xh + yh;
    var s := 0x10 * high + low;
    var cc: int := Carry(s > 0xFF);
    var a := s - 0x100 * cc;
    var wide := Carry(low > 0xF);
    DivMod16(high - 0x10 * cc + wide, low - 0x10 * wide);
    DaaDigits(low, high, fc, d1, d0);
    assert (low > 0xF || a % 0x10 > 9) <==> low >= 10;
    DaaAdds(a, low > 0xF, s > 0xFF, fc - cc, 0x10 * d1 + d0);
  }

  /** The sum ADD leaves in A, written with the digits of the operands. */
  lemma AddThenDaaOfDigits(x: Byte, y: Byte, xh: int, xl: int, yh: int, yl: int)
    requires 0 <= xh <= 9 && 0 <= xl <= 9 && 0 <= yh <= 9 && 0 <= yl <= 9
    requires x == 0x10 * xh + xl && y == 0x10 * yh + yl
    ensures var s := 0x10 * (xh + yh) + xl + yl;
      var a := s - 0x100 * Carry(s > 0xFF);
      0 <= a < 0x100 &&
      AddThenDaa(x, y) == Daa(a, false, xl + yl > 0xF, s > 0xFF)
  {
    DivMod16(xh, xl);
    DivMod16(yh, yl);
    var s := 0x10 * (xh + yh) + xl + yl;
    DivMod256(Carry(s > 0xFF), s - 0x100 * Carry(s > 0xFF));
  }

  /** After an addition DAA adds its adjustment to A, keeping the low eight bits of the sum. */
  lemma DaaAdds(a: Byte, h: bool, c: bool, k: int, t: int)
    requires 0 <= t < 0x100
    requires a + (if h || a % 0x10 > 9 then 6 else 0) + (if c || a > 0x99 then 0x60 else 0) == 0x100 * k + t
    ensures Daa(a, false, h, c) == Shifted(t, c || a > 0x99)
  {
    DivMod256(k, t);
  }

  /** `ADD A, y` with A = x followed by `DAA`: the adjusted A and the carry. */
  function AddThenDaa(x: Byte, y: Byte): Shifted
  {
    var s := x + y;
    Daa(s % 0x100, false, x % 0x10 + y % 0x10 > 0xF, s > 0xFF)
  }

  /**
   * The decimal digits of a sum of two digit pairs, `0x10 * high + low`:
   * DAA's two conditions pick out the decimal carries, and its adjustment
   * turns the binary sum into the two decimal digits.
   */
  lemma DaaDigits(low: int, high: int, fc: int, d1: int, d0: int)
    requires 0 <= low <= 18 && 0 <= high <= 18
    requires 0 <= fc <= 1 && 0 <= d1 <= 9 && 0 <= d0 <= 9
    requires 10 * high + low == 100 * fc + 10 * d1 + d0
    ensures var s := 0x10 * high + low;
      var cc := Carry(s > 0xFF);
      var a := s - 0x100 * cc;
      var cl := Carry(low >= 10);
      ((low > 0xF || low - 0x10 * Carry(low > 0xF) > 9) <==> cl == 1) &&
      ((s > 0xFF || a > 0x99) <==> fc == 1) &&
      a + 6 * cl + 0x60 * fc == 0x100 * (fc - cc) + 0x10 * d1 + d0
  {
  }

  /** Division by 100 of a number given by its hundreds and its remainder. */
  lemma DivMod100(k: int, t: int)
    requires 0 <= t < 100
    ensures (100 * k + t) / 100 == k && (100 * k + t) % 100 == t
  {
  }

  /** `proc_cpl`: A complemented, `!a`. */
  function Cpl(a: Byte): (r: Byte)
  {
    Not(a)
  }

  /** The complement is 0xFF - A, so CPL applied twice is the identity. */
  lemma CplComplements(a: Byte)
    ensures Cpl(a) == 0xFF - a
    ensures Cpl(Cpl(a)) == a
  {
    NotIsDifference(a);
    NotIsDifference(Not(a));
  }

  /** `!x` on a byte is 0xFF - x. */
  lemma NotIsDifference(a: Byte)
    ensures Not(a) == 0xFF - a
  {
    NotValue(Bits(a));
    ByteOfBits(a);
  }

  /** On `bv8`, `!x` read as an integer is 0xFF minus x. */
  lemma NotValue(x: bv8)
    ensures (!x) as int == 0xFF - x as int
  {
  }
}
