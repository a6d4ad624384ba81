/**
 * The value and flags each eight-bit and sixteen-bit ALU operation of the CPU
 * produces: the rotates and shifts of core/src/hardware/cpu/alu.rs and the
 * arithmetic of the instruction handlers in core/src/hardware/cpu/mod.rs.
 * The `Cpu` class applies them to its registers.
 */
module Alu {
  import opened Bits

  /** A result byte and the Z, N, H and C flags the operation leaves. */
  datatype AluOut = AluOut(value: Byte, z: bool, n: bool, h: bool, c: bool)

  /** `set_rotate_flags`: Z from the result, N and H cleared, C from the bit shifted out. */
  function RotateFlags(newValue: Byte, cfCheck: Byte): (r: AluOut)
  {
    AluOut(newValue, newValue == 0, false, false, cfCheck != 0)
  }

  /** `rotate_left`: C <- [7 <- 0] <- [7]. */
  function RotateLeft(v: Byte): (r: AluOut)
  {
    RotateFlags(v.RotateLeft(1), v & 0x80)
  }

  /** `rotate_left_carry`: C <- [7 <- 0] <- C. */
  function RotateLeftCarry(v: Byte, carry: bool): (r: AluOut)
  {
    RotateFlags((v << 1) | BoolBit(carry), v & 0x80)
  }

  /** `shift_left`: C <- [7 <- 0] <- 0. */
  function ShiftLeft(v: Byte): (r: AluOut)
  {
    RotateFlags(v << 1, v & 0x80)
  }

  /** `rotate_right`: [0] -> [7 -> 0] -> C. */
  function RotateRight(v: Byte): (r: AluOut)
  {
    RotateFlags(v.RotateRight(1), v & 0x01)
  }

  /** `rotate_right_carry`: C -> [7 -> 0] -> C. */
  function RotateRightCarry(v: Byte, carry: bool): (r: AluOut)
  {
    RotateFlags((BoolBit(carry) << 7) | (v >> 1), v & 0x01)
  }

  /** `shift_right`: 0 -> [7 -> 0] -> C. */
  function ShiftRight(v: Byte): (r: AluOut)
  {
    RotateFlags(v >> 1, v & 0x01)
  }

  /** `sra`: [7] -> [7 -> 0] -> C. */
  function ShiftRightArithmetic(v: Byte): (r: AluOut)
  {
    var nv := (v & 0x80) | (v >> 1);
    AluOut(nv, nv == 0, false, false, v & 0x1 != 0)
  }

  /** `swap`: exchanges the nibbles; Z from the result, N, H and C cleared. */
  function Swap(v: Byte): (r: AluOut)
  {
    var nv := ((v & 0x0F) << 4) | ((v & 0xF0) >> 4);
    AluOut(nv, nv == 0, false, false, false)
  }

  /** The flags every rotate and shift leaves: Z = (result == 0), N = H = 0. */
  predicate RotateFlagsHold(r: AluOut)
  {
    r.z == (r.value == 0) && !r.n && !r.h
  }

  /**
   * `rotate_left` moves every bit up one place and bit 7 round to bit 0 and
   * into C; `rotate_right` is its inverse and moves bit 0 into C.
   */
  lemma RotateSpec(v: Byte, i: nat)
    requires i < 8
    ensures BitSet(RotateLeft(v).value, (i + 1) % 8) == BitSet(v, i)
    ensures BitSet(RotateRight(v).value, i) == BitSet(v, (i + 1) % 8)
    ensures RotateLeft(v).c == BitSet(v, 7) && RotateRight(v).c == BitSet(v, 0)
    ensures RotateFlagsHold(RotateLeft(v)) && RotateFlagsHold(RotateRight(v))
    ensures RotateRight(RotateLeft(v).value).value == v
  {
  }

  /**
   * Rotating through the carry treats C as a ninth bit: the old C enters bit 0
   * (left) or bit 7 (right), the bit shifted out becomes C, and rotating back
   * restores both the byte and C.
   */
  lemma RotateCarrySpec(v: Byte, carry: bool)
    ensures BitSet(RotateLeftCarry(v, carry).value, 0) == carry
    ensures RotateLeftCarry(v, carry).c == BitSet(v, 7)
    ensures BitSet(RotateRightCarry(v, carry).value, 7) == carry
    ensures RotateRightCarry(v, carry).c == BitSet(v, 0)
    ensures var l := RotateLeftCarry(v, carry);
            RotateRightCarry(l.value, l.c).value == v && RotateRightCarry(l.value, l.c).c == carry
    ensures RotateFlagsHold(RotateLeftCarry(v, carry)) && RotateFlagsHold(RotateRightCarry(v, carry))
  {
  }

  /**
   * `shift_left` doubles modulo 256 with bit 7 into C and bit 0 cleared;
   * `shift_right` halves with bit 0 into C and bit 7 cleared.
   */
  lemma ShiftSpec(v: Byte)
    ensures ShiftLeft(v).value == v * 2 && !BitSet(ShiftLeft(v).value, 0) && ShiftLeft(v).c == BitSet(v, 7)
    ensures ShiftRight(v).value == v / 2 && !BitSet(ShiftRight(v).value, 7) && ShiftRight(v).c == BitSet(v, 0)
    ensures RotateFlagsHold(ShiftLeft(v)) && RotateFlagsHold(ShiftRight(v))
  {
  }

  /** The byte read as a two's-complement number. */
  function Signed(v: Byte): (x: int)
  {
    if v < 0x80 then v as int else v as int - 256
  }

  /**
   * `sra` keeps bit 7 and moves bit 0 into C: it halves the signed value,
   * rounding down.
   */
  lemma ShiftRightArithmeticSpec(v: Byte)
    ensures BitSet(ShiftRightArithmetic(v).value, 7) == BitSet(v, 7)
    ensures ShiftRightArithmetic(v).c == BitSet(v, 0)
    ensures Signed(ShiftRightArithmetic(v).value) == Signed(v) / 2
    ensures RotateFlagsHold(ShiftRightArithmetic(v))
  {
    var r := ShiftRightArithmetic(v).value;
    if v < 0x80 {
      assert r == v / 2;
      assert r as int == v as int / 2;
    } else {
      assert r == 0x80 | (v / 2);
      assert r as int == 128 + v as int / 2;
    }
  }

  /** `swap` is an involution that clears N, H and C and sets Z exactly for 0. */
  lemma SwapSpec(v: Byte)
    ensures Swap(Swap(v).value).value == v
    ensures Swap(v).z == (v == 0) && !Swap(v).n && !Swap(v).h && !Swap(v).c
  {
  }

  /** `add`: A + v with the nibble carry in H and the byte carry in C. */
  function Add(a: Byte, v: Byte): (r: AluOut)
  {
    var nv := a + v;
    AluOut(nv, nv == 0, false, (a & 0xF) + (v & 0xF) > 0xF, (a as Word) + (v as Word) > 0xFF)
  }

  /** `adc`: A + v + C. */
  function Adc(a: Byte, v: Byte, carry: bool): (r: AluOut)
  {
    var cf := BoolBit(carry);
    var nv := a + v + cf;
    AluOut(nv, nv == 0, false, (a & 0xF) + (v & 0xF) + cf > 0xF,
           (a as Word) + (v as Word) + (cf as Word) > 0xFF)
  }

  /** `sub`: A - v with the nibble borrow in H and the byte borrow in C. */
  function Sub(a: Byte, v: Byte): (r: AluOut)
  {
    var nv := a - v;
    AluOut(nv, nv == 0, true, ((a & 0xF) - (v & 0xF)) & 0x10 != 0, v > a)
  }

  /** `sbc`: A - v - C. */
  function Sbc(a: Byte, v: Byte, carry: bool): (r: AluOut)
  {
    var cf := BoolBit(carry);
    var nv := a - v - cf;
    AluOut(nv, nv == 0, true, ((a & 0xF) - (v & 0xF) - cf) & 0x10 != 0,
           (v as Word) + (cf as Word) > (a as Word))
  }

  /** `compare`: the flags of A - v; the CPU keeps A. */
  function Compare(a: Byte, v: Byte): (r: AluOut)
  {
    var nv := a - v;
    AluOut(nv, nv == 0, true, ((a & 0xF) - (v & 0xF)) & 0x10 != 0, v > a)
  }

  function And(a: Byte, v: Byte): (r: AluOut)
  {
    var nv := a & v;
    AluOut(nv, nv == 0, false, true, false)
  }

  function Xor(a: Byte, v: Byte): (r: AluOut)
  {
    var nv := a ^ v;
    AluOut(nv, nv == 0, false, false, false)
  }

  function Or(a: Byte, v: Byte): (r: AluOut)
  {
    var nv := a | v;
    AluOut(nv, nv == 0, false, false, false)
  }

  /**
   * Addition with carry in is exact as a nine-bit sum: the result plus 0x100
   * for C equals A + v + carry; H is the carry into bit 4, which is bit 4 of
   * A XOR v XOR the result.
   */
  lemma AdcSpec(a: Byte, v: Byte, carry: bool)
    ensures var r := Adc(a, v, carry);
            (r.value as Word) + (if r.c then 0x100 else 0) == (a as Word) + (v as Word) + (BoolBit(carry) as Word) &&
            r.h == ((a ^ v ^ r.value) & 0x10 != 0) &&
            r.z == (r.value == 0) && !r.n
  {
  }

  /** Without a carry in, ADC is ADD. */
  lemma AdcWithoutCarry(a: Byte, v: Byte)
    ensures Adc(a, v, false) == Add(a, v)
  {
    assert BoolBit(false) == 0;
  }

  /**
   * Subtraction with borrow in: the result plus v plus the borrow gives A
   * back, C is set exactly when v (plus the borrow) exceeds A, and H is the
   * borrow into bit 4 (bit 4 of A XOR v XOR the result, while the source
   * reads bit 4 of the wrapped nibble difference).
   */
  lemma SbcSpec(a: Byte, v: Byte, carry: bool)
    ensures var r := Sbc(a, v, carry);
            r.value + v + BoolBit(carry) == a &&
            (r.c <==> a < v || (carry && a == v)) &&
            r.h == ((a ^ v ^ r.value) & 0x10 != 0) &&
            r.z == (r.value == 0) && r.n
  {
  }

  /** Without a borrow in, SBC is SUB. */
  lemma SbcWithoutCarry(a: Byte, v: Byte)
    ensures Sbc(a, v, false) == Sub(a, v)
  {
    assert BoolBit(false) == 0;
  }

  /** CP sets exactly the flags SUB sets. */
  lemma CompareIsSubFlags(a: Byte, v: Byte)
    ensures Compare(a, v) == Sub(a, v)
  {
  }

  /** Subtracting what was added gives A back, and the borrow then mirrors the carry. */
  lemma AddSubRoundTrip(a: Byte, v: Byte)
    ensures Sub(Add(a, v).value, v).value == a
    ensures Sub(Add(a, v).value, v).c == Add(a, v).c
  {
  }

  /** AND sets H; AND, XOR and OR clear C and N and set Z exactly for a zero result. */
  lemma LogicSpec(a: Byte, v: Byte)
    ensures And(a, v).h && !And(a, v).c && !And(a, v).n && And(a, v).z == (a & v == 0)
    ensures !Xor(a, v).h && !Xor(a, v).c && Xor(a, v).z == (a == v)
    ensures !Or(a, v).h && !Or(a, v).c && Or(a, v).z == (a == 0 && v == 0)
  {
  }

  /** `increment`: v + 1 wrapping; H when the low nibble was 0xF; C is kept. */
  function Inc(v: Byte, carry: bool): (r: AluOut)
  {
    var nv := v + 1;
    AluOut(nv, nv == 0, false, (v & 0xF) + 0x1 > 0xF, carry)
  }

  /** `decrement`: v - 1 wrapping; H when the low nibble was 0; C is kept. */
  function Dec(v: Byte, carry: bool): (r: AluOut)
  {
    var nv := v - 1;
    AluOut(nv, nv == 0, true, v & 0xF == 0, carry)
  }

  /** INC and DEC undo each other, keep C, and set H from the low nibble. */
  lemma IncDecSpec(v: Byte, carry: bool)
    ensures Dec(Inc(v, carry).value, carry).value == v && Inc(Dec(v, carry).value, carry).value == v
    ensures Inc(v, carry).c == carry && Dec(v, carry).c == carry
    ensures Inc(v, carry).h <==> v & 0xF == 0xF
    ensures Dec(v, carry).h <==> v & 0xF == 0
    ensures Inc(v, carry).z <==> v == 0xFF
    ensures Dec(v, carry).z <==> v == 1
  {
  }

  /** `daa`: the BCD correction of A from N, H and C; H is cleared, N kept. */
  function Daa(a: Byte, n: bool, h: bool, c: bool): (r: AluOut)
  {
    var (v, carry) :=
      if !n then
        var (a1, c1) := if c || a > 0x99 then (a + 0x60, true) else (a, c);
        (if h || a1 & 0x0F > 0x09 then a1 + 0x06 else a1, c1)
      else
        var a1 := if c then a - 0x60 else a;
        (if h then a1 - 0x06 else a1, c);
    AluOut(v, v == 0, n, false, carry)
  }

  /** Whether both nibbles of `x` are decimal digits. */
  predicate IsBcd(x: Byte)
  {
    x & 0xF <= 9 && x >> 4 <= 9
  }

  /** The number two BCD digits stand for. */
  function BcdValue(x: Byte): (d: int)
  {
    (x >> 4) as int * 10 + (x & 0xF) as int
  }

  /**
   * Decimal addition of two BCD bytes done column by column, the way it is
   * done by hand: the ones column carries into the tens column, and the tens
   * column carries out. The result is the two digits and the carry out.
   */
  function BcdAdd(x: Byte, y: Byte): (r: (Byte, bool))
  {
    Columns((x >> 4) + (y >> 4), (x & 0xF) + (y & 0xF))
  }

  /** The column step of `BcdAdd` given the sums of the tens and of the ones digits. */
  function Columns(tens: Byte, ones: Byte): (r: (Byte, bool))
  {
    var carry1: Byte := if ones >= 10 then 1 else 0;
    var t := tens + carry1;
    var lo := if ones >= 10 then ones - 10 else ones;
    var hi := if t >= 10 then t - 10 else t;
    ((hi << 4) | lo, t >= 10)
  }

  /**
   * Column addition is decimal addition: the digits are BCD, they stand for
   * the sum modulo 100, and the carry out says whether the sum reached 100.
   */
  lemma BcdAddSpec(x: Byte, y: Byte)
    requires IsBcd(x) && IsBcd(y)
    ensures IsBcd(BcdAdd(x, y).0)
    ensures BcdValue(BcdAdd(x, y).0) == (BcdValue(x) + BcdValue(y)) % 100
    ensures BcdAdd(x, y).1 <==> BcdValue(x) + BcdValue(y) >= 100
  {
    var o, t := BcdColumnsInt(x, y);
    DecimalColumns((x >> 4) as int, (x & 0xF) as int, (y >> 4) as int, (y & 0xF) as int, o, t, BcdValue(x) + BcdValue(y));
  }

  /** The column sums of `BcdAdd` and its result, read as numbers. */
  lemma BcdColumnsInt(x: Byte, y: Byte) returns (o: int, t: int)
    requires IsBcd(x) && IsBcd(y)
    ensures 0 <= (x >> 4) as int <= 9 && 0 <= (x & 0xF) as int <= 9
    ensures 0 <= (y >> 4) as int <= 9 && 0 <= (y & 0xF) as int <= 9
    ensures o == (x & 0xF) as int + (y & 0xF) as int
    ensures t == (x >> 4) as int + (y >> 4) as int + (if o >= 10 then 1 else 0)
    ensures IsBcd(BcdAdd(x, y).0)
    ensures BcdValue(BcdAdd(x, y).0) == (if t >= 10 then t - 10 else t) * 10 + (if o >= 10 then o - 10 else o)
    ensures BcdAdd(x, y).1 <==> t >= 10
  {
    var ones := (x & 0xF) + (y & 0xF);
    var tens := (x >> 4) + (y >> 4);
    DigitsOfBcd(x);
    DigitsOfBcd(y);
    SmallSum(x & 0xF, y & 0xF);
    SmallSum(x >> 4, y >> 4);
    o, t := ones as int, tens as int + (if ones as int >= 10 then 1 else 0);
    BcdAddValue(x, y, tens, ones, o, t);
  }

  lemma BcdAddValue(x: Byte, y: Byte, tens: Byte, ones: Byte, o: int, t: int)
    requires tens == (x >> 4) + (y >> 4) && ones == (x & 0xF) + (y & 0xF)
    requires tens <= 18 && ones <= 18
    requires o == ones as int && t == tens as int + (if o >= 10 then 1 else 0)
    ensures IsBcd(BcdAdd(x, y).0)
    ensures BcdValue(BcdAdd(x, y).0) == (if t >= 10 then t - 10 else t) * 10 + (if o >= 10 then o - 10 else o)
    ensures BcdAdd(x, y).1 <==> t >= 10
  {
    ColumnsValue(tens, ones, o, t);
  }

  lemma ColumnsValue(tens: Byte, ones: Byte, o: int, t: int)
    requires tens <= 18 && ones <= 18
    requires o == ones as int && t == tens as int + (if o >= 10 then 1 else 0)
    ensures IsBcd(Columns(tens, ones).0)
    ensures BcdValue(Columns(tens, ones).0) == (if t >= 10 then t - 10 else t) * 10 + (if o >= 10 then o - 10 else o)
    ensures Columns(tens, ones).1 <==> t >= 10
  {
    var carry1: Byte := if ones >= 10 then 1 else 0;
    var tb := tens + carry1;
    var lo := if ones >= 10 then ones - 10 else ones;
    var hi := if tb >= 10 then tb - 10 else tb;
    SmallSum(tens, carry1);
    Digit(ones);
    Digit(tb);
    Pack(hi, lo);
    ColumnsUnfold(tens, ones, tb, lo, hi);
  }

  lemma ColumnsUnfold(tens: Byte, ones: Byte, t: Byte, lo: Byte, hi: Byte)
    requires t == tens + (if ones >= 10 then 1 else 0)
    requires lo == (if ones >= 10 then ones - 10 else ones)
    requires hi == (if t >= 10 then t - 10 else t)
    ensures Columns(tens, ones).0 == (hi << 4) | lo && Columns(tens, ones).1 == (t >= 10)
  {
  }

  /** Schoolbook addition of two-digit numbers, on integers. */
  lemma DecimalColumns(xh: int, xl: int, yh: int, yl: int, o: int, t: int, sum: int)
    requires 0 <= xh <= 9 && 0 <= xl <= 9 && 0 <= yh <= 9 && 0 <= yl <= 9
    requires o == xl + yl && t == xh + yh + (if o >= 10 then 1 else 0)
    requires sum == xh * 10 + xl + yh * 10 + yl
    ensures (if t >= 10 then t - 10 else t) * 10 + (if o >= 10 then o - 10 else o) == sum % 100
    ensures t >= 10 <==> sum >= 100
  {
  }

  lemma DigitsOfBcd(x: Byte)
    requires IsBcd(x)
    ensures 0 <= (x >> 4) as int <= 9 && 0 <= (x & 0xF) as int <= 9
  {
  }

  lemma SmallSum(a: Byte, b: Byte)
    requires a <= 18 && b <= 9
    ensures (a + b) as int == a as int + b as int
  {
  }

  lemma Digit(a: Byte)
    requires a <= 19
    ensures (a >= 10) == (a as int >= 10)
    ensures a >= 10 ==> (a - 10) as int == a as int - 10
  {
  }

  lemma Pack(hi: Byte, lo: Byte)
    requires hi <= 9 && lo <= 9
    ensures ((hi << 4) | lo) >> 4 == hi && ((hi << 4) | lo) & 0xF == lo
  {
  }

  /**
   * ADD followed by DAA is BCD addition: for BCD operands the corrected A is
   * the column sum of `BcdAdd`, hence (`BcdAddSpec`) the BCD form of the
   * decimal sum modulo 100.
   */
  lemma DaaAfterAdd(x: Byte, y: Byte)
    requires IsBcd(x) && IsBcd(y)
    ensures var s := Add(x, y);
            Daa(s.value, s.n, s.h, s.c).value == BcdAdd(x, y).0
  {
    if (x & 0xF) + (y & 0xF) < 10 {
      DaaNoOnesCarry(x, y);
    } else {
      DaaOnesCarry(x, y);
    }
  }

  lemma DaaNoOnesCarry(x: Byte, y: Byte)
    requires IsBcd(x) && IsBcd(y) && (x & 0xF) + (y & 0xF) < 10
    ensures var s := Add(x, y);
            Daa(s.value, s.n, s.h, s.c).value == BcdAdd(x, y).0
  {
  }

  lemma DaaOnesCarry(x: Byte, y: Byte)
    requires IsBcd(x) && IsBcd(y) && (x & 0xF) + (y & 0xF) >= 10
    ensures var s := Add(x, y);
            Daa(s.value, s.n, s.h, s.c).value == BcdAdd(x, y).0
  {
  }

  /** After ADD of BCD operands, DAA sets C exactly when the decimal sum carries out. */
  lemma DaaCarryAfterAdd(x: Byte, y: Byte)
    requires IsBcd(x) && IsBcd(y)
    ensures var s := Add(x, y);
            Daa(s.value, s.n, s.h, s.c).c == BcdAdd(x, y).1
  {
  }

  /** The result and the H and C flags of `add16` (Z is kept, N cleared). */
  datatype Add16Out = Add16Out(value: Word, h: bool, c: bool)

  /**
   * `add16`: v + HL with H from the low twelve bits and C the overflow flag of
   * `overflowing_add`, which is set exactly when the wrapped sum is below v.
   */
  function Add16(hl: Word, v: Word): (r: Add16Out)
  {
    Add16Out(v + hl, (v & 0x0FFF) + (hl & 0x0FFF) > 0x0FFF, v + hl < v)
  }

  /**
   * The sixteen-bit addition is an eight-bit ADD of the low bytes followed by
   * an ADC of the high bytes: the low byte of the result is the ADD result,
   * the high byte is the sum of the high bytes and the low carry, C is the
   * carry out of that ADC, and H is its nibble carry (out of bit 11).
   */
  lemma Add16Spec(hl: Word, v: Word)
    ensures Lo(Add16(hl, v).value) == Add(Lo(hl), Lo(v)).value
    ensures Add16(hl, v).value >> 8 == ((hl >> 8) + (v >> 8) + (if Add(Lo(hl), Lo(v)).c then 1 else 0)) & 0xFF
    ensures Add16(hl, v).c == Adc(Hi(hl), Hi(v), Add(Lo(hl), Lo(v)).c).c
    ensures Add16(hl, v).h == Adc(Hi(hl), Hi(v), Add(Lo(hl), Lo(v)).c).h
  {
    Add16Low(hl, v);
    Add16High(hl, v);
    Add16Carry(hl, v);
    Add16Half(hl, v);
  }

  lemma Add16Low(hl: Word, v: Word)
    ensures Lo(Add16(hl, v).value) == Add(Lo(hl), Lo(v)).value
  {
  }

  lemma Add16High(hl: Word, v: Word)
    ensures Add16(hl, v).value >> 8 == ((hl >> 8) + (v >> 8) + (if Add(Lo(hl), Lo(v)).c then 1 else 0)) & 0xFF
  {
  }

  lemma Add16Carry(hl: Word, v: Word)
    ensures Add16(hl, v).c == Adc(Hi(hl), Hi(v), Add(Lo(hl), Lo(v)).c).c
  {
  }

  lemma Add16Half(hl: Word, v: Word)
    ensures Add16(hl, v).h == Adc(Hi(hl), Hi(v), Add(Lo(hl), Lo(v)).c).h
  {
  }

  /** `e as i8 as u16`: the offset byte sign-extended to sixteen bits. */
  function SignExtend(e: Byte): (w: Word)
  {
    if e < 0x80 then e as Word else 0xFF00 | (e as Word)
  }

  /** `add_sp` and `load_sp_i`: SP + e with H and C from the unsigned low-byte addition; Z and N cleared. */
  function AddSigned(sp: Word, e: Byte): (r: Add16Out)
  {
    var value := SignExtend(e);
    Add16Out(sp + value, (sp & 0xF) + (value & 0xF) > 0xF, (sp & 0xFF) + (value & 0xFF) > 0xFF)
  }

  /** The sign-extended offset stands for the same signed number as the offset byte. */
  lemma SignExtendSpec(e: Byte)
    ensures Hi(SignExtend(e)) == (if e < 0x80 then 0x00 else 0xFF) && Lo(SignExtend(e)) == e
    ensures (if SignExtend(e) < 0x8000 then SignExtend(e) as int else SignExtend(e) as int - 0x10000) == Signed(e)
  {
  }

  /**
   * SP moves by the sign-extended offset, while C and H are the carry and
   * nibble carry of the eight-bit ADD of the low byte of SP and the offset
   * byte.
   */
  lemma AddSignedSpec(sp: Word, e: Byte)
    ensures AddSigned(sp, e).value - sp == SignExtend(e)
    ensures AddSigned(sp, e).c == Add(Lo(sp), e).c
    ensures AddSigned(sp, e).h == Add(Lo(sp), e).h
  {
    AddSignedCarry(sp, e);
    AddSignedHalf(sp, e);
  }

  lemma AddSignedCarry(sp: Word, e: Byte)
    ensures AddSigned(sp, e).c == Add(Lo(sp), e).c
  {
  }

  lemma AddSignedHalf(sp: Word, e: Byte)
    ensures AddSigned(sp, e).h == Add(Lo(sp), e).h
  {
  }
}
