/**
 * Decoding of raw register bytes: 20-bit two's-complement axis samples split
 * over three registers, the range-dependent scale, and the 12-bit temperature.
 */
module Decoding {
  import opened Registers
  import opened ByteArith

  // --- Axis samples ---

  /** Packs XDATA3..XDATA1 into the unsigned 20-bit count: bits 23..4 of the three bytes. */
  function Reassemble(b0: byte, b1: byte, b2: byte): (v: int)
    ensures 0 <= v < 0x10_0000
  {
    (((b0 as bv32) << 12) | ((b1 as bv32) << 4) | ((b2 as bv32) >> 4)) as int
  }

  /** The three fields do not overlap, so the OR is a weighted sum of the bytes. */
  lemma ReassembleIsWeightedSum(b0: byte, b1: byte, b2: byte)
    ensures Reassemble(b0, b1, b2) == b0 as int * 0x1000 + b1 as int * 0x10 + b2 as int / 0x10
  {
  }

  /** The low four bits of the last byte never reach the count. */
  lemma LowNibbleIgnored(b0: byte, b1: byte, b2: byte, b2': byte)
    requires b2 & 0xF0 == b2' & 0xF0
    ensures Reassemble(b0, b1, b2) == Reassemble(b0, b1, b2')
  {
  }

  /** Bit 19 of an integer, as Python's `0x80000 & value` tests it (for negative values too). */
  predicate Bit19(value: int) {
    (value / 0x8_0000) % 2 == 1
  }

  /** Sign extension over a 20-bit field. */
  function TwoComp(value: int): (r: int)
    ensures r == value || r == value - 0x10_0000
    ensures r % 0x10_0000 == value % 0x10_0000
  {
    if Bit19(value) then -(0x10_0000 - value) else value
  }

  /** Agrees with the bit-vector mask test on every 32-bit value. */
  lemma Bit19IsMask(value: int)
    requires 0 <= value < 0x1_0000_0000
    ensures Bit19(value) <==> (value as bv32) & 0x8_0000 != 0
  {
  }

  /**
   * On a 20-bit count the result keeps the same 20-bit pattern, lies in
   * [-2^19, 2^19), is unchanged when bit 19 is clear, and is negative iff it is set.
   */
  lemma TwoCompSpec(value: int)
    requires 0 <= value < 0x10_0000
    ensures -0x8_0000 <= TwoComp(value) < 0x8_0000
    ensures (TwoComp(value) < 0) <==> Bit19(value)
    ensures (TwoComp(value) < 0) <==> value >= 0x8_0000
    ensures !Bit19(value) ==> TwoComp(value) == value
    ensures Bit19(value) ==> TwoComp(value) == value - 0x10_0000
    ensures TwoComp(value) % 0x10_0000 == value
  {
  }

  /** The signed count of three sample bytes. */
  function SignedCount(b0: byte, b1: byte, b2: byte): (s: int)
    ensures -0x8_0000 <= s < 0x8_0000
    ensures (s < 0) <==> b0 >= 0x80
  {
    ReassembleIsWeightedSum(b0, b1, b2);
    TwoCompSpec(Reassemble(b0, b1, b2));
    TwoComp(Reassemble(b0, b1, b2))
  }

  /** The three bytes a device sends for signed count `s`; `nibble` fills the unused low bits. */
  function EncodeSample(s: int, nibble: byte): (raw: (byte, byte, byte))
    requires -0x8_0000 <= s < 0x8_0000 && nibble < 0x10
  {
    var u := if s < 0 then s + 0x10_0000 else s;
    var lo := (u % 0x10) as byte;
    ((u / 0x1000) as byte, ((u / 0x10) % 0x100) as byte, (lo << 4) | nibble)
  }

  /** Bytes holding the digits of a 20-bit count reassemble to that count. */
  lemma ReassembleDigits(b0: byte, b1: byte, b2: byte, u: int)
    requires 0 <= u < 0x10_0000
    requires b0 as int == u / 0x1000 && b1 as int == (u / 0x10) % 0x100 && b2 as int / 0x10 == u % 0x10
    ensures Reassemble(b0, b1, b2) == u
  {
    ReassembleIsWeightedSum(b0, b1, b2);
    WeightedDigits(u);
  }

  /** Every signed 20-bit count, with any low nibble, decodes back to itself. */
  lemma DecodeEncode(s: int, nibble: byte)
    requires -0x8_0000 <= s < 0x8_0000 && nibble < 0x10
    ensures var raw := EncodeSample(s, nibble); SignedCount(raw.0, raw.1, raw.2) == s
  {
    var u := if s < 0 then s + 0x10_0000 else s;
    var raw := EncodeSample(s, nibble);
    EncodeSampleDigits(s, nibble, u);
    ReassembleDigits(raw.0, raw.1, raw.2, u);
    TwoCompSpec(u);
  }

  /** The three encoded bytes carry the digits of the unsigned count. */
  lemma EncodeSampleDigits(s: int, nibble: byte, u: int)
    requires -0x8_0000 <= s < 0x8_0000 && nibble < 0x10
    requires u == (if s < 0 then s + 0x10_0000 else s)
    ensures var raw := EncodeSample(s, nibble);
      && raw.0 as int == u / 0x1000
      && raw.1 as int == (u / 0x10) % 0x100
      && raw.2 as int / 0x10 == u % 0x10
  {
    ByteOfInt(u / 0x1000);
    ByteOfInt((u / 0x10) % 0x100);
    ByteOfInt(u % 0x10);
    NibblePair((u % 0x10) as byte, nibble);
  }

  /** Conversely, three bytes are re-encoded from their count and their own low nibble. */
  lemma EncodeDecode(b0: byte, b1: byte, b2: byte)
    ensures EncodeSample(SignedCount(b0, b1, b2), b2 & 0x0F) == (b0, b1, b2)
  {
    UnsignedOfSignedCount(b0, b1, b2);
    DigitsOfReassemble(b0, b1, b2);
    EncodeOfUnsigned(SignedCount(b0, b1, b2), b2 & 0x0F, Reassemble(b0, b1, b2), b0, b1, b2);
  }

  lemma UnsignedOfSignedCount(b0: byte, b1: byte, b2: byte)
    ensures var s := SignedCount(b0, b1, b2);
      (if s < 0 then s + 0x10_0000 else s) == Reassemble(b0, b1, b2)
  {
    TwoCompSpec(Reassemble(b0, b1, b2));
  }

  lemma DigitsOfReassemble(b0: byte, b1: byte, b2: byte)
    ensures var u := Reassemble(b0, b1, b2);
      u / 0x1000 == b0 as int && (u / 0x10) % 0x100 == b1 as int && u % 0x10 == b2 as int / 0x10
  {
    ReassembleIsWeightedSum(b0, b1, b2);
    DigitsOfWeighted(Reassemble(b0, b1, b2), b0 as int, b1 as int, b2 as int / 0x10);
  }

  lemma EncodeOfUnsigned(s: int, nibble: byte, u: int, b0: byte, b1: byte, b2: byte)
    requires -0x8_0000 <= s < 0x8_0000 && nibble == b2 & 0x0F
    requires u == (if s < 0 then s + 0x10_0000 else s)
    requires u / 0x1000 == b0 as int && (u / 0x10) % 0x100 == b1 as int && u % 0x10 == b2 as int / 0x10
    ensures EncodeSample(s, nibble) == (b0, b1, b2)
  {
    var raw := EncodeSample(s, nibble);
    assert raw.0 == b0 by { ByteOfIntBack(b0); }
    assert raw.1 == b1 by { ByteOfIntBack(b1); }
    assert (u % 0x10) as byte == b2 >> 4 by {
      ShiftRightIsDiv(b2);
      ByteOfIntBack(b2 >> 4);
    }
    NibbleSplit(b2);
  }

  // --- Range and scale ---

  predicate ValidRange(range: byte) {
    range == RANGE_2G || range == RANGE_4G || range == RANGE_8G
  }

  /** Counts per g for a range code: 256000, 128000 or 64000. */
  function Divisor(range: byte): int
    requires ValidRange(range)
  {
    if range == RANGE_2G then 256000 else if range == RANGE_4G then 128000 else 64000
  }

  /** The driver's if/elif division chain; any other range code raises. */
  function Scale(count: int, range: byte): (r: Result<real>)
    ensures r.Ok? <==> ValidRange(range)
  {
    if range == RANGE_2G then Ok(count as real / 256000.0)
    else if range == RANGE_4G then Ok(count as real / 128000.0)
    else if range == RANGE_8G then Ok(count as real / 64000.0)
    else Err(InvalidRange)
  }

  /** The division chain case by case. */
  lemma ScaleCases(count: int, range: byte)
    ensures range == RANGE_2G ==> Scale(count, range) == Ok(count as real / 256000.0)
    ensures range == RANGE_4G ==> Scale(count, range) == Ok(count as real / 128000.0)
    ensures range == RANGE_8G ==> Scale(count, range) == Ok(count as real / 64000.0)
    ensures !ValidRange(range) ==> Scale(count, range) == Err(InvalidRange)
  {
  }

  /** A valid range divides the count by its counts per g. */
  lemma ScaleDividesByDivisor(count: int, range: byte)
    requires ValidRange(range)
    ensures Scale(count, range) == Ok(count as real / Divisor(range) as real)
  {
    ScaleCases(count, range);
    if range == RANGE_2G {
      assert Divisor(range) as real == 256000.0;
      assert count as real / Divisor(range) as real == count as real / 256000.0;
    } else if range == RANGE_4G {
      assert Divisor(range) as real == 128000.0;
      assert count as real / Divisor(range) as real == count as real / 128000.0;
    } else {
      assert Divisor(range) as real == 64000.0;
      assert count as real / Divisor(range) as real == count as real / 64000.0;
    }
  }

  /** An axis reading in g from its three bytes; raises exactly on an unknown range code. */
  function DecodeAxis(b0: byte, b1: byte, b2: byte, range: byte): (r: Result<real>)
    ensures r.Ok? <==> ValidRange(range)
  {
    Scale(SignedCount(b0, b1, b2), range)
  }

  /**
   * In a valid range the reading is the signed count over the range's divisor,
   * and it is negative exactly when the top bit of the first byte is set.
   */
  lemma DecodeAxisSpec(b0: byte, b1: byte, b2: byte, range: byte)
    requires ValidRange(range)
    ensures DecodeAxis(b0, b1, b2, range) == Ok(SignedCount(b0, b1, b2) as real / Divisor(range) as real)
    ensures (DecodeAxis(b0, b1, b2, range).value < 0.0) <==> b0 >= 0x80
  {
    ScaleDividesByDivisor(SignedCount(b0, b1, b2), range);
    SignOfQuotient(SignedCount(b0, b1, b2) as real, Divisor(range) as real);
  }

  lemma SignOfQuotient(a: real, d: real)
    requires d > 0.0
    ensures (a / d < 0.0) <==> a < 0.0
  {
    if a < 0.0 {
      assert a / d * d == a;
    }
  }

  /** Round trip: the reading of an encoded count is the count over the range's divisor. */
  lemma DecodeAxisOfEncoded(s: int, nibble: byte, range: byte)
    requires -0x8_0000 <= s < 0x8_0000 && nibble < 0x10 && ValidRange(range)
    ensures var raw := EncodeSample(s, nibble);
      DecodeAxis(raw.0, raw.1, raw.2, range) == Ok(s as real / Divisor(range) as real)
  {
    DecodeEncode(s, nibble);
    var raw := EncodeSample(s, nibble);
    DecodeAxisSpec(raw.0, raw.1, raw.2, range);
  }

  /** All-zero bytes read 0 g in every valid range. */
  lemma ZeroBytesReadZero(range: byte)
    requires ValidRange(range)
    ensures DecodeAxis(0, 0, 0, range) == Ok(0.0)
  {
    DecodeAxisSpec(0, 0, 0, range);
  }

  /** The most negative pattern, 0x80 0x00 0x00, reads -2^19 counts. */
  lemma MostNegativeReading(range: byte)
    requires ValidRange(range)
    ensures DecodeAxis(0x80, 0x00, 0x00, range) == Ok(-0x8_0000 as real / Divisor(range) as real)
  {
    DecodeAxisSpec(0x80, 0x00, 0x00, range);
  }

  /** A reading never exceeds 2^19 counts in magnitude: 2.048 g in the 2 g range. */
  lemma ReadingBound(b0: byte, b1: byte, b2: byte, range: byte)
    requires ValidRange(range)
    ensures var g := DecodeAxis(b0, b1, b2, range).value;
      -(0x8_0000 as real) / Divisor(range) as real <= g < 0x8_0000 as real / Divisor(range) as real
    ensures range == RANGE_2G ==> -2.048 <= DecodeAxis(b0, b1, b2, range).value < 2.048
  {
    var s := SignedCount(b0, b1, b2);
    var d := Divisor(range) as real;
    DecodeAxisSpec(b0, b1, b2, range);
    DivisionMonotone(-0x8_0000 as real, s as real, d);
    DivisionMonotoneStrict(s as real, 0x8_0000 as real, d);
  }

  lemma DivisionMonotone(a: real, b: real, d: real)
    requires a <= b && d > 0.0
    ensures a / d <= b / d
  {
  }

  lemma DivisionMonotoneStrict(a: real, b: real, d: real)
    requires a < b && d > 0.0
    ensures a / d < b / d
  {
  }

  // --- Temperature ---

  /** TEMP2's low nibble above TEMP1: the 12-bit temperature count. */
  function TempCount(high: byte, low: byte): (c: int)
    ensures 0 <= c <= 4095
  {
    ((((high & 0x0F) as bv16) << 8) | (low as bv16)) as int
  }

  /** The count is high nibble * 256 + low, and TEMP2's upper four bits never reach it. */
  lemma TempCountSpec(high: byte, low: byte)
    ensures TempCount(high, low) == (high as int % 0x10) * 0x100 + low as int
    ensures TempCount(high, low) == TempCount(high & 0x0F, low)
  {
  }

  /** The calibration line: 1852 counts at 25 degrees C, -9.05 counts per degree. */
  function Celsius(count: int): (t: real)
    ensures count as real == 1852.0 - 9.05 * (t - 25.0)
  {
    (count as real - 1852.0) / -9.05 + 25.0
  }

  lemma CelsiusAtCalibrationPoint()
    ensures Celsius(1852) == 25.0
  {
  }

  /** A higher count is always a lower temperature. */
  lemma CelsiusStrictlyDecreasing(a: int, b: int)
    requires a < b
    ensures Celsius(a) > Celsius(b)
  {
  }

  // --- Self-test window ---

  predicate InWindow(v: real, lo: real, hi: real) {
    lo <= v <= hi
  }

  /**
   * The self-test acceptance check AS THE DRIVER WRITES IT: the Y upper bound is
   * compared against the X reading, so it is never decisive and the verdict is the
   * X window, the Y lower bound and the Z window.
   */
  predicate SelfTestVerdict(x: real, y: real, z: real)
    ensures SelfTestVerdict(x, y, z) <==>
      InWindow(x, SELF_TEST_X_MIN, SELF_TEST_X_MAX) && y >= SELF_TEST_Y_MIN
      && InWindow(z, SELF_TEST_Z_MIN, SELF_TEST_Z_MAX)
  {
    && !(x < SELF_TEST_X_MIN || x > SELF_TEST_X_MAX)
    && !(y < SELF_TEST_Y_MIN || x > SELF_TEST_Y_MAX)
    && !(z < SELF_TEST_Z_MIN || z > SELF_TEST_Z_MAX)
  }

  /** The check the window constants describe: each axis within its own window. */
  predicate SelfTestVerdictIntended(x: real, y: real, z: real) {
    && InWindow(x, SELF_TEST_X_MIN, SELF_TEST_X_MAX)
    && InWindow(y, SELF_TEST_Y_MIN, SELF_TEST_Y_MAX)
    && InWindow(z, SELF_TEST_Z_MIN, SELF_TEST_Z_MAX)
  }

  /** A Y reading far above its window passes the check as written. */
  lemma YAboveWindowPasses()
    ensures SelfTestVerdict(-0.035, 5.0, -1.0)
    ensures !SelfTestVerdictIntended(-0.035, 5.0, -1.0)
  {
  }

  /** The intended check is stricter, and differs exactly on a Y reading above its window. */
  lemma SelfTestVerdictIntendedSpec(x: real, y: real, z: real)
    ensures SelfTestVerdictIntended(x, y, z) ==> SelfTestVerdict(x, y, z)
    ensures SelfTestVerdict(x, y, z) && !SelfTestVerdictIntended(x, y, z) <==>
      SelfTestVerdict(x, y, z) && y > SELF_TEST_Y_MAX
  {
  }

  /** Readings exactly on the window bounds pass; inclusive on both ends. */
  lemma SelfTestBoundsInclusive()
    ensures SelfTestVerdict(SELF_TEST_X_MIN, SELF_TEST_Y_MIN, SELF_TEST_Z_MIN)
    ensures SelfTestVerdict(SELF_TEST_X_MAX, SELF_TEST_Y_MAX, SELF_TEST_Z_MAX)
  {
  }
}
