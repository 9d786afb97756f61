# ADXL355 accelerometer driver, modelled in Dafny

This project models the `ADXL355` class of `lib/adxl355.py`. That class drives an Analog Devices
ADXL355 three-axis accelerometer over SPI. The project models and proves:

- **Register constants** (`registers.dfy`): register addresses, the three range codes, the
  measure-mode and self-test values, and the self-test acceptance windows. Bytes are `bv8`. A
  register address is a byte below `0x80`, because it is shifted left by one into the frame header.
- **Framing** (`framing.dfy`): the first byte of a write frame is `address << 1 | 0` and the first
  byte of a read frame is `register << 1 | 1`. A read frame is that byte followed by `length` zero
  bytes. Parsing a header gives back the register and the read/write bit.
- **The bus** (`bus.dfy`): an abstract SPI device `SpiBus`. It keeps the sequence of frames sent
  so far and uses a fixed response oracle `miso`. The oracle gives the byte received at each
  position of the k-th transfer. `xfer2` appends the frame and returns the oracle's bytes.
- **Decoding** (`decoding.dfy`): the 20-bit reassembly of the three axis data bytes, the 20-bit
  two's-complement sign extension, the range-dependent division (an unknown range code is an
  error), the 12-bit temperature count and its linear conversion to degrees Celsius, and the
  self-test acceptance predicate (written the way the driver writes it, and also in its intended form).
- **The driver** (`driver.dfy`): class `Adxl355`.
  - Its fields are the nullable bus handle `spi` and the range code `range`.
  - Its methods are initialisation, the self-test, the register write and read, and the
    DEVID, temperature and X/Y/Z reads.
  - Each method's contract gives the exact frames it appends to the bus trace and the value it
    returns, as a function of the oracle.

The helper module `bytearith.dfy` holds small facts relating `bv8` to integers.

Python's `raise Exception('Invalid Range')` becomes the `Err(InvalidRange)` result. A reading in
g is an exact `real`.

Two behaviours of the code worth knowing:

- **Invalid range code.** The exception comes from the first axis decode. That is after the
  SELF_TEST enable write and the X burst read, so the self-test is never switched off (the disable
  write is not reached). `Adxl355.SelfTest` and `Adxl355.Init` state exactly that trace.
- **The pattern `0x80 0x00 0x00`.** It sign-extends to `-0x80000` counts, which is -2.048 g in
  the 2 g range. `Decoding.MostNegativeReading` states this.

## Model

| member | source | states |
|---|---|---|
| Decoding.Reassemble | lib/adxl355.py:158-166 | three bytes pack into an unsigned count in [0, 2^20) |
| Decoding.ReassembleIsWeightedSum | lib/adxl355.py:160-166 | the OR of the three shifted fields equals b0*4096 + b1*16 + b2 div 16 (the fields do not overlap) |
| Decoding.LowNibbleIgnored | lib/adxl355.py:164 | the low four bits of the third byte never affect the count |
| Decoding.Bit19IsMask | lib/adxl355.py:148 | the bit-19 test on integers agrees with the `0x80000 &` mask on every 32-bit value |
| Decoding.TwoComp | lib/adxl355.py:147-151 | sign extension either keeps the value or subtracts 2^20, so the 20-bit pattern is unchanged (the result is congruent to the input mod 2^20) |
| Decoding.TwoCompSpec | lib/adxl355.py:147-151 | sign extension keeps the value when bit 19 is clear and subtracts 2^20 when it is set; the result lies in [-2^19, 2^19), is negative iff bit 19 is set, and is congruent to the input mod 2^20 |
| Decoding.SignedCount | lib/adxl355.py:158-168 | the signed count of three bytes lies in [-2^19, 2^19) and is negative iff the first byte's top bit is set |
| Decoding.DecodeEncode | lib/adxl355.py:160-168 | every signed count in [-2^19, 2^19), encoded into three bytes with any low nibble, decodes back to itself |
| Decoding.EncodeDecode | lib/adxl355.py:160-168 | re-encoding the decoded count of any three bytes, with their low nibble, gives back the same three bytes |
| Decoding.Scale | lib/adxl355.py:171-178 | the division chain succeeds exactly on the three known range codes |
| Decoding.ScaleDividesByDivisor | lib/adxl355.py:171-176 | a valid range divides the count by that range's counts per g |
| Decoding.DecodeAxis | lib/adxl355.py:158-180 | the axis decode is an error exactly when the range code is unknown |
| Decoding.DecodeAxisSpec | lib/adxl355.py:158-180 | in a valid range the reading is the signed count over counts per g, and it is negative iff the first byte's top bit is set |
| Decoding.DecodeAxisOfEncoded | lib/adxl355.py:158-180 | the reading of an encoded count is that count over the range's counts per g |
| Decoding.ZeroBytesReadZero | lib/adxl355.py:158-180 | bytes 0, 0, 0 read 0 g in every valid range |
| Decoding.MostNegativeReading | lib/adxl355.py:147-180 | bytes 0x80, 0, 0 read -2^19 counts over the range's counts per g |
| Decoding.ReadingBound | lib/adxl355.py:158-180 | every reading lies in [-2^19/d, 2^19/d), where d is the range's counts per g; in the 2 g range that is [-2.048, 2.048) |
| Decoding.Celsius | lib/adxl355.py:134 | the conversion is the inverse of the calibration line: count = 1852 - 9.05 * (t - 25) |
| Decoding.TempCount | lib/adxl355.py:130-132 | the temperature count lies in [0, 4095] |
| Decoding.TempCountSpec | lib/adxl355.py:130-132 | the count is (TEMP2 mod 16) * 256 + TEMP1, and the upper four bits of TEMP2 never affect it |
| Decoding.CelsiusAtCalibrationPoint | lib/adxl355.py:134 | count 1852 is exactly 25 degrees C |
| Decoding.CelsiusStrictlyDecreasing | lib/adxl355.py:134 | a higher count is always a strictly lower temperature |
| Decoding.SelfTestVerdict | lib/adxl355.py:78-89 | the verdict as written holds iff X is in its window, Y is at least Y_MIN and Z is in its window; the Y upper bound is never decisive |
| Decoding.YAboveWindowPasses | lib/adxl355.py:83 | readings (-0.035, 5.0, -1.0) pass the check as written but fail the intended check |
| Decoding.SelfTestVerdictIntendedSpec | lib/adxl355.py:78-89 | the intended check implies the check as written, and they differ exactly when the check as written passes with Y above Y_MAX |
| Decoding.SelfTestBoundsInclusive | lib/adxl355.py:40-47 | the all-lower-bound and all-upper-bound readings pass (the windows are closed) |
| Framing.WriteHeader | lib/adxl355.py:102 | a write header is twice the address, with the low (read) bit clear |
| Framing.ReadHeader | lib/adxl355.py:106 | a read header is twice the register plus one, with the low (read) bit set |
| Framing.ParseHeader | lib/adxl355.py:102 | the parsed register is the header byte divided by two |
| Framing.HeaderRoundTrip | lib/adxl355.py:102-106 | read and write headers parse back to their register and direction |
| Framing.WriteFrame | lib/adxl355.py:101-103 | a write frame is two bytes: a write header for the address, then the value |
| Framing.ReadFrame | lib/adxl355.py:105-111 | a read frame is length+1 bytes: a read header for the register, then zero bytes |
| Bus.SpiBus.Reply | lib/adxl355.py:103 | the reply to a frame has the frame's length, and each byte is the oracle's byte for that transfer and position |
| Bus.SpiBus.Xfer2 | lib/adxl355.py:103 | a transfer appends exactly its frame to the trace and returns the oracle's reply |
| Driver.AxisReading | lib/adxl355.py:156-180 | an axis reading from the bus is an error exactly when the range code is unknown |
| Driver.Adxl355.constructor | lib/adxl355.py:49-54 | the new driver holds the given, already opened, bus |
| Driver.Adxl355.Init | lib/adxl355.py:49-66 | the range defaults to RANGE_2G; in a valid range: the RANGE write, the POWER_CTL write and the five self-test frames, in that order; the range is stored, and the handle is null iff the self-test verdict on the replies is false. In an unknown range: the error after the enable write and the X read |
| Driver.Adxl355.SelfTest | lib/adxl355.py:68-93 | in a valid range: enable, X, Y and Z reads, then disable, and the result is the as-written verdict on the three readings; in an unknown range: the error after the enable write and the X read |
| Driver.Adxl355.SelfTestOn | lib/adxl355.py:95-96 | one write of 0b11 to SELF_TEST |
| Driver.Adxl355.SelfTestOff | lib/adxl355.py:98-99 | one write of 0b00 to SELF_TEST |
| Driver.Adxl355.WriteData | lib/adxl355.py:101-103 | exactly one write frame is appended to the trace |
| Driver.Adxl355.Read | lib/adxl355.py:105-112 | exactly one read frame of length+1 bytes is sent; the result is the byte after the header when length is 1, and every byte after it otherwise |
| Driver.Adxl355.SetMeasureRange | lib/adxl355.py:115-116 | one write of the range code to RANGE |
| Driver.Adxl355.EnableMeasureMode | lib/adxl355.py:118-119 | one write of 0x06 to POWER_CTL |
| Driver.Adxl355.GetDevid | lib/adxl355.py:121-122 | one single-byte read of DEVID, and the result is the reply byte |
| Driver.Adxl355.GetTemp | lib/adxl355.py:124-136 | a TEMP2 read then a TEMP1 read, and the result is the Celsius value of their 12-bit count |
| Driver.Adxl355.GetAccX | lib/adxl355.py:138-139 | one burst read at XDATA3, decoded in the stored range |
| Driver.Adxl355.GetAccY | lib/adxl355.py:141-142 | one burst read at YDATA3, decoded in the stored range |
| Driver.Adxl355.GetAccZ | lib/adxl355.py:144-145 | one burst read at ZDATA3, decoded in the stored range |
| Driver.Adxl355.GetAxe | lib/adxl355.py:156-180 | one three-byte burst read at the given register; the result is the axis decode of the three reply bytes in the stored range, or the error for an unknown range |

## Left out

- Opening the SPI device and setting its clock speed and mode (lib/adxl355.py:51-54) are calls into
  the `spidev` library. The constructor takes an already opened `SpiBus` instead. The
  `SPI_MAX_CLOCK_HZ` and `SPI_MODE` constants are therefore not modelled.
- Transport failures of `xfer2` are not modelled. `spidev` is not part of this model, and the bus
  always answers through its oracle.
- `print` output (lib/adxl355.py:65, 74-89) and `print_bin` (lib/adxl355.py:153-154) are console
  I/O and are left out.
- `current_values_loop.py` is not part of this model. It is a polling loop with sleeps and prints.
- IEEE double rounding in the divisions, the temperature formula and the window comparisons is not
  modelled. Readings are exact reals.
- The `DUMMY_BYTE` constant (lib/adxl355.py:36) is never used by the code, which pads reads with
  0x00. It is not modelled.
- A read after a failed self-test would dereference `None`. The model only requires `spi != null`
  for every bus operation and adds no error for it.
- The model takes the range as a byte; what the bus library does with a larger value is not
  modelled.
- The device has no FIFO reader in this code, and none is modelled.
- Driver.Adxl355.constructor: does not set `range`. The code assigns `self.range` only after the
  two configuration writes, and `Init` stores it at the same point.

## Findings

| source | as written | input that shows it | evidently intended | confidence | as-written member | corrected member |
|---|---|---|---|---|---|---|
| lib/adxl355.py:83 | `if y < SELF_TEST_Y_MIN or x > SELF_TEST_Y_MAX` compares the X reading against the Y upper bound. | readings x = -0.035, y = 5.0, z = -1.0 pass the self-test, though y is far above 0.20 | `y > SELF_TEST_Y_MAX` | not executed | Decoding.YAboveWindowPasses | Decoding.SelfTestVerdictIntendedSpec |

The driver class keeps the check as written (`Decoding.SelfTestVerdict`, used by
`Driver.Adxl355.SelfTest`), because it models the code. `Decoding.SelfTestVerdictIntended` is the
corrected check. `Decoding.SelfTestVerdictIntendedSpec` proves two things: the corrected check is
stricter, and the two checks disagree only on a Y reading above its window.
