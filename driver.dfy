/**
 * The ADXL355 driver object: the bus handle and the configured range, the
 * register write and read protocol, axis and temperature reads, the self-test
 * and the initialisation sequence.
 */
module Driver {
  import opened Registers
  import opened Framing
  import opened Decoding
  import opened Bus

  /** The reading of the axis whose top register is `register`, from the k-th transfer on `bus`. */
  function AxisReading(bus: SpiBus, k: nat, register: RegAddr, range: byte): (r: Result<real>)
    ensures r.Ok? <==> ValidRange(range)
  {
    var rx := bus.Reply(k, ReadFrame(register, 3));
    DecodeAxis(rx[1], rx[2], rx[3], range)
  }

  /** The axis reading of a burst, as the driver's stages over the bytes after the header. */
  lemma AxisReadingOfBurst(bus: SpiBus, k: nat, register: RegAddr, range: byte, raw: seq<byte>)
    requires raw == bus.Reply(k, ReadFrame(register, 3))[1..]
    ensures |raw| == 3
    ensures AxisReading(bus, k, register, range) == Scale(TwoComp(Reassemble(raw[0], raw[1], raw[2])), range)
  {
    var rx := bus.Reply(k, ReadFrame(register, 3));
    assert raw[0] == rx[1] && raw[1] == rx[2] && raw[2] == rx[3];
  }

  /** The single byte received in a one-register read that was the k-th transfer on `bus`. */
  function ByteReading(bus: SpiBus, k: nat, register: RegAddr): byte {
    bus.Reply(k, ReadFrame(register, 1))[1]
  }

  /** The frames of a completed self-test: enable, read X, Y and Z, disable. */
  function SelfTestFrames(): seq<seq<byte>> {
    [WriteFrame(SELF_TEST, SELF_TEST_ENABLE), ReadFrame(XDATA3, 3), ReadFrame(YDATA3, 3),
     ReadFrame(ZDATA3, 3), WriteFrame(SELF_TEST, SELF_TEST_DISABLE)]
  }

  /** The verdict of a self-test whose enable write was the k-th transfer on `bus`. */
  predicate SelfTestOutcome(bus: SpiBus, k: nat, range: byte)
    requires ValidRange(range)
  {
    SelfTestVerdict(AxisReading(bus, k + 1, XDATA3, range).value,
                    AxisReading(bus, k + 2, YDATA3, range).value,
                    AxisReading(bus, k + 3, ZDATA3, range).value)
  }

  class Adxl355 {
    /** The bus handle; null once the self-test has failed. */
    var spi: SpiBus?
    /** The range code the decoder divides by. */
    var range: byte

    /** Attaches an already opened bus. */
    constructor (bus: SpiBus)
      ensures spi == bus
    {
      spi := bus;
    }

    /**
     * Initialisation: set the range, enable measurement, remember the range and
     * run the self-test; a failed self-test drops the bus handle. An unknown range
     * code raises from the first axis decode, before the self-test is switched off.
     */
    static method Init(bus: SpiBus, measureRange: byte := RANGE_2G) returns (r: Result<Adxl355>)
      modifies bus
      ensures var prefix := old(bus.sent) + [WriteFrame(RANGE, measureRange), WriteFrame(POWER_CTL, MEASURE_MODE)];
        if ValidRange(measureRange) then
          && r.Ok? && fresh(r.value) && r.value.range == measureRange
          && bus.sent == prefix + SelfTestFrames()
          && (r.value.spi == null <==> !SelfTestOutcome(bus, |old(bus.sent)| + 2, measureRange))
          && (r.value.spi != null ==> r.value.spi == bus)
        else
          && r == Err(InvalidRange)
          && bus.sent == prefix + [WriteFrame(SELF_TEST, SELF_TEST_ENABLE), ReadFrame(XDATA3, 3)]
    {
      var dev := new Adxl355(bus);
      dev.SetMeasureRange(measureRange);
      dev.EnableMeasureMode();
      dev.range := measureRange;
      var ok := dev.SelfTest();
      if ok.Err? {
        return Err(ok.error);
      }
      if !ok.value {
        dev.spi := null;
      }
      r := Ok(dev);
    }

    /**
     * Enables the self-test force, reads the three axes and checks them against
     * their windows (the Y upper bound against X, as the driver does), then
     * disables the force.
     */
    method SelfTest() returns (r: Result<bool>)
      requires spi != null
      modifies spi
      ensures var n := |old(spi.sent)|;
        if ValidRange(range) then
          && spi.sent == old(spi.sent) + SelfTestFrames()
          && r == Ok(SelfTestOutcome(spi, n, range))
        else
          && spi.sent == old(spi.sent) + [WriteFrame(SELF_TEST, SELF_TEST_ENABLE), ReadFrame(XDATA3, 3)]
          && r == Err(InvalidRange)
    {
      ghost var n := |spi.sent|;
      WriteData(SELF_TEST, 0x03);
      var x := GetAccX();
      if x.Err? {
        return Err(x.error);
      }
      // The range has not changed, so the Y and Z decodes cannot raise either.
      var y := GetAccY();
      var z := GetAccZ();
      assert x == AxisReading(spi, n + 1, XDATA3, range);
      assert y == AxisReading(spi, n + 2, YDATA3, range);
      assert z == AxisReading(spi, n + 3, ZDATA3, range);

      var ok := true;
      if x.value < SELF_TEST_X_MIN || x.value > SELF_TEST_X_MAX {
        ok := false;
      }
      if y.value < SELF_TEST_Y_MIN || x.value > SELF_TEST_Y_MAX {
        ok := false;
      }
      if z.value < SELF_TEST_Z_MIN || z.value > SELF_TEST_Z_MAX {
        ok := false;
      }

      assert ok == SelfTestVerdict(x.value, y.value, z.value);
      SelfTestOff();
      r := Ok(ok);
    }

    method SelfTestOn()
      requires spi != null
      modifies spi
      ensures spi.sent == old(spi.sent) + [WriteFrame(SELF_TEST, SELF_TEST_ENABLE)]
    {
      WriteData(SELF_TEST, 0x03);
    }

    method SelfTestOff()
      requires spi != null
      modifies spi
      ensures spi.sent == old(spi.sent) + [WriteFrame(SELF_TEST, SELF_TEST_DISABLE)]
    {
      WriteData(SELF_TEST, 0x00);
    }

    /** One write: exactly one two-byte frame, header then value. */
    method WriteData(address: RegAddr, value: byte)
      requires spi != null
      modifies spi
      ensures spi.sent == old(spi.sent) + [WriteFrame(address, value)]
    {
      var deviceAddress := (address << 1) | WRITE_BIT;
      var rx := spi.Xfer2([deviceAddress, value]);
    }

    /**
     * One read: a single frame of the read header and `length` zero bytes; the
     * result is the byte after the header when `length` is 1, all bytes after it otherwise.
     */
    method Read(register: RegAddr, length: nat := 1) returns (r: ReadValue)
      requires spi != null
      modifies spi
      ensures spi.sent == old(spi.sent) + [ReadFrame(register, length)]
      ensures var rx := spi.Reply(|old(spi.sent)|, ReadFrame(register, length));
        if length == 1 then r == Single(rx[1]) else r == Burst(rx[1..])
    {
      var address := (register << 1) | 0x01;
      if length == 1 {
        var result := spi.Xfer2([address, 0x00]);
        assert [address, 0x00] == ReadFrame(register, length);
        r := Single(result[1]);
      } else {
        var result := spi.Xfer2([address] + seq(length, _ => 0x00));
        r := Burst(result[1..]);
      }
    }

    method SetMeasureRange(measureRange: byte)
      requires spi != null
      modifies spi
      ensures spi.sent == old(spi.sent) + [WriteFrame(RANGE, measureRange)]
    {
      WriteData(RANGE, measureRange);
    }

    method EnableMeasureMode()
      requires spi != null
      modifies spi
      ensures spi.sent == old(spi.sent) + [WriteFrame(POWER_CTL, MEASURE_MODE)]
    {
      WriteData(POWER_CTL, MEASURE_MODE);
    }

    method GetDevid() returns (id: byte)
      requires spi != null
      modifies spi
      ensures spi.sent == old(spi.sent) + [ReadFrame(DEVID, 1)]
      ensures id == ByteReading(spi, |old(spi.sent)|, DEVID)
    {
      var r := Read(DEVID);
      id := r.value;
    }

    /** Reads TEMP2 then TEMP1 and converts the 12-bit count to degrees C. */
    method GetTemp() returns (t: real)
      requires spi != null
      modifies spi
      ensures spi.sent == old(spi.sent) + [ReadFrame(TEMP2, 1), ReadFrame(TEMP1, 1)]
      ensures var n := |old(spi.sent)|;
        t == Celsius(TempCount(ByteReading(spi, n, TEMP2), ByteReading(spi, n + 1, TEMP1)))
    {
      var h := Read(TEMP2);
      var l := Read(TEMP1);
      var high := ((h.value & 0x0F) as bv16) << 8;
      var raw := (high | (l.value as bv16)) as int;
      t := ((raw as real - 1852.0) / -9.05) + 25.0;
    }

    method GetAccX() returns (g: Result<real>)
      requires spi != null
      modifies spi
      ensures spi.sent == old(spi.sent) + [ReadFrame(XDATA3, 3)]
      ensures g == AxisReading(spi, |old(spi.sent)|, XDATA3, range)
    {
      g := GetAxe(XDATA3);
    }

    method GetAccY() returns (g: Result<real>)
      requires spi != null
      modifies spi
      ensures spi.sent == old(spi.sent) + [ReadFrame(YDATA3, 3)]
      ensures g == AxisReading(spi, |old(spi.sent)|, YDATA3, range)
    {
      g := GetAxe(YDATA3);
    }

    method GetAccZ() returns (g: Result<real>)
      requires spi != null
      modifies spi
      ensures spi.sent == old(spi.sent) + [ReadFrame(ZDATA3, 3)]
      ensures g == AxisReading(spi, |old(spi.sent)|, ZDATA3, range)
    {
      g := GetAxe(ZDATA3);
    }

    /**
     * A three-register burst read from `request`, packed, sign-extended and
     * divided by the range's counts per g; an unknown range raises after the read.
     */
    method GetAxe(request: RegAddr) returns (g: Result<real>)
      requires spi != null
      modifies spi
      ensures spi.sent == old(spi.sent) + [ReadFrame(request, 3)]
      ensures g == AxisReading(spi, |old(spi.sent)|, request, range)
    {
      var r := Read(request, 3);
      var raw := r.values;
      AxisReadingOfBurst(spi, |old(spi.sent)|, request, range, raw);

      var result := Reassemble(raw[0], raw[1], raw[2]);
      result := TwoComp(result);

      ScaleCases(result, range);
      if range == RANGE_2G {
        g := Ok(result as real / 256000.0);
      } else if range == RANGE_4G {
        g := Ok(result as real / 128000.0);
      } else if range == RANGE_8G {
        g := Ok(result as real / 64000.0);
      } else {
        g := Err(InvalidRange);
      }
    }
  }
}
