/** The register map and protocol constants of the ADXL355 driver class. */
module Registers {

  /** One byte on the SPI bus. */
  type byte = bv8

  /** A 7-bit register address: the header byte of a frame carries it shifted left by one. */
  type RegAddr = r: byte | r < 0x80

  // Metainfo
  const DEVID: RegAddr := 0x00

  // Data registers: each axis is three consecutive registers, most significant first
  const XDATA3: RegAddr := 0x08
  const XDATA2: RegAddr := 0x09
  const XDATA1: RegAddr := 0x0A
  const YDATA3: RegAddr := 0x0B
  const YDATA2: RegAddr := 0x0C
  const YDATA1: RegAddr := 0x0D
  const ZDATA3: RegAddr := 0x0E
  const ZDATA2: RegAddr := 0x0F
  const ZDATA1: RegAddr := 0x10
  const TEMP2: RegAddr := 0x06
  const TEMP1: RegAddr := 0x07

  // Control registers
  const RANGE: RegAddr := 0x2C
  const POWER_CTL: RegAddr := 0x2D
  const SELF_TEST: RegAddr := 0x2E

  // Measurement range codes, as written to RANGE
  const RANGE_2G: byte := 0x01
  const RANGE_4G: byte := 0x02
  const RANGE_8G: byte := 0x03

  // Header bits and register values
  const READ_BIT: byte := 0x01
  const WRITE_BIT: byte := 0x00
  /** POWER_CTL value that enables the accelerometer only. */
  const MEASURE_MODE: byte := 0x06
  /** SELF_TEST values that switch the self-test force on and off. */
  const SELF_TEST_ENABLE: byte := 0x03
  const SELF_TEST_DISABLE: byte := 0x00

  // Self-test acceptance windows, in g
  const SELF_TEST_X_MIN: real := -0.04
  const SELF_TEST_X_MAX: real := -0.03
  const SELF_TEST_Y_MIN: real := 0.19
  const SELF_TEST_Y_MAX: real := 0.20
  const SELF_TEST_Z_MIN: real := -1.02
  const SELF_TEST_Z_MAX: real := -0.99

  /** The one exception the driver raises itself: a range code it has no divisor for. */
  datatype DriverError = InvalidRange

  datatype Result<+T> = Ok(value: T) | Err(error: DriverError)
}
