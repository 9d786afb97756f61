/** The frames the driver puts on the SPI bus for register writes and reads. */
module Framing {
  import opened Registers

  /** First byte of a write frame: the address shifted left, with the write bit. */
  function WriteHeader(address: RegAddr): (h: byte)
    ensures h as int == 2 * address as int && h & 1 == 0
  {
    (address << 1) | WRITE_BIT
  }

  /** First byte of a read frame: the register shifted left, with the low bit set. */
  function ReadHeader(register: RegAddr): (h: byte)
    ensures h as int == 2 * register as int + 1 && h & 1 == 1
  {
    (register << 1) | 0x01
  }

  /** What the device makes of a header byte: the register and whether it is a read. */
  datatype Header = Header(register: RegAddr, isRead: bool)

  function ParseHeader(h: byte): (hd: Header)
    ensures hd.register as int == h as int / 2
  {
    Header(h >> 1, h & 1 == 1)
  }

  /** Both header encodings are undone by the device's reading of the header. */
  lemma HeaderRoundTrip(r: RegAddr)
    ensures ParseHeader(WriteHeader(r)) == Header(r, false)
    ensures ParseHeader(ReadHeader(r)) == Header(r, true)
  {
  }

  /** A register write is one two-byte frame: header, then the value. */
  function WriteFrame(address: RegAddr, value: byte): (f: seq<byte>)
    ensures |f| == 2 && ParseHeader(f[0]) == Header(address, false) && f[1] == value
  {
    HeaderRoundTrip(address);
    [WriteHeader(address), value]
  }

  /** A read of `length` registers is the read header followed by `length` zero filler bytes. */
  function ReadFrame(register: RegAddr, length: nat): (f: seq<byte>)
    ensures |f| == length + 1
    ensures ParseHeader(f[0]) == Header(register, true)
    ensures forall i :: 1 <= i < |f| ==> f[i] == 0x00
  {
    HeaderRoundTrip(register);
    [ReadHeader(register)] + seq(length, _ => 0x00)
  }

  /** What `read` returns: one byte when one register was asked for, the received bytes otherwise. */
  datatype ReadValue = Single(value: byte) | Burst(values: seq<byte>)
}
