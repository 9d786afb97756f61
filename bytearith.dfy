/** Facts linking bytes as bit-vectors with their integer values. */
module ByteArith {
  import opened Registers

  lemma ByteOfInt(k: int)
    requires 0 <= k < 0x100
    ensures (k as byte) as int == k
  {
  }

  lemma ByteOfIntBack(b: byte)
    ensures (b as int) as byte == b
  {
  }

  lemma ShiftRightIsDiv(b: byte)
    ensures (b >> 4) as int == b as int / 0x10
  {
  }

  /** A byte built from two nibbles is their weighted sum. */
  lemma NibblePair(hi: byte, lo: byte)
    requires hi < 0x10 && lo < 0x10
    ensures ((hi << 4) | lo) as int == hi as int * 0x10 + lo as int
  {
  }

  lemma NibbleSplit(b: byte)
    ensures ((b >> 4) << 4) | (b & 0x0F) == b
  {
  }

  /** A 20-bit count is its three base-4096/256/16 digits. */
  lemma WeightedDigits(u: int)
    requires 0 <= u < 0x10_0000
    ensures (u / 0x1000) * 0x1000 + ((u / 0x10) % 0x100) * 0x10 + u % 0x10 == u
  {
  }

  lemma DigitsOfWeighted(u: int, d0: int, d1: int, d2: int)
    requires 0 <= d0 < 0x100 && 0 <= d1 < 0x100 && 0 <= d2 < 0x10
    requires u == d0 * 0x1000 + d1 * 0x10 + d2
    ensures u / 0x1000 == d0 && (u / 0x10) % 0x100 == d1 && u % 0x10 == d2
  {
    var w := d1 * 0x10 + d2;
    assert u == d0 * 0x1000 + w && 0 <= w < 0x1000;
    assert u / 0x10 == d0 * 0x100 + d1;
  }
}
