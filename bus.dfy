/** An abstract SPI bus: it records every frame sent and answers from a device oracle. */
module Bus {
  import opened Registers

  class SpiBus {
    /** Every frame transferred so far, oldest first. */
    var sent: seq<seq<byte>>
    /** The byte the device shifts out at position i of the k-th transfer, which carried `frame`. */
    const miso: (nat, seq<byte>, nat) -> byte

    constructor (miso: (nat, seq<byte>, nat) -> byte)
      ensures sent == [] && this.miso == miso
    {
      sent := [];
      this.miso := miso;
    }

    /** The bytes received during the k-th transfer: one for every byte sent (full duplex). */
    function Reply(k: nat, frame: seq<byte>): (rx: seq<byte>)
      ensures |rx| == |frame|
      ensures forall i :: 0 <= i < |rx| ==> rx[i] == miso(k, frame, i)
    {
      seq(|frame|, i requires 0 <= i < |frame| => miso(k, frame, i))
    }

    /** One full-duplex transfer, as spidev's xfer2. */
    method Xfer2(frame: seq<byte>) returns (rx: seq<byte>)
      modifies this
      ensures sent == old(sent) + [frame]
      ensures rx == Reply(|old(sent)|, frame)
    {
      rx := Reply(|sent|, frame);
      sent := sent + [frame];
    }
  }
}
