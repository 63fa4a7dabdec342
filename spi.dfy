/** A stand-in for the Linux spidev device the driver talks to. Opening and
    configuring the device are not modelled; the driver relies on one
    operation, a full-duplex transfer of a three-byte buffer. */
module Spi {
  import opened Prelude

  /** An `std::io::Error` raised by the device file, reduced to its display text. */
  datatype IoError = IoError(message: string)

  /** Three bytes: the size of both buffers of every exchange the driver makes. */
  type Frame = s: seq<bv8> | |s| == 3 witness [0, 0, 0]

  /** What the device does with one transfer: clock back three bytes, or fail. */
  datatype Answer = Received(rx: Frame) | Failed(err: IoError)

  class Spidev {
    /** Every buffer written to the bus so far, oldest first. Only the model
        keeps this record; it stands for the traffic on the wire. */
    ghost var sent: seq<seq<bv8>>

    /** A device that has been opened and configured and has seen no traffic yet. */
    constructor ()
      ensures sent == []
    {
      sent := [];
    }

    /** One full-duplex transfer: `tx` is clocked out while `rx` is filled with
        what the device clocks back. The device is outside the driver, so what
        it answers is given as `answer`. */
    method Transfer(tx: array<bv8>, rx: array<bv8>, answer: Answer) returns (err: Option<IoError>)
      requires tx.Length == 3 && rx.Length == 3 && tx != rx
      modifies this, rx
      ensures sent == old(sent) + [tx[..]]
      ensures answer.Received? ==> err == None && rx[..] == answer.rx
      ensures answer.Failed? ==> err == Some(answer.err) && rx[..] == old(rx[..])
    {
      sent := sent + [tx[..]];
      match answer
      case Received(bytes) =>
        rx[0], rx[1], rx[2] := bytes[0], bytes[1], bytes[2];
        err := None;
      case Failed(e) =>
        err := Some(e);
    }
  }
}
