/** The MCP3208/MCP3008 driver: the error type with its display text and its
    cause, and `Mcp3208::read_adc`, which builds a three-byte command, has it
    exchanged with the converter over SPI and decodes the 10-bit result from
    the three bytes received. */
module Driver {
  import opened Prelude
  import opened Spi
  import Wire
  import Decimal

  datatype Mcp3208Error =
    | SpidevError(err: IoError)
    | AdcOutOfRangeError(adcNumber: bv8)
    | UnsupportedOSError

  const OutOfRangePrefix := "invalid adc number ("

  /** The display text of an error. A spidev error shows its I/O error's text;
      an out-of-range channel shows the rejected number in decimal between
      parentheses, so the number can be read back from the text. */
  function Fmt(e: Mcp3208Error): (s: string)
    ensures e.SpidevError? ==> s == e.err.message
    ensures e.AdcOutOfRangeError? ==>
      var n := |OutOfRangePrefix|;
      |s| >= n + 2 && s[..n] == OutOfRangePrefix && s[|s| - 1] == ')' &&
      Decimal.IsCanonical(s[n..|s| - 1]) &&
      Decimal.Parse(s[n..|s| - 1]) == e.adcNumber as nat
    ensures e.UnsupportedOSError? ==> s == "unsupported os"
  {
    match e
    case SpidevError(err) => err.message
    case AdcOutOfRangeError(adcNumber) =>
      var digits := Decimal.Format(adcNumber as nat);
      Decimal.ParseFormat(adcNumber as nat);
      assert (OutOfRangePrefix + digits + ")")[|OutOfRangePrefix|..|OutOfRangePrefix| + |digits|] == digits;
      OutOfRangePrefix + digits + ")"
    case UnsupportedOSError => "unsupported os"
  }

  /** Two out-of-range errors display alike only when they carry the same number. */
  lemma FmtDistinguishesChannels(m: bv8, n: bv8)
    ensures Fmt(AdcOutOfRangeError(m)) == Fmt(AdcOutOfRangeError(n)) <==> m == n
  {
    var s, t := Fmt(AdcOutOfRangeError(m)), Fmt(AdcOutOfRangeError(n));
    var k := |OutOfRangePrefix|;
    if s == t {
      assert s[k..|s| - 1] == t[k..|t| - 1];
      assert m as nat == n as nat;
      NatOfByteInjective(m, n);
    }
  }

  lemma NatOfByteInjective(m: bv8, n: bv8)
    requires m as nat == n as nat
    ensures m == n
  {
  }

  /** The underlying error: only a spidev error has one, its I/O error. */
  function Cause(e: Mcp3208Error): (c: Option<IoError>)
    ensures c.Some? <==> e.SpidevError?
    ensures c.Some? ==> c.value == e.err
  {
    match e
    case SpidevError(err) => Some(err)
    case AdcOutOfRangeError(_) => None
    case UnsupportedOSError => None
  }

  /** The command byte that starts a single-ended conversion of channel
      `adcNumber`: start bit, single-ended bit, the channel in bits 5..3, and
      three zero bits that give the converter its sampling clock and null bit. */
  function Command(adcNumber: bv8): (c: bv8)
    requires adcNumber <= 7
    ensures c & 0xC0 == 0xC0
    ensures (c >> 3) & 0x07 == adcNumber
    ensures c & 0x07 == 0
  {
    (3 << 6) | ((adcNumber & 0x07) << 3)
  }

  /** Distinct channels are selected by distinct commands. */
  lemma CommandInjective(a: bv8, b: bv8)
    requires a <= 7 && b <= 7
    ensures Command(a) == Command(b) <==> a == b
  {
  }

  /** The buffer clocked out to read channel `adcNumber`. */
  function TxFrame(adcNumber: bv8): Frame
    requires adcNumber <= 7
  {
    [Command(adcNumber), 0x0, 0x0]
  }

  /** Reading channel 0 sends 0xC0 0x00 0x00. */
  lemma TxFrameChannelZero()
    ensures TxFrame(0) == [0xC0, 0x00, 0x00]
  {
  }

  /** The clocks of a buffer `[c, 0, 0]`: the bits of `c`, most significant
      first, then sixteen zeros. */
  lemma CommandClocks(c: bv8)
    ensures var w := Wire.BufferBits([c, 0x0, 0x0]);
      |w| == 24 &&
      (forall i :: 0 <= i < 8 ==> w[i] == Wire.BitSet(c, 7 - i)) &&
      (forall i :: 8 <= i < 24 ==> !w[i]) &&
      w[2..5] == [Wire.BitSet(c, 5), Wire.BitSet(c, 4)] + [Wire.BitSet(c, 3)]
  {
    Wire.BufferBitsOfThree([c, 0x0, 0x0]);
  }

  /** On the wire, the command is the start bit, the single-ended bit and the
      channel number most significant bit first, and every later clock sends 0. */
  lemma CommandOnWire(adcNumber: bv8)
    requires adcNumber <= 7
    ensures var w := Wire.BufferBits(TxFrame(adcNumber));
      |w| == 24 && w[0] && w[1] && Wire.ShiftIn(w[2..5]) == adcNumber as bv16 &&
      forall i :: 5 <= i < 24 ==> !w[i]
  {
    var c := Command(adcNumber);
    CommandClocks(c);
    var d2, d1, d0 := Wire.BitSet(c, 5), Wire.BitSet(c, 4), Wire.BitSet(c, 3);
    assert [d2, d1] == [d2] + [d1];
    Wire.ShiftInSnoc([d2, d1], d0);
    Wire.ShiftInSnoc([d2], d1);
    Wire.ShiftInSnoc([], d2);
    assert Wire.Push(Wire.Push(Wire.Push(0, d2), d1), d0) == adcNumber as bv16;
  }

  /** Clock of the exchange (counting from 0) at which the converter sends the
      most significant result bit: it follows the start bit, the mode bit, the
      three channel bits, the sampling clock and the null bit. */
  const ResultStart := 7

  /** The converter's resolution in bits. */
  const ResultBits := 10

  /** The conversion result carried by the received bytes: the `ResultBits`
      bits clocked in from clock `ResultStart` on, most significant first. */
  function Sample(rx: Frame): bv16
  {
    Wire.ShiftIn(Wire.BufferBits(rx)[ResultStart .. ResultStart + ResultBits])
  }

  /** The clocks that carry the result are bit 0 of the first byte, the eight
      bits of the second byte and bit 7 of the third byte. */
  lemma ResultClocks(rx: Frame)
    ensures Wire.BufferBits(rx)[ResultStart .. ResultStart + ResultBits] ==
      ([Wire.BitSet(rx[0], 0)] + Wire.ByteBits(rx[1])) + [Wire.BitSet(rx[2], 7)]
  {
    Wire.BufferBitsOfThree(rx);
  }

  /** The result bits sit in bit 0 of the first byte, all of the second byte
      and bit 7 of the third byte. */
  lemma SampleFormula(rx: Frame)
    ensures Sample(rx) ==
      ((rx[0] as bv16 & 0x01) << 9) | ((rx[1] as bv16 & 0xFF) << 1) | ((rx[2] as bv16 & 0x80) >> 7)
  {
    var x, m, y := Wire.BitSet(rx[0], 0), Wire.ByteBits(rx[1]), Wire.BitSet(rx[2], 7);
    ResultClocks(rx);
    Wire.ShiftInSnoc([x] + m, y);
    Wire.ShiftInCons(x, m);
    Wire.ShiftInByte(rx[1]);
    assert Wire.Lead(x, 8) == if x then 0x100 else 0;
    AssembleBits(rx[0], rx[1], rx[2]);
  }

  /** The bit-vector step of SampleFormula: pushing bit 7 of `c` into the
      register that holds bit 0 of `a` above the byte `b`. */
  lemma AssembleBits(a: bv8, b: bv8, c: bv8)
    ensures Wire.Push((if Wire.BitSet(a, 0) then 0x100 else 0) | b as bv16, Wire.BitSet(c, 7)) ==
      ((a as bv16 & 0x01) << 9) | ((b as bv16 & 0xFF) << 1) | ((c as bv16 & 0x80) >> 7)
  {
  }

  /** Every result lies in 0..=1023. */
  lemma SampleInRange(rx: Frame)
    ensures Sample(rx) <= 0x3FF
  {
    SampleFormula(rx);
  }

  /** Masking the assembled result with 0x3FF changes nothing. */
  lemma MaskIsRedundant(rx: Frame)
    ensures var assembled :=
      ((rx[0] as bv16 & 0x01) << 9) | ((rx[1] as bv16 & 0xFF) << 1) | ((rx[2] as bv16 & 0x80) >> 7);
      assembled & 0x3FF == assembled
  {
  }

  /** Two answers decode alike exactly when they agree on bit 0 of the first
      byte, the whole second byte and bit 7 of the third byte: no other
      received bit is looked at. */
  lemma SampleIgnoresOtherBits(rx: Frame, rx': Frame)
    ensures Sample(rx) == Sample(rx') <==>
      rx[0] & 0x01 == rx'[0] & 0x01 && rx[1] == rx'[1] && rx[2] & 0x80 == rx'[2] & 0x80
  {
    SampleFormula(rx);
    SampleFormula(rx');
  }

  /** The bytes a converter clocks back for the result `v`, with every bit
      outside the result at 0. */
  function Response(v: bv16): Frame
    requires v <= 0x3FF
  {
    [(v >> 9) as bv8, ((v >> 1) & 0xFF) as bv8, ((v & 0x01) << 7) as bv8]
  }

  /** Decoding the converter's answer for `v` gives back `v`; with
      SampleInRange, the results are exactly 0..=1023. */
  lemma SampleOfResponse(v: bv16)
    requires v <= 0x3FF
    ensures Sample(Response(v)) == v
  {
    SampleFormula(Response(v));
  }

  /** A handle on one converter, wrapping an opened and configured spidev device. */
  class Mcp3208 {
    const spi: Spidev

    constructor (spi: Spidev)
      ensures this.spi == spi
    {
      this.spi := spi;
    }

    /** Reads channel `adcNumber`. A channel outside 0..=7 is rejected before
        anything is sent. Otherwise the command for the channel is clocked out
        in one transfer, in which the converter does what `answer` says; an I/O
        failure is passed on, and otherwise the result is decoded from the
        three bytes received. */
    method ReadAdc(adcNumber: bv8, answer: Answer) returns (r: Result<bv16, Mcp3208Error>)
      modifies spi
      ensures adcNumber > 7 ==> r == Err(AdcOutOfRangeError(adcNumber)) && spi.sent == old(spi.sent)
      ensures adcNumber <= 7 ==> spi.sent == old(spi.sent) + [TxFrame(adcNumber)]
      ensures adcNumber <= 7 && answer.Failed? ==> r == Err(SpidevError(answer.err))
      ensures adcNumber <= 7 && answer.Received? ==> r == Ok(Sample(answer.rx))
    {
      if adcNumber <= 7 {
        // start bit, single-ended read
        var command: bv8 := 3 << 6;
        command := command | ((adcNumber & 0x07) << 3);
        var txBuf := new bv8[3] [command, 0x0, 0x0];
        assert txBuf[..] == TxFrame(adcNumber);
        var rxBuf := new bv8[3] [0, 0, 0];
        var ioError := spi.Transfer(txBuf, rxBuf, answer);
        if ioError.Some? {
          return Err(SpidevError(ioError.value));
        }
        var result: bv16 := (rxBuf[0] as bv16 & 0x01) << 9;
        result := result | ((rxBuf[1] as bv16 & 0xFF) << 1);
        result := result | ((rxBuf[2] as bv16 & 0x80) >> 7);
        SampleFormula(answer.rx);
        r := Ok(result & 0x3FF);
      } else {
        r := Err(AdcOutOfRangeError(adcNumber));
      }
    }
  }
}
