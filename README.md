# rust-mcp3208: the `read_adc` codec, verified

`rust-mcp3208` is a Rust driver for the MCP3208/MCP3008 family of SPI
analog-to-digital converters, rewritten from Adafruit's Python MCP3008
library. Its one operation with real content is `Mcp3208::read_adc`
(src/lib.rs:124-153). The operation does four things:

- it rejects a channel outside `0..=7` with `AdcOutOfRangeError(adc_number)` before
  any bus traffic;
- it builds the command byte `0b11 << 6 | (adc_number & 0x07) << 3`: a start bit,
  the single-ended bit, the channel in bits 5..3, and three zero bits;
- it exchanges `[command, 0, 0]` for three received bytes in one full-duplex SPI
  transfer;
- it assembles a 10-bit result from bit 0 of the first received byte, all of
  the second and bit 7 of the third, then masks it with `0x3FF`.

The error type `Mcp3208Error` has a `Display` text (`fmt`) and a `cause`.

This project models these parts in Dafny and proves what they promise:

- `prelude.dfy` — Rust's `Option` and `Result`.
- `spi.dfy` — a stand-in for the spidev device. Its `Transfer` clocks a
  three-byte buffer out and fills the receive buffer in place. What the
  converter answers is a parameter, and a ghost record `sent` keeps every
  buffer put on the bus.
- `wire.dfy` — the bit-level view of an exchange. The device is configured to
  send the most significant bit first (src/lib.rs:107), so a buffer is its
  bits in clock order. `ShiftIn` is the value of a shift register that clocks
  those bits in.
- `decimal.dfy` — decimal text of numbers, as `{}` writes a `u8`, with its
  parser. Formatting and parsing are proved to be inverse bijections.
- `driver.dfy` — the error type with `Fmt` and `Cause`, the command byte, and
  the decoder. `Mcp3208.ReadAdc` follows the source statement by statement:
  it uses arrays for `tx_buf` and `rx_buf` and local variables for `command`
  and `result`.

The decoder has an independent reference definition. `Sample` is the 10 bits
that the converter clocks back from clock 7 on, most significant first. Clocks
0-6 carry the start bit, the mode bit, the three channel bits, the sampling
clock and the null bit. `SampleFormula` proves that the source's masks and
shifts compute exactly that value. `ReadAdc` is proved against `Sample`.

`u8` and `u16` are modelled as `bv8` and `bv16`, so shifts and masks keep
their fixed-width meaning.

The crate is named after the 12-bit MCP3208, but src/lib.rs decodes the
10-bit answer of an MCP3008 from a 3-byte exchange. It builds no 32-bit frame
and reads no 12-bit sample or mirrored checksum. The model follows the code.

## Model

| member | source | states |
|---|---|---|
| `Driver.Mcp3208.ReadAdc` | src/lib.rs:124-153 | A channel above 7 yields `Err(AdcOutOfRangeError(adc_number))` carrying exactly the input, and nothing is sent on the bus. A channel in 0..=7 sends exactly one buffer, `TxFrame(adc_number)`. A failed transfer yields `Err(SpidevError(e))` with the device's I/O error. Otherwise the result is `Ok(Sample(rx))` for the bytes received. |
| `Driver.Mcp3208.constructor` | src/lib.rs:112-113 | The handle wraps the given, already configured device. |
| `Spi.Spidev.Transfer` | src/lib.rs:139-143 | One transfer appends the transmitted buffer to the bus record. The receive buffer then holds the converter's three bytes, or the device's I/O error is returned. |
| `Driver.Command` | src/lib.rs:127-133 | For a channel in 0..=7, the command byte's top two bits (start and single-ended) are set, bits 5..3 equal the channel, and bits 2..0 are zero. These three facts fix every bit. |
| `Driver.CommandInjective` | src/lib.rs:129 | Two channels give the same command byte if and only if they are the same channel. |
| `Driver.TxFrameChannelZero` | src/lib.rs:128-134 | Reading channel 0 sends `[0xC0, 0x00, 0x00]`. |
| `Driver.CommandOnWire` | src/lib.rs:127-134 | On the wire, the 24 clocks of the transmit buffer are the start bit, the single-ended bit, the channel number most significant bit first, and then only zeros. |
| `Driver.SampleFormula` | src/lib.rs:145-147 | The 10 bits received from clock 7 on, as a number, equal the bitwise OR of `(rx[0] & 0x01) << 9`, `rx[1] << 1` and `(rx[2] & 0x80) >> 7`, computed in 16 bits. |
| `Driver.SampleInRange` | src/lib.rs:145-149 | Every decoded result lies in 0..=1023, whatever bytes are received. |
| `Driver.MaskIsRedundant` | src/lib.rs:149 | The final `& 0x3FF` never changes the assembled value. |
| `Driver.SampleIgnoresOtherBits` | src/lib.rs:145-147 | Two answers decode to the same value if and only if they agree on bit 0 of the first byte, the whole second byte and bit 7 of the third byte. No other received bit matters. |
| `Driver.SampleOfResponse` | src/lib.rs:145-149 | Any value in 0..=1023, clocked back by the converter, is decoded to itself. With `SampleInRange`, the possible results are exactly 0..=1023. |
| `Driver.ResultClocks` | src/lib.rs:145-147 | Clocks 7..16 of the exchange are bit 0 of the first received byte, the eight bits of the second byte (most significant first) and bit 7 of the third byte. |
| `Driver.Fmt` | src/lib.rs:52-62 | A spidev error shows its I/O error's text. `UnsupportedOSError` shows "unsupported os". `AdcOutOfRangeError(n)` shows "invalid adc number (", then canonical decimal digits that read back as `n`, then ")". |
| `Driver.FmtDistinguishesChannels` | src/lib.rs:56-57 | Two out-of-range errors display the same text if and only if they carry the same number. |
| `Driver.Cause` | src/lib.rs:64-73 | The cause exists exactly for `SpidevError`, and it is that error's I/O error. Every other variant has no cause. |
| `Decimal.Format` | src/lib.rs:57 | The `{}` text of a number is canonical decimal: at least one digit, and it starts with '0' only for zero, which is written "0". |
| `Decimal.ParseFormat` | src/lib.rs:57 | Reading back the decimal text of `n` gives `n`. |
| `Decimal.FormatParse` | src/lib.rs:57 | Every canonical decimal text is the text of the number it denotes, so `Format` is a bijection onto canonical texts. |
| `Decimal.FormatInjective` | src/lib.rs:57 | Distinct numbers have distinct decimal texts. |
| `Wire.ShiftInByte` | src/lib.rs:107 | With most-significant-bit-first transfer, the eight clocks of a byte, shifted into a register, reproduce the byte. |
| `Wire.ShiftInCons` | src/lib.rs:107 | A bit clocked in before `n` further bits ends up with weight `2^n`, above all of them. |

## Left out

- `Mcp3208::new` (src/lib.rs:103-116) opens and configures the spidev device (1 MHz, SPI mode 0, MSB first). These are foreign calls and I/O. The model starts from an already configured device. The MSB-first setting is the bit order that `Wire` assumes.
- The SPI transfer itself (src/lib.rs:140-142) is a call into the spidev crate. Its result is the `answer` parameter: three arbitrary bytes, or an I/O failure.
- Spi.Spidev.Transfer: on a failed transfer the model leaves the receive buffer unchanged. The real device may leave it in any state. `ReadAdc` returns before reading it either way.
- The `From<io::Error>` conversion (src/lib.rs:75-79) is what `?` applies at src/lib.rs:142. `ReadAdc` wraps the error in `SpidevError` directly.
- The non-Linux variants of `new` and `read_adc` (src/lib.rs:118-121, 155-158) always return `UnsupportedOSError`. This is platform selection; the model is the Linux build. `UnsupportedOSError` is kept as a value with its display text.
- `std::io::Error` is reduced to its display text. `Fmt` of a spidev error returns that text, and `Cause` returns the error value instead of a trait-object reference.
- `Formatter` options (width, fill, alignment) are not modelled. `Fmt` gives the text that `write!` produces with no options.
- The test module (src/lib.rs:3-33) needs a physical `/dev/spidev0.0` and environment variables. examples/dump-channels-raw.rs is a print loop over hardware reads, and it calls `read_adc_single`, which src/lib.rs does not define.
