/** The bit-level view of one SPI exchange. The bus is configured to send the
    most significant bit of every byte first, so a buffer of bytes is the
    stream of their bits, byte after byte, each byte from bit 7 down to bit 0. */
module Wire {

  /** Bit `i` of `b`, bit 0 being the least significant. */
  predicate BitSet(b: bv8, i: nat)
    requires i < 8
  {
    (b >> i) & 1 == 1
  }

  /** The eight bits of `b` in the order they are clocked onto the bus. */
  function ByteBits(b: bv8): (bits: seq<bool>)
    ensures |bits| == 8
  {
    seq(8, i requires 0 <= i < 8 => BitSet(b, 7 - i))
  }

  /** The bits of a whole buffer in transfer order. */
  function BufferBits(buf: seq<bv8>): (bits: seq<bool>)
    ensures |bits| == 8 * |buf|
  {
    if buf == [] then [] else ByteBits(buf[0]) + BufferBits(buf[1..])
  }

  /** One clock of a shift register: every bit moves up one place and `bit`
      enters at the bottom. */
  function Push(w: bv16, bit: bool): bv16
  {
    (w << 1) | (if bit then 1 else 0)
  }

  /** The value a 16-bit shift register holds after it starts at zero and
      `bits` are clocked into it, first bit first: the bit received first ends
      up the most significant. */
  function ShiftIn(bits: seq<bool>): bv16
  {
    if |bits| == 0 then 0 else Push(ShiftIn(bits[..|bits| - 1]), bits[|bits| - 1])
  }

  /** `2^n` in a 16-bit register (zero once `n` reaches 16). */
  function Pow2(n: nat): bv16
  {
    if n == 0 then 1 else Pow2(n - 1) << 1
  }

  /** The weight a bit `x` has when `n` more bits are clocked in after it. */
  function Lead(x: bool, n: nat): bv16
  {
    if x then Pow2(n) else 0
  }

  /** A three-byte buffer is the 24 bits of its bytes, in order. */
  lemma BufferBitsOfThree(buf: seq<bv8>)
    requires |buf| == 3
    ensures BufferBits(buf) == ByteBits(buf[0]) + ByteBits(buf[1]) + ByteBits(buf[2])
  {
    assert buf[1..][1..] == [buf[2]];
    assert BufferBits([buf[2]]) == ByteBits(buf[2]) + BufferBits([]);
    assert BufferBits(buf[1..]) == ByteBits(buf[1]) + BufferBits(buf[1..][1..]);
  }

  /** Clocking in one more bit is one push. */
  lemma ShiftInSnoc(bits: seq<bool>, b: bool)
    ensures ShiftIn(bits + [b]) == Push(ShiftIn(bits), b)
  {
    assert (bits + [b])[..|bits|] == bits;
  }

  /** Clocking the eight bits of `b` into an empty register, most
      significant first, reproduces `b`. */
  lemma PushAllBits(b: bv8)
    ensures Push(Push(Push(Push(Push(Push(Push(Push(0,
              BitSet(b, 7)), BitSet(b, 6)), BitSet(b, 5)), BitSet(b, 4)),
              BitSet(b, 3)), BitSet(b, 2)), BitSet(b, 1)), BitSet(b, 0)) == b as bv16
  {
  }

  /** Clocking in a whole byte reproduces the byte. */
  lemma ShiftInByte(b: bv8)
    ensures ShiftIn(ByteBits(b)) == b as bv16
  {
    var s := ByteBits(b);
    forall k | 1 <= k <= 8
      ensures ShiftIn(s[..k]) == Push(ShiftIn(s[..k - 1]), s[k - 1])
    {
      assert s[..k] == s[..k - 1] + [s[k - 1]];
      ShiftInSnoc(s[..k - 1], s[k - 1]);
    }
    assert s[..0] == [] && s[..8] == s;
    // Naming the register after each prefix lets the step above apply to it.
    var r0 := ShiftIn(s[..0]);
    var r1 := ShiftIn(s[..1]);
    var r2 := ShiftIn(s[..2]);
    var r3 := ShiftIn(s[..3]);
    var r4 := ShiftIn(s[..4]);
    var r5 := ShiftIn(s[..5]);
    var r6 := ShiftIn(s[..6]);
    var r7 := ShiftIn(s[..7]);
    assert ShiftIn(s) == Push(Push(Push(Push(Push(Push(Push(Push(r0,
      s[0]), s[1]), s[2]), s[3]), s[4]), s[5]), s[6]), s[7]);
    PushAllBits(b);
  }

  /** A bit clocked in before `rest` ends up just above all the bits of `rest`. */
  lemma {:induction false} ShiftInCons(x: bool, rest: seq<bool>)
    ensures ShiftIn([x] + rest) == Lead(x, |rest|) | ShiftIn(rest)
  {
    if rest == [] {
      ShiftInSnoc([], x);
    } else {
      var n := |rest|;
      var init, last := rest[..n - 1], rest[n - 1];
      assert rest == init + [last];
      assert [x] + rest == ([x] + init) + [last];
      ShiftInCons(x, init);
      ShiftInSnoc([x] + init, last);
      ShiftInSnoc(init, last);
      PushOr(Lead(x, n - 1), ShiftIn(init), last);
      LeadStep(x, n);
    }
  }

  /** One more bit clocked in after `x` doubles its weight. */
  lemma LeadStep(x: bool, n: nat)
    requires n > 0
    ensures Lead(x, n) == Lead(x, n - 1) << 1
  {
  }

  /** A clock moves a high part and a low part up together. */
  lemma PushOr(high: bv16, low: bv16, bit: bool)
    ensures Push(high | low, bit) == (high << 1) | Push(low, bit)
  {
  }
}
