/** The checksum of a fingerprint: a byte-wise form of the CRC with polynomial x^16 + x^12 + x^5 + 1. */
module Crc16 {
  /** One byte of the shift form. */
  function ShiftStep(crc: bv16, b: bv16): bv16 {
    var c1 := ((crc >> 8) | (crc << 8)) ^ (b & 255);
    var c2 := c1 ^ ((c1 & 255) >> 4);
    var c3 := c2 ^ (c2 << 12);
    c3 ^ ((c3 & 255) << 5)
  }

  function ByteOf(c: char): bv16 { (c as int % 256) as bv16 }

  function Checksum(raw: string): bv16 {
    if raw == [] then 0xffff else ShiftStep(Checksum(raw[..|raw| - 1]), ByteOf(raw[|raw| - 1]))
  }

  method Compute(raw: string) returns (crc: bv16)
    ensures crc == Checksum(raw)
  {
    hide ShiftStep;
    crc := 0xffff;
    for i := 0 to |raw|
      invariant crc == Checksum(raw[..i])
    {
      assert raw[..i + 1][..i] == raw[..i];
      crc := ShiftStep(crc, ByteOf(raw[i]));
    }
    assert raw[..|raw|] == raw;
  }

  // ---------------------------------------------------------------- long division over GF(2)

  /**
   Eight steps of long division by x^16 + x^12 + x^5 + 1: each shifts the next bit of the byte into the
   register and, when a one falls out at the top, subtracts the polynomial.
   */
  function DivideByte(r: bv16, b: bv16): bv16 {
    var r1 := (r << 1) ^ ((b >> 7) & 1) ^ (r >> 15) ^ ((r >> 15) << 5) ^ ((r >> 15) << 12);
    var r2 := (r1 << 1) ^ ((b >> 6) & 1) ^ (r1 >> 15) ^ ((r1 >> 15) << 5) ^ ((r1 >> 15) << 12);
    var r3 := (r2 << 1) ^ ((b >> 5) & 1) ^ (r2 >> 15) ^ ((r2 >> 15) << 5) ^ ((r2 >> 15) << 12);
    var r4 := (r3 << 1) ^ ((b >> 4) & 1) ^ (r3 >> 15) ^ ((r3 >> 15) << 5) ^ ((r3 >> 15) << 12);
    var r5 := (r4 << 1) ^ ((b >> 3) & 1) ^ (r4 >> 15) ^ ((r4 >> 15) << 5) ^ ((r4 >> 15) << 12);
    var r6 := (r5 << 1) ^ ((b >> 2) & 1) ^ (r5 >> 15) ^ ((r5 >> 15) << 5) ^ ((r5 >> 15) << 12);
    var r7 := (r6 << 1) ^ ((b >> 1) & 1) ^ (r6 >> 15) ^ ((r6 >> 15) << 5) ^ ((r6 >> 15) << 12);
    (r7 << 1) ^ (b & 1) ^ (r7 >> 15) ^ ((r7 >> 15) << 5) ^ ((r7 >> 15) << 12)
  }

  /** The remainder of the polynomial whose coefficients are the bits of the bytes. */
  function Remainder(bytes: seq<bv16>): bv16 {
    if bytes == [] then 0 else DivideByte(Remainder(bytes[..|bytes| - 1]), bytes[|bytes| - 1])
  }

  function Bytes(raw: string): (bytes: seq<bv16>)
    ensures |bytes| == |raw|
  {
    seq(|raw|, i requires 0 <= i < |raw| => ByteOf(raw[i]))
  }

  /** The text followed by 16 zero bits. */
  function Extended(raw: string): (bytes: seq<bv16>)
    ensures |bytes| == |raw| + 2
  {
    Bytes(raw) + [0, 0]
  }

  function Complemented(b: bv16): bv16 { b ^ 255 }

  /** The register started at 0xffff: the first 16 bits complemented. */
  function Started(bytes: seq<bv16>): (started: seq<bv16>)
    requires |bytes| >= 2
    ensures |started| == |bytes|
  {
    [Complemented(bytes[0]), Complemented(bytes[1])] + bytes[2..]
  }

  /** A checksum together with the next 16 bits of the text. */
  function Window(s: bv16, y: bv16, z: bv16): bv16 { s ^ ((y & 255) << 8) ^ (z & 255) }

  function NextWindow(c: bv16, m: bv16, y: bv16, z: bv16): bv16 {
    var c1 := ((c >> 8) | (c << 8)) ^ (m & 255);
    var c2 := c1 ^ ((c1 & 255) >> 4);
    var c3 := c2 ^ (c2 << 12);
    (c3 ^ ((c3 & 255) << 5)) ^ ((y & 255) << 8) ^ (z & 255)
  }

  lemma DividedWindow(c: bv16, m: bv16, y: bv16, z: bv16)
    ensures DivideByte(c ^ ((m & 255) << 8) ^ (y & 255), z) == NextWindow(c, m, y, z)
  {
  }

  lemma ShiftedWindow(c: bv16, m: bv16, y: bv16, z: bv16)
    ensures NextWindow(c, m, y, z)
            == Window((var c1 := ((c >> 8) | (c << 8)) ^ (m & 255);
                       var c2 := c1 ^ ((c1 & 255) >> 4);
                       var c3 := c2 ^ (c2 << 12);
                       c3 ^ ((c3 & 255) << 5)), y, z)
  {
  }

  lemma ShiftStepIs(c: bv16, m: bv16)
    ensures ShiftStep(c, m) == (var c1 := ((c >> 8) | (c << 8)) ^ (m & 255);
                                var c2 := c1 ^ ((c1 & 255) >> 4);
                                var c3 := c2 ^ (c2 << 12);
                                c3 ^ ((c3 & 255) << 5))
  {
  }

  lemma WindowIs(s: bv16, y: bv16, z: bv16)
    ensures Window(s, y, z) == s ^ ((y & 255) << 8) ^ (z & 255)
  {
  }

  /** Dividing in one more byte moves the window by one byte and the checksum by one shift step. */
  lemma DivisionMovesWindow(c: bv16, m: bv16, y: bv16, z: bv16)
    ensures DivideByte(Window(c, m, y), z) == Window(ShiftStep(c, m), y, z)
  {
    WindowIs(c, m, y);
    DividedWindow(c, m, y, z);
    ShiftedWindow(c, m, y, z);
    ShiftStepIs(c, m);
    hide DivideByte, Window, NextWindow, ShiftStep;
  }

  lemma FirstByte(b: bv16)
    ensures DivideByte(0, b) == b & 255
  {
  }

  lemma SecondByte(a: bv16, b: bv16)
    ensures DivideByte((a ^ 255) & 255, b ^ 255) == 0xffff ^ ((a & 255) << 8) ^ (b & 255)
  {
  }

  lemma FirstWindow(a: bv16, b: bv16)
    ensures DivideByte(DivideByte(0, Complemented(a)), Complemented(b)) == Window(0xffff, a, b)
  {
    assert Complemented(a) == a ^ 255 && Complemented(b) == b ^ 255;
    FirstByte(a ^ 255);
    SecondByte(a, b);
    WindowIs(0xffff, a, b);
    hide DivideByte, Window, Complemented;
  }

  lemma LastWindow(c: bv16)
    ensures Window(c, 0, 0) == c
  {
  }

  lemma RemainderOfTwo(a: bv16, b: bv16)
    ensures Remainder([a, b]) == DivideByte(DivideByte(0, a), b)
  {
    assert [a, b][..1] == [a] && [a][..0] == [];
    assert Remainder([a]) == DivideByte(Remainder([]), a);
    hide DivideByte;
  }

  lemma {:induction false} RemainderIsWindow(raw: string, i: nat)
    requires i <= |raw|
    ensures Remainder(Started(Extended(raw))[..i + 2])
            == Window(Checksum(raw[..i]), Extended(raw)[i], Extended(raw)[i + 1])
  {
    var bytes, started := Extended(raw), Started(Extended(raw));
    hide DivideByte, Window, ShiftStep, ByteOf, Complemented;
    if i == 0 {
      FirstWindow(bytes[0], bytes[1]);
      assert started[..2] == [Complemented(bytes[0]), Complemented(bytes[1])];
      RemainderOfTwo(Complemented(bytes[0]), Complemented(bytes[1]));
      assert raw[..0] == [];
    } else {
      RemainderIsWindow(raw, i - 1);
      assert started[..i + 2][..i + 1] == started[..i + 1];
      assert started[i + 1] == bytes[i + 1];
      assert raw[..i][..i - 1] == raw[..i - 1];
      assert bytes[i - 1] == ByteOf(raw[i - 1]);
      DivisionMovesWindow(Checksum(raw[..i - 1]), bytes[i - 1], bytes[i], bytes[i + 1]);
    }
  }

  /**
   The byte-wise shift form computes the remainder of long division of the text, followed by 16 zero
   bits and started at 0xffff, by x^16 + x^12 + x^5 + 1.
   */
  lemma ChecksumIsRemainder(raw: string)
    ensures Checksum(raw) == Remainder(Started(Extended(raw)))
  {
    RemainderIsWindow(raw, |raw|);
    LastWindow(Checksum(raw));
    hide DivideByte, Window, ShiftStep, Remainder;
    assert raw[..|raw|] == raw;
    assert Started(Extended(raw))[..|raw| + 2] == Started(Extended(raw));
  }
}
