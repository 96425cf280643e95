/** Bit strings, most significant bit first, and their packing into letters of six bits. */
module BitPacking {
  function Pow2(n: nat): (p: nat)
    ensures p >= 1
  {
    if n == 0 then 1 else 2 * Pow2(n - 1)
  }

  function Shl(value: nat, n: nat): nat {
    if n == 0 then value else 2 * Shl(value, n - 1)
  }

  function Shr(value: nat, n: nat): nat {
    if n == 0 then value else Shr(value / 2, n - 1)
  }

  /** The value of the low n bits. */
  function Mask(value: nat, n: nat): (low: nat)
    ensures low < Pow2(n)
  {
    if n == 0 then 0 else 2 * Mask(value / 2, n - 1) + value % 2
  }

  /** The low `width` bits of a value. */
  function Bits(width: nat, value: nat): (bits: seq<bool>)
    ensures |bits| == width
  {
    if width == 0 then [] else Bits(width - 1, value / 2) + [value % 2 == 1]
  }

  lemma {:induction false} BitsSplit(a: nat, b: nat, value: nat)
    ensures Bits(a + b, value) == Bits(a, Shr(value, b)) + Bits(b, value)
  {
    if b > 0 { BitsSplit(a, b - 1, value / 2); }
  }

  /** Only the low bits count. */
  lemma {:induction false} BitsMask(width: nat, value: nat)
    ensures Bits(width, Mask(value, width)) == Bits(width, value)
  {
    if width > 0 { BitsMask(width - 1, value / 2); }
  }

  lemma {:induction false} ShlThenShr(buffer: nat, width: nat, value: nat)
    requires value < Pow2(width)
    ensures Shr(Shl(buffer, width) + value, width) == buffer
    ensures Bits(width, Shl(buffer, width) + value) == Bits(width, value)
  {
    if width > 0 {
      ShlThenShr(buffer, width - 1, value / 2);
      assert (Shl(buffer, width) + value) / 2 == Shl(buffer, width - 1) + value / 2;
    }
  }

  lemma Joined(buffer: nat, count: nat, width: nat, value: nat)
    requires value < Pow2(width)
    ensures Bits(count + width, Shl(buffer, width) + value) == Bits(count, buffer) + Bits(width, value)
  {
    ShlThenShr(buffer, width, value);
    BitsSplit(count, width, Shl(buffer, width) + value);
  }

  // ---------------------------------------------------------------- reading ahead

  /** The value of the first n bits, with zeros where the string is too short. */
  function Peek(bits: seq<bool>, n: nat): (value: nat)
    ensures value < Pow2(n)
  {
    if n == 0 || bits == [] then 0
    else (if bits[0] then Pow2(n - 1) else 0) + Peek(bits[1..], n - 1)
  }

  lemma {:induction false} ShlSum(x: nat, y: nat, n: nat)
    ensures Shl(x + y, n) == Shl(x, n) + Shl(y, n)
  {
    if n > 0 { ShlSum(x, y, n - 1); }
  }

  lemma {:induction false} ShlPow2(a: nat, n: nat)
    ensures Shl(Pow2(a), n) == Pow2(a + n)
  {
    if n > 0 { ShlPow2(a, n - 1); }
  }

  lemma {:induction false} ShlZero(n: nat)
    ensures Shl(0, n) == 0
  {
    if n > 0 { ShlZero(n - 1); }
  }

  lemma {:induction false} ShlTimes(value: nat, n: nat)
    ensures Shl(value, n) == value * Pow2(n)
  {
    if n > 0 {
      ShlTimes(value, n - 1);
      assert value * (2 * Pow2(n - 1)) == 2 * (value * Pow2(n - 1));
    }
  }

  lemma {:induction false} PeekConcat(a: seq<bool>, b: seq<bool>, n: nat)
    requires |a| <= n
    ensures Peek(a + b, n) == Shl(Peek(a, |a|), n - |a|) + Peek(b, n - |a|)
  {
    hide Shl, Pow2;
    if a == [] {
      assert a + b == b;
      ShlZero(n);
    } else {
      PeekConcat(a[1..], b, n - 1);
      assert (a + b)[1..] == a[1..] + b;
      ShlPow2(|a| - 1, n - |a|);
      ShlSum(Pow2(|a| - 1), Peek(a[1..], |a| - 1), n - |a|);
    }
  }

  lemma {:induction false} PeekBits(width: nat, value: nat)
    requires value < Pow2(width)
    ensures Peek(Bits(width, value), width) == value
  {
    if width > 0 {
      var front, last := Bits(width - 1, value / 2), [value % 2 == 1];
      PeekBits(width - 1, value / 2);
      PeekConcat(front, last, width);
      assert Pow2(0) == 1 && Peek(last[1..], 0) == 0;
      assert Peek(last, 1) == value % 2;
      assert Shl(value / 2, 1) == 2 * Shl(value / 2, 0);
    }
  }

  /** A string that begins with a value's bits falls into that value's interval of the n-bit space. */
  lemma PeekPrefix(width: nat, value: nat, rest: seq<bool>, n: nat)
    requires value < Pow2(width) && width <= n
    ensures value * Pow2(n - width) <= Peek(Bits(width, value) + rest, n) < (value + 1) * Pow2(n - width)
  {
    PeekBits(width, value);
    PeekConcat(Bits(width, value), rest, n);
    ShlTimes(value, n - width);
    assert (value + 1) * Pow2(n - width) == value * Pow2(n - width) + Pow2(n - width);
  }

  // ---------------------------------------------------------------- letters of six bits

  function Letter(v: nat): char
    requires v < 64
  {
    if v == 0 then '.'
    else if v <= 10 then (v - 1 + '0' as int) as char
    else if v <= 36 then (v - 11 + 'A' as int) as char
    else if v == 37 then '_'
    else (v - 38 + 'a' as int) as char
  }

  function LetterValue(c: char): nat {
    if '0' <= c <= '9' then c as int - '0' as int + 1
    else if 'A' <= c <= 'Z' then c as int - 'A' as int + 11
    else if c == '_' then 37
    else if 'a' <= c <= 'z' then c as int - 'a' as int + 38
    else 0
  }

  lemma LetterRoundTrip(v: nat)
    requires v < 64
    ensures LetterValue(Letter(v)) == v
  {
  }

  function Unpacked(letters: string): seq<bool> {
    if letters == [] then []
    else Unpacked(letters[..|letters| - 1]) + Bits(6, LetterValue(letters[|letters| - 1]))
  }

  lemma UnpackedOneMore(letters: string, c: char)
    ensures Unpacked(letters + [c]) == Unpacked(letters) + Bits(6, LetterValue(c))
  {
    assert (letters + [c])[..|letters|] == letters;
  }

  lemma Associative(a: seq<bool>, b: seq<bool>, c: seq<bool>)
    ensures (a + b) + c == a + (b + c)
  {
  }

  lemma {:induction false} UnpackedConcat(a: string, b: string)
    ensures Unpacked(a + b) == Unpacked(a) + Unpacked(b)
  {
    assert Unpacked([]) == [];
    hide Bits, Unpacked, LetterValue;
    if b == [] {
      assert a + b == a;
    } else {
      var front, c := b[..|b| - 1], b[|b| - 1];
      assert a + b == a + front + [c] && b == front + [c];
      UnpackedConcat(a, front);
      UnpackedOneMore(a + front, c);
      UnpackedOneMore(front, c);
      Associative(Unpacked(a), Unpacked(front), Bits(6, LetterValue(c)));
    }
  }

  lemma {:induction false} UnpackedLength(letters: string)
    ensures |Unpacked(letters)| == 6 * |letters|
  {
    if letters != [] { UnpackedLength(letters[..|letters| - 1]); }
  }

  /** The bits still in a buffer and the letters already written. */
  class BitWriter {
    var buffer: nat
    var count: nat
    var out: string

    ghost predicate Valid()
      reads this
    {
      count < 6 && buffer < Pow2(count)
    }

    ghost function Stream(): seq<bool>
      reads this
    {
      Unpacked(out) + Bits(count, buffer)
    }

    constructor ()
      ensures Valid() && Stream() == [] && out == []
    {
      buffer, count, out := 0, 0, [];
    }

    /** Appends the bits of a value; at most 21 bits are ever buffered. */
    method Push(width: nat, value: nat)
      requires Valid() && width <= 16 && value < Pow2(width)
      modifies this
      ensures Valid() && Stream() == old(Stream()) + Bits(width, value)
    {
      hide Unpacked, Bits, Mask, Shr, Shl;
      Joined(buffer, count, width, value);
      ghost var all := Stream() + Bits(width, value);
      assert Unpacked(out) + (Bits(count, buffer) + Bits(width, value)) == all;
      buffer := Shl(buffer, width) + value;
      count := count + width;
      while count >= 6
        invariant Unpacked(out) + Bits(count, buffer) == all
      {
        count := count - 6;
        SixBits(out, count, buffer);
        out := out + [Letter(Mask(Shr(buffer, count), 6))];
      }
      BitsMask(count, buffer);
      buffer := Mask(buffer, count);
    }

    /** Fills the last letter with zeros. */
    method Pad()
      requires Valid()
      modifies this
      ensures Valid() && count == 0
      ensures exists pad: nat :: pad < 6 && Unpacked(out) == old(Stream()) + Bits(pad, 0)
    {
      ghost var pad := if count > 0 then 6 - count else 0;
      if count > 0 {
        UnpackedLength(out);
        Push(6 - count, 0);
        UnpackedLength(out);
      }
      hide Unpacked;
      assert Stream() == old(Stream()) + Bits(pad, 0);
      assert Bits(0, buffer) == [];
    }
  }

  /** Moving six bits from the buffer into a letter keeps the stream. */
  lemma SixBits(out: string, count: nat, buffer: nat)
    ensures Pow2(6) == 64
    ensures Unpacked(out + [Letter(Mask(Shr(buffer, count), 6))]) + Bits(count, buffer)
            == Unpacked(out) + Bits(count + 6, buffer)
  {
    var v := Shr(buffer, count);
    SixtyFour();
    BitsSplit(6, count, buffer);
    BitsMask(6, v);
    LetterRoundTrip(Mask(v, 6));
    UnpackedOneMore(out, Letter(Mask(v, 6)));
    hide Bits, Unpacked, Letter, LetterValue;
  }

  lemma SixtyFour()
    ensures Pow2(6) == 64
  {
  }
}
