/** The prefix code of the FD format and its decoding. */
module FdTable {
  import opened Wrappers
  import opened BitPacking

  datatype Code = Code(symbol: int, width: nat, value: nat)

  const ENTRIES: nat := 103

  /** The code table, in the order in which the codes tile the 16-bit space from its top down. */
  function Entry(i: nat): Code
    requires i < ENTRIES
  {
    match i
    case 0 => Code(1, 4, 15)
    case 1 => Code(110, 8, 239)
    case 2 => Code(74, 8, 238)
    case 3 => Code(57, 7, 118)
    case 4 => Code(56, 7, 117)
    case 5 => Code(71, 8, 233)
    case 6 => Code(25, 8, 232)
    case 7 => Code(101, 5, 28)
    case 8 => Code(104, 7, 111)
    case 9 => Code(4, 7, 110)
    case 10 => Code(105, 6, 54)
    case 11 => Code(5, 7, 107)
    case 12 => Code(109, 7, 106)
    case 13 => Code(103, 9, 423)
    case 14 => Code(82, 9, 422)
    case 15 => Code(26, 8, 210)
    case 16 => Code(6, 7, 104)
    case 17 => Code(46, 6, 51)
    case 18 => Code(97, 6, 50)
    case 19 => Code(111, 6, 49)
    case 20 => Code(7, 7, 97)
    case 21 => Code(45, 7, 96)
    case 22 => Code(59, 5, 23)
    case 23 => Code(15, 7, 91)
    case 24 => Code(11, 8, 181)
    case 25 => Code(72, 8, 180)
    case 26 => Code(27, 8, 179)
    case 27 => Code(28, 8, 178)
    case 28 => Code(16, 7, 88)
    case 29 => Code(88, 10, 703)
    case 30 => Code(113, 11, 1405)
    case 31 => Code(89, 12, 2809)
    case 32 => Code(107, 13, 5617)
    case 33 => Code(90, 14, 11233)
    case 34 => Code(42, 15, 22465)
    case 35 => Code(64, 16, 44929)
    case 36 => Code(0, 16, 44928)
    case 37 => Code(81, 9, 350)
    case 38 => Code(29, 8, 174)
    case 39 => Code(118, 8, 173)
    case 40 => Code(30, 8, 172)
    case 41 => Code(98, 8, 171)
    case 42 => Code(12, 8, 170)
    case 43 => Code(99, 7, 84)
    case 44 => Code(117, 6, 41)
    case 45 => Code(112, 6, 40)
    case 46 => Code(102, 9, 319)
    case 47 => Code(68, 9, 318)
    case 48 => Code(31, 8, 158)
    case 49 => Code(100, 7, 78)
    case 50 => Code(84, 6, 38)
    case 51 => Code(55, 6, 37)
    case 52 => Code(17, 7, 73)
    case 53 => Code(8, 7, 72)
    case 54 => Code(9, 7, 71)
    case 55 => Code(77, 7, 70)
    case 56 => Code(18, 7, 69)
    case 57 => Code(65, 7, 68)
    case 58 => Code(48, 6, 33)
    case 59 => Code(116, 6, 32)
    case 60 => Code(10, 7, 63)
    case 61 => Code(121, 8, 125)
    case 62 => Code(78, 8, 124)
    case 63 => Code(80, 7, 61)
    case 64 => Code(69, 7, 60)
    case 65 => Code(119, 7, 59)
    case 66 => Code(13, 8, 117)
    case 67 => Code(79, 8, 116)
    case 68 => Code(19, 7, 57)
    case 69 => Code(67, 7, 56)
    case 70 => Code(114, 6, 27)
    case 71 => Code(83, 6, 26)
    case 72 => Code(115, 6, 25)
    case 73 => Code(14, 6, 24)
    case 74 => Code(122, 8, 95)
    case 75 => Code(95, 8, 94)
    case 76 => Code(76, 7, 46)
    case 77 => Code(24, 7, 45)
    case 78 => Code(37, 7, 44)
    case 79 => Code(50, 5, 10)
    case 80 => Code(51, 5, 9)
    case 81 => Code(108, 6, 17)
    case 82 => Code(22, 7, 33)
    case 83 => Code(120, 8, 65)
    case 84 => Code(66, 8, 64)
    case 85 => Code(21, 7, 31)
    case 86 => Code(106, 7, 30)
    case 87 => Code(47, 6, 14)
    case 88 => Code(53, 5, 6)
    case 89 => Code(49, 5, 5)
    case 90 => Code(86, 8, 39)
    case 91 => Code(85, 8, 38)
    case 92 => Code(23, 7, 18)
    case 93 => Code(75, 7, 17)
    case 94 => Code(20, 7, 16)
    case 95 => Code(2, 5, 3)
    case 96 => Code(73, 8, 23)
    case 97 => Code(43, 9, 45)
    case 98 => Code(87, 9, 44)
    case 99 => Code(70, 7, 10)
    case 100 => Code(3, 6, 4)
    case 101 => Code(52, 5, 1)
    case _ => Code(54, 5, 0)
  }

  // ---------------------------------------------------------------- the code tiles the 16-bit space

  /** 2^(16 - width), for the widths that occur. */
  function Span(width: nat): nat {
    if width == 4 then 4096 else if width == 5 then 2048 else if width == 6 then 1024 else if width == 7 then 512
    else if width == 8 then 256 else if width == 9 then 128 else if width == 10 then 64 else if width == 11 then 32
    else if width == 12 then 16 else if width == 13 then 8 else if width == 14 then 4 else if width == 15 then 2 else 1
  }

  /** The 16-bit strings that begin with the i-th code are those from Low(i) up to, not including, High(i). */
  function Low(i: nat): nat
    requires i < ENTRIES
  {
    Entry(i).value * Span(Entry(i).width)
  }

  function High(i: nat): nat
    requires i < ENTRIES
  {
    (Entry(i).value + 1) * Span(Entry(i).width)
  }

  lemma EntryWidths(i: nat)
    requires i < ENTRIES
    ensures 4 <= Entry(i).width <= 16 && 0 <= Entry(i).symbol < 128
  {
  }

  lemma FirstCodesAdjoin(i: nat)
    requires 1 <= i < 27
    ensures High(i) == Low(i - 1)
  {
  }

  lemma SecondCodesAdjoin(i: nat)
    requires 27 <= i < 53
    ensures High(i) == Low(i - 1)
  {
  }

  lemma ThirdCodesAdjoin(i: nat)
    requires 53 <= i < 79
    ensures High(i) == Low(i - 1)
  {
  }

  lemma LastCodesAdjoin(i: nat)
    requires 79 <= i < ENTRIES
    ensures High(i) == Low(i - 1)
  {
  }

  lemma CodesSpanAll()
    ensures High(0) == 65536 && Low(ENTRIES - 1) == 0
  {
  }

  /** Each code begins where the code listed before it ends, from 2^16 down to 0. */
  lemma CodesAdjoin(i: nat)
    requires i < ENTRIES
    ensures High(i) == if i == 0 then 65536 else Low(i - 1)
    ensures i == ENTRIES - 1 ==> Low(i) == 0
  {
    hide Low, High;
    CodesSpanAll();
    if 1 <= i < 27 { FirstCodesAdjoin(i); }
    if 27 <= i < 53 { SecondCodesAdjoin(i); }
    if 53 <= i < 79 { ThirdCodesAdjoin(i); }
    if 79 <= i { LastCodesAdjoin(i); }
  }

  lemma LowBelowHigh(i: nat)
    requires i < ENTRIES
    ensures Low(i) < High(i)
  {
    EntryWidths(i);
    hide Entry;
    var c := Entry(i);
    assert (c.value + 1) * Span(c.width) == c.value * Span(c.width) + Span(c.width);
  }

  lemma {:induction false} LowsDescend(i: nat, j: nat)
    requires i < j < ENTRIES
    ensures Low(i) >= High(j) > Low(j)
  {
    hide Low, High;
    CodesAdjoin(j);
    LowBelowHigh(j);
    if i < j - 1 { LowsDescend(i, j - 1); }
  }

  /** The first entry from i on whose interval begins no later than the window. */
  function LookupFrom(window: nat, i: nat): (found: nat)
    requires i < ENTRIES
    ensures i <= found < ENTRIES
    decreases ENTRIES - i
  {
    if i == ENTRIES - 1 || Low(i) <= window then i else LookupFrom(window, i + 1)
  }

  /** The code whose interval holds a 16-bit window. */
  function Lookup(window: nat): (found: nat)
    ensures found < ENTRIES
  {
    LookupFrom(window, 0)
  }

  lemma {:induction false} LookupFinds(window: nat, i: nat, j: nat)
    requires i <= j < ENTRIES && Low(j) <= window < High(j)
    ensures LookupFrom(window, i) == j
    decreases j - i
  {
    if i < j {
      LowsDescend(i, j);
      hide Low, High;
      LookupFinds(window, i + 1, j);
    }
  }

  /** Every 16-bit window belongs to exactly one code, and the lookup finds it. */
  lemma WindowsAreShared(window: nat, j: nat)
    requires window < 65536 && j < ENTRIES
    ensures Low(j) <= window < High(j) <==> j == Lookup(window)
  {
    hide Low, High;
    CodesAdjoin(0);
    CoveredFrom(window, 0);
    if Low(j) <= window < High(j) { LookupFinds(window, 0, j); }
  }

  lemma {:induction false} CoveredFrom(window: nat, i: nat)
    requires i < ENTRIES && window < High(i)
    ensures var found := LookupFrom(window, i); Low(found) <= window < High(found)
    decreases ENTRIES - i
  {
    hide Low, High;
    CodesAdjoin(i);
    if i < ENTRIES - 1 && window < Low(i) {
      CodesAdjoin(i + 1);
      CoveredFrom(window, i + 1);
    }
  }

  // ---------------------------------------------------------------- encoding and decoding symbols

  /** The entry of a symbol, searched from i on. */
  function FindFrom(symbol: int, i: nat): (found: Option<nat>)
    requires i <= ENTRIES
    ensures found.Some? ==> found.value < ENTRIES && Entry(found.value).symbol == symbol
    decreases ENTRIES - i
  {
    if i == ENTRIES then None
    else if Entry(i).symbol == symbol then Some(i)
    else FindFrom(symbol, i + 1)
  }

  function Find(symbol: int): (found: Option<nat>)
    ensures found.Some? ==> found.value < ENTRIES && Entry(found.value).symbol == symbol
  {
    FindFrom(symbol, 0)
  }

  predicate Known(c: char) { Find(c as int).Some? }

  lemma ZeroIsKnown()
    ensures Known(0 as char)
  {
    assert Entry(36).symbol == 0;
    FindReaches(0, 0, 36);
    hide Entry;
  }

  lemma {:induction false} FindReaches(symbol: int, i: nat, j: nat)
    requires i <= j < ENTRIES && Entry(j).symbol == symbol
    ensures FindFrom(symbol, i).Some?
    decreases j - i
  {
    hide Entry;
    if Entry(i).symbol != symbol { FindReaches(symbol, i + 1, j); }
  }

  function CodeOf(c: char): (code: Code)
    requires Known(c)
    ensures code.symbol == c as int
  {
    Entry(Find(c as int).value)
  }

  lemma CodeFits(i: nat)
    requires i < ENTRIES
    ensures Entry(i).width <= 16 && Entry(i).value < Pow2(Entry(i).width)
    ensures Span(Entry(i).width) == Pow2(16 - Entry(i).width)
  {
    EntryWidths(i);
    LowsBounded(i);
    hide Entry, Low, High;
    SpanIsPow2(Entry(i).width);
    Pow2Splits(Entry(i).width);
    WithinSpan(Entry(i).value, Span(Entry(i).width), Pow2(Entry(i).width));
  }

  lemma LowsBounded(i: nat)
    requires i < ENTRIES
    ensures Entry(i).value * Span(Entry(i).width) < 65536
  {
    if i > 0 { LowsDescend(0, i); }
    CodesAdjoin(0);
    LowBelowHigh(0);
    hide Entry;
  }

  lemma WithinSpan(value: nat, span: nat, size: nat)
    requires value * span < 65536 && size * span == 65536 && span > 0
    ensures value < size
  {
    assert value >= size ==> value * span >= size * span;
  }

  lemma SpanIsPow2(width: nat)
    requires 4 <= width <= 16
    ensures Span(width) == Pow2(16 - width)
  {
    assert Pow2(0) == 1 && Pow2(1) == 2 && Pow2(2) == 4 && Pow2(3) == 8 && Pow2(4) == 16;
    assert Pow2(5) == 32 && Pow2(6) == 64 && Pow2(7) == 128 && Pow2(8) == 256;
    assert Pow2(9) == 512 && Pow2(10) == 1024 && Pow2(11) == 2048 && Pow2(12) == 4096;
  }

  lemma Pow2Splits(width: nat)
    requires 4 <= width <= 16
    ensures Pow2(width) * Span(width) == 65536
  {
    assert Pow2(4) == 16 && Pow2(5) == 32 && Pow2(6) == 64 && Pow2(7) == 128 && Pow2(8) == 256;
    assert Pow2(9) == 512 && Pow2(10) == 1024 && Pow2(11) == 2048 && Pow2(12) == 4096;
    assert Pow2(13) == 8192 && Pow2(14) == 16384 && Pow2(15) == 32768 && Pow2(16) == 65536;
  }

  function CodeBits(c: char): seq<bool>
    requires Known(c)
  {
    Bits(CodeOf(c).width, CodeOf(c).value)
  }

  function Encoded(text: string): seq<bool>
    requires forall i :: 0 <= i < |text| ==> Known(text[i])
  {
    if text == [] then [] else CodeBits(text[0]) + Encoded(text[1..])
  }

  /** Reads symbols until the code of symbol 0. */
  function Decoded(bits: seq<bool>): Option<string>
    decreases |bits|
  {
    var code := Entry(Lookup(Peek(bits, 16)));
    if code.width > |bits| || code.width == 0 || !(0 <= code.symbol < 128) then None
    else if code.symbol == 0 then Some([])
    else
      match Decoded(bits[code.width..])
      case None => None
      case Some(rest) => Some([code.symbol as char] + rest)
  }

  /** Prefix-freeness at work: whatever follows, the code of a symbol is recognised. */
  lemma CodeIsRecognised(c: char, rest: seq<bool>)
    requires Known(c)
    ensures Entry(Lookup(Peek(CodeBits(c) + rest, 16))) == CodeOf(c)
  {
    hide Entry, Pow2, Find, LookupFrom, Span;
    var i := Find(c as int).value;
    var code := Entry(i);
    CodeFits(i);
    PeekPrefix(code.width, code.value, rest, 16);
    assert Bits(code.width, code.value) == CodeBits(c);
    LookupFinds(Peek(CodeBits(c) + rest, 16), 0, i);
  }

  lemma DecodedStep(c: char, rest: seq<bool>)
    requires Known(c)
    ensures Decoded(CodeBits(c) + rest)
            == if c as int == 0 then Some([])
               else match Decoded(rest)
                    case None => None
                    case Some(s) => Some([c] + s)
  {
    CodeIsRecognised(c, rest);
    EntryWidths(Find(c as int).value);
    hide Entry, Find, Lookup, Peek, Bits;
    var all := CodeBits(c) + rest;
    assert all[CodeOf(c).width..] == rest;
  }

  /** A text up to its first zero byte. */
  function UpToZero(text: string): string {
    if text == [] || text[0] as int == 0 then [] else [text[0]] + UpToZero(text[1..])
  }

  /** Decoding gives back the text up to its first zero byte, whatever follows the closing zero code. */
  lemma {:induction false} DecodedInverts(text: string, tail: seq<bool>)
    requires forall i :: 0 <= i < |text| ==> Known(text[i])
    requires Known(0 as char)
    ensures Decoded(Encoded(text) + (CodeBits(0 as char) + tail)) == Some(UpToZero(text))
  {
    hide Known, CodeBits, Decoded;
    var close := CodeBits(0 as char) + tail;
    if text == [] {
      assert Encoded(text) + close == close;
      DecodedStep(0 as char, tail);
    } else {
      var rest := Encoded(text[1..]);
      Associative(CodeBits(text[0]), rest, close);
      DecodedStep(text[0], rest + close);
      DecodedInverts(text[1..], tail);
    }
  }
}
