/**
 The FD fingerprint of one string of joined fields: token substitution, prefix codes packed into
 letters of six bits, and a CRC suffix. Bytes are chars below 256.
 */
module FdCodec {
  import opened Wrappers
  import opened BitPacking
  import opened FdTable
  import Crc16

  const TOKENS: nat := 31

  function Token(i: nat): (token: string)
    requires i < TOKENS
    ensures token != []
  {
    match i
    case 0 => "%20" case 1 => ";;;" case 2 => "%3B" case 3 => "%2C" case 4 => "und" case 5 => "fin"
    case 6 => "ed;" case 7 => "%28" case 8 => "%29" case 9 => "%3A" case 10 => "/53" case 11 => "ike"
    case 12 => "Web" case 13 => "0;" case 14 => ".0" case 15 => "e;" case 16 => "on" case 17 => "il"
    case 18 => "ck" case 19 => "01" case 20 => "in" case 21 => "Mo" case 22 => "fa" case 23 => "00"
    case 24 => "32" case 25 => "la" case 26 => ".1" case 27 => "ri" case 28 => "it" case 29 => "%u"
    case _ => "le"
  }

  // ---------------------------------------------------------------- token substitution

  /** All non-overlapping occurrences, from the left. */
  function ReplaceAll(s: string, token: string, mark: char): string
    requires token != []
    decreases |s|
  {
    if s == [] then []
    else if token <= s then [mark] + ReplaceAll(s[|token|..], token, mark)
    else [s[0]] + ReplaceAll(s[1..], token, mark)
  }

  function Mark(i: nat): char
    requires i < TOKENS
  {
    (i + 1) as char
  }

  function CompressedTo(raw: string, n: nat): string
    requires n <= TOKENS
  {
    if n == 0 then raw else ReplaceAll(CompressedTo(raw, n - 1), Token(n - 1), Mark(n - 1))
  }

  function Compressed(raw: string): string { CompressedTo(raw, TOKENS) }

  /** What the loop leaves: no token is left, and the text is shorter exactly when it had one. */
  method Compress(raw: string) returns (encoded: string)
    ensures encoded == Compressed(raw)
    ensures forall i, k :: 0 <= i < TOKENS ==> !OccursAt(encoded, Token(i), k)
    ensures |encoded| < |raw| <==> HasToken(raw, TOKENS)
    ensures Expanded(encoded) == raw <==> Plain(raw)
  {
    NoTokenIsLeft(raw);
    ShorterWithAToken(raw);
    ExpansionUndoesCompression(raw);
    hide Token, Mark, OccursAt, HasToken, Expanded, Plain, ReplaceAll;
    encoded := raw;
    for i := 0 to TOKENS
      invariant encoded == CompressedTo(raw, i)
    {
      encoded := ReplaceAll(encoded, Token(i), Mark(i));
    }
  }

  function ExpandedChar(c: char): string {
    if 1 <= c as int <= TOKENS then Token(c as int - 1) else [c]
  }

  /** Every byte from 1 to 31 stands for its token. */
  function Expanded(s: string): string {
    if s == [] then [] else ExpandedChar(s[0]) + Expanded(s[1..])
  }

  predicate IsControl(c: char) { 1 <= c as int <= TOKENS }

  predicate Plain(s: string) {
    forall i :: 0 <= i < |s| ==> !IsControl(s[i])
  }

  lemma TokensArePlain(i: nat)
    requires i < TOKENS
    ensures Plain(Token(i)) && forall k :: 0 <= k < |Token(i)| ==> Token(i)[k] as int != 0
  {
  }

  lemma {:induction false} PlainExpandsToItself(s: string)
    requires Plain(s)
    ensures Expanded(s) == s
  {
    if s != [] {
      assert !IsControl(s[0]);
      PlainExpandsToItself(s[1..]);
    }
  }

  lemma {:induction false} ExpandedConcat(a: string, b: string)
    ensures Expanded(a + b) == Expanded(a) + Expanded(b)
  {
    hide ExpandedChar, Expanded;
    if a == [] {
      NothingExpanded();
      assert a + b == b;
    } else {
      ExpandedConcat(a[1..], b);
      ExpandedStep(a[0], a[1..], b);
      assert a == [a[0]] + a[1..];
    }
  }

  lemma NothingExpanded()
    ensures Expanded("") == ""
  {
  }

  lemma ExpandedStep(c: char, a: string, b: string)
    requires Expanded(a + b) == Expanded(a) + Expanded(b)
    ensures Expanded([c] + a + b) == Expanded([c] + a) + Expanded(b)
  {
    hide ExpandedChar, Expanded;
    ExpandedOneMore(c, a);
    ExpandedOneMore(c, a + b);
    assert [c] + a + b == [c] + (a + b);
  }

  lemma MarkExpands(i: nat)
    requires i < TOKENS
    ensures ExpandedChar(Mark(i)) == Token(i)
  {
    hide Token;
  }

  /** Substituting a token leaves the expansion as it was. */
  lemma {:induction false} ReplaceKeepsExpansion(s: string, i: nat)
    requires i < TOKENS
    ensures Expanded(ReplaceAll(s, Token(i), Mark(i))) == Expanded(s)
    decreases |s|
  {
    var token, mark := Token(i), Mark(i);
    MarkExpands(i);
    hide Token, ExpandedChar, Expanded, Mark;
    if s == [] {
    } else if token <= s {
      var rest := s[|token|..];
      ReplaceKeepsExpansion(rest, i);
      ExpandedOneMore(mark, ReplaceAll(rest, token, mark));
      ExpandedToken(i, rest);
      assert s == token + rest;
    } else {
      ReplaceKeepsExpansion(s[1..], i);
      ExpandedOneMore(s[0], ReplaceAll(s[1..], token, mark));
    }
  }

  lemma ExpandedOneMore(c: char, s: string)
    ensures Expanded([c] + s) == ExpandedChar(c) + Expanded(s)
  {
    assert ([c] + s)[1..] == s;
  }

  lemma ExpandedToken(i: nat, rest: string)
    requires i < TOKENS
    ensures Expanded(Token(i) + rest) == Token(i) + Expanded(rest)
  {
    TokensArePlain(i);
    hide Token, Expanded;
    ExpandedConcat(Token(i), rest);
    PlainExpandsToItself(Token(i));
  }

  lemma {:induction false} CompressionKeepsExpansion(raw: string, n: nat)
    requires n <= TOKENS
    ensures Expanded(CompressedTo(raw, n)) == Expanded(raw)
  {
    if n > 0 {
      CompressionKeepsExpansion(raw, n - 1);
      ReplaceKeepsExpansion(CompressedTo(raw, n - 1), n - 1);
    }
  }

  lemma {:induction false} ExpansionIsPlain(s: string)
    ensures Plain(Expanded(s))
  {
    if s != [] {
      ExpansionIsPlain(s[1..]);
      if IsControl(s[0]) { TokensArePlain(s[0] as int - 1); }
      hide Token;
    }
  }

  /** Expansion undoes compression exactly for the texts without bytes 1 to 31. */
  lemma ExpansionUndoesCompression(raw: string)
    ensures Expanded(Compressed(raw)) == raw <==> Plain(raw)
  {
    CompressionKeepsExpansion(raw, TOKENS);
    ExpansionIsPlain(raw);
    if Plain(raw) { PlainExpandsToItself(raw); }
  }

  // ---------------------------------------------------------------- what substitution means

  predicate OccursAt(s: string, u: string, k: int) {
    0 <= k <= |s| && u <= s[k..]
  }

  /** The string with every `mark` written out as the token. */
  function WrittenOut(s: string, mark: char, token: string): string {
    if s == [] then []
    else (if s[0] == mark then token else [s[0]]) + WrittenOut(s[1..], mark, token)
  }

  function Marks(s: string, mark: char): nat {
    if s == [] then 0 else (if s[0] == mark then 1 else 0) + Marks(s[1..], mark)
  }

  lemma OccursLater(c: char, s: string, u: string, k: nat)
    ensures OccursAt([c] + s, u, k + 1) <==> OccursAt(s, u, k)
  {
    if k <= |s| { assert ([c] + s)[k + 1..] == s[k..]; }
  }

  /** What occurs in the result without the mark occurred in the text. */
  lemma {:induction false} NothingNew(s: string, token: string, mark: char, u: string, k: nat)
    requires token != [] && u != [] && mark !in u
    requires OccursAt(ReplaceAll(s, token, mark), u, k)
    ensures exists j: nat :: OccursAt(s, u, j)
    decreases |s|
  {
    if k == 0 {
      BeginsWithTheText(s, token, mark, u);
      assert OccursAt(s, u, 0);
    } else if s != [] {
      var n := if token <= s then |token| else 1;
      var rest := ReplaceAll(s[n..], token, mark);
      OccursLater(if token <= s then mark else s[0], rest, u, k - 1);
      NothingNew(s[n..], token, mark, u, k - 1);
      var j: nat :| OccursAt(s[n..], u, j);
      assert s[n..][j..] == s[n + j..];
      assert OccursAt(s, u, n + j);
    }
  }

  lemma {:induction false} BeginsWithTheText(s: string, token: string, mark: char, u: string)
    requires token != [] && mark !in u && u <= ReplaceAll(s, token, mark)
    ensures u <= s
    decreases |s|
  {
    if u != [] && s != [] {
      var r := ReplaceAll(s, token, mark);
      assert u[0] == r[0] && u[0] in u;
      assert u[1..] <= r[1..];
      BeginsWithTheText(s[1..], token, mark, u[1..]);
    }
  }

  /** No occurrence of the token is left. */
  lemma {:induction false} NoneLeft(s: string, token: string, mark: char, k: nat)
    requires token != [] && mark !in token
    ensures !OccursAt(ReplaceAll(s, token, mark), token, k)
    decreases |s|
  {
    assert token[0] in token;
    if k == 0 && OccursAt(ReplaceAll(s, token, mark), token, k) {
      BeginsWithTheText(s, token, mark, token);
      assert false;
    } else if OccursAt(ReplaceAll(s, token, mark), token, k) {
      var n := if token <= s then |token| else 1;
      OccursLater(if token <= s then mark else s[0], ReplaceAll(s[n..], token, mark), token, k - 1);
      NoneLeft(s[n..], token, mark, k - 1);
    }
  }

  /** Writing the token back for each mark gives the text, and each mark saves the rest of its token. */
  lemma {:induction false} MarksStandForTokens(s: string, token: string, mark: char)
    requires token != [] && mark !in s
    ensures var r := ReplaceAll(s, token, mark);
            && WrittenOut(r, mark, token) == s
            && |r| == |s| - (|token| - 1) * Marks(r, mark)
    decreases |s|
  {
    WrittenOutLength(ReplaceAll(s, token, mark), mark, token);
    hide Marks;
    if s != [] {
      var n := if token <= s then |token| else 1;
      assert mark !in s[n..];
      MarksStandForTokens(s[n..], token, mark);
      assert s[0] != mark;
      assert ReplaceAll(s, token, mark)[1..] == ReplaceAll(s[n..], token, mark);
      assert token <= s ==> s == token + s[n..];
    }
  }

  lemma {:induction false} WrittenOutLength(s: string, mark: char, token: string)
    ensures |WrittenOut(s, mark, token)| == |s| + (|token| - 1) * Marks(s, mark)
  {
    if s != [] {
      WrittenOutLength(s[1..], mark, token);
      Distributes(|token| - 1, Marks(s[1..], mark));
    }
  }

  lemma Distributes(a: int, b: int)
    ensures a * (1 + b) == a + a * b && a * (0 + b) == a * b
  {
  }

  /** Only the leftmost occurrences are replaced: none begins before one that was, and after the one replaced before. */
  lemma {:induction false} LeftmostFirst(s: string, token: string, mark: char, i: nat, k: nat)
    requires token != [] && mark !in s
    requires i < k < |ReplaceAll(s, token, mark)| && ReplaceAll(s, token, mark)[k] == mark
    requires mark !in ReplaceAll(s, token, mark)[i..k]
    ensures !(token <= ReplaceAll(s, token, mark)[i..k] + token)
    decreases |s|
  {
    var r := ReplaceAll(s, token, mark);
    assert r[i] == r[i..k][0];
    if i == 0 {
      assert r[0] != mark;
      TextBeforeMark(s, token, mark, k);
    } else {
      var n := if token <= s then |token| else 1;
      assert r[1..] == ReplaceAll(s[n..], token, mark);
      assert r[1..][i - 1..k - 1] == r[i..k];
      LeftmostFirst(s[n..], token, mark, i - 1, k - 1);
    }
  }

  lemma {:induction false} TextBeforeMark(s: string, token: string, mark: char, k: nat)
    requires token != [] && mark !in s
    requires k < |ReplaceAll(s, token, mark)| && ReplaceAll(s, token, mark)[k] == mark
    requires mark !in ReplaceAll(s, token, mark)[..k]
    ensures ReplaceAll(s, token, mark)[..k] + token <= s
    decreases |s|
  {
    var r := ReplaceAll(s, token, mark);
    if k > 0 {
      assert r[0] == r[..k][0];
      assert r[1..] == ReplaceAll(s[1..], token, mark);
      assert r[1..][..k - 1] == r[..k][1..];
      TextBeforeMark(s[1..], token, mark, k - 1);
      assert r[..k] + token == [s[0]] + (r[1..][..k - 1] + token);
    }
  }

  /** A token of two or more letters makes the text shorter if it occurs; otherwise nothing changes. */
  lemma {:induction false} ShorterIfItOccurs(s: string, token: string, mark: char)
    requires |token| >= 2
    ensures |ReplaceAll(s, token, mark)| <= |s|
    ensures (exists k :: OccursAt(s, token, k)) ==> |ReplaceAll(s, token, mark)| < |s|
    ensures (forall k :: !OccursAt(s, token, k)) ==> ReplaceAll(s, token, mark) == s
    decreases |s|
  {
    if s != [] {
      var n := if token <= s then |token| else 1;
      ShorterIfItOccurs(s[n..], token, mark);
      if token <= s {
        assert OccursAt(s, token, 0);
      } else {
        assert [s[0]] + s[1..] == s;
        forall k | OccursAt(s, token, k)
          ensures OccursAt(s[1..], token, k - 1)
        {
          OccursLater(s[0], s[1..], token, k - 1);
        }
        forall k | OccursAt(s[1..], token, k)
          ensures OccursAt(s, token, k + 1)
        {
          OccursLater(s[0], s[1..], token, k);
        }
      }
    }
  }

  lemma TokenIsUsable(i: nat)
    requires i < TOKENS
    ensures |Token(i)| >= 2 && forall j :: 0 <= j < TOKENS ==> Mark(j) !in Token(i)
  {
    TokensArePlain(i);
    assert forall j :: 0 <= j < TOKENS ==> IsControl(Mark(j));
  }

  /** After step n no occurrence of its token is left, and no later step makes one. */
  lemma {:induction false} NoTokenUpTo(raw: string, n: nat, i: nat, k: nat)
    requires i < n <= TOKENS
    ensures !OccursAt(CompressedTo(raw, n), Token(i), k)
  {
    TokenIsUsable(i);
    var before := CompressedTo(raw, n - 1);
    hide Token, Mark, OccursAt, ReplaceAll;
    if i == n - 1 {
      NoneLeft(before, Token(i), Mark(i), k);
    } else if OccursAt(CompressedTo(raw, n), Token(i), k) {
      NothingNew(before, Token(n - 1), Mark(n - 1), Token(i), k);
      var j: nat :| OccursAt(before, Token(i), j);
      NoTokenUpTo(raw, n - 1, i, j);
    }
  }

  /** The compressed text contains none of the 31 tokens. */
  lemma NoTokenIsLeft(raw: string)
    ensures forall i, k :: 0 <= i < TOKENS ==> !OccursAt(Compressed(raw), Token(i), k)
  {
    hide Token, CompressedTo;
    forall i, k | 0 <= i < TOKENS && 0 <= k
      ensures !OccursAt(Compressed(raw), Token(i), k)
    {
      NoTokenUpTo(raw, TOKENS, i, k);
    }
  }

  /** One of the first n tokens occurs in the text. */
  ghost predicate HasToken(s: string, n: nat)
    requires n <= TOKENS
  {
    exists i, k :: 0 <= i < n && OccursAt(s, Token(i), k)
  }

  lemma HasTokenOneMore(s: string, n: nat)
    requires n < TOKENS
    ensures HasToken(s, n + 1) <==> HasToken(s, n) || exists k :: OccursAt(s, Token(n), k)
  {
    hide Token, OccursAt;
    if HasToken(s, n + 1) && !HasToken(s, n) {
      var i, k :| 0 <= i < n + 1 && OccursAt(s, Token(i), k);
      assert i == n;
    }
  }

  lemma {:induction false} ShorterUpTo(raw: string, n: nat)
    requires n <= TOKENS
    ensures |CompressedTo(raw, n)| <= |raw|
    ensures |CompressedTo(raw, n)| < |raw| <==> HasToken(raw, n)
    ensures |CompressedTo(raw, n)| == |raw| ==> CompressedTo(raw, n) == raw
  {
    if n > 0 {
      ShorterUpTo(raw, n - 1);
      TokenIsUsable(n - 1);
      HasTokenOneMore(raw, n - 1);
      hide Token, Mark, OccursAt, ReplaceAll, HasToken;
      ShorterIfItOccurs(CompressedTo(raw, n - 1), Token(n - 1), Mark(n - 1));
    }
  }

  /** Compression shortens a text exactly when one of the tokens occurs in it, and changes no other. */
  lemma ShorterWithAToken(raw: string)
    ensures |Compressed(raw)| < |raw| <==> HasToken(raw, TOKENS)
    ensures |Compressed(raw)| >= |raw| ==> Compressed(raw) == raw
  {
    ShorterUpTo(raw, TOKENS);
    hide CompressedTo, HasToken;
  }

  // ---------------------------------------------------------------- the fingerprint

  predicate Encodable(s: string) {
    forall i :: 0 <= i < |s| ==> Known(s[i])
  }

  function LengthLow(length: nat): nat { length % 8 * 8 }

  function LengthHigh(length: nat): nat { length / 8 % 8 * 8 + 1 }

  /** Two letters with the length of the compressed text modulo 64. */
  function HeaderBits(length: nat): (bits: seq<bool>)
    ensures |bits| == 12
  {
    Bits(6, LengthLow(length)) + Bits(6, LengthHigh(length))
  }

  function Close(): seq<bool> {
    ZeroIsKnown();
    CodeBits(0 as char)
  }

  function Payload(s: string): seq<bool>
    requires Encodable(s)
  {
    HeaderBits(|s|) + Encoded(s) + Close()
  }

  /** The checksum in three letters of six bits. */
  function Suffix(crc: bv16): string {
    var n := crc as nat;
    [Letter(n / 4096 % 64), Letter(n / 64 % 64), Letter(n % 64)]
  }

  /** The payload, filled up to whole letters, and the checksum of the raw text. */
  ghost predicate IsFingerprint(raw: string, r: string) {
    var s := Compressed(raw);
    if Encodable(s) then
      && |r| >= 3 && r[|r| - 3..] == Suffix(Crc16.Checksum(raw))
      && exists pad: seq<bool> :: Unpacked(r[..|r| - 3]) == Payload(s) + pad && |pad| < 6
    else r == raw
  }

  lemma EncodedOneMore(s: string, c: char)
    requires Encodable(s) && Known(c)
    ensures Encodable(s + [c]) && Encoded(s + [c]) == Encoded(s) + CodeBits(c)
  {
    hide Known, CodeBits;
    if s == [] {
      assert s + [c] == [c] && [c][1..] == [];
      assert Encoded([c]) == CodeBits(c) + Encoded([]);
    } else {
      EncodedOneMore(s[1..], c);
      assert (s + [c])[1..] == s[1..] + [c];
      Associative(CodeBits(s[0]), Encoded(s[1..]), CodeBits(c));
    }
  }

  lemma SmallValues(n: nat)
    ensures LengthLow(n) < Pow2(6) && LengthHigh(n) < Pow2(6)
  {
    SixtyFour();
  }

  lemma LengthReadBack(n: nat)
    ensures LengthLow(n) / 8 + LengthHigh(n) / 8 * 8 == n % 64
    ensures LengthLow(n) % 8 == 0 && LengthHigh(n) % 8 == 1
  {
    assert LengthLow(n) / 8 == n % 8;
    assert LengthHigh(n) / 8 == n / 8 % 8;
  }

  method PackHeader(length: nat, w: BitWriter)
    requires w.Valid() && w.Stream() == []
    modifies w
    ensures w.Valid() && w.Stream() == HeaderBits(length)
  {
    SmallValues(length);
    hide Bits, Pow2, Unpacked, LengthLow, LengthHigh;
    w.Push(6, LengthLow(length));
    w.Push(6, LengthHigh(length));
    assert [] + Bits(6, LengthLow(length)) + Bits(6, LengthHigh(length)) == HeaderBits(length);
  }

  method PackByte(c: char, w: BitWriter)
    requires w.Valid() && Known(c)
    modifies w
    ensures w.Valid() && w.Stream() == old(w.Stream()) + CodeBits(c)
  {
    CodeOfFits(c);
    hide *;
    var code := CodeOf(c);
    w.Push(code.width, code.value);
  }

  lemma EncodedPrefix(header: seq<bool>, s: string, i: nat)
    requires i < |s| && Encodable(s[..i]) && Known(s[i])
    ensures Encodable(s[..i + 1])
    ensures header + Encoded(s[..i]) + CodeBits(s[i]) == header + Encoded(s[..i + 1])
  {
    hide CodeBits, Known, Encoded;
    assert s[..i] + [s[i]] == s[..i + 1];
    EncodedOneMore(s[..i], s[i]);
    Associative(header, Encoded(s[..i]), CodeBits(s[i]));
  }

  /** Pushes header, codes and the closing code; stops at the first byte that is not in the table. */
  method Pack(encoded: string, w: BitWriter) returns (known: bool)
    requires w.Valid() && w.Stream() == []
    modifies w
    ensures w.Valid() && known == Encodable(encoded)
    ensures known ==> w.Stream() == Payload(encoded)
  {
    PackHeader(|encoded|, w);
    hide Known, Encoded, CodeBits, HeaderBits, BitWriter.Stream, BitWriter.Valid;
    EncodedNone();
    for i := 0 to |encoded|
      invariant w.Valid() && Encodable(encoded[..i])
      invariant w.Stream() == HeaderBits(|encoded|) + Encoded(encoded[..i])
    {
      if !Known(encoded[i]) { return false; }
      EncodedPrefix(HeaderBits(|encoded|), encoded, i);
      PackByte(encoded[i], w);
    }
    assert encoded[..|encoded|] == encoded;
    ZeroIsKnown();
    PackByte(0 as char, w);
    known := true;
  }

  method AccountFingerprint(raw: string) returns (r: string)
    ensures IsFingerprint(raw, r)
    ensures !Encodable(Compressed(raw)) ==> r == raw
  {
    hide Known, Compressed, Bits, Unpacked, Payload, Suffix, Encodable;
    var encoded := Compress(raw);
    var w := new BitWriter();
    var known := Pack(encoded, w);
    if !known { return raw; }
    w.Pad();
    var crc := Crc16.Compute(raw);
    r := w.out + Suffix(crc);
    SuffixLength(crc);
    assert r[..|r| - 3] == w.out;
  }

  lemma SuffixLength(crc: bv16)
    ensures |Suffix(crc)| == 3
  {
  }

  lemma EncodedNone()
    ensures Encoded([]) == []
  {
  }

  lemma CodeOfFits(c: char)
    requires Known(c)
    ensures CodeOf(c).width <= 16 && CodeOf(c).value < Pow2(CodeOf(c).width)
    ensures CodeBits(c) == Bits(CodeOf(c).width, CodeOf(c).value)
  {
    CodeFits(Find(c as int).value);
    hide Entry, Find, Pow2, Span;
  }

  // ---------------------------------------------------------------- reading a fingerprint back

  /** Drops the checksum, unpacks, skips the header, reads symbols up to the closing zero and expands the tokens. */
  function DecodedFingerprint(r: string): Option<string> {
    if |r| < 3 then None
    else
      var bits := Unpacked(r[..|r| - 3]);
      if |bits| < 12 then None
      else
        match Decoded(bits[12..])
        case None => None
        case Some(s) => Some(Expanded(s))
  }

  predicate NoLowBytes(s: string) {
    forall i :: 0 <= i < |s| ==> s[i] as int > 31
  }

  predicate ZeroFree(s: string) {
    forall i :: 0 <= i < |s| ==> s[i] as int != 0
  }

  lemma {:induction false} ReplaceKeepsZeroFree(s: string, token: string, mark: char)
    requires ZeroFree(s) && token != [] && mark as int != 0
    ensures ZeroFree(ReplaceAll(s, token, mark))
    decreases |s|
  {
    if s != [] {
      var n := if token <= s then |token| else 1;
      ReplaceKeepsZeroFree(s[n..], token, mark);
    }
  }

  lemma {:induction false} CompressionKeepsZeroFree(raw: string, n: nat)
    requires ZeroFree(raw) && n <= TOKENS
    ensures ZeroFree(CompressedTo(raw, n))
  {
    if n > 0 {
      CompressionKeepsZeroFree(raw, n - 1);
      ReplaceKeepsZeroFree(CompressedTo(raw, n - 1), Token(n - 1), Mark(n - 1));
      hide Token, ReplaceAll;
    }
  }

  lemma {:induction false} UpToZeroIsAll(s: string)
    requires ZeroFree(s)
    ensures UpToZero(s) == s
  {
    if s != [] { UpToZeroIsAll(s[1..]); }
  }

  lemma {:induction false} UpToZeroIsZeroFree(s: string)
    ensures ZeroFree(UpToZero(s))
  {
    if s != [] && s[0] as int != 0 { UpToZeroIsZeroFree(s[1..]); }
  }

  lemma {:induction false} ExpansionKeepsZeroFree(s: string)
    requires ZeroFree(s)
    ensures ZeroFree(Expanded(s))
  {
    if s != [] {
      ExpansionKeepsZeroFree(s[1..]);
      if IsControl(s[0]) { TokensArePlain(s[0] as int - 1); }
      hide Token;
    }
  }

  lemma DecodesToExpansion(raw: string, r: string)
    requires Encodable(Compressed(raw)) && IsFingerprint(raw, r)
    ensures DecodedFingerprint(r) == Some(Expanded(UpToZero(Compressed(raw))))
  {
    var s := Compressed(raw);
    ZeroIsKnown();
    hide Compressed, Known, Expanded, UpToZero, CodeBits, Encoded, Decoded, Unpacked, Suffix, HeaderBits;
    var bits := Unpacked(r[..|r| - 3]);
    var pad: seq<bool> :| bits == Payload(s) + pad && |pad| < 6;
    DecodedInverts(s, pad);
    assert bits[12..] == Encoded(s) + (Close() + pad);
  }

  /**
   Reading back gives the raw text exactly when it has no bytes 0 to 31, provided that every byte of
   the compressed text is in the table.
   */
  lemma FingerprintRoundTrip(raw: string, r: string)
    requires Encodable(Compressed(raw)) && IsFingerprint(raw, r)
    ensures DecodedFingerprint(r) == Some(raw) <==> NoLowBytes(raw)
  {
    DecodesToExpansion(raw, r);
    var s := Compressed(raw);
    if NoLowBytes(raw) {
      ExpansionUndoesCompression(raw);
      CompressionKeepsZeroFree(raw, TOKENS);
      UpToZeroIsAll(s);
    }
    UpToZeroIsZeroFree(s);
    ExpansionKeepsZeroFree(UpToZero(s));
    ExpansionIsPlain(UpToZero(s));
    hide Expanded, UpToZero, Compressed, CompressedTo, DecodedFingerprint, IsFingerprint, Encodable;
  }

  /** The header gives the length of the compressed text modulo 64; the rest of its two letters is fixed. */
  lemma HeaderGivesLength(raw: string, r: string)
    requires Encodable(Compressed(raw)) && IsFingerprint(raw, r)
    ensures var bits := Unpacked(r[..|r| - 3]);
            && |bits| >= 12 && Peek(bits, 6) / 8 + Peek(bits[6..], 6) / 8 * 8 == |Compressed(raw)| % 64
            && Peek(bits, 6) % 8 == 0 && Peek(bits[6..], 6) % 8 == 1
  {
    hide Compressed, Known, CodeBits, Encoded, Unpacked, Bits, Pow2, Peek, Letter, LetterValue, Suffix;
    var n := |Compressed(raw)|;
    var bits := Unpacked(r[..|r| - 3]);
    var pad: seq<bool> :| bits == Payload(Compressed(raw)) + pad && |pad| < 6;
    HeaderReadBack(n, bits, Encoded(Compressed(raw)) + Close() + pad);
  }

  lemma HeaderReadBack(n: nat, bits: seq<bool>, rest: seq<bool>)
    requires bits == HeaderBits(n) + rest
    ensures Peek(bits, 6) / 8 + Peek(bits[6..], 6) / 8 * 8 == n % 64
    ensures Peek(bits, 6) % 8 == 0 && Peek(bits[6..], 6) % 8 == 1
  {
    hide Bits, Peek, Pow2, LengthLow, LengthHigh;
    var first, second := LengthLow(n), LengthHigh(n);
    SmallValues(n);
    LengthReadBack(n);
    PeekSix(first, Bits(6, second) + rest);
    PeekSix(second, rest);
    assert bits == Bits(6, first) + (Bits(6, second) + rest);
    assert bits[6..] == Bits(6, second) + rest;
  }

  /** The last three letters give the 16 bits of the checksum. */
  lemma SuffixGivesChecksum(raw: string, r: string)
    requires Encodable(Compressed(raw)) && IsFingerprint(raw, r)
    ensures LetterValue(r[|r| - 3]) * 4096 + LetterValue(r[|r| - 2]) * 64 + LetterValue(r[|r| - 1])
            == Crc16.Checksum(raw) as nat
  {
    hide Compressed, Known, Encoded, Unpacked, Payload, LetterValue;
    var crc := Crc16.Checksum(raw);
    var suffix := r[|r| - 3..];
    assert r[|r| - 3] == suffix[0] && r[|r| - 2] == suffix[1] && r[|r| - 1] == suffix[2];
    SuffixValue(crc);
    hide Suffix;
  }

  lemma SuffixValue(crc: bv16)
    ensures var s := Suffix(crc);
            LetterValue(s[0]) * 4096 + LetterValue(s[1]) * 64 + LetterValue(s[2]) == crc as nat
  {
    var n := crc as nat;
    var high, middle, low := n / 4096 % 64, n / 64 % 64, n % 64;
    LetterRoundTrip(high);
    LetterRoundTrip(middle);
    LetterRoundTrip(low);
    Digits(n);
    hide Letter, LetterValue;
  }

  lemma Digits(n: nat)
    requires n < 65536
    ensures n / 4096 % 64 * 4096 + n / 64 % 64 * 64 + n % 64 == n
  {
    assert n / 4096 == n / 64 / 64;
  }

  lemma PeekSix(v: nat, rest: seq<bool>)
    requires v < Pow2(6)
    ensures Peek(Bits(6, v) + rest, 6) == v
  {
    PeekPrefix(6, v, rest, 6);
    assert Pow2(0) == 1;
    hide Peek, Bits;
  }
}
