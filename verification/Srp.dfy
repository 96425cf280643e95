/**
 SRP-6a as the client computes it, for any group and any hash: agreement with the server side of
 RFC 5054 and the errors of a bad challenge.
 */
module Srp {
  import opened Wrappers

  type Byte = x: int | 0 <= x < 256

  /** A modulus, a generator, and the number of bytes to which values are padded. */
  datatype Group = Group(n: nat, g: nat, size: nat)

  predicate ValidGroup(group: Group) {
    group.n > 1 && group.n <= Pow(256, group.size)
  }

  /** The hash is a parameter; nothing is assumed of it. */
  type Hash = seq<Byte> -> seq<Byte>

  // ---------------------------------------------------------------- powers and congruence

  function Pow(b: nat, e: nat): nat {
    if e == 0 then 1 else b * Pow(b, e - 1)
  }

  function ModExp(b: nat, e: nat, n: nat): nat
    requires n > 1
  {
    Pow(b, e) % n
  }

  /** Exponents add up, and the first power is the base. */
  lemma {:induction false} PowSum(b: nat, d: nat, e: nat)
    ensures Pow(b, d + e) == Pow(b, d) * Pow(b, e)
    ensures Pow(b, 1) == b
  {
    assert Pow(b, 1) == b * Pow(b, 0);
    if d > 0 {
      PowSum(b, d - 1, e);
      Regroup(b, Pow(b, d - 1), Pow(b, e));
    }
  }

  lemma {:induction false} PowProduct(b: nat, d: nat, e: nat)
    ensures Pow(Pow(b, d), e) == Pow(b, d * e)
  {
    if e > 0 {
      PowProduct(b, d, e - 1);
      PowSum(b, d, d * (e - 1));
      assert d + d * (e - 1) == d * e;
    }
  }

  lemma {:induction false} PowOfProduct(b: nat, c: nat, e: nat)
    ensures Pow(b * c, e) == Pow(b, e) * Pow(c, e)
  {
    if e > 0 {
      PowOfProduct(b, c, e - 1);
      Rearrange(b, c, Pow(b, e - 1), Pow(c, e - 1));
    }
  }

  lemma Regroup(a: int, b: int, c: int)
    ensures a * (b * c) == a * b * c
  {
  }

  lemma Rearrange(a: int, b: int, c: int, d: int)
    ensures (a * b) * (c * d) == (a * c) * (b * d)
  {
    Regroup(a * b, c, d);
    Regroup(a, b, c);
    Regroup(a, c, b);
    Regroup(a * c, b, d);
    assert b * c == c * b;
  }

  predicate Congruent(x: int, y: int, n: nat)
    requires n > 0
  {
    x % n == y % n
  }

  /** Two numbers that differ by a multiple of the modulus are congruent. */
  lemma MultipleApart(x: int, y: int, q: int, n: nat)
    requires n > 0 && x == y + n * q
    ensures Congruent(x, y, n)
  {
    var a, b := x / n, y / n;
    assert x == n * a + x % n && y == n * b + y % n;
    var d := a - b - q;
    assert n * a - n * b - n * q == n * d;
    assert n * d == y % n - x % n;
    assert d >= 1 ==> n * d >= n;
    assert d <= -1 ==> n * d + n <= 0;
  }

  lemma Reduced(x: int, n: nat)
    requires n > 0
    ensures Congruent(x % n, x, n)
  {
    assert x == n * (x / n) + x % n;
    MultipleApart(x, x % n, x / n, n);
  }

  lemma QuotientApart(x: int, y: int, n: nat) returns (q: int)
    requires n > 0 && Congruent(x, y, n)
    ensures x == y + n * q
  {
    q := x / n - y / n;
    assert x == n * (x / n) + x % n && y == n * (y / n) + y % n;
    assert n * q == n * (x / n) - n * (y / n);
  }

  lemma CongruentProduct(a: int, b: int, c: int, d: int, n: nat)
    requires n > 0 && Congruent(a, b, n) && Congruent(c, d, n)
    ensures Congruent(a * c, b * d, n)
  {
    var p := QuotientApart(a, b, n);
    var q := QuotientApart(c, d, n);
    hide Congruent;
    ProductApart(b, d, p, q, n);
    MultipleApart(a * c, b * d, b * q + p * d + n * p * q, n);
  }

  lemma ProductApart(b: int, d: int, p: int, q: int, n: int)
    ensures (b + n * p) * (d + n * q) == b * d + n * (b * q + p * d + n * p * q)
  {
  }

  lemma CongruentSum(a: int, b: int, c: int, d: int, n: nat)
    requires n > 0 && Congruent(a, b, n) && Congruent(c, d, n)
    ensures Congruent(a + c, b + d, n) && Congruent(a - c, b - d, n)
  {
    var p := QuotientApart(a, b, n);
    var q := QuotientApart(c, d, n);
    hide Congruent;
    assert n * (p + q) == n * p + n * q && n * (p - q) == n * p - n * q;
    MultipleApart(a + c, b + d, p + q, n);
    MultipleApart(a - c, b - d, p - q, n);
  }

  lemma {:induction false} CongruentPow(a: nat, b: nat, e: nat, n: nat)
    requires n > 0 && Congruent(a, b, n)
    ensures Congruent(Pow(a, e), Pow(b, e), n)
  {
    if e > 0 {
      CongruentPow(a, b, e - 1, n);
      CongruentProduct(a, b, Pow(a, e - 1), Pow(b, e - 1), n);
    }
  }

  // ---------------------------------------------------------------- agreement

  /** What the client computes from the server's public value. */
  function ClientShared(group: Group, k: nat, a: nat, serverPublic: nat, x: nat, u: nat): nat
    requires ValidGroup(group)
  {
    var base := (serverPublic - k * ModExp(group.g, x, group.n)) % group.n;
    ModExp(base, a + u * x, group.n)
  }

  /** The verifier, the server's public value and its premaster secret, RFC 5054 sections 2.5.3, 2.5.4 and 2.6. */
  function Verifier(group: Group, x: nat): nat
    requires ValidGroup(group)
  {
    ModExp(group.g, x, group.n)
  }

  function ServerPublic(group: Group, k: nat, verifier: nat, b: nat): nat
    requires ValidGroup(group)
  {
    (k * verifier + ModExp(group.g, b, group.n)) % group.n
  }

  function ServerShared(group: Group, clientPublic: nat, verifier: nat, u: nat, b: nat): nat
    requires ValidGroup(group)
  {
    ModExp(clientPublic * ModExp(verifier, u, group.n), b, group.n)
  }

  /** Removing the masked verifier leaves g^b, also where the difference is negative. */
  lemma UnmaskedBase(group: Group, k: nat, x: nat, b: nat)
    requires ValidGroup(group)
    ensures var B := ServerPublic(group, k, Verifier(group, x), b);
            Congruent((B - k * ModExp(group.g, x, group.n)) % group.n, Pow(group.g, b), group.n)
  {
    var n, v, gb := group.n, Verifier(group, x), Pow(group.g, b);
    var B := ServerPublic(group, k, v, b);
    Reduced(k * v + gb % n, n);
    Reduced(gb, n);
    assert Congruent(k * v, k * v, n);
    hide Congruent, Pow;
    CongruentSum(B, k * v + gb % n, k * v, k * v, n);
    Reduced(B - k * v, n);
    Chained((B - k * v) % n, B - k * v, gb % n, n);
    Chained((B - k * v) % n, gb % n, gb, n);
  }

  lemma Chained(x: int, y: int, z: int, n: nat)
    requires n > 0 && Congruent(x, y, n) && Congruent(y, z, n)
    ensures Congruent(x, z, n)
  {
  }

  /** The server's product of the client's public value and the verifier's power. */
  lemma ServerBase(group: Group, a: nat, x: nat, u: nat)
    requires ValidGroup(group)
    ensures Congruent(ModExp(group.g, a, group.n) * ModExp(Verifier(group, x), u, group.n),
                      Pow(group.g, a + u * x), group.n)
  {
    var n, g := group.n, group.g;
    var v := Verifier(group, x);
    Reduced(Pow(g, a), n);
    Reduced(Pow(g, x), n);
    Reduced(Pow(v, u), n);
    PowSum(g, a, u * x);
    assert u * x == x * u;
    PowProduct(g, x, u);
    hide Congruent, Pow;
    CongruentPow(v, Pow(g, x), u, n);
    Chained(Pow(v, u) % n, Pow(v, u), Pow(Pow(g, x), u), n);
    CongruentProduct(Pow(g, a) % n, Pow(g, a), Pow(v, u) % n, Pow(Pow(g, x), u), n);
  }

  /** Client and server compute the same secret, for all secrets and all x, u and k. */
  lemma SharedSecretsAgree(group: Group, k: nat, a: nat, b: nat, x: nat, u: nat)
    requires ValidGroup(group)
    ensures ClientShared(group, k, a, ServerPublic(group, k, Verifier(group, x), b), x, u)
            == ServerShared(group, ModExp(group.g, a, group.n), Verifier(group, x), u, b)
  {
    var n, g, e := group.n, group.g, a + u * x;
    var B := ServerPublic(group, k, Verifier(group, x), b);
    var base := (B - k * ModExp(g, x, n)) % n;
    var product := ModExp(g, a, n) * ModExp(Verifier(group, x), u, n);
    UnmaskedBase(group, k, x, b);
    ServerBase(group, a, x, u);
    CongruentPow(base, Pow(g, b), e, n);
    CongruentPow(product, Pow(g, e), b, n);
    PowProduct(g, b, e);
    PowProduct(g, e, b);
    assert b * e == e * b;
    hide Pow, Verifier, ServerPublic;
  }

  // ---------------------------------------------------------------- padding

  /** The number that big-endian bytes stand for. */
  function Number(bytes: seq<Byte>): nat {
    if bytes == [] then 0 else 256 * Number(bytes[..|bytes| - 1]) + bytes[|bytes| - 1]
  }

  /** The shortest big-endian bytes of a number. */
  function MinimalBytes(v: nat): seq<Byte> {
    if v == 0 then [] else MinimalBytes(v / 256) + [v % 256]
  }

  function Zeros(n: nat): (zeros: seq<Byte>)
    ensures |zeros| == n
  {
    seq(n, _ => 0)
  }

  function Pad(v: nat, size: nat): seq<Byte> {
    var bytes := MinimalBytes(v);
    if |bytes| >= size then bytes else Zeros(size - |bytes|) + bytes
  }

  lemma {:induction false} MinimalRoundTrip(v: nat)
    ensures Number(MinimalBytes(v)) == v
  {
    if v > 0 { MinimalRoundTrip(v / 256); }
  }

  lemma {:induction false} LeadingZeros(n: nat, bytes: seq<Byte>)
    ensures Number(Zeros(n) + bytes) == Number(bytes)
  {
    if bytes == [] {
      assert Zeros(n) + bytes == Zeros(n);
      if n > 0 {
        assert Zeros(n)[..n - 1] == Zeros(n - 1);
        assert Zeros(n - 1) + bytes == Zeros(n - 1);
        LeadingZeros(n - 1, []);
      }
    } else {
      var front := bytes[..|bytes| - 1];
      assert (Zeros(n) + bytes)[..n + |bytes| - 1] == Zeros(n) + front;
      LeadingZeros(n, front);
    }
  }

  lemma {:induction false} MinimalLength(v: nat, size: nat)
    requires v < Pow(256, size)
    ensures |MinimalBytes(v)| <= size
  {
    if v > 0 {
      assert size > 0;
      MinimalLength(v / 256, size - 1);
    }
  }

  /** Values below the modulus have padded forms of one length, which give the value back. */
  lemma PaddingRoundTrip(group: Group, v: nat)
    requires ValidGroup(group) && v < group.n
    ensures |Pad(v, group.size)| == group.size && Number(Pad(v, group.size)) == v
  {
    MinimalRoundTrip(v);
    MinimalLength(v, group.size);
    var bytes := MinimalBytes(v);
    LeadingZeros(group.size - |bytes|, bytes);
  }

  /** Padding is injective on the values below the modulus. */
  lemma PaddingIsInjective(group: Group, v: nat, w: nat)
    requires ValidGroup(group) && v < group.n && w < group.n
    requires Pad(v, group.size) == Pad(w, group.size)
    ensures v == w
  {
    PaddingRoundTrip(group, v);
    PaddingRoundTrip(group, w);
  }

  // ---------------------------------------------------------------- the exchange

  function XorByte(a: Byte, b: Byte): Byte { ((a as bv8) ^ (b as bv8)) as Byte }

  /** Byte-wise exclusive or of two hash values, over the length of the first. */
  function XorBytes(a: seq<Byte>, b: seq<Byte>): seq<Byte> {
    seq(|a|, i requires 0 <= i < |a| => if i < |b| then XorByte(a[i], b[i]) else a[i])
  }

  function Multiplier(group: Group, h: Hash): nat {
    Number(h(MinimalBytes(group.n) + Pad(group.g, group.size)))
  }

  function PrivateKey(h: Hash, salt: seq<Byte>, passwordKey: seq<Byte>): nat {
    Number(h(salt + h([58] + passwordKey)))
  }

  function Scrambler(group: Group, h: Hash, clientPublic: nat, serverPublic: nat): nat {
    Number(h(Pad(clientPublic, group.size) + Pad(serverPublic, group.size)))
  }

  function Proof1(
    group: Group, h: Hash, username: seq<Byte>, salt: seq<Byte>, a: seq<Byte>, b: seq<Byte>, key: seq<Byte>)
    : seq<Byte>
  {
    h(XorBytes(h(MinimalBytes(group.n)), h(Pad(group.g, group.size))) + h(username) + salt + a + b + key)
  }

  function Proof2(h: Hash, a: seq<Byte>, m1: seq<Byte>, key: seq<Byte>): seq<Byte> { h(a + m1 + key) }

  datatype SrpError = NoRandomness | ZeroSecret | InvalidServerPublic | ZeroScrambler

  class SrpClient {
    const group: Group
    const secret: nat
    const public: nat
    const k: nat
    var m1: seq<Byte>
    var m2: seq<Byte>

    ghost predicate Valid(h: Hash) {
      && ValidGroup(group) && secret > 0
      && public == ModExp(group.g, secret, group.n)
      && k == Multiplier(group, h)
    }

    constructor (group: Group, h: Hash, secret: nat)
      requires ValidGroup(group) && secret > 0
      ensures Valid(h) && this.group == group && this.secret == secret && m1 == m2 == []
    {
      this.group := group;
      this.secret := secret;
      public := ModExp(group.g, secret, group.n);
      k := Multiplier(group, h);
      m1, m2 := [], [];
    }

    function PublicKey(): seq<Byte> { Pad(public, group.size) }

    /** Fails, changing nothing, exactly for a public value outside (0, N) or a zero scrambling parameter. */
    method ProcessChallenge(
        h: Hash, username: seq<Byte>, passwordKey: seq<Byte>, salt: seq<Byte>, serverPublic: seq<Byte>)
      returns (error: Option<SrpError>)
      requires Valid(h)
      modifies this
      ensures Valid(h)
      ensures error == Some(InvalidServerPublic) <==> Number(serverPublic) == 0 || Number(serverPublic) >= group.n
      ensures error == Some(ZeroScrambler) <==>
                0 < Number(serverPublic) < group.n && Scrambler(group, h, public, Number(serverPublic)) == 0
      ensures error.Some? ==> error.value in {InvalidServerPublic, ZeroScrambler} && m1 == old(m1) && m2 == old(m2)
      ensures error.None? ==>
                (m1, m2) == ClientProofs(group, h, secret, username, passwordKey, salt, Number(serverPublic))
    {
      hide Pad, Number, Scrambler, PrivateKey, Multiplier, Proof1, Proof2, ModExp, ValidGroup;
      var b := Number(serverPublic);
      if b <= 0 || b >= group.n { return Some(InvalidServerPublic); }
      var x := PrivateKey(h, salt, passwordKey);
      var u := Scrambler(group, h, public, b);
      if u == 0 { return Some(ZeroScrambler); }
      var gx := ModExp(group.g, x, group.n);
      var base := b - k * gx;
      base := base % group.n;
      var exponent := secret + u * x;
      var shared := ModExp(base, exponent, group.n);
      var key := h(Pad(shared, group.size));
      var aBytes := Pad(public, group.size);
      var bBytes := Pad(b, group.size);
      m1 := Proof1(group, h, username, salt, aBytes, bBytes, key);
      m2 := Proof2(h, aBytes, m1, key);
      error := None;
    }
  }

  /** The client's secret is 32 random bytes, not all zero. */
  method NewSrpClient(group: Group, h: Hash, random: Option<seq<Byte>>) returns (r: Result<SrpClient, SrpError>)
    requires ValidGroup(group) && (random.Some? ==> |random.value| == 32)
    ensures random.None? <==> r == Fail(NoRandomness)
    ensures random.Some? ==> (Number(random.value) == 0 <==> r == Fail(ZeroSecret))
    ensures r.Ok? ==> r.value.Valid(h) && r.value.secret == Number(random.value) && fresh(r.value)
  {
    if random.None? { return Fail(NoRandomness); }
    var secret := Number(random.value);
    if secret == 0 { return Fail(ZeroSecret); }
    var client := new SrpClient(group, h, secret);
    r := Ok(client);
  }

  /** Both proofs from the client's side. */
  function ClientProofs(
      group: Group, h: Hash, a: nat, username: seq<Byte>, passwordKey: seq<Byte>, salt: seq<Byte>, serverPublic: nat)
    : (seq<Byte>, seq<Byte>)
    requires ValidGroup(group)
  {
    var clientPublic := ModExp(group.g, a, group.n);
    var x, u := PrivateKey(h, salt, passwordKey), Scrambler(group, h, clientPublic, serverPublic);
    var key := h(Pad(ClientShared(group, Multiplier(group, h), a, serverPublic, x, u), group.size));
    var aBytes, bBytes := Pad(clientPublic, group.size), Pad(serverPublic, group.size);
    var m1 := Proof1(group, h, username, salt, aBytes, bBytes, key);
    (m1, Proof2(h, aBytes, m1, key))
  }

  /**
   Both proofs from the server's side, which knows the verifier and the bytes that it received and sent. It hashes
   what RFC 5054 and RFC 2945 ask for: k from N and the padded g, u from the two public values, M1 from the masked
   group, the hashed name, the salt, both public values and the key, and M2 from A, M1 and the key.
   */
  function ServerProofs(
      group: Group, h: Hash, b: nat, username: seq<Byte>, salt: seq<Byte>, verifier: nat, received: seq<Byte>)
    : (seq<Byte>, seq<Byte>)
    requires ValidGroup(group)
  {
    var hashedN, hashedG := h(MinimalBytes(group.n)), h(Pad(group.g, group.size));
    var sent := Pad(ServerPublic(group, Number(h(MinimalBytes(group.n) + Pad(group.g, group.size))), verifier, b),
                    group.size);
    var u := Number(h(received + sent));
    var key := h(Pad(ServerShared(group, Number(received), verifier, u, b), group.size));
    var masked := seq(|hashedN|, i requires 0 <= i < |hashedN| =>
                        if i < |hashedG| then ((hashedN[i] as bv8) ^ (hashedG[i] as bv8)) as Byte else hashedN[i]);
    var m1 := h(masked + h(username) + salt + received + sent + key);
    (m1, h(received + m1 + key))
  }

  lemma MaskedAlike(a: seq<Byte>, b: seq<Byte>)
    ensures XorBytes(a, b)
            == seq(|a|, i requires 0 <= i < |a| =>
                     if i < |b| then ((a[i] as bv8) ^ (b[i] as bv8)) as Byte else a[i])
  {
  }

  /**
   A server that stored the verifier of the password's hash, salted as x = H(s, H(":", password key)), accepts the
   client's proof and sends the one it expects.
   */
  lemma ProofsAgree(
      group: Group, h: Hash, a: nat, b: nat, username: seq<Byte>, passwordKey: seq<Byte>, salt: seq<Byte>)
    requires ValidGroup(group)
    ensures var verifier := Verifier(group, Number(h(salt + h([58] + passwordKey))));
            var k := Number(h(MinimalBytes(group.n) + Pad(group.g, group.size)));
            var sent := Pad(ModExp(group.g, a, group.n), group.size);
            ClientProofs(group, h, a, username, passwordKey, salt, ServerPublic(group, k, verifier, b))
            == ServerProofs(group, h, b, username, salt, verifier, sent)
  {
    var x, k := PrivateKey(h, salt, passwordKey), Multiplier(group, h);
    var A, B := ModExp(group.g, a, group.n), ServerPublic(group, k, Verifier(group, x), b);
    PaddingRoundTrip(group, A);
    SharedSecretsAgree(group, k, a, b, x, Scrambler(group, h, A, B));
    MaskedAlike(h(MinimalBytes(group.n)), h(Pad(group.g, group.size)));
    hide ClientShared, ServerShared, ServerPublic, Verifier, Pad, ModExp, Number, MinimalBytes, XorByte, XorBytes,
         ValidGroup;
  }
}
