// The provider's path segment for a secret reference: the whole reference in UTF-8, then in
// unpadded base64url, so that no two references share a provider resource.

module SecretId {
  import opened Wrappers
  import opened Base64Url

  const MAX_REFERENCE_BYTES := 1024
  const PREFIX := "cpk1_"

  type Unit = n: int | 0 <= n < 256

  /** UTF-8 of one character (section 3 of RFC 3629), by the six-bit tail of its code point. */
  function Units(c: char): (u: seq<Unit>)
    ensures 1 <= |u| <= 4
  {
    var n := c as int;
    if n < 0x80 then [n]
    else if n < 0x800 then [0xC0 + n / 64, 0x80 + n % 64]
    else if n < 0x10000 then [0xE0 + n / 4096, 0x80 + n / 64 % 64, 0x80 + n % 64]
    else [0xF0 + n / 262144, 0x80 + n / 4096 % 64, 0x80 + n / 64 % 64, 0x80 + n % 64]
  }

  /** How long the sequence is, read off its first unit. */
  function LengthByLead(lead: Unit): nat {
    if lead < 0x80 then 1 else if lead < 0xE0 then 2 else if lead < 0xF0 then 3 else 4
  }

  function Tail(u: Unit): int {
    u - 0x80
  }

  function CodePoint(u: seq<Unit>): int
    requires 1 <= |u| <= 4
  {
    if |u| == 1 then u[0]
    else if |u| == 2 then (u[0] - 0xC0) * 64 + Tail(u[1])
    else if |u| == 3 then (u[0] - 0xE0) * 4096 + Tail(u[1]) * 64 + Tail(u[2])
    else (u[0] - 0xF0) * 262144 + Tail(u[1]) * 4096 + Tail(u[2]) * 64 + Tail(u[3])
  }

  lemma Halving(n: nat)
    ensures n == n / 64 * 64 + n % 64
    ensures n / 64 == n / 4096 * 64 + n / 64 % 64
    ensures n / 4096 == n / 262144 * 64 + n / 4096 % 64
  {
    assert n / 4096 == n / 64 / 64;
    assert n / 262144 == n / 4096 / 64;
  }

  lemma UnitsCarryCodePoint(c: char)
    ensures |Units(c)| == LengthByLead(Units(c)[0])
    ensures CodePoint(Units(c)) == c as int
  {
    Halving(c as int);
  }

  function Utf8(s: string): seq<Unit> {
    if s == [] then [] else Units(s[0]) + Utf8(s[1..])
  }

  lemma {:induction false} Utf8IsInjective(a: string, b: string)
    requires Utf8(a) == Utf8(b)
    ensures a == b
  {
    if a != [] && b != [] {
      UnitsCarryCodePoint(a[0]);
      UnitsCarryCodePoint(b[0]);
      var u, v := Units(a[0]), Units(b[0]);
      assert u[0] == Utf8(a)[0] && v[0] == Utf8(b)[0];
      assert u == Utf8(a)[..|u|] && v == Utf8(b)[..|v|];
      assert Utf8(a)[|u|..] == Utf8(a[1..]) && Utf8(b)[|v|..] == Utf8(b[1..]);
      Utf8IsInjective(a[1..], b[1..]);
      assert a == [a[0]] + a[1..] && b == [b[0]] + b[1..];
    }
  }

  function AsBytes(units: seq<Unit>): (b: seq<Byte>)
    ensures |b| == |units| && forall i | 0 <= i < |units| :: b[i] == ByteOf(units[i])
  {
    seq(|units|, i requires 0 <= i < |units| => ByteOf(units[i]))
  }

  lemma AsBytesIsInjective(u: seq<Unit>, v: seq<Unit>)
    requires AsBytes(u) == AsBytes(v)
    ensures u == v
  {
    assert |u| == |v|;
    forall i | 0 <= i < |u| ensures u[i] == v[i] {
      assert ByteOf(u[i]) == AsBytes(u)[i] == AsBytes(v)[i] == ByteOf(v[i]);
      ByteOfIsInjective(u[i], v[i]);
    }
  }

  datatype MalformedRequest = MalformedRequest

  function ProviderSecretId(reference: string): Result<string, MalformedRequest> {
    var encoded := Utf8(reference);
    if |encoded| > MAX_REFERENCE_BYTES then Failure(MalformedRequest)
    else Success(PREFIX + Encode(AsBytes(encoded)))
  }

  /** One resource per reference: no two references are given the same provider id. */
  lemma SecretIdIsInjective(a: string, b: string)
    requires ProviderSecretId(a).Success? && ProviderSecretId(a) == ProviderSecretId(b)
    ensures a == b
  {
    var x, y := Encode(AsBytes(Utf8(a))), Encode(AsBytes(Utf8(b)));
    assert (PREFIX + x)[|PREFIX|..] == x && (PREFIX + y)[|PREFIX|..] == y;
    EncodeIsInjective(AsBytes(Utf8(a)), AsBytes(Utf8(b)));
    AsBytesIsInjective(Utf8(a), Utf8(b));
    Utf8IsInjective(a, b);
  }

  lemma PrefixIsAlphabetic()
    ensures Alphabetic(PREFIX) && |PREFIX| == 5
  {
  }

  /** The id needs no percent-encoding: it stays one path segment of bounded length. */
  lemma SecretIdIsOneSegment(reference: string)
    requires ProviderSecretId(reference).Success?
    ensures var id := ProviderSecretId(reference).value;
            Alphabetic(id) && |id| == |PREFIX| + (4 * |Utf8(reference)| + 2) / 3 && |id| <= 1371
  {
    var b := AsBytes(Utf8(reference));
    DecodeEncode(b);
    EncodedLength(b);
    PrefixIsAlphabetic();
  }
}
