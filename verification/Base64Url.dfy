// Unpadded base64url (sections 3.5 and 5 of RFC 4648), as bytes are written and as they are read:
// the reader follows the decoder underneath, which ignores the unused low bits of the last letter.
// Bytes and sextets are kept as their two-bit digits, so that regrouping is visible.

module Base64Url {
  import opened Wrappers

  type Digit = v: int | 0 <= v < 4

  /** Eight bits, most significant pair first. */
  datatype Byte = Byte(a: Digit, b: Digit, c: Digit, d: Digit)

  datatype Sextet = Sextet(a: Digit, b: Digit, c: Digit)

  function ByteOf(n: int): Byte
    requires 0 <= n < 256
  {
    Byte(n / 64, n / 16 % 4, n / 4 % 4, n % 4)
  }

  lemma Digits(n: int)
    requires 0 <= n < 256
    ensures n == 64 * ByteOf(n).a + 16 * ByteOf(n).b + 4 * ByteOf(n).c + ByteOf(n).d
  {
    assert n == 4 * (n / 4) + n % 4;
    assert n / 4 == 4 * (n / 16) + n / 4 % 4;
    assert n / 16 == 4 * (n / 64) + n / 16 % 4;
  }

  lemma ByteOfIsInjective(m: int, n: int)
    requires 0 <= m < 256 && 0 <= n < 256 && ByteOf(m) == ByteOf(n)
    ensures m == n
  {
    assert m == 64 * ByteOf(m).a + 16 * ByteOf(m).b + 4 * ByteOf(m).c + ByteOf(m).d by { Digits(m); }
    assert n == 64 * ByteOf(n).a + 16 * ByteOf(n).b + 4 * ByteOf(n).c + ByteOf(n).d by { Digits(n); }
  }

  function Number(s: Sextet): (n: int)
    ensures 0 <= n < 64
  {
    16 * s.a + 4 * s.b + s.c
  }

  function SextetOf(n: int): Sextet
    requires 0 <= n < 64
  {
    Sextet(n / 16, n / 4 % 4, n % 4)
  }

  function LetterOf(n: int): char
    requires 0 <= n < 64
  {
    if n < 26 then 'A' + n as char
    else if n < 52 then 'a' + (n - 26) as char
    else if n < 62 then '0' + (n - 52) as char
    else if n == 62 then '-'
    else '_'
  }

  predicate LetterChar(c: char) {
    'A' <= c <= 'Z' || 'a' <= c <= 'z' || '0' <= c <= '9' || c == '-' || c == '_'
  }

  function NumberOf(c: char): (n: int)
    requires LetterChar(c)
    ensures 0 <= n < 64 && LetterOf(n) == c
  {
    if 'A' <= c <= 'Z' then c as int - 'A' as int
    else if 'a' <= c <= 'z' then c as int - 'a' as int + 26
    else if '0' <= c <= '9' then c as int - '0' as int + 52
    else if c == '-' then 62
    else 63
  }

  function Letter(s: Sextet): char {
    LetterOf(Number(s))
  }

  function Value(c: char): Sextet
    requires LetterChar(c)
  {
    SextetOf(NumberOf(c))
  }

  lemma NumberOfLetter(n: int)
    requires 0 <= n < 64
    ensures LetterChar(LetterOf(n)) && NumberOf(LetterOf(n)) == n
  {
  }

  lemma SextetOfNumber(s: Sextet)
    ensures SextetOf(Number(s)) == s
  {
    var n := Number(s);
    assert n / 16 == s.a && n % 4 == s.c && n / 4 == 4 * s.a + s.b;
  }

  lemma LetterHasValue(s: Sextet)
    ensures LetterChar(Letter(s)) && Value(Letter(s)) == s
  {
    NumberOfLetter(Number(s));
    SextetOfNumber(s);
  }

  // ---- regrouping ----

  const ZERO := Byte(0, 0, 0, 0)

  function Group(x: Byte, y: Byte, z: Byte): seq<Sextet> {
    [Sextet(x.a, x.b, x.c), Sextet(x.d, y.a, y.b), Sextet(y.c, y.d, z.a), Sextet(z.b, z.c, z.d)]
  }

  /** A last group of one or two bytes is filled with zero bytes and written without the sextets
      that carry none of its bits, which is what stripping the padding leaves. */
  function Sextets(b: seq<Byte>): seq<Sextet> {
    if |b| == 0 then []
    else if |b| == 1 then Group(b[0], ZERO, ZERO)[..2]
    else if |b| == 2 then Group(b[0], b[1], ZERO)[..3]
    else Group(b[0], b[1], b[2]) + Sextets(b[3..])
  }

  function First(p: Sextet, q: Sextet): Byte {
    Byte(p.a, p.b, p.c, q.a)
  }

  function Second(q: Sextet, r: Sextet): Byte {
    Byte(q.b, q.c, r.a, r.b)
  }

  function Third(r: Sextet, s: Sextet): Byte {
    Byte(r.c, s.a, s.b, s.c)
  }

  /** The decoder, after padding the text to a multiple of four; a single left-over sextet is
      an error, and left-over low bits are dropped. */
  function Bytes(s: seq<Sextet>): Option<seq<Byte>> {
    if |s| == 0 then Some([])
    else if |s| == 1 then None
    else if |s| == 2 then Some([First(s[0], s[1])])
    else if |s| == 3 then Some([First(s[0], s[1]), Second(s[1], s[2])])
    else
      match Bytes(s[4..])
      case None => None
      case Some(rest) => Some([First(s[0], s[1]), Second(s[1], s[2]), Third(s[2], s[3])] + rest)
  }

  lemma {:induction false} BytesOfSextets(b: seq<Byte>)
    ensures Bytes(Sextets(b)) == Some(b)
  {
    if |b| == 1 {
      assert b == [b[0]];
    } else if |b| == 2 {
      assert b == [b[0], b[1]];
    } else if |b| >= 3 {
      BytesOfSextets(b[3..]);
      assert Sextets(b)[4..] == Sextets(b[3..]);
      assert b == [b[0], b[1], b[2]] + b[3..];
    }
  }

  // ---- letters ----

  predicate Alphabetic(s: string) {
    forall i | 0 <= i < |s| :: LetterChar(s[i])
  }

  function Letters(s: seq<Sextet>): (t: string)
    ensures |t| == |s| && forall i | 0 <= i < |s| :: t[i] == Letter(s[i])
  {
    seq(|s|, i requires 0 <= i < |s| => Letter(s[i]))
  }

  function Values(t: string): (s: seq<Sextet>)
    requires Alphabetic(t)
    ensures |s| == |t| && forall i | 0 <= i < |t| :: s[i] == Value(t[i])
  {
    seq(|t|, i requires 0 <= i < |t| => Value(t[i]))
  }

  lemma ValuesOfLetters(s: seq<Sextet>)
    ensures Alphabetic(Letters(s)) && Values(Letters(s)) == s
  {
    forall i | 0 <= i < |s| ensures LetterChar(Letters(s)[i]) && Value(Letters(s)[i]) == s[i] {
      LetterHasValue(s[i]);
    }
  }

  function Encode(b: seq<Byte>): string {
    Letters(Sextets(b))
  }

  function Decode(t: string): Option<seq<Byte>>
    requires Alphabetic(t)
  {
    Bytes(Values(t))
  }

  lemma DecodeEncode(b: seq<Byte>)
    ensures Alphabetic(Encode(b)) && Decode(Encode(b)) == Some(b)
  {
    ValuesOfLetters(Sextets(b));
    BytesOfSextets(b);
  }

  lemma EncodeIsInjective(a: seq<Byte>, b: seq<Byte>)
    requires Encode(a) == Encode(b)
    ensures a == b
  {
    DecodeEncode(a);
    DecodeEncode(b);
  }

  lemma {:induction false} SextetCount(b: seq<Byte>)
    ensures |Sextets(b)| == (4 * |b| + 2) / 3
  {
    if |b| >= 3 {
      SextetCount(b[3..]);
    }
  }

  lemma EncodedLength(b: seq<Byte>)
    ensures |Encode(b)| == (4 * |b| + 2) / 3
  {
    SextetCount(b);
  }

  /** The re-encoding comparison accepts exactly the texts that are some bytes' encoding. */
  lemma CanonicalTexts(s: string)
    requires Alphabetic(s)
    ensures (Decode(s).Some? && Encode(Decode(s).value) == s) <==> exists b :: s == Encode(b)
  {
    if b :| s == Encode(b) {
      DecodeEncode(b);
    }
  }

  /** Without the comparison the decoder alone is not injective. */
  lemma DecoderAloneIsNotInjective()
    ensures Alphabetic("AA") && Alphabetic("AB") && Decode("AA") == Decode("AB") == Some([ZERO])
  {
    assert NumberOf('A') == 0 && NumberOf('B') == 1;
  }
}
