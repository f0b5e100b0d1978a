// The structural admission of a health credential: three canonical base64url segments, the
// compact form of section 7.1 of RFC 7515, with a 64-byte signature.

module Credential {
  import opened Wrappers
  import opened Text
  import opened Base64Url

  datatype Malformed = Malformed

  const MAX_TOKEN := 12288
  const CAPS: seq<nat> := [1024, 8192, 86]
  const SIGNATURE_BYTES := 64

  function DecodeSegment(segment: string, cap: nat): (r: Result<seq<Byte>, Malformed>)
    ensures r.Success? <==> 1 <= |segment| <= cap && exists b :: segment == Encode(b)
    ensures r.Success? ==> segment == Encode(r.value)
  {
    if segment == "" || |segment| > cap || !Alphabetic(segment) then
      assert segment != "" && |segment| <= cap ==> forall b :: Alphabetic(Encode(b)) ==> segment != Encode(b);
      assert forall b :: Alphabetic(Encode(b)) by { forall b ensures Alphabetic(Encode(b)) { DecodeEncode(b); } }
      Failure(Malformed)
    else
      CanonicalTexts(segment);
      match Decode(segment)
      case None => Failure(Malformed)
      case Some(raw) => if Encode(raw) == segment then Success(raw) else Failure(Malformed)
  }

  /** The bytes a token carries, in their one admitted spelling. */
  function Compact(header: seq<Byte>, claims: seq<Byte>, signature: seq<Byte>): string {
    Encode(header) + "." + Encode(claims) + "." + Encode(signature)
  }

  predicate Bounded(header: seq<Byte>, claims: seq<Byte>, signature: seq<Byte>) {
    && 1 <= |Encode(header)| <= CAPS[0]
    && 1 <= |Encode(claims)| <= CAPS[1]
    && |signature| == SIGNATURE_BYTES
  }

  ghost predicate Canonical(token: string) {
    exists header, claims, signature ::
      token == Compact(header, claims, signature) && Bounded(header, claims, signature)
  }

  /** Splits, decodes and bounds the three segments. */
  method Admit(token: string) returns (r: Result<seq<seq<Byte>>, Malformed>)
    ensures r.Success? <==> Canonical(token)
    ensures r.Success? ==> |r.value| == 3 && token == Compact(r.value[0], r.value[1], r.value[2])
  {
    AdmittedTokens(token);
    if !(1 <= |token| <= MAX_TOKEN) {
      return Failure(Malformed);
    }
    var segments := Split(token, '.');
    if |segments| != 3 {
      return Failure(Malformed);
    }
    var decoded: seq<seq<Byte>> := [];
    for i := 0 to 3
      invariant |decoded| == i
      invariant forall j | 0 <= j < i :: DecodeSegment(segments[j], CAPS[j]) == Success(decoded[j])
    {
      var raw := DecodeSegment(segments[i], CAPS[i]);
      if raw.Failure? {
        return Failure(Malformed);
      }
      decoded := decoded + [raw.value];
    }
    if |decoded[2]| != SIGNATURE_BYTES {
      return Failure(Malformed);
    }
    return Success(decoded);
  }

  // ---- splitting at dots ----

  function Join(parts: seq<string>): string
    requires |parts| >= 1
  {
    if |parts| == 1 then parts[0] else parts[0] + "." + Join(parts[1..])
  }

  lemma {:induction false} JoinSplit(s: string)
    ensures Join(Split(s, '.')) == s
  {
    if s != [] {
      JoinSplit(s[1..]);
      var rest, parts := Split(s[1..], '.'), Split(s, '.');
      if s[0] == '.' {
        assert parts[1..] == rest;
      } else {
        assert parts[1..] == rest[1..];
      }
    }
  }

  lemma EncodedHasNoDot(b: seq<Byte>)
    ensures '.' !in Encode(b)
  {
    DecodeEncode(b);
    assert !LetterChar('.');
  }

  lemma SplitCompact(header: seq<Byte>, claims: seq<Byte>, signature: seq<Byte>)
    ensures Split(Compact(header, claims, signature), '.') == [Encode(header), Encode(claims), Encode(signature)]
  {
    EncodedHasNoDot(header);
    EncodedHasNoDot(claims);
    EncodedHasNoDot(signature);
    SplitNothing(Encode(signature), '.');
    SplitSegment(Encode(claims), '.', Encode(signature));
    SplitSegment(Encode(header), '.', Encode(claims) + "." + Encode(signature));
    assert Compact(header, claims, signature) == Encode(header) + "." + (Encode(claims) + "." + Encode(signature));
  }

  predicate Admitted(token: string) {
    var segments := Split(token, '.');
    && 1 <= |token| <= MAX_TOKEN && |segments| == 3
    && DecodeSegment(segments[0], CAPS[0]).Success?
    && DecodeSegment(segments[1], CAPS[1]).Success?
    && DecodeSegment(segments[2], CAPS[2]).Success?
    && |DecodeSegment(segments[2], CAPS[2]).value| == SIGNATURE_BYTES
  }

  lemma CompactIsAdmitted(header: seq<Byte>, claims: seq<Byte>, signature: seq<Byte>)
    requires Bounded(header, claims, signature)
    ensures Admitted(Compact(header, claims, signature))
  {
    SplitCompact(header, claims, signature);
    EncodedLength(signature);
    var raw := DecodeSegment(Encode(signature), CAPS[2]);
    EncodeIsInjective(raw.value, signature);
  }

  /** The law of admission: a token passes exactly when it is the canonical spelling of some
      header, claims and 64-byte signature; the total bound follows from the others. */
  lemma AdmittedTokens(token: string)
    ensures Admitted(token) <==> Canonical(token)
    ensures Admitted(token) ==>
              var segments := Split(token, '.');
              token == Compact(DecodeSegment(segments[0], CAPS[0]).value, DecodeSegment(segments[1], CAPS[1]).value,
                               DecodeSegment(segments[2], CAPS[2]).value)
  {
    if Canonical(token) {
      var header, claims, signature :|
        token == Compact(header, claims, signature) && Bounded(header, claims, signature);
      CompactIsAdmitted(header, claims, signature);
    }
    if Admitted(token) {
      AdmittedIsCompact(token, Split(token, '.'));
    }
  }

  lemma AdmittedIsCompact(token: string, segments: seq<string>)
    requires Admitted(token) && segments == Split(token, '.')
    ensures var header, claims, signature := DecodeSegment(segments[0], CAPS[0]).value,
              DecodeSegment(segments[1], CAPS[1]).value, DecodeSegment(segments[2], CAPS[2]).value;
            token == Compact(header, claims, signature) && Bounded(header, claims, signature)
  {
    ThreeSegments(token, segments[0], segments[1], segments[2]);
  }

  lemma ThreeSegments(token: string, a: string, b: string, c: string)
    requires Split(token, '.') == [a, b, c]
    ensures token == a + "." + b + "." + c
  {
    JoinSplit(token);
    assert [a, b, c][1..] == [b, c] && [b, c][1..] == [c];
    assert Join([c]) == c && Join([b, c]) == b + "." + c;
    assert a + "." + (b + "." + c) == a + "." + b + "." + c;
  }

  /** Two tokens that carry the same bytes are the same token. */
  lemma OneSpellingPerCredential(header: seq<Byte>, claims: seq<Byte>, signature: seq<Byte>,
                                 header': seq<Byte>, claims': seq<Byte>, signature': seq<Byte>)
    requires Compact(header, claims, signature) == Compact(header', claims', signature')
    ensures header == header' && claims == claims' && signature == signature'
  {
    SplitCompact(header, claims, signature);
    SplitCompact(header', claims', signature');
    assert [Encode(header), Encode(claims), Encode(signature)]
        == [Encode(header'), Encode(claims'), Encode(signature')];
    EncodeIsInjective(header, header');
    EncodeIsInjective(claims, claims');
    EncodeIsInjective(signature, signature');
  }

  /** The cap of 86 letters and the 64 decoded bytes are one condition. */
  lemma SignatureLength(signature: seq<Byte>)
    ensures |signature| == SIGNATURE_BYTES <==> |Encode(signature)| == CAPS[2]
  {
    EncodedLength(signature);
  }
}
