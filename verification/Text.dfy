// The string rules the Cloudflare adapter shares: lower-casing, splitting into labels,
// closed identifiers, and the tunnel target that a DNS record points at.

module Text {

  function LowerChar(c: char): char {
    if 'A' <= c <= 'Z' then c - 'A' + 'a' else c
  }

  /** ASCII lower-casing, the only case folding a provider hostname needs. */
  function Lower(s: string): (r: string)
    ensures |r| == |s|
    ensures forall i :: 0 <= i < |s| ==> r[i] == LowerChar(s[i])
  {
    seq(|s|, i requires 0 <= i < |s| => LowerChar(s[i]))
  }

  predicate OccursAt(s: string, part: string, i: nat) {
    i <= |s| && part <= s[i..]
  }

  predicate Contains(s: string, part: string) {
    exists i :: 0 <= i <= |s| && OccursAt(s, part, i)
  }

  predicate EndsWith(s: string, suffix: string) {
    |suffix| <= |s| && s[|s| - |suffix|..] == suffix
  }

  /** The characters that stripping a text removes. */
  predicate IsSpace(c: char) {
    var n := c as int;
    || 0x09 <= n <= 0x0D || 0x1C <= n <= 0x20 || n == 0x85 || n == 0xA0 || n == 0x1680
    || 0x2000 <= n <= 0x200A || n == 0x2028 || n == 0x2029 || n == 0x202F || n == 0x205F || n == 0x3000
  }

  predicate Blank(s: string) {
    forall i :: 0 <= i < |s| ==> IsSpace(s[i])
  }

  predicate SecretText(s: string) {
    var lowered := Lower(s);
    || Contains(lowered, "token")
    || Contains(lowered, "secret")
    || Contains(lowered, "password")
    || Contains(lowered, "key")
  }

  predicate IdentifierChar(c: char) {
    || 'a' <= c <= 'z'
    || 'A' <= c <= 'Z'
    || '0' <= c <= '9'
    || c == '.' || c == '_' || c == ':' || c == '-'
  }

  predicate ValidIdentifier(s: string) {
    && 1 <= |s| <= 128
    && (forall i :: 0 <= i < |s| ==> IdentifierChar(s[i]))
    && !SecretText(s)
  }

  const TARGET_SUFFIX := ".cfargotunnel.com"

  function TunnelTarget(tunnel: string): string {
    tunnel + TARGET_SUFFIX
  }

  /** The tunnel a record content names, once the content is known to carry the suffix. */
  function TargetedTunnel(content: string): string
    requires EndsWith(content, TARGET_SUFFIX)
  {
    content[..|content| - |TARGET_SUFFIX|]
  }

  lemma TunnelTargetIsInvertible(tunnel: string)
    ensures EndsWith(TunnelTarget(tunnel), TARGET_SUFFIX)
    ensures TargetedTunnel(TunnelTarget(tunnel)) == tunnel
  {
    assert TunnelTarget(tunnel)[|tunnel|..] == TARGET_SUFFIX;
    assert TunnelTarget(tunnel)[..|tunnel|] == tunnel;
  }

  lemma TunnelTargetIsInjective(a: string, b: string)
    requires TunnelTarget(a) == TunnelTarget(b)
    ensures a == b
  {
    TunnelTargetIsInvertible(a);
    TunnelTargetIsInvertible(b);
  }

  lemma TargetOfTargetedTunnel(content: string)
    requires EndsWith(content, TARGET_SUFFIX)
    ensures TunnelTarget(TargetedTunnel(content)) == content
  {
    assert content == content[..|content| - |TARGET_SUFFIX|] + content[|content| - |TARGET_SUFFIX|..];
  }

  function Split(s: string, separator: char): (parts: seq<string>)
    ensures |parts| >= 1
  {
    if s == [] then [[]]
    else
      var rest := Split(s[1..], separator);
      if s[0] == separator then [[]] + rest else [[s[0]] + rest[0]] + rest[1..]
  }

  lemma {:induction false} SplitSegment(a: string, separator: char, rest: string)
    requires separator !in a
    ensures Split(a + [separator] + rest, separator) == [a] + Split(rest, separator)
  {
    var s := a + [separator] + rest;
    if a == [] {
      assert s[1..] == rest;
    } else {
      assert a[0] != separator;
      assert s[1..] == a[1..] + [separator] + rest;
      SplitSegment(a[1..], separator, rest);
      assert [s[0]] + a[1..] == a;
    }
  }

  lemma {:induction false} SplitNothing(a: string, separator: char)
    requires separator !in a
    ensures Split(a, separator) == [a]
  {
    if a != [] {
      assert a[0] != separator;
      SplitNothing(a[1..], separator);
      assert [a[0]] + a[1..] == a;
    }
  }
}
