// The texts that are read as IP addresses: dotted quads, and the text forms of section 2.2 of
// RFC 4291 with an optional zone after a percent sign, as section 11 of RFC 4007 writes it.

module IpAddress {
  import opened Text

  predicate Digit(c: char) {
    '0' <= c <= '9'
  }

  predicate HexDigit(c: char) {
    Digit(c) || 'a' <= c <= 'f' || 'A' <= c <= 'F'
  }

  /** A decimal number up to 255 without leading zeros. */
  predicate Octet(s: string) {
    && 1 <= |s| <= 3 && (forall i | 0 <= i < |s| :: Digit(s[i]))
    && (s[0] == '0' ==> |s| == 1)
    && (|s| == 3 ==> 100 * (s[0] - '0') as int + 10 * (s[1] - '0') as int + (s[2] - '0') as int <= 255)
  }

  predicate Ipv4(s: string) {
    var octets := Split(s, '.');
    |octets| == 4 && forall i | 0 <= i < 4 :: Octet(octets[i])
  }

  predicate Hextet(s: string) {
    1 <= |s| <= 4 && forall i | 0 <= i < |s| :: HexDigit(s[i])
  }

  /** How many of the eight groups the parts between colons stand for: a dotted quad at the end
      stands for two. */
  function GroupCount(parts: seq<string>): nat
    requires parts != []
  {
    |parts| + if '.' in parts[|parts| - 1] then 1 else 0
  }

  predicate Groups(parts: seq<string>) {
    && 3 <= |parts| && GroupCount(parts) <= 9
    && (forall i | 0 <= i < |parts| - 1 :: parts[i] == "" || Hextet(parts[i]))
    && var last := parts[|parts| - 1];
       if '.' in last then Ipv4(last) else last == "" || Hextet(last)
  }

  /** All eight groups are written out. */
  predicate Written(parts: seq<string>)
    requires parts != []
  {
    GroupCount(parts) == 8 && forall i | 0 <= i < |parts| :: parts[i] != ""
  }

  /** Two colons at part `k` stand for at least one group of zeros; a colon at either end is part
      of them. */
  predicate CompressedAt(parts: seq<string>, k: nat)
    requires 1 <= k < |parts| - 1
  {
    var m, n := GroupCount(parts), |parts|;
    && (forall i | 1 <= i < n - 1 :: parts[i] == "" <==> i == k)
    && (parts[0] == "" ==> k == 1) && (parts[n - 1] == "" ==> k == m - 2)
    && m - 1 - (if parts[0] == "" then 1 else 0) - (if parts[n - 1] == "" then 1 else 0) <= 7
  }

  predicate Ipv6Body(s: string) {
    var parts := Split(s, ':');
    && Groups(parts)
    && (Written(parts) || exists k | 1 <= k < |parts| - 1 :: CompressedAt(parts, k))
  }

  /** The address, and at most one zone that is not empty. */
  predicate Ipv6(s: string) {
    var zoned := Split(s, '%');
    && '/' !in s && |zoned| <= 2 && (|zoned| == 2 ==> zoned[1] != "")
    && Ipv6Body(zoned[0])
  }

  predicate Ip(s: string) {
    Ipv4(s) || Ipv6(s)
  }

  lemma OnesAreIpv4()
    ensures Ipv4("1.1.1.1")
  {
    assert "1.1.1.1" == "1" + ['.'] + ("1" + ['.'] + ("1" + ['.'] + "1"));
    SplitSegment("1", '.', "1" + ['.'] + ("1" + ['.'] + "1"));
    SplitSegment("1", '.', "1" + ['.'] + "1");
    SplitSegment("1", '.', "1");
    SplitNothing("1", '.');
    assert Split("1.1.1.1", '.') == ["1", "1", "1", "1"];
  }

  /** An address that every inspection accepts. */
  function SomeAddress(): (s: string)
    ensures Ip(s) && |s| <= 45 && '%' !in s
  {
    OnesAreIpv4();
    "1.1.1.1"
  }

  // ---- how long an address without a zone can be ----

  function Total(parts: seq<string>): nat {
    if parts == [] then 0 else |parts[0]| + Total(parts[1..])
  }

  lemma {:induction false} SplitLength(s: string, separator: char)
    ensures Total(Split(s, separator)) + |Split(s, separator)| == |s| + 1
  {
    if s != [] {
      var parts, rest := Split(s, separator), Split(s[1..], separator);
      SplitLength(s[1..], separator);
      assert parts[1..] == if s[0] == separator then rest else rest[1..];
    }
  }

  lemma {:induction false} TotalParts(a: seq<string>, b: seq<string>)
    ensures Total(a + b) == Total(a) + Total(b)
  {
    if a == [] {
      assert a + b == b;
    } else {
      assert (a + b)[1..] == a[1..] + b;
      TotalParts(a[1..], b);
    }
  }

  lemma {:induction false} TotalAtMost(parts: seq<string>, most: nat)
    requires forall i | 0 <= i < |parts| :: |parts[i]| <= most
    ensures Total(parts) <= most * |parts|
  {
    if parts != [] {
      TotalAtMost(parts[1..], most);
      assert most * |parts| == most * |parts[1..]| + most;
    }
  }

  lemma Ipv4IsShort(s: string)
    requires Ipv4(s)
    ensures |s| <= 15
  {
    SplitLength(s, '.');
    TotalAtMost(Split(s, '.'), 3);
  }

  lemma TotalAround(parts: seq<string>, k: nat)
    requires k < |parts| - 1
    ensures Total(parts) == Total(parts[..k]) + |parts[k]| + Total(parts[k + 1..|parts| - 1]) + |parts[|parts| - 1]|
  {
    var n := |parts|;
    assert parts == parts[..k] + ([parts[k]] + (parts[k + 1..n - 1] + [parts[n - 1]]));
    TotalParts(parts[..k], [parts[k]] + (parts[k + 1..n - 1] + [parts[n - 1]]));
    TotalParts([parts[k]], parts[k + 1..n - 1] + [parts[n - 1]]);
    TotalParts(parts[k + 1..n - 1], [parts[n - 1]]);
  }

  lemma CompressedIsShort(parts: seq<string>, k: nat)
    requires Groups(parts) && 1 <= k < |parts| - 1 && CompressedAt(parts, k)
    ensures Total(parts) + |parts| <= 46
  {
    var n := |parts|;
    TotalAround(parts, k);
    TotalAtMost(parts[k + 1..n - 1], 4);
    TotalAtMost(parts[..k], if parts[0] == "" then 0 else 4);
    if '.' in parts[n - 1] {
      Ipv4IsShort(parts[n - 1]);
    }
  }

  lemma WrittenIsShort(parts: seq<string>)
    requires Groups(parts) && Written(parts)
    ensures Total(parts) + |parts| <= 46
  {
    var n := |parts|;
    assert parts == parts[..n - 1] + [parts[n - 1]];
    TotalParts(parts[..n - 1], [parts[n - 1]]);
    TotalAtMost(parts[..n - 1], 4);
    if '.' in parts[n - 1] {
      Ipv4IsShort(parts[n - 1]);
    }
  }

  /** An address without a zone has at most 45 characters. */
  lemma ZonelessIsShort(s: string)
    requires Ip(s) && '%' !in s
    ensures |s| <= 45
  {
    if Ipv4(s) {
      Ipv4IsShort(s);
    } else {
      SplitNothing(s, '%');
      SplitLength(s, ':');
      var parts := Split(s, ':');
      if Written(parts) {
        WrittenIsShort(parts);
      } else {
        var k :| 1 <= k < |parts| - 1 && CompressedAt(parts, k);
        CompressedIsShort(parts, k);
      }
    }
  }

  lemma TooShortForIpv6(s: string)
    requires |s| <= 1
    ensures !Ipv6(s)
  {
    SplitLength(s, '%');
    SplitLength(Split(s, '%')[0], ':');
  }

  // ---- with a zone it can be of any length ----

  /** The link-local address of a zone with a name of this length. */
  function LinkLocal(n: nat): string {
    "fe80::1%" + seq(n, _ => 'a')
  }

  lemma LinkLocalParts()
    ensures Split("fe80::1", ':') == ["fe80", "", "1"]
  {
    assert "fe80::1" == "fe80" + [':'] + ("" + [':'] + "1");
    SplitSegment("fe80", ':', "" + [':'] + "1");
    SplitSegment("", ':', "1");
    SplitNothing("1", ':');
  }

  /** One group, two colons, one group. */
  lemma TwoGroups(a: string, b: string)
    requires Hextet(a) && Hextet(b)
    ensures Groups([a, "", b]) && CompressedAt([a, "", b], 1)
  {
    assert '.' !in b;
  }

  lemma LinkLocalBody()
    ensures Ipv6Body("fe80::1")
  {
    LinkLocalParts();
    assert Hextet("fe80") && Hextet("1");
    TwoGroups("fe80", "1");
  }

  lemma LinkLocalIsIpv6(n: nat)
    requires n > 0
    ensures Ipv6(LinkLocal(n)) && |LinkLocal(n)| == 8 + n
  {
    var zone := seq(n, _ => 'a');
    assert "fe80::1%" + zone == "fe80::1" + ['%'] + zone;
    SplitSegment("fe80::1", '%', zone);
    SplitNothing(zone, '%');
    assert ["fe80::1"] + [zone] == ["fe80::1", zone];
    LinkLocalBody();
  }
}
