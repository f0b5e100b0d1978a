// The hostname policy of one Cloudflare zone: which hostnames a wildcard pattern admits.

module Hostnames {
  import opened Text

  datatype Authority = Authority(zoneName: string, pattern: string)

  predicate HostChar(c: char) {
    'a' <= c <= 'z' || '0' <= c <= '9' || c == '-'
  }

  predicate EdgeChar(c: char) {
    HostChar(c) && c != '-'
  }

  predicate HostLabel(name: string) {
    && 1 <= |name| <= 63
    && EdgeChar(name[0]) && EdgeChar(name[|name| - 1])
    && forall i :: 0 <= i < |name| ==> HostChar(name[i])
  }

  predicate PatternLabel(name: string) {
    && 1 <= |name| <= 63
    && (EdgeChar(name[0]) || name[0] == '*')
    && (EdgeChar(name[|name| - 1]) || name[|name| - 1] == '*')
    && forall i :: 0 <= i < |name| ==> HostChar(name[i]) || name[i] == '*'
  }

  predicate ValidHostname(value: string) {
    var labels := Split(Lower(value), '.');
    && |labels| >= 2
    && (forall i :: 0 <= i < |labels| ==> HostLabel(labels[i]))
    && !SecretText(value)
  }

  function CountStars(labels: seq<string>): nat {
    if labels == [] then 0 else (if labels[0] == "*" then 1 else 0) + CountStars(labels[1..])
  }

  predicate ValidPattern(value: string, zoneName: string) {
    var labels := Split(Lower(value), '.');
    && EndsWith(value, "." + zoneName)
    && CountStars(labels) <= 1
    && (forall i :: 0 <= i < |labels| ==> PatternLabel(labels[i]))
    && !SecretText(value)
  }

  predicate ValidAuthority(a: Authority) {
    ValidHostname(a.zoneName) && ValidPattern(a.pattern, a.zoneName)
  }

  /** The anchored regular expression built from a pattern: literal characters, and `*` for one
      or more host characters. */
  predicate Matches(pattern: string, host: string)
    decreases |host|
  {
    if pattern == [] then host == []
    else if host == [] then false
    else if pattern[0] == '*' then
      HostChar(host[0]) && (Matches(pattern[1..], host[1..]) || Matches(pattern, host[1..]))
    else
      pattern[0] == host[0] && Matches(pattern[1..], host[1..])
  }

  predicate AllowsHostname(a: Authority, hostname: string) {
    ValidHostname(hostname) && Matches(Lower(a.pattern), Lower(hostname))
  }

  // ---- what a match means ----

  ghost predicate HostText(s: string) {
    |s| >= 1 && forall i :: 0 <= i < |s| ==> HostChar(s[i])
  }

  /** Replaces the stars of a pattern, left to right, by the given texts. */
  function Substitute(pattern: string, texts: seq<string>): string {
    if pattern == [] then []
    else if pattern[0] != '*' then [pattern[0]] + Substitute(pattern[1..], texts)
    else if texts == [] then []
    else texts[0] + Substitute(pattern[1..], texts[1..])
  }

  function Stars(pattern: string): nat {
    if pattern == [] then 0 else (if pattern[0] == '*' then 1 else 0) + Stars(pattern[1..])
  }

  ghost predicate Fills(pattern: string, texts: seq<string>, host: string) {
    && |texts| == Stars(pattern)
    && (forall i :: 0 <= i < |texts| ==> HostText(texts[i]))
    && host == Substitute(pattern, texts)
  }

  lemma {:induction false} MatchHasTexts(pattern: string, host: string) returns (texts: seq<string>)
    requires Matches(pattern, host)
    ensures Fills(pattern, texts, host)
    decreases |host|
  {
    if pattern == [] {
      texts := [];
    } else if pattern[0] != '*' {
      texts := MatchHasTexts(pattern[1..], host[1..]);
    } else if Matches(pattern[1..], host[1..]) {
      var rest := MatchHasTexts(pattern[1..], host[1..]);
      texts := [[host[0]]] + rest;
      assert texts[1..] == rest;
    } else {
      var rest := MatchHasTexts(pattern, host[1..]);
      texts := [[host[0]] + rest[0]] + rest[1..];
      assert texts[1..] == rest[1..];
      assert Substitute(pattern, texts) == [host[0]] + Substitute(pattern, rest);
      forall i | 0 <= i < |texts| ensures HostText(texts[i]) {
        if i > 0 {
          assert texts[i] == rest[i];
        }
      }
    }
  }

  lemma {:induction false} TextsMatch(pattern: string, texts: seq<string>, host: string)
    requires Fills(pattern, texts, host)
    ensures Matches(pattern, host)
    decreases |pattern|, |host|
  {
    if pattern == [] {
    } else if pattern[0] != '*' {
      assert host[1..] == Substitute(pattern[1..], texts);
      TextsMatch(pattern[1..], texts, host[1..]);
    } else {
      var first, rest := texts[0], texts[1..];
      var tail := Substitute(pattern[1..], rest);
      assert host[0] == first[0];
      forall i | 0 <= i < |rest| ensures HostText(rest[i]) {
        assert rest[i] == texts[i + 1];
      }
      if |first| == 1 {
        assert host[1..] == tail;
        TextsMatch(pattern[1..], rest, host[1..]);
      } else {
        var shorter := [first[1..]] + rest;
        assert shorter[1..] == rest;
        forall i | 0 <= i < |shorter| ensures HostText(shorter[i]) {
          if i > 0 {
            assert shorter[i] == rest[i - 1];
          }
        }
        assert host[1..] == first[1..] + tail;
        TextsMatch(pattern, shorter, host[1..]);
      }
    }
  }

  /** The matcher accepts exactly the substitution instances of the pattern. */
  lemma MatchesAreInstances(pattern: string, host: string)
    ensures Matches(pattern, host) <==> exists texts :: Fills(pattern, texts, host)
  {
    if Matches(pattern, host) {
      var texts := MatchHasTexts(pattern, host);
    }
    forall texts | Fills(pattern, texts, host) ensures Matches(pattern, host) {
      TextsMatch(pattern, texts, host);
    }
  }

  // ---- a wildcard never matches a dot ----

  ghost predicate LabelwiseMatch(patterns: seq<string>, labels: seq<string>) {
    && |patterns| == |labels|
    && forall i :: 0 <= i < |labels| ==> Matches(patterns[i], labels[i])
  }

  lemma SplitFirst(s: string)
    requires s != []
    ensures s[0] == '.' ==> Split(s, '.')[0] == [] && Split(s, '.')[1..] == Split(s[1..], '.')
    ensures s[0] != '.' ==> Split(s, '.')[0] == [s[0]] + Split(s[1..], '.')[0]
    ensures s[0] != '.' ==> Split(s, '.')[1..] == Split(s[1..], '.')[1..]
  {
  }

  lemma LabelwiseParts(patterns: seq<string>, labels: seq<string>)
    requires |patterns| >= 1 && |labels| >= 1
    ensures LabelwiseMatch(patterns, labels)
       <==> Matches(patterns[0], labels[0]) && LabelwiseMatch(patterns[1..], labels[1..])
  {
    var p, l := patterns[1..], labels[1..];
    if Matches(patterns[0], labels[0]) && LabelwiseMatch(p, l) {
      forall i | 0 <= i < |labels| ensures Matches(patterns[i], labels[i]) {
        if i > 0 {
          assert patterns[i] == p[i - 1] && labels[i] == l[i - 1];
        }
      }
    }
    if LabelwiseMatch(patterns, labels) {
      forall i | 0 <= i < |l| ensures Matches(p[i], l[i]) {
        assert p[i] == patterns[i + 1] && l[i] == labels[i + 1];
      }
    }
  }

  lemma {:induction false} PatternFirst(pattern: string, host: string)
    requires pattern != [] && host != []
    requires pattern[0] != '*'
    ensures Matches(pattern, host) <==> pattern[0] == host[0] && Matches(pattern[1..], host[1..])
  {
  }

  /** Matching a whole hostname is matching it label by label, with equally many labels on
      both sides: for every pattern and every hostname. */
  lemma {:induction false} MatchIsLabelwise(pattern: string, host: string)
    ensures Matches(pattern, host) <==> LabelwiseMatch(Split(pattern, '.'), Split(host, '.'))
    decreases |host|
  {
    var ps, hs := Split(pattern, '.'), Split(host, '.');
    LabelwiseParts(ps, hs);
    if pattern == [] {
      if host != [] {
        SplitFirst(host);
        if host[0] != '.' {
          assert !Matches(ps[0], hs[0]);
        } else {
          assert |hs| >= 2;
        }
      }
    } else if host == [] {
      SplitFirst(pattern);
      if pattern[0] == '.' {
        assert |ps| >= 2;
      } else {
        assert !Matches(ps[0], hs[0]);
      }
    } else {
      SplitFirst(pattern);
      SplitFirst(host);
      var pt, ht := Split(pattern[1..], '.'), Split(host[1..], '.');
      MatchIsLabelwise(pattern[1..], host[1..]);
      LabelwiseParts(pt, ht);
      if pattern[0] == '*' {
        MatchIsLabelwise(pattern, host[1..]);
        LabelwiseParts(ps, ht);
        if host[0] == '.' {
          assert hs[0] == [] && ps[0] != [];
        } else {
          assert ps[0][0] == '*' && hs[0][0] == host[0];
          assert ps[0][1..] == pt[0] && hs[0][1..] == ht[0];
        }
      } else if pattern[0] == '.' {
        if host[0] == '.' {
          assert Matches(ps[0], hs[0]);
          assert ps[1..] == pt && hs[1..] == ht;
        } else {
          assert ps[0] == [] && hs[0] != [];
        }
      } else {
        if host[0] == '.' {
          assert hs[0] == [] && ps[0] != [];
        } else {
          assert ps[0][0] == pattern[0] && hs[0][0] == host[0];
          assert ps[0][1..] == pt[0] && hs[0][1..] == ht[0];
          PatternFirst(ps[0], hs[0]);
        }
      }
    }
  }

  lemma {:induction false} LiteralSuffix(pattern: string, suffix: string, host: string)
    requires forall i :: 0 <= i < |suffix| ==> suffix[i] != '*'
    requires Matches(pattern + suffix, host)
    ensures EndsWith(host, suffix)
    decreases |host|
  {
    if pattern == [] {
      assert pattern + suffix == suffix;
      LiteralMatch(suffix, host);
    } else {
      var whole := pattern + suffix;
      assert whole[1..] == pattern[1..] + suffix;
      if Matches(whole[1..], host[1..]) {
        LiteralSuffix(pattern[1..], suffix, host[1..]);
      } else {
        LiteralSuffix(pattern, suffix, host[1..]);
      }
      assert host[|host| - |suffix|..] == host[1..][|host| - 1 - |suffix|..];
    }
  }

  lemma {:induction false} LiteralMatch(literal: string, host: string)
    requires forall i :: 0 <= i < |literal| ==> literal[i] != '*'
    requires Matches(literal, host)
    ensures host == literal
  {
    if literal != [] {
      LiteralMatch(literal[1..], host[1..]);
    }
  }

  lemma {:induction false} SplitParts(s: string, i: nat)
    requires i < |s| && s[i] != '.'
    ensures exists j, k :: 0 <= j < |Split(s, '.')| && 0 <= k < |Split(s, '.')[j]| && Split(s, '.')[j][k] == s[i]
  {
    var parts := Split(s, '.');
    if i == 0 {
      assert parts[0][0] == s[0];
    } else {
      var tail := Split(s[1..], '.');
      SplitParts(s[1..], i - 1);
      var j, k :| 0 <= j < |tail| && 0 <= k < |tail[j]| && tail[j][k] == s[i];
      if s[0] == '.' {
        assert parts[j + 1] == tail[j];
      } else if j == 0 {
        assert parts[0][k + 1] == tail[0][k];
      } else {
        assert parts[j] == tail[j];
      }
    }
  }

  lemma HostnamesHaveNoStar(value: string)
    requires ValidHostname(value)
    ensures forall i :: 0 <= i < |value| ==> value[i] != '*'
  {
    forall i | 0 <= i < |value| ensures value[i] != '*' {
      if value[i] == '*' {
        assert Lower(value)[i] == '*';
        SplitParts(Lower(value), i);
        assert false;
      }
    }
  }

  lemma ZoneSuffix(pattern: string, zoneName: string, host: string)
    requires EndsWith(pattern, "." + zoneName)
    requires forall i :: 0 <= i < |zoneName| ==> zoneName[i] != '*'
    requires Matches(Lower(pattern), host)
    ensures EndsWith(host, Lower("." + zoneName))
  {
    var suffix := "." + zoneName;
    var head := pattern[..|pattern| - |suffix|];
    assert pattern == head + suffix;
    assert Lower(pattern) == Lower(head) + Lower(suffix);
    LiteralSuffix(Lower(head), Lower(suffix), host);
  }

  /** Every hostname an authority allows lies under its zone and has as many labels as its
      pattern, each label matching the pattern's label at the same place. */
  lemma AllowedHostnamesStayInZone(a: Authority, hostname: string)
    requires ValidAuthority(a)
    requires AllowsHostname(a, hostname)
    ensures EndsWith(Lower(hostname), Lower("." + a.zoneName))
    ensures LabelwiseMatch(Split(Lower(a.pattern), '.'), Split(Lower(hostname), '.'))
  {
    HostnamesHaveNoStar(a.zoneName);
    ZoneSuffix(a.pattern, a.zoneName, Lower(hostname));
    MatchIsLabelwise(Lower(a.pattern), Lower(hostname));
  }

  /** Exactly the valid hostnames are allowed whose labels match the pattern's one by one. */
  lemma AllowedIffLabelwise(a: Authority, hostname: string)
    ensures AllowsHostname(a, hostname) <==>
              && ValidHostname(hostname)
              && LabelwiseMatch(Split(Lower(a.pattern), '.'), Split(Lower(hostname), '.'))
  {
    MatchIsLabelwise(Lower(a.pattern), Lower(hostname));
  }
}
