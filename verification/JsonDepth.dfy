// The nesting guard in front of the JSON parser: a one-pass scanner that knows only quotes,
// backslashes and brackets, proved to measure the true nesting of every JSON text.

module JsonDepth {

  const MAX_DEPTH := 8

  // ---- the scanner ----

  datatype State = State(depth: int, quoted: bool, escaped: bool)

  datatype Scan = Refused | At(state: State)

  function Step(st: State, c: char): Scan {
    if st.quoted then
      if st.escaped then At(st.(escaped := false))
      else if c == '\\' then At(st.(escaped := true))
      else if c == '"' then At(st.(quoted := false))
      else At(st)
    else if c == '"' then At(st.(quoted := true))
    else if c == '[' || c == '{' then
      if st.depth + 1 > MAX_DEPTH then Refused else At(st.(depth := st.depth + 1))
    else if c == ']' || c == '}' then At(st.(depth := st.depth - 1))
    else At(st)
  }

  function ScanFrom(st: State, text: string): Scan
    decreases |text|
  {
    if text == [] then At(st)
    else match Step(st, text[0])
      case Refused => Refused
      case At(next) => ScanFrom(next, text[1..])
  }

  const START := State(0, false, false)

  method Scanner(text: string) returns (accepted: bool)
    ensures accepted <==> ScanFrom(START, text).At?
  {
    var depth, quoted, escaped := 0, false, false;
    for i := 0 to |text|
      invariant ScanFrom(START, text) == ScanFrom(State(depth, quoted, escaped), text[i..])
    {
      var character := text[i];
      if quoted {
        if escaped {
          escaped := false;
        } else if character == '\\' {
          escaped := true;
        } else if character == '"' {
          quoted := false;
        }
      } else if character == '"' {
        quoted := true;
      } else if character == '[' || character == '{' {
        depth := depth + 1;
        if depth > MAX_DEPTH {
          return false;
        }
      } else if character == ']' || character == '}' {
        depth := depth - 1;
      }
    }
    return true;
  }

  // ---- JSON texts (RFC 8259), with every freedom of spelling kept ----

  /** One character of a string: itself, or a backslash and what it escapes. */
  datatype Character = Plain(c: char) | Escape(c: char) | Hex(digits: string)

  datatype Json =
    | Literal(text: string)
    | Text(characters: seq<Character>)
    | Array(space: string, items: Items)
    | Object(space: string, members: Members)

  datatype Items = NoItem | Item(before: string, value: Json, behind: string, others: Items)

  datatype Members =
    | NoMember
    | Member(before: string, key: seq<Character>, beforeColon: string, afterColon: string,
             value: Json, behind: string, others: Members)

  predicate Space(s: string) {
    forall i | 0 <= i < |s| :: s[i] == ' ' || s[i] == '\t' || s[i] == '\n' || s[i] == '\r'
  }

  predicate NumberChar(c: char) {
    '0' <= c <= '9' || c == '+' || c == '-' || c == '.' || c == 'e' || c == 'E'
  }

  predicate LiteralText(s: string) {
    || s == "null" || s == "true" || s == "false"
    || (s != [] && forall i | 0 <= i < |s| :: NumberChar(s[i]))
  }

  predicate HexDigit(c: char) {
    '0' <= c <= '9' || 'a' <= c <= 'f' || 'A' <= c <= 'F'
  }

  predicate IsCharacter(c: Character) {
    match c
    case Plain(p) => p >= ' ' && p != '"' && p != '\\'
    case Escape(e) => e in "\"\\/bfnrt"
    case Hex(digits) => |digits| == 4 && forall i | 0 <= i < 4 :: HexDigit(digits[i])
  }

  predicate IsString(s: seq<Character>) {
    forall i | 0 <= i < |s| :: IsCharacter(s[i])
  }

  predicate IsJson(v: Json) {
    match v
    case Literal(text) => LiteralText(text)
    case Text(characters) => IsString(characters)
    case Array(space, items) => Space(space) && AreItems(items)
    case Object(space, members) => Space(space) && AreMembers(members)
  }

  predicate AreItems(items: Items) {
    items.Item? ==> Space(items.before) && IsJson(items.value) && Space(items.behind) && AreItems(items.others)
  }

  predicate AreMembers(members: Members) {
    members.Member? ==>
      && Space(members.before) && IsString(members.key) && Space(members.beforeColon) && Space(members.afterColon)
      && IsJson(members.value) && Space(members.behind) && AreMembers(members.others)
  }

  function PrintCharacter(c: Character): string {
    match c
    case Plain(p) => [p]
    case Escape(e) => ['\\', e]
    case Hex(digits) => "\\u" + digits
  }

  function PrintCharacters(s: seq<Character>): string {
    if s == [] then "" else PrintCharacter(s[0]) + PrintCharacters(s[1..])
  }

  function PrintString(s: seq<Character>): string {
    "\"" + PrintCharacters(s) + "\""
  }

  function Print(v: Json): string {
    match v
    case Literal(text) => text
    case Text(characters) => PrintString(characters)
    case Array(space, items) => "[" + space + PrintItems(items) + "]"
    case Object(space, members) => "{" + space + PrintMembers(members) + "}"
  }

  function PrintItems(items: Items): string {
    match items
    case NoItem => ""
    case Item(before, value, behind, others) =>
      before + Print(value) + behind + (if others.NoItem? then "" else "," + PrintItems(others))
  }

  function PrintMembers(members: Members): string {
    match members
    case NoMember => ""
    case Member(before, key, beforeColon, afterColon, value, behind, others) =>
      before + PrintString(key) + beforeColon + ":" + afterColon + Print(value) + behind
      + (if others.NoMember? then "" else "," + PrintMembers(others))
  }

  function Max(a: nat, b: nat): nat {
    if a < b then b else a
  }

  /** The true nesting: how many arrays and objects lie around the deepest one. */
  function Depth(v: Json): nat {
    match v
    case Literal(_) => 0
    case Text(_) => 0
    case Array(_, items) => 1 + DepthOfItems(items)
    case Object(_, members) => 1 + DepthOfMembers(members)
  }

  function DepthOfItems(items: Items): nat {
    match items
    case NoItem => 0
    case Item(_, value, _, others) => Max(Depth(value), DepthOfItems(others))
  }

  function DepthOfMembers(members: Members): nat {
    match members
    case NoMember => 0
    case Member(_, _, _, _, value, _, others) => Max(Depth(value), DepthOfMembers(others))
  }

  // ---- the scanner measures the depth ----

  function Then(s: Scan, text: string): Scan {
    match s
    case Refused => Refused
    case At(st) => ScanFrom(st, text)
  }

  lemma {:induction false} ScanConcat(st: State, a: string, b: string)
    ensures ScanFrom(st, a + b) == Then(ScanFrom(st, a), b)
    decreases |a|
  {
    if a == [] {
      assert a + b == b;
    } else {
      assert (a + b)[0] == a[0] && (a + b)[1..] == a[1..] + b;
      match Step(st, a[0])
      case Refused =>
      case At(next) => ScanConcat(next, a[1..], b);
    }
  }

  lemma ScanOne(st: State, c: char)
    ensures ScanFrom(st, [c]) == Step(st, c)
  {
  }

  predicate Inert(c: char) {
    c != '"' && c != '[' && c != ']' && c != '{' && c != '}'
  }

  lemma {:induction false} ScanInert(d: int, s: string)
    requires forall i | 0 <= i < |s| :: Inert(s[i])
    ensures ScanFrom(State(d, false, false), s) == At(State(d, false, false))
  {
    if s != [] {
      assert Inert(s[0]);
      ScanInert(d, s[1..]);
    }
  }

  lemma {:induction false} ScanQuoted(d: int, s: string)
    requires forall i | 0 <= i < |s| :: s[i] != '"' && s[i] != '\\'
    ensures ScanFrom(State(d, true, false), s) == At(State(d, true, false))
  {
    if s != [] {
      ScanQuoted(d, s[1..]);
    }
  }

  lemma ScanCharacter(d: int, c: Character)
    requires IsCharacter(c)
    ensures ScanFrom(State(d, true, false), PrintCharacter(c)) == At(State(d, true, false))
  {
    match c
    case Plain(_) =>
    case Escape(e) =>
      ScanOne(State(d, true, false), '\\');
      ScanOne(State(d, true, true), e);
      ScanConcat(State(d, true, false), ['\\'], [e]);
      assert ['\\'] + [e] == PrintCharacter(c);
    case Hex(digits) =>
      assert PrintCharacter(c)[1..] == ['u'] + digits;
      assert (['u'] + digits)[1..] == digits;
      assert forall i | 0 <= i < 4 :: HexDigit(digits[i]);
      ScanQuoted(d, digits);
  }

  lemma {:induction false} ScanCharacters(d: int, s: seq<Character>)
    requires IsString(s)
    ensures ScanFrom(State(d, true, false), PrintCharacters(s)) == At(State(d, true, false))
  {
    if s != [] {
      ScanCharacter(d, s[0]);
      ScanCharacters(d, s[1..]);
      ScanConcat(State(d, true, false), PrintCharacter(s[0]), PrintCharacters(s[1..]));
    }
  }

  lemma ScanString(d: int, s: seq<Character>)
    requires IsString(s)
    ensures ScanFrom(State(d, false, false), PrintString(s)) == At(State(d, false, false))
  {
    ScanOne(State(d, false, false), '"');
    ScanCharacters(d, s);
    ScanConcat(State(d, false, false), "\"", PrintCharacters(s));
    ScanOne(State(d, true, false), '"');
    ScanConcat(State(d, false, false), "\"" + PrintCharacters(s), "\"");
  }

  /** What scanning a text of nesting `n` from depth `d` must come to. */
  function Measured(d: int, n: nat): Scan {
    if d + n <= MAX_DEPTH then At(State(d, false, false)) else Refused
  }

  lemma ScanSequel(d: int, a: string, b: string, n: nat)
    requires d <= MAX_DEPTH
    requires ScanFrom(State(d, false, false), a) == At(State(d, false, false))
    requires ScanFrom(State(d, false, false), b) == Measured(d, n)
    ensures ScanFrom(State(d, false, false), a + b) == Measured(d, n)
  {
    ScanConcat(State(d, false, false), a, b);
  }

  lemma ScanBoth(d: int, a: string, b: string, m: nat, n: nat)
    requires d <= MAX_DEPTH
    requires ScanFrom(State(d, false, false), a) == Measured(d, m)
    requires ScanFrom(State(d, false, false), b) == Measured(d, n)
    ensures ScanFrom(State(d, false, false), a + b) == Measured(d, Max(m, n))
  {
    ScanConcat(State(d, false, false), a, b);
  }

  lemma ScanBracketed(d: int, open: char, body: string, close: char, n: nat)
    requires d <= MAX_DEPTH
    requires (open == '[' && close == ']') || (open == '{' && close == '}')
    requires d < MAX_DEPTH ==> ScanFrom(State(d + 1, false, false), body) == Measured(d + 1, n)
    ensures ScanFrom(State(d, false, false), [open] + body + [close]) == Measured(d, 1 + n)
  {
    ScanOne(State(d, false, false), open);
    ScanConcat(State(d, false, false), [open], body);
    ScanOne(State(d + 1, false, false), close);
    ScanConcat(State(d, false, false), [open] + body, [close]);
  }

  lemma ScanNested(d: int, open: char, space: string, body: string, close: char, n: nat)
    requires d <= MAX_DEPTH && Space(space)
    requires (open == '[' && close == ']') || (open == '{' && close == '}')
    requires d < MAX_DEPTH ==> ScanFrom(State(d + 1, false, false), body) == Measured(d + 1, n)
    ensures ScanFrom(State(d, false, false), [open] + space + body + [close]) == Measured(d, 1 + n)
  {
    if d < MAX_DEPTH {
      ScanInert(d + 1, space);
      ScanSequel(d + 1, space, body, n);
    }
    ScanBracketed(d, open, space + body, close, n);
    assert [open] + (space + body) + [close] == [open] + space + body + [close];
  }

  lemma LiteralIsInert(s: string)
    requires LiteralText(s)
    ensures forall i | 0 <= i < |s| :: Inert(s[i])
  {
    if s != "null" && s != "true" && s != "false" {
      assert forall i | 0 <= i < |s| :: NumberChar(s[i]);
    }
  }

  lemma {:induction false} ScanJson(d: int, v: Json)
    requires IsJson(v) && d <= MAX_DEPTH
    ensures ScanFrom(State(d, false, false), Print(v)) == Measured(d, Depth(v))
    decreases v, 1
  {
    match v
    case Literal(text) =>
      LiteralIsInert(text);
      ScanInert(d, text);
    case Text(characters) =>
      ScanString(d, characters);
    case Array(space, items) =>
      if d < MAX_DEPTH {
        ScanItems(d + 1, items);
      }
      ScanNested(d, '[', space, PrintItems(items), ']', DepthOfItems(items));
    case Object(space, members) =>
      if d < MAX_DEPTH {
        ScanMembers(d + 1, members);
      }
      ScanNested(d, '{', space, PrintMembers(members), '}', DepthOfMembers(members));
  }

  lemma {:induction false} ScanItems(d: int, items: Items)
    requires AreItems(items) && d <= MAX_DEPTH
    ensures ScanFrom(State(d, false, false), PrintItems(items)) == Measured(d, DepthOfItems(items))
    decreases items, 0
  {
    match items
    case NoItem =>
    case Item(before, value, behind, others) =>
      ScanInert(d, before);
      ScanJson(d, value);
      ScanItems(d, others);
      ScanElement(d, before, Print(value), behind, PrintItems(others), Depth(value), DepthOfItems(others));
      if others.NoItem? {
        assert PrintItems(items) == before + Print(value) + behind;
      }
  }

  /** A key with its colon is neutral, like space. */
  lemma ScanKey(d: int, before: string, key: seq<Character>, beforeColon: string, afterColon: string)
    requires Space(before) && IsString(key) && Space(beforeColon) && Space(afterColon)
    ensures ScanFrom(State(d, false, false), before + PrintString(key) + (beforeColon + ":" + afterColon))
         == At(State(d, false, false))
  {
    var st := State(d, false, false);
    ScanInert(d, before);
    ScanString(d, key);
    ScanConcat(st, before, PrintString(key));
    ScanInert(d, beforeColon + ":" + afterColon);
    ScanConcat(st, before + PrintString(key), beforeColon + ":" + afterColon);
  }

  /** One element, with what follows it. */
  lemma ScanElement(d: int, before: string, value: string, behind: string, others: string, m: nat, n: nat)
    requires d <= MAX_DEPTH && Space(behind)
    requires ScanFrom(State(d, false, false), before) == At(State(d, false, false))
    requires ScanFrom(State(d, false, false), value) == Measured(d, m)
    requires ScanFrom(State(d, false, false), others) == Measured(d, n)
    ensures ScanFrom(State(d, false, false), before + value + behind) == Measured(d, m)
    ensures ScanFrom(State(d, false, false), before + value + behind + ("," + others)) == Measured(d, Max(m, n))
  {
    ScanSequel(d, before, value, m);
    ScanInert(d, behind);
    ScanBoth(d, before + value, behind, m, 0);
    ScanInert(d, ",");
    ScanSequel(d, ",", others, n);
    ScanBoth(d, before + value + behind, "," + others, m, n);
  }

  lemma {:induction false} ScanMembers(d: int, members: Members)
    requires AreMembers(members) && d <= MAX_DEPTH
    ensures ScanFrom(State(d, false, false), PrintMembers(members)) == Measured(d, DepthOfMembers(members))
    decreases members, 0
  {
    match members
    case NoMember =>
    case Member(before, key, beforeColon, afterColon, value, behind, others) =>
      var name := before + PrintString(key) + (beforeColon + ":" + afterColon);
      var first := name + Print(value) + behind;
      ScanKey(d, before, key, beforeColon, afterColon);
      ScanJson(d, value);
      ScanMembers(d, others);
      ScanElement(d, name, Print(value), behind, PrintMembers(others), Depth(value), DepthOfMembers(others));
      assert before + PrintString(key) + beforeColon + ":" + afterColon == name;
      assert PrintMembers(members) == first + (if others.NoMember? then "" else "," + PrintMembers(others));
      if others.NoMember? {
        assert PrintMembers(members) == first;
      }
  }

  /** The guard's law: however strings hold quotes, backslashes or brackets, and wherever space
      is put, a JSON text passes exactly when its value nests at most eight levels deep. */
  lemma AcceptedExactlyUpToMaxDepth(before: string, v: Json, behind: string)
    requires Space(before) && IsJson(v) && Space(behind)
    ensures ScanFrom(START, before + Print(v) + behind).At? <==> Depth(v) <= MAX_DEPTH
  {
    ScanInert(0, before);
    ScanJson(0, v);
    ScanSequel(0, before, Print(v), Depth(v));
    ScanInert(0, behind);
    ScanBoth(0, before + Print(v), behind, Depth(v), 0);
  }
}
