// Call-local secret resolution: each exact grant is resolved at most once through the port, and
// after sealing only what was prepared can be had.

module PreparedSecrets {
  import opened Wrappers
  import opened Invocations
  import opened SecretId

  datatype Answer = Resolved(reference: string, value: string) | Missing | Denied | Malformed

  datatype Entry = Entry(grant: Grant, answer: Answer)

  function AnswersOf(entries: seq<Entry>): map<Grant, Answer> {
    if entries == [] then map[]
    else AnswersOf(entries[..|entries| - 1])[entries[|entries| - 1].grant := entries[|entries| - 1].answer]
  }

  predicate Distinct(entries: seq<Entry>) {
    forall i, j | 0 <= i < j < |entries| :: entries[i].grant != entries[j].grant
  }

  lemma {:induction false} AnswersOfEntries(entries: seq<Entry>)
    requires Distinct(entries)
    ensures forall g :: g in AnswersOf(entries) <==> exists i :: 0 <= i < |entries| && entries[i].grant == g
    ensures forall i | 0 <= i < |entries| :: entries[i].grant in AnswersOf(entries)
                                          && AnswersOf(entries)[entries[i].grant] == entries[i].answer
  {
    if entries != [] {
      AnswersOfEntries(entries[..|entries| - 1]);
    }
  }

  predicate Extends(less: map<Grant, Answer>, more: map<Grant, Answer>) {
    forall g | g in less :: g in more && more[g] == less[g]
  }

  lemma {:induction false} MoreEntries(entries: seq<Entry>, more: seq<Entry>)
    requires entries <= more && Distinct(more)
    ensures Extends(AnswersOf(entries), AnswersOf(more))
    decreases |more|
  {
    if |entries| < |more| {
      var less := more[..|more| - 1];
      MoreEntries(entries, less);
      AnswersOfEntries(less);
    } else {
      assert entries == more;
    }
  }

  // ---- what a delivery needs, as a function of the answers ----

  datatype Interpretation<+T> = Needs(grant: Grant) | Done(value: T) | Fails(code: Code)

  datatype Delivery =
    | Environment(name: string, reference: string, intent: string)
    | ReferenceOnly(name: string, reference: string)
    | File(target: string, reference: string, intent: string, binding: Option<string>)

  datatype Pair = Pair(name: string, value: string)

  datatype FileMaterial = FileMaterial(reference: string, target: string, value: string)

  /** The environment keeps its insertion order, each name once. */
  datatype Material = Material(environment: seq<Pair>, files: seq<FileMaterial>)

  function Lookup(environment: seq<Pair>, name: string): Option<string> {
    if environment == [] then None
    else if environment[0].name == name then Some(environment[0].value)
    else Lookup(environment[1..], name)
  }

  function Put(m: Material, name: string, value: string): Interpretation<Material> {
    match Lookup(m.environment, name)
    case None => Done(m.(environment := m.environment + [Pair(name, value)]))
    case Some(previous) => if previous == value then Done(m) else Fails(MalformedReference)
  }

  function Permitting(grants: seq<Grant>, reference: string, intent: string): seq<Grant> {
    if grants == [] then []
    else
      var rest := Permitting(grants[1..], reference, intent);
      if grants[0].Unversioned? && grants[0].reference == reference && grants[0].intent == intent
      then [grants[0]] + rest else rest
  }

  /** The one committed grant for a use; none or several is a refusal. */
  function GrantFor(grants: seq<Grant>, reference: string, intent: string): Option<Grant> {
    var matches := Permitting(grants, reference, intent);
    if |matches| == 1 then Some(matches[0]) else None
  }

  function OfSelection(grants: seq<Grant>, selection: Selection): seq<Grant> {
    if grants == [] then []
    else
      var rest := OfSelection(grants[1..], selection);
      if grants[0].Versioned? && grants[0].selection == selection then [grants[0]] + rest else rest
  }

  function SelectedGrantFor(grants: seq<Grant>, selection: Selection): Option<Grant> {
    var matches := OfSelection(grants, selection);
    if |matches| == 1 then Some(matches[0]) else None
  }

  /** Reading the answer to a grant for a reference. */
  function Read(answer: Answer, reference: string): Interpretation<string> {
    match answer
    case Missing => Fails(MissingSecret)
    case Denied => Fails(DeniedSecret)
    case Malformed => Fails(InvalidResult)
    case Resolved(given, value) => if given == reference then Done(value) else Fails(InvalidResult)
  }

  function Require(answers: map<Grant, Answer>, grant: Grant, reference: string): Interpretation<string> {
    if grant in answers then Read(answers[grant], reference) else Needs(grant)
  }

  function Authorized(answers: map<Grant, Answer>, grants: seq<Grant>, reference: string, intent: string)
    : Interpretation<string>
  {
    match GrantFor(grants, reference, intent)
    case None => Fails(DeniedSecret)
    case Some(grant) => Require(answers, grant, reference)
  }

  /** Where one delivery takes the material so far. */
  function Deliver(m: Material, d: Delivery, value: string): Interpretation<Material> {
    match d
    case Environment(name, _, _) => Put(m, name, value)
    case ReferenceOnly(name, reference) => Put(m, name, reference)
    case File(target, reference, _, binding) =>
      var with := m.(files := m.files + [FileMaterial(reference, target, value)]);
      if binding.Some? then Put(with, binding.value, target) else Done(with)
  }

  function DeliverOne(m: Material, d: Delivery, grants: seq<Grant>, answers: map<Grant, Answer>)
    : Interpretation<Material>
  {
    if d.ReferenceOnly? then Deliver(m, d, "")
    else
      match Authorized(answers, grants, d.reference, d.intent)
      case Needs(grant) => Needs(grant)
      case Fails(code) => Fails(code)
      case Done(value) => Deliver(m, d, value)
  }

  const EMPTY := Material([], [])

  function DeliverAll(ds: seq<Delivery>, grants: seq<Grant>, answers: map<Grant, Answer>): Interpretation<Material> {
    if ds == [] then Done(EMPTY)
    else
      match DeliverAll(ds[..|ds| - 1], grants, answers)
      case Done(m) => DeliverOne(m, ds[|ds| - 1], grants, answers)
      case stopped => stopped
  }

  lemma {:induction false} DeliverPrefix(ds: seq<Delivery>, n: nat, grants: seq<Grant>, answers: map<Grant, Answer>)
    requires n <= |ds|
    ensures !DeliverAll(ds[..n], grants, answers).Done? ==>
              DeliverAll(ds, grants, answers) == DeliverAll(ds[..n], grants, answers)
    decreases |ds|
  {
    if n < |ds| {
      var less := ds[..|ds| - 1];
      assert less[..n] == ds[..n];
      DeliverPrefix(less, n, grants, answers);
    } else {
      assert ds[..n] == ds;
    }
  }

  lemma {:induction false} DeliverWithMore(ds: seq<Delivery>, grants: seq<Grant>,
                                           less: map<Grant, Answer>, more: map<Grant, Answer>)
    requires Extends(less, more) && !DeliverAll(ds, grants, less).Needs?
    ensures DeliverAll(ds, grants, more) == DeliverAll(ds, grants, less)
  {
    if ds != [] {
      DeliverPrefix(ds, |ds| - 1, grants, less);
      DeliverWithMore(ds[..|ds| - 1], grants, less, more);
    }
  }

  /** One turn of the delivery loop, seen from the whole list. */
  lemma DeliverStep(ds: seq<Delivery>, i: nat, grants: seq<Grant>, first: seq<Entry>, before: seq<Entry>,
                    after: seq<Entry>, m: Material, x: Raised, sent: seq<Bracket>, r: Result<Material, Raised>)
    requires i < |ds| && Distinct(after) && before <= after
    requires DeliverAll(ds[..i], grants, AnswersOf(before)) == Done(m)
    requires Follows(DeliverOne(m, ds[i], grants, AnswersOf(before)),
                     DeliverOne(m, ds[i], grants, AnswersOf(after)), x, sent, r)
    ensures r.Success? ==> DeliverAll(ds[..i + 1], grants, AnswersOf(after)) == Done(r.value)
    ensures r.Failure? ==>
              var all := DeliverAll(ds, grants, AnswersOf(after));
              !all.Done? && r == Failure(if all.Needs? then x else SecretFailure(all.code))
    ensures before == first && !DeliverAll(ds, grants, AnswersOf(first)).Needs? ==>
              sent == [] && (r.Failure? ==> r == AsResult(DeliverAll(ds, grants, AnswersOf(first))))
  {
    assert ds[..i + 1][..i] == ds[..i];
    MoreEntries(before, after);
    DeliverWithMore(ds[..i], grants, AnswersOf(before), AnswersOf(after));
    DeliverPrefix(ds, i + 1, grants, AnswersOf(before));
    DeliverPrefix(ds, i + 1, grants, AnswersOf(after));
  }

  // ---- selected versions ----

  const MAX_VALUE_BYTES := 65536
  const MAX_NAMES := 1024
  const MAX_ENVIRONMENT_BYTES := 1048576

  datatype Chosen = Chosen(selection: Selection, value: string)

  function Select(answers: map<Grant, Answer>, grants: seq<Grant>, s: Selection): Interpretation<Chosen> {
    match SelectedGrantFor(grants, s)
    case None => Fails(DeniedSecret)
    case Some(grant) =>
      match Require(answers, grant, s.reference)
      case Needs(g) => Needs(g)
      case Fails(code) => Fails(code)
      case Done(value) => if |Utf8(value)| > MAX_VALUE_BYTES then Fails(InvalidResult) else Done(Chosen(s, value))
  }

  function SelectAll(ss: seq<Selection>, grants: seq<Grant>, answers: map<Grant, Answer>): Interpretation<seq<Chosen>> {
    if ss == [] then Done([])
    else
      match SelectAll(ss[..|ss| - 1], grants, answers)
      case Needs(g) => Needs(g)
      case Fails(code) => Fails(code)
      case Done(chosen) =>
        match Select(answers, grants, ss[|ss| - 1])
        case Needs(g) => Needs(g)
        case Fails(code) => Fails(code)
        case Done(c) => Done(chosen + [c])
  }

  lemma {:induction false} SelectPrefix(ss: seq<Selection>, n: nat, grants: seq<Grant>, answers: map<Grant, Answer>)
    requires n <= |ss|
    ensures !SelectAll(ss[..n], grants, answers).Done? ==>
              SelectAll(ss, grants, answers) == SelectAll(ss[..n], grants, answers)
    decreases |ss|
  {
    if n < |ss| {
      var less := ss[..|ss| - 1];
      assert less[..n] == ss[..n];
      SelectPrefix(less, n, grants, answers);
    } else {
      assert ss[..n] == ss;
    }
  }

  lemma {:induction false} SelectWithMore(ss: seq<Selection>, grants: seq<Grant>,
                                          less: map<Grant, Answer>, more: map<Grant, Answer>)
    requires Extends(less, more) && !SelectAll(ss, grants, less).Needs?
    ensures SelectAll(ss, grants, more) == SelectAll(ss, grants, less)
  {
    if ss != [] {
      SelectPrefix(ss, |ss| - 1, grants, less);
      SelectWithMore(ss[..|ss| - 1], grants, less, more);
    }
  }

  /** The last choice for a reference and intent is the one that counts. */
  function ChoiceFor(chosen: seq<Chosen>, reference: string, intent: string): Option<string> {
    if chosen == [] then None
    else
      var last := chosen[|chosen| - 1];
      if last.selection.reference == reference && last.selection.intent == intent then Some(last.value)
      else ChoiceFor(chosen[..|chosen| - 1], reference, intent)
  }

  function DeliverChosen(m: Material, d: Delivery, chosen: seq<Chosen>): Interpretation<Material> {
    if d.ReferenceOnly? then Deliver(m, d, "")
    else
      match ChoiceFor(chosen, d.reference, d.intent)
      case None => Fails(NotSelected)
      case Some(value) =>
        if d.Environment? && 0 as char in value then Fails(InvalidResult) else Deliver(m, d, value)
  }

  function DeliverAllChosen(ds: seq<Delivery>, chosen: seq<Chosen>): Interpretation<Material> {
    if ds == [] then Done(EMPTY)
    else
      match DeliverAllChosen(ds[..|ds| - 1], chosen)
      case Done(m) => DeliverChosen(m, ds[|ds| - 1], chosen)
      case stopped => stopped
  }

  lemma {:induction false} ChosenNeedNothing(ds: seq<Delivery>, chosen: seq<Chosen>)
    ensures !DeliverAllChosen(ds, chosen).Needs?
  {
    if ds != [] {
      ChosenNeedNothing(ds[..|ds| - 1], chosen);
    }
  }

  /** One turn of the selection loop, seen from the whole list. */
  lemma SelectStep(ss: seq<Selection>, i: nat, grants: seq<Grant>, first: seq<Entry>, before: seq<Entry>,
                   after: seq<Entry>, chosen: seq<Chosen>, x: Raised, sent: seq<Bracket>, r: Result<Chosen, Raised>)
    requires i < |ss| && Distinct(after) && before <= after
    requires SelectAll(ss[..i], grants, AnswersOf(before)) == Done(chosen)
    requires Follows(Select(AnswersOf(before), grants, ss[i]), Select(AnswersOf(after), grants, ss[i]), x, sent, r)
    ensures r.Success? ==> SelectAll(ss[..i + 1], grants, AnswersOf(after)) == Done(chosen + [r.value])
    ensures r.Failure? ==>
              var all := SelectAll(ss, grants, AnswersOf(after));
              !all.Done? && r == Failure(if all.Needs? then x else SecretFailure(all.code))
    ensures before == first && !SelectAll(ss, grants, AnswersOf(first)).Needs? ==>
              && sent == []
              && (r.Failure? ==> SelectAll(ss, grants, AnswersOf(first)).Fails?
                                 && r == Failure(SecretFailure(SelectAll(ss, grants, AnswersOf(first)).code)))
  {
    assert ss[..i + 1][..i] == ss[..i];
    MoreEntries(before, after);
    SelectWithMore(ss[..i], grants, AnswersOf(before), AnswersOf(after));
    SelectPrefix(ss, i + 1, grants, AnswersOf(before));
    SelectPrefix(ss, i + 1, grants, AnswersOf(after));
  }

  function Size(environment: seq<Pair>): nat {
    if environment == [] then 0
    else |Utf8(environment[0].name + "=" + environment[0].value)| + Size(environment[1..])
  }

  function SelectedMaterial(ds: seq<Delivery>, ss: seq<Selection>, grants: seq<Grant>, answers: map<Grant, Answer>)
    : Interpretation<Material>
  {
    match SelectAll(ss, grants, answers)
    case Needs(g) => Needs(g)
    case Fails(code) => Fails(code)
    case Done(chosen) =>
      match DeliverAllChosen(ds, chosen)
      case Done(m) =>
        if |m.environment| > MAX_NAMES || Size(m.environment) > MAX_ENVIRONMENT_BYTES then Fails(InvalidResult)
        else Done(m)
      case stopped => stopped
  }

  // ---- what the material holds ----

  predicate Permits(g: Grant, reference: string, intent: string) {
    g.Unversioned? && g.reference == reference && g.intent == intent
  }

  predicate IsVersion(g: Grant, selection: Selection) {
    g.Versioned? && g.selection == selection
  }

  /** The only grant of the list that permits the use. */
  ghost predicate OnlyGrant(grants: seq<Grant>, reference: string, intent: string, g: Grant) {
    exists i | 0 <= i < |grants| ::
      && grants[i] == g && Permits(g, reference, intent)
      && forall j | 0 <= j < |grants| && j != i :: !Permits(grants[j], reference, intent)
  }

  /** The only grant of the list for the selected version. */
  ghost predicate OnlyVersion(grants: seq<Grant>, selection: Selection, g: Grant) {
    exists i | 0 <= i < |grants| ::
      && grants[i] == g && IsVersion(g, selection)
      && forall j | 0 <= j < |grants| && j != i :: !IsVersion(grants[j], selection)
  }

  lemma {:induction false} PermittingMeans(grants: seq<Grant>, reference: string, intent: string)
    ensures Permitting(grants, reference, intent) == [] <==>
              forall j | 0 <= j < |grants| :: !Permits(grants[j], reference, intent)
    ensures forall g :: Permitting(grants, reference, intent) == [g] <==> OnlyGrant(grants, reference, intent, g)
  {
    if grants != [] {
      var rest := grants[1..];
      PermittingMeans(rest, reference, intent);
      assert forall j | 0 < j < |grants| :: grants[j] == rest[j - 1];
      forall g ensures Permitting(grants, reference, intent) == [g] <==> OnlyGrant(grants, reference, intent, g) {
        if OnlyGrant(grants, reference, intent, g) {
          OnlyGrantOfRest(grants, reference, intent, g);
        } else if Permitting(grants, reference, intent) == [g] {
          OnlyGrantFromRest(grants, reference, intent, g);
        }
      }
    }
  }

  lemma OnlyGrantOfRest(grants: seq<Grant>, reference: string, intent: string, g: Grant)
    requires grants != [] && OnlyGrant(grants, reference, intent, g)
    ensures if Permits(grants[0], reference, intent)
            then grants[0] == g && forall j | 0 <= j < |grants| - 1 :: !Permits(grants[1..][j], reference, intent)
            else OnlyGrant(grants[1..], reference, intent, g)
  {
    var i :| 0 <= i < |grants| && grants[i] == g && Permits(g, reference, intent)
          && forall j | 0 <= j < |grants| && j != i :: !Permits(grants[j], reference, intent);
    if i > 0 {
      assert grants[1..][i - 1] == g;
    }
  }

  lemma OnlyGrantFromRest(grants: seq<Grant>, reference: string, intent: string, g: Grant)
    requires grants != []
    requires if Permits(grants[0], reference, intent)
             then grants[0] == g && forall j | 0 <= j < |grants| - 1 :: !Permits(grants[1..][j], reference, intent)
             else OnlyGrant(grants[1..], reference, intent, g)
    ensures OnlyGrant(grants, reference, intent, g)
  {
    var rest := grants[1..];
    assert forall j | 0 < j < |grants| :: grants[j] == rest[j - 1];
    if !Permits(grants[0], reference, intent) {
      var i :| 0 <= i < |rest| && rest[i] == g && Permits(g, reference, intent)
            && forall j | 0 <= j < |rest| && j != i :: !Permits(rest[j], reference, intent);
      assert grants[i + 1] == g;
    }
  }

  lemma {:induction false} VersionsMean(grants: seq<Grant>, selection: Selection)
    ensures OfSelection(grants, selection) == [] <==> forall j | 0 <= j < |grants| :: !IsVersion(grants[j], selection)
    ensures forall g :: OfSelection(grants, selection) == [g] <==> OnlyVersion(grants, selection, g)
  {
    if grants != [] {
      var rest := grants[1..];
      VersionsMean(rest, selection);
      assert forall j | 0 < j < |grants| :: grants[j] == rest[j - 1];
      forall g ensures OfSelection(grants, selection) == [g] <==> OnlyVersion(grants, selection, g) {
        if OnlyVersion(grants, selection, g) {
          OnlyVersionOfRest(grants, selection, g);
        } else if OfSelection(grants, selection) == [g] {
          assert OfSelection(grants, selection)[0] == g;
          assert IsVersion(grants[0], selection) ==> OfSelection(rest, selection) == [];
          OnlyVersionFromRest(grants, selection, g);
        }
      }
    }
  }

  lemma OnlyVersionOfRest(grants: seq<Grant>, selection: Selection, g: Grant)
    requires grants != [] && OnlyVersion(grants, selection, g)
    ensures if IsVersion(grants[0], selection)
            then grants[0] == g && forall j | 0 <= j < |grants| - 1 :: !IsVersion(grants[1..][j], selection)
            else OnlyVersion(grants[1..], selection, g)
  {
    var i :| 0 <= i < |grants| && grants[i] == g && IsVersion(g, selection)
          && forall j | 0 <= j < |grants| && j != i :: !IsVersion(grants[j], selection);
    if i > 0 {
      assert grants[1..][i - 1] == g;
    }
  }

  lemma OnlyVersionFromRest(grants: seq<Grant>, selection: Selection, g: Grant)
    requires grants != []
    requires if IsVersion(grants[0], selection)
             then grants[0] == g && forall j | 0 <= j < |grants| - 1 :: !IsVersion(grants[1..][j], selection)
             else OnlyVersion(grants[1..], selection, g)
    ensures OnlyVersion(grants, selection, g)
  {
    var rest := grants[1..];
    assert forall j | 0 < j < |grants| :: grants[j] == rest[j - 1];
    if !IsVersion(grants[0], selection) {
      var i :| 0 <= i < |rest| && rest[i] == g && IsVersion(g, selection)
            && forall j | 0 <= j < |rest| && j != i :: !IsVersion(rest[j], selection);
      assert grants[i + 1] == g;
    }
  }

  /** There is exactly one committed grant for a use exactly if one is given. */
  lemma GrantIsTheOnlyOne(grants: seq<Grant>, reference: string, intent: string, selection: Selection)
    ensures forall g :: GrantFor(grants, reference, intent) == Some(g) <==> OnlyGrant(grants, reference, intent, g)
    ensures forall g :: SelectedGrantFor(grants, selection) == Some(g) <==> OnlyVersion(grants, selection, g)
  {
    PermittingMeans(grants, reference, intent);
    VersionsMean(grants, selection);
    var ps, vs := Permitting(grants, reference, intent), OfSelection(grants, selection);
    forall g ensures GrantFor(grants, reference, intent) == Some(g) <==> OnlyGrant(grants, reference, intent, g) {
      assert ps == [g] <==> |ps| == 1 && ps[0] == g;
    }
    forall g ensures SelectedGrantFor(grants, selection) == Some(g) <==> OnlyVersion(grants, selection, g) {
      assert vs == [g] <==> |vs| == 1 && vs[0] == g;
    }
  }

  /** The answer to the only grant for the use is this value of the reference itself. */
  ghost predicate ResolvedTo(grants: seq<Grant>, answers: map<Grant, Answer>, reference: string, intent: string,
                             value: string) {
    exists g :: OnlyGrant(grants, reference, intent, g) && g in answers && answers[g] == Resolved(reference, value)
  }

  /** The answer to the only grant for the selected version is this value of the reference itself. */
  ghost predicate VersionTo(grants: seq<Grant>, answers: map<Grant, Answer>, s: Selection, value: string) {
    exists g :: OnlyVersion(grants, s, g) && g in answers && answers[g] == Resolved(s.reference, value)
  }

  predicate IsFor(s: Selection, reference: string, intent: string) {
    s.reference == reference && s.intent == intent
  }

  predicate LastFor(ss: seq<Selection>, reference: string, intent: string, k: nat)
    requires k < |ss|
  {
    IsFor(ss[k], reference, intent) && forall j | k < j < |ss| :: !IsFor(ss[j], reference, intent)
  }

  /** The last selection for the use has resolved to this value. */
  ghost predicate SelectedTo(ss: seq<Selection>, grants: seq<Grant>, answers: map<Grant, Answer>, reference: string,
                             intent: string, value: string) {
    exists k | 0 <= k < |ss| :: LastFor(ss, reference, intent, k) && VersionTo(grants, answers, ss[k], value)
  }

  /** The binding of the environment that a delivery with this value asks for. */
  predicate Binds(d: Delivery, value: string, p: Pair) {
    match d
    case Environment(name, _, _) => p == Pair(name, value)
    case ReferenceOnly(name, reference) => p == Pair(name, reference)
    case File(target, _, _, binding) => binding == Some(p.name) && p.value == target
  }

  function FilesOf(ds: seq<Delivery>, vs: seq<string>): seq<FileMaterial>
    requires |vs| == |ds|
  {
    if ds == [] then []
    else
      var n := |ds| - 1;
      FilesOf(ds[..n], vs[..n])
      + if ds[n].File? then [FileMaterial(ds[n].reference, ds[n].target, vs[n])] else []
  }

  /** The material holds what the deliveries ask for, every name once, and nothing else. */
  ghost predicate Holds(m: Material, ds: seq<Delivery>, vs: seq<string>)
    requires |vs| == |ds|
  {
    && (forall i, j | 0 <= i < j < |m.environment| :: m.environment[i].name != m.environment[j].name)
    && (forall p :: p in m.environment <==> exists i | 0 <= i < |ds| :: Binds(ds[i], vs[i], p))
    && m.files == FilesOf(ds, vs)
  }

  /** No name is asked for with two values. */
  ghost predicate Agreeing(ds: seq<Delivery>, vs: seq<string>)
    requires |vs| == |ds|
  {
    forall i, j, p, q | 0 <= i < |ds| && 0 <= j < |ds| && Binds(ds[i], vs[i], p) && Binds(ds[j], vs[j], q) ::
      p.name == q.name ==> p.value == q.value
  }

  /** The deliveries with their values, one after the other. */
  function Folded(ds: seq<Delivery>, vs: seq<string>): (r: Interpretation<Material>)
    requires |vs| == |ds|
    ensures !r.Needs?
  {
    if ds == [] then Done(EMPTY)
    else
      var n := |ds| - 1;
      var less := Folded(ds[..n], vs[..n]);
      if less.Done? then Deliver(less.value, ds[n], vs[n]) else less
  }

  lemma {:induction false} LookupMeans(environment: seq<Pair>, name: string)
    requires forall i, j | 0 <= i < j < |environment| :: environment[i].name != environment[j].name
    ensures forall value :: Lookup(environment, name) == Some(value) <==> Pair(name, value) in environment
    ensures Lookup(environment, name) == None <==> forall p | p in environment :: p.name != name
  {
    if environment != [] {
      var rest := environment[1..];
      assert forall i | 0 <= i < |rest| :: rest[i] == environment[i + 1];
      LookupMeans(rest, name);
      assert environment == [environment[0]] + rest;
      if environment[0].name == name {
        assert forall p | p in rest :: p.name != name;
      }
    }
  }

  /** One more binding: it is refused exactly if the name is bound to another value already. */
  lemma PutMeans(m: Material, name: string, value: string)
    requires forall i, j | 0 <= i < j < |m.environment| :: m.environment[i].name != m.environment[j].name
    ensures var r := Put(m, name, value);
            && (r.Done? <==> forall p | p in m.environment && p.name == name :: p.value == value)
            && (!r.Done? ==> r == Fails(MalformedReference))
            && (r.Done? ==>
                  && r.value.files == m.files
                  && (forall p :: p in r.value.environment <==> p in m.environment || p == Pair(name, value))
                  && (forall i, j | 0 <= i < j < |r.value.environment| ::
                        r.value.environment[i].name != r.value.environment[j].name))
  {
    LookupMeans(m.environment, name);
    match Lookup(m.environment, name)
    case None =>
    case Some(previous) => assert Pair(name, previous) in m.environment;
  }

  lemma HoldsThen(m: Material, ds: seq<Delivery>, vs: seq<string>)
    requires ds != [] && |vs| == |ds| && Holds(m, ds[..|ds| - 1], vs[..|ds| - 1])
    ensures var r := Deliver(m, ds[|ds| - 1], vs[|ds| - 1]);
            && (r.Done? ==> Holds(r.value, ds, vs))
            && (Agreeing(ds, vs) ==> r.Done?)
            && (!r.Done? ==> r == Fails(MalformedReference) && !Agreeing(ds, vs))
  {
    var n := |ds| - 1;
    var d, v := ds[n], vs[n];
    assert forall i | 0 <= i < n :: ds[..n][i] == ds[i] && vs[..n][i] == vs[i];
    var r := Deliver(m, d, v);
    match d
    case Environment(name, _, _) => PutBinds(m, m, ds, vs, d, v, Pair(name, v));
    case ReferenceOnly(name, reference) => PutBinds(m, m, ds, vs, d, v, Pair(name, reference));
    case File(target, reference, _, binding) =>
      if binding.Some? {
        PutBinds(m.(files := m.files + [FileMaterial(reference, target, v)]), m, ds, vs, d, v,
                 Pair(binding.value, target));
      } else {
        forall p ensures p in m.environment <==> exists i | 0 <= i < |ds| :: Binds(ds[i], vs[i], p) {
          if i :| 0 <= i < |ds| && Binds(ds[i], vs[i], p) {
            assert Binds(ds[..n][i], vs[..n][i], p);
          }
        }
      }
  }

  /** The last delivery binds exactly one pair. */
  lemma PutBinds(m: Material, before: Material, ds: seq<Delivery>, vs: seq<string>, d: Delivery, v: string, b: Pair)
    requires ds != [] && |vs| == |ds| && d == ds[|ds| - 1] && v == vs[|ds| - 1]
    requires Holds(before, ds[..|ds| - 1], vs[..|ds| - 1])
    requires m.environment == before.environment && m.files == FilesOf(ds, vs)
    requires forall p :: Binds(d, v, p) <==> p == b
    ensures var r := Put(m, b.name, b.value);
            && (r.Done? ==> Holds(r.value, ds, vs))
            && (Agreeing(ds, vs) ==> r.Done?)
            && (!r.Done? ==> r == Fails(MalformedReference) && !Agreeing(ds, vs))
  {
    var n := |ds| - 1;
    PutMeans(m, b.name, b.value);
    forall p ensures p in m.environment || p == b <==> exists i | 0 <= i < |ds| :: Binds(ds[i], vs[i], p) {
      if p in m.environment {
        var i :| 0 <= i < n && Binds(ds[..n][i], vs[..n][i], p);
        assert Binds(ds[i], vs[i], p);
      }
      if p == b {
        assert Binds(d, v, p);
      }
      if i :| 0 <= i < |ds| && Binds(ds[i], vs[i], p) {
        if i < n {
          assert Binds(ds[..n][i], vs[..n][i], p);
        }
      }
    }
    if p :| p in m.environment && p.name == b.name && p.value != b.value {
      var i :| 0 <= i < n && Binds(ds[..n][i], vs[..n][i], p);
      assert Binds(ds[i], vs[i], p) && Binds(d, v, b);
      assert !Agreeing(ds, vs);
    }
  }

  lemma FewerAgree(ds: seq<Delivery>, vs: seq<string>)
    requires ds != [] && |vs| == |ds| && Agreeing(ds, vs)
    ensures Agreeing(ds[..|ds| - 1], vs[..|ds| - 1])
  {
    var n := |ds| - 1;
    forall i, j, p, q | 0 <= i < n && 0 <= j < n && Binds(ds[..n][i], vs[..n][i], p) && Binds(ds[..n][j], vs[..n][j], q)
      ensures p.name == q.name ==> p.value == q.value
    {
      assert Binds(ds[i], vs[i], p) && Binds(ds[j], vs[j], q);
    }
  }

  lemma HeldOnce(environment: seq<Pair>, p: Pair, q: Pair)
    requires p in environment && q in environment
    requires forall i, j | 0 <= i < j < |environment| :: environment[i].name != environment[j].name
    ensures p.name == q.name ==> p.value == q.value
  {
    var i, j :| 0 <= i < |environment| && 0 <= j < |environment| && environment[i] == p && environment[j] == q;
  }

  lemma HeldAgree(m: Material, ds: seq<Delivery>, vs: seq<string>)
    requires |vs| == |ds| && Holds(m, ds, vs)
    ensures Agreeing(ds, vs)
  {
    forall i, j, p, q | 0 <= i < |ds| && 0 <= j < |ds| && Binds(ds[i], vs[i], p) && Binds(ds[j], vs[j], q)
      ensures p.name == q.name ==> p.value == q.value
    {
      HeldOnce(m.environment, p, q);
    }
  }

  /** The deliveries can be put together exactly if they agree, and then the material holds them. */
  lemma {:induction false} FoldedMeans(ds: seq<Delivery>, vs: seq<string>)
    requires |vs| == |ds|
    ensures Folded(ds, vs).Done? <==> Agreeing(ds, vs)
    ensures Folded(ds, vs).Done? ==> Holds(Folded(ds, vs).value, ds, vs)
    ensures Folded(ds, vs).Done? || Folded(ds, vs) == Fails(MalformedReference)
  {
    if ds == [] {
      assert forall p :: p !in EMPTY.environment;
    } else {
      var less := Folded(ds[..|ds| - 1], vs[..|ds| - 1]);
      FoldedMeans(ds[..|ds| - 1], vs[..|ds| - 1]);
      if less.Done? {
        HoldsThen(less.value, ds, vs);
        if Folded(ds, vs).Done? {
          HeldAgree(Folded(ds, vs).value, ds, vs);
        }
      } else if Agreeing(ds, vs) {
        FewerAgree(ds, vs);
      }
    }
  }

  /** Each delivery that has a value has the one its grant resolved to. */
  ghost predicate ResolvedValues(ds: seq<Delivery>, vs: seq<string>, grants: seq<Grant>, answers: map<Grant, Answer>)
    requires |vs| == |ds|
  {
    forall i | 0 <= i < |ds| && !ds[i].ReferenceOnly? ::
      ResolvedTo(grants, answers, ds[i].reference, ds[i].intent, vs[i])
  }

  lemma AuthorizedMeans(answers: map<Grant, Answer>, grants: seq<Grant>, reference: string, intent: string, v: string)
    ensures Authorized(answers, grants, reference, intent) == Done(v) <==>
              ResolvedTo(grants, answers, reference, intent, v)
  {
    GrantIsTheOnlyOne(grants, reference, intent, Selection("", "", ""));
    if ResolvedTo(grants, answers, reference, intent, v) {
      var g :| OnlyGrant(grants, reference, intent, g) && g in answers && answers[g] == Resolved(reference, v);
      assert GrantFor(grants, reference, intent) == Some(g);
    }
  }

  /** With these values the deliveries come out as they do one after the other. */
  lemma {:induction false} DeliveredWith(ds: seq<Delivery>, vs: seq<string>, grants: seq<Grant>,
                                         answers: map<Grant, Answer>)
    requires |vs| == |ds| && ResolvedValues(ds, vs, grants, answers)
    ensures DeliverAll(ds, grants, answers) == Folded(ds, vs)
  {
    if ds != [] {
      var n := |ds| - 1;
      assert forall i | 0 <= i < n :: ds[..n][i] == ds[i] && vs[..n][i] == vs[i];
      DeliveredWith(ds[..n], vs[..n], grants, answers);
      if !ds[n].ReferenceOnly? {
        AuthorizedMeans(answers, grants, ds[n].reference, ds[n].intent, vs[n]);
      }
    }
  }

  /** Material comes only of deliveries that have all been resolved. */
  lemma {:induction false} DeliveredHasValues(ds: seq<Delivery>, grants: seq<Grant>, answers: map<Grant, Answer>)
    returns (vs: seq<string>)
    requires DeliverAll(ds, grants, answers).Done?
    ensures |vs| == |ds| && ResolvedValues(ds, vs, grants, answers)
  {
    vs := [];
    if ds != [] {
      var n := |ds| - 1;
      vs := DeliveredHasValues(ds[..n], grants, answers);
      assert forall i | 0 <= i < n :: ds[..n][i] == ds[i];
      var v := "";
      if !ds[n].ReferenceOnly? {
        v := Authorized(answers, grants, ds[n].reference, ds[n].intent).value;
        AuthorizedMeans(answers, grants, ds[n].reference, ds[n].intent, v);
      }
      vs := vs + [v];
    }
  }

  /** Each environment delivery's name has the value its one permitting grant resolved to, each file
      delivery its target and value, and there is nothing else; there is such material exactly if
      every delivery has been resolved and no name is asked for with two values. */
  lemma DeliveredMeans(ds: seq<Delivery>, grants: seq<Grant>, answers: map<Grant, Answer>)
    ensures DeliverAll(ds, grants, answers).Done? <==>
              exists vs: seq<string> ::
                |vs| == |ds| && ResolvedValues(ds, vs, grants, answers) && Agreeing(ds, vs)
    ensures DeliverAll(ds, grants, answers).Done? ==>
              exists vs: seq<string> ::
                && |vs| == |ds| && ResolvedValues(ds, vs, grants, answers)
                && Holds(DeliverAll(ds, grants, answers).value, ds, vs)
  {
    if vs: seq<string> :| |vs| == |ds| && ResolvedValues(ds, vs, grants, answers) && Agreeing(ds, vs) {
      DeliveredWith(ds, vs, grants, answers);
      FoldedMeans(ds, vs);
    }
    if DeliverAll(ds, grants, answers).Done? {
      var vs := DeliveredHasValues(ds, grants, answers);
      DeliveredWith(ds, vs, grants, answers);
      FoldedMeans(ds, vs);
    }
  }

  /** A selected version has resolved, through the only grant for it, to a value of bounded size. */
  ghost predicate VersionValue(grants: seq<Grant>, answers: map<Grant, Answer>, s: Selection, value: string) {
    |Utf8(value)| <= 65536 && VersionTo(grants, answers, s, value)
  }

  lemma VersionMeans(answers: map<Grant, Answer>, grants: seq<Grant>, s: Selection, value: string)
    ensures Select(answers, grants, s) == Done(Chosen(s, value)) <==> VersionValue(grants, answers, s, value)
    ensures Select(answers, grants, s).Done? ==> Select(answers, grants, s).value.selection == s
  {
    GrantIsTheOnlyOne(grants, "", "", s);
    if VersionValue(grants, answers, s, value) {
      var g :| OnlyVersion(grants, s, g) && g in answers && answers[g] == Resolved(s.reference, value);
      assert SelectedGrantFor(grants, s) == Some(g);
    }
  }

  ghost predicate VersionResolved(grants: seq<Grant>, answers: map<Grant, Answer>, s: Selection) {
    exists v :: VersionValue(grants, answers, s, v)
  }

  /** Every selected version has been resolved. */
  ghost predicate AllSelected(ss: seq<Selection>, grants: seq<Grant>, answers: map<Grant, Answer>) {
    forall k | 0 <= k < |ss| :: VersionResolved(grants, answers, ss[k])
  }

  ghost predicate ChosenFrom(chosen: seq<Chosen>, ss: seq<Selection>, grants: seq<Grant>, answers: map<Grant, Answer>) {
    && |chosen| == |ss|
    && forall k | 0 <= k < |ss| ::
         chosen[k].selection == ss[k] && VersionValue(grants, answers, ss[k], chosen[k].value)
  }

  lemma ResolvedIsSelected(answers: map<Grant, Answer>, grants: seq<Grant>, s: Selection)
    ensures Select(answers, grants, s).Done? <==> VersionResolved(grants, answers, s)
    ensures var r := Select(answers, grants, s);
            r.Done? ==> r.value.selection == s && VersionValue(grants, answers, s, r.value.value)
  {
    var r := Select(answers, grants, s);
    if r.Done? {
      VersionMeans(answers, grants, s, r.value.value);
    }
    if VersionResolved(grants, answers, s) {
      var v :| VersionValue(grants, answers, s, v);
      VersionMeans(answers, grants, s, v);
    }
  }

  lemma OneMoreSelected(ss: seq<Selection>, grants: seq<Grant>, answers: map<Grant, Answer>)
    requires ss != []
    ensures AllSelected(ss, grants, answers) <==>
              && AllSelected(ss[..|ss| - 1], grants, answers)
              && VersionResolved(grants, answers, ss[|ss| - 1])
  {
    assert forall k | 0 <= k < |ss| - 1 :: ss[..|ss| - 1][k] == ss[k];
  }

  lemma OneMoreChosen(chosen: seq<Chosen>, ss: seq<Selection>, grants: seq<Grant>, answers: map<Grant, Answer>)
    requires ss != [] && |chosen| == |ss|
    requires ChosenFrom(chosen[..|ss| - 1], ss[..|ss| - 1], grants, answers)
    requires var c, s := chosen[|ss| - 1], ss[|ss| - 1];
             c.selection == s && VersionValue(grants, answers, s, c.value)
    ensures ChosenFrom(chosen, ss, grants, answers)
  {
    var n := |ss| - 1;
    forall k | 0 <= k < |ss|
      ensures chosen[k].selection == ss[k] && VersionValue(grants, answers, ss[k], chosen[k].value)
    {
      if k < n {
        assert chosen[..n][k] == chosen[k] && ss[..n][k] == ss[k];
      }
    }
  }

  lemma {:induction false} SelectedAll(ss: seq<Selection>, grants: seq<Grant>, answers: map<Grant, Answer>)
    ensures SelectAll(ss, grants, answers).Done? <==> AllSelected(ss, grants, answers)
    ensures SelectAll(ss, grants, answers).Done? ==>
              ChosenFrom(SelectAll(ss, grants, answers).value, ss, grants, answers)
  {
    if ss != [] {
      var n := |ss| - 1;
      SelectedAll(ss[..n], grants, answers);
      ResolvedIsSelected(answers, grants, ss[n]);
      OneMoreSelected(ss, grants, answers);
      if SelectAll(ss, grants, answers).Done? {
        OneMoreChosen(SelectAll(ss, grants, answers).value, ss, grants, answers);
      }
    }
  }

  lemma {:induction false} ChoiceMeans(chosen: seq<Chosen>, ss: seq<Selection>, reference: string, intent: string)
    requires |chosen| == |ss| && forall k | 0 <= k < |ss| :: chosen[k].selection == ss[k]
    ensures ChoiceFor(chosen, reference, intent) == None <==>
              forall k | 0 <= k < |ss| :: !IsFor(ss[k], reference, intent)
    ensures forall k | 0 <= k < |ss| && LastFor(ss, reference, intent, k) ::
              ChoiceFor(chosen, reference, intent) == Some(chosen[k].value)
    ensures ChoiceFor(chosen, reference, intent).Some? ==>
              exists k | 0 <= k < |ss| :: LastFor(ss, reference, intent, k)
  {
    if ss != [] {
      var n := |ss| - 1;
      ChoiceMeans(chosen[..n], ss[..n], reference, intent);
      assert forall k | 0 <= k < n :: ss[..n][k] == ss[k];
      if IsFor(ss[n], reference, intent) {
        assert LastFor(ss, reference, intent, n);
      } else {
        forall k | 0 <= k < n ensures LastFor(ss, reference, intent, k) <==> LastFor(ss[..n], reference, intent, k) {
        }
      }
    }
  }

  lemma OneVersion(grants: seq<Grant>, answers: map<Grant, Answer>, s: Selection, v: string, w: string)
    requires VersionTo(grants, answers, s, v) && VersionTo(grants, answers, s, w)
    ensures v == w
  {
    VersionsMean(grants, s);
  }

  /** The choice for a use is the value its last selection has resolved to. */
  lemma ChoiceIsSelected(chosen: seq<Chosen>, ss: seq<Selection>, grants: seq<Grant>, answers: map<Grant, Answer>,
                         reference: string, intent: string, v: string)
    requires ChosenFrom(chosen, ss, grants, answers)
    ensures ChoiceFor(chosen, reference, intent) == Some(v) <==> SelectedTo(ss, grants, answers, reference, intent, v)
  {
    ChoiceMeans(chosen, ss, reference, intent);
    if SelectedTo(ss, grants, answers, reference, intent, v) {
      var k :| 0 <= k < |ss| && LastFor(ss, reference, intent, k) && VersionTo(grants, answers, ss[k], v);
      OneVersion(grants, answers, ss[k], v, chosen[k].value);
    }
    if ChoiceFor(chosen, reference, intent) == Some(v) {
      var k :| 0 <= k < |ss| && LastFor(ss, reference, intent, k);
      assert VersionTo(grants, answers, ss[k], chosen[k].value);
    }
  }

  /** Each delivery that has a value has the one selected for its use, an environment's without a
      zero character. */
  ghost predicate SelectedValues(ds: seq<Delivery>, vs: seq<string>, ss: seq<Selection>, grants: seq<Grant>,
                                 answers: map<Grant, Answer>)
    requires |vs| == |ds|
  {
    forall i | 0 <= i < |ds| && !ds[i].ReferenceOnly? ::
      && SelectedTo(ss, grants, answers, ds[i].reference, ds[i].intent, vs[i])
      && (ds[i].Environment? ==> 0 as char !in vs[i])
  }

  lemma {:induction false} ChosenWith(ds: seq<Delivery>, vs: seq<string>, chosen: seq<Chosen>, ss: seq<Selection>,
                                      grants: seq<Grant>, answers: map<Grant, Answer>)
    requires |vs| == |ds| && ChosenFrom(chosen, ss, grants, answers)
    requires SelectedValues(ds, vs, ss, grants, answers)
    ensures DeliverAllChosen(ds, chosen) == Folded(ds, vs)
  {
    if ds != [] {
      var n := |ds| - 1;
      assert forall i | 0 <= i < n :: ds[..n][i] == ds[i] && vs[..n][i] == vs[i];
      ChosenWith(ds[..n], vs[..n], chosen, ss, grants, answers);
      if !ds[n].ReferenceOnly? {
        ChoiceIsSelected(chosen, ss, grants, answers, ds[n].reference, ds[n].intent, vs[n]);
      }
    }
  }

  lemma {:induction false} ChosenHasValues(ds: seq<Delivery>, chosen: seq<Chosen>, ss: seq<Selection>,
                                           grants: seq<Grant>, answers: map<Grant, Answer>)
    returns (vs: seq<string>)
    requires ChosenFrom(chosen, ss, grants, answers) && DeliverAllChosen(ds, chosen).Done?
    ensures |vs| == |ds| && SelectedValues(ds, vs, ss, grants, answers)
  {
    vs := [];
    if ds != [] {
      var n := |ds| - 1;
      vs := ChosenHasValues(ds[..n], chosen, ss, grants, answers);
      assert forall i | 0 <= i < n :: ds[..n][i] == ds[i];
      var v := "";
      if !ds[n].ReferenceOnly? {
        v := ChoiceFor(chosen, ds[n].reference, ds[n].intent).value;
        ChoiceIsSelected(chosen, ss, grants, answers, ds[n].reference, ds[n].intent, v);
      }
      vs := vs + [v];
    }
  }

  /** With values for every delivery there is material exactly if the deliveries agree and their
      environment is within the adapter's bounds. */
  lemma SelectedWith(ds: seq<Delivery>, vs: seq<string>, ss: seq<Selection>, grants: seq<Grant>,
                     answers: map<Grant, Answer>)
    requires |vs| == |ds| && AllSelected(ss, grants, answers) && SelectedValues(ds, vs, ss, grants, answers)
    ensures SelectedMaterial(ds, ss, grants, answers).Done? <==>
              && Agreeing(ds, vs) && Folded(ds, vs).Done?
              && |Folded(ds, vs).value.environment| <= 1024 && Size(Folded(ds, vs).value.environment) <= 1048576
    ensures SelectedMaterial(ds, ss, grants, answers).Done? ==>
              Holds(SelectedMaterial(ds, ss, grants, answers).value, ds, vs)
  {
    SelectedAll(ss, grants, answers);
    ChosenWith(ds, vs, SelectAll(ss, grants, answers).value, ss, grants, answers);
    FoldedMeans(ds, vs);
  }

  /** The same for selected versions: material comes only of versions that have all been resolved,
      and each delivery has the value selected last for its use. */
  lemma SelectedMeans(ds: seq<Delivery>, ss: seq<Selection>, grants: seq<Grant>, answers: map<Grant, Answer>)
    returns (vs: seq<string>)
    requires SelectedMaterial(ds, ss, grants, answers).Done?
    ensures AllSelected(ss, grants, answers)
    ensures |vs| == |ds| && SelectedValues(ds, vs, ss, grants, answers)
    ensures Holds(SelectedMaterial(ds, ss, grants, answers).value, ds, vs)
  {
    SelectedAll(ss, grants, answers);
    vs := ChosenHasValues(ds, SelectAll(ss, grants, answers).value, ss, grants, answers);
    SelectedWith(ds, vs, ss, grants, answers);
  }

  // ---- the resolver ----

  /** How the entries and the admitted calls have grown together: one finished bracket for each
      new entry, and after a failed resolution at most one more. */
  ghost predicate Grown(entries: seq<Entry>, entries': seq<Entry>, sent: seq<Bracket>, failed: bool) {
    && entries <= entries' && Distinct(entries')
    && var k := |entries'| - |entries|;
       && k <= |sent| <= k + 1
       && (forall i | 0 <= i < k ::
             sent[i] == Bracket(SecretResolution(entries'[|entries| + i].grant), Some(Returned)))
       && (|sent| == k + 1 ==>
             failed && sent[k].call.SecretResolution? && sent[k].call.grant !in AnswersOf(entries'))
  }

  lemma GrownThen(a: seq<Entry>, b: seq<Entry>, c: seq<Entry>, first: seq<Bracket>, second: seq<Bracket>, failed: bool)
    requires Grown(a, b, first, false) && Grown(b, c, second, failed)
    ensures Grown(a, c, first + second, failed)
  {
    var k, l := |b| - |a|, |c| - |b|;
    forall i | 0 <= i < k + l
      ensures (first + second)[i] == Bracket(SecretResolution(c[|a| + i].grant), Some(Returned))
    {
      if i < k {
        assert c[|a| + i] == b[|a| + i];
      } else {
        assert c[|a| + i] == c[|b| + (i - k)];
      }
    }
  }

  datatype Snapshot = Snapshot(entries: seq<Entry>, isSealed: bool, events: seq<Event>)

  /** What every use of the resolver keeps to: entries and admitted calls grow together, and a
      call is left unrecorded only for a control error, which is then raised. */
  ghost predicate Progressed<T>(before: Snapshot, after: Snapshot, sent: seq<Bracket>, r: Result<T, Raised>) {
    && after.isSealed == before.isSealed
    && after.events == before.events + Flatten(sent)
    && Grown(before.entries, after.entries, sent, r.Failure?)
    && (forall b | b in sent && b.recorded.None? :: r == Failure(ControlError))
  }

  /** The result is exactly what the answers say, and where they still need one it is what was
      raised instead; when the earlier answers said enough, it is what they said and nothing was
      sent. */
  ghost predicate Follows<T>(before: Interpretation<T>, after: Interpretation<T>, x: Raised, sent: seq<Bracket>,
                             r: Result<T, Raised>) {
    && r == Answered(after, x)
    && (!before.Needs? ==> sent == [] && r == AsResult(before))
  }

  function Answered<T>(i: Interpretation<T>, x: Raised): Result<T, Raised> {
    if i.Needs? then Failure(x) else AsResult(i)
  }

  function AsResult<T>(i: Interpretation<T>): Result<T, Raised>
    requires !i.Needs?
  {
    match i
    case Done(value) => Success(value)
    case Fails(code) => Failure(SecretFailure(code))
  }

  lemma GrownNothing(entries: seq<Entry>)
    requires Distinct(entries)
    ensures Grown(entries, entries, [], false)
  {
  }

  lemma ProgressedThen<T, U>(a: Snapshot, b: Snapshot, c: Snapshot, first: seq<Bracket>, second: seq<Bracket>,
                             done: Result<T, Raised>, r: Result<U, Raised>)
    requires done.Success? && Progressed(a, b, first, done) && Progressed(b, c, second, r)
    ensures Progressed(a, c, first + second, r)
  {
    GrownThen(a.entries, b.entries, c.entries, first, second, r.Failure?);
    FlattenConcat(first, second);
  }

  lemma EntryAdded(entries: seq<Entry>, grant: Grant, answer: Answer)
    requires Distinct(entries) && grant !in AnswersOf(entries)
    ensures Distinct(entries + [Entry(grant, answer)])
    ensures AnswersOf(entries + [Entry(grant, answer)]) == AnswersOf(entries)[grant := answer]
  {
    AnswersOfEntries(entries);
    assert (entries + [Entry(grant, answer)])[..|entries|] == entries;
  }

  lemma GrownOne(entries: seq<Entry>, grant: Grant, answer: Answer)
    requires Distinct(entries + [Entry(grant, answer)])
    ensures Grown(entries, entries + [Entry(grant, answer)], [Bracket(SecretResolution(grant), Some(Returned))], false)
  {
    var after := entries + [Entry(grant, answer)];
    assert |after| - |entries| == 1 && after[|entries|] == Entry(grant, answer);
  }

  class PreparedResolver {
    const port: Port
    var entries: seq<Entry>
    var isSealed: bool
    /** What was raised in place of the last answer that was not given. */
    ghost var interrupted: Raised

    constructor (port: Port)
      ensures this.port == port && entries == [] && !isSealed
    {
      this.port := port;
      entries := [];
      isSealed := false;
    }

    ghost predicate Valid()
      reads this
    {
      Distinct(entries)
    }

    function Answers(): map<Grant, Answer>
      reads this
    {
      AnswersOf(entries)
    }

    /** The provider behind the resolver: any answer, or any exception. */
    method Ask(grant: Grant) returns (r: Result<Answer, Raised>)
      modifies port
      ensures port.events == old(port.events) + [Reached(SecretResolution(grant))]
    {
      r := *;
      port.Reach(SecretResolution(grant));
    }

    method Resolve(grant: Grant) returns (r: Result<Answer, Raised>, ghost sent: seq<Bracket>)
      requires Valid()
      modifies this, port
      ensures Consulted(old(Now()), sent, r)
      ensures r.Success? <==> grant in Answers()
      ensures r.Success? ==> Answers()[grant] == r.value
      ensures grant in old(Answers()) ==> r == Success(old(Answers())[grant])
      ensures grant in old(Answers()) || isSealed ==> sent == [] && entries == old(entries)
      ensures grant !in old(Answers()) && isSealed ==> r == Failure(PortError)
      ensures r.Failure? ==> r.error == interrupted
    {
      AnswersOfEntries(entries);
      for i := 0 to |entries|
        invariant forall j | 0 <= j < i :: entries[j].grant != grant
      {
        if entries[i].grant == grant {
          return Success(entries[i].answer), [];
        }
      }
      if isSealed {
        interrupted := PortError;
        return Failure(PortError), [];
      }
      ghost var answer;
      r, sent, answer := ResolveNew(grant);
    }

    /** Asks through the port; `answer` is what the provider has answered if it was asked. */
    method ResolveNew(grant: Grant)
      returns (r: Result<Answer, Raised>, ghost sent: seq<Bracket>, ghost answer: Option<Result<Answer, Raised>>)
      requires Valid() && !isSealed && grant !in Answers()
      modifies this, port
      ensures Consulted(old(Now()), sent, r)
      ensures r.Success? <==> grant in Answers()
      ensures r.Success? ==> Answers()[grant] == r.value
      ensures answer.None? ==> sent == [] && r == Failure(port.refused)
      ensures answer.Some? ==>
                if port.acknowledged || answer.value == Failure(ControlError) || answer.value == Failure(Cancelled)
                then r == answer.value else r == Failure(port.refused)
      ensures r.Failure? ==> r.error == interrupted
    {
      ghost var before := Now();
      var call := SecretResolution(grant);
      GrownNothing(entries);
      var admitted := port.Admit(call);
      if admitted.Failure? {
        interrupted := admitted.error;
        return Failure(admitted.error), [], None;
      }
      var asked := Ask(grant);
      answer := Some(asked);
      ghost var end;
      r, end := port.Conclude(call, asked);
      interrupted := if r.Failure? then r.error else interrupted;
      sent := [Bracket(call, end)];
      FlattenOne(sent[0]);
      if r.Success? {
        entries := entries + [Entry(grant, r.value)];
        EntryAdded(before.entries, grant, r.value);
        GrownOne(before.entries, grant, r.value);
      }
      assert port.events == before.events + EventsOf(sent[0]);
    }

    method Seal()
      modifies this`isSealed
      ensures isSealed
    {
      isSealed := true;
    }

    // ---- the consumers ----

    /** One grant, answered from the entries or resolved now. */
    method RequireGrant(grant: Grant, reference: string) returns (r: Result<string, Raised>, ghost sent: seq<Bracket>)
      requires Valid()
      modifies this, port
      ensures Consulted(old(Now()), sent, r)
      ensures Follows(Require(old(Answers()), grant, reference), Require(Answers(), grant, reference), interrupted,
                      sent, r)
    {
      var answer;
      answer, sent := Resolve(grant);
      r := match answer
           case Failure(e) => Failure(e)
           case Success(a) => AsResult(Read(a, reference));
    }

    method DeliverNext(m: Material, d: Delivery, grants: seq<Grant>)
      returns (r: Result<Material, Raised>, ghost sent: seq<Bracket>)
      requires Valid()
      modifies this, port
      ensures Consulted(old(Now()), sent, r)
      ensures Follows(DeliverOne(m, d, grants, old(Answers())), DeliverOne(m, d, grants, Answers()), interrupted,
                      sent, r)
    {
      if d.ReferenceOnly? {
        GrownNothing(entries);
        return AsResult(Deliver(m, d, "")), [];
      }
      var grant := GrantFor(grants, d.reference, d.intent);
      if grant.None? {
        GrownNothing(entries);
        return Failure(SecretFailure(DeniedSecret)), [];
      }
      var value;
      value, sent := RequireGrant(grant.value, d.reference);
      r := match value
           case Failure(e) => Failure(e)
           case Success(v) => AsResult(Deliver(m, d, v));
    }

    method ResolveAuthorized(ds: seq<Delivery>, grants: seq<Grant>)
      returns (r: Result<Material, Raised>, ghost sent: seq<Bracket>)
      requires Valid()
      modifies this, port
      ensures Consulted(old(Now()), sent, r)
      ensures Follows(DeliverAll(ds, grants, old(Answers())), DeliverAll(ds, grants, Answers()), interrupted, sent, r)
    {
      ghost var before := Now();
      var m := EMPTY;
      sent := [];
      GrownNothing(entries);
      for i := 0 to |ds|
        invariant Valid() && Consulted(before, sent, Success(m))
        invariant DeliverAll(ds[..i], grants, Answers()) == Done(m)
        invariant !DeliverAll(ds, grants, AnswersOf(before.entries)).Needs? ==> sent == [] && entries == before.entries
      {
        ghost var middle := Now();
        ghost var more;
        r, more := DeliverNext(m, ds[i], grants);
        ProgressedThen(before, middle, Now(), sent, more, Success(m), r);
        DeliverStep(ds, i, grants, before.entries, middle.entries, entries, m, interrupted, more, r);
        sent := sent + more;
        if r.Failure? {
          return;
        }
        m := r.value;
      }
      assert ds[..|ds|] == ds;
      r := Success(m);
    }

    method SelectNext(s: Selection, grants: seq<Grant>) returns (r: Result<Chosen, Raised>, ghost sent: seq<Bracket>)
      requires Valid()
      modifies this, port
      ensures Consulted(old(Now()), sent, r)
      ensures Follows(Select(old(Answers()), grants, s), Select(Answers(), grants, s), interrupted, sent, r)
    {
      var grant := SelectedGrantFor(grants, s);
      if grant.None? {
        GrownNothing(entries);
        return Failure(SecretFailure(DeniedSecret)), [];
      }
      var value;
      value, sent := RequireGrant(grant.value, s.reference);
      r := match value
           case Failure(e) => Failure(e)
           case Success(v) =>
             if |Utf8(v)| > MAX_VALUE_BYTES then Failure(SecretFailure(InvalidResult)) else Success(Chosen(s, v));
    }

    method SelectVersions(ss: seq<Selection>, grants: seq<Grant>)
      returns (r: Result<seq<Chosen>, Raised>, ghost sent: seq<Bracket>)
      requires Valid()
      modifies this, port
      ensures Consulted(old(Now()), sent, r)
      ensures Follows(SelectAll(ss, grants, old(Answers())), SelectAll(ss, grants, Answers()), interrupted, sent, r)
    {
      ghost var before := Now();
      var chosen: seq<Chosen> := [];
      sent := [];
      GrownNothing(entries);
      for i := 0 to |ss|
        invariant Valid() && Consulted(before, sent, Success(chosen))
        invariant SelectAll(ss[..i], grants, Answers()) == Done(chosen)
        invariant !SelectAll(ss, grants, AnswersOf(before.entries)).Needs? ==> sent == [] && entries == before.entries
      {
        ghost var middle := Now();
        ghost var more;
        var next;
        next, more := SelectNext(ss[i], grants);
        ProgressedThen(before, middle, Now(), sent, more, Success(chosen), next);
        SelectStep(ss, i, grants, before.entries, middle.entries, entries, chosen, interrupted, more, next);
        sent := sent + more;
        if next.Failure? {
          return Failure(next.error), sent;
        }
        chosen := chosen + [next.value];
      }
      assert ss[..|ss|] == ss;
      r := Success(chosen);
    }

    method ResolveSelected(ds: seq<Delivery>, ss: seq<Selection>, grants: seq<Grant>)
      returns (r: Result<Material, Raised>, ghost sent: seq<Bracket>)
      requires Valid()
      modifies this, port
      ensures Consulted(old(Now()), sent, r)
      ensures Follows(SelectedMaterial(ds, ss, grants, old(Answers())),
                      SelectedMaterial(ds, ss, grants, Answers()), interrupted, sent, r)
    {
      var chosen;
      chosen, sent := SelectVersions(ss, grants);
      if chosen.Failure? {
        return Failure(chosen.error), sent;
      }
      var m := DeliverAllChosen(ds, chosen.value);
      ChosenNeedNothing(ds, chosen.value);
      r := if m.Fails? then Failure(SecretFailure(m.code))
           else if |m.value.environment| > MAX_NAMES || Size(m.value.environment) > MAX_ENVIRONMENT_BYTES
             then Failure(SecretFailure(InvalidResult))
           else Success(m.value);
    }

    ghost predicate Consulted<T>(before: Snapshot, sent: seq<Bracket>, r: Result<T, Raised>)
      reads this, port
    {
      Progressed(before, Now(), sent, r)
    }

    ghost function Now(): Snapshot
      reads this, port
    {
      Snapshot(entries, isSealed, port.events)
    }
  }
}
