// Deleting exactly the selected configuration volumes: one row for each, in order, and no further
// deletion after the first row that is not known.
//
// Anybody may change any volume between two calls; what a row claims is claimed of the moments at
// which its own calls were made. A store is quiet when nobody else acts, and reliable when no call
// fails.

module ConfigurationCleanup {
  import opened Wrappers
  import opened DockerLabels

  datatype Stored = Stored(labels: Labels, local: bool, created: string)

  datatype Shelf = Shelf(volumes: map<VolumeName, Stored>, used: set<VolumeName>)

  datatype Op = Inspect(name: VolumeName) | AskUse(name: VolumeName) | Delete(name: VolumeName)

  /** One call with the shelf right before and right after it. */
  datatype Step = Step(before: Shelf, op: Op, after: Shelf)

  /** What a call can raise: the typed conflict of a volume in use, or anything else. */
  datatype Raised = VolumeInUse | Uncertain

  function Without(s: Shelf, name: VolumeName): Shelf {
    s.(volumes := s.volumes - {name})
  }

  /** Reads change nothing; a deletion may take away its own volume, unless that is in use. */
  predicate HonestStep(s: Step) {
    || s.after == s.before
    || (s.op.Delete? && s.after == Without(s.before, s.op.name) && s.op.name !in s.before.used)
  }

  class Store {
    var shelf: Shelf
    ghost var steps: seq<Step>
    const quiet: bool
    const reliable: bool

    constructor (shelf: Shelf, quiet: bool, reliable: bool)
      ensures this.shelf == shelf && steps == [] && this.quiet == quiet && this.reliable == reliable
    {
      this.shelf := shelf;
      steps := [];
      this.quiet := quiet;
      this.reliable := reliable;
    }

    method Others() returns (answers: bool)
      modifies this
      ensures steps == old(steps) && (quiet ==> shelf == old(shelf)) && (reliable ==> answers)
    {
      var candidate: Shelf, ok: bool := *, *;
      if !quiet {
        shelf := candidate;
      }
      answers := ok || reliable;
    }

    ghost predicate Called(before: seq<Step>, start: Shelf, op: Op, s: Step)
      reads this
    {
      && steps == before + [s] && s.op == op && s.after == shelf && HonestStep(s)
      && (quiet ==> s.before == start)
    }

    method InspectVolume(name: VolumeName) returns (r: Result<Option<Stored>, Raised>, ghost s: Step)
      modifies this
      ensures Called(old(steps), old(shelf), Inspect(name), s) && s.after == s.before
      ensures r.Success? ==>
                r.value == if name in s.before.volumes then Some(s.before.volumes[name]) else None
      ensures r.Failure? ==> r.error == Uncertain
      ensures reliable ==> r.Success?
    {
      var ok := Others();
      s := Step(shelf, Inspect(name), shelf);
      steps := steps + [s];
      r := if !ok then Failure(Uncertain)
           else Success(if name in shelf.volumes then Some(shelf.volumes[name]) else None);
    }

    method InUse(name: VolumeName) returns (r: Result<bool, Raised>, ghost s: Step)
      modifies this
      ensures Called(old(steps), old(shelf), AskUse(name), s) && s.after == s.before
      ensures r.Success? ==> (r.value <==> name in s.before.used)
      ensures r.Failure? ==> r.error == Uncertain
      ensures reliable ==> r.Success?
    {
      var ok := Others();
      s := Step(shelf, AskUse(name), shelf);
      steps := steps + [s];
      r := if ok then Success(name in shelf.used) else Failure(Uncertain);
    }

    /** The non-forced delete: a success means that the volume was there, unused, and is gone. */
    method DeleteVolume(name: VolumeName) returns (r: Result<(), Raised>, ghost s: Step)
      modifies this
      ensures Called(old(steps), old(shelf), Delete(name), s)
      ensures r.Success? ==>
                s.after == Without(s.before, name) && name in s.before.volumes && name !in s.before.used
      ensures r == Failure(VolumeInUse) ==> s.after == s.before && name in s.before.used
      ensures reliable && name in s.before.volumes && name !in s.before.used ==> r.Success?
      ensures reliable && name in s.before.used ==> r == Failure(VolumeInUse)
    {
      var ok := Others();
      var applied: bool := *;
      ghost var before := shelf;
      if name in shelf.used {
        r := Failure(VolumeInUse);
      } else {
        ok := ok && name in shelf.volumes;
        if ok || applied {
          shelf := Without(shelf, name);
        }
        r := if ok then Success(()) else Failure(Uncertain);
      }
      s := Step(before, Delete(name), shelf);
      steps := steps + [s];
    }

    /** Inspects the same name once more, and deletes only what has not changed. */
    method RemoveUnchanged(name: VolumeName, expected: Stored) returns (r: Result<(), Raised>, ghost s: seq<Step>)
      requires expected.local
      modifies this
      ensures steps == old(steps) + s && 1 <= |s| <= 2 && s[0].op == Inspect(name)
      ensures |s| == 2 ==> s[1].op == Delete(name)
      ensures |s| == 2 ==> name in s[0].before.volumes && s[0].before.volumes[name] == expected
      ensures forall i | 0 <= i < |s| :: HonestStep(s[i])
      ensures r.Success? ==>
                && |s| == 2 && s[0].after == s[0].before
                && name in s[0].before.volumes && s[0].before.volumes[name] == expected
                && s[1].after == Without(s[1].before, name)
                && name in s[1].before.volumes && name !in s[1].before.used
                && (quiet ==> s[1].before == s[0].after && s[0].before == old(shelf))
      ensures r == Failure(VolumeInUse) ==>
                && |s| == 2 && s[0].after == s[0].before && s[1].after == s[1].before && name in s[1].before.used
      ensures (&& quiet && reliable && name in old(shelf).volumes && old(shelf).volumes[name] == expected
               && name !in old(shelf).used) ==> r.Success? && shelf == Without(old(shelf), name)
      ensures quiet ==> shelf == old(shelf) || shelf == Without(old(shelf), name)
    {
      var current, first := InspectVolume(name);
      s := [first];
      if current.Failure? || current.value != Some(expected) {
        return Failure(Uncertain), s;
      }
      ghost var second;
      r, second := DeleteVolume(name);
      s := [first, second];
    }
  }

  // ---- one row ----

  datatype Status = Removed | AlreadyAbsent | Refused | RetainedInUse | Unknown

  datatype Reason = NoReason | OwnershipMismatch | ProvenanceUnproven | IsInUse | ProviderUncertain | NotAttempted

  datatype Row = Row(reference: Reference, status: Status, reason: Reason)

  /** The labels of one selected allocation, with the artifact that it must hold. */
  predicate OwnInstance(labels: Labels, r: Reference) {
    && Kind in labels && labels[Kind] == Closed(ConfigurationVolume)
    && VolumeKind in labels && labels[VolumeKind] == Closed(ConfigurationWord)
    && Workspace in labels && labels[Workspace] == Plain(r.workspace)
    && Runtime in labels && labels[Runtime] == Plain(r.runtime)
    && Node in labels && labels[Node] == Plain(r.node)
    && Allocation in labels && labels[Allocation] == Plain(r.allocation)
    && ConfigurationProfile in labels && labels[ConfigurationProfile] == Closed(ConfigurationInstanceProfile)
    && ConfigurationReference in labels && labels[ConfigurationReference] == Digest(OfReference(r))
    && ArtifactKey in labels && labels[ArtifactKey] == Plain(r.artifact)
    && ArtifactDigest in labels && labels[ArtifactDigest] == Plain(r.digest)
  }

  lemma OwnInstanceIs(labels: Labels, r: Reference)
    ensures OwnInstance(labels, r) <==> ConfigurationOwner(labels, r)
  {
    var e := ConfigurationLabels(r);
    if ConfigurationOwner(labels, r) {
      assert Kind in e && VolumeKind in e && Workspace in e && Runtime in e && Node in e && Allocation in e;
      assert ConfigurationProfile in e && ConfigurationReference in e && ArtifactKey in e && ArtifactDigest in e;
      assert forall k | k in e :: Get(labels, k) == Some(e[k]);
    }
  }

  /** The three calls before a deletion: the exact owner's local volume, unused, and unchanged at
      the recheck. */
  predicate CheckedForRemoval(s: seq<Step>, r: Reference) {
    var name := ConfigurationVolumeName(r);
    && |s| >= 3
    && s[0].op == Inspect(name) && name in s[0].before.volumes
    && OwnInstance(s[0].before.volumes[name].labels, r) && s[0].before.volumes[name].local
    && s[1].op == AskUse(name) && name !in s[1].before.used
    && s[2].op == Inspect(name) && name in s[2].before.volumes
    && s[2].before.volumes[name] == s[0].before.volumes[name]
  }

  /** The five calls behind a REMOVED row: checked, deleted, and absent afterwards. */
  predicate RemovalShown(s: seq<Step>, r: Reference) {
    var name := ConfigurationVolumeName(r);
    && |s| == 5 && CheckedForRemoval(s, r)
    && s[3].op == Delete(name) && s[3].after == Without(s[3].before, name)
    && name in s[3].before.volumes && name !in s[3].before.used
    && s[4].op == Inspect(name) && name !in s[4].before.volumes
  }

  /** A refusal has seen one volume of that name: with other labels, or the owner's but not local. */
  predicate RefusalShown(s: seq<Step>, r: Reference, reason: Reason) {
    var name := ConfigurationVolumeName(r);
    && |s| == 1 && s[0].op == Inspect(name) && name in s[0].before.volumes
    && var v := s[0].before.volumes[name];
       || (reason == OwnershipMismatch && !OwnInstance(v.labels, r))
       || (reason == ProvenanceUnproven && OwnInstance(v.labels, r) && !v.local)
  }

  /** A volume is retained because it was in use when that was asked, or when it was to be deleted. */
  predicate UseShown(s: seq<Step>, r: Reference) {
    var name := ConfigurationVolumeName(r);
    || (&& |s| == 2 && s[0].op == Inspect(name) && name in s[0].before.volumes
        && OwnInstance(s[0].before.volumes[name].labels, r) && s[0].before.volumes[name].local
        && s[1].op == AskUse(name) && name in s[1].before.used)
    || (|s| == 4 && CheckedForRemoval(s, r) && s[3].op == Delete(name) && name in s[3].before.used)
  }

  predicate NothingDeleted(s: seq<Step>) {
    forall i | 0 <= i < |s| :: s[i].after == s[i].before
  }

  /** What each status and its reason mean for the calls that were made for it. */
  predicate RowShown(s: seq<Step>, r: Reference, status: Status, reason: Reason) {
    match status
    case Removed => reason == NoReason && RemovalShown(s, r)
    case AlreadyAbsent =>
      && reason == NoReason
      && |s| == 1 && s[0].op == Inspect(ConfigurationVolumeName(r))
      && ConfigurationVolumeName(r) !in s[0].before.volumes
    case Refused => RefusalShown(s, r, reason) && NothingDeleted(s)
    case RetainedInUse => reason == IsInUse && UseShown(s, r) && NothingDeleted(s)
    case Unknown => reason == ProviderUncertain
  }

  /** The row that a shelf which nobody else changes, and whose calls do not fail, leads to. */
  predicate Decides(shelf: Shelf, r: Reference, status: Status, reason: Reason) {
    var name := ConfigurationVolumeName(r);
    if name !in shelf.volumes then status == AlreadyAbsent && reason == NoReason
    else
      var v := shelf.volumes[name];
      if !OwnInstance(v.labels, r) then status == Refused && reason == OwnershipMismatch
      else if !v.local then status == Refused && reason == ProvenanceUnproven
      else if name in shelf.used then status == RetainedInUse && reason == IsInUse
      else status == Removed && reason == NoReason
  }

  /** Every call is about this reference's volume, and whatever the row says, a deletion was sent
      only as the fourth call, after the three checks. */
  predicate OwnSteps(s: seq<Step>, r: Reference) {
    && (forall i | 0 <= i < |s| :: s[i].op.name == ConfigurationVolumeName(r) && HonestStep(s[i]))
    && (forall i | 0 <= i < |s| && s[i].op.Delete? :: i == 3 && CheckedForRemoval(s, r))
  }

  method CleanupOne(store: Store, r: Reference) returns (out: Result<(Status, Reason), Raised>, ghost s: seq<Step>)
    modifies store
    ensures store.steps == old(store.steps) + s && OwnSteps(s, r)
    ensures out.Success? ==> RowShown(s, r, out.value.0, out.value.1)
    ensures store.quiet ==>
              || store.shelf == old(store.shelf)
              || store.shelf == Without(old(store.shelf), ConfigurationVolumeName(r))
    ensures store.quiet && out.Success? && (out.value.0 == Removed || out.value.0 == AlreadyAbsent) ==>
              ConfigurationVolumeName(r) !in store.shelf.volumes
    ensures store.quiet && store.reliable ==>
              out.Success? && Decides(old(store.shelf), r, out.value.0, out.value.1)
  {
    var name := ConfigurationVolumeName(r);
    var observed, first := store.InspectVolume(name);
    s := [first];
    if observed.Failure? {
      return Failure(observed.error), s;
    }
    if observed.value.None? {
      return Success((AlreadyAbsent, NoReason)), s;
    }
    var volume := observed.value.value;
    OwnInstanceIs(volume.labels, r);
    if !ConfigurationOwner(volume.labels, r) {
      return Success((Refused, OwnershipMismatch)), s;
    }
    if !volume.local {
      return Success((Refused, ProvenanceUnproven)), s;
    }
    var used, second := store.InUse(name);
    s := [first, second];
    if used.Failure? {
      return Failure(used.error), s;
    }
    if used.value {
      return Success((RetainedInUse, IsInUse)), s;
    }
    ghost var rest;
    out, rest := RemoveAndConfirm(store, name, volume);
    s := [first, second] + rest;
  }

  method RemoveAndConfirm(store: Store, name: VolumeName, volume: Stored)
    returns (out: Result<(Status, Reason), Raised>, ghost s: seq<Step>)
    requires volume.local
    modifies store
    ensures store.steps == old(store.steps) + s
    ensures forall i | 0 <= i < |s| :: s[i].op.name == name && HonestStep(s[i])
    ensures forall i | 0 <= i < |s| && s[i].op.Delete? ::
              i == 1 && s[0].op == Inspect(name) && name in s[0].before.volumes && s[0].before.volumes[name] == volume
    ensures out.Success? ==>
              || out.value == (Removed, NoReason) || out.value == (RetainedInUse, IsInUse)
              || out.value == (Unknown, ProviderUncertain)
    ensures out.Success? && out.value.0 == Removed ==>
              && |s| == 3 && s[0].op == Inspect(name) && s[1].op == Delete(name) && s[2].op == Inspect(name)
              && name in s[0].before.volumes && s[0].before.volumes[name] == volume
              && s[1].after == Without(s[1].before, name)
              && name in s[1].before.volumes && name !in s[1].before.used
              && name !in s[2].before.volumes
    ensures out.Success? && out.value.0 == RetainedInUse ==>
              && |s| == 2 && s[0].op == Inspect(name) && s[1].op == Delete(name)
              && name in s[0].before.volumes && s[0].before.volumes[name] == volume
              && name in s[1].before.used && NothingDeleted(s)
    ensures store.quiet && store.reliable && name in old(store.shelf).volumes
            && old(store.shelf).volumes[name] == volume && name !in old(store.shelf).used ==>
              out == Success((Removed, NoReason))
    ensures store.quiet ==> store.shelf == old(store.shelf) || store.shelf == Without(old(store.shelf), name)
    ensures store.quiet && out.Success? && out.value.0 == Removed ==> name !in store.shelf.volumes
  {
    var removed;
    removed, s := store.RemoveUnchanged(name, volume);
    if removed.Failure? {
      out := if removed.error == VolumeInUse then Success((RetainedInUse, IsInUse)) else Failure(removed.error);
      return;
    }
    var after, last := store.InspectVolume(name);
    s := s + [last];
    out := if after.Failure? then Failure(after.error)
           else if after.value.Some? then Success((Unknown, ProviderUncertain))
           else Success((Removed, NoReason));
  }

  // ---- all rows ----

  /** Known rows, then at most one that the provider left uncertain, then rows not attempted. */
  predicate Shaped(rows: seq<Row>) {
    exists k :: 0 <= k <= |rows| && ShapedAt(rows, k)
  }

  predicate ShapedAt(rows: seq<Row>, k: nat)
    requires k <= |rows|
  {
    && (forall i | 0 <= i < k :: rows[i].status != Unknown)
    && (k < |rows| ==> rows[k].status == Unknown && rows[k].reason == ProviderUncertain)
    && (forall i | k < i < |rows| :: rows[i].status == Unknown && rows[i].reason == NotAttempted)
  }

  predicate RowBacked(row: Row, s: seq<Step>) {
    && OwnSteps(s, row.reference)
    && (row.reason == NotAttempted ==> s == [])
    && (row.reason != NotAttempted ==> RowShown(s, row.reference, row.status, row.reason))
  }

  /** The calls behind each row, one after the other. */
  ghost predicate Shown(rows: seq<Row>, parts: seq<seq<Step>>) {
    |parts| == |rows| && forall i | 0 <= i < |rows| :: RowBacked(rows[i], parts[i])
  }

  lemma ShownThen(rows: seq<Row>, parts: seq<seq<Step>>, row: Row, s: seq<Step>)
    requires Shown(rows, parts) && RowBacked(row, s)
    ensures Shown(rows + [row], parts + [s])
    ensures Joined(parts + [s]) == Joined(parts) + s
  {
    assert (parts + [s])[..|parts|] == parts;
  }

  lemma ShapedThen(rows: seq<Row>, k: nat, row: Row)
    requires k <= |rows| && ShapedAt(rows, k)
    ensures k == |rows| && row.status != Unknown ==> ShapedAt(rows + [row], k + 1)
    ensures k == |rows| && row.status == Unknown && row.reason == ProviderUncertain ==> ShapedAt(rows + [row], k)
    ensures k < |rows| && row.status == Unknown && row.reason == NotAttempted ==> ShapedAt(rows + [row], k)
  {
  }

  function Joined(parts: seq<seq<Step>>): seq<Step> {
    if parts == [] then [] else Joined(parts[..|parts| - 1]) + parts[|parts| - 1]
  }

  /** One row for each reference, in order. */
  predicate Follows(rows: seq<Row>, references: seq<Reference>) {
    |rows| <= |references| && forall i | 0 <= i < |rows| :: rows[i].reference == references[i]
  }

  lemma FollowsThen(rows: seq<Row>, references: seq<Reference>, row: Row)
    requires Follows(rows, references) && |rows| < |references| && row.reference == references[|rows|]
    ensures Follows(rows + [row], references)
  {
  }

  /** The row of one reference: attempted only while everything so far is known. */
  method NextRow(store: Store, r: Reference, unknown: bool) returns (row: Row, ghost s: seq<Step>)
    modifies store
    ensures store.steps == old(store.steps) + s && RowBacked(row, s) && row.reference == r
    ensures row.status == Unknown ==> row.reason == if unknown then NotAttempted else ProviderUncertain
    ensures unknown ==> row.status == Unknown
    ensures store.quiet ==>
              || store.shelf == old(store.shelf)
              || store.shelf == Without(old(store.shelf), ConfigurationVolumeName(r))
    ensures store.quiet && (row.status == Removed || row.status == AlreadyAbsent) ==>
              ConfigurationVolumeName(r) !in store.shelf.volumes
    ensures store.quiet && store.reliable && !unknown ==> Decides(old(store.shelf), r, row.status, row.reason)
  {
    if unknown {
      return Row(r, Unknown, NotAttempted), [];
    }
    var out;
    out, s := CleanupOne(store, r);
    row := match out
           case Success(known) => Row(r, known.0, known.1)
           case Failure(_) => Row(r, Unknown, ProviderUncertain);
  }

  /** The first `k` rows are known, and so is every row so far exactly if there are no others. */
  predicate RowsSoFar(references: seq<Reference>, rows: seq<Row>, k: nat, unknown: bool) {
    Follows(rows, references) && k <= |rows| && ShapedAt(rows, k) && (unknown <==> k < |rows|)
  }

  lemma RowsThen(references: seq<Reference>, rows: seq<Row>, k: nat, row: Row, unknown: bool)
    requires RowsSoFar(references, rows, k, unknown) && |rows| < |references| && row.reference == references[|rows|]
    requires row.status == Unknown ==> row.reason == if unknown then NotAttempted else ProviderUncertain
    requires unknown ==> row.status == Unknown
    ensures RowsSoFar(references, rows + [row], if row.status == Unknown then k else |rows| + 1, row.status == Unknown)
  {
    ShapedThen(rows, k, row);
    FollowsThen(rows, references, row);
  }

  /** A volume that was not selected is as it was. */
  predicate OthersUntouched(a: Shelf, b: Shelf, references: seq<Reference>) {
    forall v | v in a.volumes ::
      || (exists r | r in references :: ConfigurationVolumeName(r) == v)
      || (v in b.volumes && b.volumes[v] == a.volumes[v])
  }

  predicate AllDecided(shelf: Shelf, references: seq<Reference>, rows: seq<Row>) {
    && |rows| == |references|
    && forall i | 0 <= i < |rows| :: Decides(shelf, references[i], rows[i].status, rows[i].reason)
  }

  predicate DistinctVolumes(references: seq<Reference>) {
    forall i, j | 0 <= i < j < |references| ::
      ConfigurationVolumeName(references[i]) != ConfigurationVolumeName(references[j])
  }

  /** Cleans up the selected instances. Where nobody else acts and no call fails, the shelf decides
      every row. */
  method Cleanup(store: Store, references: seq<Reference>) returns (rows: seq<Row>, ghost parts: seq<seq<Step>>)
    modifies store
    ensures |rows| == |references| && Follows(rows, references)
    ensures Shaped(rows)
    ensures store.steps == old(store.steps) + Joined(parts) && Shown(rows, parts)
    ensures store.quiet ==> OthersUntouched(old(store.shelf), store.shelf, references)
    ensures store.quiet && AllGone(rows) ==> Absent(store.shelf, references)
    ensures store.quiet && store.reliable && Absent(old(store.shelf), references) ==> AllAbsent(rows)
    ensures store.quiet && store.reliable && DistinctVolumes(references) ==>
              AllDecided(old(store.shelf), references, rows)
  {
    ghost var start := store.shelf;
    rows, parts := [], [];
    var unknown := false;
    ghost var k := 0;
    for i := 0 to |references|
      invariant |rows| == i && RowsSoFar(references, rows, k, unknown)
      invariant store.steps == old(store.steps) + Joined(parts) && Shown(rows, parts)
      invariant store.quiet ==> UndisturbedSoFar(store.reliable, start, store.shelf, references, rows, unknown)
    {
      ghost var before, unknown0, k0 := store.shelf, unknown, k;
      var row, s := NextRow(store, references[i], unknown);
      unknown := row.status == Unknown;
      k := if unknown then k else i + 1;
      if store.quiet {
        UndisturbedThen(store.reliable, start, before, store.shelf, references, rows, row, unknown0);
      }
      ShownThen(rows, parts, row, s);
      RowsThen(references, rows, k0, row, unknown0);
      assert store.steps == old(store.steps) + (Joined(parts) + s);
      rows, parts := rows + [row], parts + [s];
    }
    if store.quiet {
      UndisturbedEnds(store.reliable, start, store.shelf, references, rows, unknown);
    }
    assert ShapedAt(rows, k);
  }

  predicate AllGone(rows: seq<Row>) {
    forall i | 0 <= i < |rows| :: rows[i].status == Removed || rows[i].status == AlreadyAbsent
  }

  predicate Absent(s: Shelf, references: seq<Reference>) {
    forall i | 0 <= i < |references| :: ConfigurationVolumeName(references[i]) !in s.volumes
  }

  predicate AllAbsent(rows: seq<Row>) {
    forall i | 0 <= i < |rows| :: rows[i].status == AlreadyAbsent
  }

  /** What the rows so far mean when nobody else acts. */
  predicate QuietSoFar(reliable: bool, start: Shelf, now: Shelf, references: seq<Reference>, rows: seq<Row>,
                       unknown: bool) {
    && |rows| <= |references| && Kept(start, now, references[..|rows|])
    && (AllGone(rows) ==> Absent(now, references[..|rows|]))
    && (reliable ==> !unknown)
    && (reliable && Absent(start, references) ==> AllAbsent(rows))
  }

  /** The rows so far are decided by the first shelf, and the volumes of the others are as they were. */
  predicate DecidedSoFar(start: Shelf, now: Shelf, references: seq<Reference>, rows: seq<Row>) {
    && |rows| <= |references|
    && (forall i | 0 <= i < |rows| :: Decides(start, references[i], rows[i].status, rows[i].reason))
    && (forall i | |rows| <= i < |references| :: SameVolume(start, now, ConfigurationVolumeName(references[i])))
  }

  lemma DecidedThen(start: Shelf, before: Shelf, after: Shelf, references: seq<Reference>, rows: seq<Row>, row: Row)
    requires DistinctVolumes(references) && |rows| < |references| && DecidedSoFar(start, before, references, rows)
    requires var r := references[|rows|];
             && (after == before || after == Without(before, ConfigurationVolumeName(r)))
             && Decides(before, r, row.status, row.reason)
    ensures DecidedSoFar(start, after, references, rows + [row])
  {
    forall i | |rows| < i < |references|
      ensures SameVolume(start, after, ConfigurationVolumeName(references[i]))
    {
      assert SameVolume(start, before, ConfigurationVolumeName(references[i]));
    }
    assert SameVolume(start, before, ConfigurationVolumeName(references[|rows|]));
  }

  predicate UndisturbedSoFar(reliable: bool, start: Shelf, now: Shelf, references: seq<Reference>, rows: seq<Row>,
                             unknown: bool) {
    && QuietSoFar(reliable, start, now, references, rows, unknown)
    && (!reliable || !DistinctVolumes(references) || DecidedSoFar(start, now, references, rows))
  }

  lemma UndisturbedThen(reliable: bool, start: Shelf, before: Shelf, after: Shelf, references: seq<Reference>,
                        rows: seq<Row>, row: Row, unknown: bool)
    requires |rows| < |references| && UndisturbedSoFar(reliable, start, before, references, rows, unknown)
    requires var name := ConfigurationVolumeName(references[|rows|]);
             && (after == before || after == Without(before, name))
             && (row.status == Removed || row.status == AlreadyAbsent ==> name !in after.volumes)
             && (reliable && !unknown ==> Decides(before, references[|rows|], row.status, row.reason))
    ensures UndisturbedSoFar(reliable, start, after, references, rows + [row], row.status == Unknown)
  {
    QuietThen(reliable, start, before, after, references, rows, row, unknown);
    if reliable && DistinctVolumes(references) {
      DecidedThen(start, before, after, references, rows, row);
    }
  }

  lemma UndisturbedEnds(reliable: bool, start: Shelf, now: Shelf, references: seq<Reference>, rows: seq<Row>,
                        unknown: bool)
    requires UndisturbedSoFar(reliable, start, now, references, rows, unknown) && |rows| == |references|
    ensures OthersUntouched(start, now, references)
    ensures AllGone(rows) ==> Absent(now, references)
    ensures reliable && Absent(start, references) ==> AllAbsent(rows)
    ensures reliable && DistinctVolumes(references) ==> AllDecided(start, references, rows)
  {
    assert references[..|references|] == references;
  }

  predicate SameVolume(a: Shelf, b: Shelf, v: VolumeName) {
    && (v in b.volumes <==> v in a.volumes) && (v in b.volumes ==> v in a.volumes && b.volumes[v] == a.volumes[v])
    && (v in b.used <==> v in a.used)
  }

  lemma QuietThen(reliable: bool, start: Shelf, before: Shelf, after: Shelf, references: seq<Reference>, rows: seq<Row>,
                  row: Row, unknown: bool)
    requires |rows| < |references| && QuietSoFar(reliable, start, before, references, rows, unknown)
    requires var name := ConfigurationVolumeName(references[|rows|]);
             && (after == before || after == Without(before, name))
             && (row.status == Removed || row.status == AlreadyAbsent ==> name !in after.volumes)
             && (reliable && !unknown ==> Decides(before, references[|rows|], row.status, row.reason))
    ensures QuietSoFar(reliable, start, after, references, rows + [row], row.status == Unknown)
  {
    var i, all := |rows|, rows + [row];
    KeptThen(start, before, after, references, i);
    if AllGone(all) {
      assert all[i] == row && forall j | 0 <= j < i :: all[j] == rows[j];
    }
  }

  /** Only volumes of these references may have gone. */
  predicate Kept(a: Shelf, b: Shelf, references: seq<Reference>) {
    && (forall v | v in b.volumes :: v in a.volumes && b.volumes[v] == a.volumes[v])
    && (forall v | v in a.volumes && v !in b.volumes :: exists r | r in references :: ConfigurationVolumeName(r) == v)
  }

  lemma KeptThen(start: Shelf, before: Shelf, after: Shelf, references: seq<Reference>, i: nat)
    requires i < |references|
    ensures Kept(start, before, references[..i])
            && (after == before || after == Without(before, ConfigurationVolumeName(references[i]))) ==>
              Kept(start, after, references[..i + 1])
  {
    assert forall r | r in references[..i] :: r in references[..i + 1];
    assert references[i] in references[..i + 1];
  }

  // ---- whole-run laws ----

  lemma {:induction false} JoinedSteps(rows: seq<Row>, parts: seq<seq<Step>>, j: nat)
    requires Shown(rows, parts) && j < |Joined(parts)|
    ensures HonestStep(Joined(parts)[j])
    ensures exists r | r in rows :: Joined(parts)[j].op.name == ConfigurationVolumeName(r.reference)
    decreases |parts|
  {
    var n := |parts| - 1;
    var less := Joined(parts[..n]);
    if j < |less| {
      assert Shown(rows[..n], parts[..n]);
      JoinedSteps(rows[..n], parts[..n], j);
      var r :| r in rows[..n] && Joined(parts[..n])[j].op.name == ConfigurationVolumeName(r.reference);
      assert r in rows;
    } else {
      assert Joined(parts)[j] == parts[n][j - |less|];
      assert rows[n] in rows;
    }
  }

  /** Whoever else acts, no call of a cleanup changes a volume that was not selected. */
  lemma UnselectedUntouched(references: seq<Reference>, rows: seq<Row>, parts: seq<seq<Step>>, j: nat, v: VolumeName)
    requires |rows| == |references| && Follows(rows, references)
    requires Shown(rows, parts) && j < |Joined(parts)|
    requires forall r | r in references :: ConfigurationVolumeName(r) != v
    ensures var s := Joined(parts)[j];
            && (v in s.after.volumes <==> v in s.before.volumes)
            && (v in s.before.volumes ==> s.after.volumes[v] == s.before.volumes[v])
  {
    JoinedSteps(rows, parts, j);
    var r :| r in rows && Joined(parts)[j].op.name == ConfigurationVolumeName(r.reference);
    assert r.reference in references;
  }

  /** Cleaning up twice: once everything is removed, a replay finds everything absent and deletes
      nothing. */
  method CleanupTwice(store: Store, references: seq<Reference>) returns (first: seq<Row>, second: seq<Row>)
    requires store.quiet && store.reliable
    modifies store
    ensures |first| == |second| == |references|
    ensures AllGone(first) ==> AllAbsent(second)
  {
    ghost var parts;
    first, parts := Cleanup(store, references);
    second, parts := Cleanup(store, references);
  }
}
