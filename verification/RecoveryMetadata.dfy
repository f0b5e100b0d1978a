// The budgeted reads behind a recovery report: two sweeps, at most forty calls, each scheduled
// within thirty seconds, and none after a read that failed.

module RecoveryMetadata {
  import opened Wrappers
  import opened DockerLabels
  import opened RecoverySweep

  const LIMIT: real := 30.0

  /** Schedules calls by a clock that must not run backwards. While a daemon is frozen no time passes
      either. */
  class Budget {
    const started: real
    const frozen: bool
    var previous: real

    constructor (now: real, frozen: bool)
      ensures started == previous == now && this.frozen == frozen
    {
      started, previous := now, now;
      this.frozen := frozen;
    }

    ghost predicate Valid()
      reads this
    {
      started <= previous && (previous == started || previous < started + LIMIT)
    }

    /** The clock may fail, run backwards or run out; otherwise the moment is recorded. */
    method Check() returns (ok: bool)
      requires Valid()
      modifies this
      ensures Valid()
      ensures ok ==> old(previous) <= previous < started + LIMIT
      ensures !ok ==> previous == old(previous)
      ensures frozen ==> ok
    {
      var now: real, fails: bool := *, *;
      if frozen {
        now, fails := previous, false;
      }
      if fails || now < previous || now - started >= LIMIT {
        return false;
      }
      previous := now;
      ok := true;
    }
  }

  datatype Op = Info | ImageOp | ContainerOp | NetworkOp | VolumeOp(target: VolumeTarget) | HoldersOp(name: VolumeName)

  /** One call: when it was scheduled, and which snapshot it read, if it was answered. */
  datatype Call = Call(op: Op, time: real, read: Option<nat>)

  predicate Readable(s: Snapshot, p: Plan, op: Op) {
    match op
    case Info => s.daemon == Some(p.expected)
    case ImageOp => !s.image.Malformed?
    case ContainerOp => !s.container.Malformed?
    case NetworkOp => NetworkRow(p, s.network).Some?
    case VolumeOp(t) => t.name.Some? && VolumeRow(t, s.volume(t.name.value)).Some?
    case HoldersOp(n) => s.held(n).Some?
  }

  /** Answered, and with something a row can be made of. */
  predicate Good(h: seq<Snapshot>, p: Plan, c: Call) {
    c.read.Some? && c.read.value < |h| && Readable(h[c.read.value], p, c.op)
  }

  predicate AllGood(h: seq<Snapshot>, p: Plan, calls: seq<Call>) {
    forall i | 0 <= i < |calls| :: Good(h, p, calls[i])
  }

  /** Nothing was called after a read that failed. */
  predicate StoppedAtFailure(h: seq<Snapshot>, p: Plan, calls: seq<Call>) {
    forall i | 0 <= i < |calls| - 1 :: Good(h, p, calls[i])
  }

  predicate InTime(b: real, calls: seq<Call>) {
    && (forall i | 0 <= i < |calls| :: b <= calls[i].time < b + LIMIT)
    && (forall i, j | 0 <= i < j < |calls| :: calls[i].time <= calls[j].time)
  }

  datatype Trouble = Expired | ProviderFault | BindingUnavailable | UnsupportedNames | Unreadable

  /** The daemon, whose whole history is kept, and the calls made to it. */
  class Api {
    var history: seq<Snapshot>
    var calls: seq<Call>
    const budget: Budget

    constructor (now: Snapshot, budget: Budget)
      ensures history == [now] && calls == [] && this.budget == budget
    {
      history := [now];
      calls := [];
      this.budget := budget;
    }

    ghost predicate Valid()
      reads this, budget
    {
      && history != [] && budget.Valid() && InTime(budget.started, calls)
      && (forall i | 0 <= i < |calls| :: calls[i].time <= budget.previous)
    }

    /** What the daemon is now. */
    ghost function Now(): Snapshot
      requires history != []
      reads this
    {
      history[|history| - 1]
    }

    /** One budgeted call. Before it, anybody may have changed the daemon any number of times, unless
        it is frozen: then every call is answered. */
    method Ask(op: Op) returns (r: Result<nat, Trouble>)
      requires Valid()
      modifies this, budget
      ensures Valid() && old(history) <= history
      ensures r == Failure(Expired) ==> calls == old(calls)
      ensures r != Failure(Expired) ==>
                |calls| == |old(calls)| + 1 && calls[..|old(calls)|] == old(calls) && calls[|old(calls)|].op == op
      ensures r.Success? ==>
                |old(history)| - 1 <= r.value == |history| - 1 && calls[|old(calls)|].read == Some(r.value)
      ensures r.Failure? ==> r.error == Expired || r.error == ProviderFault
      ensures budget.frozen ==> r == Success(|history| - 1) && history == old(history)
    {
      var scheduled := budget.Check();
      if !scheduled {
        return Failure(Expired);
      }
      var changes: seq<Snapshot>, answers: bool := *, *;
      if budget.frozen {
        changes, answers := [], true;
      }
      history := history + changes;
      var read := |history| - 1;
      calls := calls + [Call(op, budget.previous, if answers then Some(read) else None)];
      r := if answers then Success(read) else Failure(ProviderFault);
    }
  }

  lemma GoodStays(h: seq<Snapshot>, h': seq<Snapshot>, p: Plan, calls: seq<Call>)
    requires h <= h' && AllGood(h, p, calls)
    ensures AllGood(h', p, calls)
  {
    forall i | 0 <= i < |calls| ensures Good(h', p, calls[i]) {
      assert Good(h, p, calls[i]);
    }
  }

  /** Asks, and stops on an answer that cannot be read. */
  method Read(api: Api, p: Plan, op: Op, ghost first: nat) returns (r: Result<nat, Trouble>)
    requires api.Valid() && AllGood(api.history, p, api.calls) && first < |api.history|
    modifies api, api.budget
    ensures api.Valid() && old(api.history) <= api.history && old(api.calls) <= api.calls
    ensures |api.calls| <= |old(api.calls)| + 1
    ensures r.Success? ==> AllGood(api.history, p, api.calls) && |api.calls| == |old(api.calls)| + 1
    ensures r.Success? ==> first <= r.value < |api.history| && Readable(api.history[r.value], p, op)
    ensures StoppedAtFailure(api.history, p, api.calls)
    ensures api.budget.frozen ==> api.history == old(api.history)
    ensures api.budget.frozen && Readable(old(api.Now()), p, op) ==> r == Success(|api.history| - 1)
  {
    var asked := api.Ask(op);
    GoodStays(old(api.history), api.history, p, old(api.calls));
    if asked.Failure? {
      assert forall i | 0 <= i < |old(api.calls)| :: api.calls[i] == old(api.calls)[i];
      return Failure(asked.error);
    }
    assert forall i | 0 <= i < |old(api.calls)| :: api.calls[i] == old(api.calls)[i];
    r := if Readable(api.history[asked.value], p, op) then Success(asked.value)
         else Failure(if op.Info? then BindingUnavailable else Unreadable);
  }

  // ---- one sweep ----

  /** What a sweep keeps of the daemon while it goes on. */
  twostate predicate Progress(api: Api, p: Plan, new most: nat)
    reads api, api.budget
  {
    && api.Valid() && old(api.history) <= api.history && old(api.calls) <= api.calls
    && |api.calls| <= |old(api.calls)| + most
  }

  /** Looks at one volume and then for one holder of it. */
  method ReadVolume(api: Api, p: Plan, t: VolumeTarget, ghost first: nat)
    returns (r: Result<Row, Trouble>, ghost a: nat, ghost b: nat)
    requires api.Valid() && AllGood(api.history, p, api.calls) && first < |api.history|
    modifies api, api.budget
    ensures Progress(api, p, 2)
    ensures StoppedAtFailure(api.history, p, api.calls)
    ensures first <= a < |api.history| && first <= b < |api.history|
    ensures r.Success? ==>
              AllGood(api.history, p, api.calls) && VolumeReading(t, api.history[a], api.history[b]) == Some(r.value)
    ensures api.budget.frozen ==> api.history == old(api.history)
    ensures api.budget.frozen && VolumeReading(t, old(api.Now()), old(api.Now())).Some? ==>
              r == Success(VolumeReading(t, old(api.Now()), old(api.Now())).value)
  {
    a, b := first, first;
    if t.name.None? {
      return Success(UnsupportedRow(t)), a, b;
    }
    var i := Read(api, p, VolumeOp(t), first);
    if i.Failure? {
      return Failure(i.error), a, b;
    }
    var row := VolumeRow(t, api.history[i.value].volume(t.name.value)).value;
    ghost var inspected := api.history[i.value];
    var j := Read(api, p, HoldersOp(t.name.value), first);
    if j.Failure? {
      return Failure(j.error), a, b;
    }
    a, b := i.value, j.value;
    assert api.history[a] == inspected;
    var attached := Attached(row, api.history[j.value].held(t.name.value));
    r := if attached.None? then Failure(Unreadable) else Success(attached.value);
  }

  datatype VolumeMoments = VolumeMoments(inspected: seq<nat>, asked: seq<nat>)

  ghost predicate VolumesRead(h: seq<Snapshot>, ts: seq<VolumeTarget>, n: nat, rows: seq<Row>, v: VolumeMoments,
                              first: nat) {
    && n <= |ts| && |v.inspected| == |v.asked| == n && |rows| == n
    && (forall i | 0 <= i < n ::
          && first <= v.inspected[i] < |h| && first <= v.asked[i] < |h|
          && VolumeReading(ts[i], h[v.inspected[i]], h[v.asked[i]]) == Some(rows[i]))
  }

  lemma VolumesStayRead(h: seq<Snapshot>, h': seq<Snapshot>, ts: seq<VolumeTarget>, n: nat, rows: seq<Row>,
                        v: VolumeMoments, first: nat)
    requires VolumesRead(h, ts, n, rows, v, first) && h <= h'
    ensures VolumesRead(h', ts, n, rows, v, first)
  {
  }

  /** These are the rows of the volumes of one snapshot. */
  ghost predicate VolumesOf(s: Snapshot, ts: seq<VolumeTarget>, n: nat, rows: seq<Row>)
    requires n <= |ts|
  {
    |rows| == n && forall i | 0 <= i < n :: VolumeReading(ts[i], s, s) == Some(rows[i])
  }

  method ReadVolumes(api: Api, p: Plan, ts: seq<VolumeTarget>, ghost first: nat, ghost all: seq<Row>)
    returns (r: Result<seq<Row>, Trouble>, ghost v: VolumeMoments)
    requires api.Valid() && AllGood(api.history, p, api.calls) && first < |api.history|
    modifies api, api.budget
    ensures Progress(api, p, 2 * |ts|)
    ensures StoppedAtFailure(api.history, p, api.calls)
    ensures r.Success? ==>
              AllGood(api.history, p, api.calls) && VolumesRead(api.history, ts, |ts|, r.value, v, first)
    ensures api.budget.frozen ==> api.history == old(api.history)
    ensures api.budget.frozen && VolumesOf(old(api.Now()), ts, |ts|, all) ==> r == Success(all)
  {
    var rows: seq<Row> := [];
    v := VolumeMoments([], []);
    for i := 0 to |ts|
      invariant api.Valid() && old(api.history) <= api.history && old(api.calls) <= api.calls
      invariant |api.calls| <= |old(api.calls)| + 2 * i && AllGood(api.history, p, api.calls)
      invariant VolumesRead(api.history, ts, i, rows, v, first)
      invariant api.budget.frozen ==> api.history == old(api.history)
      invariant api.budget.frozen && VolumesOf(old(api.Now()), ts, |ts|, all) ==> rows == all[..i]
    {
      ghost var h := api.history;
      ghost var a, b;
      var row;
      row, a, b := ReadVolume(api, p, ts[i], first);
      VolumesStayRead(h, api.history, ts, i, rows, v, first);
      if row.Failure? {
        return Failure(row.error), v;
      }
      rows := rows + [row.value];
      v := VolumeMoments(v.inspected + [a], v.asked + [b]);
    }
    assert |all| == |ts| ==> all[..|ts|] == all;
    r := Success(rows);
  }

  // ---- the fixed addresses ----

  datatype Fixed = Fixed(image: Raw<ImageRaw>, container: Raw<ContainerRaw>, network: Row)

  ghost predicate FixedRead(h: seq<Snapshot>, p: Plan, x: Fixed, m: Moments, first: nat) {
    && first <= m.info < |h| && first <= m.image < |h| && first <= m.container < |h| && first <= m.network < |h|
    && h[m.info].daemon == Some(p.expected)
    && x.image == h[m.image].image && !x.image.Malformed?
    && x.container == h[m.container].container && !x.container.Malformed?
    && NetworkRow(p, h[m.network].network) == Some(x.network)
  }

  /** The daemon's identity and then its image: without both there is nothing to address. */
  method ReadImage(api: Api, p: Plan, ghost first: nat)
    returns (r: Result<Raw<ImageRaw>, Trouble>, ghost info: nat, ghost at: nat)
    requires api.Valid() && AllGood(api.history, p, api.calls) && first < |api.history|
    modifies api, api.budget
    ensures Progress(api, p, 2)
    ensures StoppedAtFailure(api.history, p, api.calls)
    ensures r.Success? ==>
              && AllGood(api.history, p, api.calls)
              && first <= info < |api.history| && first <= at < |api.history|
              && api.history[info].daemon == Some(p.expected)
              && r.value == api.history[at].image && !r.value.Malformed?
    ensures api.budget.frozen ==> api.history == old(api.history)
    ensures api.budget.frozen && Readable(old(api.Now()), p, Info) && Readable(old(api.Now()), p, ImageOp) ==>
              r == Success(old(api.Now()).image)
  {
    info, at := first, first;
    var i := Read(api, p, Info, first);
    if i.Failure? {
      return Failure(i.error), info, at;
    }
    ghost var seen := api.history[i.value];
    var j := Read(api, p, ImageOp, first);
    if j.Failure? {
      return Failure(j.error), info, at;
    }
    info, at := i.value, j.value;
    assert api.history[info] == seen;
    r := Success(api.history[j.value].image);
  }

  method ReadNode(api: Api, p: Plan, ghost first: nat)
    returns (r: Result<(Raw<ContainerRaw>, Row), Trouble>, ghost a: nat, ghost b: nat)
    requires api.Valid() && AllGood(api.history, p, api.calls) && first < |api.history|
    modifies api, api.budget
    ensures Progress(api, p, 2)
    ensures StoppedAtFailure(api.history, p, api.calls)
    ensures r.Success? ==>
              && AllGood(api.history, p, api.calls)
              && first <= a < |api.history| && first <= b < |api.history|
              && r.value.0 == api.history[a].container && !r.value.0.Malformed?
              && NetworkRow(p, api.history[b].network) == Some(r.value.1)
    ensures api.budget.frozen ==> api.history == old(api.history)
    ensures api.budget.frozen && Readable(old(api.Now()), p, ContainerOp) && Readable(old(api.Now()), p, NetworkOp) ==>
              r == Success((old(api.Now()).container, NetworkRow(p, old(api.Now()).network).value))
  {
    a, b := first, first;
    var i := Read(api, p, ContainerOp, first);
    if i.Failure? {
      return Failure(i.error), a, b;
    }
    var container := api.history[i.value].container;
    ghost var seen := api.history[i.value];
    var j := Read(api, p, NetworkOp, first);
    if j.Failure? {
      return Failure(j.error), a, b;
    }
    a, b := i.value, j.value;
    assert api.history[a] == seen;
    r := Success((container, NetworkRow(p, api.history[j.value].network).value));
  }

  /** Nothing stops a sweep of this snapshot before its volumes. */
  predicate FixedReadable(s: Snapshot, p: Plan) {
    && s.daemon == Some(p.expected) && !s.image.Malformed? && !s.container.Malformed? && NetworkRow(p, s.network).Some?
    && DistinctNames(Volumes(p, UidOf(s.image)))
  }

  method ReadFixed(api: Api, p: Plan, ghost first: nat) returns (r: Result<Fixed, Trouble>, ghost m: Moments)
    requires api.Valid() && AllGood(api.history, p, api.calls) && first < |api.history|
    modifies api, api.budget
    ensures Progress(api, p, 4)
    ensures StoppedAtFailure(api.history, p, api.calls)
    ensures r.Success? ==>
              && AllGood(api.history, p, api.calls) && FixedRead(api.history, p, r.value, m, first)
              && DistinctNames(Volumes(p, UidOf(r.value.image)))
    ensures api.budget.frozen ==> api.history == old(api.history)
    ensures api.budget.frozen && FixedReadable(old(api.Now()), p) ==>
              r == Success(Fixed(old(api.Now()).image, old(api.Now()).container,
                                 NetworkRow(p, old(api.Now()).network).value))
  {
    m := Moments(first, first, first, first, [], []);
    var image, info, at := ReadImage(api, p, first);
    if image.Failure? {
      return Failure(image.error), m;
    }
    if !DistinctNames(Volumes(p, UidOf(image.value))) {
      return Failure(UnsupportedNames), m;
    }
    ghost var h := api.history;
    var node, a, b := ReadNode(api, p, first);
    if node.Failure? {
      return Failure(node.error), m;
    }
    m := Moments(info, at, a, b, [], []);
    assert api.history[info] == h[info] && api.history[at] == h[at];
    r := Success(Fixed(image.value, node.value.0, node.value.1));
  }

  // ---- the sweep ----

  function ReadingsOf(p: Plan, x: Fixed, volumes: seq<Row>): Readings {
    Readings(x.image, IdentityOf(x.container), FactsOf(x.container), OwnedBy(p, ContextOf(p, x.image), x.container),
             x.network, volumes)
  }

  lemma SweepIsSwept(h: seq<Snapshot>, h': seq<Snapshot>, p: Plan, x: Fixed, m: Moments, rows: seq<Row>,
                     v: VolumeMoments, first: nat)
    requires FixedRead(h, p, x, m, first) && h <= h'
    requires VolumesRead(h', Volumes(p, UidOf(x.image)), |Volumes(p, UidOf(x.image))|, rows, v, first)
    ensures Swept(h', p, ReadingsOf(p, x, rows), m.(inspected := v.inspected, asked := v.asked), first, |h'| - 1)
  {
    assert h'[m.info] == h[m.info] && h'[m.image] == h[m.image];
    assert h'[m.container] == h[m.container] && h'[m.network] == h[m.network];
  }

  /** A sweep of this snapshot reads this, and nothing stops it. */
  ghost predicate SweptWhole(s: Snapshot, p: Plan, r: Readings) {
    ReadAt(s, p, r) && DistinctNames(Volumes(p, UidOf(s.image)))
  }

  lemma WholeIsRead(s: Snapshot, p: Plan, r: Readings)
    requires SweptWhole(s, p, r)
    ensures FixedReadable(s, p) && VolumesOf(s, Volumes(p, UidOf(s.image)), |Volumes(p, UidOf(s.image))|, r.volumes)
    ensures r == ReadingsOf(p, Fixed(s.image, s.container, NetworkRow(p, s.network).value), r.volumes)
  {
  }

  /** Reads every address once, and puts the rows together at the end. */
  method Sweep(api: Api, p: Plan, ghost all: Readings)
    returns (r: Result<Readings, Trouble>, rows: seq<Row>, ghost m: Moments)
    requires api.Valid() && AllGood(api.history, p, api.calls)
    modifies api, api.budget
    ensures Progress(api, p, 4 + 2 * (|p.configurations| + |p.secrets|))
    ensures StoppedAtFailure(api.history, p, api.calls)
    ensures r.Success? ==>
              && AllGood(api.history, p, api.calls)
              && Swept(api.history, p, r.value, m, |old(api.history)| - 1, |api.history| - 1)
              && rows == RowsOf(p, r.value)
    ensures api.budget.frozen ==> api.history == old(api.history)
    ensures api.budget.frozen && SweptWhole(old(api.Now()), p, all) ==> r == Success(all)
  {
    ghost var first := |api.history| - 1;
    if SweptWhole(api.Now(), p, all) {
      WholeIsRead(api.Now(), p, all);
    }
    rows := [];
    var x, fixedAt := ReadFixed(api, p, first);
    m := fixedAt;
    if x.Failure? {
      return Failure(x.error), rows, m;
    }
    ghost var h := api.history;
    var ts := Volumes(p, UidOf(x.value.image));
    var volumes, v := ReadVolumes(api, p, ts, first, all.volumes);
    if volumes.Failure? {
      return Failure(volumes.error), rows, m;
    }
    SweepIsSwept(h, api.history, p, x.value, m, volumes.value, v, first);
    m := m.(inspected := v.inspected, asked := v.asked);
    var readings := ReadingsOf(p, x.value, volumes.value);
    rows := RowsOf(p, readings);
    r := Success(readings);
  }

  // ---- the report ----

  datatype Report = UnsupportedRequest | Report(rows: seq<Row>, complete: bool)

  predicate Supported(p: Plan) {
    |p.configurations| + |p.secrets| <= MAX_VOLUMES && DistinctNames(Volumes(p, None))
  }

  function DriftRow(row: Row): Row {
    row.(state := Unknown, ownership := Unestablished, identity := NoIdentity,
         attachment := if row.role == ConfigurationRole || row.role == SecretRole then AttachmentUnknown
                       else NoAttachment,
         reason := Drift)
  }

  /** Whether the two sweeps differ on this address. */
  predicate Differs(p: Plan, first: Readings, second: Readings, i: nat)
    requires Comparable(p, first, second)
    requires i < |RowsOf(p, second)|
  {
    || RowsOf(p, first)[i] != RowsOf(p, second)[i]
    || (i == 0 && first.facts != second.facts)
    || (i == 2 && first.image != second.image)
  }

  /** The rows before `i` are overwritten where the sweeps differ. */
  predicate MarkedUpTo(p: Plan, first: Readings, second: Readings, rows: seq<Row>, i: nat)
    requires Comparable(p, first, second)
  {
    && |rows| == |RowsOf(p, second)|
    && forall j | 0 <= j < |rows| ::
         rows[j] == if j < i && Differs(p, first, second, j) then DriftRow(RowsOf(p, second)[j])
                    else RowsOf(p, second)[j]
  }

  lemma DefiniteRowsAgree(p: Plan, first: Readings, second: Readings, rows: seq<Row>)
    requires Comparable(p, first, second) && MarkedUpTo(p, first, second, rows, |rows|) && AllDefinite(rows)
    ensures Agree(p, first, second) && rows == RowsOf(p, second)
  {
    assert Definite(rows[0]) && Definite(rows[2]);
    forall i | 0 <= i < |rows| ensures RowsOf(p, first)[i] == RowsOf(p, second)[i] == rows[i] {
      assert Definite(rows[i]);
    }
  }

  /** Overwrites every row on which the sweeps differ. */
  method MarkDrift(p: Plan, first: Readings, second: Readings) returns (rows: seq<Row>)
    requires Comparable(p, first, second)
    ensures MarkedUpTo(p, first, second, rows, |rows|)
    ensures AllDefinite(rows) ==> Agree(p, first, second) && rows == RowsOf(p, second)
    ensures first == second ==> rows == RowsOf(p, second)
  {
    rows := RowsOf(p, second);
    for i := 0 to |rows|
      invariant MarkedUpTo(p, first, second, rows, i)
    {
      if Differs(p, first, second, i) {
        rows := rows[i := DriftRow(rows[i])];
      }
    }
    if AllDefinite(rows) {
      DefiniteRowsAgree(p, first, second, rows);
    }
  }

  /** At one moment everything reported held together, and the rows say what the daemon had. */
  ghost predicate HeldAtOneMoment(h: seq<Snapshot>, p: Plan, rows: seq<Row>) {
    exists moment | 0 <= moment < |h| :: HeldTogether(h[moment], p, rows) && Describes(h[moment], p, rows)
  }

  lemma AgreementHolds(h: seq<Snapshot>, p: Plan, first: Readings, second: Readings, m: Moments, n: Moments,
                       lo: nat, j: nat)
    requires Settles(h, p) && Swept(h, p, first, m, lo, j) && Swept(h, p, second, n, j, |h| - 1)
    requires Agree(p, first, second) && AllDefinite(RowsOf(p, second))
    ensures HeldAtOneMoment(h, p, RowsOf(p, second))
  {
    DoubleCollect(h, p, first, second, m, n, lo, j, j, |h| - 1);
    HeldTogetherMeans(h[j], p, RowsOf(p, second));
  }

  lemma SweptStays(h: seq<Snapshot>, h': seq<Snapshot>, p: Plan, r: Readings, m: Moments, lo: nat, hi: nat)
    requires Swept(h, p, r, m, lo, hi) && h <= h'
    ensures Swept(h', p, r, m, lo, hi)
  {
    assert h'[m.info] == h[m.info] && h'[m.image] == h[m.image];
    assert h'[m.container] == h[m.container] && h'[m.network] == h[m.network];
  }

  /** Compares two sweeps that were not stopped. */
  method Compare(p: Plan, first: Readings, second: Readings, ghost h: seq<Snapshot>, ghost m: Moments,
                 ghost n: Moments, ghost lo: nat, ghost j: nat)
    returns (rows: seq<Row>, complete: bool)
    requires Comparable(p, first, second)
    requires Swept(h, p, first, m, lo, j) && 0 < |h| && Swept(h, p, second, n, j, |h| - 1)
    ensures complete <==> AllDefinite(rows)
    ensures complete && Settles(h, p) ==> HeldAtOneMoment(h, p, rows)
    ensures first == second ==> rows == RowsOf(p, second)
  {
    rows := MarkDrift(p, first, second);
    complete := AllDefinite(rows);
    if complete && Settles(h, p) {
      AgreementHolds(h, p, first, second, m, n, lo, j);
    }
  }

  /** Of every address it is known whether it is there, whose it is, and whether it is held. */
  predicate NothingOpen(rows: seq<Row>) {
    forall i | 0 <= i < |rows| ::
      && rows[i].state != Unknown && rows[i].state != UnsupportedState
      && rows[i].ownership != Unestablished && rows[i].attachment != AttachmentUnknown
  }

  lemma DefiniteIsClosed(rows: seq<Row>)
    ensures AllDefinite(rows) <==> NothingOpen(rows)
  {
    if NothingOpen(rows) {
      assert forall i | 0 <= i < |rows| :: Definite(rows[i]);
    }
    if AllDefinite(rows) {
      assert forall i | 0 <= i < |rows| :: Definite(rows[i]);
    }
  }

  /** The report of current metadata. It is complete only if two sweeps have agreed on every row
      and fact and every row is definite; `closes` is whether the client closed cleanly. Of a
      frozen daemon that can be read, the report is exactly its rows. */
  method Observe(api: Api, p: Plan, closes: bool, ghost all: Readings) returns (report: Report)
    requires api.Valid() && api.calls == []
    modifies api, api.budget
    ensures old(api.history) <= api.history
    ensures report.UnsupportedRequest? <==> !Supported(p)
    ensures report.UnsupportedRequest? ==> api.calls == []
    ensures |api.calls| <= 40 && InTime(api.budget.started, api.calls)
    ensures StoppedAtFailure(api.history, p, api.calls)
    ensures report.Report? && report.complete && Settles(api.history, p) ==>
              HeldAtOneMoment(api.history, p, report.rows)
    ensures report.Report? && report.complete ==>
              closes && AllGood(api.history, p, api.calls) && NothingOpen(report.rows)
    ensures api.budget.frozen && Supported(p) && SweptWhole(old(api.Now()), p, all) ==>
              report == Report(RowsOf(p, all), NothingOpen(RowsOf(p, all)) && closes)
  {
    if !Supported(p) {
      return UnsupportedRequest;
    }
    var first, firstRows, m := Sweep(api, p, all);
    if first.Failure? {
      return Report(firstRows, false);
    }
    ghost var h, boundary := api.history, |api.history| - 1;
    var second, rows, n := Sweep(api, p, all);
    if second.Failure? {
      return Report(rows, false);
    }
    SweptStays(h, api.history, p, first.value, m, |old(api.history)| - 1, boundary);
    var marked, complete := Compare(p, first.value, second.value, api.history, m, n, |old(api.history)| - 1, boundary);
    DefiniteIsClosed(marked);
    report := Report(marked, complete && closes);
  }
}
