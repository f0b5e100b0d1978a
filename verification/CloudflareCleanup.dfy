// Exact compensation: every stage is attempted whatever happened to the earlier ones, and the
// names of the failed stages are returned in order.

module CloudflareCleanup {
  import opened Wrappers
  import opened Text
  import opened CloudflareProvider
  import opened CloudflareReservation

  datatype Step =
    | Custody
    | Restore(reservation: Reservation, newTunnel: string)
    | Dns(record: string)
    | Connections(tunnel: string)
    | Tunnel(tunnel: string)

  /** The names under which failed stages are reported; the last three are observations. */
  datatype Stage =
    | CustodyStage | DnsStage | ConnectionsStage | TunnelStage
    | ReservationObservation | TunnelObservation | AbsenceObservation

  function StageOf(step: Step): Stage {
    match step
    case Custody => CustodyStage
    case Restore(_, _) => DnsStage
    case Dns(_) => DnsStage
    case Connections(_) => ConnectionsStage
    case Tunnel(_) => TunnelStage
  }

  ghost predicate RunnableStep(w: World, step: Step) {
    step.Restore? ==> ValidReservation(step.reservation) && MyRecord(w, step.reservation.record)
  }

  /** The resource of a step is one that other parties leave alone. */
  ghost predicate Protected(w: World, step: Step) {
    match step
    case Custody => true
    case Restore(v, _) => MyRecord(w, v.record)
    case Dns(r) => MyRecord(w, r)
    case Connections(t) => Mine(w, t)
    case Tunnel(t) => Mine(w, t)
  }

  /** What a successful step has brought about, in a cleanup that started at `w0`. A deletion
      succeeds only if there was something to delete. */
  ghost predicate Done(w0: World, w: World, step: Step) {
    match step
    case Custody => w.custody == Revoked
    case Restore(v, _) => Pointed(w0, w, v)
    case Dns(r) => Feasible(w0, step) && r !in w.records
    case Connections(_) => Feasible(w0, step)
    case Tunnel(t) => Feasible(w0, step) && t !in w.tunnels
  }

  /** A reliable provider cannot fail this step: what it deletes is there. */
  predicate Feasible(w: World, step: Step) {
    match step
    case Custody => true
    case Restore(_, _) => false
    case Dns(r) => ValidIdentifier(r) && r in w.records
    case Connections(t) => ValidIdentifier(t) && t in w.tunnels
    case Tunnel(t) => ValidIdentifier(t) && t in w.tunnels
  }

  /** Every step is feasible at the start, and no step takes away what a later one deletes. */
  ghost predicate AllFeasible(w: World, steps: seq<Step>) {
    && (forall i | 0 <= i < |steps| :: Protected(w, steps[i]) && Feasible(w, steps[i]))
    && (forall i, j | 0 <= i < j < |steps| ::
          && (steps[i].Dns? ==> steps[j] != steps[i])
          && (steps[i].Tunnel? ==> steps[j] != steps[i] && steps[j] != Connections(steps[i].tunnel)))
  }

  ghost predicate RequestOf(step: Step, q: Request) {
    match step
    case Custody => q == RevokeToken
    case Restore(v, _) =>
      q == ReadRecord(v.record) || q == UpdateRecord(v.record, v.hostname, v.expectedTunnel)
    case Dns(r) => q == DeleteRecord(r)
    case Connections(t) => q == DeleteConnections(t)
    case Tunnel(t) => q == DeleteTunnel(t)
  }

  ghost predicate RecordAfter(w: World, w': World, r: string, restored: set<Reservation>, deleted: bool) {
    || SameRecord(w, w', r)
    || (deleted && r !in w'.records)
    || exists v | v in restored :: v.record == r && r in w.records && r in w'.records && w'.records[r] == Restored(v)
  }

  function Restorations(steps: seq<Step>): set<Reservation> {
    set s | s in steps && s.Restore? :: s.reservation
  }

  ghost predicate RequestedBy(steps: seq<Step>, q: Request) {
    exists s | s in steps :: RequestOf(s, q)
  }

  /** What an attempted list of steps may have changed, successful or not. */
  ghost predicate Compensated(w: World, w': World, steps: seq<Step>) {
    && w.log <= w'.log
    && (forall i | |w.log| <= i < |w'.log| :: RequestedBy(steps, w'.log[i]))
    && w'.bornTunnels == w.bornTunnels && w'.bornRecords == w.bornRecords
    && w'.guardedTunnels == w.guardedTunnels && w'.guardedRecords == w.guardedRecords
    && (w'.custody == w.custody || (Custody in steps && w'.custody == Revoked))
    && (forall t | Mine(w, t) :: t in w'.tunnels ==> t in w.tunnels)
    && (forall t | Mine(w, t) && t in w.tunnels && t !in w'.tunnels :: Tunnel(t) in steps)
    && (forall r | MyRecord(w, r) ::
          RecordAfter(w, w', r, Restorations(steps), Dns(r) in steps))
  }

  /** The requests one attempted step has sent: its single deletion, or the reads and the one
      update of a restoration. An unusable identifier is refused before anything is sent. */
  ghost predicate Attempt(step: Step, sent: seq<Request>) {
    match step
    case Custody => sent == [RevokeToken]
    case Restore(_, _) => forall q | q in sent :: RequestOf(step, q)
    case Dns(r) => sent == if ValidIdentifier(r) then [DeleteRecord(r)] else []
    case Connections(t) => sent == if ValidIdentifier(t) then [DeleteConnections(t)] else []
    case Tunnel(t) => sent == if ValidIdentifier(t) then [DeleteTunnel(t)] else []
  }

  function Concat(chunks: seq<seq<Request>>): seq<Request> {
    if chunks == [] then [] else Concat(chunks[..|chunks| - 1]) + chunks[|chunks| - 1]
  }

  ghost predicate EachAttempted(steps: seq<Step>, chunks: seq<seq<Request>>) {
    && |chunks| == |steps|
    && forall i | 0 <= i < |steps| :: Attempt(steps[i], chunks[i])
  }

  /** Every stage was attempted, one after the other, whatever the earlier ones answered. */
  ghost predicate AttemptedInOrder(steps: seq<Step>, sent: seq<Request>) {
    exists chunks :: EachAttempted(steps, chunks) && Concat(chunks) == sent
  }

  /** The single deletion of a step that is not a restoration. */
  function DeletionOf(step: Step): seq<Request> {
    match step
    case Custody => [RevokeToken]
    case Restore(_, _) => []
    case Dns(r) => if ValidIdentifier(r) then [DeleteRecord(r)] else []
    case Connections(t) => if ValidIdentifier(t) then [DeleteConnections(t)] else []
    case Tunnel(t) => if ValidIdentifier(t) then [DeleteTunnel(t)] else []
  }

  function Deletions(steps: seq<Step>): seq<Request> {
    if steps == [] then [] else Deletions(steps[..|steps| - 1]) + DeletionOf(steps[|steps| - 1])
  }

  /** Attempted deletions are exactly these requests. */
  lemma AttemptedExactly(steps: seq<Step>, sent: seq<Request>)
    requires AttemptedInOrder(steps, sent) && forall s | s in steps :: !s.Restore?
    ensures sent == Deletions(steps)
  {
    var chunks :| EachAttempted(steps, chunks) && Concat(chunks) == sent;
    ConcatIsDeletions(steps, chunks);
  }

  lemma {:induction false} ConcatIsDeletions(steps: seq<Step>, chunks: seq<seq<Request>>)
    requires EachAttempted(steps, chunks) && forall s | s in steps :: !s.Restore?
    ensures Concat(chunks) == Deletions(steps)
  {
    if steps != [] {
      var n := |steps| - 1;
      ConcatIsDeletions(steps[..n], chunks[..n]);
      assert Attempt(steps[n], chunks[n]) && steps[n] in steps;
    }
  }

  lemma SentByThree(a: Step, b: Step, c: Step)
    ensures Deletions([a, b, c]) == DeletionOf(a) + DeletionOf(b) + DeletionOf(c)
  {
    var one, two, three := [a], [a, b], [a, b, c];
    assert one[..0] == [] && two[..1] == one && three[..2] == two;
    assert Deletions(one) == DeletionOf(a);
    assert Deletions(two) == Deletions(one) + DeletionOf(b);
    assert Deletions(three) == Deletions(two) + DeletionOf(c);
  }

  lemma SentByFour(a: Step, b: Step, c: Step, d: Step)
    ensures Deletions([a, b, c, d]) == DeletionOf(a) + DeletionOf(b) + DeletionOf(c) + DeletionOf(d)
  {
    SentByThree(a, b, c);
    var three, four := [a, b, c], [a, b, c, d];
    assert four[..3] == three && Deletions(four) == Deletions(three) + DeletionOf(d);
  }

  lemma ConcatThen(chunks: seq<seq<Request>>, more: seq<Request>)
    ensures Concat(chunks + [more]) == Concat(chunks) + more
  {
    assert (chunks + [more])[..|chunks|] == chunks;
  }

  lemma DeletionCompensates(w: World, w': World, step: Step, q: Request, effect: World, ok: bool)
    requires match step
             case Custody => q == RevokeToken && effect == w.(custody := Revoked)
             case Dns(r) => q == DeleteRecord(r) && effect == WithoutRecord(w, r)
             case Tunnel(t) => q == DeleteTunnel(t) && effect == WithoutTunnel(w, t)
             case Connections(t) => q == DeleteConnections(t) && effect == w
             case Restore(_, _) => false
    requires Sent(w, w', q, effect, ok)
    ensures Compensated(w, w', [step])
    ensures w'.log == w.log + [q]
    ensures ok && Protected(w, step) && (step.Custody? || Feasible(w, step)) ==> Done(w, w', step)
  {
    assert step in [step] && RequestOf(step, q);
  }

  lemma RestorationCompensates(w: World, w': World, step: Step)
    requires step.Restore? && RestoreSent(w, w', step.reservation)
    ensures Compensated(w, w', [step])
    ensures Attempt(step, w'.log[|w.log|..])
  {
    assert step in [step];
    assert step.reservation in Restorations([step]);
  }

  method AttemptStep(p: Provider, step: Step) returns (r: Result<(), Error>)
    requires RunnableStep(p.world, step)
    modifies p
    ensures Compensated(old(p.world), p.world, [step])
    ensures Attempt(step, p.world.log[|old(p.world).log|..])
    ensures r.Success? && Protected(old(p.world), step) ==> Done(old(p.world), p.world, step)
    ensures p.Dependable() && Feasible(old(p.world), step) ==> r.Success?
    ensures r.Failure? ==> p.Raises(r.error)
  {
    ghost var w := p.world;
    match step
    case Custody =>
      r := p.Revoke();
      DeletionCompensates(w, p.world, step, RevokeToken, w.(custody := Revoked), r.Success?);
    case Restore(v, newTunnel) =>
      r := RestoreReservation(p, v, newTunnel);
      RestorationCompensates(w, p.world, step);
    case Dns(id) =>
      r := p.DeleteDns(id);
      if ValidIdentifier(id) {
        DeletionCompensates(w, p.world, step, DeleteRecord(id), WithoutRecord(w, id), r.Success?);
      }
    case Connections(id) =>
      r := p.Disconnect(id);
      if ValidIdentifier(id) {
        DeletionCompensates(w, p.world, step, DeleteConnections(id), w, r.Success?);
      }
    case Tunnel(id) =>
      r := p.RemoveTunnel(id);
      if ValidIdentifier(id) {
        DeletionCompensates(w, p.world, step, DeleteTunnel(id), WithoutTunnel(w, id), r.Success?);
      }
  }

  /** No other step touches the record of a restoration: there is at most one, and no record is
      deleted beside it. */
  ghost predicate Orderly(steps: seq<Step>) {
    forall i, j | 0 <= i < |steps| && 0 <= j < |steps| && i != j ::
      steps[i].Restore? ==> !steps[j].Restore? && !steps[j].Dns?
  }

  ghost predicate Settled(w0: World, w: World, steps: seq<Step>, failed: seq<Stage>) {
    forall i | 0 <= i < |steps| ::
      Protected(w0, steps[i]) && StageOf(steps[i]) !in failed ==> Done(w0, w, steps[i])
  }

  lemma CompensatingStep(w: World, w': World, steps: seq<Step>, i: nat) returns (s: Step)
    requires Compensated(w, w', steps) && |w.log| <= i < |w'.log|
    ensures s in steps && RequestOf(s, w'.log[i])
  {
    var q := w'.log[i];
    s :| s in steps && RequestOf(s, q);
  }

  lemma CompensatedThen(w0: World, w: World, w': World, steps: seq<Step>, step: Step)
    requires Compensated(w0, w, steps) && Compensated(w, w', [step])
    ensures Compensated(w0, w', steps + [step])
  {
    var all := steps + [step];
    assert step in all && forall s | s in steps :: s in all;
    assert forall s | s in all :: s in steps || s == step;
    forall i | |w0.log| <= i < |w'.log| ensures RequestedBy(all, w'.log[i]) {
      if i < |w.log| {
        assert w'.log[i] == w.log[i];
        var s :| s in steps && RequestOf(s, w.log[i]);
        assert s in all && RequestOf(s, w'.log[i]);
      } else {
        assert RequestOf(step, w'.log[i]);
      }
    }
    var before := Restorations(steps);
    var after := Restorations(all);
    assert before <= after;
    forall r | MyRecord(w0, r) ensures RecordAfter(w0, w', r, after, Dns(r) in all) {
      assert RecordAfter(w0, w, r, before, Dns(r) in steps);
      assert MyRecord(w, r);
      assert RecordAfter(w, w', r, Restorations([step]), Dns(r) in [step]);
      if !SameRecord(w, w', r) && r in w'.records {
        assert step.Restore?;
        assert step.reservation in after;
      }
    }
  }

  /** Steps that neither restore nor delete any record leave it alone and send no update. */
  lemma NoUpdate(w: World, w': World, steps: seq<Step>, v: Reservation)
    requires Compensated(w, w', steps) && MyRecord(w, v.record)
    requires forall s | s in steps :: !s.Restore? && !s.Dns?
    ensures SameRecord(w, w', v.record) && !RestoringSent(w, w', v)
  {
    assert RecordAfter(w, w', v.record, Restorations(steps), Dns(v.record) in steps);
    forall i | |w.log| <= i < |w'.log| ensures !w'.log[i].UpdateRecord? {
      var s := CompensatingStep(w, w', steps, i);
    }
  }

  lemma DoneStays(w0: World, w: World, w': World, earlier: Step, step: Step)
    requires w0.log <= w.log && Compensated(w, w', [step])
    requires Protected(w0, earlier) && Done(w0, w, earlier)
    requires w.bornTunnels == w0.bornTunnels && w.bornRecords == w0.bornRecords
    requires w.guardedTunnels == w0.guardedTunnels && w.guardedRecords == w0.guardedRecords
    requires earlier.Restore? ==> !step.Restore? && !step.Dns?
    ensures Done(w0, w', earlier)
  {
    match earlier
    case Custody =>
    case Restore(v, _) =>
      NoUpdate(w, w', [step], v);
      assert forall i | |w0.log| <= i < |w.log| :: w'.log[i] == w.log[i];
    case Dns(r) =>
      assert MyRecord(w, r);
      assert RecordAfter(w, w', r, Restorations([step]), Dns(r) in [step]);
    case Connections(_) =>
    case Tunnel(t) => assert Mine(w, t);
  }

  /** What a step has done since it started, it has done since the cleanup started. */
  lemma DoneSinceStart(w0: World, w: World, w': World, steps: seq<Step>, step: Step)
    requires Compensated(w0, w, steps) && Protected(w0, step) && Done(w, w', step)
    requires w.log <= w'.log
    requires step.Restore? ==> forall s | s in steps :: !s.Restore? && !s.Dns?
    ensures Done(w0, w', step)
  {
    match step
    case Custody =>
    case Restore(v, _) =>
      NoUpdate(w0, w, steps, v);
      assert forall i | |w0.log| <= i < |w.log| :: w'.log[i] == w.log[i];
    case Dns(r) =>
      assert RecordAfter(w0, w, r, Restorations(steps), Dns(r) in steps);
    case Connections(t) => assert Mine(w0, t);
    case Tunnel(t) => assert Mine(w0, t);
  }

  function FailedAfter(failed: seq<Stage>, step: Step, ok: bool): seq<Stage> {
    if ok then failed else failed + [StageOf(step)]
  }

  lemma SettledThen(w0: World, w: World, w': World, steps: seq<Step>, i: nat, failed: seq<Stage>, ok: bool)
    requires i < |steps| && Orderly(steps)
    requires Compensated(w0, w, steps[..i]) && Compensated(w, w', [steps[i]])
    requires Settled(w0, w, steps[..i], failed)
    requires ok && Protected(w, steps[i]) ==> Done(w, w', steps[i])
    ensures Settled(w0, w', steps[..i + 1], FailedAfter(failed, steps[i], ok))
  {
    var after, done := FailedAfter(failed, steps[i], ok), steps[..i + 1];
    forall j | 0 <= j < |done| && Protected(w0, done[j]) && StageOf(done[j]) !in after
      ensures Done(w0, w', done[j])
    {
      if j < i {
        assert steps[..i][j] == done[j] == steps[j];
        DoneStays(w0, w, w', steps[j], steps[i]);
      } else {
        assert ok && Protected(w, steps[i]);
        DoneSinceStart(w0, w, w', steps[..i], steps[i]);
      }
    }
  }

  /** The first `i` steps have been attempted, and `failed` names those that failed. */
  ghost predicate SoFar(w0: World, w: World, steps: seq<Step>, i: nat, failed: seq<Stage>, chunks: seq<seq<Request>>)
    requires i <= |steps|
  {
    && Compensated(w0, w, steps[..i])
    && Settled(w0, w, steps[..i], failed)
    && EachAttempted(steps[..i], chunks)
    && w.log == w0.log + Concat(chunks)
  }

  lemma SoFarThen(w0: World, w: World, w': World, steps: seq<Step>, i: nat, failed: seq<Stage>,
                  chunks: seq<seq<Request>>, ok: bool)
    requires i < |steps| && Orderly(steps) && SoFar(w0, w, steps, i, failed, chunks)
    requires Compensated(w, w', [steps[i]]) && Attempt(steps[i], w'.log[|w.log|..])
    requires ok && Protected(w, steps[i]) ==> Done(w, w', steps[i])
    ensures SoFar(w0, w', steps, i + 1, FailedAfter(failed, steps[i], ok), chunks + [w'.log[|w.log|..]])
  {
    CompensatedThen(w0, w, w', steps[..i], steps[i]);
    assert steps[..i] + [steps[i]] == steps[..i + 1];
    SettledThen(w0, w, w', steps, i, failed, ok);
    ConcatThen(chunks, w'.log[|w.log|..]);
  }

  lemma SoFarAll(w0: World, w: World, steps: seq<Step>, failed: seq<Stage>, chunks: seq<seq<Request>>)
    requires SoFar(w0, w, steps, |steps|, failed, chunks)
    ensures Compensated(w0, w, steps) && Settled(w0, w, steps, failed)
    ensures AttemptedInOrder(steps, w.log[|w0.log|..])
  {
    assert steps[..|steps|] == steps;
    assert w.log[|w0.log|..] == Concat(chunks);
  }

  lemma SoFarSome(w0: World, w: World, steps: seq<Step>, i: nat, failed: seq<Stage>, chunks: seq<seq<Request>>)
    requires i <= |steps| && SoFar(w0, w, steps, i, failed, chunks)
    ensures Compensated(w0, w, steps)
  {
    CompensatedWidens(w0, w, steps[..i], steps);
  }

  lemma SoFarRunnable(w0: World, w: World, steps: seq<Step>, i: nat, failed: seq<Stage>, chunks: seq<seq<Request>>)
    requires i < |steps| && SoFar(w0, w, steps, i, failed, chunks) && RunnableStep(w0, steps[i])
    ensures RunnableStep(w, steps[i])
  {
  }

  lemma FeasibleStays(w0: World, w: World, steps: seq<Step>, i: nat)
    requires i < |steps| && AllFeasible(w0, steps) && Compensated(w0, w, steps[..i])
    ensures Feasible(w, steps[i])
  {
    var done := steps[..i];
    assert forall j | 0 <= j < i :: done[j] == steps[j];
    assert Restorations(done) == {};
    match steps[i]
    case Dns(r) => assert RecordAfter(w0, w, r, Restorations(done), Dns(r) in done);
    case Connections(t) => assert Mine(w0, t);
    case Tunnel(t) => assert Mine(w0, t);
    case _ =>
  }

  method AttemptNext(p: Provider, steps: seq<Step>, i: nat, before: seq<Stage>,
                     ghost w0: World, ghost chunks: seq<seq<Request>>)
    returns (failed: seq<Stage>, interrupted: bool, ghost more: seq<Request>)
    requires i < |steps| && Orderly(steps) && RunnableStep(w0, steps[i])
    requires SoFar(w0, p.world, steps, i, before, chunks)
    modifies p
    ensures interrupted ==> p.controlled
    ensures SoFar(w0, p.world, steps, i + 1, failed, chunks + [more])
    ensures p.Dependable() && AllFeasible(w0, steps) ==> failed == before && !interrupted
  {
    ghost var w := p.world;
    SoFarRunnable(w0, w, steps, i, before, chunks);
    if AllFeasible(w0, steps) {
      FeasibleStays(w0, w, steps, i);
    }
    var outcome := AttemptStep(p, steps[i]);
    more := p.world.log[|w.log|..];
    SoFarThen(w0, w, p.world, steps, i, before, chunks, outcome.Success?);
    failed, interrupted := FailedAfter(before, steps[i], outcome.Success?), outcome == Failure(Control);
  }

  method AttemptExactCleanup(p: Provider, steps: seq<Step>) returns (failed: seq<Stage>, interrupted: bool)
    requires forall i | 0 <= i < |steps| :: RunnableStep(p.world, steps[i])
    requires Orderly(steps)
    modifies p
    ensures interrupted ==> p.controlled
    ensures Compensated(old(p.world), p.world, steps)
    ensures !interrupted ==> Settled(old(p.world), p.world, steps, failed)
    ensures !interrupted ==> AttemptedInOrder(steps, p.world.log[|old(p.world).log|..])
    ensures p.Dependable() && AllFeasible(old(p.world), steps) ==> failed == [] && !interrupted
  {
    failed, interrupted := [], false;
    ghost var w0, chunks: seq<seq<Request>> := p.world, [];
    assert steps[..0] == [];
    for i := 0 to |steps|
      invariant !interrupted
      invariant SoFar(w0, p.world, steps, i, failed, chunks)
      invariant p.Dependable() && AllFeasible(w0, steps) ==> failed == []
    {
      ghost var more;
      failed, interrupted, more := AttemptNext(p, steps, i, failed, w0, chunks);
      chunks := chunks + [more];
      if interrupted {
        SoFarSome(w0, p.world, steps, i + 1, failed, chunks);
        return;
      }
    }
    SoFarAll(w0, p.world, steps, failed, chunks);
  }

  lemma CompensatedWidens(w: World, w': World, some: seq<Step>, all: seq<Step>)
    requires Compensated(w, w', some)
    requires forall s | s in some :: s in all
    ensures Compensated(w, w', all)
  {
    var before := Restorations(some);
    var after := Restorations(all);
    assert before <= after;
    forall i | |w.log| <= i < |w'.log| ensures RequestedBy(all, w'.log[i]) {
      var q := w'.log[i];
      var s :| s in some && RequestOf(s, q);
      assert s in all && RequestOf(s, w'.log[i]);
    }
    forall r | MyRecord(w, r) ensures RecordAfter(w, w', r, after, Dns(r) in all) {
      assert RecordAfter(w, w', r, before, Dns(r) in some);
    }
  }
}
