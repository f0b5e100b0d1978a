// The provider half of creating a named ingress: allocate a tunnel, configure it, create the
// DNS record, fetch the token, and compensate on every way out.

module CloudflareCreate {
  import opened Wrappers
  import opened Text
  import opened CloudflareProvider
  import opened CloudflareCleanup
  import opened CloudflareEvidence

  // ---- what one run has done so far ----

  function NewTunnels(w0: World, w: World): set<string> {
    w.bornTunnels - w0.bornTunnels
  }

  function NewRecords(w0: World, w: World): set<string> {
    w.bornRecords - w0.bornRecords
  }

  ghost predicate Since(w0: World, w: World) {
    && w0.log <= w.log
    && w0.bornTunnels <= w.bornTunnels && w0.bornRecords <= w.bornRecords
    && w.guardedTunnels == w0.guardedTunnels && w.guardedRecords == w0.guardedRecords
    && NewTunnels(w0, w) !! w0.guardedTunnels && NewRecords(w0, w) !! w0.guardedRecords
  }

  /** What spares the client's resources twice over spares the earlier ones. */
  lemma StillSpared(w0: World, w: World, w': World, records: set<string>, tunnels: set<string>)
    requires Since(w0, w) && Spared(w0, w, records, tunnels)
    requires Spared(w, w', records + NewRecords(w0, w), tunnels + NewTunnels(w0, w))
    ensures Spared(w0, w', records, tunnels)
  {
    forall r | MyRecord(w0, r) ensures r in records || SameRecord(w0, w', r) {
      assert (r in records || SameRecord(w0, w, r)) && MyRecord(w, r);
    }
    forall t | Mine(w0, t) ensures t in tunnels || (t in w'.tunnels <==> t in w0.tunnels) {
      assert Mine(w, t);
    }
  }

  lemma CompensationSpares(w: World, w': World, steps: seq<Step>, records: set<string>, tunnels: set<string>)
    requires Compensated(w, w', steps)
    requires forall s | s in steps ::
               match s
               case Restore(v, _) => v.record in records
               case Dns(r) => r in records
               case Tunnel(t) => t in tunnels
               case _ => true
    ensures Spared(w, w', records, tunnels)
  {
    forall r | MyRecord(w, r) ensures r in records || SameRecord(w, w', r) {
      assert RecordAfter(w, w', r, Restorations(steps), Dns(r) in steps);
    }
  }

  ghost predicate NothingMutated(w0: World, w: World) {
    forall i | |w0.log| <= i < |w.log| :: !Mutates(w.log[i])
  }

  ghost predicate NothingDeleted(w0: World, w: World) {
    forall i | |w0.log| <= i < |w.log| :: !Deletes(w.log[i])
  }

  /** Nothing the run created is still there. */
  ghost predicate NothingLeft(w0: World, w: World) {
    && (forall t | t in NewTunnels(w0, w) :: t !in w.tunnels)
    && (forall r | r in NewRecords(w0, w) :: r !in w.records)
  }

  ghost predicate OwnRequest(w0: World, w: World, q: Request) {
    match q
    case ConfigureTunnel(t, _) => t in NewTunnels(w0, w)
    case DeleteTunnel(t) => t in NewTunnels(w0, w)
    case CreateRecord(_, t) => t in NewTunnels(w0, w)
    case DeleteRecord(r) => r in NewRecords(w0, w)
    case UpdateRecord(_, _, _) => false
    case DeleteConnections(_) => false
    case _ => true
  }

  /** Every mutation the run sent addresses a resource that the run itself created, and every
      earlier resource of the client is as it was. */
  ghost predicate OnlyOwn(w0: World, w: World) {
    && (forall i | |w0.log| <= i < |w.log| :: OwnRequest(w0, w, w.log[i]))
    && Spared(w0, w, {}, {})
  }

  /** The evidence is true of the world and of the requests sent. */
  ghost predicate Sound(w0: World, w: World, e: Evidence) {
    && (e.cleanup == NotRequired ==> NothingMutated(w0, w) && e.certainty == NoMutation)
    && (e.cleanup == Withheld ==> NothingDeleted(w0, w) && e.certainty == UncertainMutation)
    && (e.cleanup == Complete ==> NothingLeft(w0, w))
    && (e.certainty == NoMutation ==> NewTunnels(w0, w) == {} && NewRecords(w0, w) == {})
    && (e.certainty == TunnelCreated ==>
          e.tunnel.Some? && NewTunnels(w0, w) == {e.tunnel.value} && NewRecords(w0, w) == {})
    && (e.certainty == DnsAndTunnelCreated ==>
          && e.tunnel.Some? && e.record.Some?
          && NewTunnels(w0, w) == {e.tunnel.value} && NewRecords(w0, w) == {e.record.value})
    && (e.tunnel.Some? ==> NewTunnels(w0, w) == {e.tunnel.value})
    && (RecordedProvenance(e) == Owned ==> NewRecords(w0, w) == {e.record.value})
    && (e.stage != TunnelAllocation && e.tunnel.None? ==> NewTunnels(w0, w) == {})
  }

  ghost predicate Realized(w0: World, w: World, hostname: string, tunnel: string, record: string) {
    && NewTunnels(w0, w) == {tunnel} && NewRecords(w0, w) == {record}
    && tunnel in w.tunnels
    && record in w.records && w.records[record] == CnameRecord(hostname, tunnel)
    && NothingDeleted(w0, w)
  }

  predicate CleanupAttempted(e: Evidence) {
    e.cleanup == Complete || e.cleanup == UncertainCleanup
  }

  function DeleteTunnelRequests(tunnel: string): seq<Request> {
    if ValidIdentifier(tunnel) then [DeleteTunnel(tunnel)] else []
  }

  function DeleteRecordRequests(record: string): seq<Request> {
    if ValidIdentifier(record) then [DeleteRecord(record)] else []
  }

  /** The run has ended with these requests. */
  ghost predicate Ends(w: World, sent: seq<Request>) {
    |sent| <= |w.log| && w.log[|w.log| - |sent|..] == sent
  }

  /** Which stages compensate, with which deletions: after a failed token read those of record
      and tunnel, otherwise that of the tunnel, and never while the run may have a record that
      stays. Without an answer to the allocation or to the reconciliation nothing is deleted. */
  ghost predicate CleanupSent(w0: World, w: World, e: Evidence) {
    var both := e.stage == TunnelToken || e.stage == Cleanup;
    && (e.stage == TunnelAllocation || e.stage == DnsReconciliation ==> e.cleanup == Withheld)
    && (e.stage == TunnelConfiguration || both ==> CleanupAttempted(e))
    && (both ==> e.record.Some? && NewRecords(w0, w) == {e.record.value})
    && (CleanupAttempted(e) && !both ==> NewRecords(w0, w) == {})
    && (CleanupAttempted(e) ==>
          && e.tunnel.Some? && NewTunnels(w0, w) == {e.tunnel.value}
          && Ends(w, (if both then DeleteRecordRequests(e.record.value) else [])
                     + DeleteTunnelRequests(e.tunnel.value)))
  }

  /** Nothing is created but directly after a look at the hostname that no record had. */
  ghost predicate CreatesWhenFree(w0: World, w: World, hostname: string) {
    forall i | |w0.log| <= i < |w.log| && (w.log[i].CreateTunnel? || w.log[i].CreateRecord?) ::
      |w0.log| < i && w.log[i - 1] == ReadRecords(hostname, {})
  }

  /** The last look at the hostname found these records; nothing but deletions came after it. */
  ghost predicate LastLook(w0: World, w: World, hostname: string, named: set<string>) {
    exists i | |w0.log| <= i < |w.log| ::
      && w.log[i] == ReadRecords(hostname, named)
      && forall j | i < j < |w.log| :: Deletes(w.log[j])
  }

  /** An occupied hostname is reported with the only record that had it, a conflict after several. */
  ghost predicate LookReported(w0: World, w: World, hostname: string, e: Evidence) {
    && (e.category == HostnameOccupied ==> e.record.Some? && LastLook(w0, w, hostname, {e.record.value}))
    && (e.category == DnsConflict ==> exists named :: |named| >= 2 && LastLook(w0, w, hostname, named))
  }

  function Publishing(hostname: string, t: string): seq<Request> {
    [ReadRecords(hostname, {}), CreateTunnel(Some(t)), ConfigureTunnel(t, hostname), ReadRecords(hostname, {}),
     CreateRecord(hostname, t)]
  }

  /** Exactly these requests were sent: the second look, at the created record, only if the answer
      to its creation did not arrive. The token is the one that was read of the tunnel. */
  ghost predicate CreationTrace(w0: World, w: World, hostname: string, t: string, record: string, token: string) {
    || w.log == w0.log + Publishing(hostname, t) + [ReadToken(t, Some(token))]
    || w.log == w0.log + Publishing(hostname, t) + [ReadRecords(hostname, {record})] + [ReadToken(t, Some(token))]
  }

  ghost predicate CreateSound(w0: World, w: World, hostname: string, r: CreateResult) {
    && Since(w0, w) && OnlyOwn(w0, w) && CreatesWhenFree(w0, w, hostname) && w.custody == w0.custody
    && (r.Created? ==>
          Realized(w0, w, hostname, r.tunnel, r.record)
          && CreationTrace(w0, w, hostname, r.tunnel, r.record, r.token))
    && (r.Stopped? ==>
          && Sound(w0, w, r.evidence) && CleanupSent(w0, w, r.evidence)
          && Vocabulary(r.evidence) && LookReported(w0, w, hostname, r.evidence))
  }

  /** The law of the recorded outcome: a creation recorded as failed has left no tunnel and no
      DNS record of its own behind, whatever the provider did. */
  lemma RecordedFailureLeavesNothing(w0: World, w: World, hostname: string, r: CreateResult)
    requires CreateSound(w0, w, hostname, r)
    requires RecordedOutcome(r) == Failed
    ensures NothingLeft(w0, w)
  {
  }

  // ---- the invariant between two calls ----

  /** The run has created tunnel `t` and the records `rs`, deleted nothing, and no record
      targets `t` but those in `rs`. */
  ghost predicate Building(w0: World, w: World, hostname: string, t: string, rs: set<string>) {
    && Since(w0, w) && OnlyOwn(w0, w) && CreatesWhenFree(w0, w, hostname)
    && NothingDeleted(w0, w) && w.custody == w0.custody
    && NewTunnels(w0, w) == {t} && NewRecords(w0, w) == rs
    && t in w.tunnels
    && (forall r | r in w.records :: w.records[r].content == TunnelTarget(t) ==> r in rs)
    && (forall r | r in rs :: r in w.records && w.records[r] == CnameRecord(hostname, t))
  }

  ghost predicate AtMostOne(rs: set<string>) {
    forall a, b | a in rs && b in rs :: a == b
  }

  /** After the first look, with nothing sent but that. */
  ghost predicate JustLooked(w0: World, w: World, hostname: string, named: set<string>) {
    && Since(w0, w) && NothingMutated(w0, w) && OnlyOwn(w0, w)
    && w.bornTunnels == w0.bornTunnels && w.bornRecords == w0.bornRecords && w.custody == w0.custody
    && w.log == w0.log + [ReadRecords(hostname, named)]
  }

  lemma FirstLook(w0: World, w: World, hostname: string)
    requires OthersActed(Looked(w0, hostname), w)
    ensures JustLooked(w0, w, hostname, Named(w0, hostname)) && CreatesWhenFree(w0, w, hostname)
    ensures LastLook(w0, w, hostname, Named(w0, hostname))
  {
    assert Spared(w0, w, {} + NewRecords(w0, w0), {} + NewTunnels(w0, w0));
    StillSpared(w0, w0, w, {}, {});
    assert w.log[|w0.log|] == ReadRecords(hostname, Named(w0, hostname));
  }

  lemma StartBuilding(w0: World, w: World, w': World, hostname: string, t: string)
    requires JustLooked(w0, w, hostname, {})
    requires FreshTunnel(w, t) && OthersActed(Logged(WithTunnel(w, t), CreateTunnel(Some(t))), w')
    ensures Building(w0, w', hostname, t, {})
  {
    assert Spared(w, w', {} + NewRecords(w0, w), {} + NewTunnels(w0, w));
    StillSpared(w0, w, w', {}, {});
    forall r | r in w'.records ensures w'.records[r].content != TunnelTarget(t) {
      assert w'.records[r].content == TunnelTarget(t) ==> TargetsBorn(w', r);
    }
  }

  lemma KeepBuilding(w0: World, w: World, w': World, hostname: string, t: string, rs: set<string>, q: Request)
    requires Building(w0, w, hostname, t, rs)
    requires !Deletes(q) && (Mutates(q) ==> q == ConfigureTunnel(t, hostname) || q == CreateRecord(hostname, t))
    requires q.CreateRecord? ==> w0.log < w.log && w.log[|w.log| - 1] == ReadRecords(hostname, {})
    requires OthersActed(Logged(w, q), w')
    ensures Building(w0, w', hostname, t, rs)
  {
    assert Spared(w, w', {} + NewRecords(w0, w), {} + NewTunnels(w0, w));
    StillSpared(w0, w, w', {}, {});
    assert t in w'.bornTunnels;
    forall r | r in w'.records && w'.records[r].content == TunnelTarget(t) ensures r in rs {
      assert TargetsBorn(w', r);
    }
    forall r | r in rs ensures r in w'.records && w'.records[r] == CnameRecord(hostname, t) {
      assert r in w.bornRecords;
    }
  }

  lemma AddRecord(w0: World, w: World, w': World, hostname: string, t: string, id: string)
    requires Building(w0, w, hostname, t, {})
    requires FreshRecord(w, id)
    requires w0.log < w.log && w.log[|w.log| - 1] == ReadRecords(hostname, {})
    requires OthersActed(Logged(WithRecord(w, id, hostname, t), CreateRecord(hostname, t)), w')
    ensures Building(w0, w', hostname, t, {id})
  {
    assert Spared(w, w', {} + NewRecords(w0, w), {} + NewTunnels(w0, w));
    StillSpared(w0, w, w', {}, {});
    assert id in w'.bornRecords && t in w'.bornTunnels;
    assert NewRecords(w0, w') == {id};
    forall r | r in w'.records && w'.records[r].content == TunnelTarget(t) ensures r in {id} {
      assert TargetsBorn(w', r);
    }
  }

  /** Whatever a record creation answered, at most one record of the run targets its tunnel. */
  lemma AfterRecordRequest(w0: World, w: World, w': World, hostname: string, t: string, r: Result<string, Error>)
    requires Building(w0, w, hostname, t, {})
    requires w0.log < w.log && w.log[|w.log| - 1] == ReadRecords(hostname, {})
    requires CreateRecordSent(w, w', hostname, t, r)
    ensures Building(w0, w', hostname, t, NewRecords(w0, w')) && AtMostOne(NewRecords(w0, w'))
    ensures r.Success? ==> NewRecords(w0, w') == {r.value}
  {
    if r.Success? {
      AddRecord(w0, w, w', hostname, t, r.value);
    } else if OthersActed(Logged(w, CreateRecord(hostname, t)), w') {
      KeepBuilding(w0, w, w', hostname, t, {}, CreateRecord(hostname, t));
    } else {
      var id :| FreshRecord(w, id)
             && OthersActed(Logged(WithRecord(w, id, hostname, t), CreateRecord(hostname, t)), w');
      AddRecord(w0, w, w', hostname, t, id);
    }
  }

  /** Compensating with deletions of the run's own resources keeps every request its own, and
      leaves nothing when no stage failed and every created resource was addressed. */
  lemma AfterCompensation(w0: World, w: World, w': World, hostname: string, t: string, rs: set<string>,
                          steps: seq<Step>, failed: seq<Stage>)
    requires Building(w0, w, hostname, t, rs)
    requires Compensated(w, w', steps)
    requires forall s | s in steps :: s == Tunnel(t) || (s.Dns? && s.record in rs)
    ensures Since(w0, w') && OnlyOwn(w0, w') && CreatesWhenFree(w0, w', hostname) && w'.custody == w0.custody
    ensures NewTunnels(w0, w') == {t} && NewRecords(w0, w') == rs
    ensures forall i | |w.log| <= i < |w'.log| :: Deletes(w'.log[i])
    ensures (&& failed == [] && Settled(w, w', steps, failed)
             && Tunnel(t) in steps && (forall r | r in rs :: Dns(r) in steps)) ==> NothingLeft(w0, w')
  {
    forall i | |w0.log| <= i < |w'.log|
      ensures OwnRequest(w0, w', w'.log[i]) && (|w.log| <= i ==> Deletes(w'.log[i]))
    {
      if i < |w.log| {
        assert w'.log[i] == w.log[i];
      } else {
        var s := CompensatingStep(w, w', steps, i);
      }
    }
    assert forall i | 0 <= i < |w.log| :: w'.log[i] == w.log[i];
    CompensationSpares(w, w', steps, rs, {t});
    StillSpared(w0, w, w', {}, {});
    if && failed == [] && Settled(w, w', steps, failed)
       && Tunnel(t) in steps && (forall r | r in rs :: Dns(r) in steps) {
      forall r | r in rs ensures r !in w'.records {
        var i :| 0 <= i < |steps| && steps[i] == Dns(r);
        assert Protected(w, steps[i]);
      }
      var i :| 0 <= i < |steps| && steps[i] == Tunnel(t);
      assert Protected(w, steps[i]);
    }
  }

  lemma OneAttempt(step: Step, sent: seq<Request>)
    requires AttemptedInOrder([step], sent)
    ensures Attempt(step, sent)
  {
    var chunks :| EachAttempted([step], chunks) && Concat(chunks) == sent;
    assert Attempt([step][0], chunks[0]) && chunks[..0] == [];
    assert Concat(chunks) == Concat(chunks[..0]) + chunks[0];
    assert sent == chunks[0];
  }

  lemma TwoAttempts(record: string, t: string, sent: seq<Request>)
    requires AttemptedInOrder([Dns(record), Tunnel(t)], sent)
    ensures sent == DeleteRecordRequests(record) + DeleteTunnelRequests(t)
  {
    var steps := [Dns(record), Tunnel(t)];
    var chunks :| EachAttempted(steps, chunks) && Concat(chunks) == sent;
    assert Attempt(steps[0], chunks[0]) && Attempt(steps[1], chunks[1]);
    var first := chunks[..1];
    assert first[..0] == [] && Concat(first) == Concat(first[..0]) + chunks[0];
    assert Concat(chunks) == Concat(first) + chunks[1];
  }

  // ---- the saga ----

  method ObserveExactHostname(p: Provider, hostname: string, tunnel: Option<string>)
    returns (r: Result<HostnameObservation, Error>)
    modifies p
    ensures OthersActed(Looked(old(p.world), hostname), p.world)
    ensures r.Success? ==> TrulyListed(old(p.world), hostname, tunnel, r.value)
    ensures r.Failure? ==> p.Raises(r.error)
    ensures p.script.Some? ==>
              && p.world == Looked(old(p.world), hostname) && r.Success?
              && LookDecides(old(p.world), hostname, r.value)
  {
    ghost var w := p.world;
    var records :- p.ListRecords(hostname);
    ListingMeaning(w, records, hostname, tunnel);
    if p.script.Some? {
      ListingDecides(w, records, hostname, tunnel);
    }
    r := Success(ClassifyListing(records, hostname, tunnel));
  }

  /** Which records the run may have when a reconciliation has answered. */
  lemma ReconciledRecords(w0: World, w: World, hostname: string, t: string, seen: HostnameObservation)
    requires Building(w0, w, hostname, t, NewRecords(w0, w)) && AtMostOne(NewRecords(w0, w))
    requires TrulyReconciled(w, hostname, t, seen)
    ensures seen.state == TargetsTunnel ==> NewRecords(w0, w) == {seen.record.value} == Named(w, hostname)
    ensures seen.state == Free || seen.state == Occupied ==> NewRecords(w0, w) == {}
  {
    var rs := NewRecords(w0, w);
    assert forall id | id in rs :: id in Named(w, hostname);
    if seen.state == TargetsTunnel {
      assert seen.record.value in rs;
    }
  }

  method ObserveReconciled(p: Provider, hostname: string, tunnel: string)
    returns (r: Result<HostnameObservation, Error>)
    modifies p
    ensures OthersActed(Looked(old(p.world), hostname), p.world)
    ensures r.Success? ==> TrulyReconciled(old(p.world), hostname, tunnel, r.value)
    ensures r.Failure? ==> p.Raises(r.error)
    ensures p.script.Some? ==> p.world == Looked(old(p.world), hostname)
    ensures forall id | p.script.Some? && CreatedAlone(old(p.world), hostname, tunnel, id) ::
              r == Success(HostnameObservation(TargetsTunnel, Some(id)))
  {
    ghost var w := p.world;
    var page :- p.ReadReconciliationPage(hostname);
    r := ClassifyPage(page, hostname, tunnel);
    if r.Success? {
      ReconciliationMeaning(w, page, hostname, tunnel);
    }
    if p.script.Some? {
      forall id | CreatedAlone(w, hostname, tunnel, id)
        ensures ClassifyPage(page, hostname, tunnel) == Success(HostnameObservation(TargetsTunnel, Some(id)))
      {
        OwnRecordIsRead(w, page, hostname, tunnel, id);
      }
    }
  }

  /** The run's own record is the only one of its name. */
  ghost predicate CreatedAlone(w: World, hostname: string, t: string, id: string) {
    && OnlyRecord(w, hostname, id) && w.records[id] == CnameRecord(hostname, t)
    && ValidIdentifier(id) && ValidIdentifier(t) && !Blank(hostname)
  }

  lemma OwnRecordIsRead(w: World, page: RawPage, hostname: string, t: string, id: string)
    requires CreatedAlone(w, hostname, t, id) && WholePage(page) && FullListing(w, hostname, page.records.value)
    ensures ClassifyPage(page, hostname, t) == Success(HostnameObservation(TargetsTunnel, Some(id)))
  {
    assert page.records.value == [InFull(id, w.records[id])];
    IdentifierIsText(t);
    PageIsReadExactly(page, hostname, t);
  }

  /** The deletion of the known tunnel has been attempted. */
  ghost predicate TunnelDeletion(w0: World, w: World, w': World, hostname: string, t: string, cleanup: CleanupResult,
                                 interrupted: bool) {
    && (cleanup == Complete || cleanup == UncertainCleanup)
    && Since(w0, w') && OnlyOwn(w0, w') && CreatesWhenFree(w0, w', hostname) && w'.custody == w0.custody
    && NewTunnels(w0, w') == {t} && NewRecords(w0, w') == NewRecords(w0, w)
    && w.log <= w'.log && (forall i | |w.log| <= i < |w'.log| :: Deletes(w'.log[i]))
    && (!interrupted && cleanup == Complete && NewRecords(w0, w) == {} ==> NothingLeft(w0, w'))
    && (!interrupted ==> Ends(w', DeleteTunnelRequests(t)))
  }

  lemma TunnelAttempted(w0: World, w: World, w': World, hostname: string, t: string, failed: seq<Stage>,
                        interrupted: bool)
    requires Building(w0, w, hostname, t, NewRecords(w0, w)) && Compensated(w, w', [Tunnel(t)])
    requires !interrupted ==>
               Settled(w, w', [Tunnel(t)], failed) && AttemptedInOrder([Tunnel(t)], w'.log[|w.log|..])
    ensures TunnelDeletion(w0, w, w', hostname, t, if failed == [] then Complete else UncertainCleanup, interrupted)
  {
    var steps := [Tunnel(t)];
    AfterCompensation(w0, w, w', hostname, t, NewRecords(w0, w), steps, failed);
    assert steps[0] == Tunnel(t);
    if !interrupted {
      OneAttempt(Tunnel(t), w'.log[|w.log|..]);
    }
  }

  /** Stopping after that deletion, when the run has no record, is sound. */
  lemma StopIsSound(w0: World, w: World, w': World, hostname: string, t: string, e: Evidence)
    requires TunnelDeletion(w0, w, w', hostname, t, e.cleanup, false) && NewRecords(w0, w) == {}
    requires e.tunnel == Some(t) && (e.certainty == TunnelCreated || e.certainty == UncertainMutation)
    requires e.stage == TunnelConfiguration || e.stage == DnsPreMutationObservation || e.stage == DnsCreate
    requires Vocabulary(e) && LookReported(w0, w', hostname, e)
    ensures CreateSound(w0, w', hostname, Stop(e))
  {
    assert [] + DeleteTunnelRequests(t) == DeleteTunnelRequests(t);
  }

  /** Deletes the one tunnel the run knows it created. */
  method DeleteKnownTunnel(p: Provider, t: string, ghost w0: World, ghost hostname: string)
    returns (cleanup: CleanupResult, interrupted: bool)
    requires Building(w0, p.world, hostname, t, NewRecords(w0, p.world))
    modifies p
    ensures interrupted ==> p.controlled
    ensures TunnelDeletion(w0, old(p.world), p.world, hostname, t, cleanup, interrupted)
  {
    ghost var w := p.world;
    var failed;
    failed, interrupted := AttemptExactCleanup(p, [Tunnel(t)]);
    TunnelAttempted(w0, w, p.world, hostname, t, failed, interrupted);
    cleanup := if failed == [] then Complete else UncertainCleanup;
  }

  /** The deletions of the created record and tunnel have been attempted. */
  ghost predicate BothDeletions(w0: World, w: World, hostname: string, t: string, record: string, failed: seq<Stage>,
                                interrupted: bool) {
    && Since(w0, w) && OnlyOwn(w0, w) && CreatesWhenFree(w0, w, hostname) && w.custody == w0.custody
    && NewTunnels(w0, w) == {t} && NewRecords(w0, w) == {record}
    && (!interrupted && failed == [] ==> NothingLeft(w0, w))
    && (!interrupted ==> Ends(w, DeleteRecordRequests(record) + DeleteTunnelRequests(t)))
  }

  lemma BothAttempted(w0: World, w: World, w': World, hostname: string, t: string, record: string,
                      failed: seq<Stage>, interrupted: bool)
    requires Building(w0, w, hostname, t, {record}) && Compensated(w, w', [Dns(record), Tunnel(t)])
    requires !interrupted ==>
               && Settled(w, w', [Dns(record), Tunnel(t)], failed)
               && AttemptedInOrder([Dns(record), Tunnel(t)], w'.log[|w.log|..])
    ensures BothDeletions(w0, w', hostname, t, record, failed, interrupted)
  {
    var steps := [Dns(record), Tunnel(t)];
    assert steps[0] == Dns(record) && steps[1] == Tunnel(t);
    AfterCompensation(w0, w, w', hostname, t, {record}, steps, failed);
    if !interrupted {
      TwoAttempts(record, t, w'.log[|w.log|..]);
    }
  }

  method CleanupCreated(p: Provider, t: string, record: string, ghost w0: World, ghost hostname: string)
    returns (failed: seq<Stage>, interrupted: bool)
    requires Building(w0, p.world, hostname, t, {record})
    modifies p
    ensures interrupted ==> p.controlled
    ensures BothDeletions(w0, p.world, hostname, t, record, failed, interrupted)
  {
    ghost var w := p.world;
    failed, interrupted := AttemptExactCleanup(p, [Dns(record), Tunnel(t)]);
    BothAttempted(w0, w, p.world, hostname, t, record, failed, interrupted);
  }

  // ---- what a scripted provider makes of it ----

  /** The look decides where the world does. */
  ghost predicate LookDecides(w: World, hostname: string, seen: HostnameObservation) {
    && (NoRecordNamed(w, hostname) ==> seen == HostnameObservation(Free, None))
    && (|Named(w, hostname)| >= 2 ==> seen == HostnameObservation(Duplicate, None))
    && (forall id | OnlyRecord(w, hostname, id) && Legible(id, w.records[id]) ::
          seen.record == Some(id) && (seen.state == Occupied || seen.state == TargetsTunnel))
  }

  /** The provider hands out usable new ids. */
  ghost predicate HandsOut(p: Provider, w: World) {
    && p.script.Some? && ValidIdentifier(p.script.value.tunnel) && ValidIdentifier(p.script.value.record)
    && FreshTunnel(w, p.script.value.tunnel) && FreshRecord(w, p.script.value.record)
  }

  function AsScripted(s: Script): CreateResult {
    Created(s.tunnel, s.record, s.token)
  }

  /** What it takes to get from the allocated tunnel to the end. */
  ghost predicate GoesThrough(p: Provider, w: World, hostname: string, t: string) {
    && p.script.Some? && t == p.script.value.tunnel && ValidIdentifier(t)
    && ValidIdentifier(p.script.value.record) && FreshRecord(w, p.script.value.record)
    && NoRecordNamed(w, hostname) && !Blank(hostname)
  }

  /** Allocates, configures and publishes a tunnel for a hostname, or says how far it got. A
      provider that carries everything out is asked for exactly what it hands out if the hostname
      is free, also if the answer to the record's creation is lost; a hostname that is taken is
      refused, with the one record that has it, before anything is changed. */
  method CreateProvider(p: Provider, hostname: string, allocationName: string) returns (r: CreateResult)
    modifies p
    ensures CreateSound(old(p.world), p.world, hostname, r)
    ensures r == Raised(Control) ==> p.controlled
    ensures HandsOut(p, old(p.world)) && NoRecordNamed(old(p.world), hostname) && !Blank(hostname)
            && ValidIdentifier(allocationName) ==>
              r == AsScripted(p.script.value)
    ensures forall id | p.script.Some? && OnlyRecord(old(p.world), hostname, id)
                        && Legible(id, old(p.world).records[id]) ::
              r == Stopped(Evidence(DnsPreObservation, HostnameOccupied, NoMutation, None, Some(id), NotRequired))
              && p.world == Looked(old(p.world), hostname)
    ensures p.script.Some? && |Named(old(p.world), hostname)| >= 2 ==>
              r == Stopped(Evidence(DnsPreObservation, DnsConflict, NoMutation, None, None, NotRequired))
              && p.world == Looked(old(p.world), hostname)
  {
    ghost var w0 := p.world;
    var pre := ObserveExactHostname(p, hostname, None);
    FirstLook(w0, p.world, hostname);
    if pre.Failure? {
      return if ProviderFailure(pre.error)
             then Stop(Evidence(DnsPreObservation, FailureCategory(pre.error), NoMutation, None, None, NotRequired))
             else Raised(pre.error);
    }
    if pre.value.state != Free {
      return Stop(Evidence(DnsPreObservation, ObservationCategory(pre.value), NoMutation, None,
                           pre.value.record, NotRequired));
    }
    r := AllocateAndPublish(p, hostname, allocationName, w0);
  }

  lemma AllocationLost(w0: World, w: World, w': World, hostname: string, name: string, r: Result<string, Error>)
    requires JustLooked(w0, w, hostname, {}) && r.Failure?
    requires if ValidIdentifier(name) then CreateTunnelSent(w, w', r) else w' == w
    ensures Since(w0, w') && OnlyOwn(w0, w') && NothingDeleted(w0, w') && w'.custody == w.custody
    ensures CreatesWhenFree(w0, w', hostname)
  {
    assert Spared(w, w', {} + NewRecords(w0, w), {} + NewTunnels(w0, w));
    StillSpared(w0, w, w', {}, {});
  }

  method AllocateAndPublish(p: Provider, hostname: string, allocationName: string, ghost w0: World)
    returns (r: CreateResult)
    requires JustLooked(w0, p.world, hostname, {})
    modifies p
    ensures CreateSound(w0, p.world, hostname, r)
    ensures r == Raised(Control) ==> p.controlled
    ensures HandsOut(p, old(p.world)) && NoRecordNamed(old(p.world), hostname) && !Blank(hostname)
            && ValidIdentifier(allocationName) ==>
              r == AsScripted(p.script.value)
  {
    ghost var w1 := p.world;
    var allocation := p.AllocateTunnel(allocationName);
    if allocation.Failure? {
      AllocationLost(w0, w1, p.world, hostname, allocationName, allocation);
      return if ProviderFailure(allocation.error)
             then Stop(Evidence(TunnelAllocation, FailureCategory(allocation.error), UncertainMutation, None, None,
                                Withheld))
             else Raised(allocation.error);
    }
    var t := allocation.value;
    StartBuilding(w0, w1, p.world, hostname, t);
    if p.controlled && !ValidIdentifier(t) {
      return Raised(Api);
    }

    r := ConfigureAndPublish(p, hostname, t, w0);
  }

  method ConfigureAndPublish(p: Provider, hostname: string, t: string, ghost w0: World) returns (r: CreateResult)
    requires Building(w0, p.world, hostname, t, {})
    requires p.world.log == w0.log + Publishing(hostname, t)[..2]
    modifies p
    ensures CreateSound(w0, p.world, hostname, r)
    ensures r == Raised(Control) ==> p.controlled
    ensures GoesThrough(p, old(p.world), hostname, t) ==> r == AsScripted(p.script.value)
  {
    ghost var w2 := p.world;
    var configured := p.Configure(t, hostname);
    if ValidIdentifier(t) {
      KeepBuilding(w0, w2, p.world, hostname, t, {}, ConfigureTunnel(t, hostname));
    }
    if configured.Failure? {
      if configured.error == Control {
        return Raised(Control);
      }
      ghost var w3 := p.world;
      var cleanup, interrupted := DeleteKnownTunnel(p, t, w0, hostname);
      var evidence := Evidence(
        TunnelConfiguration, FailureCategory(configured.error),
        if configured.error == Transport then UncertainMutation else TunnelCreated,
        Some(t), None, cleanup);
      if !interrupted {
        StopIsSound(w0, w3, p.world, hostname, t, evidence);
      }
      r := StopAfterTunnel(configured.error, cleanup, interrupted, evidence);
      return;
    }

    r := PublishIfFree(p, hostname, t, w0);
  }

  /** After the second look, and the deletion of the tunnel if that look stopped the run. */
  lemma SecondLook(w0: World, w: World, w1: World, w2: World, hostname: string)
    requires w0.log <= w.log && OthersActed(Looked(w, hostname), w1) && w1.log <= w2.log
    requires forall i | |w1.log| <= i < |w2.log| :: Deletes(w2.log[i])
    ensures LastLook(w0, w2, hostname, Named(w, hostname))
  {
    assert w2.log[|w.log|] == ReadRecords(hostname, Named(w, hostname));
  }

  /** The second look failed: the tunnel is deleted. */
  method StopUnseen(p: Provider, hostname: string, t: string, error: Error, ghost w0: World) returns (r: CreateResult)
    requires Building(w0, p.world, hostname, t, {}) && p.Raises(error)
    modifies p
    ensures CreateSound(w0, p.world, hostname, r)
    ensures r == Raised(Control) ==> p.controlled
  {
    if error == Control {
      return Raised(Control);
    }
    ghost var w := p.world;
    var cleanup, interrupted := DeleteKnownTunnel(p, t, w0, hostname);
    var evidence := Evidence(
      DnsPreMutationObservation, FailureCategory(error), TunnelCreated, Some(t), None, cleanup);
    if !interrupted {
      StopIsSound(w0, w, p.world, hostname, t, evidence);
    }
    r := StopAfterTunnel(error, cleanup, interrupted, evidence);
  }

  /** No record targets a tunnel of which no record was created, so a look that is neither free
      nor held by one record was garbled or found several. */
  lemma TakenIsReported(w0: World, w: World, w1: World, w2: World, hostname: string, t: string,
                        seen: HostnameObservation, e: Evidence)
    requires Building(w0, w, hostname, t, {}) && OthersActed(Looked(w, hostname), w1) && w1.log <= w2.log
    requires forall i | |w1.log| <= i < |w2.log| :: Deletes(w2.log[i])
    requires TrulyListed(w, hostname, Some(t), seen) && seen.state != Free
    requires e.category == ObservationCategory(seen) && e.record == seen.record
    ensures LookReported(w0, w2, hostname, e)
  {
    SecondLook(w0, w, w1, w2, hostname);
  }

  lemma WithheldIsSound(w0: World, w: World, hostname: string, t: string, e: Evidence)
    requires Building(w0, w, hostname, t, {}) && LookReported(w0, w, hostname, e)
    requires e.stage == DnsPreMutationObservation && e.certainty == UncertainMutation && e.cleanup == Withheld
    requires e.tunnel == Some(t) && (e.category == DnsConflict || e.category == MalformedResponse)
    ensures CreateSound(w0, w, hostname, Stop(e))
  {
  }

  /** The second look did not find the hostname free: the tunnel is deleted only if the hostname
      is held by one record. */
  method StopTaken(p: Provider, hostname: string, t: string, seen: HostnameObservation, ghost w0: World, ghost w: World)
    returns (r: CreateResult)
    requires Building(w0, w, hostname, t, {}) && Building(w0, p.world, hostname, t, {}) && seen.state != Free
    requires OthersActed(Looked(w, hostname), p.world) && TrulyListed(w, hostname, Some(t), seen)
    modifies p
    ensures CreateSound(w0, p.world, hostname, r) && !r.Created?
    ensures r.Stopped? ==>
              && (CleanupAttempted(r.evidence) <==> seen.state == Occupied) && r.evidence.record == seen.record
              && (r.evidence.category == HostnameOccupied <==> seen.state == Occupied)
              && (r.evidence.category == MalformedResponse <==> seen.state == Garbled)
    ensures r == Raised(Control) ==> p.controlled
  {
    ghost var w1 := p.world;
    var evidence := Evidence(DnsPreMutationObservation, ObservationCategory(seen), UncertainMutation,
                             Some(t), seen.record, Withheld);
    if seen.state != Occupied {
      TakenIsReported(w0, w, w1, w1, hostname, t, seen, evidence);
      WithheldIsSound(w0, w1, hostname, t, evidence);
      return Stop(evidence);
    }
    var cleanup, interrupted := DeleteKnownTunnel(p, t, w0, hostname);
    evidence := evidence.(certainty := TunnelCreated, cleanup := cleanup);
    if interrupted {
      return Raised(Control);
    }
    TakenIsReported(w0, w, w1, p.world, hostname, t, seen, evidence);
    StopIsSound(w0, w1, p.world, hostname, t, evidence);
    r := Stop(evidence);
  }

  method PublishIfFree(p: Provider, hostname: string, t: string, ghost w0: World) returns (r: CreateResult)
    requires Building(w0, p.world, hostname, t, {}) && ValidIdentifier(t)
    requires p.world.log == w0.log + Publishing(hostname, t)[..3]
    modifies p
    ensures CreateSound(w0, p.world, hostname, r)
    ensures r == Raised(Control) ==> p.controlled
    ensures GoesThrough(p, old(p.world), hostname, t) ==> r == AsScripted(p.script.value)
  {
    ghost var w3 := p.world;
    var seen := ObserveExactHostname(p, hostname, Some(t));
    KeepBuilding(w0, w3, p.world, hostname, t, {}, ReadRecords(hostname, Named(w3, hostname)));
    if seen.Failure? {
      r := StopUnseen(p, hostname, t, seen.error, w0);
      return;
    }
    if seen.value.state != Free {
      r := StopTaken(p, hostname, t, seen.value, w0, w3);
      return;
    }
    r := PublishAndFetch(p, hostname, t, w0);
  }

  /** The error of a stopped call once its cleanup has run: a control error passes through, an
      unclassified one is raised again unless the cleanup is uncertain. */
  function StopAfterTunnel(e: Error, cleanup: CleanupResult, interrupted: bool, evidence: Evidence): CreateResult {
    if interrupted then Raised(Control)
    else if !ProviderFailure(e) then Raised(if cleanup == UncertainCleanup then Api else e)
    else Stop(evidence)
  }

  method PublishAndFetch(p: Provider, hostname: string, t: string, ghost w0: World) returns (r: CreateResult)
    requires Building(w0, p.world, hostname, t, {}) && ValidIdentifier(t)
    requires p.world.log == w0.log + Publishing(hostname, t)[..4]
    modifies p
    ensures CreateSound(w0, p.world, hostname, r)
    ensures r == Raised(Control) ==> p.controlled
    ensures GoesThrough(p, old(p.world), hostname, t) ==> r == AsScripted(p.script.value)
  {
    ghost var w1 := p.world;
    var created := p.CreateDnsUnchecked(hostname, t);
    AfterRecordRequest(w0, w1, p.world, hostname, t, created);
    assert p.world.log == w0.log + Publishing(hostname, t);
    if created == Failure(Control) {
      return Raised(Control);
    }
    if GoesThrough(p, w1, hostname, t) {
      assert Named(p.world, hostname) == Named(w1, hostname) + {p.script.value.record};
    }
    if created.Failure? {
      r := Reconcile(p, hostname, t, created.error, w0);
      return;
    }
    r := FetchToken(p, hostname, t, created.value, w0);
  }

  /** After a record creation whose answer was an error: the record found is taken over only if
      the error was one of transport; the tunnel is deleted only if no record can exist. */
  method Reconcile(p: Provider, hostname: string, t: string, failure: Error, ghost w0: World) returns (r: CreateResult)
    requires Building(w0, p.world, hostname, t, NewRecords(w0, p.world)) && AtMostOne(NewRecords(w0, p.world))
    requires ValidIdentifier(t) && failure != Control
    requires p.world.log == w0.log + Publishing(hostname, t)
    modifies p
    ensures CreateSound(w0, p.world, hostname, r)
    ensures failure != Transport ==> !r.Created?
    ensures r == Raised(Control) ==> p.controlled
    ensures forall id | p.script.Some? && failure == Transport && CreatedAlone(old(p.world), hostname, t, id) ::
              r == Created(t, id, p.script.value.token)
  {
    ghost var rs, w2 := NewRecords(w0, p.world), p.world;
    var again := ObserveReconciled(p, hostname, t);
    KeepBuilding(w0, w2, p.world, hostname, t, rs, ReadRecords(hostname, Named(w2, hostname)));
    if again.Failure? {
      return if ProviderFailure(again.error)
             then Stop(Evidence(DnsReconciliation, FailureCategory(again.error), UncertainMutation, Some(t), None,
                                Withheld))
             else Raised(again.error);
    }
    var seen := again.value;
    ReconciledRecords(w0, w2, hostname, t, seen);
    if failure == Transport && seen.state == TargetsTunnel && seen.record.Some? {
      r := FetchToken(p, hostname, t, seen.record.value, w0);
      return;
    }
    r := StopReconciled(p, hostname, t, failure, seen, w0);
  }

  method StopReconciled(p: Provider, hostname: string, t: string, failure: Error, seen: HostnameObservation,
                        ghost w0: World)
    returns (r: CreateResult)
    requires Building(w0, p.world, hostname, t, NewRecords(w0, p.world)) && failure != Control
    requires seen.state == Free || seen.state == Occupied ==> NewRecords(w0, p.world) == {}
    modifies p
    ensures CreateSound(w0, p.world, hostname, r) && !r.Created?
    ensures r.Stopped? ==>
              && (CleanupAttempted(r.evidence) <==> seen.state == Free || seen.state == Occupied)
              && r.evidence.stage == DnsCreate && r.evidence.record == seen.record
    ensures r == Raised(Control) ==> p.controlled
  {
    ghost var w := p.world;
    var cleanup, interrupted := Withheld, false;
    if seen.state == Free || seen.state == Occupied {
      cleanup, interrupted := DeleteKnownTunnel(p, t, w0, hostname);
    }
    var evidence := Evidence(
      DnsCreate, FailureCategory(failure), UncertainMutation, Some(t), seen.record, cleanup);
    if cleanup != Withheld && !interrupted {
      StopIsSound(w0, w, p.world, hostname, t, evidence);
    }
    r := StopAfterTunnel(failure, cleanup, interrupted, evidence);
  }

  method FetchToken(p: Provider, hostname: string, t: string, record: string, ghost w0: World) returns (r: CreateResult)
    requires Building(w0, p.world, hostname, t, {record}) && ValidIdentifier(t)
    requires || p.world.log == w0.log + Publishing(hostname, t)
             || p.world.log == w0.log + Publishing(hostname, t) + [ReadRecords(hostname, {record})]
    modifies p
    ensures CreateSound(w0, p.world, hostname, r)
    ensures r == Raised(Control) ==> p.controlled
    ensures p.script.Some? && ValidIdentifier(record) ==> r == Created(t, record, p.script.value.token)
  {
    if p.controlled && !ValidIdentifier(record) {
      return Raised(Api);
    }
    ghost var w1 := p.world;
    var token := p.GetToken(t);
    KeepBuilding(w0, w1, p.world, hostname, t, {record}, ReadToken(t, AnswerOf(token)));
    if token.Success? {
      return Created(t, record, token.value);
    }
    if token.error == Control {
      return Raised(Control);
    }
    var failed, interrupted := CleanupCreated(p, t, record, w0, hostname);
    if interrupted {
      return Raised(Control);
    }
    var cleanup := if failed == [] then Complete else UncertainCleanup;
    if !ProviderFailure(token.error) {
      return Raised(if failed == [] then token.error else Api);
    }
    r := if failed == []
         then Stop(Evidence(TunnelToken, FailureCategory(token.error), DnsAndTunnelCreated, Some(t), Some(record),
                            cleanup))
         else Stop(Evidence(Cleanup, CleanupFailure, UncertainMutation, Some(t), Some(record), cleanup));
  }
}
