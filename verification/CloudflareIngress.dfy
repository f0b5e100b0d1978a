// The named-ingress operations of the Cloudflare interpreter, each proved against a relation
// between the world before and after it. The relations are what the lifecycle is built from.

module CloudflareIngress {
  import opened Wrappers
  import opened Text
  import opened Hostnames
  import opened CloudflareProvider
  import opened CloudflareReservation
  import opened CloudflareCleanup
  import opened CloudflareEvidence
  import opened CloudflareCreate

  // ---- create ----

  datatype IngressResult =
    | Allocated(tunnel: string, record: string)
    | ProviderStopped(result: CreateResult)
    | CustodyStopped(evidence: Evidence)
    | CustodyUnknown(error: Error)

  /** Exactly the requests of a creation were sent, and then the token it had read was stored. */
  ghost predicate AllocationTrace(w0: World, w: World, hostname: string, t: string, id: string, token: string) {
    && w.log != [] && w.log[|w.log| - 1] == StoreToken(token)
    && CreationTrace(w0, w.(log := w.log[..|w.log| - 1]), hostname, t, id, token)
  }

  /** In custody is the token that was read of the created tunnel. What a create leaves behind
      when custody of it failed: without an invocation port the run compensates, with one it leaves
      the provider resources for a later admission. */
  ghost predicate IngressCreated(w0: World, w: World, hostname: string, controlled: bool, r: IngressResult) {
    && Since(w0, w) && OnlyOwn(w0, w) && CreatesWhenFree(w0, w, hostname)
    && match r
       case Allocated(t, id) =>
         && Realized(w0, w, hostname, t, id)
         && exists token :: AllocationTrace(w0, w, hostname, t, id, token) && w.custody == Active(token)
       case ProviderStopped(stopped) => !stopped.Created? && CreateSound(w0, w, hostname, stopped)
       case CustodyStopped(e) =>
         && !controlled && Sound(w0, w, e)
         && (e.cleanup == Complete ==> w.custody == Revoked)
         && (e.cleanup == Complete <==> e.certainty == DnsAndTunnelCreated)
         && e.tunnel.Some? && e.record.Some? && CustodyCleanupSent(w0, w, e.tunnel.value, e.record.value)
       case CustodyUnknown(_) =>
         if controlled then exists t, id, token :: CustodyLost(w0, w, hostname, t, id, token)
         else exists t, id :: CustodyCleanupSent(w0, w, t, id)
  }

  /** Everything was created; whether its token is in custody is unknown. */
  ghost predicate CustodyLost(w0: World, w: World, hostname: string, t: string, id: string, token: string) {
    && Realized(w0, w, hostname, t, id) && AllocationTrace(w0, w, hostname, t, id, token)
    && (w.custody == w0.custody || w.custody == Active(token))
  }

  /** The run has ended with the store of the token it had read, its revocation, and the deletions
      of the record and tunnel it created, whichever of them failed. */
  ghost predicate CustodyCleanupSent(w0: World, w: World, t: string, id: string) {
    && NewTunnels(w0, w) == {t} && NewRecords(w0, w) == {id}
    && exists token ::
         Ends(w, [ReadToken(t, Some(token)), StoreToken(token)]
                 + ([RevokeToken] + DeleteRecordRequests(id) + DeleteTunnelRequests(t)))
  }

  method StoreLegacyToken(p: Provider, hostname: string, created: CreateResult, ghost w0: World)
    returns (r: IngressResult)
    requires created.Created? && CreateSound(w0, p.world, hostname, created) && !p.controlled
    modifies p
    ensures IngressCreated(w0, p.world, hostname, false, r)
    ensures p.script.Some? ==> r == Allocated(created.tunnel, created.record)
  {
    var t, id := created.tunnel, created.record;
    ghost var w1 := p.world;
    var stored := p.Store(created.token);
    CustodyKeepsCreated(w0, w1, p.world, hostname, t, id, created.token, stored == Success(true));
    if stored == Success(true) {
      return Allocated(t, id);
    }
    var failed := CompensateCustody(p, hostname, t, id, w0, created.token);
    var evidence := if failed == []
      then Evidence(SecretCustody, CustodyFailure, DnsAndTunnelCreated, Some(t), Some(id), Complete)
      else Evidence(Cleanup, CleanupFailure, UncertainMutation, Some(t), Some(id), UncertainCleanup);
    r := if ValidEvidence(evidence) then CustodyStopped(evidence) else CustodyUnknown(Api);
  }

  lemma CustodyKeepsCreated(w0: World, w: World, w': World, hostname: string, t: string, id: string,
                            token: string, ok: bool)
    requires CreateSound(w0, w, hostname, Created(t, id, token))
    requires Sent(w, w', StoreToken(token), w.(custody := Active(token)), ok)
    ensures Since(w0, w') && OnlyOwn(w0, w') && CreatesWhenFree(w0, w', hostname)
    ensures Realized(w0, w', hostname, t, id) && AllocationTrace(w0, w', hostname, t, id, token)
    ensures w'.custody == Active(token) || (!ok && w'.custody == w0.custody)
  {
    assert Spared(w, w', {} + NewRecords(w0, w), {} + NewTunnels(w0, w));
    StillSpared(w0, w, w', {}, {});
    assert w'.log[..|w'.log| - 1] == w.log;
  }

  lemma AllocationEnds(w0: World, w: World, hostname: string, t: string, id: string, token: string)
    requires AllocationTrace(w0, w, hostname, t, id, token)
    ensures Ends(w, [ReadToken(t, Some(token)), StoreToken(token)])
  {
    var before := w.log[..|w.log| - 1];
    assert before[|before| - 1] == ReadToken(t, Some(token)) && |before| == |w.log| - 1;
    assert w.log[|w.log| - 2] == before[|before| - 1];
  }

  method CompensateCustody(p: Provider, ghost hostname: string, t: string, id: string, ghost w0: World,
                           ghost token: string)
    returns (failed: seq<Stage>)
    requires Since(w0, p.world) && OnlyOwn(w0, p.world) && CreatesWhenFree(w0, p.world, hostname) && !p.controlled
    requires NewTunnels(w0, p.world) == {t} && NewRecords(w0, p.world) == {id}
    requires AllocationTrace(w0, p.world, hostname, t, id, token)
    modifies p
    ensures Since(w0, p.world) && OnlyOwn(w0, p.world) && CreatesWhenFree(w0, p.world, hostname)
    ensures CustodyCleanupSent(w0, p.world, t, id)
    ensures failed == [] ==> NothingLeft(w0, p.world) && p.world.custody == Revoked
  {
    ghost var w := p.world;
    var steps := [Custody, Dns(id), Tunnel(t)];
    var interrupted;
    failed, interrupted := AttemptExactCleanup(p, steps);
    CustodyCompensated(w0, w, p.world, hostname, t, id, steps, failed);
    CustodyCleanupIsSent(w0, w, p.world, hostname, t, id, token);
  }

  lemma CustodyCleanupIsSent(w0: World, w: World, w': World, hostname: string, t: string, id: string, token: string)
    requires AllocationTrace(w0, w, hostname, t, id, token) && w.log <= w'.log
    requires AttemptedInOrder([Custody, Dns(id), Tunnel(t)], w'.log[|w.log|..])
    requires NewTunnels(w0, w') == {t} && NewRecords(w0, w') == {id}
    ensures CustodyCleanupSent(w0, w', t, id)
  {
    var stored, sent := [ReadToken(t, Some(token)), StoreToken(token)], w'.log[|w.log|..];
    AllocationEnds(w0, w, hostname, t, id, token);
    AttemptedExactly([Custody, Dns(id), Tunnel(t)], sent);
    SentByThree(Custody, Dns(id), Tunnel(t));
    assert w'.log == w.log + sent && w.log == w.log[..|w.log| - 2] + stored;
    assert w'.log == w.log[..|w.log| - 2] + (stored + sent);
  }

  lemma CustodyCompensated(w0: World, w: World, w': World, hostname: string, t: string, id: string, steps: seq<Step>,
                           failed: seq<Stage>)
    requires Since(w0, w) && OnlyOwn(w0, w) && CreatesWhenFree(w0, w, hostname)
    requires NewTunnels(w0, w) == {t} && NewRecords(w0, w) == {id}
    requires steps == [Custody, Dns(id), Tunnel(t)]
    requires Compensated(w, w', steps) && Settled(w, w', steps, failed)
    ensures Since(w0, w') && OnlyOwn(w0, w') && CreatesWhenFree(w0, w', hostname)
    ensures NewTunnels(w0, w') == {t} && NewRecords(w0, w') == {id}
    ensures failed == [] ==> NothingLeft(w0, w') && w'.custody == Revoked
  {
    forall i | |w0.log| <= i < |w'.log|
      ensures OwnRequest(w0, w', w'.log[i]) && (|w.log| <= i ==> Deletes(w'.log[i]))
    {
      if i < |w.log| {
        assert w'.log[i] == w.log[i];
      } else {
        var s := CompensatingStep(w, w', steps, i);
      }
    }
    assert forall i | 0 <= i < |w.log| :: w'.log[i] == w.log[i];
    assert steps[0] == Custody && steps[1] == Dns(id) && steps[2] == Tunnel(t);
    assert Protected(w, steps[0]) && Protected(w, steps[1]) && Protected(w, steps[2]);
    CompensationSpares(w, w', steps, {id}, {t});
    StillSpared(w0, w, w', {}, {});
  }

  /** Creates a named ingress. With an invocation port the custody write is its own admitted
      unit, and its failure stops the run without compensation. On a provider that carries
      everything out a free hostname is allocated, and one that is taken is refused unchanged. */
  method Create(p: Provider, authority: Authority, hostname: string, allocationName: string) returns (r: IngressResult)
    modifies p
    ensures IngressCreated(old(p.world), p.world, hostname, p.controlled, r)
    ensures !ValidIdentifier(allocationName) || !AllowsHostname(authority, hostname) ==>
              r == ProviderStopped(Raised(Api)) && p.world == old(p.world)
    ensures HandsOut(p, old(p.world)) && NoRecordNamed(old(p.world), hostname) && !Blank(hostname)
            && ValidIdentifier(allocationName) && AllowsHostname(authority, hostname) ==>
              r == Allocated(p.script.value.tunnel, p.script.value.record)
    ensures forall id | p.script.Some? && ValidIdentifier(allocationName) && AllowsHostname(authority, hostname)
                        && OnlyRecord(old(p.world), hostname, id) && Legible(id, old(p.world).records[id]) ::
              && r == ProviderStopped(Stopped(Evidence(DnsPreObservation, HostnameOccupied, NoMutation, None, Some(id),
                                                       NotRequired)))
              && p.world == Looked(old(p.world), hostname)
  {
    if !ValidIdentifier(allocationName) || !AllowsHostname(authority, hostname) {
      return ProviderStopped(Raised(Api));
    }
    ghost var w0 := p.world;
    var created := CreateProvider(p, hostname, allocationName);
    if !created.Created? {
      return ProviderStopped(created);
    }
    if !p.controlled {
      r := StoreLegacyToken(p, hostname, created, w0);
      return;
    }
    ghost var w1 := p.world;
    var stored := p.Store(created.token);
    CustodyKeepsCreated(w0, w1, p.world, hostname, created.tunnel, created.record, created.token,
                        stored == Success(true));
    assert stored != Success(true) ==>
        CustodyLost(w0, p.world, hostname, created.tunnel, created.record, created.token);
    r := match stored
         case Success(true) => Allocated(created.tunnel, created.record)
         case Success(false) => CustodyUnknown(Api)
         case Failure(e) => CustodyUnknown(e);
  }

  // ---- rebind ----

  datatype RebindResult =
    | Bound(tunnel: string)
    | CleanupUncertain(stages: seq<Stage>)
    | RebindUncertain
    | RebindFailed(error: Error)

  /** The record targets what it targeted before. If it had to be pointed back, its name is now
      the reservation's own spelling of the hostname; otherwise it is the same record. */
  ghost predicate TargetKept(w0: World, w: World, v: Reservation) {
    if RestoringSent(w0, w, v)
    then Targets(w0, v, v.expectedTunnel) && v.record in w.records && w.records[v.record] == Restored(v)
    else SameRecord(w0, w, v.record)
  }

  ghost predicate RebindRequest(w0: World, w: World, v: Reservation, q: Request) {
    match q
    case ReadRecord(r) => r == v.record
    case ReadRecords(_, _) => false
    case ReadTunnel(_) => false
    case ReadToken(t, _) => t in NewTunnels(w0, w)
    case CreateTunnel(_) => true
    case ConfigureTunnel(t, h) => t in NewTunnels(w0, w) && h == v.hostname
    case DeleteTunnel(t) => t in NewTunnels(w0, w)
    case UpdateRecord(r, h, t) =>
      r == v.record && h == v.hostname && (t == v.expectedTunnel || t in NewTunnels(w0, w))
    case CreateRecord(_, _) => false
    case DeleteRecord(_) => false
    case DeleteConnections(_) => false
    case StoreToken(_) => true
    case RevokeToken => true
  }

  /** A tunnel whose id came back from the provider during the run. */
  ghost predicate ReturnedTunnel(w0: World, w: World, t: string) {
    exists i | |w0.log| <= i < |w.log| :: w.log[i] == CreateTunnel(Some(t))
  }

  ghost predicate StoreAttempted(w0: World, w: World) {
    exists i | |w0.log| <= i < |w.log| :: w.log[i].StoreToken?
  }

  ghost predicate UpdateAttempted(w0: World, w: World) {
    exists i | |w0.log| <= i < |w.log| :: w.log[i].UpdateRecord?
  }

  /** A token is stored only directly after it was read of the new tunnel. */
  ghost predicate StoresWhatItRead(w0: World, w: World) {
    forall i | |w0.log| <= i < |w.log| && w.log[i].StoreToken? ::
      && |w0.log| < i && w.log[i - 1].ReadToken? && w.log[i - 1].tunnel in NewTunnels(w0, w)
      && w.log[i - 1].answer == Some(w.log[i].token)
  }

  function Storing(v: Reservation, t: string, token: string): seq<Request> {
    [ReadToken(t, Some(token)), StoreToken(token), ReadRecord(v.record)]
  }

  function Pointing(v: Reservation, t: string): seq<Request> {
    [UpdateRecord(v.record, v.hostname, t), ReadRecord(v.record)]
  }

  function Realizing(v: Reservation, t: string, token: string): seq<Request> {
    [ConfigureTunnel(t, v.hostname), ReadRecord(v.record)] + (Pointing(v, t) + Storing(v, t, token))
  }

  /** The requests of a rebind that goes through. */
  function Rebinding(v: Reservation, t: string, token: string): seq<Request> {
    [CreateTunnel(Some(t))] + Realizing(v, t, token)
  }

  /** Unless the stage failed: the record's target is kept, every tunnel whose id came back is
      gone, and an attempted custody write is revoked. */
  ghost predicate RolledBack(w0: World, w: World, v: Reservation, failed: seq<Stage>) {
    && (DnsStage !in failed ==> TargetKept(w0, w, v))
    && (TunnelStage !in failed ==> forall t | ReturnedTunnel(w0, w, t) :: t !in w.tunnels)
    && (StoreAttempted(w0, w) && CustodyStage !in failed ==> w.custody == Revoked)
    && (!StoreAttempted(w0, w) ==> w.custody == w0.custody)
  }

  ghost predicate Rebound(w0: World, w: World, v: Reservation, r: RebindResult) {
    && Since(w0, w) && w.bornRecords == w0.bornRecords && Spared(w0, w, {v.record}, {})
    && (forall i | |w0.log| <= i < |w.log| :: RebindRequest(w0, w, v, w.log[i])) && StoresWhatItRead(w0, w)
    && (r.Bound? ==>
          && NewTunnels(w0, w) == {r.tunnel} && r.tunnel in w.tunnels && Targets(w, v, r.tunnel)
          && exists token :: w.log == w0.log + Rebinding(v, r.tunnel, token) && w.custody == Active(token))
    && (r.RebindUncertain? || r.RebindFailed? ==> RolledBack(w0, w, v, []))
    && (r.RebindUncertain? ==> UpdateAttempted(w0, w)) && (r == RebindFailed(Transport) ==> !UpdateAttempted(w0, w))
    && (r.CleanupUncertain? ==> r.stages != [] && RolledBack(w0, w, v, r.stages))
  }

  /** Where a rebind stands: which of its three effects it has tried. */
  datatype Attempted = Attempted(tunnel: Option<string>, update: bool, store: bool)

  ghost predicate Underway(w0: World, w: World, v: Reservation, a: Attempted) {
    && Since(w0, w) && w.bornRecords == w0.bornRecords && Spared(w0, w, {v.record}, {})
    && (forall i | |w0.log| <= i < |w.log| :: RebindRequest(w0, w, v, w.log[i])) && StoresWhatItRead(w0, w)
    && (forall i | |w0.log| <= i < |w.log| :: w.log[i] != RevokeToken && !w.log[i].DeleteTunnel?)
    && (forall t :: ReturnedTunnel(w0, w, t) <==> a.tunnel == Some(t))
    && (a.tunnel.Some? ==> NewTunnels(w0, w) == {a.tunnel.value} && a.tunnel.value in w.tunnels)
    && (a.tunnel.Some? ==> !Targets(w0, v, a.tunnel.value)) && !RestoringSent(w0, w, v)
    && (a.update ==> a.tunnel.Some?) && (a.store ==> a.update)
    && (!a.update ==> SameRecord(w0, w, v.record))
    && (a.update ==>
          && Targets(w0, v, v.expectedTunnel)
          && (SameRecord(w0, w, v.record)
              || (v.record in w.records && w.records[v.record] == CnameRecord(v.hostname, a.tunnel.value))))
    && (a.store <==> StoreAttempted(w0, w)) && (a.update <==> UpdateAttempted(w0, w))
    && (!a.store ==> w.custody == w0.custody)
  }

  lemma UnderwayThen(w0: World, w: World, w': World, v: Reservation, a: Attempted, q: Request)
    requires Underway(w0, w, v, a) && MyRecord(w0, v.record)
    requires OthersActed(Logged(w, q), w')
    requires RebindRequest(w0, w, v, q) && !q.UpdateRecord? && !q.CreateTunnel?
    requires !q.StoreToken? && q != RevokeToken && !q.DeleteTunnel?
    ensures Underway(w0, w', v, a)
  {
    assert Spared(w, w', {v.record} + NewRecords(w0, w), {} + NewTunnels(w0, w));
    StillSpared(w0, w, w', {v.record}, {});
    assert w'.log == w.log + [q];
    assert SameRecord(w, w', v.record);
    forall t ensures ReturnedTunnel(w0, w', t) <==> a.tunnel == Some(t) {
      assert ReturnedTunnel(w0, w, t) <==> a.tunnel == Some(t);
      if ReturnedTunnel(w0, w, t) {
        var i :| |w0.log| <= i < |w.log| && w.log[i] == CreateTunnel(Some(t));
        assert w'.log[i] == CreateTunnel(Some(t));
      }
    }
    StillAttempted(w0, w, w');
  }

  lemma StillAttempted(w0: World, w: World, w': World)
    requires w0.log <= w.log <= w'.log
    ensures StoreAttempted(w0, w) ==> StoreAttempted(w0, w')
    ensures UpdateAttempted(w0, w) ==> UpdateAttempted(w0, w')
  {
    assert forall i | |w0.log| <= i < |w.log| :: w'.log[i] == w.log[i];
  }

  lemma UnderwayTunnel(w0: World, w: World, v: Reservation, name: string, r: Result<string, Error>)
    requires MyRecord(w0, v.record)
    requires if ValidIdentifier(name) then CreateTunnelSent(w0, w, r) else r == Failure(Api) && w == w0
    ensures Underway(w0, w, v, Attempted(AnswerOf(r), false, false))
  {
    if ValidIdentifier(name) {
      var q := if r.Success? then CreateTunnel(Some(r.value)) else CreateTunnel(None);
      assert w.log == w0.log + [q];
      assert SameRecord(w0, w, v.record);
      if r.Success? {
        assert w.log[|w0.log|] == CreateTunnel(Some(r.value));
      }
    }
  }

  lemma UnderwayUpdate(w0: World, w: World, w': World, v: Reservation, t: string, ok: bool)
    requires Underway(w0, w, v, Attempted(Some(t), false, false)) && MyRecord(w0, v.record)
    requires Targets(w0, v, v.expectedTunnel)
    requires Sent(w, w', UpdateRecord(v.record, v.hostname, t), WithUpdate(w, v.record, v.hostname, t), ok)
    ensures Underway(w0, w', v, Attempted(Some(t), true, false))
  {
    assert Spared(w, w', {v.record} + NewRecords(w0, w), {} + NewTunnels(w0, w));
    StillSpared(w0, w, w', {v.record}, {});
    var q, mid := UpdateRecord(v.record, v.hostname, t), WithUpdate(w, v.record, v.hostname, t);
    assert w'.log == w.log + [q] && w'.log[|w.log|] == q && t != v.expectedTunnel;
    assert SameRecord(w, w', v.record) || SameRecord(mid, w', v.record);
    StillReturned(w0, w, w', t);
  }

  /** The requests of a store, once the token has been read. */
  lemma StoreIsSent(w0: World, w: World, w': World, v: Reservation, t: string, token: string)
    requires Underway(w0, w, v, Attempted(Some(t), true, false))
    requires w0.log < w.log && w.log[|w.log| - 1] == ReadToken(t, Some(token))
    requires w'.log == w.log + [StoreToken(token)] && w'.bornTunnels == w.bornTunnels
    ensures forall i | |w0.log| <= i < |w'.log| ::
              RebindRequest(w0, w', v, w'.log[i]) && w'.log[i] != RevokeToken && !w'.log[i].DeleteTunnel?
    ensures StoresWhatItRead(w0, w') && StoreAttempted(w0, w') && UpdateAttempted(w0, w')
    ensures forall u :: ReturnedTunnel(w0, w', u) <==> u == t
    ensures !RestoringSent(w0, w', v)
  {
    assert w'.log[|w.log|] == StoreToken(token);
    StillAttempted(w0, w, w');
    StillReturned(w0, w, w', t);
  }

  lemma StillReturned(w0: World, w: World, w': World, t: string)
    requires w0.log <= w.log && |w'.log| == |w.log| + 1 && w.log <= w'.log && !w'.log[|w.log|].CreateTunnel?
    requires forall u :: ReturnedTunnel(w0, w, u) <==> u == t
    ensures forall u :: ReturnedTunnel(w0, w', u) <==> u == t
  {
    forall u ensures ReturnedTunnel(w0, w', u) <==> u == t {
      assert ReturnedTunnel(w0, w, u) <==> u == t;
      if ReturnedTunnel(w0, w, u) {
        var i :| |w0.log| <= i < |w.log| && w.log[i] == CreateTunnel(Some(u));
        assert w'.log[i] == CreateTunnel(Some(u));
      }
    }
  }

  lemma UnderwayStore(w0: World, w: World, w': World, v: Reservation, t: string, token: string, ok: bool)
    requires Underway(w0, w, v, Attempted(Some(t), true, false)) && MyRecord(w0, v.record)
    requires w0.log < w.log && w.log[|w.log| - 1] == ReadToken(t, Some(token))
    requires Sent(w, w', StoreToken(token), w.(custody := Active(token)), ok)
    ensures Underway(w0, w', v, Attempted(Some(t), true, true))
    ensures SameRecord(w, w', v.record)
    ensures ok ==> w'.custody == Active(token)
  {
    assert Spared(w, w', {v.record} + NewRecords(w0, w), {} + NewTunnels(w0, w));
    StillSpared(w0, w, w', {v.record}, {});
    StoreIsSent(w0, w, w', v, t, token);
  }

  /** The reservation is as expected and can be read, and the provider hands out a usable new id. */
  ghost predicate Rebindable(p: Provider, w: World, v: Reservation) {
    && p.script.Some? && ValidIdentifier(p.script.value.tunnel) && FreshTunnel(w, p.script.value.tunnel)
    && Legibly(w, v, v.expectedTunnel) && !Blank(v.hostname)
  }

  /** These requests were sent, and then the record targets the tunnel and the token is in custody. */
  ghost predicate GotThrough(w: World, w': World, v: Reservation, t: string, token: string, sent: seq<Request>) {
    w'.log == w.log + sent && Targets(w', v, t) && w'.custody == Active(token)
  }

  /** Looks at the record, which must target the given tunnel. */
  method ConfirmTarget(p: Provider, v: Reservation, t: string, ghost w0: World, ghost a: Attempted)
    returns (r: Result<(), Error>)
    requires ValidReservation(v) && MyRecord(w0, v.record) && !p.controlled && Underway(w0, p.world, v, a)
    modifies p
    ensures Underway(w0, p.world, v, a)
    ensures OthersActed(Logged(old(p.world), ReadRecord(v.record)), p.world)
    ensures r.Success? ==> Targets(old(p.world), v, t) && Targets(p.world, v, t)
    ensures r.Failure? ==> r.error != Control
    ensures p.script.Some? ==> p.world == Logged(old(p.world), ReadRecord(v.record))
    ensures p.script.Some? && Legibly(old(p.world), v, t) ==> r.Success?
  {
    ghost var w5 := p.world;
    var last := ObserveReservation(p, v);
    UnderwayThen(w0, w5, p.world, v, a, ReadRecord(v.record));
    assert SameRecord(w5, p.world, v.record);
    if last.Failure? {
      return Failure(last.error);
    }
    r := if RequireTunnel(last.value, t).Failure? then Failure(Api) else Success(());
  }

  /** Configures the new tunnel and looks at the record, which must still be as expected. */
  method ConfigureNew(p: Provider, v: Reservation, t: string, ghost w0: World)
    returns (r: Result<(), Error>, a: Attempted)
    requires ValidReservation(v) && MyRecord(w0, v.record) && !p.controlled
    requires Underway(w0, p.world, v, Attempted(Some(t), false, false))
    modifies p
    ensures a == Attempted(Some(t), false, false) && Underway(w0, p.world, v, a)
    ensures r.Success? ==>
              && ValidIdentifier(t) && Targets(w0, v, v.expectedTunnel)
              && p.world.log == old(p.world).log + [ConfigureTunnel(t, v.hostname), ReadRecord(v.record)]
    ensures r.Failure? ==> r.error != Control
    ensures p.script.Some? && ValidIdentifier(t) && Legibly(w0, v, v.expectedTunnel) ==> r.Success?
  {
    a := Attempted(Some(t), false, false);
    ghost var w1 := p.world;
    var configured := p.Configure(t, v.hostname);
    if configured.Failure? && !ValidIdentifier(t) {
      return Failure(configured.error), a;
    }
    UnderwayThen(w0, w1, p.world, v, a, ConfigureTunnel(t, v.hostname));
    if configured.Failure? {
      return Failure(configured.error), a;
    }
    assert SameRecord(w0, p.world, v.record);
    r := ConfirmTarget(p, v, v.expectedTunnel, w0, a);
  }

  /** Points the record at the new tunnel and looks at it. */
  method PointAndLook(p: Provider, v: Reservation, t: string, ghost w0: World) returns (r: Result<(), Error>)
    requires ValidReservation(v) && MyRecord(w0, v.record) && !p.controlled && ValidIdentifier(t)
    requires Underway(w0, p.world, v, Attempted(Some(t), false, false))
    requires Targets(w0, v, v.expectedTunnel)
    modifies p
    ensures Underway(w0, p.world, v, Attempted(Some(t), true, false))
    ensures r.Failure? || (p.world.log == old(p.world).log + Pointing(v, t) && Targets(p.world, v, t))
    ensures r.Failure? ==> r.error != Control
    ensures p.script.Some? && !Blank(v.hostname) ==> r.Success? && Legibly(p.world, v, t)
  {
    ghost var w1 := p.world;
    var updated := p.UpdateDns(v.record, v.hostname, t);
    UnderwayUpdate(w0, w1, p.world, v, t, updated.Success?);
    if updated.Failure? {
      return Failure(updated.error);
    }
    r := ConfirmTarget(p, v, t, w0, Attempted(Some(t), true, false));
    assert r.Success? ==> p.world.log == w1.log + Pointing(v, t);
  }

  method UpdateAndStore(p: Provider, v: Reservation, t: string, ghost w0: World)
    returns (r: Result<string, Error>, a: Attempted, ghost token: string)
    requires ValidReservation(v) && MyRecord(w0, v.record) && !p.controlled && ValidIdentifier(t)
    requires Underway(w0, p.world, v, Attempted(Some(t), false, false))
    requires Targets(w0, v, v.expectedTunnel)
    modifies p
    ensures Underway(w0, p.world, v, a)
    ensures r.Failure? ||
            (r.value == t && a == Attempted(Some(t), true, true)
             && GotThrough(old(p.world), p.world, v, t, token, Pointing(v, t) + Storing(v, t, token)))
    ensures r.Failure? ==> r.error != Control
    ensures p.script.Some? && !Blank(v.hostname) ==> r.Success?
  {
    a, token := Attempted(Some(t), true, false), "";
    var pointed := PointAndLook(p, v, t, w0);
    if pointed.Failure? {
      return Failure(pointed.error), a, token;
    }
    r, a, token := StoreAndConfirm(p, v, t, w0);
  }

  /** Reads the token of the new tunnel and stores it. */
  method ReadAndStore(p: Provider, v: Reservation, t: string, ghost w0: World)
    returns (r: Result<(), Error>, a: Attempted, ghost token: string)
    requires MyRecord(w0, v.record) && !p.controlled && ValidIdentifier(t)
    requires Underway(w0, p.world, v, Attempted(Some(t), true, false))
    modifies p
    ensures Underway(w0, p.world, v, a)
    ensures r.Failure? ||
            (a == Attempted(Some(t), true, true) && p.world.custody == Active(token)
             && p.world.log == old(p.world).log + [ReadToken(t, Some(token)), StoreToken(token)])
    ensures r.Failure? ==> r.error != Control
    ensures p.script.Some? && Legibly(old(p.world), v, t) ==> r.Success? && Legibly(p.world, v, t)
  {
    a, token := Attempted(Some(t), true, false), "";
    ghost var w3 := p.world;
    var answer := p.GetToken(t);
    UnderwayThen(w0, w3, p.world, v, a, ReadToken(t, AnswerOf(answer)));
    if answer.Failure? {
      return Failure(answer.error), a, token;
    }
    token := answer.value;
    ghost var w4 := p.world;
    var stored := p.Store(answer.value);
    UnderwayStore(w0, w4, p.world, v, t, answer.value, stored == Success(true));
    a := Attempted(Some(t), true, true);
    r := if stored == Success(true) then Success(()) else Failure(Api);
  }

  method StoreAndConfirm(p: Provider, v: Reservation, t: string, ghost w0: World)
    returns (r: Result<string, Error>, a: Attempted, ghost token: string)
    requires ValidReservation(v) && MyRecord(w0, v.record) && !p.controlled && ValidIdentifier(t)
    requires Underway(w0, p.world, v, Attempted(Some(t), true, false))
    modifies p
    ensures Underway(w0, p.world, v, a)
    ensures r.Failure? ||
            (r.value == t && a == Attempted(Some(t), true, true)
             && GotThrough(old(p.world), p.world, v, t, token, Storing(v, t, token)))
    ensures r.Failure? ==> r.error != Control
    ensures p.script.Some? && Legibly(old(p.world), v, t) ==> r.Success?
  {
    ghost var w3 := p.world;
    var stored;
    stored, a, token := ReadAndStore(p, v, t, w0);
    if stored.Failure? {
      return Failure(stored.error), a, token;
    }
    var seen := ConfirmTarget(p, v, t, w0, a);
    r := if seen.Failure? then Failure(seen.error) else Success(t);
    assert r.Success? ==> p.world.log == w3.log + Storing(v, t, token);
  }

  /** Everything after the allocation. */
  method Realize(p: Provider, v: Reservation, t: string, ghost w0: World)
    returns (r: Result<string, Error>, a: Attempted, ghost token: string)
    requires ValidReservation(v) && MyRecord(w0, v.record) && !p.controlled
    requires Underway(w0, p.world, v, Attempted(Some(t), false, false))
    modifies p
    ensures Underway(w0, p.world, v, a)
    ensures r.Success? ==>
              && r.value == t && a == Attempted(Some(t), true, true)
              && GotThrough(old(p.world), p.world, v, t, token, Realizing(v, t, token))
    ensures r.Failure? ==> r.error != Control
    ensures p.script.Some? && ValidIdentifier(t) && Legibly(w0, v, v.expectedTunnel) && !Blank(v.hostname) ==>
              r.Success?
  {
    token := "";
    var ready;
    ready, a := ConfigureNew(p, v, t, w0);
    if ready.Failure? {
      return Failure(ready.error), a, token;
    }
    r, a, token := UpdateAndStore(p, v, t, w0);
  }

  method AllocateNew(p: Provider, v: Reservation, allocationName: string) returns (r: Result<string, Error>)
    requires MyRecord(p.world, v.record) && !p.controlled
    modifies p
    ensures Underway(old(p.world), p.world, v, Attempted(AnswerOf(r), false, false))
    ensures r.Success? ==> p.world.log == old(p.world).log + [CreateTunnel(Some(r.value))]
    ensures r.Failure? ==> r.error != Control
    ensures Rebindable(p, old(p.world), v) && ValidIdentifier(allocationName) ==>
              r == Success(p.script.value.tunnel)
  {
    ghost var w0 := p.world;
    r := p.AllocateTunnel(allocationName);
    UnderwayTunnel(w0, p.world, v, allocationName, r);
  }

  /** The guarded part of a rebind: everything up to the last re-observation. */
  method TryRebind(p: Provider, v: Reservation, allocationName: string)
    returns (r: Result<string, Error>, a: Attempted, ghost token: string)
    requires ValidReservation(v) && MyRecord(p.world, v.record) && !p.controlled
    modifies p
    ensures Underway(old(p.world), p.world, v, a)
    ensures r.Failure? ||
            (a == Attempted(Some(r.value), true, true)
             && GotThrough(old(p.world), p.world, v, r.value, token, Rebinding(v, r.value, token)))
    ensures r.Failure? ==> r.error != Control
    ensures Rebindable(p, old(p.world), v) && ValidIdentifier(allocationName) ==>
              r == Success(p.script.value.tunnel)
  {
    ghost var w0 := p.world;
    var allocation := AllocateNew(p, v, allocationName);
    if allocation.Failure? {
      return Failure(allocation.error), Attempted(None, false, false), "";
    }
    ghost var w1 := p.world;
    r, a, token := Realize(p, v, allocation.value, w0);
    if r.Success? {
      FromAllocation(w0, w1, p.world, v, r.value, token);
    }
  }

  lemma FromAllocation(w0: World, w1: World, w: World, v: Reservation, t: string, token: string)
    requires w1.log == w0.log + [CreateTunnel(Some(t))]
    requires GotThrough(w1, w, v, t, token, Realizing(v, t, token))
    ensures GotThrough(w0, w, v, t, token, Rebinding(v, t, token))
  {
  }

  function RebindCleanup(v: Reservation, a: Attempted): seq<Step> {
    (if a.store then [Custody] else [])
    + (if a.update && a.tunnel.Some? then [Restore(v, a.tunnel.value)] else [])
    + (if a.tunnel.Some? then [Tunnel(a.tunnel.value)] else [])
  }

  lemma RebindSpares(w0: World, w: World, w': World, v: Reservation, a: Attempted)
    requires Underway(w0, w, v, a) && Compensated(w, w', RebindCleanup(v, a))
    ensures Spared(w0, w', {v.record}, {})
  {
    CompensationSpares(w, w', RebindCleanup(v, a), {v.record} + NewRecords(w0, w), {} + NewTunnels(w0, w));
    StillSpared(w0, w, w', {v.record}, {});
  }

  lemma RebindCompensated(w0: World, w: World, w': World, v: Reservation, a: Attempted, failed: seq<Stage>)
    requires Underway(w0, w, v, a) && MyRecord(w0, v.record)
    requires Compensated(w, w', RebindCleanup(v, a)) && Settled(w, w', RebindCleanup(v, a), failed)
    ensures Since(w0, w') && w'.bornRecords == w0.bornRecords && Spared(w0, w', {v.record}, {})
    ensures forall i | |w0.log| <= i < |w'.log| :: RebindRequest(w0, w', v, w'.log[i])
    ensures StoresWhatItRead(w0, w') && (a.update <==> UpdateAttempted(w0, w'))
    ensures RolledBack(w0, w', v, failed)
  {
    RebindSpares(w0, w, w', v, a);
    RebindRequestsKnown(w0, w, w', v, a);
    CompensationRequests(w0, w, w', v, a);
    RebindSettled(w0, w, w', v, a, failed);
  }

  lemma CompensationRequests(w0: World, w: World, w': World, v: Reservation, a: Attempted)
    requires Underway(w0, w, v, a) && Compensated(w, w', RebindCleanup(v, a))
    ensures forall i | |w0.log| <= i < |w'.log| :: RebindRequest(w0, w', v, w'.log[i])
  {
    var steps := RebindCleanup(v, a);
    forall i | |w0.log| <= i < |w'.log| ensures RebindRequest(w0, w', v, w'.log[i]) {
      if i < |w.log| {
        assert w'.log[i] == w.log[i];
      } else {
        var s := CompensatingStep(w, w', steps, i);
      }
    }
  }

  lemma RebindSettled(w0: World, w: World, w': World, v: Reservation, a: Attempted, failed: seq<Stage>)
    requires Underway(w0, w, v, a) && MyRecord(w0, v.record)
    requires Compensated(w, w', RebindCleanup(v, a)) && Settled(w, w', RebindCleanup(v, a), failed)
    requires forall t :: ReturnedTunnel(w0, w', t) ==> a.tunnel == Some(t)
    requires StoreAttempted(w0, w') <==> a.store
    ensures RolledBack(w0, w', v, failed)
  {
    var steps := RebindCleanup(v, a);
    assert forall s | s in steps ::
             || (s == Custody && a.store)
             || (a.update && a.tunnel.Some? && s == Restore(v, a.tunnel.value))
             || (a.tunnel.Some? && s == Tunnel(a.tunnel.value));
    assert MyRecord(w, v.record);
    if a.store {
      assert steps[0] == Custody && Protected(w, steps[0]);
    }
    if a.tunnel.Some? {
      var last := |steps| - 1;
      assert steps[last] == Tunnel(a.tunnel.value) && Protected(w, steps[last]);
    }
    if a.update {
      var k := |steps| - 2;
      assert steps[k] == Restore(v, a.tunnel.value) && Protected(w, steps[k]);
    } else {
      NoUpdate(w, w', steps, v);
    }
    if DnsStage !in failed {
      PointedBack(w0, w, w', v, a);
    }
  }

  /** The compensation either pointed the record back or found it where it had been. */
  lemma PointedBack(w0: World, w: World, w': World, v: Reservation, a: Attempted)
    requires Underway(w0, w, v, a) && w.log <= w'.log
    requires if a.update then Pointed(w, w', v) else SameRecord(w, w', v.record) && !RestoringSent(w, w', v)
    ensures TargetKept(w0, w', v)
  {
    var q := UpdateRecord(v.record, v.hostname, v.expectedTunnel);
    assert forall i | |w0.log| <= i < |w.log| :: w'.log[i] == w.log[i] != q;
    assert RestoringSent(w0, w', v) <==> RestoringSent(w, w', v);
  }

  lemma RebindRequestsKnown(w0: World, w: World, w': World, v: Reservation, a: Attempted)
    requires Underway(w0, w, v, a) && Compensated(w, w', RebindCleanup(v, a))
    ensures forall t :: ReturnedTunnel(w0, w', t) ==> a.tunnel == Some(t)
    ensures StoreAttempted(w0, w') <==> a.store
    ensures UpdateAttempted(w0, w') <==> a.update
    ensures StoresWhatItRead(w0, w')
  {
    var steps := RebindCleanup(v, a);
    forall i | |w.log| <= i < |w'.log|
      ensures !w'.log[i].CreateTunnel? && !w'.log[i].StoreToken? && (w'.log[i].UpdateRecord? ==> a.update)
    {
      var s := CompensatingStep(w, w', steps, i);
    }
    StillAttempted(w0, w, w');
    assert forall i | 0 <= i < |w.log| :: w'.log[i] == w.log[i];
    forall t | ReturnedTunnel(w0, w', t) ensures a.tunnel == Some(t) {
      var i :| |w0.log| <= i < |w'.log| && w'.log[i] == CreateTunnel(Some(t));
      assert w.log[i] == CreateTunnel(Some(t));
      assert ReturnedTunnel(w0, w, t);
    }
  }

  method CompensateRebind(p: Provider, v: Reservation, a: Attempted, ghost w0: World) returns (failed: seq<Stage>)
    requires ValidReservation(v) && MyRecord(w0, v.record) && !p.controlled
    requires Underway(w0, p.world, v, a)
    modifies p
    ensures Since(w0, p.world) && p.world.bornRecords == w0.bornRecords && Spared(w0, p.world, {v.record}, {})
    ensures forall i | |w0.log| <= i < |p.world.log| :: RebindRequest(w0, p.world, v, p.world.log[i])
    ensures StoresWhatItRead(w0, p.world) && (a.update <==> UpdateAttempted(w0, p.world))
    ensures RolledBack(w0, p.world, v, failed)
  {
    ghost var w := p.world;
    var interrupted;
    failed, interrupted := AttemptExactCleanup(p, RebindCleanup(v, a));
    RebindCompensated(w0, w, p.world, v, a, failed);
  }

  /** Binds a new tunnel to one retained DNS record, all or nothing: the token in custody is then
      the one that was read of that tunnel. */
  method Rebind(p: Provider, authority: Authority, v: Reservation, ingressHostname: string, allocationName: string)
    returns (r: RebindResult)
    requires ValidReservation(v) && MyRecord(p.world, v.record) && !p.controlled
    modifies p
    ensures Rebound(old(p.world), p.world, v, r)
    ensures !AllowsHostname(authority, v.hostname) || ingressHostname != v.hostname
            || !ValidIdentifier(allocationName) ==>
              r == RebindFailed(Api) && p.world == old(p.world)
    ensures AllowsHostname(authority, v.hostname) && ingressHostname == v.hostname
            && ValidIdentifier(allocationName) && Rebindable(p, old(p.world), v) ==>
              r == Bound(p.script.value.tunnel)
  {
    if !AllowsHostname(authority, v.hostname) || ingressHostname != v.hostname || !ValidIdentifier(allocationName) {
      return RebindFailed(Api);
    }
    ghost var w0 := p.world;
    var outcome, a;
    ghost var token;
    outcome, a, token := TryRebind(p, v, allocationName);
    if outcome.Success? {
      return Bound(outcome.value);
    }
    var failed := CompensateRebind(p, v, a, w0);
    r := if failed != [] then CleanupUncertain(failed)
         else if a.update && outcome.error == Transport then RebindUncertain
         else RebindFailed(outcome.error);
  }

  /** A rebind that reports anything but an uncertain cleanup leaves the whole record as it was
      exactly when the record already carried the reservation's own spelling, or did not have to
      be pointed back. */
  lemma AllOrNothingIffSpelledAlike(w0: World, w: World, v: Reservation, r: RebindResult)
    requires Rebound(w0, w, v, r) && (r.RebindUncertain? || r.RebindFailed?)
    ensures SameRecord(w0, w, v.record) <==>
              !RestoringSent(w0, w, v) || (v.record in w0.records && w0.records[v.record].name == v.hostname)
  {
  }

  /** The provider's answers in a rebind that updates the record and then gets no token. */
  ghost predicate UpdateThenNoToken(ws: seq<World>, v: Reservation, t: string) {
    && |ws| == 7
    && CreateTunnelSent(ws[0], ws[1], Success(t))
    && OthersActed(Logged(ws[1], ConfigureTunnel(t, v.hostname)), ws[2])
    && OthersActed(Logged(ws[2], ReadRecord(v.record)), ws[3])
    && Sent(ws[3], ws[4], UpdateRecord(v.record, v.hostname, t), WithUpdate(ws[3], v.record, v.hostname, t), true)
    && OthersActed(Logged(ws[4], ReadRecord(v.record)), ws[5])
    && OthersActed(Logged(ws[5], ReadToken(t, None)), ws[6])
  }

  /** The record is pointed back and the tunnel deleted, and no stage of the compensation fails. */
  ghost predicate PointBackAndDelete(ws: seq<World>, v: Reservation, t: string) {
    && |ws| == 5
    && OthersActed(Logged(ws[0], ReadRecord(v.record)), ws[1])
    && Sent(ws[1], ws[2], UpdateRecord(v.record, v.hostname, v.expectedTunnel),
            WithUpdate(ws[1], v.record, v.hostname, v.expectedTunnel), true)
    && OthersActed(Logged(ws[2], ReadRecord(v.record)), ws[3])
    && Sent(ws[3], ws[4], DeleteTunnel(t), WithoutTunnel(ws[3], t), true)
  }

  ghost predicate TokenlessRebind(ws: seq<World>, v: Reservation, t: string) {
    |ws| == 11 && UpdateThenNoToken(ws[..7], v, t) && PointBackAndDelete(ws[6..], v, t)
  }

  function TokenlessRequests(v: Reservation, t: string): seq<Request> {
    [CreateTunnel(Some(t)), ConfigureTunnel(t, v.hostname), ReadRecord(v.record),
     UpdateRecord(v.record, v.hostname, t), ReadRecord(v.record), ReadToken(t, None), ReadRecord(v.record),
     UpdateRecord(v.record, v.hostname, v.expectedTunnel), ReadRecord(v.record), DeleteTunnel(t)]
  }

  lemma TokenlessRebindRespells(w0: World, w: World, v: Reservation, t: string)
    requires Targets(w0, v, v.expectedTunnel) && w0.records[v.record].name != v.hostname
    requires FreshTunnel(w0, t) && MyRecord(w0, v.record)
    requires w == w0.(bornTunnels := w0.bornTunnels + {t}, records := w0.records[v.record := Restored(v)],
                      log := w0.log + TokenlessRequests(v, t))
    ensures Rebound(w0, w, v, RebindFailed(Api)) && !SameRecord(w0, w, v.record)
  {
    assert NewTunnels(w0, w) == {t};
    assert w.log[|w0.log| + 7] == UpdateRecord(v.record, v.hostname, v.expectedTunnel);
    forall i | |w0.log| <= i < |w.log|
      ensures RebindRequest(w0, w, v, w.log[i]) && !w.log[i].StoreToken?
      ensures w.log[i].CreateTunnel? ==> w.log[i].returned == Some(t)
    {
      assert w.log[i] == TokenlessRequests(v, t)[i - |w0.log|];
    }
  }

  function Updated(w0: World, v: Reservation, t: string): World
    requires v.record in w0.records
  {
    w0.(tunnels := w0.tunnels + {t}, bornTunnels := w0.bornTunnels + {t},
        records := w0.records[v.record := CnameRecord(v.hostname, t)],
        log := w0.log + TokenlessRequests(v, t)[..6])
  }

  lemma UpdateCanMissToken(w0: World, v: Reservation, t: string) returns (ws: seq<World>)
    requires v.record in w0.records && FreshTunnel(w0, t)
    ensures UpdateThenNoToken(ws, v, t) && ws[0] == w0 && ws[6] == Updated(w0, v, t)
  {
    var w1 := Logged(WithTunnel(w0, t), CreateTunnel(Some(t)));
    var w2 := Logged(w1, ConfigureTunnel(t, v.hostname));
    var w3 := Logged(w2, ReadRecord(v.record));
    var w4 := Logged(WithUpdate(w3, v.record, v.hostname, t), UpdateRecord(v.record, v.hostname, t));
    var w5 := Logged(w4, ReadRecord(v.record));
    var w6 := Logged(w5, ReadToken(t, None));
    ws := [w0, w1, w2, w3, w4, w5, w6];
    assert w6.log == w0.log + TokenlessRequests(v, t)[..6];
  }

  lemma RecordCanBePointedBack(w0: World, v: Reservation, t: string) returns (ws: seq<World>)
    requires v.record in w0.records && FreshTunnel(w0, t)
    ensures PointBackAndDelete(ws, v, t) && ws[0] == Updated(w0, v, t)
    ensures ws[4] == w0.(bornTunnels := w0.bornTunnels + {t}, records := w0.records[v.record := Restored(v)],
                         log := w0.log + TokenlessRequests(v, t))
  {
    var w6 := Updated(w0, v, t);
    var w7 := Logged(w6, ReadRecord(v.record));
    var w8 := Logged(WithUpdate(w7, v.record, v.hostname, v.expectedTunnel),
                     UpdateRecord(v.record, v.hostname, v.expectedTunnel));
    var w9 := Logged(w8, ReadRecord(v.record));
    var w10 := Logged(WithoutTunnel(w9, t), DeleteTunnel(t));
    ws := [w6, w7, w8, w9, w10];
    assert w10.log == w0.log + TokenlessRequests(v, t);
    assert w10.tunnels == w0.tunnels;
  }

  /** For every record in another spelling there is such a run, and it re-spells the record. */
  lemma OtherSpellingIsLost(w0: World, v: Reservation, t: string) returns (ws: seq<World>)
    requires Targets(w0, v, v.expectedTunnel) && w0.records[v.record].name != v.hostname
    requires FreshTunnel(w0, t) && MyRecord(w0, v.record)
    ensures TokenlessRebind(ws, v, t) && ws[0] == w0
    ensures Rebound(w0, ws[10], v, RebindFailed(Api)) && !SameRecord(w0, ws[10], v.record)
  {
    var first := UpdateCanMissToken(w0, v, t);
    var second := RecordCanBePointedBack(w0, v, t);
    ws := first + second[1..];
    assert ws[..7] == first && ws[6..] == second;
    TokenlessRebindRespells(w0, ws[10], v, t);
  }

  /** One such record: the provider says "A.example.com", the reservation "a.example.com". */
  lemma OneLostSpelling() returns (ws: seq<World>)
    ensures TokenlessRebind(ws, Reservation("r", "a.example.com", "old"), "new")
    ensures "r" in ws[0].records && ws[0].records["r"] == CnameRecord("A.example.com", "old")
    ensures "r" in ws[10].records && ws[10].records["r"] == CnameRecord("a.example.com", "old")
  {
    var v, mixed := Reservation("r", "a.example.com", "old"), "A.example.com";
    var w0 := World({"old"}, map["r" := CnameRecord(mixed, "old")], Vacant, {"old"}, {"r"}, {}, {}, []);
    assert Lower(mixed) == Lower(v.hostname);
    assert mixed[0] != v.hostname[0];
    if TunnelTarget("old") == TunnelTarget("new") {
      TunnelTargetIsInjective("old", "new");
    }
    ws := OtherSpellingIsLost(w0, v, "new");
  }

  // ---- deactivate, release, teardown ----

  datatype DeactivateResult =
    | Deactivated
    | DeactivationUncertain(stages: seq<Stage>)
    | DeactivationRefused(error: Error)

  datatype Resources = Resources(tunnel: string, record: string, hostname: string)

  ghost predicate DeactivateRequest(v: Reservation, q: Request) {
    || q == ReadRecord(v.record) || q == ReadTunnel(v.expectedTunnel)
    || q == RevokeToken || q == DeleteConnections(v.expectedTunnel) || q == DeleteTunnel(v.expectedTunnel)
  }

  /** The record is kept, and nothing but the reservation's tunnel and the custody is touched. */
  ghost predicate Retaining(w0: World, w: World, v: Reservation) {
    && Since(w0, w) && w.bornTunnels == w0.bornTunnels && w.bornRecords == w0.bornRecords
    && (forall i | |w0.log| <= i < |w.log| :: DeactivateRequest(v, w.log[i]))
    && SameRecord(w0, w, v.record) && Spared(w0, w, {}, {v.expectedTunnel})
  }

  /** What each removal that is not named as failed has brought about. */
  ghost predicate Detached(w0: World, w: World, v: Reservation, failed: seq<Stage>) {
    && (CustodyStage !in failed ==> w.custody == Revoked)
    && (ConnectionsStage !in failed ==> Feasible(w0, Connections(v.expectedTunnel)))
    && (TunnelStage !in failed ==> Feasible(w0, Tunnel(v.expectedTunnel)) && v.expectedTunnel !in w.tunnels)
  }

  /** Every removal is sent once, in this order, between two looks at the record. */
  function Deactivating(v: Reservation): seq<Request> {
    [ReadRecord(v.record)] + [RevokeToken, DeleteConnections(v.expectedTunnel), DeleteTunnel(v.expectedTunnel)]
    + [ReadRecord(v.record), ReadTunnel(v.expectedTunnel)]
  }

  ghost predicate Retained(w0: World, w: World, v: Reservation, r: DeactivateResult) {
    && Retaining(w0, w, v)
    && match r
       case Deactivated =>
         && Targets(w, v, v.expectedTunnel) && Detached(w0, w, v, []) && w.log == w0.log + Deactivating(v)
       case DeactivationUncertain(stages) =>
         && stages != [] && Targets(w, v, v.expectedTunnel) && Detached(w0, w, v, stages)
         && (TunnelObservation !in stages ==> v.expectedTunnel !in w.tunnels)
         && w.log == w0.log + Deactivating(v)
       case DeactivationRefused(_) =>
         && NothingMutated(w0, w) && w.custody == w0.custody
         && (v.expectedTunnel in w.tunnels <==> v.expectedTunnel in w0.tunnels)
  }

  predicate Agrees(resources: Resources, v: Reservation) {
    resources.tunnel == v.expectedTunnel && resources.record == v.record && resources.hostname == v.hostname
  }

  /** Removes the tunnel and its token and keeps the record. A provider that carries everything
      out does so if the record is as expected and the tunnel is there. */
  method Deactivate(p: Provider, authority: Authority, v: Reservation, resources: Resources)
    returns (r: DeactivateResult)
    requires ValidReservation(v) && MyRecord(p.world, v.record) && Mine(p.world, v.expectedTunnel) && !p.controlled
    modifies p
    ensures Retained(old(p.world), p.world, v, r)
    ensures !AllowsHostname(authority, v.hostname) || !Agrees(resources, v) ==>
              r == DeactivationRefused(Api) && p.world == old(p.world)
    ensures p.script.Some? && AllowsHostname(authority, v.hostname) && Agrees(resources, v)
            && Legibly(old(p.world), v, v.expectedTunnel) && v.expectedTunnel in old(p.world).tunnels ==>
              r == Deactivated
  {
    ghost var w0 := p.world;
    if !AllowsHostname(authority, v.hostname) || resources != Resources(v.expectedTunnel, v.record, v.hostname) {
      return DeactivationRefused(Api);
    }
    var seen := ObserveReservation(p, v);
    if seen.Failure? {
      return DeactivationRefused(seen.error);
    }
    if RequireTunnel(seen.value, v.expectedTunnel).Failure? {
      return DeactivationRefused(Api);
    }
    r := RemoveRealization(p, v, w0);
  }

  method RemoveRealization(p: Provider, v: Reservation, ghost w0: World) returns (r: DeactivateResult)
    requires ValidReservation(v) && MyRecord(w0, v.record) && Mine(w0, v.expectedTunnel) && !p.controlled
    requires OthersActed(Logged(w0, ReadRecord(v.record)), p.world) && Targets(w0, v, v.expectedTunnel)
    modifies p
    ensures Retained(w0, p.world, v, r)
    ensures p.script.Some? && Legibly(w0, v, v.expectedTunnel) && v.expectedTunnel in w0.tunnels ==> r == Deactivated
  {
    ghost var w1 := p.world;
    var t := v.expectedTunnel;
    var steps := [Custody, Connections(t), Tunnel(t)];
    assert steps[0] == Custody && steps[1] == Connections(t) && steps[2] == Tunnel(t);
    var failed, interrupted := AttemptExactCleanup(p, steps);
    DeactivationCompensated(w0, w1, p.world, v, steps, failed);
    AttemptedExactly(steps, p.world.log[|w1.log|..]);
    SentByThree(Custody, Connections(t), Tunnel(t));
    r := ConfirmRetained(p, v, failed, w0);
  }

  method ConfirmRetained(p: Provider, v: Reservation, failed: seq<Stage>, ghost w0: World) returns (r: DeactivateResult)
    requires ValidReservation(v) && MyRecord(w0, v.record) && Mine(w0, v.expectedTunnel)
    requires Retaining(w0, p.world, v) && Detached(w0, p.world, v, failed) && Targets(w0, v, v.expectedTunnel)
    requires p.world.log == w0.log + ([ReadRecord(v.record)]
               + [RevokeToken, DeleteConnections(v.expectedTunnel), DeleteTunnel(v.expectedTunnel)])
    modifies p
    ensures Retained(w0, p.world, v, r)
    ensures p.script.Some? && Legibly(w0, v, v.expectedTunnel) && failed == [] ==> r == Deactivated
  {
    var t := v.expectedTunnel;
    ghost var w2 := p.world;
    assert Legibly(w0, v, t) ==> Legibly(w2, v, t);
    var record := ObserveReservation(p, v);
    ghost var w3 := p.world;
    var absent := ObserveTunnelAbsent(p, t);
    assert p.world.log == w2.log + [ReadRecord(v.record), ReadTunnel(t)];
    assert SameRecord(w2, w3, v.record) && SameRecord(w3, p.world, v.record);
    StillSpared(w0, w2, p.world, {}, {t});
    var expected := record.Success? && RequireTunnel(record.value, t).Success?;
    var stages := failed + (if expected then [] else [ReservationObservation])
                  + (if absent == Success(true) then [] else [TunnelObservation]);
    r := if stages == [] then Deactivated else DeactivationUncertain(stages);
  }

  lemma DeactivationCompensated(w0: World, w: World, w': World, v: Reservation, steps: seq<Step>, failed: seq<Stage>)
    requires MyRecord(w0, v.record) && Mine(w0, v.expectedTunnel)
    requires OthersActed(Logged(w0, ReadRecord(v.record)), w)
    requires steps == [Custody, Connections(v.expectedTunnel), Tunnel(v.expectedTunnel)]
    requires Compensated(w, w', steps) && Settled(w, w', steps, failed)
    ensures Retaining(w0, w', v) && Detached(w0, w', v, failed)
  {
    CompensationSpares(w, w', steps, {} + NewRecords(w0, w), {v.expectedTunnel} + NewTunnels(w0, w));
    StillSpared(w0, w, w', {}, {v.expectedTunnel});
    forall i | |w0.log| <= i < |w'.log| ensures DeactivateRequest(v, w'.log[i]) {
      if i < |w.log| {
        assert w'.log[i] == w.log[i];
      } else {
        var s := CompensatingStep(w, w', steps, i);
      }
    }
    CompensationSpares(w, w', steps, {}, {v.expectedTunnel});
    assert SameRecord(w0, w, v.record) && MyRecord(w, v.record);
    assert Protected(w, steps[0]) && Protected(w, steps[1]) && Protected(w, steps[2]);
  }

  datatype ReleaseResult = Released | ReleaseUncertain(stages: seq<Stage>) | ReleaseRefused(error: Error)

  ghost predicate Releasing(w0: World, w: World, v: Reservation) {
    && Since(w0, w) && w.bornTunnels == w0.bornTunnels && w.bornRecords == w0.bornRecords
    && w.custody == w0.custody
    && (forall i | |w0.log| <= i < |w.log| :: w.log[i] == ReadRecord(v.record) || w.log[i] == DeleteRecord(v.record))
    && Spared(w0, w, {v.record}, {})
  }

  /** A deletion that is not named as failed found the record; it is gone unless both stages
      failed. */
  ghost predicate ReleasedRecord(w0: World, w: World, v: Reservation, r: ReleaseResult) {
    && Releasing(w0, w, v)
    && match r
       case Released =>
         && Targets(w0, v, v.expectedTunnel) && v.record !in w.records
         && w.log == w0.log + [ReadRecord(v.record), DeleteRecord(v.record), ReadRecord(v.record)]
       case ReleaseUncertain(stages) =>
         && stages != [] && Targets(w0, v, v.expectedTunnel)
         && w.log == w0.log + [ReadRecord(v.record), DeleteRecord(v.record), ReadRecord(v.record)]
         && (DnsStage !in stages ==> Feasible(w0, Dns(v.record)) && v.record !in w.records)
         && (AbsenceObservation !in stages ==> v.record !in w.records)
       case ReleaseRefused(_) => NothingMutated(w0, w) && SameRecord(w0, w, v.record)
  }

  /** Deletes the record of a reservation that is as expected, and looks again. */
  method Release(p: Provider, authority: Authority, v: Reservation) returns (r: ReleaseResult)
    requires ValidReservation(v) && MyRecord(p.world, v.record) && !p.controlled
    modifies p
    ensures ReleasedRecord(old(p.world), p.world, v, r)
    ensures !AllowsHostname(authority, v.hostname) ==> r == ReleaseRefused(Api) && p.world == old(p.world)
    ensures p.script.Some? && AllowsHostname(authority, v.hostname)
            && Legibly(old(p.world), v, v.expectedTunnel) ==>
              r == Released
  {
    if !AllowsHostname(authority, v.hostname) {
      return ReleaseRefused(Api);
    }
    ghost var w0 := p.world;
    var seen := ObserveReservation(p, v);
    assert SameRecord(w0, p.world, v.record);
    if seen.Failure? {
      return ReleaseRefused(seen.error);
    }
    if RequireTunnel(seen.value, v.expectedTunnel).Failure? {
      return ReleaseRefused(Api);
    }
    r := DeleteReservation(p, v, w0);
  }

  method DeleteReservation(p: Provider, v: Reservation, ghost w0: World) returns (r: ReleaseResult)
    requires ValidReservation(v) && MyRecord(w0, v.record) && Targets(w0, v, v.expectedTunnel)
    requires OthersActed(Logged(w0, ReadRecord(v.record)), p.world) && !p.controlled
    modifies p
    ensures ReleasedRecord(w0, p.world, v, r)
    ensures p.script.Some? ==> r == Released
  {
    ghost var w1 := p.world;
    assert SameRecord(w0, w1, v.record);
    var deleted := p.DeleteDns(v.record);
    ghost var w2 := p.world;
    var after := ObserveReservation(p, v);
    ReleaseSent(w0, w1, w2, p.world, v, deleted.Success?);
    var stages := (if deleted.Success? then [] else [DnsStage])
                  + (if after == Success(Absent) then [] else [AbsenceObservation]);
    r := if stages == [] then Released else ReleaseUncertain(stages);
  }

  lemma ReleaseSent(w0: World, w1: World, w2: World, w: World, v: Reservation, ok: bool)
    requires MyRecord(w0, v.record) && Targets(w0, v, v.expectedTunnel)
    requires OthersActed(Logged(w0, ReadRecord(v.record)), w1)
    requires Sent(w1, w2, DeleteRecord(v.record), WithoutRecord(w1, v.record), ok)
    requires OthersActed(Logged(w2, ReadRecord(v.record)), w)
    ensures Releasing(w0, w, v) && SameRecord(w2, w, v.record)
    ensures ok ==> v.record !in w.records
  {
    var rs := {v.record};
    assert rs + NewRecords(w0, w1) == rs + NewRecords(w0, w2) == rs;
    assert Spared(w0, w1, rs, {} + NewTunnels(w0, w1));
    assert Spared(w1, w2, rs, {} + NewTunnels(w0, w1));
    StillSpared(w0, w1, w2, rs, {});
    assert Spared(w2, w, rs, {} + NewTunnels(w0, w2));
    StillSpared(w0, w2, w, rs, {});
    assert SameRecord(w2, w, v.record);
  }

  datatype TeardownResult =
    | TornDown
    | RevocationFailed(error: Error)
    | TeardownUncertain(stages: seq<Stage>)
    | TeardownRaised(error: Error)

  ghost predicate TeardownRequest(t: Resources, q: Request) {
    || q == RevokeToken || q == DeleteRecord(t.record)
    || q == DeleteConnections(t.tunnel) || q == DeleteTunnel(t.tunnel)
  }

  /** The requests of a teardown, the deletions of unusable identifiers left out. */
  function TearingDown(t: Resources): seq<Request> {
    [RevokeToken] + DeleteRecordRequests(t.record)
    + (if ValidIdentifier(t.tunnel) then [DeleteConnections(t.tunnel)] else []) + DeleteTunnelRequests(t.tunnel)
  }

  /** What each stage that is not named as failed has brought about: a deletion that succeeded
      found something to delete. */
  ghost predicate StagesDone(w0: World, w: World, t: Resources, failed: seq<Stage>) {
    && (CustodyStage !in failed ==> w.custody == Revoked)
    && (DnsStage !in failed ==> Feasible(w0, Dns(t.record)) && t.record !in w.records)
    && (ConnectionsStage !in failed ==> Feasible(w0, Connections(t.tunnel)))
    && (TunnelStage !in failed ==> Feasible(w0, Tunnel(t.tunnel)) && t.tunnel !in w.tunnels)
  }

  ghost predicate Removing(w0: World, w: World, t: Resources) {
    && Since(w0, w) && w.bornTunnels == w0.bornTunnels && w.bornRecords == w0.bornRecords
    && (forall i | |w0.log| <= i < |w.log| :: TeardownRequest(t, w.log[i]))
    && Spared(w0, w, {t.record}, {t.tunnel})
  }

  ghost predicate Removed(w0: World, w: World, t: Resources, r: TeardownResult) {
    && Removing(w0, w, t)
    && match r
       case TornDown => StagesDone(w0, w, t, []) && w.log == w0.log + TearingDown(t)
       case RevocationFailed(_) => w.log == w0.log + [RevokeToken]
       case TeardownUncertain(stages) =>
         stages != [] && StagesDone(w0, w, t, stages) && w.log == w0.log + TearingDown(t)
       case TeardownRaised(e) => e == Control || w == w0
  }

  lemma RevocationIsFirst(w0: World, w: World, t: Resources, ok: bool)
    requires Sent(w0, w, RevokeToken, w0.(custody := Revoked), ok)
    requires MyRecord(w0, t.record) && Mine(w0, t.tunnel)
    ensures forall e :: Removed(w0, w, t, RevocationFailed(e))
    ensures t.record in w.records <==> t.record in w0.records
    ensures t.tunnel in w.tunnels <==> t.tunnel in w0.tunnels
    ensures ok ==> w.custody == Revoked
  {
    assert SameRecord(w0, w, t.record);
  }

  function RemovalSteps(t: Resources): seq<Step> {
    [Dns(t.record), Connections(t.tunnel), Tunnel(t.tunnel)]
  }

  lemma TeardownSends(w0: World, w: World, w': World, t: Resources, steps: seq<Step>)
    requires Removing(w0, w, t) && Compensated(w, w', steps)
    requires steps == RemovalSteps(t) || steps == [Custody] + RemovalSteps(t)
    ensures Removing(w0, w', t)
  {
    CompensationSpares(w, w', steps, {t.record} + NewRecords(w0, w), {t.tunnel} + NewTunnels(w0, w));
    StillSpared(w0, w, w', {t.record}, {t.tunnel});
    forall i | |w0.log| <= i < |w'.log| ensures TeardownRequest(t, w'.log[i]) {
      if i < |w.log| {
        assert w'.log[i] == w.log[i];
      } else {
        var s := CompensatingStep(w, w', steps, i);
      }
    }
  }

  lemma TeardownSettled(w: World, w': World, t: Resources, steps: seq<Step>, failed: seq<Stage>)
    requires MyRecord(w, t.record) && Mine(w, t.tunnel)
    requires Compensated(w, w', steps) && Settled(w, w', steps, failed)
    requires steps == [Custody] + RemovalSteps(t) || (steps == RemovalSteps(t) && w.custody == Revoked)
    ensures StagesDone(w, w', t, failed)
  {
    var n := |steps|;
    assert steps[n - 3] == Dns(t.record) && steps[n - 2] == Connections(t.tunnel);
    assert steps[n - 1] == Tunnel(t.tunnel);
    assert forall i | n - 3 <= i < n :: Protected(w, steps[i]);
    if n == 4 {
      assert steps[0] == Custody && Protected(w, steps[0]);
    }
  }

  /** There is something to delete in every stage, under identifiers that are sent. */
  predicate Removable(w: World, t: Resources) {
    Feasible(w, Dns(t.record)) && Feasible(w, Tunnel(t.tunnel))
  }

  lemma RemovableIsFeasible(w: World, t: Resources)
    requires Removable(w, t) && MyRecord(w, t.record) && Mine(w, t.tunnel)
    ensures AllFeasible(w, RemovalSteps(t)) && AllFeasible(w, [Custody] + RemovalSteps(t))
  {
  }

  lemma RemovalsSent(w: World, w': World, t: Resources, steps: seq<Step>)
    requires w.log <= w'.log && AttemptedInOrder(steps, w'.log[|w.log|..])
    requires steps == RemovalSteps(t) || steps == [Custody] + RemovalSteps(t)
    ensures steps != RemovalSteps(t) ==> w'.log == w.log + TearingDown(t)
    ensures steps == RemovalSteps(t) ==> w'.log == w.log + TearingDown(t)[1..]
  {
    AttemptedExactly(steps, w'.log[|w.log|..]);
    SentByThree(Dns(t.record), Connections(t.tunnel), Tunnel(t.tunnel));
    if steps != RemovalSteps(t) {
      SentByFour(Custody, Dns(t.record), Connections(t.tunnel), Tunnel(t.tunnel));
      assert steps == [Custody, Dns(t.record), Connections(t.tunnel), Tunnel(t.tunnel)];
    }
  }

  ghost predicate TeardownStarted(w0: World, w: World, t: Resources, steps: seq<Step>) {
    && Removing(w0, w, t)
    && (|| (steps == [Custody] + RemovalSteps(t) && w == w0)
        || (steps == RemovalSteps(t) && w.custody == Revoked && w.log == w0.log + [RevokeToken]))
    && (t.record in w.records <==> t.record in w0.records)
    && (t.tunnel in w.tunnels <==> t.tunnel in w0.tunnels)
  }

  lemma TeardownEnds(w0: World, w: World, w': World, t: Resources, steps: seq<Step>, failed: seq<Stage>)
    requires MyRecord(w0, t.record) && Mine(w0, t.tunnel) && TeardownStarted(w0, w, t, steps)
    requires Compensated(w, w', steps) && Settled(w, w', steps, failed)
    requires AttemptedInOrder(steps, w'.log[|w.log|..])
    ensures Removed(w0, w', t, if failed != [] then TeardownUncertain(failed) else TornDown)
    ensures failed == [] ==> Removable(w0, t)
  {
    TeardownSends(w0, w, w', t, steps);
    TeardownSettled(w, w', t, steps, failed);
    RemovalsSent(w, w', t, steps);
  }

  /** Tears down one ingress: the token is revoked, and the record, the connections and the tunnel
      are deleted, in this order. With an invocation port the custody revocation is its own unit,
      and its failure prevents every provider deletion. On a reliable provider the teardown of an
      allowed hostname succeeds exactly if everything is still there. */
  method Teardown(p: Provider, authority: Authority, t: Resources) returns (r: TeardownResult)
    requires MyRecord(p.world, t.record) && Mine(p.world, t.tunnel)
    modifies p
    ensures Removed(old(p.world), p.world, t, r)
    ensures !AllowsHostname(authority, t.hostname) ==> r == TeardownRaised(Api) && p.world == old(p.world)
    ensures !p.controlled && AllowsHostname(authority, t.hostname) ==> r.TornDown? || r.TeardownUncertain?
    ensures r == TeardownRaised(Control) || r.RevocationFailed? ==> p.controlled
    ensures r.TornDown? ==> Removable(old(p.world), t)
    ensures p.Dependable() && AllowsHostname(authority, t.hostname) && Removable(old(p.world), t) ==> r.TornDown?
  {
    if !AllowsHostname(authority, t.hostname) {
      return TeardownRaised(Api);
    }
    ghost var w0 := p.world;
    if !p.controlled {
      r := RemoveResources(p, t, [Custody] + RemovalSteps(t), w0);
      return;
    }
    var revoked := p.Revoke();
    RevocationIsFirst(w0, p.world, t, revoked.Success?);
    if revoked.Failure? {
      return RevocationFailed(revoked.error);
    }
    r := RemoveResources(p, t, RemovalSteps(t), w0);
  }

  method RemoveResources(p: Provider, t: Resources, steps: seq<Step>, ghost w0: World) returns (r: TeardownResult)
    requires MyRecord(w0, t.record) && Mine(w0, t.tunnel) && TeardownStarted(w0, p.world, t, steps)
    modifies p
    ensures Removed(w0, p.world, t, r)
    ensures r.TornDown? ==> Removable(w0, t)
    ensures r.TornDown? || r.TeardownUncertain? || (r == TeardownRaised(Control) && p.controlled)
    ensures p.Dependable() && Removable(w0, t) ==> r.TornDown?
  {
    ghost var w := p.world;
    if Removable(w, t) {
      RemovableIsFeasible(w, t);
    }
    var failed, interrupted := AttemptExactCleanup(p, steps);
    if interrupted {
      TeardownSends(w0, w, p.world, t, steps);
      return TeardownRaised(Control);
    }
    r := if failed != [] then TeardownUncertain(failed) else TornDown;
    TeardownEnds(w0, w, p.world, t, steps, failed);
  }

  /** A torn-down ingress cannot be torn down again: the record that is gone stays gone whatever
      others do, and its deletion is a failed stage. */
  lemma TornDownOnce(w0: World, w1: World, w2: World, w3: World, t: Resources, r: TeardownResult)
    requires MyRecord(w0, t.record) && Mine(w0, t.tunnel)
    requires Removed(w0, w1, t, TornDown) && OthersActed(w1, w2) && Removed(w2, w3, t, r)
    ensures !r.TornDown?
    ensures r.TeardownUncertain? ==>
              DnsStage in r.stages && ConnectionsStage in r.stages && TunnelStage in r.stages
  {
    assert SameRecord(w1, w2, t.record);
  }
}
