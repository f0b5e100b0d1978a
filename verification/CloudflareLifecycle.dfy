// Whole runs of a retained ingress: any interleaving of create, rebind, deactivate and release,
// successful or not, with other parties acting between the calls.

module CloudflareLifecycle {
  import opened CloudflareProvider
  import opened CloudflareReservation
  import opened CloudflareCreate
  import opened CloudflareIngress

  datatype Event =
    | Meanwhile
    | CreateCall(controlled: bool, hostname: string, created: IngressResult)
    | RebindCall(rebound: RebindResult)
    | DeactivateCall(deactivated: DeactivateResult)
    | ReleaseCall(released: ReleaseResult)

  /** What the caller may claim about its reservation: `Doubtful` after a call that said so. */
  datatype Ledger =
    | Unallocated
    | Holding(reservation: Reservation)
    | Doubtful(reservation: Reservation)
    | Gone(reservation: Reservation)

  predicate Open(l: Ledger) {
    l.Holding? || l.Doubtful?
  }

  predicate Fits(l: Ledger, e: Event) {
    match e
    case Meanwhile => true
    case CreateCall(_, _, _) => !Open(l)
    case _ => Open(l)
  }

  /** How the caller's claim follows from the answers alone. */
  function After(l: Ledger, e: Event): Ledger
    requires Fits(l, e)
  {
    match e
    case Meanwhile => l
    case CreateCall(_, hostname, r) =>
      if r.Allocated? then Holding(Reservation(r.record, hostname, r.tunnel)) else l
    case RebindCall(r) =>
      (match r
       case Bound(tunnel) => Holding(l.reservation.(expectedTunnel := tunnel))
       case CleanupUncertain(_) => Doubtful(l.reservation)
       case _ => l)
    case DeactivateCall(r) => if r.Deactivated? then Holding(l.reservation) else l
    case ReleaseCall(r) =>
      (match r
       case Released => Gone(l.reservation)
       case ReleaseUncertain(_) => Doubtful(l.reservation)
       case ReleaseRefused(_) => l)
  }

  ghost predicate Advances(w: World, w': World, l: Ledger, e: Event) {
    && Fits(l, e)
    && match e
       case Meanwhile => OthersActed(w, w')
       case CreateCall(controlled, hostname, r) => IngressCreated(w, w', hostname, controlled, r)
       case RebindCall(r) => Rebound(w, w', l.reservation, r)
       case DeactivateCall(r) => Retained(w, w', l.reservation, r)
       case ReleaseCall(r) => ReleasedRecord(w, w', l.reservation, r)
  }

  predicate Admissible(start: Ledger, es: seq<Event>)
    decreases |es|, 0
  {
    es != [] ==>
      && Admissible(start, es[..|es| - 1])
      && Fits(LedgerOf(start, es[..|es| - 1]), es[|es| - 1])
  }

  function LedgerOf(start: Ledger, es: seq<Event>): Ledger
    requires Admissible(start, es)
    decreases |es|, 1
  {
    if es == [] then start
    else After(LedgerOf(start, es[..|es| - 1]), es[|es| - 1])
  }

  ghost predicate Run(start: Ledger, ws: seq<World>, es: seq<Event>) {
    && |ws| == |es| + 1
    && (es != [] ==>
          && Run(start, ws[..|es|], es[..|es| - 1])
          && Admissible(start, es[..|es| - 1])
          && Advances(ws[|es| - 1], ws[|es|], LedgerOf(start, es[..|es| - 1]), es[|es| - 1]))
  }

  lemma {:induction false} RunIsAdmissible(start: Ledger, ws: seq<World>, es: seq<Event>)
    requires Run(start, ws, es)
    ensures Admissible(start, es)
  {
    if es != [] {
      RunIsAdmissible(start, ws[..|es|], es[..|es| - 1]);
    }
  }

  // ---- what the caller's claim is worth ----

  /** The claim is true of the provider, and the resources it names are the caller's. */
  ghost predicate True(w: World, l: Ledger) {
    && (Open(l) || l.Gone? ==> MyRecord(w, l.reservation.record) && Mine(w, l.reservation.expectedTunnel))
    && (l.Holding? ==> Targets(w, l.reservation, l.reservation.expectedTunnel))
    && (l.Gone? ==> l.reservation.record !in w.records)
  }

  lemma KeptTarget(w: World, w': World, v: Reservation)
    requires TargetKept(w, w', v) && Targets(w, v, v.expectedTunnel)
    ensures Targets(w', v, v.expectedTunnel)
  {
  }

  lemma OneCallKeepsTheClaim(w: World, w': World, l: Ledger, e: Event)
    requires True(w, l) && Advances(w, w', l, e)
    ensures True(w', After(l, e))
  {
    if e.RebindCall? && l.Holding? && (e.rebound.RebindUncertain? || e.rebound.RebindFailed?) {
      KeptTarget(w, w', l.reservation);
    }
    if e.Meanwhile? && (Open(l) || l.Gone?) {
      assert SameRecord(w, w', l.reservation.record);
    }
  }

  lemma {:induction false} ClaimIsTrue(start: Ledger, ws: seq<World>, es: seq<Event>)
    requires Run(start, ws, es) && True(ws[0], start)
    ensures Admissible(start, es) && True(ws[|es|], LedgerOf(start, es))
  {
    RunIsAdmissible(start, ws, es);
    if es != [] {
      var n := |es| - 1;
      ClaimIsTrue(start, ws[..|es|], es[..n]);
      OneCallKeepsTheClaim(ws[n], ws[n + 1], LedgerOf(start, es[..n]), es[n]);
    }
  }

  /** The tunnel of the last successful create or rebind. */
  function LastTunnel(start: string, es: seq<Event>): string {
    if es == [] then start
    else match es[|es| - 1]
      case CreateCall(_, _, Allocated(tunnel, _)) => tunnel
      case RebindCall(Bound(tunnel)) => tunnel
      case _ => LastTunnel(start, es[..|es| - 1])
  }

  predicate Definite(e: Event) {
    && (e.RebindCall? ==> !e.rebound.CleanupUncertain?)
    && (e.ReleaseCall? ==> e.released.ReleaseRefused?)
  }

  lemma {:induction false} ClaimFollowsLastAllocation(v: Reservation, es: seq<Event>)
    requires Admissible(Holding(v), es)
    requires forall i | 0 <= i < |es| :: Definite(es[i])
    ensures LedgerOf(Holding(v), es) == Holding(v.(expectedTunnel := LastTunnel(v.expectedTunnel, es)))
  {
    if es != [] {
      ClaimFollowsLastAllocation(v, es[..|es| - 1]);
      assert Definite(es[|es| - 1]);
    }
  }

  /** The lifecycle law. From a create on, whatever rebinds and deactivations follow, failed ones
      included, the one DNS record stays the same record and targets the tunnel of the last
      allocation that succeeded, until a release is attempted or a call admits uncertainty. */
  lemma RecordTargetsLastAllocation(v: Reservation, ws: seq<World>, es: seq<Event>)
    requires Run(Holding(v), ws, es) && True(ws[0], Holding(v))
    requires forall i | 0 <= i < |es| :: Definite(es[i])
    ensures Targets(ws[|es|], v, LastTunnel(v.expectedTunnel, es))
  {
    ClaimIsTrue(Holding(v), ws, es);
    ClaimFollowsLastAllocation(v, es);
  }

  /** A successful create is such a start, and a successful release ends it. */
  lemma CreateStartsAndReleaseEnds(w0: World, w: World, hostname: string, controlled: bool, t: string, id: string,
                                   ws: seq<World>, es: seq<Event>)
    requires IngressCreated(w0, w, hostname, controlled, Allocated(t, id))
    requires Run(Holding(Reservation(id, hostname, t)), ws, es + [ReleaseCall(Released)]) && ws[0] == w
    requires forall i | 0 <= i < |es| :: Definite(es[i])
    ensures Targets(ws[|es|], Reservation(id, hostname, t), LastTunnel(t, es))
    ensures id !in ws[|es| + 1].records
  {
    var v, all := Reservation(id, hostname, t), es + [ReleaseCall(Released)];
    assert all[..|es|] == es && ws[..|all|][..|es| + 1] == ws[..|es| + 1];
    assert NewRecords(w0, w) == {id} && NewTunnels(w0, w) == {t};
    assert id in NewRecords(w0, w) && t in NewTunnels(w0, w);
    RecordTargetsLastAllocation(v, ws[..|all|], es);
    ClaimIsTrue(Holding(v), ws, all);
    ClaimFollowsLastAllocation(v, es);
  }

  // ---- what a run may touch ----

  function NamedRecords(l: Ledger): set<string> {
    if Open(l) then {l.reservation.record} else {}
  }

  function NamedTunnels(l: Ledger): set<string> {
    if Open(l) then {l.reservation.expectedTunnel} else {}
  }

  ghost predicate RunRequest(w0: World, w: World, start: Ledger, q: Request) {
    match q
    case ConfigureTunnel(t, _) => t in NewTunnels(w0, w)
    case CreateRecord(_, t) => t in NewTunnels(w0, w)
    case DeleteTunnel(t) => t in NewTunnels(w0, w) + NamedTunnels(start)
    case DeleteConnections(t) => t in NewTunnels(w0, w) + NamedTunnels(start)
    case UpdateRecord(r, _, t) =>
      r in NewRecords(w0, w) + NamedRecords(start) && t in NewTunnels(w0, w) + NamedTunnels(start)
    case DeleteRecord(r) => r in NewRecords(w0, w) + NamedRecords(start)
    case _ => true
  }

  ghost predicate Confined(w0: World, w: World, start: Ledger, l: Ledger) {
    && Since(w0, w)
    && (forall i | |w0.log| <= i < |w.log| :: RunRequest(w0, w, start, w.log[i]))
    && Spared(w0, w, NamedRecords(start), NamedTunnels(start))
    && NamedRecords(l) <= NewRecords(w0, w) + NamedRecords(start)
    && NamedTunnels(l) <= NewTunnels(w0, w) + NamedTunnels(start)
  }

  lemma OneCallRequests(w: World, w': World, l: Ledger, e: Event, i: nat)
    requires Advances(w, w', l, e) && |w.log| <= i < |w'.log|
    ensures RunRequest(w, w', l, w'.log[i])
  {
    if e.CreateCall? {
      assert OwnRequest(w, w', w'.log[i]);
    } else if e.RebindCall? {
      assert RebindRequest(w, w', l.reservation, w'.log[i]);
    } else if e.DeactivateCall? {
      assert DeactivateRequest(l.reservation, w'.log[i]);
    }
  }

  lemma OneCallSpares(w: World, w': World, l: Ledger, e: Event)
    requires Advances(w, w', l, e)
    ensures Since(w, w') && Spared(w, w', NamedRecords(l), NamedTunnels(l))
    ensures NamedRecords(After(l, e)) <= NewRecords(w, w') + NamedRecords(l)
    ensures NamedTunnels(After(l, e)) <= NewTunnels(w, w') + NamedTunnels(l)
  {
  }

  lemma ConfinedThen(w0: World, w: World, w': World, start: Ledger, l: Ledger, e: Event)
    requires Confined(w0, w, start, l) && Advances(w, w', l, e)
    ensures Confined(w0, w', start, After(l, e))
  {
    OneCallSpares(w, w', l, e);
    var rs, ts := NamedRecords(start), NamedTunnels(start);
    assert Spared(w, w', rs + NewRecords(w0, w), ts + NewTunnels(w0, w));
    StillSpared(w0, w, w', rs, ts);
    assert NewRecords(w0, w') == NewRecords(w0, w) + NewRecords(w, w');
    assert NewTunnels(w0, w') == NewTunnels(w0, w) + NewTunnels(w, w');
    forall i | |w0.log| <= i < |w'.log| ensures RunRequest(w0, w', start, w'.log[i]) {
      if i < |w.log| {
        assert w'.log[i] == w.log[i] && RunRequest(w0, w, start, w.log[i]);
      } else {
        OneCallRequests(w, w', l, e, i);
      }
    }
  }

  /** No run, failed calls included, changes or even addresses a record or tunnel other than
      those it created or those its caller named at the start. */
  lemma {:induction false} RunTouchesOnlyItsOwn(start: Ledger, ws: seq<World>, es: seq<Event>)
    requires Run(start, ws, es)
    ensures Admissible(start, es) && Confined(ws[0], ws[|es|], start, LedgerOf(start, es))
  {
    RunIsAdmissible(start, ws, es);
    if es != [] {
      var n := |es| - 1;
      RunTouchesOnlyItsOwn(start, ws[..|es|], es[..n]);
      ConfinedThen(ws[0], ws[n], ws[n + 1], start, LedgerOf(start, es[..n]), es[n]);
    }
  }

  /** Rebinding and deactivating, however often, deletes no DNS record at all. */
  lemma {:induction false} RebindAndDeactivateKeepRecords(start: Ledger, ws: seq<World>, es: seq<Event>, i: nat)
    requires Run(start, ws, es)
    requires forall j | 0 <= j < |es| :: !es[j].CreateCall? && !es[j].ReleaseCall?
    requires |ws[0].log| <= i < |ws[|es|].log|
    ensures !ws[|es|].log[i].DeleteRecord?
  {
    if es != [] {
      var n := |es| - 1;
      var w, w', l := ws[n], ws[n + 1], LedgerOf(start, es[..n]);
      OneCallSpares(w, w', l, es[n]);
      if i < |w.log| {
        assert w'.log[i] == w.log[i];
        RebindAndDeactivateKeepRecords(start, ws[..|es|], es[..n], i);
      } else if es[n].RebindCall? {
        assert RebindRequest(w, w', l.reservation, w'.log[i]);
      } else {
        assert es[n].DeactivateCall? ==> DeactivateRequest(l.reservation, w'.log[i]);
      }
    }
  }
}
