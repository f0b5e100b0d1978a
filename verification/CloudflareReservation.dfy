// Exact observation and restoration of one DNS reservation, and of one tunnel.

module CloudflareReservation {
  import opened Wrappers
  import opened Text
  import opened CloudflareProvider

  datatype Reservation = Reservation(record: string, hostname: string, expectedTunnel: string)

  /** The validated value the source constructs: closed identifiers throughout. */
  predicate ValidReservation(v: Reservation) {
    ValidIdentifier(v.record) && ValidIdentifier(v.expectedTunnel)
  }

  datatype Observation = Absent | Present(hostname: string, tunnel: string)

  predicate PresentText(field: Option<string>) {
    field.Some? && !Blank(field.value)
  }

  /** Reads a returned record as a reservation, or says why it cannot be one. */
  function Interpret(v: Reservation, raw: RawRecord): Result<Observation, Error> {
    if raw.NotMapping? then Failure(Api)
    else if !PresentText(raw.id) || !PresentText(raw.kind) || !PresentText(raw.name) || !PresentText(raw.content) then
      Failure(Api)
    else if raw.id.value != v.record || raw.kind.value != "CNAME" then Failure(Api)
    else if Lower(raw.name.value) != Lower(v.hostname) || !raw.proxied then Failure(Api)
    else if !EndsWith(raw.content.value, TARGET_SUFFIX) then Failure(Api)
    else if !ValidIdentifier(TargetedTunnel(raw.content.value)) then Failure(Api)
    else Success(Present(raw.name.value, TargetedTunnel(raw.content.value)))
  }

  /** The record of a reservation targets a given tunnel, whatever the case of its name. */
  ghost predicate Targets(w: World, v: Reservation, tunnel: string) {
    && v.record in w.records
    && Lower(w.records[v.record].name) == Lower(v.hostname)
    && w.records[v.record] == CnameRecord(w.records[v.record].name, tunnel)
  }

  lemma InterpretedRecordTargets(w: World, v: Reservation, raw: RawRecord)
    requires v.record in w.records && Describes(raw, v.record, w.records[v.record])
    requires Interpret(v, raw).Success?
    ensures Interpret(v, raw).value.Present? && Targets(w, v, Interpret(v, raw).value.tunnel)
  {
    TargetOfTargetedTunnel(raw.content.value);
  }

  /** The record targets the tunnel, and nothing in it keeps it from being read as a reservation. */
  ghost predicate Legibly(w: World, v: Reservation, tunnel: string) {
    Targets(w, v, tunnel) && ValidIdentifier(tunnel) && !Blank(w.records[v.record].name)
  }

  lemma LegibleIsInterpreted(w: World, v: Reservation, tunnel: string)
    requires ValidReservation(v) && Legibly(w, v, tunnel)
    ensures Interpret(v, InFull(v.record, w.records[v.record])) == Success(Present(w.records[v.record].name, tunnel))
  {
    TunnelTargetIsInvertible(tunnel);
    assert !IsSpace(v.record[0]) && !IsSpace("CNAME"[0]) && !IsSpace(TunnelTarget(tunnel)[0]);
  }

  method ObserveReservation(p: Provider, v: Reservation) returns (r: Result<Observation, Error>)
    requires ValidReservation(v)
    modifies p
    ensures p.script.Some? ==>
              && p.world == Logged(old(p.world), ReadRecord(v.record))
              && (v.record !in old(p.world).records ==> r == Success(Absent))
              && (forall t | Legibly(old(p.world), v, t) ::
                    r == Success(Present(old(p.world).records[v.record].name, t)))
    ensures OthersActed(Logged(old(p.world), ReadRecord(v.record)), p.world)
    ensures r == Success(Absent) ==> v.record !in old(p.world).records
    ensures r.Success? && r.value.Present? ==> Targets(old(p.world), v, r.value.tunnel)
    ensures r.Failure? ==> p.Raises(r.error)
  {
    var raw := p.GetRecord(v.record);
    forall t | p.script.Some? && Legibly(old(p.world), v, t)
      ensures Interpret(v, InFull(v.record, old(p.world).records[v.record]))
           == Success(Present(old(p.world).records[v.record].name, t))
    {
      LegibleIsInterpreted(old(p.world), v, t);
    }
    match raw
    case Failure(NotFound) => r := Success(Absent);
    case Failure(e) => r := Failure(e);
    case Success(record) =>
      r := Interpret(v, record);
      if r.Success? {
        InterpretedRecordTargets(old(p.world), v, record);
      }
  }

  function RequireTunnel(o: Observation, tunnel: string): (r: Result<Observation, Error>)
    ensures r.Success? <==> o.Present? && o.tunnel == tunnel
    ensures r.Success? ==> r.value == o
  {
    if o.Present? && o.tunnel == tunnel then Success(o) else Failure(Api)
  }

  /** The record as the restoration leaves it: its target is the expected one again, and its
      name is spelled as the reservation spells it. */
  function Restored(v: Reservation): Record {
    CnameRecord(v.hostname, v.expectedTunnel)
  }

  /** The update that points the record back was sent between the two worlds. */
  ghost predicate RestoringSent(w: World, w': World, v: Reservation) {
    exists i | |w.log| <= i < |w'.log| :: w'.log[i] == UpdateRecord(v.record, v.hostname, v.expectedTunnel)
  }

  ghost predicate RestoreSent(w: World, w': World, v: Reservation) {
    && w'.custody == w.custody
    && w'.bornTunnels == w.bornTunnels && w'.bornRecords == w.bornRecords
    && w'.guardedTunnels == w.guardedTunnels && w'.guardedRecords == w.guardedRecords
    && w.log <= w'.log
    && (forall i | |w.log| <= i < |w'.log| ::
          || w'.log[i] == ReadRecord(v.record)
          || w'.log[i] == UpdateRecord(v.record, v.hostname, v.expectedTunnel))
    && (forall t | Mine(w, t) :: t in w'.tunnels <==> t in w.tunnels)
    && (forall r | MyRecord(w, r) :: SameRecord(w, w', r) || RestoredAgain(w, w', v, r))
  }

  /** A changed record is the reservation's own, and was changed by the restoring update. */
  ghost predicate RestoredAgain(w: World, w': World, v: Reservation, r: string) {
    && RestoringSent(w, w', v)
    && r == v.record && r in w.records && r in w'.records && w'.records[r] == Restored(v)
  }

  lemma RestoreThenRead(w: World, w': World, w'': World, v: Reservation)
    requires RestoreSent(w, w', v) && OthersActed(Logged(w', ReadRecord(v.record)), w'')
    ensures RestoreSent(w, w'', v)
    ensures RestoringSent(w, w'', v) <==> RestoringSent(w, w', v)
  {
    var q := UpdateRecord(v.record, v.hostname, v.expectedTunnel);
    assert w''.log == w'.log + [ReadRecord(v.record)];
    if RestoringSent(w, w', v) {
      var i :| |w.log| <= i < |w'.log| && w'.log[i] == q;
      assert w''.log[i] == q;
    }
    forall r | MyRecord(w, r) ensures SameRecord(w, w'', r) || RestoredAgain(w, w'', v, r) {
      assert MyRecord(w', r) && SameRecord(w', w'', r);
    }
  }

  lemma RestoreThenUpdate(w: World, w': World, w'': World, v: Reservation, ok: bool)
    requires RestoreSent(w, w', v)
    requires Sent(w', w'', UpdateRecord(v.record, v.hostname, v.expectedTunnel),
                  WithUpdate(w', v.record, v.hostname, v.expectedTunnel), ok)
    ensures RestoreSent(w, w'', v) && RestoringSent(w, w'', v)
  {
    var q := UpdateRecord(v.record, v.hostname, v.expectedTunnel);
    var mid := WithUpdate(w', v.record, v.hostname, v.expectedTunnel);
    assert w''.log == w'.log + [q];
    assert w''.log[|w'.log|] == q;
    forall r | MyRecord(w, r) ensures SameRecord(w, w'', r) || RestoredAgain(w, w'', v, r) {
      assert MyRecord(w', r);
      assert SameRecord(w', w'', r) || SameRecord(mid, w'', r);
    }
  }

  /** What a successful restoration has done with the reservation's record. */
  ghost predicate Pointed(w: World, w': World, v: Reservation) {
    && Targets(w', v, v.expectedTunnel)
    && if RestoringSent(w, w', v) then w'.records[v.record] == Restored(v) else SameRecord(w, w', v.record)
  }

  /** Points the record back at the expected tunnel, but only if it targets the new one. */
  method RestoreReservation(p: Provider, v: Reservation, newTunnel: string) returns (r: Result<(), Error>)
    requires ValidReservation(v) && MyRecord(p.world, v.record)
    modifies p
    ensures RestoreSent(old(p.world), p.world, v)
    ensures RestoringSent(old(p.world), p.world, v) ==>
              newTunnel != v.expectedTunnel && Targets(old(p.world), v, newTunnel)
    ensures r.Success? ==> Pointed(old(p.world), p.world, v)
    ensures r.Failure? ==> p.Raises(r.error)
  {
    ghost var w := p.world;
    var seen :- ObserveReservation(p, v);
    if seen.Absent? {
      return Failure(Api);
    }
    if seen.tunnel == v.expectedTunnel {
      return Success(());
    }
    if seen.tunnel != newTunnel {
      return Failure(Api);
    }
    ghost var before := p.world;
    var updated := p.UpdateDns(v.record, v.hostname, v.expectedTunnel);
    RestoreThenUpdate(w, before, p.world, v, updated.Success?);
    var _ :- updated;
    ghost var after := p.world;
    var observed := ObserveReservation(p, v);
    RestoreThenRead(w, after, p.world, v);
    var again :- observed;
    if again.Absent? {
      return Failure(Api);
    }
    var _ :- RequireTunnel(again, v.expectedTunnel);
    assert SameRecord(after, p.world, v.record);
    r := Success(());
  }

  /** Whether a tunnel is absent, counting a tombstone as absence. */
  function InterpretTunnel(tunnel: string, raw: RawTunnel): Result<bool, Error> {
    if !PresentText(raw.id) || raw.id.value != tunnel then Failure(Api)
    else match raw.deletion
      case NotDeleted => Success(false)
      case BadMark => Failure(Api)
      case DeletedAt(mark) => if Blank(mark) then Failure(Api) else Success(true)
  }

  method ObserveTunnelAbsent(p: Provider, tunnel: string) returns (r: Result<bool, Error>)
    requires ValidIdentifier(tunnel)
    modifies p
    ensures OthersActed(Logged(old(p.world), ReadTunnel(tunnel)), p.world)
    ensures r.Success? ==> (r.value <==> tunnel !in old(p.world).tunnels)
    ensures r.Failure? ==> p.Raises(r.error)
    ensures p.script.Some? ==> r.Success? && p.world == Logged(old(p.world), ReadTunnel(tunnel))
  {
    assert !IsSpace(tunnel[0]);
    var raw := p.GetTunnel(tunnel);
    match raw
    case Failure(NotFound) => r := Success(true);
    case Failure(e) => r := Failure(e);
    case Success(t) => r := InterpretTunnel(tunnel, t);
  }
}
