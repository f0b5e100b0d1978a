// The Cloudflare account and the custody service as one world, and the calls that read and
// change it. Every call may fail, and a failed mutation may or may not have taken effect.
//
// What is assumed of the provider, once:
//  - a request has taken effect by the time its failure is reported, or it never will;
//  - a successful delete means that the resource was there and is gone; a delete of something
//    that is not there is answered with not-found;
//  - new ids are fresh: never used before and not yet named by any DNS record;
//  - a read that succeeds may leave fields out, but does not lie about what it reports;
//  - after every call other parties may change the account, but not the resources this run
//    created or was handed, and they never point a DNS record at a tunnel of this run.
// A provider may have a script: then it carries every request out and nobody else acts.

module CloudflareProvider {
  import opened Wrappers
  import opened Text

  datatype Record = Record(name: string, kind: string, content: string, proxied: bool)

  datatype Custody = Vacant | Active(token: string) | Revoked

  /** One request sent to the provider or the custodian. A listing carries the records that had the
      name when it was read, an allocation and a token read what they returned. */
  datatype Request =
    | ReadRecords(hostname: string, named: set<string>)
    | ReadRecord(record: string)
    | ReadTunnel(tunnel: string)
    | ReadToken(tunnel: string, answer: Option<string>)
    | CreateTunnel(returned: Option<string>)
    | ConfigureTunnel(tunnel: string, hostname: string)
    | DeleteConnections(tunnel: string)
    | DeleteTunnel(tunnel: string)
    | CreateRecord(hostname: string, tunnel: string)
    | UpdateRecord(record: string, hostname: string, tunnel: string)
    | DeleteRecord(record: string)
    | StoreToken(token: string)
    | RevokeToken

  predicate Mutates(q: Request) {
    !q.ReadRecords? && !q.ReadRecord? && !q.ReadTunnel? && !q.ReadToken?
  }

  predicate Deletes(q: Request) {
    q.DeleteTunnel? || q.DeleteRecord? || q.DeleteConnections? || q.RevokeToken?
  }

  /** The live resources, what this client created (`born`), what it was handed by the caller
      (`guarded`), and every request it has sent. */
  datatype World = World(
    tunnels: set<string>,
    records: map<string, Record>,
    custody: Custody,
    bornTunnels: set<string>,
    bornRecords: set<string>,
    guardedTunnels: set<string>,
    guardedRecords: set<string>,
    log: seq<Request>)

  /** How a call can raise: a plain API error, the three classified ones, Core's ingress contract
      error, any other exception, and the invocation port's own control error. */
  datatype Error = Api | NotFound | Transport | Malformed | Contract | Unclassified | Control

  predicate ProviderFailure(e: Error) {
    e != Unclassified && e != Control
  }

  // ---- answers ----

  /** A DNS record as it arrives: any field may be missing or not a string. */
  datatype RawRecord =
    | NotMapping
    | Mapping(id: Option<string>, kind: Option<string>, name: Option<string>, content: Option<string>, proxied: bool)

  /** The page a reconciliation reads: `None` stands for a missing or mistyped field. */
  datatype RawPage = RawPage(
    records: Option<seq<RawRecord>>, success: bool,
    page: Option<int>, perPage: Option<int>, count: Option<int>, hasInfo: bool)

  datatype Deletion = NotDeleted | DeletedAt(mark: string) | BadMark

  datatype RawTunnel = RawTunnel(id: Option<string>, deletion: Deletion)

  predicate SameOrMissing(raw: Option<string>, actual: string) {
    raw.Some? ==> raw.value == actual
  }

  predicate Describes(raw: RawRecord, id: string, record: Record) {
    raw.Mapping? ==>
      && SameOrMissing(raw.id, id)
      && SameOrMissing(raw.kind, record.kind)
      && SameOrMissing(raw.name, record.name)
      && SameOrMissing(raw.content, record.content)
      && (raw.proxied ==> record.proxied)
  }

  /** The records that have a name, in whatever case. */
  function Named(w: World, hostname: string): set<string> {
    set id | id in w.records && Lower(w.records[id].name) == Lower(hostname)
  }

  /** The only truth a listing owes: an empty list means no such record, one entry means that
      exactly one record has the name and that the entry describes it, more mean more. */
  predicate TrueListing(w: World, hostname: string, records: seq<RawRecord>) {
    var named := Named(w, hostname);
    && (|records| == 0 ==> named == {})
    && (|records| == 1 ==> exists id | id in named :: named == {id} && Describes(records[0], id, w.records[id]))
    && (|records| >= 2 ==> |named| >= 2)
  }

  /** The page's own bookkeeping says that it is the whole answer to a request for two entries. */
  predicate WholePage(page: RawPage) {
    && page.records.Some? && page.success && page.hasInfo
    && page.page == Some(1) && page.perPage == Some(2) && page.count == Some(|page.records.value|)
    && |page.records.value| <= 2
  }

  /** Nothing is left out of the answer. */
  function InFull(id: string, record: Record): RawRecord {
    Mapping(Some(id), Some(record.kind), Some(record.name), Some(record.content), record.proxied)
  }

  ghost predicate FullListing(w: World, hostname: string, records: seq<RawRecord>) {
    && TrueListing(w, hostname, records)
    && (Named(w, hostname) == {} ==> records == [])
    && (forall id | Named(w, hostname) == {id} :: records == [InFull(id, w.records[id])])
    && (|Named(w, hostname)| >= 2 ==> |records| == 2)
  }

  method ListInFull(w: World, hostname: string) returns (records: seq<RawRecord>)
    ensures FullListing(w, hostname, records)
  {
    var named := Named(w, hostname);
    if named == {} {
      return [];
    }
    var id :| id in named;
    if named == {id} {
      return [InFull(id, w.records[id])];
    }
    assert |named - {id}| == |named| - 1 && named - {id} != {};
    records := [NotMapping, NotMapping];
  }

  /** The answers of a provider that carries every request out while nobody else acts: the ids and
      the token it hands out, and whether the answer to the record's creation is lost. */
  datatype Script = Script(tunnel: string, record: string, token: string, lost: bool)

  function AnswerOf<T>(r: Result<T, Error>): Option<T> {
    match r case Success(value) => Some(value) case Failure(_) => None
  }

  predicate TrueTunnel(w: World, tunnel: string, raw: RawTunnel) {
    && (raw.deletion.NotDeleted? ==> tunnel in w.tunnels)
    && (raw.deletion.DeletedAt? ==> tunnel !in w.tunnels)
  }

  // ---- effects on the world ----

  function Logged(w: World, q: Request): World {
    w.(log := w.log + [q])
  }

  /** After a listing of a name was asked for. */
  function Looked(w: World, hostname: string): World {
    Logged(w, ReadRecords(hostname, Named(w, hostname)))
  }

  predicate Mine(w: World, t: string) {
    t in w.bornTunnels || t in w.guardedTunnels
  }

  predicate MyRecord(w: World, r: string) {
    r in w.bornRecords || r in w.guardedRecords
  }

  predicate SameRecord(w: World, w': World, r: string) {
    && (r in w'.records <==> r in w.records)
    && (r in w.records ==> w'.records[r] == w.records[r])
  }

  /** Nothing of this client's has changed but, at most, the records and tunnels excepted. */
  ghost predicate Spared(w: World, w': World, records: set<string>, tunnels: set<string>) {
    && (forall r | MyRecord(w, r) :: r in records || SameRecord(w, w', r))
    && (forall t | Mine(w, t) :: t in tunnels || (t in w'.tunnels <==> t in w.tunnels))
  }

  predicate TargetsBorn(w: World, r: string)
    requires r in w.records
  {
    exists t | t in w.bornTunnels :: w.records[r].content == TunnelTarget(t)
  }

  /** What other parties may do between two calls of this client. */
  predicate OthersActed(w: World, w': World) {
    && w'.custody == w.custody && w'.log == w.log
    && w'.bornTunnels == w.bornTunnels && w'.bornRecords == w.bornRecords
    && w'.guardedTunnels == w.guardedTunnels && w'.guardedRecords == w.guardedRecords
    && (forall t | t in w.bornTunnels :: t in w'.tunnels <==> t in w.tunnels)
    && (forall t | t in w.guardedTunnels :: t in w'.tunnels <==> t in w.tunnels)
    && (forall r | r in w.bornRecords :: SameRecord(w, w', r))
    && (forall r | r in w.guardedRecords :: SameRecord(w, w', r))
    && (forall r | r in w'.records :: TargetsBorn(w', r) ==> r in w.records && w.records[r] == w'.records[r])
  }

  predicate FreshTunnel(w: World, t: string) {
    && t !in w.tunnels && !Mine(w, t)
    && forall r | r in w.records :: w.records[r].content != TunnelTarget(t)
  }

  predicate FreshRecord(w: World, r: string) {
    r !in w.records && !MyRecord(w, r)
  }

  function WithTunnel(w: World, t: string): World {
    w.(tunnels := w.tunnels + {t}, bornTunnels := w.bornTunnels + {t})
  }

  function WithRecord(w: World, r: string, hostname: string, tunnel: string): World {
    w.(records := w.records[r := CnameRecord(hostname, tunnel)], bornRecords := w.bornRecords + {r})
  }

  function CnameRecord(hostname: string, tunnel: string): Record {
    Record(hostname, "CNAME", TunnelTarget(tunnel), true)
  }

  function WithUpdate(w: World, r: string, hostname: string, tunnel: string): World {
    if r in w.records then w.(records := w.records[r := CnameRecord(hostname, tunnel)]) else w
  }

  function WithoutRecord(w: World, r: string): World {
    w.(records := w.records - {r})
  }

  function WithoutTunnel(w: World, t: string): World {
    w.(tunnels := w.tunnels - {t})
  }

  /** A request with this effect was sent, took effect or failed, and others acted afterwards. */
  ghost predicate Sent(w: World, w': World, q: Request, effect: World, ok: bool) {
    || OthersActed(Logged(effect, q), w')
    || (!ok && OthersActed(Logged(w, q), w'))
  }

  ghost predicate CreateTunnelSent(w: World, w': World, r: Result<string, Error>) {
    match r
    case Success(id) => FreshTunnel(w, id) && OthersActed(Logged(WithTunnel(w, id), CreateTunnel(Some(id))), w')
    case Failure(_) =>
      || OthersActed(Logged(w, CreateTunnel(None)), w')
      || exists id :: FreshTunnel(w, id) && OthersActed(Logged(WithTunnel(w, id), CreateTunnel(None)), w')
  }

  ghost predicate CreateRecordSent(w: World, w': World, hostname: string, tunnel: string, r: Result<string, Error>) {
    var q := CreateRecord(hostname, tunnel);
    match r
    case Success(id) => FreshRecord(w, id) && OthersActed(Logged(WithRecord(w, id, hostname, tunnel), q), w')
    case Failure(_) =>
      || OthersActed(Logged(w, q), w')
      || exists id :: FreshRecord(w, id) && OthersActed(Logged(WithRecord(w, id, hostname, tunnel), q), w')
  }

  /** The API client of one run, with the custodian it stores the tunnel token with. */
  class Provider {
    var world: World
    /** Whether the composing application supplied an invocation port with a control error. */
    const controlled: bool
    /** Whether no deletion of a resource that exists, and no revocation, ever fails. */
    const reliable: bool
    const script: Option<Script>

    constructor (world: World, controlled: bool, reliable: bool, script: Option<Script>)
      ensures this.world == world && this.controlled == controlled && this.reliable == reliable
      ensures this.script == script
    {
      this.world := world;
      this.controlled := controlled;
      this.reliable := reliable;
      this.script := script;
    }

    predicate Dependable() {
      reliable || script.Some?
    }

    predicate Raises(e: Error) {
      e == Control ==> controlled
    }

    method Others()
      modifies this
      ensures OthersActed(old(world), world)
      ensures script.Some? ==> world == old(world)
    {
      var candidate: World := *;
      if script.None? && OthersActed(world, candidate) {
        world := candidate;
      }
    }

    method AnyError() returns (e: Error)
      ensures Raises(e)
    {
      e := *;
      if !Raises(e) {
        e := Transport;
      }
    }

    method ListRecords(hostname: string) returns (r: Result<seq<RawRecord>, Error>)
      modifies this
      ensures OthersActed(Looked(old(world), hostname), world)
      ensures r.Success? ==> TrueListing(old(world), hostname, r.value)
      ensures r.Failure? ==> Raises(r.error)
      ensures script.Some? ==>
                world == Looked(old(world), hostname) && r.Success? && FullListing(old(world), hostname, r.value)
    {
      var records: seq<RawRecord> := *;
      if script.Some? {
        records := ListInFull(world, hostname);
      }
      var e := AnyError();
      r := if TrueListing(world, hostname, records) then Success(records) else Failure(e);
      world := Looked(world, hostname);
      Others();
    }

    /** Only a page that is the whole answer owes the truth about what is not on it. */
    method ReadReconciliationPage(hostname: string) returns (r: Result<RawPage, Error>)
      modifies this
      ensures OthersActed(Looked(old(world), hostname), world)
      ensures r.Success? && WholePage(r.value) ==> TrueListing(old(world), hostname, r.value.records.value)
      ensures r.Failure? ==> Raises(r.error)
      ensures script.Some? ==>
                && world == Looked(old(world), hostname) && r.Success? && WholePage(r.value)
                && FullListing(old(world), hostname, r.value.records.value)
    {
      var page: RawPage := *;
      if script.Some? {
        var records := ListInFull(world, hostname);
        page := RawPage(Some(records), true, Some(1), Some(2), Some(|records|), true);
      }
      var e := AnyError();
      r := if WholePage(page) && !TrueListing(world, hostname, page.records.value)
           then Failure(e) else Success(page);
      world := Looked(world, hostname);
      Others();
    }

    method GetRecord(record: string) returns (r: Result<RawRecord, Error>)
      modifies this
      ensures !ValidIdentifier(record) ==> r == Failure(Api) && world == old(world)
      ensures ValidIdentifier(record) ==> OthersActed(Logged(old(world), ReadRecord(record)), world)
      ensures r.Success? ==> record in old(world).records && Describes(r.value, record, old(world).records[record])
      ensures r == Failure(NotFound) ==> record !in old(world).records
      ensures r.Failure? ==> Raises(r.error)
      ensures script.Some? && ValidIdentifier(record) ==>
                && world == Logged(old(world), ReadRecord(record))
                && r == if record in old(world).records then Success(InFull(record, old(world).records[record]))
                        else Failure(NotFound)
    {
      if !ValidIdentifier(record) {
        return Failure(Api);
      }
      var raw: RawRecord := *;
      var e := AnyError();
      if script.Some? {
        e := NotFound;
        raw := if record in world.records then InFull(record, world.records[record]) else NotMapping;
      }
      if record in world.records {
        r := if Describes(raw, record, world.records[record]) then Success(raw)
             else Failure(if e == NotFound then Api else e);
      } else {
        r := Failure(e);
      }
      world := Logged(world, ReadRecord(record));
      Others();
    }

    method GetTunnel(tunnel: string) returns (r: Result<RawTunnel, Error>)
      modifies this
      ensures !ValidIdentifier(tunnel) ==> r == Failure(Api) && world == old(world)
      ensures ValidIdentifier(tunnel) ==> OthersActed(Logged(old(world), ReadTunnel(tunnel)), world)
      ensures r.Success? ==> TrueTunnel(old(world), tunnel, r.value)
      ensures r == Failure(NotFound) ==> tunnel !in old(world).tunnels
      ensures r.Failure? ==> Raises(r.error)
      ensures script.Some? && ValidIdentifier(tunnel) ==>
                && world == Logged(old(world), ReadTunnel(tunnel))
                && r == if tunnel in old(world).tunnels then Success(RawTunnel(Some(tunnel), NotDeleted))
                        else Failure(NotFound)
    {
      if !ValidIdentifier(tunnel) {
        return Failure(Api);
      }
      var raw: RawTunnel := *;
      var e := AnyError();
      if script.Some? {
        e, raw := NotFound, RawTunnel(Some(tunnel), NotDeleted);
      }
      r := if TrueTunnel(world, tunnel, raw) then Success(raw)
           else Failure(if e == NotFound && tunnel in world.tunnels then Api else e);
      world := Logged(world, ReadTunnel(tunnel));
      Others();
    }

    method GetToken(tunnel: string) returns (r: Result<string, Error>)
      modifies this
      ensures !ValidIdentifier(tunnel) ==> r == Failure(Api) && world == old(world)
      ensures ValidIdentifier(tunnel) ==> OthersActed(Logged(old(world), ReadToken(tunnel, AnswerOf(r))), world)
      ensures r.Failure? ==> Raises(r.error)
      ensures script.Some? && ValidIdentifier(tunnel) ==>
                r == Success(script.value.token) && world == Logged(old(world), ReadToken(tunnel, AnswerOf(r)))
    {
      if !ValidIdentifier(tunnel) {
        return Failure(Api);
      }
      r := *;
      var e := AnyError();
      r := if script.Some? then Success(script.value.token) else if r.Failure? then Failure(e) else r;
      world := Logged(world, ReadToken(tunnel, AnswerOf(r)));
      Others();
    }

    /** Allocates a tunnel. A failure may follow an allocation whose id never arrived. */
    method AllocateTunnel(name: string) returns (r: Result<string, Error>)
      modifies this
      ensures !ValidIdentifier(name) ==> r == Failure(Api) && world == old(world)
      ensures ValidIdentifier(name) ==> CreateTunnelSent(old(world), world, r)
      ensures r.Failure? ==> Raises(r.error)
      ensures script.Some? && ValidIdentifier(name) && FreshTunnel(old(world), script.value.tunnel) ==>
                && r == Success(script.value.tunnel)
                && world == Logged(WithTunnel(old(world), r.value), CreateTunnel(Some(r.value)))
    {
      if !ValidIdentifier(name) {
        return Failure(Api);
      }
      var id: string, answered: bool := *, *;
      if script.Some? {
        id, answered := script.value.tunnel, true;
      }
      var e := AnyError();
      if FreshTunnel(world, id) {
        r := if answered then Success(id) else Failure(e);
        world := Logged(WithTunnel(world, id), CreateTunnel(if answered then Some(id) else None));
      } else {
        r := Failure(e);
        world := Logged(world, CreateTunnel(None));
      }
      Others();
    }

    method Configure(tunnel: string, hostname: string) returns (r: Result<(), Error>)
      modifies this
      ensures !ValidIdentifier(tunnel) ==> r == Failure(Api) && world == old(world)
      ensures ValidIdentifier(tunnel) ==> OthersActed(Logged(old(world), ConfigureTunnel(tunnel, hostname)), world)
      ensures r.Failure? ==> Raises(r.error)
      ensures script.Some? && ValidIdentifier(tunnel) ==>
                r == Success(()) && world == Logged(old(world), ConfigureTunnel(tunnel, hostname))
    {
      if !ValidIdentifier(tunnel) {
        return Failure(Api);
      }
      r := *;
      var e := AnyError();
      r := if r.Failure? && script.None? then Failure(e) else Success(());
      world := Logged(world, ConfigureTunnel(tunnel, hostname));
      Others();
    }

    method CreateDnsUnchecked(hostname: string, tunnel: string) returns (r: Result<string, Error>)
      modifies this
      ensures !ValidIdentifier(tunnel) ==> r == Failure(Api) && world == old(world)
      ensures ValidIdentifier(tunnel) ==> CreateRecordSent(old(world), world, hostname, tunnel, r)
      ensures r.Failure? ==> Raises(r.error)
      ensures script.Some? && ValidIdentifier(tunnel) && FreshRecord(old(world), script.value.record) ==>
                && r == (if script.value.lost then Failure(Transport) else Success(script.value.record))
                && world == Logged(WithRecord(old(world), script.value.record, hostname, tunnel),
                                   CreateRecord(hostname, tunnel))
    {
      if !ValidIdentifier(tunnel) {
        return Failure(Api);
      }
      var id: string, answered: bool := *, *;
      var e := AnyError();
      if script.Some? {
        id, answered, e := script.value.record, !script.value.lost, Transport;
      }
      if FreshRecord(world, id) {
        r := if answered then Success(id) else Failure(e);
        world := Logged(WithRecord(world, id, hostname, tunnel), CreateRecord(hostname, tunnel));
      } else {
        r := Failure(e);
        world := Logged(world, CreateRecord(hostname, tunnel));
      }
      Others();
    }

    /** Sends one mutation whose effect is given: it succeeds with the effect, or fails with or
        without it. `certain` says that it cannot fail. */
    method Send(q: Request, effect: World, certain: bool) returns (r: Result<(), Error>)
      modifies this
      ensures Sent(old(world), world, q, effect, r.Success?)
      ensures certain || script.Some? ==> r.Success?
      ensures r.Failure? ==> Raises(r.error)
      ensures script.Some? ==> world == Logged(effect, q)
    {
      var ok: bool, applied: bool := *, *;
      ok := ok || certain || script.Some?;
      var e := AnyError();
      world := Logged(if ok || applied then effect else world, q);
      r := if ok then Success(()) else Failure(e);
      Others();
    }

    /** How the deletion of something that exists, or does not, is answered. */
    predicate Answered(there: bool, r: Result<(), Error>) {
      (r.Success? ==> there) && (Dependable() && there ==> r.Success?)
    }

    /** Sends one deletion. What is not there cannot be deleted: the answer is not-found. */
    method Delete(q: Request, effect: World, there: bool) returns (r: Result<(), Error>)
      requires !there ==> effect == world
      modifies this
      ensures Sent(old(world), world, q, effect, r.Success?)
      ensures Answered(there, r)
      ensures r.Failure? ==> Raises(r.error)
      ensures script.Some? ==> world == Logged(effect, q)
    {
      if there {
        r := Send(q, effect, reliable);
      } else {
        var e := AnyError();
        world := Logged(world, q);
        r := Failure(if e == Transport || e == Control then e else NotFound);
        Others();
      }
    }

    method UpdateDns(record: string, hostname: string, tunnel: string) returns (r: Result<(), Error>)
      modifies this
      ensures !ValidIdentifier(record) || !ValidIdentifier(tunnel) ==> r == Failure(Api) && world == old(world)
      ensures ValidIdentifier(record) && ValidIdentifier(tunnel) ==>
                Sent(old(world), world, UpdateRecord(record, hostname, tunnel),
                     WithUpdate(old(world), record, hostname, tunnel), r.Success?)
      ensures r.Failure? ==> Raises(r.error)
      ensures script.Some? && ValidIdentifier(record) && ValidIdentifier(tunnel) ==>
                && r.Success?
                && world == Logged(WithUpdate(old(world), record, hostname, tunnel),
                                   UpdateRecord(record, hostname, tunnel))
    {
      if !ValidIdentifier(record) || !ValidIdentifier(tunnel) {
        return Failure(Api);
      }
      r := Send(UpdateRecord(record, hostname, tunnel), WithUpdate(world, record, hostname, tunnel), false);
    }

    method DeleteDns(record: string) returns (r: Result<(), Error>)
      modifies this
      ensures !ValidIdentifier(record) ==> r == Failure(Api) && world == old(world)
      ensures ValidIdentifier(record) ==>
                Sent(old(world), world, DeleteRecord(record), WithoutRecord(old(world), record), r.Success?)
      ensures ValidIdentifier(record) ==> Answered(record in old(world).records, r)
      ensures r.Failure? ==> Raises(r.error)
      ensures script.Some? && ValidIdentifier(record) ==>
                world == Logged(WithoutRecord(old(world), record), DeleteRecord(record))
    {
      if !ValidIdentifier(record) {
        return Failure(Api);
      }
      r := Delete(DeleteRecord(record), WithoutRecord(world, record), record in world.records);
    }

    method Disconnect(tunnel: string) returns (r: Result<(), Error>)
      modifies this
      ensures !ValidIdentifier(tunnel) ==> r == Failure(Api) && world == old(world)
      ensures ValidIdentifier(tunnel) ==> OthersActed(Logged(old(world), DeleteConnections(tunnel)), world)
      ensures ValidIdentifier(tunnel) ==> Answered(tunnel in old(world).tunnels, r)
      ensures r.Failure? ==> Raises(r.error)
      ensures script.Some? && ValidIdentifier(tunnel) ==> world == Logged(old(world), DeleteConnections(tunnel))
    {
      if !ValidIdentifier(tunnel) {
        return Failure(Api);
      }
      r := Delete(DeleteConnections(tunnel), world, tunnel in world.tunnels);
    }

    method RemoveTunnel(tunnel: string) returns (r: Result<(), Error>)
      modifies this
      ensures !ValidIdentifier(tunnel) ==> r == Failure(Api) && world == old(world)
      ensures ValidIdentifier(tunnel) ==>
                Sent(old(world), world, DeleteTunnel(tunnel), WithoutTunnel(old(world), tunnel), r.Success?)
      ensures ValidIdentifier(tunnel) ==> Answered(tunnel in old(world).tunnels, r)
      ensures r.Failure? ==> Raises(r.error)
      ensures script.Some? && ValidIdentifier(tunnel) ==>
                world == Logged(WithoutTunnel(old(world), tunnel), DeleteTunnel(tunnel))
    {
      if !ValidIdentifier(tunnel) {
        return Failure(Api);
      }
      r := Delete(DeleteTunnel(tunnel), WithoutTunnel(world, tunnel), tunnel in world.tunnels);
    }

    /** The custodian's store: the receipt returned may or may not match the grant; only a
        matching one promises that the token is in custody. */
    method Store(token: string) returns (r: Result<bool, Error>)
      modifies this
      ensures Sent(old(world), world, StoreToken(token), old(world).(custody := Active(token)), r == Success(true))
      ensures r.Failure? ==> Raises(r.error)
      ensures script.Some? ==>
                r == Success(true) && world == Logged(old(world).(custody := Active(token)), StoreToken(token))
    {
      var sent := Send(StoreToken(token), world.(custody := Active(token)), false);
      var matches: bool := *;
      r := match sent case Success(_) => Success(matches || script.Some?) case Failure(e) => Failure(e);
    }

    method Revoke() returns (r: Result<(), Error>)
      modifies this
      ensures Sent(old(world), world, RevokeToken, old(world).(custody := Revoked), r.Success?)
      ensures Dependable() ==> r.Success?
      ensures r.Failure? ==> Raises(r.error)
      ensures script.Some? ==> world == Logged(old(world).(custody := Revoked), RevokeToken)
    {
      r := Send(RevokeToken, world.(custody := Revoked), reliable);
    }
  }
}
