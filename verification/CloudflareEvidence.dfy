// The closed vocabulary a stopped creation is reported in, the two hostname classifiers, and
// the outcome the invocation port records.

module CloudflareEvidence {
  import opened Wrappers
  import opened Text
  import opened CloudflareProvider
  import opened CloudflareReservation

  datatype FailureStage =
    | DnsPreObservation | TunnelAllocation | TunnelConfiguration | DnsPreMutationObservation
    | DnsCreate | DnsReconciliation | TunnelToken | SecretCustody | Cleanup

  datatype Category =
    | HostnameOccupied | DnsConflict | MalformedResponse | ProviderStatus | TransportFailure
    | CustodyFailure | CleanupFailure

  datatype Certainty = NoMutation | TunnelCreated | DnsAndTunnelCreated | UncertainMutation

  datatype CleanupResult = NotRequired | Complete | Withheld | UncertainCleanup

  datatype Evidence = Evidence(
    stage: FailureStage, category: Category, certainty: Certainty,
    tunnel: Option<string>, record: Option<string>, cleanup: CleanupResult)

  datatype HostnameState = Free | Occupied | TargetsTunnel | Duplicate | Garbled

  datatype HostnameObservation = HostnameObservation(state: HostnameState, record: Option<string>)

  /** The fields every classifier needs from a single returned record. */
  predicate Readable(raw: RawRecord) {
    && raw.Mapping?
    && PresentText(raw.id) && ValidIdentifier(raw.id.value)
    && PresentText(raw.kind) && PresentText(raw.name) && PresentText(raw.content)
  }

  function ClassifyListing(records: seq<RawRecord>, hostname: string, tunnel: Option<string>): HostnameObservation {
    if |records| == 0 then HostnameObservation(Free, None)
    else if |records| != 1 then HostnameObservation(Duplicate, None)
    else
      var raw := records[0];
      if !Readable(raw) || Lower(raw.name.value) != Lower(hostname) then HostnameObservation(Garbled, None)
      else if tunnel.Some? && raw.kind.value == "CNAME" && raw.content.value == TunnelTarget(tunnel.value) then
        HostnameObservation(TargetsTunnel, raw.id)
      else HostnameObservation(Occupied, raw.id)
  }

  function ClassifyReconciled(records: seq<RawRecord>, hostname: string, tunnel: string): HostnameObservation {
    if |records| == 0 then HostnameObservation(Free, None)
    else if |records| != 1 then HostnameObservation(Duplicate, None)
    else
      var raw := records[0];
      if !Readable(raw) || raw.name.value != hostname then HostnameObservation(Garbled, None)
      else if raw.kind.value != "CNAME" || !raw.proxied then HostnameObservation(Garbled, raw.id)
      else if raw.content.value == TunnelTarget(tunnel) then HostnameObservation(TargetsTunnel, raw.id)
      else HostnameObservation(Occupied, raw.id)
  }

  /** A page is trusted only when its own bookkeeping says that it is the whole answer. */
  function ClassifyPage(page: RawPage, hostname: string, tunnel: string): Result<HostnameObservation, Error> {
    if page.records.None? then Failure(Malformed)
    else
      var seen := ClassifyReconciled(page.records.value, hostname, tunnel);
      var n := |page.records.value|;
      if !page.hasInfo || !page.success || page.page != Some(1) || page.perPage != Some(2)
         || page.count != Some(n) || n > 2 then
        Success(HostnameObservation(Garbled, seen.record))
      else Success(seen)
  }

  function FailureCategory(e: Error): Category {
    if e == Malformed || e == Contract then MalformedResponse
    else if e == Transport then TransportFailure
    else ProviderStatus
  }

  function ObservationCategory(o: HostnameObservation): Category {
    if o.state == Occupied then HostnameOccupied
    else if o.state == Garbled then MalformedResponse
    else DnsConflict
  }

  /** Evidence may carry closed identifiers only; the constructor raises otherwise. */
  predicate ValidEvidence(e: Evidence) {
    && (e.tunnel.Some? ==> ValidIdentifier(e.tunnel.value))
    && (e.record.Some? ==> ValidIdentifier(e.record.value))
  }

  datatype CreateResult =
    | Created(tunnel: string, record: string, token: string)
    | Stopped(evidence: Evidence)
    | Raised(error: Error)

  function Stop(e: Evidence): CreateResult {
    if ValidEvidence(e) then Stopped(e) else Raised(Api)
  }

  // ---- the recorded outcome ----

  datatype Recorded = Returned | Failed | Unknown | NotRecorded

  function RecordedOutcome(r: CreateResult): Recorded {
    match r
    case Created(_, _, _) => Returned
    case Raised(Control) => NotRecorded
    case Raised(_) => Unknown
    case Stopped(e) =>
      if e.stage == SecretCustody then Unknown
      else if e.certainty == UncertainMutation || e.cleanup == UncertainCleanup then Unknown
      else Failed
  }

  /** Exactly a stop that is certain of its mutations and of its cleanup, and not one in custody, is
      recorded as failed; a control error is not recorded at all. */
  lemma WhatIsRecorded(r: CreateResult)
    ensures RecordedOutcome(r) == Returned <==> r.Created?
    ensures RecordedOutcome(r) == NotRecorded <==> r == Raised(Control)
    ensures RecordedOutcome(r) == Failed <==>
              && r.Stopped? && r.evidence.stage != SecretCustody
              && r.evidence.certainty in {NoMutation, TunnelCreated, DnsAndTunnelCreated}
              && r.evidence.cleanup in {NotRequired, Complete, Withheld}
  {
  }

  datatype Provenance = NoRecord | Owned | ObservedOnly

  function RecordedProvenance(e: Evidence): Provenance {
    if e.record.None? then NoRecord
    else if e.stage == TunnelToken || e.stage == Cleanup then Owned
    else ObservedOnly
  }

  /** What each stage may say of the mutations and the cleanup. A tunnel is given up as uncertain
      only if its configuration was lost in transport, or the second look established nothing. */
  predicate Vocabulary(e: Evidence) {
    var attempted := e.cleanup == Complete || e.cleanup == UncertainCleanup;
    match e.stage
    case DnsPreObservation => e.certainty == NoMutation && e.cleanup == NotRequired && e.tunnel.None?
    case TunnelAllocation => e.certainty == UncertainMutation && e.cleanup == Withheld && e.tunnel.None?
    case TunnelConfiguration =>
      && attempted && e.record.None?
      && e.certainty == if e.category == TransportFailure then UncertainMutation else TunnelCreated
    case DnsPreMutationObservation =>
      && (attempted || e.cleanup == Withheld)
      && e.certainty == (if attempted then TunnelCreated else UncertainMutation)
      && (e.category == DnsConflict ==> !attempted)
      && (e.category != DnsConflict && e.category != MalformedResponse ==> attempted)
    case DnsCreate => e.certainty == UncertainMutation && e.cleanup != NotRequired
    case DnsReconciliation => e.certainty == UncertainMutation && e.cleanup == Withheld && e.record.None?
    case TunnelToken => e.certainty == DnsAndTunnelCreated && e.cleanup == Complete
    case SecretCustody => e.certainty == DnsAndTunnelCreated && e.cleanup == Complete && e.category == CustodyFailure
    case Cleanup =>
      e.certainty == UncertainMutation && e.cleanup == UncertainCleanup && e.category == CleanupFailure
  }

  // ---- what a classification means when the listing is true ----

  ghost predicate OnlyRecord(w: World, hostname: string, id: string) {
    id in w.records && Named(w, hostname) == {id}
  }

  ghost predicate NoRecordNamed(w: World, hostname: string) {
    Named(w, hostname) == {}
  }

  /** What a look at a hostname says about the world it has read. */
  ghost predicate TrulyListed(w: World, hostname: string, tunnel: Option<string>, seen: HostnameObservation) {
    && (seen.state == Free ==> NoRecordNamed(w, hostname) && seen.record.None?)
    && (seen.state == Occupied || seen.state == TargetsTunnel ==>
          && seen.record.Some? && OnlyRecord(w, hostname, seen.record.value)
          && var record := w.records[seen.record.value];
             seen.state == TargetsTunnel <==>
               tunnel.Some? && record.kind == "CNAME" && record.content == TunnelTarget(tunnel.value))
    && (seen.state == Duplicate ==> |Named(w, hostname)| >= 2)
  }

  /** What a reconciliation that gives a definite answer says about the world it has read. */
  ghost predicate TrulyReconciled(w: World, hostname: string, tunnel: string, seen: HostnameObservation) {
    && (seen.state == Free ==> NoRecordNamed(w, hostname))
    && (seen.state == TargetsTunnel || seen.state == Occupied ==>
          && seen.record.Some? && OnlyRecord(w, hostname, seen.record.value)
          && (w.records[seen.record.value].content == TunnelTarget(tunnel) <==> seen.state == TargetsTunnel))
  }

  lemma OneEntry(w: World, hostname: string, raw: RawRecord) returns (id: string)
    requires TrueListing(w, hostname, [raw])
    ensures OnlyRecord(w, hostname, id) && Describes(raw, id, w.records[id])
  {
    id :| id in Named(w, hostname) && Named(w, hostname) == {id} && Describes([raw][0], id, w.records[id]);
  }

  /** A look answers free only of a name that no record has, and names the only one that has it;
      what it calls a conflict are several. */
  lemma ListingMeaning(w: World, records: seq<RawRecord>, hostname: string, tunnel: Option<string>)
    requires TrueListing(w, hostname, records)
    ensures TrulyListed(w, hostname, tunnel, ClassifyListing(records, hostname, tunnel))
  {
    if |records| == 1 {
      assert records == [records[0]];
      var id := OneEntry(w, hostname, records[0]);
    }
  }

  /** The fields of a record that a classifier needs are usable. */
  predicate Legible(id: string, record: Record) {
    ValidIdentifier(id) && !Blank(record.kind) && !Blank(record.name) && !Blank(record.content)
  }

  lemma IdentifierIsText(id: string)
    requires ValidIdentifier(id)
    ensures !Blank(id) && !Blank(TunnelTarget(id))
  {
    assert !IsSpace(id[0]) && !IsSpace(TunnelTarget(id)[0]);
  }

  /** Where nothing is left out of the answer, the look decides. */
  lemma ListingDecides(w: World, records: seq<RawRecord>, hostname: string, tunnel: Option<string>)
    requires FullListing(w, hostname, records)
    ensures var o := ClassifyListing(records, hostname, tunnel);
            && (NoRecordNamed(w, hostname) ==> o == HostnameObservation(Free, None))
            && (|Named(w, hostname)| >= 2 ==> o == HostnameObservation(Duplicate, None))
            && (forall id | OnlyRecord(w, hostname, id) && Legible(id, w.records[id]) ::
                  o.record == Some(id) && (o.state == Occupied || o.state == TargetsTunnel))
  {
    forall id | OnlyRecord(w, hostname, id) && Legible(id, w.records[id])
      ensures var o := ClassifyListing(records, hostname, tunnel);
              o.record == Some(id) && (o.state == Occupied || o.state == TargetsTunnel)
    {
      IdentifierIsText(id);
      assert id in Named(w, hostname);
    }
  }

  /** A reconciled hostname is free, or holds exactly the reported record with the reported
      relation to the tunnel, or the observation establishes nothing. */
  lemma ReconciliationMeaning(w: World, page: RawPage, hostname: string, tunnel: string)
    requires WholePage(page) ==> TrueListing(w, hostname, page.records.value)
    requires ClassifyPage(page, hostname, tunnel).Success?
    ensures TrulyReconciled(w, hostname, tunnel, ClassifyPage(page, hostname, tunnel).value)
  {
    if WholePage(page) && |page.records.value| == 1 {
      assert page.records.value == [page.records.value[0]];
      var id := OneEntry(w, hostname, page.records.value[0]);
    }
  }

  /** The one entry of a page is a proxied CNAME record of exactly this name. */
  predicate InOwnForm(raw: RawRecord, hostname: string) {
    && raw.Mapping? && raw.proxied
    && raw.id.Some? && ValidIdentifier(raw.id.value)
    && raw.kind == Some("CNAME") && raw.name == Some(hostname) && !Blank(hostname)
    && raw.content.Some? && !Blank(raw.content.value)
  }

  /** A page is read exactly: only a whole one is free, several or held by one record, and only an
      entry in the form of the run's own is taken for a record at all. */
  lemma PageIsReadExactly(page: RawPage, hostname: string, tunnel: string)
    ensures ClassifyPage(page, hostname, tunnel).Success? <==> page.records.Some?
    ensures page.records.Some? ==>
              var o, records := ClassifyPage(page, hostname, tunnel).value, page.records.value;
              && (o.state == Free <==> WholePage(page) && records == [])
              && (o.state == Duplicate <==> WholePage(page) && |records| == 2)
              && (o.state == TargetsTunnel <==>
                    && WholePage(page) && |records| == 1 && InOwnForm(records[0], hostname)
                    && records[0].content == Some(TunnelTarget(tunnel)))
              && (o.state == Occupied <==>
                    && WholePage(page) && |records| == 1 && InOwnForm(records[0], hostname)
                    && records[0].content != Some(TunnelTarget(tunnel)))
              && (o.record.Some? ==> |records| == 1 && records[0].Mapping? && records[0].id == o.record)
  {
    assert !IsSpace("CNAME"[0]);
    if page.records.Some? && |page.records.value| == 1 && page.records.value[0].Mapping? {
      var id := page.records.value[0].id;
      if id.Some? && ValidIdentifier(id.value) {
        IdentifierIsText(id.value);
      }
    }
  }
}
