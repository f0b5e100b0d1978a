// One effect executed through an invocation port: every secret is resolved before the single
// dispatch, and the dispatch works with exactly what was prepared.

module InvokedRun {
  import opened Wrappers
  import opened Invocations
  import opened PreparedSecrets

  datatype Operation = NodeOperation | CleanupOperation | HealthWait | OtherOperation

  datatype Authority =
    | LocalSocket
    | RemoteTls(endpointUsable: bool, ca: Option<string>, certificate: Option<string>, key: Option<string>)
    | OtherAuthority
    | ForeignRuntime

  datatype PullAuthority = PullAuthority(covers: bool, reference: string)

  datatype Request = Request(
    known: bool, configuration: bool, docker: bool, wellFormed: bool, operation: Operation,
    grants: seq<Grant>, deliveries: seq<Delivery>, selections: seq<Selection>, pull: Option<PullAuthority>,
    authorityDeliveries: bool)

  datatype Kind = Unsupported | Failed | Uncertain | Succeeded

  datatype Ending = Ended(kind: Kind) | Raises(raised: Raised)

  const PULL_INTENT := "oci-pull-credential"
  const CA_INTENT := "docker-remote-tls-ca-certificate"
  const CERTIFICATE_INTENT := "docker-remote-tls-client-certificate"
  const KEY_INTENT := "docker-remote-tls-client-key"
  const MAX_SELECTED_FILES := 32

  function FileCount(ds: seq<Delivery>): nat {
    if ds == [] then 0 else (if ds[0].File? then 1 else 0) + FileCount(ds[1..])
  }

  predicate AdmitsSelections(req: Request, present: bool) {
    req.operation.NodeOperation? && req.selections != [] ==>
      && present
      && (forall i | 0 <= i < |req.selections| :: SelectedGrantFor(req.grants, req.selections[i]).Some?)
      && FileCount(req.deliveries) <= MAX_SELECTED_FILES
  }

  /** The material of the node's product, as the answers determine it. */
  function Product(req: Request, present: bool, answers: map<Grant, Answer>): Interpretation<Material> {
    if req.selections != [] then SelectedMaterial(req.deliveries, req.selections, req.grants, answers)
    else if present then DeliverAll(req.deliveries, req.grants, answers)
    else if req.deliveries == [] then Done(EMPTY)
    else Fails(MissingSecret)
  }

  /** The image pull credential; `parse` stands for the credential document's own reader. */
  function Pull(req: Request, present: bool, parse: string -> Option<string>, answers: map<Grant, Answer>)
    : Interpretation<Option<string>>
  {
    if req.pull.None? then Done(None)
    else if !req.pull.value.covers then Fails(OutOfScope)
    else if !present then Fails(MissingSecret)
    else
      match Authorized(answers, req.grants, req.pull.value.reference, PULL_INTENT)
      case Needs(g) => Needs(g)
      case Fails(code) => Fails(code)
      case Done(value) => if parse(value).None? then Fails(InvalidResult) else Done(parse(value))
  }

  /** One secret of a remote connection. */
  function TlsOne(req: Request, reference: Option<string>, intent: string, answers: map<Grant, Answer>)
    : Interpretation<string>
  {
    if reference.None? then Fails(MalformedReference) else Authorized(answers, req.grants, reference.value, intent)
  }

  function TlsRest(req: Request, authority: Authority, answers: map<Grant, Answer>): Interpretation<string>
    requires authority.RemoteTls?
  {
    var certificate := TlsOne(req, authority.certificate, CERTIFICATE_INTENT, answers);
    if certificate.Done? then TlsOne(req, authority.key, KEY_INTENT, answers) else certificate
  }

  /** All three, in their order. */
  function Tls(req: Request, authority: Option<Authority>, answers: map<Grant, Answer>): Interpretation<string> {
    if authority.None? || !authority.value.RemoteTls? then Done("")
    else
      var ca := TlsOne(req, authority.value.ca, CA_INTENT, answers);
      if ca.Done? then TlsRest(req, authority.value, answers) else ca
  }

  lemma OneWithMore(req: Request, reference: Option<string>, intent: string, less: map<Grant, Answer>,
                    more: map<Grant, Answer>)
    requires Extends(less, more) && !TlsOne(req, reference, intent, less).Needs?
    ensures TlsOne(req, reference, intent, more) == TlsOne(req, reference, intent, less)
  {
  }

  lemma TlsWithMore(req: Request, authority: Option<Authority>, less: map<Grant, Answer>, more: map<Grant, Answer>)
    requires Extends(less, more) && !Tls(req, authority, less).Needs?
    ensures Tls(req, authority, more) == Tls(req, authority, less)
  {
  }

  lemma ProductWithMore(req: Request, present: bool, less: map<Grant, Answer>, more: map<Grant, Answer>)
    requires Extends(less, more) && !Product(req, present, less).Needs?
    ensures Product(req, present, more) == Product(req, present, less)
  {
    if req.selections != [] {
      SelectWithMore(req.selections, req.grants, less, more);
    } else if present {
      DeliverWithMore(req.deliveries, req.grants, less, more);
    }
  }

  // ---- which ending a run has ----

  /** No activity, authority or runtime that is supported: only the local socket, or for anything
      but a cleanup, where no local policy is set and no authority is delivered, a remote one. */
  predicate NotSupported(req: Request, authority: Option<Authority>, localPolicy: bool) {
    || (req.configuration && req.operation.OtherOperation?)
    || (authority.None? && localPolicy)
    || (authority.Some? && !authority.value.LocalSocket?
        && (!authority.value.RemoteTls? || localPolicy || req.operation.CleanupOperation? || req.authorityDeliveries))
  }

  /** The request contradicts itself, or its selected versions are not covered one by one. */
  ghost predicate IllFormed(req: Request, configured: bool) {
    || !req.wellFormed
    || (&& req.operation.NodeOperation? && req.selections != []
        && (|| !configured || FileCount(req.deliveries) > 32
            || exists s | s in req.selections :: !exists g :: OnlyVersion(req.grants, s, g)))
  }

  /** A remote authority without a usable endpoint, or without a resolver for its secrets. */
  predicate Unreachable(authority: Option<Authority>, configured: bool) {
    authority.Some? && authority.value.RemoteTls? && (!authority.value.endpointUsable || !configured)
  }

  /** An exception that stopped the preparation: controls and cancellations go through, a secret's
      refusal is a failure, and anything else is of this kind. */
  predicate Interrupts(x: Raised, otherwise: Kind, e: Ending) {
    && (x == ControlError || x == PortError || x == Cancelled ==> e == Raises(x))
    && (x.SecretFailure? ==> e == Ended(Failed))
    && (x == OtherError ==> e == Ended(otherwise))
  }

  /** How an interpretation of the answers ends the preparation: a refusal is a failure, and a grant
      without an answer was interrupted by this exception. */
  predicate StopsAt<T>(i: Interpretation<T>, x: Raised, otherwise: Kind, e: Ending) {
    match i
    case Fails(_) => e == Ended(Failed)
    case Needs(_) => Interrupts(x, otherwise, e)
    case Done(_) => false
  }

  /** What the dispatch answered is the ending, if it was acknowledged; otherwise that is raised,
      except in place of a control error or a cancellation. A dispatch that was not admitted raises
      why. */
  predicate DispatchEnds(answer: Option<Result<Kind, Raised>>, acknowledged: bool, refused: Raised, e: Ending) {
    match answer
    case None => e == Raises(refused)
    case Some(Success(kind)) => e == if acknowledged then Ended(kind) else Raises(refused)
    case Some(Failure(x)) =>
      e == if acknowledged || x == ControlError || x == Cancelled then Raises(x) else Raises(refused)
  }

  /** One run: what it was asked, what the grants were answered in the end, the exception that
      stopped the preparation if one did, the dispatch's answer if it was reached, and what the port
      has raised if it refused to admit or to acknowledge it. */
  datatype Course = Course(
    req: Request, authority: Option<Authority>, configured: bool, localPolicy: bool, parse: string -> Option<string>,
    answers: map<Grant, Answer>, interruption: Raised, answer: Option<Result<Kind, Raised>>, acknowledged: bool,
    refused: Raised)

  /** Everything that the dispatch asks for has an answer. */
  predicate AllAnswered(c: Course) {
    && Tls(c.req, c.authority, c.answers).Done?
    && (c.req.operation.NodeOperation? ==>
          Product(c.req, c.configured, c.answers).Done? && Pull(c.req, c.configured, c.parse, c.answers).Done?)
  }

  /** How the resolution of what the dispatch asks for is stopped: while the product's material is
      resolved an exception is a failure, while anything else is it is an uncertainty. */
  predicate ResolutionStops(c: Course, e: Ending) {
    var tls, product := Tls(c.req, c.authority, c.answers), Product(c.req, c.configured, c.answers);
    if !tls.Done? then StopsAt(tls, c.interruption, Uncertain, e)
    else if !c.req.operation.NodeOperation? then false
    else if !product.Done? then StopsAt(product, c.interruption, Failed, e)
    else StopsAt(Pull(c.req, c.configured, c.parse, c.answers), c.interruption, Uncertain, e)
  }

  /** The request passes the first checks. */
  ghost predicate Passes(c: Course) {
    && c.req.known && c.req.docker && !IllFormed(c.req, c.configured)
    && !NotSupported(c.req, c.authority, c.localPolicy) && !Unreachable(c.authority, c.configured)
  }

  /** Which ending every run has. */
  ghost predicate EndsAs(c: Course, sent: seq<Bracket>, e: Ending) {
    if !c.req.known || !c.req.docker then e == Ended(Unsupported) && sent == []
    else if IllFormed(c.req, c.configured) then e == Ended(Failed) && sent == []
    else if NotSupported(c.req, c.authority, c.localPolicy) then e == Ended(Unsupported) && sent == []
    else if Unreachable(c.authority, c.configured) then e == Ended(Failed) && sent == []
    else if !AllAnswered(c) then ResolutionStops(c, e)
    else DispatchEnds(c.answer, c.acknowledged, c.refused, e)
  }

  /** The dispatch was reached exactly if its bracket is the last one sent. */
  ghost predicate DispatchShown(c: Course, sent: seq<Bracket>) {
    && (c.answer.Some? <==> sent != [] && sent[|sent| - 1].call == RuntimeDispatch)
    && (c.answer.Some? ==>
          && Passes(c) && AllAnswered(c)
          && sent[|sent| - 1].recorded == match c.answer.value
                                          case Success(_) => Some(Returned)
                                          case Failure(x) => if x == ControlError then None else Some(Unknown))
  }

  /** A run that ends as succeeded has dispatched, and the dispatch has answered just that. */
  lemma SuccessWasAnswered(c: Course, sent: seq<Bracket>, e: Ending)
    requires EndsAs(c, sent, e) && DispatchShown(c, sent) && e == Ended(Succeeded)
    ensures c.answer == Some(Success(Succeeded)) && c.acknowledged
    ensures sent != [] && sent[|sent| - 1] == Bracket(RuntimeDispatch, Some(Returned)) && AllAnswered(c)
  {
  }

  /** The reference has resolved to a value for just this use. */
  ghost predicate Usable(c: Course, reference: Option<string>, intent: string) {
    reference.Some? && exists v :: ResolvedTo(c.req.grants, c.answers, reference.value, intent, v)
  }

  /** A remote connection has its three secrets. */
  ghost predicate Connectable(c: Course) {
    c.authority.Some? && c.authority.value.RemoteTls? ==>
      && Usable(c, c.authority.value.ca, "docker-remote-tls-ca-certificate")
      && Usable(c, c.authority.value.certificate, "docker-remote-tls-client-certificate")
      && Usable(c, c.authority.value.key, "docker-remote-tls-client-key")
  }

  /** The image can be pulled: without a credential, or with one that its authority covers. */
  ghost predicate Pullable(c: Course) {
    c.req.pull.Some? ==>
      && c.req.pull.value.covers && c.configured
      && exists v ::
           ResolvedTo(c.req.grants, c.answers, c.req.pull.value.reference, "oci-pull-credential", v) && c.parse(v).Some?
  }

  lemma UsableIs(c: Course, reference: Option<string>, intent: string)
    ensures TlsOne(c.req, reference, intent, c.answers).Done? <==> Usable(c, reference, intent)
  {
    if reference.Some? {
      forall v
        ensures Authorized(c.answers, c.req.grants, reference.value, intent) == Done(v) <==>
                  ResolvedTo(c.req.grants, c.answers, reference.value, intent, v)
      {
        AuthorizedMeans(c.answers, c.req.grants, reference.value, intent, v);
      }
    }
  }

  lemma PullableIs(c: Course)
    ensures Pull(c.req, c.configured, c.parse, c.answers).Done? <==> Pullable(c)
  {
    if c.req.pull.Some? {
      var reference := c.req.pull.value.reference;
      forall v
        ensures Authorized(c.answers, c.req.grants, reference, PULL_INTENT) == Done(v) <==>
                  ResolvedTo(c.req.grants, c.answers, reference, PULL_INTENT, v)
      {
        AuthorizedMeans(c.answers, c.req.grants, reference, PULL_INTENT, v);
      }
    }
  }

  /** What a run must have been answered before it dispatches. */
  lemma AnsweredMeans(c: Course)
    ensures AllAnswered(c) <==>
              && Connectable(c)
              && (c.req.operation.NodeOperation? ==> Product(c.req, c.configured, c.answers).Done? && Pullable(c))
  {
    if c.authority.Some? && c.authority.value.RemoteTls? {
      UsableIs(c, c.authority.value.ca, CA_INTENT);
      UsableIs(c, c.authority.value.certificate, CERTIFICATE_INTENT);
      UsableIs(c, c.authority.value.key, KEY_INTENT);
    }
    PullableIs(c);
  }

  lemma SelectionsCovered(req: Request, configured: bool)
    ensures !req.wellFormed || !AdmitsSelections(req, configured) <==> IllFormed(req, configured)
  {
    forall s | s in req.selections
      ensures SelectedGrantFor(req.grants, s).Some? <==> exists g :: OnlyVersion(req.grants, s, g)
    {
      GrantIsTheOnlyOne(req.grants, "", "", s);
      if SelectedGrantFor(req.grants, s).Some? {
        assert OnlyVersion(req.grants, s, SelectedGrantFor(req.grants, s).value);
      }
      if g :| OnlyVersion(req.grants, s, g) {
        assert SelectedGrantFor(req.grants, s) == Some(g);
      }
    }
  }

  // ---- what a run may have admitted ----

  /** The shape of a run: pairwise different calls, a dispatch only as the last, and a call left
      unrecorded only as the last and only for a control error that is raised. */
  ghost predicate Lawful(sent: seq<Bracket>, e: Ending) {
    && (forall i, j | 0 <= i < j < |sent| :: sent[i].call != sent[j].call)
    && (forall i | 0 <= i < |sent| - 1 :: sent[i].call.SecretResolution? && sent[i].recorded == Some(Returned))
    && (sent != [] && sent[|sent| - 1].recorded.None? ==> e == Raises(ControlError))
  }

  lemma PreparationIsLawful(entries: seq<Entry>, sent: seq<Bracket>, failed: bool, e: Ending)
    requires Grown([], entries, sent, failed)
    requires forall b | b in sent && b.recorded.None? :: e == Raises(ControlError)
    ensures Lawful(sent, e)
    ensures forall i | 0 <= i < |sent| :: sent[i].call.SecretResolution?
    ensures !failed ==> forall i | 0 <= i < |sent| :: sent[i].recorded == Some(Returned)
  {
    AnswersOfEntries(entries);
    var k := |entries|;
    forall i, j | 0 <= i < j < |sent| ensures sent[i].call != sent[j].call {
      assert sent[i] == Bracket(SecretResolution(entries[i].grant), Some(Returned));
      if j < k {
        assert sent[j] == Bracket(SecretResolution(entries[j].grant), Some(Returned));
      } else {
        assert entries[i].grant in AnswersOf(entries);
      }
    }
  }

  lemma DispatchIsLawful(entries: seq<Entry>, sent: seq<Bracket>, b: Bracket, e: Ending)
    requires Grown([], entries, sent, false) && b.call == RuntimeDispatch
    requires b.recorded.None? ==> e == Raises(ControlError)
    ensures Lawful(sent + [b], e)
  {
    PreparationIsLawful(entries, sent, false, Ended(Succeeded));
  }

  lemma RunIsLawful(entries: seq<Entry>, prepared: seq<Bracket>, b: seq<Bracket>, e: Ending)
    requires Grown([], entries, prepared, false) && |b| <= 1
    requires b != [] ==> b[0].call == RuntimeDispatch && (b[0].recorded.None? ==> e == Raises(ControlError))
    requires forall x | x in prepared :: x.recorded.Some?
    ensures Lawful(prepared + b, e)
  {
    if b == [] {
      assert prepared + b == prepared;
      PreparationIsLawful(entries, prepared, false, e);
    } else {
      assert b == [b[0]];
      DispatchIsLawful(entries, prepared, b[0], e);
    }
  }

  /** A dispatch that was admitted sends its bracket and ends as it has answered. */
  ghost predicate DispatchSent(answer: Option<Result<Kind, Raised>>, b: seq<Bracket>, acknowledged: bool,
                               refused: Raised, e: Ending) {
    && DispatchEnds(answer, acknowledged, refused, e)
    && b == match answer
            case None => []
            case Some(a) =>
              [Bracket(RuntimeDispatch, if a == Failure(ControlError) then None
                                        else Some(if a.Success? then Returned else Unknown))]
  }

  lemma StoppedIsLawful(c: Course, entries: seq<Entry>, sent: seq<Bracket>, e: Ending)
    requires Grown([], entries, sent, true) && c.answer.None?
    requires forall b | b in sent && b.recorded.None? :: e == Raises(ControlError)
    ensures Lawful(sent, e) && DispatchShown(c, sent)
  {
    PreparationIsLawful(entries, sent, true, e);
  }

  /** The same run, in the end. */
  ghost predicate Continues(c: Course, d: Course) {
    d == c.(interruption := d.interruption, answer := d.answer, acknowledged := d.acknowledged, refused := d.refused)
  }

  lemma DispatchedEnds(c: Course, d: Course, entries: seq<Entry>, prepared: seq<Bracket>, b: seq<Bracket>, e: Ending)
    requires Passes(c) && AllAnswered(c) && Continues(c, d) && Grown([], entries, prepared, false)
    requires forall x | x in prepared :: x.recorded.Some?
    requires DispatchSent(d.answer, b, d.acknowledged, d.refused, e)
    ensures Lawful(prepared + b, e)
    ensures EndsAs(d, prepared + b, e) && DispatchShown(d, prepared + b)
  {
    PreparationIsLawful(entries, prepared, false, e);
    RunIsLawful(entries, prepared, b, e);
    if d.answer.None? {
      assert prepared + b == prepared;
    } else {
      assert (prepared + b)[|prepared + b| - 1] == b[0];
    }
  }

  // ---- the run ----

  /** How preparation maps what it caught: controls and non-exceptions go through. */
  function Caught(e: Raised, otherwise: Kind): Ending {
    match e
    case ControlError => Raises(e)
    case PortError => Raises(e)
    case Cancelled => Raises(e)
    case SecretFailure(_) => Ended(Failed)
    case OtherError => Ended(otherwise)
  }

  class Interpreter {
    const port: Port
    const resolver: PreparedResolver
    const configured: bool
    const localPolicy: bool
    const parse: string -> Option<string>

    constructor (port: Port, configured: bool, localPolicy: bool, parse: string -> Option<string>)
      ensures this.port == port && this.configured == configured && this.localPolicy == localPolicy
      ensures fresh(resolver) && resolver.port == port && resolver.entries == [] && !resolver.isSealed
    {
      this.port := port;
      this.configured := configured;
      this.localPolicy := localPolicy;
      this.parse := parse;
      resolver := new PreparedResolver(port);
    }

    ghost predicate Valid()
      reads this, resolver
    {
      resolver.port == port && resolver.Valid()
    }

    method ResolveProduct(req: Request) returns (r: Result<Material, Raised>, ghost sent: seq<Bracket>)
      requires Valid() && (req.selections != [] ==> configured)
      modifies resolver, port
      ensures resolver.Consulted(old(resolver.Now()), sent, r)
      ensures Follows(Product(req, configured, old(resolver.Answers())),
                      Product(req, configured, resolver.Answers()), resolver.interrupted, sent, r)
    {
      if req.selections != [] {
        r, sent := resolver.ResolveSelected(req.deliveries, req.selections, req.grants);
      } else if configured {
        r, sent := resolver.ResolveAuthorized(req.deliveries, req.grants);
      } else {
        GrownNothing(resolver.entries);
        sent := [];
        r := if req.deliveries == [] then Success(EMPTY) else Failure(SecretFailure(MissingSecret));
      }
    }

    method PullCredential(req: Request) returns (r: Result<Option<string>, Raised>, ghost sent: seq<Bracket>)
      requires Valid()
      modifies resolver, port
      ensures resolver.Consulted(old(resolver.Now()), sent, r)
      ensures Follows(Pull(req, configured, parse, old(resolver.Answers())),
                      Pull(req, configured, parse, resolver.Answers()), resolver.interrupted, sent, r)
    {
      GrownNothing(resolver.entries);
      sent := [];
      if req.pull.None? {
        return Success(None), [];
      }
      if !req.pull.value.covers {
        return Failure(SecretFailure(OutOfScope)), [];
      }
      if !configured {
        return Failure(SecretFailure(MissingSecret)), [];
      }
      var reference := req.pull.value.reference;
      var grant := GrantFor(req.grants, reference, PULL_INTENT);
      if grant.None? {
        return Failure(SecretFailure(DeniedSecret)), [];
      }
      var value;
      value, sent := resolver.RequireGrant(grant.value, reference);
      r := match value
           case Failure(e) => Failure(e)
           case Success(v) => if parse(v).None? then Failure(SecretFailure(InvalidResult)) else Success(parse(v));
    }

    method TlsSecret(req: Request, reference: Option<string>, intent: string)
      returns (r: Result<string, Raised>, ghost sent: seq<Bracket>)
      requires Valid()
      modifies resolver, port
      ensures resolver.Consulted(old(resolver.Now()), sent, r)
      ensures Follows(TlsOne(req, reference, intent, old(resolver.Answers())),
                      TlsOne(req, reference, intent, resolver.Answers()), resolver.interrupted, sent, r)
    {
      GrownNothing(resolver.entries);
      if reference.None? {
        return Failure(SecretFailure(MalformedReference)), [];
      }
      var grant := GrantFor(req.grants, reference.value, intent);
      if grant.None? {
        return Failure(SecretFailure(DeniedSecret)), [];
      }
      r, sent := resolver.RequireGrant(grant.value, reference.value);
    }

    /** The client's certificate and then its key. */
    method PrepareTlsRest(req: Request, authority: Authority)
      returns (r: Result<string, Raised>, ghost sent: seq<Bracket>)
      requires Valid() && authority.RemoteTls?
      modifies resolver, port
      ensures resolver.Consulted(old(resolver.Now()), sent, r)
      ensures r == Answered(TlsRest(req, authority, resolver.Answers()), resolver.interrupted)
    {
      ghost var before := resolver.Now();
      r, sent := TlsSecret(req, authority.certificate, CERTIFICATE_INTENT);
      if r.Failure? {
        return;
      }
      ghost var middle, first, more := resolver.Now(), r, [];
      r, more := TlsSecret(req, authority.key, KEY_INTENT);
      ProgressedThen(before, middle, resolver.Now(), sent, more, first, r);
      sent := sent + more;
      MoreEntries(middle.entries, resolver.entries);
      OneWithMore(req, authority.certificate, CERTIFICATE_INTENT, AnswersOf(middle.entries), resolver.Answers());
    }

    /** Resolves the connection material of a remote authority, without connecting. */
    method PrepareTls(req: Request, authority: Authority) returns (r: Result<string, Raised>, ghost sent: seq<Bracket>)
      requires Valid() && authority.RemoteTls?
      modifies resolver, port
      ensures resolver.Consulted(old(resolver.Now()), sent, r)
      ensures r == Answered(Tls(req, Some(authority), resolver.Answers()), resolver.interrupted)
    {
      ghost var before := resolver.Now();
      r, sent := TlsSecret(req, authority.ca, CA_INTENT);
      if r.Failure? {
        return;
      }
      ghost var middle, first, more := resolver.Now(), r, [];
      r, more := PrepareTlsRest(req, authority);
      ProgressedThen(before, middle, resolver.Now(), sent, more, first, r);
      sent := sent + more;
      MoreEntries(middle.entries, resolver.entries);
      OneWithMore(req, authority.ca, CA_INTENT, AnswersOf(middle.entries), resolver.Answers());
    }

    /** Validates the authority and resolves the connection material, without connecting. */
    method PrepareAuthority(req: Request, authority: Authority)
      returns (stop: Option<Ending>, ghost sent: seq<Bracket>)
      requires Valid() && (req.operation.CleanupOperation? ==> authority.LocalSocket?)
      requires !(req.configuration && req.operation.OtherOperation?)
      modifies resolver, port
      ensures stop.None? ==> resolver.Consulted(old(resolver.Now()), sent, Success(()))
      ensures stop.Some? ==> resolver.Consulted(old(resolver.Now()), sent, Stopped(stop.value))
      ensures NotSupported(req, Some(authority), localPolicy) ==> stop == Some(Ended(Unsupported)) && sent == []
      ensures !NotSupported(req, Some(authority), localPolicy) ==>
                if Unreachable(Some(authority), configured) then stop == Some(Ended(Failed)) && sent == []
                else
                  var tls := Tls(req, Some(authority), resolver.Answers());
                  if tls.Done? then stop.None?
                  else stop.Some? && StopsAt(tls, resolver.interrupted, Uncertain, stop.value)
    {
      GrownNothing(resolver.entries);
      sent := [];
      if authority.ForeignRuntime? {
        return Some(Ended(Unsupported)), [];
      }
      if localPolicy {
        return if authority.LocalSocket? then None else Some(Ended(Unsupported)), [];
      }
      if authority.LocalSocket? {
        return None, [];
      }
      if !authority.RemoteTls? || req.authorityDeliveries {
        return Some(Ended(Unsupported)), [];
      }
      if !authority.endpointUsable || !configured {
        return Some(Ended(Failed)), [];
      }
      var secret;
      secret, sent := PrepareTls(req, authority);
      stop := if secret.Failure? then Some(Caught(secret.error, Uncertain)) else None;
    }

    /** Resolves what the dispatch will ask for. */
    method PrepareMaterial(req: Request) returns (stop: Option<Ending>, ghost sent: seq<Bracket>)
      requires Valid() && AdmitsSelections(req, configured) && req.operation.NodeOperation?
      modifies resolver, port
      ensures stop.None? ==> resolver.Consulted(old(resolver.Now()), sent, Success(())) && Ready(req)
      ensures stop.Some? ==> resolver.Consulted(old(resolver.Now()), sent, Stopped(stop.value))
      ensures stop.Some? ==>
                var product := Product(req, configured, resolver.Answers());
                if !product.Done? then StopsAt(product, resolver.interrupted, Failed, stop.value)
                else
                  StopsAt(Pull(req, configured, parse, resolver.Answers()), resolver.interrupted, Uncertain, stop.value)
    {
      ghost var before, more := resolver.Now(), [];
      var material;
      material, sent := ResolveProduct(req);
      if material.Failure? {
        return Some(Caught(material.error, Failed)), sent;
      }
      ghost var middle := resolver.Now();
      var credential;
      credential, more := PullCredential(req);
      ProgressedThen(before, middle, resolver.Now(), sent, more, material, credential);
      sent := sent + more;
      MoreEntries(middle.entries, resolver.entries);
      ProductWithMore(req, configured, AnswersOf(middle.entries), resolver.Answers());
      if credential.Failure? {
        return Some(Caught(credential.error, Uncertain)), sent;
      }
      stop := None;
    }

    /** Everything the dispatch can ask for is already answered. */
    ghost predicate Ready(req: Request)
      reads resolver
    {
      req.operation.NodeOperation? ==>
        && (req.selections != [] ==> configured)
        && Product(req, configured, resolver.Answers()).Done?
        && Pull(req, configured, parse, resolver.Answers()).Done?
    }

    /** Asking again, as the node operation does from inside its dispatch. */
    method AskAgain(req: Request) returns (material: Material, credential: Option<string>)
      requires Valid() && resolver.isSealed && Ready(req) && req.operation.NodeOperation?
      modifies resolver, port
      ensures resolver.Now() == old(resolver.Now())
      ensures Product(req, configured, resolver.Answers()) == Done(material)
      ensures Pull(req, configured, parse, resolver.Answers()) == Done(credential)
    {
      var product, sent := ResolveProduct(req);
      material := product.value;
      assert sent == [] && Flatten(sent) == [];
      assert resolver.entries == old(resolver.entries);
      var pulled;
      pulled, sent := PullCredential(req);
      credential := pulled.value;
      assert sent == [] && resolver.entries == old(resolver.entries);
    }

    /** The dispatched body: it may fail at any point, and a node operation may ask for its
        material, which it is given without any further admission. */
    method Dispatch(req: Request) returns (r: Result<Kind, Raised>, ghost given: Option<Material>)
      requires Valid() && resolver.isSealed && Ready(req)
      modifies resolver, port
      ensures resolver.Now() == old(resolver.Now())
      ensures given.Some? ==> Product(req, configured, old(resolver.Answers())) == Done(given.value)
    {
      given := None;
      var asks: bool := *;
      if asks && req.operation.NodeOperation? {
        var material, credential := AskAgain(req);
        given := Some(material);
      }
      r := *;
    }

    /** This run, with what has been answered so far. */
    ghost function CourseOf(req: Request, authority: Option<Authority>, answer: Option<Result<Kind, Raised>>)
      : Course
      reads resolver, port
    {
      Course(req, authority, configured, localPolicy, parse, resolver.Answers(), resolver.interrupted, answer,
             port.acknowledged, port.refused)
    }

    method InvokeDispatch(req: Request)
      returns (e: Ending, ghost b: seq<Bracket>, ghost answer: Option<Result<Kind, Raised>>)
      requires Valid() && resolver.isSealed && Ready(req)
      modifies resolver, port
      ensures resolver.entries == old(resolver.entries)
      ensures port.events == old(port.events) + Flatten(b)
      ensures DispatchSent(answer, b, port.acknowledged, port.refused, e)
    {
      b, answer := [], None;
      var admitted := port.Admit(RuntimeDispatch);
      if admitted.Failure? {
        return Raises(admitted.error), [], None;
      }
      port.Reach(RuntimeDispatch);
      var dispatched: Result<Kind, Raised>;
      ghost var given, end;
      dispatched, given := Dispatch(req);
      answer := Some(dispatched);
      var r;
      r, end := port.Conclude(RuntimeDispatch, dispatched);
      b := [Bracket(RuntimeDispatch, end)];
      FlattenOne(b[0]);
      e := match r case Success(kind) => Ended(kind) case Failure(x) => Raises(x);
    }

    /** The authority the run is bound to, if it is bound to one. */
    method AdmitAuthority(req: Request, authority: Option<Authority>)
      returns (stop: Option<Ending>, ghost sent: seq<Bracket>)
      requires Valid() && req.known && req.docker && !IllFormed(req, configured)
      requires !(req.configuration && req.operation.OtherOperation?)
      modifies resolver, port
      ensures stop.None? ==> resolver.Consulted(old(resolver.Now()), sent, Success(()))
      ensures stop.Some? ==> resolver.Consulted(old(resolver.Now()), sent, Stopped(stop.value))
      ensures stop.None? || EndsAs(CourseOf(req, authority, None), sent, stop.value)
      ensures stop.Some? ||
              (Passes(CourseOf(req, authority, None)) && Tls(req, authority, resolver.Answers()).Done?)
    {
      GrownNothing(resolver.entries);
      sent := [];
      if authority.None? {
        return if localPolicy then Some(Ended(Unsupported)) else None, [];
      }
      if req.operation.CleanupOperation? && !authority.value.LocalSocket? {
        return Some(Ended(Unsupported)), [];
      }
      stop, sent := PrepareAuthority(req, authority.value);
    }

    /** Prepares a request that has passed the first checks: the authority, then the material. */
    method PrepareChecked(req: Request, authority: Option<Authority>)
      returns (stop: Option<Ending>, ghost sent: seq<Bracket>)
      requires Valid() && AdmitsSelections(req, configured)
      requires req.known && req.docker && !IllFormed(req, configured)
      requires !(req.configuration && req.operation.OtherOperation?)
      modifies resolver, port
      ensures stop.None? ==> resolver.Consulted(old(resolver.Now()), sent, Success(())) && Ready(req)
      ensures stop.Some? ==> resolver.Consulted(old(resolver.Now()), sent, Stopped(stop.value))
      ensures stop.None? || EndsAs(CourseOf(req, authority, None), sent, stop.value)
      ensures stop.Some? || (Passes(CourseOf(req, authority, None)) && AllAnswered(CourseOf(req, authority, None)))
    {
      stop, sent := AdmitAuthority(req, authority);
      if stop.Some? || !req.operation.NodeOperation? {
        return;
      }
      ghost var before, middle, more := old(resolver.Now()), resolver.Now(), [];
      stop, more := PrepareMaterial(req);
      ProgressedThen(before, middle, resolver.Now(), sent, more, Success(()),
                     if stop.None? then Success(()) else Stopped(stop.value));
      sent := sent + more;
      MoreEntries(middle.entries, resolver.entries);
      TlsWithMore(req, authority, AnswersOf(middle.entries), resolver.Answers());
    }

    method Prepare(req: Request, authority: Option<Authority>)
      returns (stop: Option<Ending>, ghost sent: seq<Bracket>)
      requires Valid() && resolver.entries == [] && !resolver.isSealed && req.known && req.docker
      modifies resolver, port
      ensures resolver.Valid()
      ensures Grown([], resolver.entries, sent, stop.Some?)
      ensures port.events == old(port.events) + Flatten(sent)
      ensures forall b | b in sent && b.recorded.None? :: stop == Some(Raises(ControlError))
      ensures stop.None? ==> resolver.isSealed && Ready(req)
      ensures stop.None? || EndsAs(CourseOf(req, authority, None), sent, stop.value)
      ensures stop.Some? || (Passes(CourseOf(req, authority, None)) && AllAnswered(CourseOf(req, authority, None)))
    {
      GrownNothing(resolver.entries);
      SelectionsCovered(req, configured);
      sent := [];
      if !req.wellFormed || !AdmitsSelections(req, configured) {
        return Some(Ended(Failed)), [];
      }
      if req.configuration && req.operation.OtherOperation? {
        return Some(Ended(Unsupported)), [];
      }
      stop, sent := PrepareChecked(req, authority);
      if stop.None? {
        resolver.Seal();
      }
    }

    /** Dispatches what has been prepared. */
    method DispatchPrepared(req: Request, authority: Option<Authority>, ghost prepared: seq<Bracket>)
      returns (e: Ending, ghost b: seq<Bracket>, ghost c: Course)
      requires Valid() && resolver.isSealed && Ready(req) && Grown([], resolver.entries, prepared, false)
      requires forall x | x in prepared :: x.recorded.Some?
      requires Passes(CourseOf(req, authority, None)) && AllAnswered(CourseOf(req, authority, None))
      modifies resolver, port
      ensures port.events == old(port.events) + Flatten(b)
      ensures Lawful(prepared + b, e)
      ensures c == CourseOf(req, authority, c.answer)
      ensures EndsAs(c, prepared + b, e) && DispatchShown(c, prepared + b)
    {
      ghost var answer, before := None, CourseOf(req, authority, None);
      e, b, answer := InvokeDispatch(req);
      c := CourseOf(req, authority, answer);
      DispatchedEnds(before, c, resolver.entries, prepared, b, e);
    }

    method ExecuteKnown(req: Request, authority: Option<Authority>)
      returns (e: Ending, ghost sent: seq<Bracket>, ghost c: Course)
      requires Valid() && resolver.entries == [] && !resolver.isSealed && req.known && req.docker
      modifies resolver, port
      ensures port.events == old(port.events) + Flatten(sent)
      ensures Lawful(sent, e)
      ensures c == CourseOf(req, authority, c.answer)
      ensures EndsAs(c, sent, e) && DispatchShown(c, sent)
    {
      var stop;
      stop, sent := Prepare(req, authority);
      if stop.Some? {
        c := CourseOf(req, authority, None);
        StoppedIsLawful(c, resolver.entries, sent, stop.value);
        return stop.value, sent, c;
      }
      ghost var b;
      e, b, c := DispatchPrepared(req, authority, sent);
      FlattenConcat(sent, b);
      sent := sent + b;
    }

    /** Runs one effect with a port: prepare, seal, dispatch. The ending is the dispatch's own answer
        if it was reached and acknowledged, and otherwise what stopped the preparation. */
    method Execute(req: Request, authority: Option<Authority>)
      returns (e: Ending, ghost sent: seq<Bracket>, ghost c: Course)
      requires Valid() && resolver.entries == [] && !resolver.isSealed && !req.operation.HealthWait?
      modifies resolver, port
      ensures port.events == old(port.events) + Flatten(sent)
      ensures Lawful(sent, e)
      ensures c == CourseOf(req, authority, c.answer)
      ensures EndsAs(c, sent, e) && DispatchShown(c, sent)
    {
      e, sent := Ended(Unsupported), [];
      c := CourseOf(req, authority, None);
      if req.known && req.docker {
        e, sent, c := ExecuteKnown(req, authority);
      }
    }
  }

  /** A stop, read as the exception it came from. */
  function Stopped(e: Ending): Result<(), Raised> {
    Failure(if e.Raises? then e.raised else OtherError)
  }
}
