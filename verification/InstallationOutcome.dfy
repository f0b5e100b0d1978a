// What an installation reports, and why every report is true of what was done.

module InstallationOutcome {
  import opened Wrappers
  import opened Text
  import opened DockerLabels
  import opened ConfigurationAttempt
  import opened DockerDaemon
  import opened NodeAdmission
  import opened Installation
  import Capacity = EvidenceCapacity

  datatype Outcome =
    | Succeeded(done: Done)
    | Stopped(kind: Capacity.Kind)
    | ContractFailed
    | ControlRaised

  /** A run that has changed anything, or succeeded, has found the node's container vacant or
      admissible, and keeps exactly the same installation; any other container of that name ends
      the run unchanged. */
  ghost predicate GoesOnlyIfChosen(w0: World, w: World, d: Daemon, z: Capacity.Sizes, q: Install,
                                   prior: Option<string>, same: bool, r: Result<Done, Raised>) {
    && ((w == w0 && r.Failure?) || Chosen(w0, d, q, prior, same))
    && (r.Failure? || (r.value.disposition.Reused? <==> same))
    && Refuses(w0, d, z, q, r.Failure? && w == w0, r == Failure(Precondition))
  }

  /** Decides; nothing but the facts of the first checks is recorded. */
  method Open(d: Daemon, z: Capacity.Sizes, q: Install, attempt: Attempt, ghost id: string)
    returns (decided: Result<Decision, Raised>, ghost retained: set<VolumeName>, ghost same: bool)
    requires Consistent(d.world) && attempt.Now() == FRESH
    modifies attempt`retained, attempt`phase, attempt`prior
    ensures Untouched(attempt.Now()) && attempt.attempted == attempt.staged == [] && attempt.fileOwner.None?
    ensures attempt.retained == retained && (same <==> decided.Success? && decided.value.admission.same)
    ensures attempt.prior.Some? ==> Named(d.world, q, attempt.prior.value)
    ensures decided.Success? ==>
              && Capacity.PreflightPasses(z, q, Opening(q, retained))
              && Decided(d, q, decided.value.inspection, decided.value.admission)
              && Captured(d.world, attempt.Marked(), decided.value.inspection)
              && Chosen(d.world, d, q, attempt.prior, same)
    ensures same ==> Named(d.world, q, attempt.prior.value) && !Replacing(q, d.world.containers[attempt.prior.value])
    ensures Refuses(d.world, d, z, q, decided.Failure?, decided == Failure(Precondition))
    ensures d.reliable && Acceptable(d.world, d, z, q, id) ==> attempt.prior == Some(id) && same
  {
    decided, retained := Decide(d, z, q, attempt);
    same := decided.Success? && decided.value.admission.same;
    OpeningIsUntouched(q, attempt.Now(), retained);
    if same {
      ChosenIsKept(d.world, d, q, attempt.prior, same);
    }
    if d.reliable && Acceptable(d.world, d, z, q, id) {
      AcceptedIsKept(d, z, q, attempt.prior, id, decided.Success?, same);
    }
  }

  /** Decides, then carries the decision out. `id` is the container an already finished
      installation has left, if there is one. */
  method ConfigurationNode(d: Daemon, z: Capacity.Sizes, q: Install, attempt: Attempt, resolves: bool, ghost id: string)
    returns (r: Result<Done, Raised>, ghost prep: World, ghost retained: set<VolumeName>, ghost same: bool)
    requires Consistent(d.world) && attempt.Now() == FRESH
    modifies d, attempt
    ensures Consistent(d.world)
    ensures Finishes(old(d.world), prep, d.world, d, q, attempt.Marked(), attempt.phase, r)
    ensures attempt.retained == retained
    ensures d.world != old(d.world) || r.Success? ==> Capacity.PreflightPasses(z, q, Opening(q, retained))
    ensures EarlyIndices(q, attempt.attempted, attempt.staged, attempt.fileOwner)
    ensures SecretIndices(q, attempt.secretAttempted, attempt.secretStaged)
    ensures OnlyCaptured(old(d.world), d.world, attempt.prior)
    ensures attempt.prior.Some? ==> Named(old(d.world), q, attempt.prior.value)
    ensures GoesOnlyIfChosen(old(d.world), d.world, d, z, q, attempt.prior, same, r)
    ensures d.reliable && resolves && Acceptable(old(d.world), d, z, q, id) && Again(old(d.world), d, q, id) ==>
              KeptAsItIs(old(d.world), d.world, Some(id), r)
    ensures Cleared(r, attempt.phase, attempt.unknownCreated, attempt.unknownMaterialization)
  {
    ghost var w0 := d.world;
    var decided;
    decided, retained, same := Open(d, z, q, attempt, id);
    ghost var settled := d.reliable && resolves && same && Again(w0, d, q, attempt.prior.value);
    r, prep := CarryOut(d, z, q, attempt, decided, resolves, same, settled);
  }

  lemma DecisionIsKept(w0: World, w: World, d: Daemon, z: Capacity.Sizes, q: Install, prior: Option<string>,
                       decided: Result<Decision, Raised>, r: Result<Done, Raised>)
    requires decided.Success? ==> Chosen(w0, d, q, prior, decided.value.admission.same)
    requires Refuses(w0, d, z, q, decided.Failure?, decided == Failure(Precondition))
    requires decided.Failure? ==> w == w0 && r == Failure(decided.error)
    requires r.Success? ==> decided.Success? && (r.value.disposition.Reused? <==> decided.value.admission.same)
    ensures GoesOnlyIfChosen(w0, w, d, z, q, prior, decided.Success? && decided.value.admission.same, r)
  {
  }

  /** Carries a decision out, or stops because there is none. */
  method CarryOut(d: Daemon, ghost z: Capacity.Sizes, q: Install, attempt: Attempt, decided: Result<Decision, Raised>,
                  resolves: bool, ghost same: bool, ghost settled: bool)
    returns (r: Result<Done, Raised>, ghost prep: World)
    requires Consistent(d.world) && Untouched(attempt.Now())
    requires attempt.attempted == attempt.staged == [] && attempt.fileOwner.None?
    requires decided.Success? ==>
               && Captured(d.world, attempt.Marked(), decided.value.inspection)
               && Decided(d, q, decided.value.inspection, decided.value.admission)
               && Chosen(d.world, d, q, attempt.prior, same)
    requires same ==>
               && attempt.prior.Some? && Named(d.world, q, attempt.prior.value)
               && !Replacing(q, d.world.containers[attempt.prior.value])
    requires same <==> decided.Success? && decided.value.admission.same
    requires Refuses(d.world, d, z, q, decided.Failure?, decided == Failure(Precondition))
    requires settled ==> && d.reliable && resolves && decided.Success? && decided.value.admission.same
                         && Again(d.world, d, q, attempt.prior.value)
    modifies d, attempt`phase, attempt`oldRemoved, attempt`unknownCreated, attempt`container, attempt`action,
             attempt`unknownMaterialization, attempt`secretAttempted, attempt`secretStaged,
             attempt`attempted, attempt`staged, attempt`fileOwner
    ensures Consistent(d.world)
    ensures decided.Failure? ==> d.world == old(d.world) && r == Failure(decided.error)
    ensures Finishes(old(d.world), prep, d.world, d, q, attempt.Marked(), attempt.phase, r)
    ensures EarlyIndices(q, attempt.attempted, attempt.staged, attempt.fileOwner)
    ensures SecretIndices(q, attempt.secretAttempted, attempt.secretStaged)
    ensures OnlyCaptured(old(d.world), d.world, attempt.prior)
    ensures GoesOnlyIfChosen(old(d.world), d.world, d, z, q, attempt.prior, same, r)
    ensures settled ==> KeptAsItIs(old(d.world), d.world, attempt.prior, r)
    ensures Cleared(r, attempt.phase, attempt.unknownCreated, attempt.unknownMaterialization)
  {
    ghost var w0 := d.world;
    if decided.Failure? {
      NoIndices(q);
      r, prep := Failure(decided.error), d.world;
      RefusedFinishes(d.world, d.world, d, q, attempt.Marked(), attempt.phase, r);
    } else {
      r, prep := Carry(d, q, attempt, decided.value, resolves, settled);
    }
    DecisionIsKept(w0, d.world, d, z, q, attempt.prior, decided, r);
  }

  lemma NoIndices(q: Install)
    ensures EarlyIndices(q, [], [], None) && SecretIndices(q, [], [])
  {
    InStepAt(0);
  }

  // ---- the report ----

  /** A result of some kind, unless it is too large to be one. */
  function ResultOf(z: Capacity.Sizes, q: Install, f: Facts, kind: Capacity.Kind, failure: nat): Outcome {
    if Capacity.StoppedLength(z, q, kind, f, failure) > z.limit then ContractFailed else Stopped(kind)
  }

  /** How each exception is reported; `failure` is the length of the failure that goes with it. */
  function Report(z: Capacity.Sizes, q: Install, f: Facts, r: Result<Done, Raised>, failure: nat): Outcome {
    var uncertain := ResultOf(z, q, f, Capacity.Uncertain, failure);
    match r
    case Success(done) =>
      if Capacity.SuccessLength(z, q, f, done.disposition, done.host) > z.limit then uncertain else Succeeded(done)
    case Failure(e) =>
      match e
      case ControlError => ControlRaised
      case UnsupportedAuthority => ResultOf(z, q, f, Capacity.Unsupported, failure)
      case EvidenceInvalid =>
        if f.phase == InstalledVerification then uncertain else ResultOf(z, q, f, Capacity.Failed, failure)
      case Other => uncertain
      case _ =>
        if q.selected && (f.phase == InstalledVerification || f.unknownMaterialization || f.unknownCreated) then
          uncertain
        else ResultOf(z, q, f, Capacity.Failed, failure)
  }

  /** Every removal that was sent addresses a container of the start world that is the node's own. */
  ghost predicate RemovesOnlyOwn(w0: World, w: World, q: Install) {
    && w0.log <= w.log
    && forall c | c in Sent(w0, w) && c.Remove? :: Named(w0, q, c.removed) && OwnNode(q, w0.containers[c.removed])
  }

  lemma OwnIsRemoved(w0: World, w: World, d: Daemon, z: Capacity.Sizes, q: Install, prior: Option<string>,
                     same: bool, r: Result<Done, Raised>)
    requires OnlyCaptured(w0, w, prior) && GoesOnlyIfChosen(w0, w, d, z, q, prior, same, r)
    ensures RemovesOnlyOwn(w0, w, q)
  {
  }

  /** Executes one selected-material node operation. */
  method Execute(d: Daemon, z: Capacity.Sizes, q: Install, resolves: bool, failure: nat, ghost id: string)
    returns (outcome: Outcome, f: Facts, r: Result<Done, Raised>, ghost prep: World, ghost same: bool)
    requires Consistent(d.world)
    modifies d
    ensures Consistent(d.world)
    ensures outcome == Report(z, q, f, r, failure) && Capacity.Reachable(q, f.retained, f)
    ensures Finishes(old(d.world), prep, d.world, d, q, MarkOf(f), f.phase, r)
    ensures d.world != old(d.world) || r.Success? ==> Capacity.PreflightPasses(z, q, Opening(q, f.retained))
    ensures OnlyCaptured(old(d.world), d.world, f.prior) && (f.prior.Some? ==> Named(old(d.world), q, f.prior.value))
    ensures RemovesOnlyOwn(old(d.world), d.world, q)
    ensures GoesOnlyIfChosen(old(d.world), d.world, d, z, q, f.prior, same, r)
    ensures d.reliable && resolves && Acceptable(old(d.world), d, z, q, id) && Again(old(d.world), d, q, id) ==>
              KeptAsItIs(old(d.world), d.world, Some(id), r)
    ensures Cleared(r, f.phase, f.unknownCreated, f.unknownMaterialization)
  {
    var attempt := new Attempt();
    ghost var w0, retained := d.world, {};
    r, prep, retained, same := ConfigurationNode(d, z, q, attempt, resolves, id);
    f := attempt.Now();
    outcome := Report(z, q, f, r, failure);
    OwnIsRemoved(w0, d.world, d, z, q, f.prior, same, r);
  }

  // ---- every report is true ----

  /** What a report says about the exception, whatever the sizes. */
  lemma ReportMeans(z: Capacity.Sizes, q: Install, f: Facts, r: Result<Done, Raised>, failure: nat)
    ensures Report(z, q, f, r, failure).Succeeded? ==> r == Success(Report(z, q, f, r, failure).done)
    ensures Report(z, q, f, r, failure) == Stopped(Capacity.Unsupported) ==> r == Failure(UnsupportedAuthority)
    ensures Report(z, q, f, r, failure) == Stopped(Capacity.Failed) ==>
              && r.Failure? && Definite(r.error)
              && (r.error == EvidenceInvalid || q.selected ==> f.phase != InstalledVerification)
              && (r.error != EvidenceInvalid && q.selected ==> !f.unknownCreated && !f.unknownMaterialization)
  {
  }

  /** Every result without a receipt is small enough to be one. */
  ghost predicate Fits(z: Capacity.Sizes, q: Install, f: Facts, failure: nat) {
    forall k :: Capacity.StoppedLength(z, q, k, f, failure) <= z.limit
  }

  lemma FittingReports(z: Capacity.Sizes, q: Install, f: Facts, r: Result<Done, Raised>, failure: nat)
    requires Fits(z, q, f, failure)
    ensures Report(z, q, f, r, failure) != ContractFailed
  {
    assert Capacity.StoppedLength(z, q, Capacity.Uncertain, f, failure) <= z.limit;
    assert Capacity.StoppedLength(z, q, Capacity.Failed, f, failure) <= z.limit;
    assert Capacity.StoppedLength(z, q, Capacity.Unsupported, f, failure) <= z.limit;
  }

  /** A broken precondition, a conflict of the material, or evidence that was found invalid before
      the last look; with selected secrets, only while nothing is in doubt. */
  predicate FailsDefinitely(q: Install, f: Facts, e: Raised) {
    || (e == EvidenceInvalid && f.phase != InstalledVerification)
    || (&& (e == Precondition || e == MaterialConflict)
        && !(q.selected && (f.phase == InstalledVerification || f.unknownMaterialization || f.unknownCreated)))
  }

  /** Which report each end of a run has, where the results fit. */
  lemma ReportIs(z: Capacity.Sizes, q: Install, f: Facts, r: Result<Done, Raised>, failure: nat)
    requires Fits(z, q, f, failure)
    ensures var o := Report(z, q, f, r, failure);
            && o != ContractFailed
            && (o == ControlRaised <==> r == Failure(ControlError))
            && (o.Succeeded? <==>
                  r.Success? && Capacity.SuccessLength(z, q, f, r.value.disposition, r.value.host) <= z.limit)
            && (o == Stopped(Capacity.Unsupported) <==> r == Failure(UnsupportedAuthority))
            && (o == Stopped(Capacity.Failed) <==> r.Failure? && FailsDefinitely(q, f, r.error))
            && (o == Stopped(Capacity.Uncertain) <==>
                  || (r.Success? && Capacity.SuccessLength(z, q, f, r.value.disposition, r.value.host) > z.limit)
                  || (&& r.Failure? && r.error != ControlError && r.error != UnsupportedAuthority
                      && !FailsDefinitely(q, f, r.error)))
  {
    FittingReports(z, q, f, r, failure);
    assert Capacity.StoppedLength(z, q, Capacity.Uncertain, f, failure) <= z.limit;
    assert Capacity.StoppedLength(z, q, Capacity.Failed, f, failure) <= z.limit;
    assert Capacity.StoppedLength(z, q, Capacity.Unsupported, f, failure) <= z.limit;
  }

  /** The calls of a run are exactly those of what was done. */
  ghost predicate IsTheTrace(start: World, prep: World, end: World, q: Install, done: Done) {
    && Prepared(start, prep)
    && match done.disposition
       case Created =>
         && done.prior.None?
         && end.log == prep.log
              + [Create(NameOf(q), Some(done.current), false), Start(done.current, true), Look(done.current, true)]
       case Reused =>
         && done.prior == Some(done.current)
         && (|| end.log == prep.log + [Look(done.current, true)]
             || end.log == prep.log + [Start(done.current, true), Look(done.current, true)])
       case Replaced =>
         && q.reconcile && done.prior.Some? && done.prior != Some(done.current)
         && end.log == prep.log
              + [Look(done.prior.value, true), Remove(done.prior.value, true), Look(done.prior.value, false)]
              + [Create(NameOf(q), Some(done.current), false), Start(done.current, true), Look(done.current, true)]
  }

  /** The node is reached at its container's address on the runtime's network, if that has one, and
      otherwise under its own name. */
  ghost predicate ReachedAt(end: World, q: Install, done: Done) {
    && done.current in end.containers
    && var network, addresses := NetworkName(q.workspace, q.runtime), end.containers[done.current].addresses;
       && (network in addresses ==> done.host == addresses[network].text)
       && (network !in addresses ==> done.host == q.node)
  }

  /** A success is what the calls show: one create and no remove, neither of the two, or one
      remove by the captured id, its absence read back, and then one create; nothing but
      preparation came before, and a StartNode never replaces. */
  lemma SuccessIsTheTrace(start: World, prep: World, end: World, z: Capacity.Sizes, q: Install, f: Facts,
                          r: Result<Done, Raised>, failure: nat, done: Done)
    requires Concluded(start, prep, end, q, MarkOf(f), f.phase, r) && Report(z, q, f, r, failure) == Succeeded(done)
    ensures IsTheTrace(start, prep, end, q, done) && ReachedAt(end, q, done)
  {
    ReportMeans(z, q, f, r, failure);
    var made := [Create(NameOf(q), Some(done.current), false), Start(done.current, true)];
    assert made + [Look(done.current, true)]
        == [Create(NameOf(q), Some(done.current), false), Start(done.current, true), Look(done.current, true)];
  }

  /** UNSUPPORTED: nothing at all was changed. */
  lemma UnsupportedChangedNothing(start: World, prep: World, end: World, z: Capacity.Sizes, q: Install, f: Facts,
                                  r: Result<Done, Raised>, failure: nat)
    requires Concluded(start, prep, end, q, MarkOf(f), f.phase, r)
    requires Report(z, q, f, r, failure) == Stopped(Capacity.Unsupported)
    ensures end == start
  {
    ReportMeans(z, q, f, r, failure);
  }

  /** No call on the container raised; with selected secrets none was sent at all, and nothing
      the run created or wrote is left unverified. */
  ghost predicate DefinitelyFailed(start: World, end: World, q: Install, f: Facts) {
    && AllOk(start, end)
    && (q.selected ==> Prepared(start, end))
    && (q.selected ==> !f.unknownCreated && !f.unknownMaterialization)
  }

  /** FAILED: no create, remove or start of the container raised; with selected secrets none was
      sent at all, and nothing the run created or wrote is left unverified. */
  lemma FailedIsDefinite(start: World, prep: World, end: World, z: Capacity.Sizes, q: Install, f: Facts,
                         r: Result<Done, Raised>, failure: nat)
    requires Concluded(start, prep, end, q, MarkOf(f), f.phase, r)
    requires Cleared(r, f.phase, f.unknownCreated, f.unknownMaterialization)
    requires Report(z, q, f, r, failure) == Stopped(Capacity.Failed)
    ensures DefinitelyFailed(start, end, q, f)
  {
    ReportMeans(z, q, f, r, failure);
  }

  /** Whatever is reported, a StartNode has removed no container. */
  lemma StartNodeRemovesNothing(start: World, prep: World, end: World, q: Install, f: Facts, r: Result<Done, Raised>)
    requires Concluded(start, prep, end, q, MarkOf(f), f.phase, r) && !q.reconcile
    ensures NoRemoval(start, end)
  {
    if r.Success? {
      var last := Tail(q, MarkOf(f), r.value.disposition) + [Look(r.value.current, true)];
      assert Sent(start, end) == Sent(start, prep) + last;
    }
  }

  /** Once the preflight has passed, no result of the run is refused for its size: the contract
      failure of an oversized result can only come before anything was changed. */
  lemma NoOversizedReport(z: Capacity.Sizes, q: Install, f: Facts, r: Result<Done, Raised>, failure: nat)
    requires Capacity.PreflightPasses(z, q, Opening(q, f.retained))
    requires Capacity.Reachable(q, f.retained, f) && failure <= Capacity.FAILURE_BOUND
    ensures Report(z, q, f, r, failure) != ContractFailed
  {
    forall k ensures Capacity.StoppedLength(z, q, k, f, failure) <= z.limit {
      Capacity.StoppedResultFits(z, q, Opening(q, f.retained), f, k, failure);
    }
    FittingReports(z, q, f, r, failure);
  }

  /** The container's address on the runtime's network, if it has one, has no zone. */
  predicate Zoneless(q: Install, c: Container) {
    NetworkOf(q) in c.addresses ==> '%' !in c.addresses[NetworkOf(q)].text
  }

  /** An address that comes with its network's id has none: otherwise it could not be inspected. */
  lemma IdentifiedIsZoneless(q: Install, c: Container)
    requires NetworkOf(q) in c.addresses ==> c.addresses[NetworkOf(q)].identified
    ensures Zoneless(q, c)
  {
  }

  /** A success that was done is reported as one: for any number of ports if the address has no
      zone, and otherwise if the reserve covers the longest host, as it does up to 4096 ports. */
  lemma DoneIsReported(start: World, prep: World, end: World, z: Capacity.Sizes, q: Install, f: Facts,
                       r: Result<Done, Raised>, failure: nat)
    requires Concluded(start, prep, end, q, MarkOf(f), f.phase, r) && r.Success?
    requires Capacity.PreflightPasses(z, q, Opening(q, f.retained)) && Capacity.Reachable(q, f.retained, f)
    requires || Zoneless(q, end.containers[r.value.current])
             || Capacity.CapacityCovers(z, q) || (q.node != "" && |q.ports| <= 4096)
    ensures Report(z, q, f, r, failure) == Succeeded(r.value)
  {
    HostIsReserved(z, q, end.containers[r.value.current]);
    Capacity.SuccessfulResultFits(z, q, Opening(q, f.retained), f, r.value.disposition, r.value.host);
  }

  lemma HostIsReserved(z: Capacity.Sizes, q: Install, c: Container)
    requires |HostOf(q, c)| <= Capacity.LongestHost(q)
    requires Zoneless(q, c) || Capacity.CapacityCovers(z, q) || (q.node != "" && |q.ports| <= 4096)
    ensures Capacity.GrowthReserved(z, q, HostOf(q, c))
  {
    if NetworkOf(q) !in c.addresses {
      assert HostOf(q, c) == q.node;
    } else if Zoneless(q, c) {
      Capacity.ZonelessIsReserved(z, q, HostOf(q, c));
    } else {
      if !Capacity.CapacityCovers(z, q) {
        Capacity.GrowthIsReserved(z, q);
      }
      Capacity.CoversEveryHost(z, q, HostOf(q, c));
    }
  }

  /** Where the reserve does not cover it, a replacement that was done, on the longest link-local
      address with a zone and within the tightest envelope that passes the preflight, is reported
      as uncertain. */
  lemma UncoveredIsNotReported(z: Capacity.Sizes, q: Install, retained: set<VolumeName>, former: string, id: string,
                               failure: nat)
    requires former != id && q.selection.Some? && q.selected && q.secretFiles != [] && failure <= Capacity.FAILURE_BOUND
    requires !Capacity.CapacityCovers(z, q)
    requires z.limit == Capacity.MaximumLength(z, q, Opening(q, retained))
    ensures Capacity.PreflightPasses(z, q, Opening(q, retained))
    ensures var f := Capacity.Replacement(q, Opening(q, retained), former, id);
            && Capacity.Reachable(q, retained, f) && Capacity.Finished(MarkOf(f), Capacity.Replaced)
            && Report(z, q, f, Success(Done(Capacity.Replaced, f.prior, id, Capacity.ZonedHost(q))), failure)
               == Stopped(Capacity.Uncertain)
  {
    var f := Capacity.Replacement(q, Opening(q, retained), former, id);
    Capacity.UncoveredResultIsTooLong(z, q, Opening(q, retained), former, id);
    Capacity.StoppedResultFits(z, q, Opening(q, retained), f, Capacity.Uncertain, failure);
  }

  // ---- a client of its own ----

  /** What each report says about the run and the client it was bound to. */
  ghost predicate Binds(start: World, prep: World, end: World, q: Install, f: Facts, r: Result<Done, Raised>,
                        failure: nat, closes: bool, outcome: Outcome) {
    match outcome
    case Succeeded(done) => closes && r == Success(done) && IsTheTrace(start, prep, end, q, done)
    case Stopped(Failed) => closes && DefinitelyFailed(start, end, q, f)
    case Stopped(Unsupported) => closes && end == start
    case Stopped(Uncertain) => true
    case Stopped(Succeeded) => false
    case ContractFailed => closes && (failure <= Capacity.FAILURE_BOUND ==> end == start)
    case ControlRaised => r == Failure(ControlError) && Prepared(start, end)
  }

  lemma ReportBinds(start: World, prep: World, end: World, z: Capacity.Sizes, q: Install, f: Facts,
                    r: Result<Done, Raised>, failure: nat)
    requires Concluded(start, prep, end, q, MarkOf(f), f.phase, r)
    requires end == start || Capacity.PreflightPasses(z, q, Opening(q, f.retained))
    requires Capacity.Reachable(q, f.retained, f)
    requires Cleared(r, f.phase, f.unknownCreated, f.unknownMaterialization)
    ensures Binds(start, prep, end, q, f, r, failure, true, Report(z, q, f, r, failure))
  {
    match Report(z, q, f, r, failure)
    case Succeeded(done) =>
      ReportMeans(z, q, f, r, failure);
      SuccessIsTheTrace(start, prep, end, z, q, f, r, failure, done);
    case Stopped(Failed) => FailedIsDefinite(start, prep, end, z, q, f, r, failure);
    case Stopped(Unsupported) => UnsupportedChangedNothing(start, prep, end, z, q, f, r, failure);
    case ContractFailed =>
      if end != start && failure <= Capacity.FAILURE_BOUND {
        NoOversizedReport(z, q, f, r, failure);
      }
    case _ =>
  }

  /** Executes on a client of its own: if that client does not close cleanly, nothing definite and
      no receipt is reported, unless the execution itself raised. */
  method ExecuteBound(d: Daemon, z: Capacity.Sizes, q: Install, resolves: bool, failure: nat, closes: bool)
    returns (outcome: Outcome, f: Facts, r: Result<Done, Raised>, ghost prep: World, ghost same: bool)
    requires Consistent(d.world)
    modifies d
    ensures closes ==> outcome == Report(z, q, f, r, failure)
    ensures Binds(old(d.world), prep, d.world, q, f, r, failure, closes, outcome)
    ensures OnlyCaptured(old(d.world), d.world, f.prior) && (f.prior.Some? ==> Named(old(d.world), q, f.prior.value))
    ensures RemovesOnlyOwn(old(d.world), d.world, q)
    ensures GoesOnlyIfChosen(old(d.world), d.world, d, z, q, f.prior, same, r)
  {
    ghost var start := d.world;
    outcome, f, r, prep, same := Execute(d, z, q, resolves, failure, "");
    ReportBinds(start, prep, d.world, z, q, f, r, failure);
    if !outcome.ControlRaised? && !closes {
      outcome := Stopped(Capacity.Uncertain);
    }
  }

  // ---- running it again ----

  /** A recorded plan and graph are not blank; reconciliation demands it of every container. */
  predicate Recorded(q: Install) {
    q.reconcile || (!Blank(q.plan) && !Blank(q.graph))
  }

  lemma SuitableLabels(q: Install, c: Container, image: string)
    requires Suits(c, q, InstallLabels(q), image) && Recorded(q)
    ensures OwnNode(q, c) && SameNode(q, c) && !Replacing(q, c)
    ensures !q.reconcile ==> LabelledAlike(c.labels, InstallLabels(q), false, false)
  {
    OwnNodeIs(q, c);
    SameIsSame(q, c);
    CorrelationIs(c.labels, InstallLabels(q), false);
    CorrelationMeaning(c.labels, InstallLabels(q), q.reconcile);
    InstallLabelsAre(q);
    if !q.reconcile {
      ExactCorrelationIsEvidence(c.labels, q);
    }
  }

  /** The world a success leaves is one on which the same operation has nothing left to do,
      provided that the capacity preflight passes for the container it has left, and that the
      request mounts each secret once. */
  lemma SuccessIsInstalled(w: World, d: Daemon, z: Capacity.Sizes, q: Install, id: string)
    requires q.image in w.images && Standing(w, d, q, id, ReadyOf(w, q)) && Recorded(q)
    requires MountsOnce(q, ReadyOf(w, q).owner) && CapacityPasses(z, q, w.containers[id])
    ensures Acceptable(w, d, z, q, id) && Again(w, d, q, id)
  {
    SuitableLabels(q, w.containers[id], w.images[q.image].id);
  }

  /** Nothing is asked of a node without secret files, and different targets are enough. */
  lemma MountedOnceIf(q: Install, owner: Uid)
    requires q.secretFiles == [] || DistinctTargets(q, owner)
    ensures MountsOnce(q, owner)
  {
    if q.secretFiles != [] {
      DistinctMountsOnce(q, owner);
    }
  }

  /** Whether the second run of the same operation can pass its preflights. */
  ghost predicate Repeatable(w: World, z: Capacity.Sizes, q: Install, id: string) {
    && Recorded(q) && q.image in w.images && MountsOnce(q, ReadyOf(w, q).owner)
    && id in w.containers && CapacityPasses(z, q, w.containers[id])
  }

  /** Runs the same operation twice. On a daemon that never fails, and if the preflights pass
      again, the second run keeps the container and changes nothing. */
  method ExecuteTwice(d: Daemon, z: Capacity.Sizes, q: Install, resolves: bool, failure: nat)
    returns (first: Result<Done, Raised>, second: Result<Done, Raised>, ghost between: World)
    requires Consistent(d.world)
    modifies d
    ensures first.Success? && d.reliable && resolves && Repeatable(between, z, q, first.value.current) ==>
              && second.Success? && second.value.disposition.Reused? && second.value.current == first.value.current
              && d.world == Logged(between, Look(first.value.current, true))
  {
    var outcome, f;
    ghost var prep, same;
    outcome, f, first, prep, same := Execute(d, z, q, resolves, failure, "");
    between := d.world;
    ghost var id := if first.Success? then first.value.current else "";
    if first.Success? && Repeatable(between, z, q, id) {
      SuccessIsInstalled(between, d, z, q, id);
    }
    outcome, f, second, prep, same := Execute(d, z, q, resolves, failure, id);
  }
}
