// The preflight of the result's size: before anything is changed, the largest result the attempt
// can come to is measured with a reserve, so that the final result cannot be refused for its size.
// Lengths are those of canonical JSON: no white space, keys and texts in double quotes.

module EvidenceCapacity {
  import opened Wrappers
  import opened IpAddress
  import opened DockerLabels
  import opened ConfigurationAttempt

  datatype Disposition = Created | Reused | Replaced

  datatype Kind = Succeeded | Failed | Uncertain | Unsupported

  /** The members of the two attempt documents and of the evidence around them. */
  datatype Name =
    | PhaseName | OldId | ContainerId | OldRemoved | UnknownCreated | AttemptedIndices | StagedIndices
    | VolumesRemoved | FileOwner | RetainedMounts | UnknownMaterialization | CloseUnknown
    | ActionName | ConfigurationDocument | SecretDocument | CapacityReserve

  /** The parts of a result whose length the attempt does not change; `keys` measures the names of
      members. */
  datatype Sizes = Sizes(
    limit: nat, envelope: nat, common: nat, receipt: nat, completion: nat, fingerprint: nat, profile: nat,
    observations: nat, names: set<VolumeName> -> nat, keys: Name -> nat, nameLength: VolumeName -> nat)

  // ---- canonical lengths ----

  function TextLength(n: nat): nat {
    n + 2
  }

  function BoolLength(b: bool): nat {
    if b then 4 else 5
  }

  function NumberLength(n: nat): (r: nat)
    ensures r >= 1
  {
    if n < 10 then 1 else 1 + NumberLength(n / 10)
  }

  function DigitSum(xs: seq<nat>): nat {
    if xs == [] then 0 else DigitSum(xs[..|xs| - 1]) + NumberLength(xs[|xs| - 1])
  }

  function IndicesLength(xs: seq<nat>): nat {
    if xs == [] then 2 else DigitSum(xs) + |xs| + 1
  }

  function OptionLength(present: bool, n: nat): nat {
    if present then n else 4
  }

  /** A member of an object with its comma; the object itself adds one character. */
  function Member(z: Sizes, key: Name, value: nat): nat {
    z.keys(key) + 4 + value
  }

  /** The lengths of the phases' names, "preflight" to "installed-verification". */
  function PhaseLength(p: Phase): nat {
    match p
    case Preflight => 9
    case AuthorityPreflight => 19
    case Network => 7
    case ConfigurationStaging => 21
    case ContainerPreparation => 21
    case ContainerRemove => 16
    case ContainerCreate => 16
    case ContainerStart => 15
    case InstalledVerification => 22
  }

  /** "not-started", "created", "recreated", "started", "reused". */
  function ActionLength(a: Action): nat {
    match a
    case NotStarted => 11
    case CreatedAction => 7
    case Recreated => 9
    case StartedAction => 7
    case ReusedAction => 6
  }

  function DispositionLength(d: Disposition): nat {
    match d
    case Created => 7
    case Reused => 6
    case Replaced => 8
  }

  const ID_LENGTH: nat := 64

  /** The members that both attempt documents share. */
  function SharedLength(z: Sizes, f: Facts): nat {
    Member(z, PhaseName, TextLength(PhaseLength(f.phase)))
    + Member(z, OldId, OptionLength(f.prior.Some?, TextLength(ID_LENGTH)))
    + Member(z, ContainerId, OptionLength(f.container.Some?, TextLength(ID_LENGTH)))
    + Member(z, OldRemoved, BoolLength(f.oldRemoved))
    + Member(z, UnknownCreated, BoolLength(f.unknownCreated))
  }

  function ConfigurationLength(z: Sizes, f: Facts): nat {
    1 + z.profile + z.fingerprint + SharedLength(z, f)
    + Member(z, AttemptedIndices, IndicesLength(f.attempted))
    + Member(z, StagedIndices, IndicesLength(f.staged))
    + Member(z, VolumesRemoved, 1)
  }

  function SecretLength(z: Sizes, f: Facts, closeUnknown: bool): nat {
    1 + z.profile + z.fingerprint + SharedLength(z, f)
    + Member(z, FileOwner, if f.fileOwner.Some? then NumberLength(f.fileOwner.value) else 4)
    + Member(z, AttemptedIndices, IndicesLength(f.secretAttempted))
    + Member(z, StagedIndices, IndicesLength(f.secretStaged))
    + Member(z, RetainedMounts, z.names(f.retained))
    + Member(z, UnknownMaterialization, BoolLength(f.unknownMaterialization))
    + Member(z, CloseUnknown, BoolLength(closeUnknown))
    + Member(z, VolumesRemoved, 1)
  }

  function EvidenceLength(z: Sizes, q: Install, f: Facts, closeUnknown: bool): nat {
    Member(z, ActionName, TextLength(ActionLength(f.action)))
    + (if q.selection.Some? then Member(z, ConfigurationDocument, ConfigurationLength(z, f)) else 0)
    + (if q.selected then Member(z, SecretDocument, SecretLength(z, f, closeUnknown)) else 0)
  }

  function ReceiptLength(z: Sizes, d: Disposition, prior: bool): nat {
    z.receipt + TextLength(DispositionLength(d)) + OptionLength(prior, TextLength(ID_LENGTH))
  }

  /** One receipt for the configuration and one for the secrets, where the request has them. */
  function ReceiptsLength(z: Sizes, q: Install, d: Disposition, prior: bool): nat {
    PerDocument(q, ReceiptLength(z, d, prior))
  }

  function PerDocument(q: Install, n: int): int {
    (if q.selection.Some? then n else 0) + (if q.selected then n else 0)
  }

  function CompletionLength(z: Sizes, q: Install, k: Kind): nat {
    if q.selection.Some? && (k.Succeeded? || k.Failed?) then z.completion else 0
  }

  /** A host as it appears in an endpoint address: an IPv6 address in brackets. */
  function EndpointHost(host: string): nat {
    |host| + if Ipv6(host) then 2 else 0
  }

  /** A longer host than this is refused when the installed node is verified. */
  function LongestHost(q: Install): nat {
    if |q.node| < 64 then 64 else |q.node|
  }

  function ObservationsLength(z: Sizes, q: Install, host: string): nat {
    z.observations + |q.ports| * EndpointHost(host)
  }

  function Chunks(ports: nat): nat {
    (1024 + 64 * ports + 255) / 256
  }

  /** The reserve: a list of texts of 256 characters. */
  function ReserveLength(z: Sizes, ports: nat): nat {
    Member(z, CapacityReserve, 259 * Chunks(ports) + 1)
  }

  // ---- the results ----

  /** A result that stops short: no extras, no observations, a failure. */
  function StoppedLength(z: Sizes, q: Install, k: Kind, f: Facts, failure: nat): nat {
    z.envelope + EvidenceLength(z, q, f, false) + CompletionLength(z, q, k) + failure
  }

  function SuccessLength(z: Sizes, q: Install, f: Facts, d: Disposition, host: string): nat {
    z.envelope + EvidenceLength(z, q, f, false) + CompletionLength(z, q, Succeeded)
    + z.common + ReceiptsLength(z, q, d, f.prior.Some?) + ObservationsLength(z, q, host)
  }

  /** The largest attempt, as the preflight builds it from the attempt at hand. */
  function Maximum(q: Install, f: Facts): Facts {
    f.(phase := InstalledVerification,
       attempted := Range(ConfigurationCount(q)), staged := Range(ConfigurationCount(q)),
       secretAttempted := Range(|q.secretFiles|), secretStaged := Range(|q.secretFiles|),
       fileOwner := if q.secretFiles == [] then None else Some(MAX_UID),
       prior := Some(""), container := Some(""), oldRemoved := true, unknownCreated := true)
  }

  function ConfigurationCount(q: Install): nat {
    if q.selection.Some? then |q.references| else 0
  }

  function MaximumLength(z: Sizes, q: Install, f: Facts): nat {
    SuccessLength(z, q, Maximum(q, f), Replaced, q.node) + ReserveLength(z, |q.ports|)
  }

  predicate PreflightPasses(z: Sizes, q: Install, f: Facts) {
    MaximumLength(z, q, f) <= z.limit
  }

  // ---- what an attempt can become ----

  /** The states an attempt can reach after the preflight: its retained mounts are fixed, its
      indices lie within the request, its owner is a user id. */
  predicate Reachable(q: Install, retained: set<VolumeName>, f: Facts) {
    && f.retained == retained
    && InStep(f.attempted, f.staged) && |f.attempted| <= ConfigurationCount(q)
    && f.secretAttempted == Range(|f.secretAttempted|) && |f.secretAttempted| <= |q.secretFiles|
    && f.secretStaged == Range(|f.secretStaged|) && |f.secretStaged| <= |q.secretFiles|
    && (f.fileOwner.Some? ==> q.secretFiles != [] && f.fileOwner.value <= MAX_UID)
  }

  lemma {:induction false} RangeLength(m: nat, n: nat)
    requires m <= n
    ensures DigitSum(Range(m)) <= DigitSum(Range(n)) && IndicesLength(Range(m)) <= IndicesLength(Range(n))
    decreases n
  {
    if m < n {
      RangeLength(m, n - 1);
      assert Range(n)[..n - 1] == Range(n - 1);
    }
  }

  lemma {:induction false} NumberLengthGrows(m: nat, n: nat)
    requires m <= n
    ensures NumberLength(m) <= NumberLength(n)
  {
    if n >= 10 && m >= 10 {
      NumberLengthGrows(m / 10, n / 10);
    }
  }

  lemma UidLength(n: nat)
    requires n <= MAX_UID
    ensures NumberLength(n) <= NumberLength(MAX_UID) && NumberLength(MAX_UID) == 10
  {
    NumberLengthGrows(n, MAX_UID);
    assert NumberLength(21) == 2 && NumberLength(214) == 3 && NumberLength(2147) == 4 && NumberLength(21474) == 5;
    assert NumberLength(214748) == 6 && NumberLength(2147483) == 7;
    assert NumberLength(21474836) == 8 && NumberLength(214748364) == 9;
  }

  // ---- the preflight is sufficient ----

  lemma SharedWithin(z: Sizes, q: Install, f0: Facts, f: Facts)
    ensures SharedLength(z, f) <= SharedLength(z, Maximum(q, f0)) + 2
    ensures f.prior.Some? && f.oldRemoved ==> SharedLength(z, f) <= SharedLength(z, Maximum(q, f0)) + 1
    ensures f.prior.None? ==> SharedLength(z, f) <= SharedLength(z, Maximum(q, f0)) - 60
  {
  }

  /** The members of each document that the two share no more than bound. */
  lemma IndicesWithin(q: Install, f0: Facts, f: Facts)
    requires Reachable(q, f.retained, f)
    ensures IndicesLength(f.attempted) <= IndicesLength(Maximum(q, f0).attempted)
    ensures IndicesLength(f.staged) <= IndicesLength(Maximum(q, f0).staged)
    ensures IndicesLength(f.secretAttempted) <= IndicesLength(Maximum(q, f0).secretAttempted)
    ensures IndicesLength(f.secretStaged) <= IndicesLength(Maximum(q, f0).secretStaged)
  {
    RangeLength(|f.attempted|, ConfigurationCount(q));
    RangeLength(|f.staged|, ConfigurationCount(q));
    RangeLength(|f.secretAttempted|, |q.secretFiles|);
    RangeLength(|f.secretStaged|, |q.secretFiles|);
  }

  lemma DocumentsWithin(z: Sizes, q: Install, f0: Facts, f: Facts, closeUnknown: bool, slack: int)
    requires Reachable(q, f0.retained, f) && !f0.unknownMaterialization
    requires SharedLength(z, f) <= SharedLength(z, Maximum(q, f0)) + slack
    ensures ConfigurationLength(z, f) <= ConfigurationLength(z, Maximum(q, f0)) + slack
    ensures SecretLength(z, f, closeUnknown) <= SecretLength(z, Maximum(q, f0), false) + slack
  {
    IndicesWithin(q, f0, f);
    if f.fileOwner.Some? {
      UidLength(f.fileOwner.value);
    } else if q.secretFiles != [] {
      UidLength(0);
    }
  }

  lemma EvidenceWithin(z: Sizes, q: Install, f0: Facts, f: Facts, closeUnknown: bool, slack: int)
    requires Reachable(q, f0.retained, f) && !f0.unknownMaterialization
    requires SharedLength(z, f) <= SharedLength(z, Maximum(q, f0)) + slack
    ensures EvidenceLength(z, q, f, closeUnknown)
            + TextLength(ActionLength(f0.action)) - TextLength(ActionLength(f.action))
            <= EvidenceLength(z, q, Maximum(q, f0), false) + PerDocument(q, slack)
  {
    DocumentsWithin(z, q, f0, f, closeUnknown, slack);
  }

  lemma ReserveCovers(z: Sizes, ports: nat)
    ensures ReserveLength(z, ports) >= 1024 + 64 * ports
    ensures 4 * ReserveLength(z, ports) >= 4 * 1036 + 259 * ports
  {
    assert 256 * Chunks(ports) >= 1024 + 64 * ports;
  }

  const FAILURE_BOUND: nat := 1000

  lemma MaximumAtLeast(z: Sizes, q: Install, f0: Facts)
    ensures MaximumLength(z, q, f0)
            >= z.envelope + EvidenceLength(z, q, Maximum(q, f0), false) + CompletionLength(z, q, Succeeded)
               + z.common + 1024
  {
    ReserveCovers(z, |q.ports|);
    assert |q.ports| * EndpointHost(q.node) >= 0;
  }

  /** Whatever state the attempt is stopped in, its result fits once the preflight has passed; so
      does that of an unknown close, which keeps the common members of a success. */
  lemma StoppedResultFits(z: Sizes, q: Install, f0: Facts, f: Facts, k: Kind, failure: nat)
    requires PreflightPasses(z, q, f0) && f0.action == NotStarted && !f0.unknownMaterialization
    requires Reachable(q, f0.retained, f) && failure <= FAILURE_BOUND
    ensures StoppedLength(z, q, k, f, failure) <= z.limit
    ensures z.envelope + EvidenceLength(z, q, f, true) + z.common + failure <= z.limit
  {
    StoppedEvidence(z, q, f0, f, false);
    StoppedEvidence(z, q, f0, f, true);
    MaximumAtLeast(z, q, f0);
    StoppedSum(z, q, k, EvidenceLength(z, q, f, false), EvidenceLength(z, q, Maximum(q, f0), false), failure,
               MaximumLength(z, q, f0));
  }

  lemma StoppedSum(z: Sizes, q: Install, k: Kind, evidence: nat, largest: nat, failure: nat, measured: nat)
    requires evidence <= largest + 4 && failure <= FAILURE_BOUND
    requires measured >= z.envelope + largest + CompletionLength(z, q, Succeeded) + 1024
    ensures z.envelope + evidence + CompletionLength(z, q, k) + failure <= measured
  {
  }

  lemma StoppedEvidence(z: Sizes, q: Install, f0: Facts, f: Facts, closeUnknown: bool)
    requires f0.action == NotStarted && !f0.unknownMaterialization && Reachable(q, f0.retained, f)
    ensures EvidenceLength(z, q, f, closeUnknown) <= EvidenceLength(z, q, Maximum(q, f0), false) + 4
  {
    SharedWithin(z, q, f0, f);
    EvidenceWithin(z, q, f0, f, closeUnknown, 2);
  }

  /** How a finished attempt stands, by its disposition. */
  predicate Finished(f: Mark, d: Disposition) {
    && f.container.Some? && !f.unknownCreated
    && match d
       case Created => f.prior.None? && !f.oldRemoved && f.action == CreatedAction
       case Reused => f.prior == f.container && !f.oldRemoved && (f.action == ReusedAction || f.action == StartedAction)
       case Replaced => f.prior.Some? && f.prior != f.container && f.oldRemoved && f.action == Recreated
  }

  /** A successful result is no longer than the measured one without its reserve, but for the
      growth of the host in each endpoint. */
  lemma SuccessWithin(z: Sizes, q: Install, f0: Facts, f: Facts, d: Disposition, host: string)
    requires f0.action == NotStarted && !f0.unknownMaterialization
    requires Reachable(q, f0.retained, f) && Finished(MarkOf(f), d)
    ensures SuccessLength(z, q, f, d, host) + |q.ports| * EndpointHost(q.node) + ReserveLength(z, |q.ports|)
            <= MaximumLength(z, q, f0) + |q.ports| * EndpointHost(host)
  {
    SharedWithin(z, q, f0, f);
    var slack := match d case Created => -60 case Reused => 2 case Replaced => 1;
    EvidenceWithin(z, q, f0, f, false, slack);
  }

  /** The preflight is sufficient exactly as long as the hosts' growth stays within the reserve. */
  predicate GrowthReserved(z: Sizes, q: Install, host: string) {
    |q.ports| * EndpointHost(host) <= |q.ports| * EndpointHost(q.node) + ReserveLength(z, |q.ports|)
  }

  lemma SuccessfulResultFits(z: Sizes, q: Install, f0: Facts, f: Facts, d: Disposition, host: string)
    requires PreflightPasses(z, q, f0) && f0.action == NotStarted && !f0.unknownMaterialization
    requires Reachable(q, f0.retained, f) && Finished(MarkOf(f), d)
    requires GrowthReserved(z, q, host)
    ensures SuccessLength(z, q, f, d, host) <= z.limit
  {
    SuccessWithin(z, q, f0, f, d, host);
  }

  /** The attempt of a replaced installation that has done everything, for the largest user id. */
  function Replacement(q: Install, f0: Facts, former: string, id: string): Facts {
    Maximum(q, f0).(prior := Some(former), container := Some(id), unknownCreated := false, action := Recreated)
  }

  /** The bound is tight: with both documents, a replaced installation for the largest user id is
      longer than the measured result by exactly what the growth exceeds the reserve. */
  lemma ReplacementIsTight(z: Sizes, q: Install, f0: Facts, former: string, id: string, host: string)
    requires f0.action == NotStarted && !f0.unknownMaterialization && former != id
    requires q.selection.Some? && q.selected && q.secretFiles != []
    ensures Finished(MarkOf(Replacement(q, f0, former, id)), Replaced)
    ensures Reachable(q, f0.retained, Replacement(q, f0, former, id))
    ensures SuccessLength(z, q, Replacement(q, f0, former, id), Replaced, host)
            + |q.ports| * EndpointHost(q.node) + ReserveLength(z, |q.ports|)
            == MaximumLength(z, q, f0) + |q.ports| * EndpointHost(host)
  {
    InStepAt(ConfigurationCount(q));
    ReplacementEvidence(z, q, f0, former, id);
  }

  /** The two documents lose with the action what they gain with the resource that is known. */
  lemma ReplacementEvidence(z: Sizes, q: Install, f0: Facts, former: string, id: string)
    requires f0.action == NotStarted && q.selection.Some? && q.selected
    ensures EvidenceLength(z, q, Replacement(q, f0, former, id), false) == EvidenceLength(z, q, Maximum(q, f0), false)
  {
    var f, m := Replacement(q, f0, former, id), Maximum(q, f0);
    assert SharedLength(z, f) == SharedLength(z, m) + 1;
    assert ConfigurationLength(z, f) == ConfigurationLength(z, m) + 1;
    assert SecretLength(z, f, false) == SecretLength(z, m, false) + 1;
  }

  /** The reserve covers the brackets of an IPv6 address around the longest host there can be.
      Everything in it is known before the installation. */
  predicate CapacityCovers(z: Sizes, q: Install) {
    |q.ports| * (LongestHost(q) + 2) <= |q.ports| * EndpointHost(q.node) + ReserveLength(z, |q.ports|)
  }

  lemma CoversEveryHost(z: Sizes, q: Install, host: string)
    requires CapacityCovers(z, q) && |host| <= LongestHost(q)
    ensures GrowthReserved(z, q, host)
  {
    Scaled(|q.ports|, EndpointHost(host), LongestHost(q) + 2, 0);
  }

  /** An endpoint can grow by at most 65 characters, from a node of one character to a bracketed
      address of 64; up to 4096 ports that is reserved. */
  lemma GrowthIsReserved(z: Sizes, q: Install)
    requires q.node != "" && |q.ports| <= 4096
    ensures CapacityCovers(z, q)
  {
    var p, n := |q.ports|, EndpointHost(q.node);
    ReserveCovers(z, p);
    assert LongestHost(q) + 2 <= n + 65;
    Scaled(p, LongestHost(q) + 2, n, 65);
  }

  /** An address without a zone has at most 47 characters with its brackets: for any number of
      ports the reserve covers it. */
  lemma ZonelessIsReserved(z: Sizes, q: Install, host: string)
    requires Ip(host) && '%' !in host
    ensures GrowthReserved(z, q, host)
  {
    ZonelessIsShort(host);
    ReserveCovers(z, |q.ports|);
    Scaled(|q.ports|, EndpointHost(host), EndpointHost(q.node), 47);
  }

  lemma Scaled(p: nat, h: nat, n: nat, growth: nat)
    requires h <= n + growth
    ensures p * h <= p * n + p * growth
  {
    assert p * (n + growth) == p * n + p * growth;
    assert p * h <= p * (n + growth);
  }

  /** Where the reserve does not cover it, the preflight of such an installation can pass and its
      result still be too long. */
  lemma UncoveredResultIsTooLong(z: Sizes, q: Install, f0: Facts, former: string, id: string)
    requires f0.action == NotStarted && !f0.unknownMaterialization && former != id
    requires q.selection.Some? && q.selected && q.secretFiles != []
    requires !CapacityCovers(z, q) && z.limit == MaximumLength(z, q, f0)
    ensures |ZonedHost(q)| == LongestHost(q) && Ipv6(ZonedHost(q))
    ensures PreflightPasses(z, q, f0) && Reachable(q, f0.retained, Replacement(q, f0, former, id))
    ensures Finished(MarkOf(Replacement(q, f0, former, id)), Replaced)
    ensures SuccessLength(z, q, Replacement(q, f0, former, id), Replaced, ZonedHost(q)) > z.limit
  {
    LinkLocalIsIpv6(LongestHost(q) - 8);
    ReplacementIsTight(z, q, f0, former, id, ZonedHost(q));
  }

  /** The longest link-local address that verification lets through; for a node of at most 64
      characters its zone has 56 of them. */
  function ZonedHost(q: Install): string {
    LinkLocal(LongestHost(q) - 8)
  }

  /** Eight thousand ports of a node of one character are such a request. */
  lemma ManyPortsAreUncovered(z: Sizes, q: Install)
    requires |q.ports| == 8000 && |q.node| == 1 && z.keys(CapacityReserve) == 16
    ensures !CapacityCovers(z, q)
  {
    assert Chunks(8000) == 2004;
    TooShortForIpv6(q.node);
  }
}
