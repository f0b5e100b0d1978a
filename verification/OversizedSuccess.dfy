// One whole run whose success is not reported: a reconciliation replaces its container, every
// check passes and no call fails, and the result is longer than the preflight has allowed for.

module OversizedSuccess {
  import opened Wrappers
  import opened Text
  import opened IpAddress
  import opened DockerLabels
  import opened ConfigurationAttempt
  import opened DockerDaemon
  import opened DockerAuthority
  import opened NodePreparation
  import opened NodeAdmission
  import opened Installation
  import opened InstallationOutcome
  import Capacity = EvidenceCapacity

  /** A reconciliation with both documents and one secret file, and nothing else to stage. */
  predicate Modest(q: Install) {
    && q.reconcile && !Blank(q.plan) && !Blank(q.graph)
    && q.selection.Some? && q.references == [] && q.selected && |q.secretFiles| == 1
    && q.deliveries == [] && q.secretEnvironment == map[]
  }

  function Node(q: Install, image: ImageId, labels: Labels, mounts: seq<Mount>,
                addresses: map<ResourceName, Address>): Container {
    Container(NameOf(q), true, labels, image, None, [NetworkOf(q)], addresses, mounts, Some([]), Some([]), None,
              q.environment)
  }

  function SecretContent(s: SecretFile): File {
    File(s.digest, s.mode, true, MAX_UID)
  }

  function RetainedVolumes(q: Install): map<VolumeName, Volume> {
    map resource | resource in q.retained ::
      NodeVolume(q.workspace, q.node, resource) := Volume(InstallLabels(q)[VolumeKind := Closed(RetainedData)], None)
  }

  /** Everything but the container is in place. */
  function Placed(q: Install, image: Image, containers: map<string, Container>, used: set<string>,
                  log: seq<Call>): World
    requires Modest(q)
  {
    World(containers,
          RetainedVolumes(q)[
            SecretName(q, q.secretFiles[0], MAX_UID) :=
              Volume(SecretLabels(q, q.secretFiles[0], MAX_UID), Some(SecretContent(q.secretFiles[0])))],
          map[NetworkOf(q) := RuntimeLabels(q)], map[q.image := image], used, log)
  }

  lemma RetainedArePlaced(w: World, q: Install)
    requires forall n | n in RetainedVolumes(q) :: n in w.volumes && w.volumes[n] == RetainedVolumes(q)[n]
    ensures RetainedsHeld(w, q, |q.retained|)
  {
    forall i | 0 <= i < |q.retained| ensures RetainedHeld(w, q, q.retained[i]) {
      assert NodeVolume(q.workspace, q.node, q.retained[i]) in RetainedVolumes(q);
    }
  }

  lemma PlacedIsInPlace(q: Install, image: Image, containers: map<string, Container>, used: set<string>, log: seq<Call>)
    requires Modest(q) && q.image in image.pins && image.owner == Some(MAX_UID)
    ensures var w := Placed(q, image, containers, used, log);
            && InPlace(w, q, Ready(image, MAX_UID)) && Supplied(w, q, MAX_UID) && FilesHeld(w, q, MAX_UID)
  {
    MadeLabelsOwn(q, q.secretFiles[0], MAX_UID);
    var w := Placed(q, image, containers, used, log);
    RetainedArePlaced(w, q);
  }

  /** The address of the replacement, given without its network's id. */
  function ZonedAddresses(q: Install): map<ResourceName, Address> {
    LinkLocalIsIpv6(Capacity.LongestHost(q) - 8);
    map[NetworkOf(q) := RawAddress(Capacity.ZonedHost(q), false)]
  }

  function Former(q: Install): Labels {
    InstallLabels(q)[Fingerprint := Digest(OfSelection(""))]
  }

  /** The old container passes every check before the first change and is not the same
      installation. */
  lemma FormerIsAdmitted(d: Daemon, q: Install, image: ImageId)
    requires Modest(q)
    ensures var c := Node(q, image, Former(q), [], map[]);
            Admissible(d, q, c) && !SameNode(q, c) && RetainedOf(q, c) == {}
  {
    InstallLabelsAre(q);
    assert Former(q)[Fingerprint] == Digest(OfSelection(""));
  }

  /** What the checks at the end read back from the new container. */
  lemma ReplacementIsVerified(w: World, d: Daemon, q: Install, image: Image, id: string)
    requires Modest(q) && id in w.containers && FilesHeld(w, q, MAX_UID) && image.user == None
    requires w.containers[id]
          == Node(q, image.id, InstallLabels(q), MountsOf(q, MAX_UID), ZonedAddresses(q))
    ensures Verified(w, d, q, id, Ready(image, MAX_UID))
    ensures HostOf(q, w.containers[id]) == Capacity.ZonedHost(q)
  {
    ReplacementCorrelates(q);
    LinkLocalIsIpv6(Capacity.LongestHost(q) - 8);
  }

  lemma ReplacementCorrelates(q: Install)
    requires Modest(q)
    ensures Correlates(InstallLabels(q), InstallLabels(q), true)
  {
    InstallLabelsAre(q);
  }

  /** The worlds of the run. */
  datatype Run = Run(start: World, removed: World, created: World, end: World)

  /** The run of the source: the old container is admitted, removed by its id and read back as
      absent; the new one is made, started under its id and verified. */
  ghost predicate Replaces(run: Run, d: Daemon, q: Install, former: string, id: string, ready: Ready) {
    && Starts(run.start, d, q, former, ready) && Bindable(q)
    && RemovedOld(run.start, run.removed, former)
    && CreatedNew(run.removed, run.created, q, MountsOf(q, ready.owner), id)
    && run.end == Logged(run.created, Look(id, true))
    && Verified(run.end, d, q, id, ready)
  }

  /** Every check before the first change passes. */
  ghost predicate Starts(w: World, d: Daemon, q: Install, former: string, ready: Ready) {
    && Consistent(w) && Named(w, q, former)
    && Admissible(d, q, w.containers[former]) && !SameNode(q, w.containers[former])
    && InPlace(w, q, ready) && Supplied(w, q, ready.owner)
  }

  function StartWorld(q: Install, image: Image, former: string): World
    requires Modest(q)
  {
    Placed(q, image, map[former := Node(q, image.id, Former(q), [], map[])], {former}, [])
  }

  function EndWorld(q: Install, image: Image, former: string, id: string, calls: seq<Call>): World
    requires Modest(q)
  {
    Placed(q, image, map[id := Node(q, image.id, InstallLabels(q), MountsOf(q, MAX_UID), ZonedAddresses(q))],
           {former, id}, calls)
  }

  function Removal(former: string): seq<Call> {
    [Look(former, true), Remove(former, true), Look(former, false)]
  }

  lemma OldIsRemoved(q: Install, image: Image, former: string)
    requires Modest(q)
    ensures RemovedOld(StartWorld(q, image, former), Placed(q, image, map[], {former}, Removal(former)), former)
  {
  }

  lemma NewIsCreated(q: Install, image: Image, former: string, id: string)
    requires Modest(q) && image.user == None && Hex64(id) && id != former
    ensures CreatedNew(Placed(q, image, map[], {former}, Removal(former)),
                       EndWorld(q, image, former, id,
                                Removal(former) + [Create(NameOf(q), Some(id), false), Start(id, true)]),
                       q, MountsOf(q, MAX_UID), id)
  {
  }

  lemma StartIsReady(d: Daemon, q: Install, image: Image, former: string)
    requires Modest(q) && q.image in image.pins && image.owner == Some(MAX_UID) && Hex64(former)
    ensures Starts(StartWorld(q, image, former), d, q, former, Ready(image, MAX_UID))
    ensures RetainedOf(q, StartWorld(q, image, former).containers[former]) == {}
  {
    var w := StartWorld(q, image, former);
    PlacedIsInPlace(q, image, w.containers, w.used, w.log);
    FormerIsAdmitted(d, q, image.id);
  }

  lemma EndIsVerified(d: Daemon, q: Install, image: Image, former: string, id: string, calls: seq<Call>)
    requires Modest(q) && q.image in image.pins && image.owner == Some(MAX_UID) && image.user == None
    ensures var w := EndWorld(q, image, former, id, calls);
            Verified(w, d, q, id, Ready(image, MAX_UID)) && HostOf(q, w.containers[id]) == Capacity.ZonedHost(q)
  {
    var w := EndWorld(q, image, former, id, calls);
    PlacedIsInPlace(q, image, w.containers, w.used, w.log);
    ReplacementIsVerified(w, d, q, image, id);
  }

  lemma RunCanReplace(d: Daemon, q: Install, image: Image, former: string, id: string) returns (run: Run)
    requires Modest(q) && q.image in image.pins && image.owner == Some(MAX_UID) && image.user == None
    requires Hex64(former) && Hex64(id) && id != former
    ensures Replaces(run, d, q, former, id, Ready(image, MAX_UID))
    ensures RetainedOf(q, run.start.containers[former]) == {}
    ensures HostOf(q, run.end.containers[id]) == Capacity.ZonedHost(q)
  {
    var made := Removal(former) + [Create(NameOf(q), Some(id), false), Start(id, true)];
    run := Run(StartWorld(q, image, former), Placed(q, image, map[], {former}, Removal(former)),
               EndWorld(q, image, former, id, made), EndWorld(q, image, former, id, made + [Look(id, true)]));
    StartIsReady(d, q, image, former);
    OldIsRemoved(q, image, former);
    NewIsCreated(q, image, former, id);
    EndIsVerified(d, q, image, former, id, made + [Look(id, true)]);
  }

  lemma ReplacementActs(w: World, w1: World, w2: World, q: Install, former: string, id: string, mounts: seq<Mount>,
                        f: Mark)
    requires Consistent(w) && former in w.containers && former != id
    requires RemovedOld(w, w1, former) && CreatedNew(w1, w2, q, mounts, id)
    requires f == Mark(Some(former), Some(id), true, false, Recreated)
    ensures Acted(w, w2, q, f, Capacity.Replaced)
    ensures MadeFrom(w, RecipeOf(q, mounts), w2.containers[id].(running := false))
  {
    RemovalThenCreation(w, w1, w2, q, f, Some(Seen(Some(former), w.containers[former])), mounts);
  }

  lemma ReplacementRealizes(run: Run, d: Daemon, q: Install, former: string, id: string, ready: Ready, f: Mark)
    requires Replaces(run, d, q, former, id, ready) && former != id
    requires f == Mark(Some(former), Some(id), true, false, Recreated)
    ensures RealizedAs(run.start, run.start, run.created, q, f, ready, Capacity.Replaced)
  {
    ReplacementActs(run.start, run.removed, run.created, q, former, id, MountsOf(q, ready.owner), f);
    NewRealizes(run.start, run.start, run.created, q, f, ready, Capacity.Replaced);
  }

  /** Such a run finishes: it satisfies everything that is said of a success. */
  lemma ReplacementFinishes(run: Run, d: Daemon, q: Install, former: string, id: string, ready: Ready, f: Mark,
                            phase: Phase, done: Done)
    requires Replaces(run, d, q, former, id, ready) && q.reconcile && former != id
    requires f == Mark(Some(former), Some(id), true, false, Recreated)
    requires done == Done(Capacity.Replaced, Some(former), id, HostOf(q, run.end.containers[id]))
    ensures Finishes(run.start, run.start, run.end, d, q, f, phase, Success(done))
  {
    ReplacementRealizes(run, d, q, former, id, ready, f);
    FinalStands(run.start, run.start, run.start, run.created, run.end, d, q, f, ready, done);
  }

  /** A success whose attempt is one that can be reached from a passed preflight, and which is
      reported as uncertain all the same. */
  predicate Unreported(z: Capacity.Sizes, q: Install, f: Facts, done: Done, failure: nat) {
    && Capacity.PreflightPasses(z, q, Opening(q, f.retained)) && Capacity.Reachable(q, f.retained, f)
    && Report(z, q, f, Success(done), failure) == Stopped(Capacity.Uncertain)
  }

  /** Where the reserve does not cover the longest host there is a run whose success is reported as
      uncertain, in the tightest envelope that passes the preflight. */
  lemma SuccessCanGoUnreported(d: Daemon, z: Capacity.Sizes, q: Install, former: string, id: string, failure: nat)
    returns (run: Run, ready: Ready, f: Facts, done: Done)
    requires Modest(q) && !Capacity.CapacityCovers(z, q) && failure <= Capacity.FAILURE_BOUND
    requires z.limit == Capacity.MaximumLength(z, q, Opening(q, {}))
    requires Hex64(former) && Hex64(id) && id != former
    ensures Replaces(run, d, q, former, id, ready)
    ensures RetainedOf(q, run.start.containers[former]) == f.retained
    ensures Finishes(run.start, run.start, run.end, d, q, MarkOf(f), f.phase, Success(done))
    ensures Unreported(z, q, f, done, failure)
  {
    var image := Image(ZERO_ID, {q.image}, None, Some(MAX_UID));
    ready := Ready(image, MAX_UID);
    run := RunCanReplace(d, q, image, former, id);
    f := Capacity.Replacement(q, Opening(q, {}), former, id);
    done := Done(Capacity.Replaced, Some(former), id, Capacity.ZonedHost(q));
    ReplacementFinishes(run, d, q, former, id, ready, MarkOf(f), f.phase, done);
    UncoveredIsNotReported(z, q, {}, former, id, failure);
  }
}
