// Installing one node with selected material: decide between create, reuse and replace, do it,
// verify it, and say exactly what was done.

module Installation {
  import opened Wrappers
  import opened DockerLabels
  import opened DockerDaemon
  import opened DockerAuthority
  import opened ConfigurationAttempt
  import opened ConfigurationStaging
  import opened NodePreparation
  import opened NodeAdmission
  import Capacity = EvidenceCapacity

  type Disposition = Capacity.Disposition

  // ---- what stops an installation, and what it has left ----

  /** Errors that are reported as a definite failure. */
  predicate Definite(e: Raised) {
    e == Precondition || e == MaterialConflict || e == EvidenceInvalid
  }

  /** The daemon did not raise on this call. */
  predicate CallOk(c: Call) {
    && (c.Create? ==> !c.raised) && (c.Remove? ==> c.ok) && (c.Start? ==> c.ok)
  }

  predicate AllOk(w: World, w': World) {
    w.log <= w'.log && forall c | c in Sent(w, w') :: CallOk(c)
  }

  /** What is true of the world whenever the installation stops with an error. */
  predicate Stopping(w0: World, w: World, q: Install, e: Raised, phase: Phase) {
    && w0.log <= w.log
    && (e == UnsupportedAuthority ==> w == w0)
    && (e == ControlError ==> Prepared(w0, w))
    && (Definite(e) ==> Prepared(w0, w) || (phase == InstalledVerification && AllOk(w0, w)))
    && (!q.reconcile ==> NoRemoval(w0, w))
  }

  lemma PreparedStops(w0: World, w: World, q: Install, e: Raised, phase: Phase)
    requires Prepared(w0, w) && (e == UnsupportedAuthority ==> w == w0)
    ensures Stopping(w0, w, q, e, phase)
  {
  }

  // ---- what no run touches ----

  /** Nothing but addition, except for one captured container: no other container that was there
      has changed, no other was removed or tried to be, and what is new has an id of its own. */
  predicate OnlyCaptured(w: World, w': World, captured: Option<string>) {
    && w.log <= w'.log && Extends(w, w') && w.used <= w'.used
    && (forall c | c in Sent(w, w') && c.Remove? :: captured == Some(c.removed))
    && (forall id | id in w.containers && captured != Some(id) :: Unchanged(w, w', id))
    && (forall id | id in w'.containers :: id in w.containers || id !in w.used)
  }

  predicate Unchanged(w: World, w': World, id: string)
    requires id in w.containers
  {
    id in w'.containers && w'.containers[id] == w.containers[id]
  }

  lemma CapturedThen(a: World, b: World, c: World, captured: Option<string>)
    requires OnlyCaptured(a, b, captured) && OnlyCaptured(b, c, captured)
    ensures OnlyCaptured(a, c, captured)
  {
    assert Sent(a, c) == Sent(a, b) + Sent(b, c);
    forall id | id in a.containers && captured != Some(id) ensures Unchanged(a, c, id) {
      assert Unchanged(a, b, id) && Unchanged(b, c, id);
    }
  }

  lemma PreparedCaptures(w: World, w': World, captured: Option<string>)
    requires Prepared(w, w')
    ensures OnlyCaptured(w, w', captured)
  {
  }

  lemma StartedCaptures(w: World, w': World, id: string, ok: bool)
    requires w' == w || Started(w, w', id, ok)
    ensures OnlyCaptured(w, w', Some(id))
  {
    assert w'.log == w.log || w'.log == w.log + [Start(id, ok)];
  }

  lemma AdditionCaptures(w: World, w': World, id: string, calls: seq<Call>, captured: Option<string>)
    requires SameStores(w, w') && w'.log == w.log + calls && forall c | c in calls :: !c.Remove?
    requires id !in w.used && id !in w.containers && w'.used == w.used + {id}
    requires id in w'.containers && w'.containers == w.containers[id := w'.containers[id]]
    ensures OnlyCaptured(w, w', captured)
  {
    assert Sent(w, w') == calls;
  }

  lemma OneCreated(w: World, w': World, id: string, c: Container, call: Call, captured: Option<string>)
    requires FreshContainer(w, id, c) && w' == Logged(WithContainer(w, id, c), call) && call.Create?
    ensures OnlyCaptured(w, w', captured)
  {
    AdditionCaptures(w, w', id, [call], captured);
  }

  lemma CreationCaptures(w: World, w': World, q: Install, mounts: seq<Mount>, out: Result<Option<string>, Raised>,
                         captured: Option<string>)
    requires CreateSent(w, w', RecipeOf(q, mounts), out)
    ensures OnlyCaptured(w, w', captured)
  {
    var name := NameOf(q);
    match out
    case Success(Some(id)) =>
      var c :| FreshContainer(w, id, c) && w' == Logged(WithContainer(w, id, c), Create(name, Some(id), false));
      OneCreated(w, w', id, c, Create(name, Some(id), false), captured);
    case Success(None) =>
      var id, c :| FreshContainer(w, id, c) && w' == Logged(WithContainer(w, id, c), Create(name, None, false));
      OneCreated(w, w', id, c, Create(name, None, false), captured);
    case Failure(_) =>
      var call := Create(name, None, true);
      if w' == Logged(w, call) {
        assert Sent(w, w') == [call];
      } else {
        var id, c :| FreshContainer(w, id, c) && w' == Logged(WithContainer(w, id, c), call);
        OneCreated(w, w', id, c, call, captured);
      }
  }

  lemma LookCaptures(w: World, w': World, id: string, found: bool, captured: Option<string>)
    requires w' == w || w' == Logged(w, Look(id, found))
    ensures OnlyCaptured(w, w', captured)
  {
    assert w'.log == w.log || w'.log == w.log + [Look(id, found)];
  }

  // ---- the first look ----

  function RetainedOf(q: Install, c: Container): set<VolumeName> {
    if q.selected then set m | m in c.mounts :: m.volume else {}
  }

  /** The attempt as the preflight measures it. */
  function Opening(q: Install, retained: set<VolumeName>): Facts {
    FRESH.(retained := retained)
  }

  predicate RetainedBounded(z: Capacity.Sizes, retained: set<VolumeName>) {
    |retained| <= 32 && forall v | v in retained :: z.nameLength(v) <= 256
  }

  /** The preflight would pass for a node whose container is `c`. */
  predicate CapacityPasses(z: Capacity.Sizes, q: Install, c: Container) {
    && RetainedBounded(z, RetainedOf(q, c))
    && Capacity.PreflightPasses(z, q, Opening(q, RetainedOf(q, c)))
  }

  /** The first look shows the container with the node's name, wherever it may not fail. */
  ghost predicate BeginsWith(w: World, reliable: bool, z: Capacity.Sizes, q: Install,
                             r: Result<Option<Seen>, Raised>) {
    && (forall id | Named(w, q, id) ::
          && (r.Failure? || (r.value.Some? && r.value.value.container == w.containers[id]))
          && (reliable && CapacityPasses(z, q, w.containers[id]) ==>
                r == Success(Some(Seen(Some(id), w.containers[id])))))
    && (reliable && Vacant(w, NameOf(q)) && Capacity.PreflightPasses(z, q, Opening(q, {})) ==> r == Success(None))
  }

  method Begin(d: Daemon, z: Capacity.Sizes, q: Install, attempt: Attempt)
    returns (r: Result<Option<Seen>, Raised>, ghost retained: set<VolumeName>)
    requires Consistent(d.world) && attempt.Now() == FRESH
    modifies attempt`retained
    ensures attempt.Now() == Opening(q, retained)
    ensures r.Failure? || Capacity.PreflightPasses(z, q, Opening(q, retained))
    ensures r == Success(None) ==> Vacant(d.world, NameOf(q))
    ensures r.Success? && r.value.Some? ==> SeenIn(d.world, r.value.value, NameOf(q))
    ensures r.Failure? ==> r.error == Other || r.error == Precondition
    ensures BeginsWith(d.world, d.reliable, z, q, r)
  {
    retained := {};
    var shown := d.InspectContainer(NameOf(q));
    if shown.Failure? {
      return shown, retained;
    }
    var inspection := shown.value;
    forall id | Named(d.world, q, id)
      ensures && inspection.Some? && inspection.value.container == d.world.containers[id]
              && (inspection.value.id.Some? ==> inspection.value.id.value == id)
    {
    }
    if q.selected && inspection.Some? {
      var mounted := RetainedOf(q, inspection.value.container);
      if !RetainedBounded(z, mounted) {
        return Failure(Precondition), retained;
      }
      attempt.retained, retained := mounted, mounted;
    }
    r := if Capacity.PreflightPasses(z, q, attempt.Now()) then Success(inspection) else Failure(Precondition);
  }

  // ---- admission of an existing container ----

  predicate SameInstallation(q: Install, labels: Labels) {
    && FingerprintMatches(labels, InstallLabels(q))
    && (q.selection.Some? ==> Get(labels, ConfigurationSelection) == Some(Digest(OfSelection(q.selection.value))))
  }

  /** The same declarations and the same selection. */
  predicate SameNode(q: Install, c: Container) {
    && SameMaterial(q, c)
    && (q.selection.Some? ==>
          && ConfigurationSelection in c.labels
          && c.labels[ConfigurationSelection] == Digest(OfSelection(q.selection.value)))
  }

  /** What the node's container must be before anything is changed: its own, with conforming
      authority, for a StartNode labelled as this request labels it, and for a reconciliation with
      authority deliveries the same installation. */
  ghost predicate Admissible(d: Daemon, q: Install, c: Container) {
    && OwnNode(q, c) && ConformsExactly(d, q, c)
    && (!q.reconcile ==> LabelledAlike(c.labels, InstallLabels(q), false, false))
    && (q.reconcile && q.deliveries != [] ==> SameNode(q, c))
  }

  lemma SameIsSame(q: Install, c: Container)
    ensures SameNode(q, c) <==> SameInstallation(q, c.labels)
    ensures Correlates(c.labels, InstallLabels(q), false) ==> SameNode(q, c)
  {
    OwnNodeIs(q, c);
    if Correlates(c.labels, InstallLabels(q), false) {
      CorrelationMeaning(c.labels, InstallLabels(q), false);
      InstallLabelsAre(q);
    }
  }

  datatype Admission = Admission(delivery: Delivery, same: bool)

  ghost predicate Admitted(d: Daemon, q: Install, inspection: Option<Seen>, a: Admission) {
    && Declared(d, q) == Success(a.delivery)
    && (inspection.None? ==> !a.same)
    && (inspection.Some? ==>
          && inspection.value.id.Some? && Admissible(d, q, inspection.value.container)
          && (a.same <==> SameNode(q, inspection.value.container))
          && (!q.reconcile ==> a.same))
  }

  /** What carrying a decision out needs of it. */
  predicate Decided(d: Daemon, q: Install, inspection: Option<Seen>, a: Admission) {
    && Declared(d, q) == Success(a.delivery)
    && (inspection.None? ==> !a.same)
    && (inspection.Some? && !q.reconcile ==> a.same)
  }

  /** Where no read fails everything admissible is admitted; what is not the node's own is a broken
      precondition. */
  ghost predicate AdmitsExactly(d: Daemon, q: Install, inspection: Option<Seen>, r: Result<Admission, Raised>) {
    Declared(d, q).Success? ==>
      && (d.reliable && inspection.None? ==> r.Success?)
      && (inspection.Some? && inspection.value.id.Some? ==>
            && (d.reliable && Admissible(d, q, inspection.value.container) ==> r.Success?)
            && (!OwnNode(q, inspection.value.container) ==> r == Failure(Precondition)))
  }

  /** Admits the container that was seen, exactly if it is admissible where no read fails. */
  method Admit(d: Daemon, q: Install, attempt: Attempt, inspection: Option<Seen>) returns (r: Result<Admission, Raised>)
    modifies attempt`phase, attempt`prior
    ensures attempt.prior == old(attempt.prior) || (inspection.Some? && attempt.prior == inspection.value.id)
    ensures attempt.phase == AuthorityPreflight
    ensures r.Success? ==> Admitted(d, q, inspection, r.value)
    ensures r.Success? ==> attempt.prior == if inspection.Some? then inspection.value.id else old(attempt.prior)
    ensures r.Failure? ==> r.error == UnsupportedAuthority || r.error == Precondition || r.error == Other
    ensures AdmitsExactly(d, q, inspection, r)
  {
    attempt.phase := AuthorityPreflight;
    var delivery :- DeclaredDelivery(d, q);
    if inspection.None? {
      return Success(Admission(delivery, false));
    }
    var seen := inspection.value;
    if seen.id.None? {
      return Failure(Other);
    }
    attempt.prior := seen.id;
    var c := seen.container;
    OwnNodeIs(q, c);
    CorrelationIs(c.labels, InstallLabels(q), false);
    SameIsSame(q, c);
    if !NodeOwner(c.labels, InstallLabels(q)) || !MaterialEvidence(c.labels) || c.networks != [NetworkOf(q)] {
      return Failure(Precondition);
    }
    var _ :- RequireAuthority(d, c, delivery, false);
    var same := SameInstallation(q, c.labels);
    if !q.reconcile {
      if !Correlates(c.labels, InstallLabels(q), false) {
        return Failure(Precondition);
      }
    } else if q.deliveries != [] && !same {
      return Failure(UnsupportedAuthority);
    }
    r := Success(Admission(delivery, same));
  }

  // ---- image, secrets, network and configuration ----

  /** The secrets and the pull credential, resolved again for this run. */
  method ResolveMaterial(resolves: bool) returns (r: Result<(), Raised>)
    ensures r.Failure? ==> r.error == Precondition || r.error == ControlError || r.error == Other
    ensures resolves ==> r.Success?
  {
    var e: Raised, ok: bool := *, *;
    r := if ok || resolves then Success(())
         else Failure(if e == Precondition || e == ControlError then e else Other);
  }

  datatype Ready = Ready(image: Image, owner: Uid)

  /** The admitted image and the owner of the secret files it determines. */
  predicate Recipiency(w: World, q: Install, ready: Ready) {
    && ImageReady(w, q) && w.images[q.image] == ready.image && ready.owner == OwnerOf(q, ready.image)
    && (q.secretFiles != [] ==> ready.image.owner.Some?)
  }

  /** What is in place before the container is touched. */
  predicate InPlace(w: World, q: Install, ready: Ready) {
    && Recipiency(w, q, ready)
    && NetworkOwned(w, q)
    && (q.selection.Some? ==> StagedUpTo(w, q, |q.references|))
  }

  lemma InPlaceStays(w: World, w': World, q: Install, ready: Ready)
    requires InPlace(w, q, ready) && Extends(w, w')
    ensures InPlace(w', q, ready)
  {
    if q.selection.Some? {
      StagedStays(w, w', q, |q.references|);
    }
  }

  predicate SecretsReadyFor(w: World, q: Install, id: string, image: Image)
    requires id in w.containers
  {
    SecretsReady(w, q, w.containers[id], image)
  }

  lemma SecretsReadyStays(w: World, w': World, q: Install, id: string, image: Image)
    requires Prepared(w, w') && id in w.containers && SecretsReadyFor(w, q, id, image)
    ensures SecretsReadyFor(w', q, id, image)
  {
    if q.secretFiles != [] {
      SecretsStay(w, w', q, |q.secretFiles|, OwnerOf(q, image));
    }
  }

  /** The image and the secrets of a container that is not to be replaced are there already. */
  ghost predicate MaterialInPlace(w: World, q: Install, id: string) {
    && ImageReady(w, q) && Named(w, q, id) && !Replacing(q, w.containers[id])
    && SecretsReadyFor(w, q, id, w.images[q.image])
  }

  /** Resolves, admits the image and checks the secret recipient. */
  method AdmitMaterial(d: Daemon, q: Install, resolves: bool, ghost id: string) returns (r: Result<Ready, Raised>)
    requires Consistent(d.world)
    modifies d
    ensures Consistent(d.world) && Prepared(old(d.world), d.world)
    ensures r.Success? ==>
              && Recipiency(d.world, q, r.value)
              && (Named(d.world, q, id) && !Replacing(q, d.world.containers[id]) ==>
                    SecretsReadyFor(d.world, q, id, r.value.image))
    ensures r.Failure? ==>
              || r.error == Other || r.error == Precondition
              || (r.error == ControlError && d.world == old(d.world))
    ensures d.reliable && resolves && old(MaterialInPlace(d.world, q, id)) ==> r.Success? && d.world == old(d.world)
  {
    var _ :- ResolveMaterial(resolves);
    var image :- AdmitImage(d, q);
    var owner :- PreflightSecrets(d, q, image, id);
    r := Success(Ready(image, owner));
  }

  /** The network and the selected configuration; the attempt follows the staging. */
  method PlaceConfiguration(d: Daemon, q: Install, attempt: Attempt) returns (r: Result<(), Raised>)
    requires Consistent(d.world) && attempt.attempted == attempt.staged == []
    modifies d, attempt`attempted, attempt`staged, attempt`phase
    ensures Consistent(d.world) && Prepared(old(d.world), d.world)
    ensures attempt.phase == Network || attempt.phase == ConfigurationStaging
    ensures InStep(attempt.attempted, attempt.staged) && |attempt.attempted| <= Capacity.ConfigurationCount(q)
    ensures r.Success? ==> NetworkOwned(d.world, q) && (q.selection.Some? ==> StagedUpTo(d.world, q, |q.references|))
    ensures r.Failure? ==> r.error == Other || Definite(r.error)
    ensures old(&& d.reliable && NetworkOwned(d.world, q)
                && (q.selection.Some? ==> StagedUpTo(d.world, q, |q.references|))) ==>
              r.Success? && d.world == old(d.world)
  {
    ghost var w := d.world;
    attempt.phase := Network;
    InStepAt(0);
    var network := EnsureNetwork(d, q);
    if network.Failure? || q.selection.None? {
      return network;
    }
    ghost var between := d.world;
    var mounts := Stage(d, q, attempt);
    PreparedThen(w, between, d.world);
    r := match mounts case Failure(e) => Failure(e) case Success(_) => Success(());
  }

  // ---- the container ----

  /** Only containers may differ. */
  predicate SameStores(w: World, w': World) {
    w'.volumes == w.volumes && w'.networks == w.networks && w'.images == w.images
  }

  /** Keeps the container; starts it if it is not running. */
  method Reuse(d: Daemon, q: Install, attempt: Attempt, id: string, ready: Ready) returns (r: Result<(), Raised>)
    requires Consistent(d.world) && id in d.world.containers
    requires forall i | 0 <= i < PlaceCount(q) :: PlacedArtifact(q, i).Some?
    modifies d, attempt`container, attempt`secretStaged, attempt`phase, attempt`action
    ensures Consistent(d.world)
    ensures attempt.container == Some(id) && attempt.secretStaged == Range(|q.secretFiles|)
    ensures r.Success? ==>
              if old(d.world).containers[id].running then d.world == old(d.world) && attempt.action == ReusedAction
              else Started(old(d.world), d.world, id, true) && attempt.action == StartedAction
    ensures r.Failure? ==> attempt.action == old(attempt.action)
    ensures r.Failure? ==>
              || (Definite(r.error) && d.world == old(d.world))
              || (r.error == Other && (d.world == old(d.world) || Started(old(d.world), d.world, id, false)))
    ensures (&& d.reliable && old(d.world).containers[id].running && InstalledFiles(old(d.world), id, q)
             && Suits(old(d.world).containers[id], q, InstallLabels(q), ready.image.id)) ==> r.Success?
    ensures r == Failure(EvidenceInvalid) ==> attempt.phase == InstalledVerification
  {
    var c := d.world.containers[id];
    attempt.container := Some(id);
    attempt.secretStaged := Range(|q.secretFiles|);
    if !Suits(c, q, InstallLabels(q), ready.image.id) {
      return Failure(Precondition);
    }
    attempt.phase := InstalledVerification;
    var _ :- MatchInstalled(d, id, q);
    if !c.running {
      attempt.phase := ContainerStart;
      var _ :- d.StartContainer(id);
      attempt.action := StartedAction;
    } else {
      attempt.action := ReusedAction;
    }
    r := Success(());
  }

  predicate RemovedOld(w: World, w': World, id: string) {
    && SameStores(w, w') && w'.used == w.used && w'.containers == w.containers - {id}
    && w'.log == w.log + [Look(id, true), Remove(id, true), Look(id, false)]
  }

  /** Whatever happened: nothing was removed but, at most, the captured container, under its id
      and while it was what had been admitted. */
  predicate RemovedAtMost(w: World, w': World, id: string, admitted: Container) {
    && SameStores(w, w') && w'.used == w.used && w.log <= w'.log
    && (forall c | c in Sent(w, w') && c.Remove? :: c.removed == id)
    && (|| w'.containers == w.containers
        || (id in w.containers && w.containers[id] == admitted && w'.containers == w.containers - {id}))
  }

  /** Removes the admitted container by its captured id, only if it still is what was admitted,
      and reads its absence back. */
  method RemoveOld(d: Daemon, attempt: Attempt, seen: Seen) returns (r: Result<(), Raised>)
    requires Consistent(d.world) && seen.id.Some?
    modifies d, attempt`phase, attempt`oldRemoved
    ensures Consistent(d.world) && old(d.world).log <= d.world.log
    ensures RemovedAtMost(old(d.world), d.world, seen.id.value, seen.container)
    ensures r.Success? ==> attempt.oldRemoved && RemovedOld(old(d.world), d.world, seen.id.value)
    ensures r.Failure? ==> r.error == Other && attempt.oldRemoved == old(attempt.oldRemoved)
  {
    var id := seen.id.value;
    ghost var w := d.world;
    var current :- d.LookUp(id);
    assert d.world.log == w.log + [Look(id, current.Some?)];
    if current != Some(seen) {
      return Failure(Other);
    }
    attempt.phase := ContainerRemove;
    var removed := d.RemoveContainer(id);
    assert d.world.log == w.log + [Look(id, true), Remove(id, removed.Success?)];
    var _ :- removed;
    var gone :- d.LookUp(id);
    assert d.world.log == w.log + [Look(id, true), Remove(id, true), Look(id, gone.Some?)];
    if gone.Some? {
      return Failure(Other);
    }
    attempt.oldRemoved := true;
    r := Success(());
  }

  function RecipeOf(q: Install, mounts: seq<Mount>): Recipe {
    Recipe(NameOf(q), q.image, q.environment + q.secretEnvironment, InstallLabels(q), mounts, NetworkOf(q))
  }

  /** A new container was made, and started under its own id. */
  predicate CreatedNew(w: World, w': World, q: Install, mounts: seq<Mount>, id: string) {
    && id !in w.used && Hex64(id) && SameStores(w, w')
    && id in w'.containers && w'.containers == w.containers[id := w'.containers[id]]
    && MadeFrom(w, RecipeOf(q, mounts), w'.containers[id].(running := false))
    && w'.log == w.log + [Create(NameOf(q), Some(id), false), Start(id, true)]
  }

  lemma CreationThenStart(w: World, w1: World, w2: World, q: Install, mounts: seq<Mount>, id: string, ok: bool,
                          captured: Option<string>)
    requires CreateSent(w, w1, RecipeOf(q, mounts), Success(Some(id))) && Started(w1, w2, id, ok)
    ensures NoRemoval(w, w1) && NoRemoval(w, w2)
    ensures ok ==> CreatedNew(w, w2, q, mounts, id)
    ensures id !in w.used && id in w2.containers && OnlyCaptured(w, w2, captured)
  {
    var c :| FreshContainer(w, id, c) && MadeFrom(w, RecipeOf(q, mounts), c)
          && w1 == Logged(WithContainer(w, id, c), Create(NameOf(q), Some(id), false));
    assert w2.containers[id].(running := false) == c;
    assert w2.containers == w.containers[id := w2.containers[id]];
    AdditionCaptures(w, w2, id, [Create(NameOf(q), Some(id), false), Start(id, ok)], captured);
  }

  lemma CreationRemovesNothing(w: World, w1: World, q: Install, mounts: seq<Mount>, out: Result<Option<string>, Raised>)
    requires CreateSent(w, w1, RecipeOf(q, mounts), out)
    ensures NoRemoval(w, w1)
  {
    assert w1.log == w.log + [w1.log[|w.log|]] && w1.log[|w.log|].Create?;
  }

  method CreateNew(d: Daemon, q: Install, attempt: Attempt, mounts: seq<Mount>, ghost captured: Option<string>)
    returns (r: Result<string, Raised>)
    requires Consistent(d.world)
    modifies d, attempt`phase, attempt`unknownCreated, attempt`container
    ensures Consistent(d.world) && NoRemoval(old(d.world), d.world)
    ensures r.Success? ==>
              && CreatedNew(old(d.world), d.world, q, mounts, r.value)
              && attempt.container == Some(r.value) && !attempt.unknownCreated
    ensures r.Failure? ==> r.error == Other
    ensures r.Failure? ==>
              || attempt.unknownCreated
              || (&& attempt.container.Some? && attempt.container.value !in old(d.world).used
                  && attempt.container.value in d.world.containers)
    ensures OnlyCaptured(old(d.world), d.world, captured)
  {
    ghost var w := d.world;
    attempt.phase := ContainerCreate;
    attempt.unknownCreated := true;
    var identity := d.MakeContainer(RecipeOf(q, mounts));
    CreationRemovesNothing(w, d.world, q, mounts, identity);
    CreationCaptures(w, d.world, q, mounts, identity, captured);
    if identity.Failure? || identity.value.None? || !Hex64(identity.value.value) {
      return Failure(Other);
    }
    var id := identity.value.value;
    attempt.container := Some(id);
    attempt.unknownCreated := false;
    attempt.phase := ContainerStart;
    ghost var made := d.world;
    var started := d.StartContainer(id);
    CreationThenStart(w, made, d.world, q, mounts, id, started.Success?, captured);
    r := if started.Success? then Success(id) else Failure(started.error);
  }

  // ---- what was done ----

  function Tail(q: Install, f: Mark, disposition: Disposition): seq<Call>
    requires f.container.Some? && (disposition.Replaced? ==> f.prior.Some?)
  {
    var made := [Create(NameOf(q), f.container, false), Start(f.container.value, true)];
    match disposition
    case Created => made
    case Reused => if f.action == StartedAction then [Start(f.container.value, true)] else []
    case Replaced => [Look(f.prior.value, true), Remove(f.prior.value, true), Look(f.prior.value, false)] + made
  }

  /** After the preparation, the container calls were exactly those of the disposition. */
  ghost predicate Acted(prep: World, w: World, q: Install, f: Mark, disposition: Disposition) {
    && SameStores(prep, w) && Capacity.Finished(f, disposition)
    && f.container.value in w.containers
    && w.log == prep.log + Tail(q, f, disposition)
  }

  lemma ActedCleanly(w0: World, prep: World, w: World, q: Install, f: Mark, disposition: Disposition)
    requires Prepared(w0, prep) && Acted(prep, w, q, f, disposition)
    ensures AllOk(w0, w)
    ensures !disposition.Replaced? ==> NoRemoval(w0, w)
  {
    assert Sent(w0, w) == Sent(w0, prep) + Tail(q, f, disposition);
  }

  function MountsOf(q: Install, owner: Uid): seq<Mount> {
    ConfigurationMounts(q) + SecretMounts(q, |q.secretFiles|, owner)
  }

  /** Each secret is mounted exactly once by what the request asks for; without secret files
      there is nothing to count. */
  predicate MountsOnce(q: Install, owner: Uid) {
    forall i | 0 <= i < |q.secretFiles| ::
      CountOf(MountsOf(q, owner), Mount(q.secretFiles[i].target, SecretName(q, q.secretFiles[i], owner))) == 1
  }

  /** The read-only mounts of a node have different targets. */
  predicate DistinctTargets(q: Install, owner: Uid) {
    var mounts := MountsOf(q, owner);
    forall i, j | 0 <= i < j < |mounts| :: mounts[i].target != mounts[j].target
  }

  lemma {:induction false} CountOnce(mounts: seq<Mount>, k: nat)
    requires k < |mounts| && forall i, j | 0 <= i < j < |mounts| :: mounts[i].target != mounts[j].target
    ensures CountOf(mounts, mounts[k]) == 1
  {
    if k == 0 {
      CountNone(mounts[1..], mounts[0]);
    } else {
      CountOnce(mounts[1..], k - 1);
    }
  }

  lemma {:induction false} CountNone(mounts: seq<Mount>, m: Mount)
    requires forall i | 0 <= i < |mounts| :: mounts[i] != m
    ensures CountOf(mounts, m) == 0
  {
    if mounts != [] {
      CountNone(mounts[1..], m);
    }
  }

  lemma DistinctMountsOnce(q: Install, owner: Uid)
    requires DistinctTargets(q, owner)
    ensures MountsOnce(q, owner)
  {
    var n, mounts := |ConfigurationMounts(q)|, MountsOf(q, owner);
    forall i | 0 <= i < |q.secretFiles|
      ensures CountOf(mounts, Mount(q.secretFiles[i].target, SecretName(q, q.secretFiles[i], owner))) == 1
    {
      CountOnce(mounts, n + i);
    }
  }

  lemma MadeSecretsReady(w: World, q: Install, c: Container, ready: Ready)
    requires Recipiency(w, q, ready) && MadeFrom(w, RecipeOf(q, c.mounts), c.(running := false))
    requires c.mounts == MountsOf(q, ready.owner)
    requires SecretsStaged(w, q, |q.secretFiles|, ready.owner) && MountsOnce(q, ready.owner)
    ensures SecretsReady(w, q, c, ready.image)
  {
    InstallLabelsAre(q);
    assert c.labels == InstallLabels(q);
  }

  // ---- the last look ----

  function HostOf(q: Install, c: Container): string {
    if NetworkOf(q) in c.addresses then c.addresses[NetworkOf(q)].text else q.node
  }

  predicate FilesHeld(w: World, q: Install, owner: nat) {
    forall i | 0 <= i < |q.secretFiles| ::
      var name := SecretName(q, q.secretFiles[i], owner);
      name in w.volumes && SecretHeld(w.volumes[name].file, q.secretFiles[i], owner)
  }

  ghost predicate Verified(w: World, d: Daemon, q: Install, id: string, ready: Ready) {
    && id in w.containers
    && var c := w.containers[id];
       && Suits(c, q, InstallLabels(q), ready.image.id) && c.running
       && ConformsExactly(d, q, c) && InstalledFiles(w, id, q)
       && (q.selected ==>
             && Recipient(w, id, ready.image, q.secretEnvironment, SecretMounts(q, |q.secretFiles|, ready.owner))
             && FilesHeld(w, q, ready.owner))
       && |HostOf(q, c)| <= Capacity.LongestHost(q)
  }

  lemma VerifiedIgnoresLog(w: World, w': World, d: Daemon, q: Install, id: string, ready: Ready)
    requires SameStores(w, w') && w'.containers == w.containers
    ensures Verified(w', d, q, id, ready) <==> Verified(w, d, q, id, ready)
  {
    forall i | 0 <= i < PlaceCount(q) ensures InstalledFile(w', id, q, i) <==> InstalledFile(w, id, q, i) {
      var m := ConfigurationMounts(q)[i];
      assert forall f :: MountedFile(w', id, m, f) == MountedFile(w, id, m, f);
    }
  }

  /** Reads everything back from the container with the recorded id. */
  method VerifyInstalled(d: Daemon, q: Install, attempt: Attempt, id: string, ready: Ready, delivery: Delivery)
    returns (r: Result<string, Raised>)
    requires Consistent(d.world) && Declared(d, q) == Success(delivery)
    requires forall i | 0 <= i < PlaceCount(q) :: PlacedArtifact(q, i).Some?
    modifies d, attempt`phase
    ensures attempt.phase == InstalledVerification
    ensures d.world == old(d.world) || exists found :: d.world == Logged(old(d.world), Look(id, found))
    ensures r.Success? ==>
              && d.world == Logged(old(d.world), Look(id, true)) && Verified(d.world, d, q, id, ready)
              && r.value == HostOf(q, d.world.containers[id])
    ensures r.Failure? ==> r.error == Other || Definite(r.error)
    ensures d.reliable && Verified(old(d.world), d, q, id, ready) ==> r.Success?
  {
    attempt.phase := InstalledVerification;
    ghost var w := d.world;
    var observed :- d.LookUp(id);
    VerifiedIgnoresLog(w, d.world, d, q, id, ready);
    if observed.None? || observed.value.id != Some(id) {
      return Failure(Other);
    }
    var c := observed.value.container;
    if !Suits(c, q, InstallLabels(q), ready.image.id) || !c.running {
      return Failure(Precondition);
    }
    var _ :- RequireAuthority(d, c, delivery, true);
    var _ :- MatchInstalled(d, id, q);
    if q.selected {
      var _ :- d.VerifyRecipient(id, ready.image, q.secretEnvironment, SecretMounts(q, |q.secretFiles|, ready.owner),
                                 FilesHeld(d.world, q, ready.owner));
    }
    r := if |HostOf(q, c)| > Capacity.LongestHost(q) then Failure(Other) else Success(HostOf(q, c));
  }

  // ---- create or replace ----

  /** The attempt before the container is touched. */
  predicate Untouched(f: Facts) {
    && f.container.None? && !f.oldRemoved && !f.unknownCreated && f.action == NotStarted
    && f.secretAttempted == f.secretStaged == [] && !f.unknownMaterialization
  }

  /** Which container an inspection showed, if any, is the one the attempt has captured. */
  ghost predicate Captured(w: World, f: Mark, inspection: Option<Seen>) {
    match inspection
    case None => f.prior.None?
    case Some(s) =>
      s.id.Some? && f.prior == s.id && s.id.value in w.containers && w.containers[s.id.value] == s.container
  }

  method RemoveAndCreate(d: Daemon, q: Install, attempt: Attempt, inspection: Option<Seen>, ready: Ready)
    returns (r: Result<(), Raised>)
    requires Consistent(d.world) && Captured(d.world, attempt.Marked(), inspection)
    requires attempt.container.None? && !attempt.oldRemoved && !attempt.unknownCreated
    modifies d, attempt`phase, attempt`oldRemoved, attempt`unknownCreated, attempt`container, attempt`action
    ensures Consistent(d.world) && old(d.world).log <= d.world.log
    ensures inspection.None? ==> NoRemoval(old(d.world), d.world)
    ensures r.Success? ==>
              && Acted(old(d.world), d.world, q, attempt.Marked(),
                       if inspection.None? then Capacity.Created else Capacity.Replaced)
              && MadeFrom(old(d.world), RecipeOf(q, MountsOf(q, ready.owner)),
                          d.world.containers[attempt.container.value].(running := false))
    ensures r.Failure? ==> r.error == Other && attempt.action == old(attempt.action)
    ensures OnlyCaptured(old(d.world), d.world, attempt.prior)
  {
    ghost var w := d.world;
    LookCaptures(w, w, "", false, attempt.prior);
    if inspection.Some? {
      var removed := RemoveOld(d, attempt, inspection.value);
      RemovalCaptures(w, d.world, inspection.value.id.value, inspection.value.container);
      if removed.Failure? {
        return removed;
      }
    }
    ghost var between := d.world;
    var created := CreateNew(d, q, attempt, MountsOf(q, ready.owner), attempt.prior);
    CapturedThen(w, between, d.world, attempt.prior);
    if created.Failure? {
      return Failure(created.error);
    }
    attempt.action := if inspection.None? then CreatedAction else Recreated;
    RemovalThenCreation(w, between, d.world, q, attempt.Marked(), inspection, MountsOf(q, ready.owner));
    r := Success(());
  }

  lemma RemovalCaptures(w: World, w': World, id: string, admitted: Container)
    requires RemovedAtMost(w, w', id, admitted)
    ensures OnlyCaptured(w, w', Some(id))
  {
  }

  lemma RemovalThenCreation(w: World, w1: World, w2: World, q: Install, f: Mark, inspection: Option<Seen>,
                            mounts: seq<Mount>)
    requires Consistent(w) && Captured(w, f, inspection)
    requires f.container.Some? && !f.unknownCreated && CreatedNew(w1, w2, q, mounts, f.container.value)
    requires if inspection.None? then w1 == w && !f.oldRemoved && f.action == CreatedAction
             else RemovedOld(w, w1, f.prior.value) && f.oldRemoved && f.action == Recreated
    ensures Acted(w, w2, q, f, if inspection.None? then Capacity.Created else Capacity.Replaced)
    ensures MadeFrom(w, RecipeOf(q, mounts), w2.containers[f.container.value].(running := false))
  {
    if inspection.Some? {
      assert f.prior.value in w.used;
    }
  }

  // ---- from a world in place to an installed container ----

  /** The container calls of the disposition, on a prepared world; a kept container is the one
      captured, a new one was made from the recipe. */
  ghost predicate RealizedAs(w: World, prep: World, w': World, q: Install, f: Mark, ready: Ready,
                             disposition: Disposition) {
    && Prepared(w, prep) && Acted(prep, w', q, f, disposition)
    && if disposition.Reused?
       then prep == w && f.container == f.prior && f.prior.value in w.containers
            && (w' == w || Started(w, w', f.container.value, true))
       else Supplied(prep, q, ready.owner) && Bindable(q)
            && MadeFrom(prep, RecipeOf(q, MountsOf(q, ready.owner)),
                        w'.containers[f.container.value].(running := false))
  }

  lemma PlacedFromStaged(w: World, q: Install, ready: Ready)
    requires InPlace(w, q, ready)
    ensures forall i | 0 <= i < PlaceCount(q) :: PlacedArtifact(q, i).Some?
  {
    forall i | 0 <= i < PlaceCount(q) ensures PlacedArtifact(q, i).Some? {
      if q.selection.Some? {
        assert StagedAt(w, q, i);
      }
    }
  }

  lemma StartedStores(w: World, w': World, id: string, ok: bool)
    requires w' == w || Started(w, w', id, ok)
    ensures SameStores(w, w') && Extends(w, w') && w.log <= w'.log && NoRemoval(w, w')
    ensures id in w.containers ==>
              id in w'.containers && w'.containers[id].(running := w.containers[id].running) == w.containers[id]
  {
    assert w'.log == w.log || w'.log == w.log + [Start(id, ok)];
  }

  lemma StartedKeeps(w: World, w': World, q: Install, id: string, ready: Ready, ok: bool)
    requires InPlace(w, q, ready) && id in w.containers && SecretsReadyFor(w, q, id, ready.image)
    requires w' == w || Started(w, w', id, ok)
    ensures InPlace(w', q, ready) && id in w'.containers && SecretsReadyFor(w', q, id, ready.image)
  {
    StartedStores(w, w', id, ok);
    InPlaceStays(w, w', q, ready);
    if q.secretFiles != [] {
      SecretsStay(w, w', q, |q.secretFiles|, ready.owner);
    }
  }

  lemma StopsAfter(w0: World, prep: World, w: World, q: Install, e: Raised, phase: Phase)
    requires Prepared(w0, prep) && prep.log <= w.log && e == Other
    requires !q.reconcile ==> NoRemoval(prep, w)
    ensures Stopping(w0, w, q, e, phase)
  {
    assert Sent(w0, w) == Sent(w0, prep) + Sent(prep, w);
  }

  /** Stopping after more preparation is stopping. */
  lemma StoppingThen(w0: World, prep: World, w: World, q: Install, e: Raised, phase: Phase)
    requires Prepared(w0, prep) && Stopping(prep, w, q, e, phase) && e != UnsupportedAuthority
    ensures Stopping(w0, w, q, e, phase)
  {
    assert Sent(w0, w) == Sent(w0, prep) + Sent(prep, w);
    if Prepared(prep, w) {
      PreparedThen(w0, prep, w);
    }
  }

  lemma KeptRealizes(w: World, w': World, q: Install, f: Mark, ready: Ready, id: string)
    requires id in w.containers && f.container == f.prior == Some(id) && !f.oldRemoved && !f.unknownCreated
    requires if w.containers[id].running then w' == w && f.action == ReusedAction
             else Started(w, w', id, true) && f.action == StartedAction
    ensures RealizedAs(w, w, w', q, f, ready, Capacity.Reused)
  {
    StartedStores(w, w', id, true);
  }

  lemma KeptStops(w: World, w': World, q: Install, id: string, e: Raised, phase: Phase)
    requires (Definite(e) && w' == w) || (e == Other && (w' == w || Started(w, w', id, false)))
    ensures Stopping(w, w', q, e, phase)
  {
    StartedStores(w, w', id, false);
  }

  /** Keeps the same installation. */
  method RealizeSame(d: Daemon, q: Install, attempt: Attempt, id: string, ready: Ready) returns (r: Result<(), Raised>)
    requires Consistent(d.world) && id in d.world.containers
    requires Untouched(attempt.Now()) && attempt.prior == Some(id)
    requires forall i | 0 <= i < PlaceCount(q) :: PlacedArtifact(q, i).Some?
    modifies d, attempt`container, attempt`secretStaged, attempt`phase, attempt`action
    ensures Consistent(d.world)
    ensures attempt.secretStaged == Range(|q.secretFiles|)
    ensures r.Success? ==> RealizedAs(old(d.world), old(d.world), d.world, q, attempt.Marked(), ready, Capacity.Reused)
    ensures r.Failure? ==> Stopping(old(d.world), d.world, q, r.error, attempt.phase)
                           && r.error != UnsupportedAuthority && r.error != ControlError
    ensures OnlyCaptured(old(d.world), d.world, attempt.prior)
    ensures (&& d.reliable && old(d.world).containers[id].running && InstalledFiles(old(d.world), id, q)
             && Suits(old(d.world).containers[id], q, InstallLabels(q), ready.image.id)) ==>
              r.Success? && d.world == old(d.world)
    ensures r == Failure(EvidenceInvalid) ==> attempt.phase == InstalledVerification
  {
    ghost var w := d.world;
    r := Reuse(d, q, attempt, id, ready);
    StartedCaptures(w, d.world, id, r.Success?);
    if r.Success? {
      KeptRealizes(w, d.world, q, attempt.Marked(), ready, id);
    } else {
      KeptStops(w, d.world, q, id, r.error, attempt.phase);
    }
  }

  lemma MadeKeeps(prep: World, w: World, q: Install, f: Mark, disposition: Disposition, ready: Ready)
    requires InPlace(prep, q, ready) && Acted(prep, w, q, f, disposition)
    requires SecretsStaged(prep, q, |q.secretFiles|, ready.owner)
    requires MadeFrom(prep, RecipeOf(q, MountsOf(q, ready.owner)), w.containers[f.container.value].(running := false))
    ensures InPlace(w, q, ready)
    ensures MountsOnce(q, ready.owner) ==> SecretsReadyFor(w, q, f.container.value, ready.image)
  {
    InPlaceStays(prep, w, q, ready);
    if MountsOnce(q, ready.owner) {
      MadeSecretsReady(prep, q, w.containers[f.container.value], ready);
      if q.secretFiles != [] {
        SecretsStay(prep, w, q, |q.secretFiles|, ready.owner);
      }
    }
  }

  lemma NewRealizes(w: World, prep: World, w': World, q: Install, f: Mark, ready: Ready, disposition: Disposition)
    requires Prepared(w, prep) && Acted(prep, w', q, f, disposition) && !disposition.Reused?
    requires Supplied(prep, q, ready.owner) && Bindable(q)
    requires MadeFrom(prep, RecipeOf(q, MountsOf(q, ready.owner)), w'.containers[f.container.value].(running := false))
    ensures RealizedAs(w, prep, w', q, f, ready, disposition)
  {
  }

  /** After the preparation: stops if it failed, and otherwise removes and creates. */
  method Replace(d: Daemon, q: Install, attempt: Attempt, inspection: Option<Seen>, ready: Ready,
                 mounts: Result<seq<Mount>, Raised>, ghost w: World)
    returns (r: Result<(), Raised>)
    requires Consistent(d.world) && Captured(d.world, attempt.Marked(), inspection) && Prepared(w, d.world)
    requires attempt.container.None? && !attempt.oldRemoved && (mounts.Success? ==> !attempt.unknownCreated)
    requires inspection.Some? ==> q.reconcile
    requires mounts.Success? ==> Supplied(d.world, q, ready.owner) && Bindable(q)
    requires mounts.Failure? ==> PreparationError(mounts.error)
    modifies d, attempt`phase, attempt`oldRemoved, attempt`unknownCreated, attempt`container, attempt`action
    ensures Consistent(d.world)
    ensures r.Success? ==>
              RealizedAs(w, old(d.world), d.world, q, attempt.Marked(), ready,
                         if inspection.None? then Capacity.Created else Capacity.Replaced)
    ensures r.Failure? ==> Stopping(w, d.world, q, r.error, attempt.phase)
                           && r.error != UnsupportedAuthority && r.error != ControlError
    ensures OnlyCaptured(w, d.world, attempt.prior)
    ensures r != Failure(EvidenceInvalid)
  {
    ghost var prep := d.world;
    PreparedCaptures(w, prep, attempt.prior);
    if mounts.Failure? {
      PreparedStops(w, prep, q, mounts.error, attempt.phase);
      return Failure(mounts.error);
    }
    r := RemoveAndCreate(d, q, attempt, inspection, ready);
    CapturedThen(w, prep, d.world, attempt.prior);
    if r.Failure? {
      StopsAfter(w, prep, d.world, q, r.error, attempt.phase);
    } else {
      NewRealizes(w, prep, d.world, q, attempt.Marked(), ready,
                  if inspection.None? then Capacity.Created else Capacity.Replaced);
    }
  }

  /** Prepares, removes what is to be replaced, and creates. */
  method RealizeNew(d: Daemon, q: Install, attempt: Attempt, inspection: Option<Seen>, ready: Ready)
    returns (r: Result<(), Raised>, ghost prep: World)
    requires Consistent(d.world) && Untouched(attempt.Now()) && Captured(d.world, attempt.Marked(), inspection)
    requires inspection.Some? ==> q.reconcile
    modifies d, attempt`phase, attempt`oldRemoved, attempt`unknownCreated, attempt`container, attempt`action,
             attempt`unknownMaterialization, attempt`secretAttempted, attempt`secretStaged
    ensures Consistent(d.world)
    ensures InStep(attempt.secretAttempted, attempt.secretStaged) && |attempt.secretAttempted| <= |q.secretFiles|
    ensures r.Success? ==>
              RealizedAs(old(d.world), prep, d.world, q, attempt.Marked(), ready,
                         if inspection.None? then Capacity.Created else Capacity.Replaced)
    ensures r.Failure? ==> Stopping(old(d.world), d.world, q, r.error, attempt.phase)
                           && r.error != UnsupportedAuthority && r.error != ControlError
    ensures OnlyCaptured(old(d.world), d.world, attempt.prior)
    ensures r != Failure(EvidenceInvalid)
  {
    ghost var w := d.world;
    attempt.phase := ContainerPreparation;
    var mounts := Prepare(d, q, attempt, ready.owner, ConfigurationMounts(q));
    prep := d.world;
    r := Replace(d, q, attempt, inspection, ready, mounts, w);
  }

  // ---- the whole installation ----

  /** A success: what was done, to which containers, and where the node is reached. */
  datatype Done = Done(disposition: Disposition, prior: Option<string>, current: string, host: string)

  /** The disposition is read off the attempt's recorded identities; None is the branch for
      recorded facts that fit no disposition. */
  function DispositionOf(f: Mark): Option<Disposition> {
    if f.unknownCreated || f.container.None? then None
    else if f.prior.None? && !f.oldRemoved then Some(Capacity.Created)
    else if f.prior == f.container && !f.oldRemoved then Some(Capacity.Reused)
    else if f.prior.Some? && f.prior != f.container && f.oldRemoved then Some(Capacity.Replaced)
    else None
  }

  lemma DispositionNeverFallsThrough(f: Mark, disposition: Disposition)
    requires Capacity.Finished(f, disposition)
    ensures DispositionOf(f) == Some(disposition)
  {
  }

  datatype Decision = Decision(inspection: Option<Seen>, admission: Admission)

  /** A container that every check before the first change accepts as the same installation. */
  ghost predicate Acceptable(w: World, d: Daemon, z: Capacity.Sizes, q: Install, id: string) {
    && Named(w, q, id) && CapacityPasses(z, q, w.containers[id])
    && Admissible(d, q, w.containers[id]) && SameNode(q, w.containers[id])
  }

  /** A container of the node's name that is not admissible is refused, and where no read fails one
      that is not the node's own is a broken precondition. */
  ghost predicate Refuses(w: World, d: Daemon, z: Capacity.Sizes, q: Install, failed: bool, precondition: bool) {
    forall id | Named(w, q, id) ::
      && (!Admissible(d, q, w.containers[id]) ==> failed)
      && ((&& d.reliable && Declared(d, q).Success? && CapacityPasses(z, q, w.containers[id])
           && !OwnNode(q, w.containers[id])) ==> precondition)
  }

  /** Either there is no container of that name, or an admissible one; and the capacity preflight
      passes for it. */
  ghost predicate CanOpen(w: World, d: Daemon, z: Capacity.Sizes, q: Install) {
    || (Vacant(w, NameOf(q)) && Capacity.PreflightPasses(z, q, Opening(q, {})))
    || exists id :: Named(w, q, id) && CapacityPasses(z, q, w.containers[id]) && Admissible(d, q, w.containers[id])
  }

  /** What the decision to go on has established of the container with the node's name, if there
      is one. */
  ghost predicate Chosen(w: World, d: Daemon, q: Install, prior: Option<string>, same: bool) {
    && Declared(d, q).Success?
    && match prior
       case None => Vacant(w, NameOf(q)) && !same
       case Some(id) =>
         && Named(w, q, id) && Admissible(d, q, w.containers[id])
         && (same <==> SameNode(q, w.containers[id])) && (!q.reconcile ==> same)
  }

  /** A decision that was reached: what was seen and admitted, and the container captured. */
  ghost predicate DecidedOn(d: Daemon, q: Install, f: Mark, decision: Decision)
    reads d
  {
    && Decided(d, q, decision.inspection, decision.admission)
    && Captured(d.world, f, decision.inspection)
    && Chosen(d.world, d, q, f.prior, decision.admission.same)
  }

  method Decide(d: Daemon, z: Capacity.Sizes, q: Install, attempt: Attempt)
    returns (r: Result<Decision, Raised>, ghost retained: set<VolumeName>)
    requires Consistent(d.world) && attempt.Now() == FRESH
    modifies attempt`retained, attempt`phase, attempt`prior
    ensures attempt.Now() == Opening(q, retained).(phase := attempt.phase, prior := attempt.prior)
    ensures r.Failure? || Capacity.PreflightPasses(z, q, Opening(q, retained))
    ensures r.Failure? || DecidedOn(d, q, attempt.Marked(), r.value)
    ensures r.Failure? ==> r.error == UnsupportedAuthority || r.error == Precondition || r.error == Other
    ensures attempt.prior.Some? ==> Named(d.world, q, attempt.prior.value)
    ensures Refuses(d.world, d, z, q, r.Failure?, r == Failure(Precondition))
    ensures d.reliable && Declared(d, q).Success? && CanOpen(d.world, d, z, q) ==> r.Success?
  {
    var begun;
    begun, retained := Begin(d, z, q, attempt);
    if begun.Failure? {
      NothingShown(d, z, q, begun.error);
      return Failure(begun.error), retained;
    }
    r := AdmitSeen(d, z, q, attempt, begun.value);
  }

  /** Admits what the first look has shown. */
  method AdmitSeen(d: Daemon, ghost z: Capacity.Sizes, q: Install, attempt: Attempt, inspection: Option<Seen>)
    returns (r: Result<Decision, Raised>)
    requires BeginsWith(d.world, d.reliable, z, q, Success(inspection)) && attempt.prior.None?
    requires inspection.None? ==> Vacant(d.world, NameOf(q))
    requires inspection.Some? ==> SeenIn(d.world, inspection.value, NameOf(q))
    modifies attempt`phase, attempt`prior
    ensures r.Failure? || DecidedOn(d, q, attempt.Marked(), r.value)
    ensures r.Failure? ==> r.error == UnsupportedAuthority || r.error == Precondition || r.error == Other
    ensures attempt.prior.Some? ==> Named(d.world, q, attempt.prior.value)
    ensures Refuses(d.world, d, z, q, r.Failure?, r == Failure(Precondition))
    ensures d.reliable && Declared(d, q).Success? && CanOpen(d.world, d, z, q) ==> r.Success?
  {
    var admission := Admit(d, q, attempt, inspection);
    OpeningDecides(d, z, q, inspection, admission);
    SeenIsNamed(d.world, q, inspection, attempt.Marked());
    if admission.Failure? {
      return Failure(admission.error);
    }
    AdmittedIsCaptured(d, q, inspection, admission.value, attempt.Marked());
    r := Success(Decision(inspection, admission.value));
  }

  /** Where no read fails, the one container that is acceptable is the one that is kept. */
  lemma AcceptedIsKept(d: Daemon, z: Capacity.Sizes, q: Install, prior: Option<string>, id: string, decided: bool,
                       same: bool)
    requires Consistent(d.world) && Acceptable(d.world, d, z, q, id)
    requires Declared(d, q).Success? && CanOpen(d.world, d, z, q) ==> decided
    requires decided ==> Chosen(d.world, d, q, prior, same)
    ensures decided && prior == Some(id) && same
  {
  }

  lemma NothingShown(d: Daemon, z: Capacity.Sizes, q: Install, e: Raised)
    requires BeginsWith(d.world, d.reliable, z, q, Failure(e))
    ensures Refuses(d.world, d, z, q, true, e == Precondition)
    ensures d.reliable ==> !CanOpen(d.world, d, z, q)
  {
  }

  lemma OpeningDecides(d: Daemon, z: Capacity.Sizes, q: Install, inspection: Option<Seen>,
                       admission: Result<Admission, Raised>)
    requires BeginsWith(d.world, d.reliable, z, q, Success(inspection))
    requires inspection.None? ==> Vacant(d.world, NameOf(q))
    requires AdmitsExactly(d, q, inspection, admission)
    requires admission.Success? && inspection.Some? ==> Admissible(d, q, inspection.value.container)
    ensures Refuses(d.world, d, z, q, admission.Failure?, admission == Failure(Precondition))
    ensures d.reliable && Declared(d, q).Success? && CanOpen(d.world, d, z, q) ==> admission.Success?
  {
  }

  lemma OpeningIsUntouched(q: Install, f: Facts, retained: set<VolumeName>)
    requires f == Opening(q, retained).(phase := f.phase, prior := f.prior)
    ensures Untouched(f) && f.attempted == f.staged == [] && f.fileOwner.None?
  {
  }

  lemma SeenIsNamed(w: World, q: Install, inspection: Option<Seen>, f: Mark)
    requires inspection.Some? ==> SeenIn(w, inspection.value, NameOf(q))
    requires f.prior.None? || (inspection.Some? && f.prior == inspection.value.id)
    ensures f.prior.Some? ==>
              Named(w, q, f.prior.value) && w.containers[f.prior.value] == inspection.value.container
  {
  }

  lemma AdmittedIsCaptured(d: Daemon, q: Install, inspection: Option<Seen>, a: Admission, f: Mark)
    requires Admitted(d, q, inspection, a)
    requires f.prior == if inspection.Some? then inspection.value.id else None
    requires f.prior.Some? ==>
               Named(d.world, q, f.prior.value) && d.world.containers[f.prior.value] == inspection.value.container
    requires inspection.None? ==> Vacant(d.world, NameOf(q))
    ensures Captured(d.world, f, inspection)
    ensures Chosen(d.world, d, q, f.prior, a.same)
  {
  }

  lemma ChosenIsKept(w: World, d: Daemon, q: Install, prior: Option<string>, same: bool)
    requires Chosen(w, d, q, prior, same) && same
    ensures prior.Some? && Named(w, q, prior.value) && !Replacing(q, w.containers[prior.value])
  {
    OwnNodeIs(q, w.containers[prior.value]);
  }

  ghost predicate Settled(w: World, q: Install, id: string) {
    && MaterialInPlace(w, q, id) && NetworkOwned(w, q)
    && (q.selection.Some? ==> StagedUpTo(w, q, |q.references|))
  }

  /** Everything is in place, and for the same installation so are the container's secrets. */
  ghost predicate ReadyFor(w: World, q: Install, same: bool, prior: Option<string>, ready: Ready) {
    && InPlace(w, q, ready)
    && (forall i | 0 <= i < PlaceCount(q) :: PlacedArtifact(q, i).Some?)
    && (same ==> prior.Some? && Named(w, q, prior.value) && SecretsReadyFor(w, q, prior.value, ready.image))
  }

  function ReadyOf(w: World, q: Install): Ready
    requires q.image in w.images
  {
    Ready(w.images[q.image], OwnerOf(q, w.images[q.image]))
  }

  /** The world already is what the installation would make of it. */
  ghost predicate Again(w: World, d: Daemon, q: Install, id: string) {
    Settled(w, q, id) && Verified(w, d, q, id, ReadyOf(w, q))
  }

  method GetReady(d: Daemon, q: Install, attempt: Attempt, resolves: bool, ghost same: bool,
                  ghost prior: Option<string>, ghost settled: bool)
    returns (r: Result<Ready, Raised>)
    requires settled ==> d.reliable && resolves && prior.Some? && Settled(d.world, q, prior.value)
    requires same ==> prior.Some? && Named(d.world, q, prior.value) && !Replacing(q, d.world.containers[prior.value])
    requires Consistent(d.world) && attempt.attempted == attempt.staged == [] && attempt.fileOwner.None?
    modifies d, attempt`attempted, attempt`staged, attempt`phase, attempt`fileOwner
    ensures Consistent(d.world) && Prepared(old(d.world), d.world)
    ensures EarlyIndices(q, attempt.attempted, attempt.staged, attempt.fileOwner)
    ensures r.Success? ==> ReadyFor(d.world, q, same, prior, r.value)
    ensures r.Failure? ==> r.error != UnsupportedAuthority
    ensures settled ==> r == Success(ReadyOf(old(d.world), q)) && d.world == old(d.world)
  {
    ghost var w := d.world;
    ghost var id := if prior.Some? then prior.value else "";
    InStepAt(0);
    var ready :- AdmitMaterial(d, q, resolves, id);
    ghost var between := d.world;
    attempt.fileOwner := if q.secretFiles == [] then None else Some(ready.owner);
    var placed := PlaceConfiguration(d, q, attempt);
    PreparedThen(w, between, d.world);
    if placed.Failure? {
      return Failure(placed.error);
    }
    ReadyAfterPlacing(between, d.world, q, id, ready);
    PlacedFromStaged(d.world, q, ready);
    r := Success(ready);
  }

  lemma ReadyAfterPlacing(w: World, w': World, q: Install, id: string, ready: Ready)
    requires Recipiency(w, q, ready) && Prepared(w, w')
    requires NetworkOwned(w', q) && (q.selection.Some? ==> StagedUpTo(w', q, |q.references|))
    ensures InPlace(w', q, ready)
    ensures id in w.containers && SecretsReadyFor(w, q, id, ready.image) ==>
              id in w'.containers && SecretsReadyFor(w', q, id, ready.image)
  {
    if id in w.containers && SecretsReadyFor(w, q, id, ready.image) {
      SecretsReadyStays(w, w', q, id, ready.image);
    }
  }

  /** What is true of the finished world, apart from what was done. */
  ghost predicate Standing(w: World, d: Daemon, q: Install, id: string, ready: Ready) {
    && InPlace(w, q, ready) && Verified(w, d, q, id, ready) && Named(w, q, id)
    && (MountsOnce(q, ready.owner) ==> SecretsReadyFor(w, q, id, ready.image))
  }

  predicate EarlyIndices(q: Install, attempted: seq<nat>, staged: seq<nat>, owner: Option<nat>) {
    && InStep(attempted, staged) && |attempted| <= Capacity.ConfigurationCount(q)
    && (owner.Some? ==> q.secretFiles != [] && owner.value <= MAX_UID)
  }

  predicate SecretIndices(q: Install, attempted: seq<nat>, staged: seq<nat>) {
    && attempted == Range(|attempted|) && |attempted| <= |q.secretFiles|
    && staged == Range(|staged|) && |staged| <= |q.secretFiles|
  }

  /** From a decided installation with everything in place: act on the container. */
  method Realize(d: Daemon, q: Install, attempt: Attempt, decision: Decision, ready: Ready)
    returns (r: Result<(), Raised>, ghost prep: World, ghost disposition: Disposition)
    requires Consistent(d.world) && Untouched(attempt.Now()) && Captured(d.world, attempt.Marked(), decision.inspection)
    requires Decided(d, q, decision.inspection, decision.admission)
    requires forall i | 0 <= i < PlaceCount(q) :: PlacedArtifact(q, i).Some?
    modifies d, attempt`phase, attempt`oldRemoved, attempt`unknownCreated, attempt`container, attempt`action,
             attempt`unknownMaterialization, attempt`secretAttempted, attempt`secretStaged
    ensures SecretIndices(q, attempt.secretAttempted, attempt.secretStaged)
    ensures Consistent(d.world)
    ensures r.Success? ==> RealizedAs(old(d.world), prep, d.world, q, attempt.Marked(), ready, disposition)
    ensures disposition.Reused? == decision.admission.same && (!q.reconcile ==> !disposition.Replaced?)
    ensures r.Failure? ==> Stopping(old(d.world), d.world, q, r.error, attempt.phase)
                           && r.error != UnsupportedAuthority && r.error != ControlError
    ensures OnlyCaptured(old(d.world), d.world, attempt.prior)
    ensures (&& d.reliable && decision.admission.same && decision.inspection.value.container.running
             && InstalledFiles(old(d.world), decision.inspection.value.id.value, q)
             && Suits(decision.inspection.value.container, q, InstallLabels(q), ready.image.id)) ==>
              r.Success? && d.world == old(d.world)
    ensures r == Failure(EvidenceInvalid) ==> attempt.phase == InstalledVerification
  {
    prep := d.world;
    disposition := Capacity.Reused;
    if decision.admission.same {
      r := RealizeSame(d, q, attempt, decision.inspection.value.id.value, ready);
    } else {
      disposition := if decision.inspection.None? then Capacity.Created else Capacity.Replaced;
      r, prep := RealizeNew(d, q, attempt, decision.inspection, ready);
    }
  }

  lemma StandsAfter(w: World, prep: World, w': World, q: Install, f: Mark, ready: Ready, disposition: Disposition)
    requires InPlace(w, q, ready) && RealizedAs(w, prep, w', q, f, ready, disposition)
    requires disposition.Reused? ==> SecretsReadyFor(w, q, f.container.value, ready.image)
    ensures InPlace(w', q, ready)
    ensures MountsOnce(q, ready.owner) ==> SecretsReadyFor(w', q, f.container.value, ready.image)
  {
    if disposition.Reused? {
      StartedKeeps(w, w', q, f.container.value, ready, true);
    } else {
      InPlaceStays(w, prep, q, ready);
      MadeKeeps(prep, w', q, f, disposition, ready);
    }
  }

  lemma StandsLogged(w: World, q: Install, id: string, ready: Ready, c: Call)
    requires InPlace(w, q, ready) && id in w.containers
    ensures InPlace(Logged(w, c), q, ready)
    ensures SecretsReadyFor(w, q, id, ready.image) ==> SecretsReadyFor(Logged(w, c), q, id, ready.image)
  {
    InPlaceStays(w, Logged(w, c), q, ready);
    if q.secretFiles != [] && SecretsReadyFor(w, q, id, ready.image) {
      SecretsStay(w, Logged(w, c), q, |q.secretFiles|, ready.owner);
    }
  }

  /** The container was made for this request: under its name, with its labels, on its network, of
      its image, with everything its environment and its secrets bind, and with exactly what it asks for
      mounted; all of that is in the node's own volumes. */
  ghost predicate MadeAsAsked(w: World, q: Install, id: string) {
    && id in w.containers && q.image in w.images
    && var c := w.containers[id];
       && c.name == ContainerName(q.workspace, q.node) && c.labels == InstallLabels(q)
       && c.networks == [NetworkName(q.workspace, q.runtime)]
       && c.image == w.images[q.image].id && c.user == w.images[q.image].user
       && (forall k | k in q.environment :: k in c.environment && c.environment[k] == q.environment[k])
       && (forall k | k in q.secretEnvironment :: k in c.environment && c.environment[k] == q.secretEnvironment[k])
       && MountedAsAsked(q, OwnerOf(q, w.images[q.image]), c.mounts)
       && Supplied(w, q, OwnerOf(q, w.images[q.image]))
  }

  ghost predicate MountedAsAsked(q: Install, owner: nat, mounts: seq<Mount>) {
    && SecretsMounted(q, if q.selection.Some? then |q.references| else |q.artifacts|, owner, mounts)
    && if q.selection.Some? then SelectedMounted(q, mounts) else PlainsMounted(q, mounts)
  }

  lemma MountsOfAreAsked(w: World, q: Install, ready: Ready)
    requires InPlace(w, q, ready)
    ensures MountedAsAsked(q, ready.owner, MountsOf(q, ready.owner))
  {
    MountsAreAsked(q, ConfigurationMounts(q), ready.owner);
    if q.selection.Some? {
      SelectedAreMounted(w, q, SecretMounts(q, |q.secretFiles|, ready.owner));
    }
  }

  lemma RecipeIsAsked(prep: World, w: World, q: Install, ready: Ready, id: string)
    requires InPlace(prep, q, ready) && Supplied(prep, q, ready.owner) && Bindable(q)
    requires Extends(prep, w) && id in w.containers
    requires MadeFrom(prep, RecipeOf(q, MountsOf(q, ready.owner)), w.containers[id].(running := false))
    ensures MadeAsAsked(w, q, id)
  {
    MountsOfAreAsked(prep, q, ready);
    SuppliedStays(prep, w, q, ready.owner);
    var c, bound := w.containers[id], q.environment + q.secretEnvironment;
    assert forall k | k in q.environment :: k in bound && bound[k] == q.environment[k];
    assert forall k | k in q.secretEnvironment :: k in bound && bound[k] == q.secretEnvironment[k];
  }

  /** Everything a success claims about the calls that were made. */
  ghost predicate Accomplished(w0: World, prep: World, w: World, q: Install, f: Mark, done: Done) {
    && Prepared(w0, prep) && Capacity.Finished(f, done.disposition)
    && done.prior == f.prior && Some(done.current) == f.container
    && w.log == prep.log + Tail(q, f, done.disposition) + [Look(done.current, true)]
    && (!q.reconcile ==> !done.disposition.Replaced?)
    && done.current in w.containers && done.host == HostOf(q, w.containers[done.current])
    && (!done.disposition.Reused? ==> MadeAsAsked(w, q, done.current))
    && |done.host| <= Capacity.LongestHost(q)
  }

  /** After the container was acted on: verify it and name the disposition. */
  method Conclude(d: Daemon, q: Install, attempt: Attempt, ready: Ready, delivery: Delivery,
                  ghost disposition: Disposition)
    returns (r: Result<Done, Raised>)
    requires Consistent(d.world) && Declared(d, q) == Success(delivery)
    requires forall i | 0 <= i < PlaceCount(q) :: PlacedArtifact(q, i).Some?
    requires Capacity.Finished(attempt.Marked(), disposition)
    modifies d, attempt`phase
    ensures attempt.phase == InstalledVerification
    ensures r.Success? ==>
              && d.world == Logged(old(d.world), Look(attempt.container.value, true))
              && Verified(d.world, d, q, attempt.container.value, ready)
              && r.value == Done(disposition, attempt.prior, attempt.container.value,
                                 HostOf(q, d.world.containers[attempt.container.value]))
    ensures r.Failure? ==> r.error == Other || Definite(r.error)
    ensures r.Failure? ==>
              d.world == old(d.world) || exists id, found :: d.world == Logged(old(d.world), Look(id, found))
    ensures d.reliable && Verified(old(d.world), d, q, old(attempt.container.value), ready) ==> r.Success?
  {
    var id := attempt.container.value;
    var host :- VerifyInstalled(d, q, attempt, id, ready, delivery);
    DispositionNeverFallsThrough(attempt.Marked(), disposition);
    var named := DispositionOf(attempt.Marked());
    r := if named.None? then Failure(Other) else Success(Done(named.value, attempt.prior, id, host));
  }

  lemma FinalStops(w0: World, w1: World, prep: World, w2: World, w3: World, q: Install, f: Mark, ready: Ready,
                   disposition: Disposition, e: Raised, id: string, found: bool)
    requires Prepared(w0, w1) && RealizedAs(w1, prep, w2, q, f, ready, disposition)
    requires w3 == w2 || w3 == Logged(w2, Look(id, found))
    requires (e == Other || Definite(e)) && (!q.reconcile ==> !disposition.Replaced?)
    ensures Stopping(w0, w3, q, e, InstalledVerification)
  {
    PreparedThen(w0, w1, prep);
    ActedCleanly(w0, prep, w2, q, f, disposition);
    assert w3 == w2 || Sent(w0, w3) == Sent(w0, w2) + [Look(id, found)];
  }

  lemma FinalStands(w0: World, w1: World, prep: World, w2: World, w3: World, d: Daemon, q: Install, f: Mark,
                    ready: Ready, done: Done)
    requires Prepared(w0, w1) && RealizedAs(w1, prep, w2, q, f, ready, done.disposition) && InPlace(w1, q, ready)
    requires done.disposition.Reused? ==>
               Named(w1, q, f.container.value) && SecretsReadyFor(w1, q, f.container.value, ready.image)
    requires Some(done.current) == f.container && done.prior == f.prior && w3 == Logged(w2, Look(done.current, true))
    requires Verified(w3, d, q, done.current, ready) && (!q.reconcile ==> !done.disposition.Replaced?)
    requires done.host == HostOf(q, w3.containers[done.current])
    ensures Accomplished(w0, prep, w3, q, f, done) && Standing(w3, d, q, done.current, ready)
    ensures ready == ReadyOf(w3, q)
  {
    PreparedThen(w0, w1, prep);
    StandsAfter(w1, prep, w2, q, f, ready, done.disposition);
    StandsLogged(w2, q, done.current, ready, Look(done.current, true));
    NameKept(w1, prep, w2, q, f, ready, done.disposition);
    if !done.disposition.Reused? {
      InPlaceStays(w1, prep, q, ready);
      RecipeIsAsked(prep, w3, q, ready, done.current);
    }
  }

  lemma NameKept(w: World, prep: World, w': World, q: Install, f: Mark, ready: Ready, disposition: Disposition)
    requires RealizedAs(w, prep, w', q, f, ready, disposition)
    requires disposition.Reused? ==> Named(w, q, f.container.value)
    ensures Named(w', q, f.container.value)
  {
    if disposition.Reused? {
      StartedStores(w, w', f.container.value, true);
    }
  }

  /** What a run claims about the calls: a success is accomplished, an error has stopped it. */
  ghost predicate Concluded(start: World, prep: World, end: World, q: Install, f: Mark, phase: Phase,
                            r: Result<Done, Raised>) {
    && (r.Failure? || Accomplished(start, prep, end, q, f, r.value))
    && (r.Success? || Stopping(start, end, q, r.error, phase))
  }

  /** What a run claims about the world it leaves. */
  ghost predicate Left(end: World, d: Daemon, q: Install, r: Result<Done, Raised>) {
    r.Failure? || (q.image in end.images && Standing(end, d, q, r.value.current, ReadyOf(end, q)))
  }

  ghost predicate Finishes(w0: World, prep: World, w: World, d: Daemon, q: Install, f: Mark, phase: Phase,
                           r: Result<Done, Raised>) {
    Concluded(w0, prep, w, q, f, phase, r) && Left(w, d, q, r)
  }

  /** The container was acted on and verified, or acting on it stopped, or verifying it did. */
  ghost predicate ActedOrStopped(w1: World, prep: World, w2: World, w3: World, d: Daemon, q: Install, f: Mark,
                                 phase: Phase, ready: Ready, disposition: Disposition, r: Result<Done, Raised>) {
    match r
    case Success(done) =>
      && RealizedAs(w1, prep, w2, q, f, ready, disposition) && done.disposition == disposition
      && Some(done.current) == f.container && done.prior == f.prior
      && w3 == Logged(w2, Look(done.current, true)) && Verified(w3, d, q, done.current, ready)
      && done.host == HostOf(q, w3.containers[done.current])
    case Failure(e) =>
      || (Stopping(w1, w3, q, e, phase) && e != UnsupportedAuthority)
      || (&& phase == InstalledVerification && (e == Other || Definite(e))
          && RealizedAs(w1, prep, w2, q, f, ready, disposition)
          && (w3 == w2 || exists id, found :: w3 == Logged(w2, Look(id, found))))
  }

  lemma ActedFinishes(w0: World, w1: World, prep: World, w2: World, w3: World, d: Daemon, q: Install, f: Mark,
                      phase: Phase, ready: Ready, disposition: Disposition, r: Result<Done, Raised>)
    requires Prepared(w0, w1) && InPlace(w1, q, ready)
    requires disposition.Reused? && r.Success? ==>
               && f.container.Some? && Named(w1, q, f.container.value)
               && SecretsReadyFor(w1, q, f.container.value, ready.image)
    requires !q.reconcile ==> !disposition.Replaced?
    requires ActedOrStopped(w1, prep, w2, w3, d, q, f, phase, ready, disposition, r)
    ensures Finishes(w0, prep, w3, d, q, f, phase, r)
  {
    if r.Success? {
      FinalStands(w0, w1, prep, w2, w3, d, q, f, ready, r.value);
    } else if Stopping(w1, w3, q, r.error, phase) {
      StoppingThen(w0, w1, w3, q, r.error, phase);
    } else {
      var id, found :| w3 == w2 || w3 == Logged(w2, Look(id, found));
      FinalStops(w0, w1, prep, w2, w3, q, f, ready, disposition, r.error, id, found);
    }
  }

  /** The captured container was kept, and only looked at. */
  ghost predicate KeptAsItIs(w: World, w': World, prior: Option<string>, r: Result<Done, Raised>) {
    && r.Success? && r.value.disposition.Reused? && Some(r.value.current) == prior
    && w' == Logged(w, Look(r.value.current, true))
  }

  lemma ConcludedActs(w1: World, prep: World, w2: World, w3: World, d: Daemon, q: Install, f: Mark, ready: Ready,
                      disposition: Disposition, r: Result<Done, Raised>)
    requires RealizedAs(w1, prep, w2, q, f, ready, disposition)
    requires r.Success? ==>
               && w3 == Logged(w2, Look(f.container.value, true)) && Verified(w3, d, q, f.container.value, ready)
               && r.value == Done(disposition, f.prior, f.container.value, HostOf(q, w3.containers[f.container.value]))
    requires r.Failure? ==>
               && (r.error == Other || Definite(r.error))
               && (w3 == w2 || exists id, found :: w3 == Logged(w2, Look(id, found)))
    ensures ActedOrStopped(w1, prep, w2, w3, d, q, f, InstalledVerification, ready, disposition, r)
  {
  }

  /** Acts on the container, then verifies it; `settled` says that there is nothing left to do. */
  method Act(d: Daemon, q: Install, attempt: Attempt, decision: Decision, ready: Ready, ghost settled: bool)
    returns (r: Result<Done, Raised>, ghost prep: World, ghost w2: World, ghost disposition: Disposition)
    requires Consistent(d.world) && Untouched(attempt.Now()) && Captured(d.world, attempt.Marked(), decision.inspection)
    requires Decided(d, q, decision.inspection, decision.admission)
    requires forall i | 0 <= i < PlaceCount(q) :: PlacedArtifact(q, i).Some?
    requires settled ==> d.reliable && decision.admission.same && Verified(d.world, d, q, attempt.prior.value, ready)
    modifies d, attempt`phase, attempt`oldRemoved, attempt`unknownCreated, attempt`container, attempt`action,
             attempt`unknownMaterialization, attempt`secretAttempted, attempt`secretStaged
    ensures Consistent(d.world)
    ensures SecretIndices(q, attempt.secretAttempted, attempt.secretStaged)
    ensures ActedOrStopped(old(d.world), prep, w2, d.world, d, q, attempt.Marked(), attempt.phase, ready,
                           disposition, r)
    ensures disposition.Reused? == decision.admission.same && (!q.reconcile ==> !disposition.Replaced?)
    ensures OnlyCaptured(old(d.world), d.world, attempt.prior)
    ensures settled ==> KeptAsItIs(old(d.world), d.world, attempt.prior, r)
    ensures r == Failure(EvidenceInvalid) ==> attempt.phase == InstalledVerification
  {
    ghost var w1 := d.world;
    var realized;
    realized, prep, disposition := Realize(d, q, attempt, decision, ready);
    w2 := d.world;
    r := Settle(d, q, attempt, realized, ready, decision.admission.delivery, w1, prep, disposition);
  }

  /** After acting: stops if that failed, and otherwise verifies. */
  method Settle(d: Daemon, q: Install, attempt: Attempt, realized: Result<(), Raised>, ready: Ready, delivery: Delivery,
                ghost w1: World, ghost prep: World, ghost disposition: Disposition)
    returns (r: Result<Done, Raised>)
    requires Consistent(d.world) && Declared(d, q) == Success(delivery)
    requires forall i | 0 <= i < PlaceCount(q) :: PlacedArtifact(q, i).Some?
    requires OnlyCaptured(w1, d.world, attempt.prior)
    requires realized.Success? ==> RealizedAs(w1, prep, d.world, q, attempt.Marked(), ready, disposition)
    requires realized.Failure? ==>
               && Stopping(w1, d.world, q, realized.error, attempt.phase) && realized.error != UnsupportedAuthority
               && (realized.error == EvidenceInvalid ==> attempt.phase == InstalledVerification)
    modifies d, attempt`phase
    ensures Consistent(d.world)
    ensures ActedOrStopped(w1, prep, old(d.world), d.world, d, q, attempt.Marked(), attempt.phase, ready,
                           disposition, r)
    ensures OnlyCaptured(w1, d.world, attempt.prior)
    ensures (&& realized.Success? && d.reliable && attempt.container.Some?
             && Verified(old(d.world), d, q, attempt.container.value, ready)) ==> r.Success?
    ensures r == Failure(EvidenceInvalid) ==> attempt.phase == InstalledVerification
  {
    ghost var w2, f := d.world, attempt.Marked();
    if realized.Failure? {
      return Failure(realized.error);
    }
    r := Conclude(d, q, attempt, ready, delivery, disposition);
    assert attempt.Marked() == f;
    ConcludedActs(w1, prep, w2, d.world, d, q, f, ready, disposition, r);
    LookCaptured(w1, w2, d.world, attempt.prior);
  }

  lemma LookCaptured(w1: World, w2: World, w3: World, captured: Option<string>)
    requires OnlyCaptured(w1, w2, captured)
    requires w3 == w2 || exists id, found :: w3 == Logged(w2, Look(id, found))
    ensures OnlyCaptured(w1, w3, captured)
  {
    var id, found :| w3 == w2 || w3 == Logged(w2, Look(id, found));
    LookCaptures(w2, w3, id, found, captured);
    CapturedThen(w1, w2, w3, captured);
  }

  /** From everything in place to the end. */
  method CarryOn(d: Daemon, q: Install, attempt: Attempt, decision: Decision, ready: Ready, ghost w0: World,
                 ghost settled: bool)
    returns (r: Result<Done, Raised>, ghost prep: World)
    requires Consistent(d.world) && Untouched(attempt.Now()) && Captured(d.world, attempt.Marked(), decision.inspection)
    requires Decided(d, q, decision.inspection, decision.admission)
    requires Prepared(w0, d.world)
    requires settled ==> d.reliable && decision.admission.same && Verified(d.world, d, q, attempt.prior.value, ready)
    requires ReadyFor(d.world, q, decision.admission.same, attempt.prior, ready)
    modifies d, attempt`phase, attempt`oldRemoved, attempt`unknownCreated, attempt`container, attempt`action,
             attempt`unknownMaterialization, attempt`secretAttempted, attempt`secretStaged
    ensures Consistent(d.world)
    ensures Finishes(w0, prep, d.world, d, q, attempt.Marked(), attempt.phase, r)
    ensures SecretIndices(q, attempt.secretAttempted, attempt.secretStaged)
    ensures OnlyCaptured(w0, d.world, attempt.prior)
    ensures r.Success? ==> (r.value.disposition.Reused? <==> decision.admission.same)
    ensures settled ==> KeptAsItIs(old(d.world), d.world, attempt.prior, r)
    ensures r == Failure(EvidenceInvalid) ==> attempt.phase == InstalledVerification
  {
    ghost var w1 := d.world;
    ghost var w2, disposition;
    r, prep, w2, disposition := Act(d, q, attempt, decision, ready, settled);
    ActedFinishes(w0, w1, prep, w2, d.world, d, q, attempt.Marked(), attempt.phase, ready, disposition, r);
    PreparedCaptures(w0, w1, attempt.prior);
    CapturedThen(w0, w1, d.world, attempt.prior);
  }

  lemma RefusedFinishes(w0: World, w: World, d: Daemon, q: Install, f: Mark, phase: Phase, r: Result<Done, Raised>)
    requires Prepared(w0, w) && r.Failure? && (r.error == UnsupportedAuthority ==> w == w0)
    ensures Finishes(w0, w, w, d, q, f, phase, r) && OnlyCaptured(w0, w, f.prior)
    ensures SecretIndices(q, [], [])
  {
    PreparedStops(w0, w, q, r.error, phase);
    PreparedCaptures(w0, w, f.prior);
  }

  /** Evidence found invalid before the last look leaves nothing created or written in doubt. */
  predicate Cleared(r: Result<Done, Raised>, phase: Phase, unknownCreated: bool, unknownMaterialization: bool) {
    r == Failure(EvidenceInvalid) && phase != InstalledVerification ==> !unknownCreated && !unknownMaterialization
  }

  /** Goes on if everything is in place, and otherwise stops before the container is touched. */
  method Proceed(d: Daemon, q: Install, attempt: Attempt, decision: Decision, got: Result<Ready, Raised>,
                 ghost w0: World, ghost settled: bool)
    returns (r: Result<Done, Raised>, ghost prep: World)
    requires Consistent(d.world) && Untouched(attempt.Now()) && Captured(d.world, attempt.Marked(), decision.inspection)
    requires Decided(d, q, decision.inspection, decision.admission)
    requires Prepared(w0, d.world) && (got.Failure? ==> got.error != UnsupportedAuthority && !settled)
    requires got.Success? ==> ReadyFor(d.world, q, decision.admission.same, attempt.prior, got.value)
    requires settled ==>
               d.reliable && decision.admission.same && Verified(d.world, d, q, attempt.prior.value, got.value)
    modifies d, attempt`phase, attempt`oldRemoved, attempt`unknownCreated, attempt`container, attempt`action,
             attempt`unknownMaterialization, attempt`secretAttempted, attempt`secretStaged
    ensures Consistent(d.world)
    ensures Finishes(w0, prep, d.world, d, q, attempt.Marked(), attempt.phase, r)
    ensures SecretIndices(q, attempt.secretAttempted, attempt.secretStaged)
    ensures OnlyCaptured(w0, d.world, attempt.prior)
    ensures r.Success? ==> (r.value.disposition.Reused? <==> decision.admission.same)
    ensures settled ==> KeptAsItIs(old(d.world), d.world, attempt.prior, r)
    ensures Cleared(r, attempt.phase, attempt.unknownCreated, attempt.unknownMaterialization)
  {
    if got.Failure? {
      r := Failure(got.error);
      prep := d.world;
      RefusedFinishes(w0, d.world, d, q, attempt.Marked(), attempt.phase, r);
    } else {
      r, prep := CarryOn(d, q, attempt, decision, got.value, w0, settled);
    }
  }

  /** Everything after the decision. */
  method Carry(d: Daemon, q: Install, attempt: Attempt, decision: Decision, resolves: bool, ghost settled: bool)
    returns (r: Result<Done, Raised>, ghost prep: World)
    requires Consistent(d.world) && Untouched(attempt.Now()) && Captured(d.world, attempt.Marked(), decision.inspection)
    requires Decided(d, q, decision.inspection, decision.admission)
    requires decision.admission.same ==>
               Named(d.world, q, attempt.prior.value) && !Replacing(q, d.world.containers[attempt.prior.value])
    requires attempt.attempted == attempt.staged == [] && attempt.fileOwner.None?
    requires settled ==>
               d.reliable && resolves && decision.admission.same && Again(d.world, d, q, attempt.prior.value)
    modifies d, attempt`phase, attempt`oldRemoved, attempt`unknownCreated, attempt`container, attempt`action,
             attempt`unknownMaterialization, attempt`secretAttempted, attempt`secretStaged,
             attempt`attempted, attempt`staged, attempt`fileOwner
    ensures Consistent(d.world)
    ensures Finishes(old(d.world), prep, d.world, d, q, attempt.Marked(), attempt.phase, r)
    ensures SecretIndices(q, attempt.secretAttempted, attempt.secretStaged)
    ensures EarlyIndices(q, attempt.attempted, attempt.staged, attempt.fileOwner)
    ensures OnlyCaptured(old(d.world), d.world, attempt.prior)
    ensures r.Success? ==> (r.value.disposition.Reused? <==> decision.admission.same)
    ensures settled ==> KeptAsItIs(old(d.world), d.world, attempt.prior, r)
    ensures Cleared(r, attempt.phase, attempt.unknownCreated, attempt.unknownMaterialization)
  {
    ghost var w0 := d.world;
    var got := GetReady(d, q, attempt, resolves, decision.admission.same, attempt.prior, settled);
    r, prep := Proceed(d, q, attempt, decision, got, w0, settled);
  }
}
