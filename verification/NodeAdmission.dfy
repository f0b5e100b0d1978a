// The checks every node operation makes around its container: the image, the secret recipient,
// the network, the container itself and the configuration mounted into it.

module NodeAdmission {
  import opened Wrappers
  import opened Text
  import opened DockerLabels
  import opened DockerDaemon
  import opened ConfigurationStaging
  import opened NodePreparation

  function NameOf(q: Install): ResourceName {
    ContainerName(q.workspace, q.node)
  }

  function NetworkOf(q: Install): ResourceName {
    NetworkName(q.workspace, q.runtime)
  }

  // ---- whose container ----

  /** A container of this very node, with its evidence of what it was made from, on the runtime's
      network and no other. */
  predicate OwnNode(q: Install, c: Container) {
    && Kind in c.labels && c.labels[Kind] == Closed(NodeContainer)
    && Workspace in c.labels && c.labels[Workspace] == Plain(q.workspace)
    && Runtime in c.labels && c.labels[Runtime] == Plain(q.runtime)
    && Node in c.labels && c.labels[Node] == Plain(q.node)
    && MaterialProfile in c.labels && c.labels[MaterialProfile] == Closed(NodeMaterialProfile)
    && Fingerprint in c.labels
    && (c.labels[Fingerprint].Digest? || (c.labels[Fingerprint].Plain? && Hex64(c.labels[Fingerprint].text)))
    && PlanKey in c.labels && (c.labels[PlanKey].Plain? ==> !Blank(c.labels[PlanKey].text))
    && GraphKey in c.labels && (c.labels[GraphKey].Plain? ==> !Blank(c.labels[GraphKey].text))
    && c.networks == [NetworkName(q.workspace, q.runtime)]
  }

  /** It was made from the same declarations. */
  predicate SameMaterial(q: Install, c: Container) {
    && Fingerprint in c.labels
    && c.labels[Fingerprint]
       == Digest(OfNode(q.workspace, q.node, q.runtime, q.product, q.descriptor, q.image, q.material))
  }

  lemma OwnNodeIs(q: Install, c: Container)
    ensures NodeOwner(c.labels, NodeLabels(q)) <==> NodeOwner(c.labels, InstallLabels(q))
    ensures OwnNode(q, c) <==>
              NodeOwner(c.labels, InstallLabels(q)) && MaterialEvidence(c.labels) && c.networks == [NetworkOf(q)]
    ensures SameMaterial(q, c) <==> FingerprintMatches(c.labels, InstallLabels(q))
    ensures SameMaterial(q, c) <==> FingerprintMatches(c.labels, NodeLabels(q))
  {
    InstallLabelsAre(q);
  }

  // ---- image ----

  predicate ImageReady(w: World, q: Install) {
    q.image in w.images && q.image in w.images[q.image].pins
  }

  method AdmitImage(d: Daemon, q: Install) returns (r: Result<Image, Raised>)
    requires Consistent(d.world)
    modifies d
    ensures Consistent(d.world) && Prepared(old(d.world), d.world)
    ensures r.Success? ==> ImageReady(d.world, q) && d.world.images[q.image] == r.value
    ensures r.Failure? ==> r.error == Other || r.error == Precondition
    ensures d.reliable && old(ImageReady(d.world, q)) ==> r.Success? && d.world == old(d.world)
    ensures d.world.networks == old(d.world).networks
    ensures q.image in old(d.world).images ==> d.world == old(d.world)
  {
    var inspection :- d.InspectImage(q.image);
    if inspection.None? {
      var _ :- d.PullImage(q.image);
      inspection :- d.InspectImage(q.image);
    }
    r := if inspection.None? || q.image !in inspection.value.pins then Failure(Precondition)
         else Success(inspection.value);
  }

  // ---- secret recipient ----

  function CountOf(mounts: seq<Mount>, m: Mount): nat {
    if mounts == [] then 0 else (if mounts[0] == m then 1 else 0) + CountOf(mounts[1..], m)
  }

  /** Who owns the secret files: nobody in particular when there are none. */
  function OwnerOf(q: Install, image: Image): Uid
  {
    if q.secretFiles == [] || image.owner.None? then 0 else image.owner.value
  }

  predicate MountedOnce(c: Container, q: Install, n: nat, owner: nat) {
    n <= |q.secretFiles| && forall i | 0 <= i < n ::
      CountOf(c.mounts, Mount(q.secretFiles[i].target, SecretName(q, q.secretFiles[i], owner))) == 1
  }

  /** What a passed secret preflight says about a container that is not to be replaced. */
  predicate SecretsReady(w: World, q: Install, c: Container, image: Image) {
    q.secretFiles != [] ==>
      && image.owner.Some? && NodeOwner(c.labels, NodeLabels(q))
      && c.image == image.id && c.user == image.user
      && MountedOnce(c, q, |q.secretFiles|, OwnerOf(q, image))
      && SecretsStaged(w, q, |q.secretFiles|, OwnerOf(q, image))
  }

  predicate Replacing(q: Install, c: Container) {
    q.reconcile && !FingerprintMatches(c.labels, NodeLabels(q))
  }

  method PreflightOne(d: Daemon, q: Install, s: SecretFile, owner: nat, existing: Option<Container>)
    returns (r: Result<(), Raised>)
    ensures r.Success? && existing.Some? ==>
              && SecretStaged(d.world, q, s, owner)
              && CountOf(existing.value.mounts, Mount(s.target, SecretName(q, s, owner))) == 1
    ensures r.Failure? ==> PreparationError(r.error)
    ensures (&& d.reliable && existing.Some? && SecretStaged(d.world, q, s, owner)
             && CountOf(existing.value.mounts, Mount(s.target, SecretName(q, s, owner))) == 1) ==> r.Success?
  {
    var name := SecretName(q, s, owner);
    StagedIs(d.world, q, s, owner);
    var volume :- d.InspectVolume(name);
    if volume.Some? {
      if !SecretOwner(volume.value, q, s, owner) {
        return Failure(Precondition);
      }
      var _ :- RequireSecretFile(d, name, s, owner);
    } else if existing.Some? {
      return Failure(Precondition);
    }
    r := if existing.Some? && CountOf(existing.value.mounts, Mount(s.target, name)) != 1 then Failure(Precondition)
         else Success(());
  }

  method PreflightFiles(d: Daemon, q: Install, owner: nat, existing: Option<Container>) returns (r: Result<(), Raised>)
    ensures r.Success? && existing.Some? ==>
              && SecretsStaged(d.world, q, |q.secretFiles|, owner)
              && MountedOnce(existing.value, q, |q.secretFiles|, owner)
    ensures r.Failure? ==> PreparationError(r.error)
    ensures (&& d.reliable && existing.Some?
             && SecretsStaged(d.world, q, |q.secretFiles|, owner)
             && MountedOnce(existing.value, q, |q.secretFiles|, owner)) ==> r.Success?
  {
    for i := 0 to |q.secretFiles|
      invariant existing.Some? ==> SecretsStaged(d.world, q, i, owner) && MountedOnce(existing.value, q, i, owner)
    {
      var _ :- PreflightOne(d, q, q.secretFiles[i], owner, existing);
    }
    r := Success(());
  }

  ghost predicate Named(w: World, q: Install, id: string) {
    id in w.containers && w.containers[id].name == NameOf(q)
  }

  /** Inspects the recipient and every existing secret volume before anything is prepared; `id`
      is the container that has the node's name, if any has. */
  method PreflightSecrets(d: Daemon, q: Install, image: Image, ghost id: string) returns (r: Result<nat, Raised>)
    requires Consistent(d.world)
    ensures r.Success? ==> r.value == OwnerOf(q, image) && (q.secretFiles != [] ==> image.owner.Some?)
    ensures r.Success? && Named(d.world, q, id) && !Replacing(q, d.world.containers[id]) ==>
              SecretsReady(d.world, q, d.world.containers[id], image)
    ensures q.secretFiles == [] ==> r == Success(0)
    ensures r.Failure? ==> PreparationError(r.error)
    ensures (&& d.reliable && Named(d.world, q, id) && !Replacing(q, d.world.containers[id])
             && SecretsReady(d.world, q, d.world.containers[id], image)) ==> r.Success?
  {
    if q.secretFiles == [] {
      return Success(0);
    }
    var uid := image.owner;
    if uid.None? {
      return Failure(Precondition);
    }
    var container :- d.InspectContainer(NameOf(q));
    var existing := None;
    if container.Some? {
      var c := container.value.container;
      assert Named(d.world, q, id) ==> d.world.containers[id] == c;
      if !NodeOwner(c.labels, NodeLabels(q)) {
        return Failure(Precondition);
      }
      if !Replacing(q, c) {
        if c.image != image.id || c.user != image.user {
          return Failure(Precondition);
        }
        existing := Some(c);
      }
    }
    var _ :- PreflightFiles(d, q, uid.value, existing);
    r := Success(uid.value);
  }

  // ---- network ----

  predicate NetworkOwned(w: World, q: Install) {
    NetworkOf(q) in w.networks && RuntimeOwner(w.networks[NetworkOf(q)], RuntimeLabels(q))
  }

  /** The network is the one that was there, with the labels it had, or carries this request's. */
  predicate NetworkKept(w: World, w': World, q: Install) {
    && NetworkOf(q) in w'.networks
    && w'.networks[NetworkOf(q)] == if NetworkOf(q) in w.networks then w.networks[NetworkOf(q)] else RuntimeLabels(q)
  }

  method EnsureNetwork(d: Daemon, q: Install) returns (r: Result<(), Raised>)
    requires Consistent(d.world)
    modifies d
    ensures Consistent(d.world) && Prepared(old(d.world), d.world)
    ensures r.Success? ==> NetworkOwned(d.world, q) && NetworkKept(old(d.world), d.world, q)
    ensures r.Failure? ==> r.error == Other || r.error == Precondition
    ensures d.reliable && old(NetworkOwned(d.world, q)) ==> r.Success? && d.world == old(d.world)
  {
    var network :- d.InspectNetwork(NetworkOf(q));
    if network.None? {
      r := d.MakeNetwork(NetworkOf(q), RuntimeLabels(q));
    } else {
      r := if RuntimeOwner(network.value, RuntimeLabels(q)) then Success(()) else Failure(Precondition);
    }
  }

  // ---- the container ----

  /** Labels, network and image are those of the request; a reconciled node may have been created
      under an earlier plan or graph. */
  predicate Suits(c: Container, q: Install, labels: Labels, image: string) {
    Correlates(c.labels, labels, q.reconcile) && c.networks == [NetworkOf(q)] && c.image == image
  }

  // ---- mounted configuration ----

  function PlaceCount(q: Install): nat {
    if q.selection.Some? then |q.references| else |q.artifacts|
  }

  function PlacedArtifact(q: Install, i: nat): Option<Artifact>
    requires i < PlaceCount(q)
  {
    if q.selection.Some? then ArtifactById(q.artifacts, q.references[i].artifact) else Some(q.artifacts[i])
  }

  function ConfigurationMounts(q: Install): (mounts: seq<Mount>)
    ensures |mounts| == PlaceCount(q)
  {
    if q.selection.Some? then StagedMounts(q, |q.references|) else PlainMounts(q, |q.artifacts|)
  }

  ghost predicate InstalledFile(w: World, id: string, q: Install, i: nat)
    requires i < PlaceCount(q)
  {
    && PlacedArtifact(q, i).Some?
    && var a := PlacedArtifact(q, i).value;
       exists f ::
         && MountedFile(w, id, ConfigurationMounts(q)[i], f)
         && f.regular && f.digest == a.digest && f.mode == a.mode
  }

  ghost predicate InstalledFiles(w: World, id: string, q: Install)
  {
    forall i | 0 <= i < PlaceCount(q) :: InstalledFile(w, id, q, i)
  }

  /** Reads every mounted configuration file back from the container with this id. */
  method MatchInstalled(d: Daemon, id: string, q: Install) returns (r: Result<(), Raised>)
    requires forall i | 0 <= i < PlaceCount(q) :: PlacedArtifact(q, i).Some?
    ensures r.Success? ==> InstalledFiles(d.world, id, q)
    ensures r.Failure? ==> r.error == Other || r.error == MaterialConflict || r.error == EvidenceInvalid
    ensures d.reliable && InstalledFiles(d.world, id, q) ==> r.Success?
  {
    for i := 0 to PlaceCount(q)
      invariant forall j | 0 <= j < i :: InstalledFile(d.world, id, q, j)
    {
      if InstalledFile(d.world, id, q, i) {
        ghost var f :| MountedFile(d.world, id, ConfigurationMounts(q)[i], f);
      }
      var observed :- d.InspectMount(id, ConfigurationMounts(q)[i]);
      if observed.None? {
        return Failure(Other);
      }
      if !Holds(observed, PlacedArtifact(q, i).value) {
        return Failure(MaterialConflict);
      }
      assert MountedFile(d.world, id, ConfigurationMounts(q)[i], observed.value);
      assert InstalledFile(d.world, id, q, i);
    }
    r := Success(());
  }
}
