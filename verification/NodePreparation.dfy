// Preparing what a node container is created with: plain configuration, retained data and secret
// files, each in a volume that is created or proved to be the node's own.

module NodePreparation {
  import opened Wrappers
  import opened DockerLabels
  import opened DockerDaemon
  import opened ConfigurationAttempt

  function SecretName(q: Install, s: SecretFile, owner: nat): VolumeName {
    match s.version
    case Some(version) => SelectedSecretVolume(IdentityOf(q, s, version, owner))
    case None => SecretVolume(q.workspace, q.node, s.target, s.reference)
  }

  function IdentityOf(q: Install, s: SecretFile, version: string, owner: nat): SecretFileIdentity {
    SecretFileIdentity(q.workspace, q.runtime, q.node, s.reference, s.intent, version, s.target, s.mode, owner)
  }

  function SecretLabels(q: Install, s: SecretFile, owner: nat): Labels {
    var labels := InstallLabels(q)[
      VolumeKind := Closed(SecretFileWord)][SecretTarget := Plain(s.target)][SecretReference := Plain(s.reference)];
    match s.version
    case None => labels
    case Some(version) => labels[SecretIdentity := Digest(OfSecret(IdentityOf(q, s, version, owner)))]
  }

  /** A secret volume is the node's own and, for a selected version, records exactly its identity. */
  predicate SecretOwner(labels: Labels, q: Install, s: SecretFile, owner: nat) {
    && NodeOwner(labels, InstallLabels(q))
    && (s.version.Some? ==>
          Get(labels, SecretIdentity) == Some(Digest(OfSecret(IdentityOf(q, s, s.version.value, owner)))))
  }

  predicate SecretHeld(f: Option<File>, s: SecretFile, owner: nat) {
    f.Some? && f.value.regular && f.value.owner == owner && f.value.mode == s.mode && f.value.digest == s.digest
  }

  // ---- what a prepared world holds ----

  /** The labels of a volume of this very node. */
  predicate OwnVolume(q: Install, labels: Labels) {
    && Kind in labels && labels[Kind] == Closed(NodeContainer)
    && Workspace in labels && labels[Workspace] == Plain(q.workspace)
    && Runtime in labels && labels[Runtime] == Plain(q.runtime)
    && Node in labels && labels[Node] == Plain(q.node)
  }

  /** The volume of this secret file: of a selected version, it is the one of its exact identity. */
  predicate IsSecretVolume(q: Install, s: SecretFile, owner: nat, name: VolumeName) {
    match s.version
    case None => name == SecretVolume(q.workspace, q.node, s.target, s.reference)
    case Some(version) =>
      name == SelectedSecretVolume(
                SecretFileIdentity(q.workspace, q.runtime, q.node, s.reference, s.intent, version, s.target, s.mode,
                                   owner))
  }

  /** The node's own labels, and for a selected version just its identity. */
  predicate OwnSecret(q: Install, s: SecretFile, owner: nat, labels: Labels) {
    && OwnVolume(q, labels)
    && match s.version
       case None => true
       case Some(version) =>
         && SecretIdentity in labels
         && labels[SecretIdentity]
            == Digest(OfSecret(SecretFileIdentity(q.workspace, q.runtime, q.node, s.reference, s.intent, version,
                                                  s.target, s.mode, owner)))
  }

  /** The secret file is in its own volume, with its content, mode and owner. */
  predicate SecretStaged(w: World, q: Install, s: SecretFile, owner: nat) {
    var name := SecretName(q, s, owner);
    && IsSecretVolume(q, s, owner, name) && name in w.volumes && OwnSecret(q, s, owner, w.volumes[name].labels)
    && w.volumes[name].file == Some(File(s.digest, s.mode, true, owner))
  }

  lemma StagedIs(w: World, q: Install, s: SecretFile, owner: nat)
    ensures var name := SecretName(q, s, owner);
            SecretStaged(w, q, s, owner) <==>
            name in w.volumes && SecretOwner(w.volumes[name].labels, q, s, owner)
            && SecretHeld(w.volumes[name].file, s, owner)
  {
  }

  predicate SecretsStaged(w: World, q: Install, n: nat, owner: nat) {
    n <= |q.secretFiles| && forall i | 0 <= i < n :: SecretStaged(w, q, q.secretFiles[i], owner)
  }

  function SecretMounts(q: Install, n: nat, owner: nat): (mounts: seq<Mount>)
    requires n <= |q.secretFiles|
    ensures |mounts| == n
    ensures forall i | 0 <= i < n :: mounts[i] == Mount(q.secretFiles[i].target, SecretName(q, q.secretFiles[i], owner))
  {
    seq(n, i requires 0 <= i < n => Mount(q.secretFiles[i].target, SecretName(q, q.secretFiles[i], owner)))
  }

  lemma SecretsStay(w: World, w': World, q: Install, n: nat, owner: nat)
    requires SecretsStaged(w, q, n, owner) && Extends(w, w')
    ensures SecretsStaged(w', q, n, owner)
  {
    forall i | 0 <= i < n ensures SecretStaged(w', q, q.secretFiles[i], owner) {
      assert SecretStaged(w, q, q.secretFiles[i], owner);
    }
  }

  lemma SecretsThen(w: World, w': World, q: Install, n: nat, owner: nat)
    requires n < |q.secretFiles| && SecretsStaged(w, q, n, owner) && Extends(w, w')
    requires SecretStaged(w', q, q.secretFiles[n], owner)
    ensures SecretsStaged(w', q, n + 1, owner)
  {
    SecretsStay(w, w', q, n, owner);
  }

  lemma MadeLabelsOwn(q: Install, s: SecretFile, owner: nat)
    ensures SecretOwner(SecretLabels(q, s, owner), q, s, owner)
  {
  }

  function PlainName(q: Install, a: Artifact): VolumeName {
    NodeVolume(q.workspace, q.node, a.id)
  }

  function PlainMounts(q: Install, n: nat): (mounts: seq<Mount>)
    requires n <= |q.artifacts|
    ensures |mounts| == n
    ensures forall i | 0 <= i < n :: mounts[i] == Mount(q.artifacts[i].target, PlainName(q, q.artifacts[i]))
  {
    seq(n, i requires 0 <= i < n => Mount(q.artifacts[i].target, PlainName(q, q.artifacts[i])))
  }

  /** The artifact is in a volume of the node's own. */
  predicate PlainHeld(w: World, q: Install, a: Artifact) {
    var name := NodeVolume(q.workspace, q.node, a.id);
    && name in w.volumes && OwnVolume(q, w.volumes[name].labels)
    && w.volumes[name].file.Some? && w.volumes[name].file.value.digest == a.digest
  }

  /** The retained data is in a volume of the node's own. */
  predicate RetainedHeld(w: World, q: Install, resource: string) {
    var name := NodeVolume(q.workspace, q.node, resource);
    name in w.volumes && OwnVolume(q, w.volumes[name].labels)
  }

  predicate PlainsHeld(w: World, q: Install, n: nat) {
    n <= |q.artifacts| && (q.selection.None? ==> forall i | 0 <= i < n :: PlainHeld(w, q, q.artifacts[i]))
  }

  predicate RetainedsHeld(w: World, q: Install, n: nat) {
    n <= |q.retained| && forall i | 0 <= i < n :: RetainedHeld(w, q, q.retained[i])
  }

  /** Everything a node container is created with is there, and in the node's own volumes. */
  predicate Supplied(w: World, q: Install, owner: nat) {
    && SecretsStaged(w, q, |q.secretFiles|, owner)
    && PlainsHeld(w, q, |q.artifacts|) && RetainedsHeld(w, q, |q.retained|)
  }

  lemma SuppliedStays(w: World, w': World, q: Install, owner: nat)
    requires Supplied(w, q, owner) && Extends(w, w')
    ensures Supplied(w', q, owner)
  {
    SecretsStay(w, w', q, |q.secretFiles|, owner);
    HeldStays(w, w', q, |q.artifacts|, |q.retained|);
  }

  lemma HeldStays(w: World, w': World, q: Install, n: nat, m: nat)
    requires PlainsHeld(w, q, n) && RetainedsHeld(w, q, m) && Extends(w, w')
    ensures PlainsHeld(w', q, n) && RetainedsHeld(w', q, m)
  {
    if q.selection.None? {
      forall i | 0 <= i < n ensures PlainHeld(w', q, q.artifacts[i]) {
        assert PlainHeld(w, q, q.artifacts[i]);
      }
    }
    forall i | 0 <= i < m ensures RetainedHeld(w', q, q.retained[i]) {
      assert RetainedHeld(w, q, q.retained[i]);
    }
  }

  // ---- what is mounted ----

  /** Each artifact is mounted where it is asked for. */
  predicate PlainsMounted(q: Install, mounts: seq<Mount>) {
    && |q.artifacts| <= |mounts|
    && forall i | 0 <= i < |q.artifacts| ::
         mounts[i] == Mount(q.artifacts[i].target, NodeVolume(q.workspace, q.node, q.artifacts[i].id))
  }

  /** After `n` other mounts come the secret files, each where it is asked for, and nothing else. */
  predicate SecretsMounted(q: Install, n: nat, owner: nat, mounts: seq<Mount>) {
    && |mounts| == n + |q.secretFiles|
    && forall i | 0 <= i < |q.secretFiles| ::
         mounts[n + i].target == q.secretFiles[i].target
         && IsSecretVolume(q, q.secretFiles[i], owner, mounts[n + i].volume)
  }

  lemma MountsAreAsked(q: Install, configuration: seq<Mount>, owner: nat)
    ensures SecretsMounted(q, |configuration|, owner, configuration + SecretMounts(q, |q.secretFiles|, owner))
    ensures configuration == PlainMounts(q, |q.artifacts|) ==>
              PlainsMounted(q, configuration + SecretMounts(q, |q.secretFiles|, owner))
  {
    var n, mounts := |configuration|, configuration + SecretMounts(q, |q.secretFiles|, owner);
    assert forall i | 0 <= i < |q.secretFiles| :: mounts[n + i] == SecretMounts(q, |q.secretFiles|, owner)[i];
  }

  predicate PreparationError(e: Raised) {
    e == Other || e == Precondition
  }

  // ---- plain configuration and retained data ----

  method PlainDigest(d: Daemon, name: VolumeName) returns (r: Result<Option<string>, Raised>)
    ensures r.Success? ==>
              r.value == if name in d.world.volumes && d.world.volumes[name].file.Some?
                         then Some(d.world.volumes[name].file.value.digest) else None
    ensures r.Failure? ==> r.error == Other
  {
    var f := d.InspectFile(name);
    r := match f
         case Failure(_) => Failure(Other)
         case Success(None) => Success(None)
         case Success(Some(file)) => Success(Some(file.digest));
  }

  /** Writes the artifact, then reads its digest back. */
  method WritePlain(d: Daemon, q: Install, a: Artifact) returns (r: Result<Option<string>, Raised>)
    requires PlainName(q, a) in d.world.volumes ==>
               d.world.volumes[PlainName(q, a)].file.None? && OwnVolume(q, d.world.volumes[PlainName(q, a)].labels)
    modifies d
    ensures Prepared(old(d.world), d.world)
    ensures r.Success? && r.value == Some(a.digest) ==> PlainHeld(d.world, q, a)
    ensures r.Failure? ==> r.error == Other
  {
    var _ :- d.WriteFile(PlainName(q, a), File(a.digest, a.mode, true, 0));
    r := PlainDigest(d, PlainName(q, a));
  }

  /** Creates the volume of an artifact and fills it. */
  method MakePlain(d: Daemon, q: Install, a: Artifact) returns (r: Result<Option<string>, Raised>)
    requires PlainName(q, a) !in d.world.volumes
    modifies d
    ensures Prepared(old(d.world), d.world)
    ensures r.Success? && r.value == Some(a.digest) ==> PlainHeld(d.world, q, a)
    ensures r.Failure? ==> r.error == Other
  {
    ghost var w := d.world;
    var labels := InstallLabels(q)[
      VolumeKind := Closed(ConfigurationWord)][ArtifactKey := Plain(a.id)][ArtifactDigest := Plain(a.digest)];
    var _ :- d.MakeVolume(PlainName(q, a), labels);
    ghost var made := d.world;
    r := WritePlain(d, q, a);
    PreparedThen(w, made, d.world);
  }

  /** Creates and fills the volume of one artifact, or finds it the node's own, and reads it back. */
  method PreparePlain(d: Daemon, q: Install, a: Artifact) returns (r: Result<(), Raised>)
    modifies d
    ensures Prepared(old(d.world), d.world)
    ensures r.Success? ==> PlainHeld(d.world, q, a)
    ensures r.Failure? ==> PreparationError(r.error)
  {
    var name, digest := PlainName(q, a), None;
    var inspection :- d.InspectVolume(name);
    if inspection.None? {
      digest :- MakePlain(d, q, a);
    } else {
      if !NodeOwner(inspection.value, InstallLabels(q)) {
        return Failure(Precondition);
      }
      digest :- PlainDigest(d, name);
      if digest.None? {
        digest :- WritePlain(d, q, a);
      }
    }
    r := if digest != Some(a.digest) then Failure(Precondition) else Success(());
  }

  /** Creates the volume of retained data, or finds it the node's own. */
  method PrepareRetained(d: Daemon, q: Install, resource: string) returns (r: Result<(), Raised>)
    modifies d
    ensures Prepared(old(d.world), d.world)
    ensures r.Failure? ==> PreparationError(r.error)
    ensures r.Success? ==> RetainedHeld(d.world, q, resource)
  {
    var name := NodeVolume(q.workspace, q.node, resource);
    var inspection :- d.InspectVolume(name);
    if inspection.Some? {
      return if NodeOwner(inspection.value, InstallLabels(q)) then Success(()) else Failure(Precondition);
    }
    r := d.MakeVolume(name, InstallLabels(q)[VolumeKind := Closed(RetainedData)]);
  }

  // ---- secret files ----

  /** Reads a secret file back; malformed evidence is a conflict, not a doubt. */
  method RequireSecretFile(d: Daemon, name: VolumeName, s: SecretFile, owner: nat) returns (r: Result<(), Raised>)
    ensures r.Success? ==> name in d.world.volumes && SecretHeld(d.world.volumes[name].file, s, owner)
    ensures r.Failure? ==> PreparationError(r.error)
    ensures d.reliable && name in d.world.volumes && SecretHeld(d.world.volumes[name].file, s, owner) ==> r.Success?
  {
    var observed := d.InspectFile(name);
    r := match observed
         case Failure(EvidenceInvalid) => Failure(Precondition)
         case Failure(_) => Failure(Other)
         case Success(f) => if SecretHeld(f, s, owner) then Success(()) else Failure(Precondition);
  }

  /** Creates and fills the volume of one secret file; the attempt says when creation or writing
      may have happened without having been verified. */
  method MakeSecret(d: Daemon, q: Install, attempt: Attempt, s: SecretFile, owner: nat) returns (r: Result<(), Raised>)
    requires SecretName(q, s, owner) !in d.world.volumes
    modifies d, attempt`unknownCreated, attempt`unknownMaterialization
    ensures Prepared(old(d.world), d.world)
    ensures r.Success? ==> !attempt.unknownCreated && attempt.unknownMaterialization
    ensures r.Failure? ==> PreparationError(r.error) && (attempt.unknownCreated || attempt.unknownMaterialization)
  {
    ghost var w := d.world;
    var name := SecretName(q, s, owner);
    attempt.unknownCreated := true;
    MadeLabelsOwn(q, s, owner);
    var _ :- d.MakeVolume(name, SecretLabels(q, s, owner));
    var created :- d.InspectVolume(name);
    if created.None? {
      return Failure(Other);
    }
    if !SecretOwner(created.value, q, s, owner) {
      return Failure(Precondition);
    }
    attempt.unknownCreated := false;
    attempt.unknownMaterialization := true;
    ghost var made := d.world;
    r := d.WriteFile(name, File(s.digest, s.mode, true, owner));
    PreparedThen(w, made, d.world);
  }

  /** The last look at a prepared secret volume: its file, then its labels once more. */
  method VerifySecret(d: Daemon, q: Install, s: SecretFile, owner: nat) returns (r: Result<(), Raised>)
    ensures r.Success? ==> SecretStaged(d.world, q, s, owner)
    ensures r.Failure? ==> PreparationError(r.error)
  {
    var name := SecretName(q, s, owner);
    var _ :- RequireSecretFile(d, name, s, owner);
    var observed :- d.InspectVolume(name);
    r := if observed.None? then Failure(Other)
         else if !SecretOwner(observed.value, q, s, owner) then Failure(Precondition)
         else Success(());
  }

  method PrepareSecret(d: Daemon, q: Install, attempt: Attempt, index: nat, owner: nat) returns (r: Result<(), Raised>)
    requires index < |q.secretFiles| && !attempt.unknownCreated
    requires q.selected ==> attempt.secretAttempted == attempt.secretStaged == Range(index)
    modifies d, attempt`unknownCreated, attempt`unknownMaterialization, attempt`secretAttempted, attempt`secretStaged
    ensures Prepared(old(d.world), d.world)
    ensures q.selected ==>
              InStep(attempt.secretAttempted, attempt.secretStaged) && |attempt.secretAttempted| <= index + 1
    ensures !q.selected ==>
              && attempt.secretAttempted == old(attempt.secretAttempted)
              && attempt.secretStaged == old(attempt.secretStaged)
    ensures r.Success? ==>
              && !attempt.unknownCreated && (q.selected ==> !attempt.unknownMaterialization)
              && (q.selected ==> attempt.secretAttempted == attempt.secretStaged == Range(index + 1))
              && SecretStaged(d.world, q, q.secretFiles[index], owner)
    ensures r.Failure? ==> PreparationError(r.error)
  {
    InStepAt(index);
    RangeThen(index);
    if q.selected {
      attempt.secretAttempted := attempt.secretAttempted + [index];
    }
    r := PlaceSecret(d, q, attempt, q.secretFiles[index], owner);
    if r.Success? && q.selected {
      attempt.unknownMaterialization := false;
      attempt.secretStaged := attempt.secretStaged + [index];
    }
  }

  /** Creates and fills the volume of one secret file, or finds it the node's own, and verifies it. */
  method PlaceSecret(d: Daemon, q: Install, attempt: Attempt, s: SecretFile, owner: nat) returns (r: Result<(), Raised>)
    requires !attempt.unknownCreated
    modifies d, attempt`unknownCreated, attempt`unknownMaterialization
    ensures Prepared(old(d.world), d.world)
    ensures r.Success? ==> !attempt.unknownCreated && SecretStaged(d.world, q, s, owner)
    ensures r.Failure? ==> PreparationError(r.error)
  {
    var inspection :- d.InspectVolume(SecretName(q, s, owner));
    if inspection.None? {
      var _ :- MakeSecret(d, q, attempt, s, owner);
    } else if !SecretOwner(inspection.value, q, s, owner) {
      return Failure(Precondition);
    }
    r := VerifySecret(d, q, s, owner);
  }

  method PrepareSecrets(d: Daemon, q: Install, attempt: Attempt, owner: nat) returns (r: Result<(), Raised>)
    requires !attempt.unknownCreated && attempt.secretAttempted == attempt.secretStaged == []
    requires q.selected ==> !attempt.unknownMaterialization
    modifies d, attempt`unknownCreated, attempt`unknownMaterialization, attempt`secretAttempted, attempt`secretStaged
    ensures Prepared(old(d.world), d.world)
    ensures InStep(attempt.secretAttempted, attempt.secretStaged) && |attempt.secretAttempted| <= |q.secretFiles|
    ensures r.Success? ==>
              && !attempt.unknownCreated && (q.selected ==> !attempt.unknownMaterialization)
              && SecretsStaged(d.world, q, |q.secretFiles|, owner)
    ensures r.Failure? ==> PreparationError(r.error)
  {
    ghost var w := d.world;
    InStepAt(0);
    for index := 0 to |q.secretFiles|
      invariant Prepared(w, d.world) && !attempt.unknownCreated && (q.selected ==> !attempt.unknownMaterialization)
      invariant q.selected ==> attempt.secretAttempted == attempt.secretStaged == Range(index)
      invariant !q.selected ==> attempt.secretAttempted == attempt.secretStaged == []
      invariant SecretsStaged(d.world, q, index, owner)
    {
      ghost var before := d.world;
      var one := PrepareSecret(d, q, attempt, index, owner);
      PreparedThen(w, before, d.world);
      if one.Failure? {
        return Failure(one.error);
      }
      SecretsThen(before, d.world, q, index, owner);
    }
    InStepAt(|q.secretFiles|);
    r := Success(());
  }

  method PreparePlains(d: Daemon, q: Install) returns (r: Result<(), Raised>)
    requires q.selection.None?
    modifies d
    ensures Prepared(old(d.world), d.world)
    ensures r.Success? ==> PlainsHeld(d.world, q, |q.artifacts|)
    ensures r.Failure? ==> PreparationError(r.error)
  {
    ghost var w := d.world;
    for i := 0 to |q.artifacts|
      invariant Prepared(w, d.world) && PlainsHeld(d.world, q, i)
    {
      ghost var before := d.world;
      var one := PreparePlain(d, q, q.artifacts[i]);
      PreparedThen(w, before, d.world);
      if one.Failure? {
        return Failure(one.error);
      }
      HeldStays(before, d.world, q, i, 0);
    }
    r := Success(());
  }

  method PrepareVolumes(d: Daemon, q: Install) returns (r: Result<(), Raised>)
    modifies d
    ensures Prepared(old(d.world), d.world)
    ensures r.Success? ==> PlainsHeld(d.world, q, |q.artifacts|) && RetainedsHeld(d.world, q, |q.retained|)
    ensures r.Failure? ==> PreparationError(r.error)
  {
    ghost var w := d.world;
    if q.selection.None? {
      var _ :- PreparePlains(d, q);
    }
    for i := 0 to |q.retained|
      invariant Prepared(w, d.world) && PlainsHeld(d.world, q, |q.artifacts|) && RetainedsHeld(d.world, q, i)
    {
      ghost var before := d.world;
      var one := PrepareRetained(d, q, q.retained[i]);
      PreparedThen(w, before, d.world);
      if one.Failure? {
        return Failure(one.error);
      }
      HeldStays(before, d.world, q, |q.artifacts|, i);
    }
    r := Success(());
  }

  /** No name is bound to different values by the node's own environment and its secrets. */
  predicate Bindable(q: Install) {
    forall k | k in q.environment && k in q.secretEnvironment :: q.environment[k] == q.secretEnvironment[k]
  }

  /** Everything a node container is created with; conflicting environment bindings are found
      only at the very end. */
  method Prepare(d: Daemon, q: Install, attempt: Attempt, owner: nat, configuration: seq<Mount>)
    returns (r: Result<seq<Mount>, Raised>)
    requires !attempt.unknownCreated && attempt.secretAttempted == attempt.secretStaged == []
    requires q.selected ==> !attempt.unknownMaterialization
    modifies d, attempt`unknownCreated, attempt`unknownMaterialization, attempt`secretAttempted, attempt`secretStaged
    ensures Prepared(old(d.world), d.world)
    ensures InStep(attempt.secretAttempted, attempt.secretStaged) && |attempt.secretAttempted| <= |q.secretFiles|
    ensures r.Success? ==>
              && !attempt.unknownCreated && (q.selected ==> !attempt.unknownMaterialization)
              && Supplied(d.world, q, owner) && Bindable(q)
              && r.value == configuration + SecretMounts(q, |q.secretFiles|, owner)
    ensures r.Failure? ==> PreparationError(r.error)
  {
    ghost var w := d.world;
    InStepAt(0);
    var volumes := PrepareVolumes(d, q);
    if volumes.Failure? {
      return Failure(volumes.error);
    }
    ghost var between := d.world;
    var secrets := PrepareSecrets(d, q, attempt, owner);
    PreparedThen(w, between, d.world);
    HeldStays(between, d.world, q, |q.artifacts|, |q.retained|);
    r := if secrets.Failure? then Failure(secrets.error)
         else if !Bindable(q) then Failure(Precondition)
         else Success(configuration + SecretMounts(q, |q.secretFiles|, owner));
  }
}
