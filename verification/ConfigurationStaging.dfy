// Staging the selected configuration volumes: create what is missing, fill what is empty, verify
// everything, overwrite nothing.

module ConfigurationStaging {
  import opened Wrappers
  import opened DockerLabels
  import opened DockerDaemon
  import opened ConfigurationAttempt

  function ArtifactById(artifacts: seq<Artifact>, id: string): Option<Artifact> {
    if artifacts == [] then None
    else if artifacts[|artifacts| - 1].id == id then Some(artifacts[|artifacts| - 1])
    else ArtifactById(artifacts[..|artifacts| - 1], id)
  }

  /** A staged file holds exactly the declared bytes under the declared mode. */
  predicate Holds(f: Option<File>, a: Artifact) {
    f.Some? && f.value.regular && f.value.digest == a.digest && f.value.mode == a.mode
  }

  predicate StagedVolume(w: World, r: Reference, a: Artifact) {
    var name := ConfigurationVolumeName(r);
    && name in w.volumes
    && ConfigurationOwner(w.volumes[name].labels, r)
    && w.volumes[name].file.Some?
    && var f := w.volumes[name].file.value;
       f.regular && f.digest == a.digest && f.mode == a.mode
  }

  predicate StagedAt(w: World, q: Install, index: nat)
    requires index < |q.references|
  {
    var a := ArtifactById(q.artifacts, q.references[index].artifact);
    a.Some? && StagedVolume(w, q.references[index], a.value)
  }

  /** The first `n` selected volumes are in place. */
  predicate StagedUpTo(w: World, q: Install, n: nat) {
    n <= |q.references| &&
    forall i | 0 <= i < n :: StagedAt(w, q, i)
  }

  function StagedMount(q: Install, i: nat): Mount
    requires i < |q.references|
  {
    var a := ArtifactById(q.artifacts, q.references[i].artifact);
    Mount(if a.Some? then a.value.target else "", ConfigurationVolumeName(q.references[i]))
  }

  /** The mounts of the selected volumes, in the order of the request. */
  function StagedMounts(q: Install, n: nat): (mounts: seq<Mount>)
    requires n <= |q.references|
    ensures |mounts| == n && forall i | 0 <= i < n :: mounts[i] == StagedMount(q, i)
  {
    seq(n, i requires 0 <= i < n => StagedMount(q, i))
  }

  /** The target of the last artifact with that id. */
  ghost predicate PlacedAt(artifacts: seq<Artifact>, id: string, target: string) {
    exists k | 0 <= k < |artifacts| ::
      && artifacts[k].id == id && artifacts[k].target == target
      && forall j | k < j < |artifacts| :: artifacts[j].id != id
  }

  /** Each selected volume is mounted where its artifact is asked for. */
  ghost predicate SelectedMounted(q: Install, mounts: seq<Mount>) {
    && |q.references| <= |mounts|
    && forall i | 0 <= i < |q.references| ::
         && mounts[i].volume == ConfigurationVolumeName(q.references[i])
         && PlacedAt(q.artifacts, q.references[i].artifact, mounts[i].target)
  }

  lemma {:induction false} ArtifactIsPlaced(artifacts: seq<Artifact>, id: string)
    requires ArtifactById(artifacts, id).Some?
    ensures PlacedAt(artifacts, id, ArtifactById(artifacts, id).value.target)
  {
    var n := |artifacts| - 1;
    if artifacts[n].id != id {
      ArtifactIsPlaced(artifacts[..n], id);
      var target := ArtifactById(artifacts[..n], id).value.target;
      var k :| 0 <= k < n && artifacts[..n][k].id == id && artifacts[..n][k].target == target
            && forall j | k < j < n :: artifacts[..n][j].id != id;
      assert artifacts[k] == artifacts[..n][k];
      assert forall j | k < j < n :: artifacts[j] == artifacts[..n][j];
    }
  }

  lemma SelectedAreMounted(w: World, q: Install, more: seq<Mount>)
    requires StagedUpTo(w, q, |q.references|)
    ensures SelectedMounted(q, StagedMounts(q, |q.references|) + more)
  {
    var mounts := StagedMounts(q, |q.references|) + more;
    forall i | 0 <= i < |q.references|
      ensures mounts[i].volume == ConfigurationVolumeName(q.references[i])
      ensures PlacedAt(q.artifacts, q.references[i].artifact, mounts[i].target)
    {
      assert mounts[i] == StagedMount(q, i) && StagedAt(w, q, i);
      ArtifactIsPlaced(q.artifacts, q.references[i].artifact);
    }
  }

  lemma StagedMountsThen(q: Install, n: nat)
    requires n < |q.references|
    ensures StagedMounts(q, n) + [StagedMount(q, n)] == StagedMounts(q, n + 1)
  {
  }

  /** Volumes outside the request, and volumes that somebody else labelled, are as they were. */
  ghost predicate OthersUntouched(w: World, w': World, q: Install) {
    && w'.networks == w.networks && w'.images == w.images
    && (forall v | v in w'.volumes ::
          (v in w.volumes && w'.volumes[v] == w.volumes[v])
          || exists r | r in q.references ::
               ConfigurationVolumeName(r) == v && ConfigurationOwner(w'.volumes[v].labels, r))
  }

  lemma StagedThen(w: World, w': World, q: Install, n: nat)
    requires n < |q.references| && StagedUpTo(w, q, n) && Extends(w, w') && StagedAt(w', q, n)
    ensures StagedUpTo(w', q, n + 1)
  {
    StagedStays(w, w', q, n);
  }

  lemma StagedStays(w: World, w': World, q: Install, n: nat)
    requires StagedUpTo(w, q, n) && Extends(w, w')
    ensures StagedUpTo(w', q, n)
  {
    forall i | 0 <= i < n ensures StagedAt(w', q, i) {
      assert StagedAt(w, q, i);
    }
  }

  /** What staging keeps true of the world it started from, at every step. */
  ghost predicate Staging(w0: World, w: World, q: Install) {
    Consistent(w) && Prepared(w0, w) && OthersUntouched(w0, w, q)
  }

  lemma StagingThen(w0: World, w: World, w': World, q: Install, r: Reference)
    requires Staging(w0, w, q) && r in q.references && Consistent(w') && Prepared(w, w')
    requires w'.networks == w.networks && w'.images == w.images
    requires forall v | v in w'.volumes && v != ConfigurationVolumeName(r) ::
               v in w.volumes && w'.volumes[v] == w.volumes[v]
    requires ConfigurationVolumeName(r) in w'.volumes ==>
               ConfigurationOwner(w'.volumes[ConfigurationVolumeName(r)].labels, r)
    ensures Staging(w0, w', q)
  {
    PreparedThen(w0, w, w');
  }

  lemma OwnLabels(r: Reference)
    ensures ConfigurationOwner(ConfigurationLabels(r), r)
  {
  }

  predicate StagingError(e: Raised) {
    e == Other || e == MaterialConflict || e == EvidenceInvalid
  }

  /** Creates the volume of one reference, or finds that it is owned; the attempt names the index
      once the volume is about to be created or is known to be owned. */
  method OwnVolume(d: Daemon, q: Install, attempt: Attempt, index: nat, ghost w0: World) returns (r: Result<(), Raised>)
    requires Staging(w0, d.world, q) && index < |q.references| && attempt.attempted == Range(index)
    modifies d, attempt`attempted
    ensures Staging(w0, d.world, q) && Extends(old(d.world), d.world)
    ensures attempt.attempted == Range(index) || attempt.attempted == Range(index + 1)
    ensures r.Success? ==>
              && attempt.attempted == Range(index + 1)
              && var name := ConfigurationVolumeName(q.references[index]);
                 name in d.world.volumes && ConfigurationOwner(d.world.volumes[name].labels, q.references[index])
    ensures r.Failure? ==> StagingError(r.error)
    ensures var name := ConfigurationVolumeName(q.references[index]);
            d.reliable && name in old(d.world.volumes)
            && ConfigurationOwner(old(d.world.volumes[name].labels), q.references[index]) ==>
              r.Success? && d.world == old(d.world)
  {
    ghost var w := d.world;
    RangeThen(index);
    var reference := q.references[index];
    var name := ConfigurationVolumeName(reference);
    var inspection :- d.InspectVolume(name);
    if inspection.Some? {
      if !ConfigurationOwner(inspection.value, reference) {
        return Failure(MaterialConflict);
      }
      attempt.attempted := attempt.attempted + [index];
      return Success(());
    }
    attempt.attempted := attempt.attempted + [index];
    OwnLabels(reference);
    var created := d.MakeVolume(name, ConfigurationLabels(reference));
    StagingThen(w0, w, d.world, q, reference);
    var _ :- created;
    var made :- d.InspectVolume(name);
    r := if made.None? || !ConfigurationOwner(made.value, reference) then Failure(MaterialConflict) else Success(());
  }

  /** Fills an empty owned volume, and verifies it in any case. */
  method FillVolume(d: Daemon, q: Install, index: nat, artifact: Artifact, ghost w0: World)
    returns (r: Result<Mount, Raised>)
    requires Staging(w0, d.world, q) && index < |q.references|
    requires var name := ConfigurationVolumeName(q.references[index]);
             name in d.world.volumes && ConfigurationOwner(d.world.volumes[name].labels, q.references[index])
    modifies d
    ensures Staging(w0, d.world, q) && Extends(old(d.world), d.world)
    ensures r.Success? ==>
              && StagedVolume(d.world, q.references[index], artifact)
              && r.value == Mount(artifact.target, ConfigurationVolumeName(q.references[index]))
    ensures r.Failure? ==> StagingError(r.error)
    ensures d.reliable && old(StagedVolume(d.world, q.references[index], artifact)) ==>
              r.Success? && d.world == old(d.world)
  {
    ghost var w := d.world;
    var reference := q.references[index];
    var name := ConfigurationVolumeName(reference);
    var observed :- d.InspectFile(name);
    if observed.None? {
      var written := d.WriteFile(name, File(artifact.digest, artifact.mode, true, 0));
      StagingThen(w0, w, d.world, q, reference);
      var _ :- written;
      observed :- d.InspectFile(name);
    }
    if !Holds(observed, artifact) {
      return Failure(MaterialConflict);
    }
    var labels :- d.InspectVolume(name);
    r := if labels.None? || !ConfigurationOwner(labels.value, reference) then Failure(MaterialConflict)
         else Success(Mount(artifact.target, name));
  }

  method StageOne(d: Daemon, q: Install, attempt: Attempt, index: nat, ghost w0: World)
    returns (r: Result<Mount, Raised>)
    requires Staging(w0, d.world, q) && index < |q.references|
    requires attempt.attempted == attempt.staged == Range(index)
    modifies d, attempt`attempted, attempt`staged
    ensures Staging(w0, d.world, q) && Extends(old(d.world), d.world)
    ensures InStep(attempt.attempted, attempt.staged) && |attempt.attempted| <= index + 1
    ensures r.Success? ==>
              && attempt.attempted == attempt.staged == Range(index + 1) && StagedAt(d.world, q, index)
              && r.value == StagedMount(q, index)
    ensures r.Failure? ==> StagingError(r.error)
    ensures d.reliable && old(StagedAt(d.world, q, index)) ==> r.Success? && d.world == old(d.world)
  {
    ghost var w := d.world;
    InStepAt(index);
    var artifact := ArtifactById(q.artifacts, q.references[index].artifact);
    r := Failure(Other);
    if artifact.Some? {
      var owned := OwnVolume(d, q, attempt, index, w0);
      ghost var between := d.world;
      if owned.Failure? {
        r := Failure(owned.error);
      } else {
        r := FillVolume(d, q, index, artifact.value, w0);
        ExtendsThen(w, between, d.world);
      }
    }
    if r.Success? {
      RangeThen(index);
      attempt.staged := attempt.staged + [index];
    }
  }

  /** Stages every selected volume. Whatever stops it, no existing file was overwritten, no
      volume with other labels was touched, and the attempt names exactly what was tried. */
  method Stage(d: Daemon, q: Install, attempt: Attempt) returns (r: Result<seq<Mount>, Raised>)
    requires Consistent(d.world) && attempt.attempted == attempt.staged == []
    modifies d, attempt`attempted, attempt`staged, attempt`phase
    ensures Staging(old(d.world), d.world, q)
    ensures attempt.phase == ConfigurationStaging
    ensures InStep(attempt.attempted, attempt.staged) && |attempt.attempted| <= |q.references|
    ensures r.Success? ==>
              && attempt.staged == Range(|q.references|)
              && StagedUpTo(d.world, q, |q.references|) && r.value == StagedMounts(q, |q.references|)
    ensures r.Failure? ==> StagingError(r.error)
    ensures d.reliable && old(StagedUpTo(d.world, q, |q.references|)) ==> r.Success? && d.world == old(d.world)
  {
    ghost var w := d.world;
    var mounts: seq<Mount> := [];
    attempt.phase := ConfigurationStaging;
    for index := 0 to |q.references|
      invariant Staging(w, d.world, q)
      invariant attempt.attempted == attempt.staged == Range(index) && attempt.phase == ConfigurationStaging
      invariant StagedUpTo(d.world, q, index) && mounts == StagedMounts(q, index)
      invariant d.reliable && StagedUpTo(w, q, |q.references|) ==> d.world == w
    {
      ghost var before := d.world;
      assert StagedUpTo(w, q, |q.references|) ==> StagedAt(w, q, index);
      var mount := StageOne(d, q, attempt, index, w);
      if mount.Failure? {
        return Failure(mount.error);
      }
      StagedThen(before, d.world, q, index);
      StagedMountsThen(q, index);
      mounts := mounts + [mount.value];
    }
    InStepAt(|q.references|);
    r := Success(mounts);
  }
}
