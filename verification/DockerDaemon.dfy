// One Docker daemon as the interpreter uses it. Reads tell the truth or fail; a mutation that
// fails may or may not have taken effect, and nobody else writes while an effect is executed.
// A reliable daemon never fails: the laws that need one say so.

module DockerDaemon {
  import opened Wrappers
  import opened IpAddress
  import opened DockerLabels
  import opened ConfigurationAttempt

  datatype File = File(digest: string, mode: nat, regular: bool, owner: nat)

  datatype Volume = Volume(labels: Labels, file: Option<File>)

  /** A user id that can own a secret file. */
  type Uid = n: nat | n <= MAX_UID

  predicate CanonicalImageId(id: string) {
    |id| == 71 && id[..7] == ['s', 'h', 'a', '2', '5', '6', ':'] && Hex64(id[7..])
  }

  const ZERO_ID: string := ['s', 'h', 'a', '2', '5', '6', ':'] + seq(64, _ => '0')

  /** Image inspections with any other id are refused as malformed. */
  type ImageId = id: string | CanonicalImageId(id) witness ZERO_ID

  /** `pins` are the immutable references that the image's repository digests satisfy, `owner` is
      the numeric user its configured user stands for, if it stands for one. */
  datatype Image = Image(id: ImageId, pins: set<string>, user: Option<string>, owner: Option<Uid>)

  /** A read-only mount of a volume's content file. */
  datatype Mount = Mount(target: string, volume: VolumeName)

  /** A host path: the Docker socket, Docker Desktop's proxy of it, or another. */
  datatype Path = Socket | DesktopProxy | OtherPath(path: string)

  datatype Bind = Bind(source: Path, target: Path, readOnly: bool)

  datatype ConfiguredBind = ConfiguredBind(source: Path, target: Path, readOnly: Option<bool>)

  /** The address of a container on one network, and whether it comes with the network's id. */
  datatype RawAddress = RawAddress(text: string, identified: bool)

  predicate Inspectable(a: RawAddress) {
    Ip(a.text) && (a.identified ==> |a.text| <= 45 && '%' !in a.text)
  }

  /** Container inspections with any other address are refused as malformed. */
  type Address = a: RawAddress | Inspectable(a) witness RawAddress(SomeAddress(), true)

  datatype Container = Container(
    name: ResourceName, running: bool, labels: Labels, image: string, user: Option<string>,
    networks: seq<ResourceName>, addresses: map<ResourceName, Address>, mounts: seq<Mount>,
    binds: Option<seq<Bind>>, groups: Option<seq<string>>, configuredBinds: Option<seq<ConfiguredBind>>,
    environment: map<string, string>)

  /** What an inspection reports: the identity may be unusable. */
  datatype Seen = Seen(id: Option<string>, container: Container)

  /** Every call that changes the daemon, and every container read back by its id. */
  datatype Call =
    | Pull(image: string)
    | CreateNetwork(network: ResourceName)
    | CreateVolume(volume: VolumeName)
    | Materialize(target: VolumeName)
    | Look(looked: string, found: bool)
    | Remove(removed: string, ok: bool)
    | Create(name: ResourceName, created: Option<string>, raised: bool)
    | Start(started: string, ok: bool)

  datatype World = World(
    containers: map<string, Container>,
    volumes: map<VolumeName, Volume>,
    networks: map<ResourceName, Labels>,
    images: map<string, Image>,
    used: set<string>,
    log: seq<Call>)

  /** Operating system, kind, version and API version: those of the one qualified Docker Desktop,
      or any others. */
  datatype ProviderFacts = QualifiedDesktop | OtherFacts(system: string, kind: string, version: string, api: string)

  /** The exceptions of the interpreter, as far as they are told apart. */
  datatype Raised = UnsupportedAuthority | Precondition | MaterialConflict | EvidenceInvalid | ControlError | Other

  // ---- invariants and frames ----

  predicate UniqueNames(w: World) {
    forall a, b | a in w.containers && b in w.containers :: w.containers[a].name == w.containers[b].name ==> a == b
  }

  predicate Consistent(w: World) {
    && UniqueNames(w)
    && (forall id | id in w.containers :: id in w.used && Hex64(id))
  }

  /** Nothing but addition: networks and images stay, volumes keep their labels and any file. */
  predicate Extends(w: World, w': World) {
    && (forall n | n in w.networks :: n in w'.networks && w'.networks[n] == w.networks[n])
    && (forall i | i in w.images :: i in w'.images && w'.images[i] == w.images[i])
    && (forall v | v in w.volumes ::
          && v in w'.volumes && w'.volumes[v].labels == w.volumes[v].labels
          && (w.volumes[v].file.Some? ==> w'.volumes[v].file == w.volumes[v].file))
  }

  lemma ExtendsThen(a: World, b: World, c: World)
    requires Extends(a, b) && Extends(b, c)
    ensures Extends(a, c)
  {
  }

  predicate Preparatory(c: Call) {
    c.Pull? || c.CreateNetwork? || c.CreateVolume? || c.Materialize?
  }

  function Sent(w: World, w': World): seq<Call>
    requires w.log <= w'.log
  {
    w'.log[|w.log|..]
  }

  /** Only preparation: no container was touched, and everything that was there is still there. */
  predicate Prepared(w: World, w': World) {
    && w.log <= w'.log && Extends(w, w')
    && w'.containers == w.containers && w'.used == w.used
    && (forall c | c in Sent(w, w') :: Preparatory(c))
  }

  lemma PreparedThen(a: World, b: World, c: World)
    requires Prepared(a, b) && Prepared(b, c)
    ensures Prepared(a, c)
  {
    assert Sent(a, c) == Sent(a, b) + Sent(b, c);
  }

  /** No container was removed, or tried to be. */
  predicate NoRemoval(w: World, w': World) {
    w.log <= w'.log && forall c | c in Sent(w, w') :: !c.Remove?
  }

  lemma NoRemovalThen(a: World, b: World, c: World)
    requires NoRemoval(a, b) && NoRemoval(b, c)
    ensures NoRemoval(a, c)
  {
    assert Sent(a, c) == Sent(a, b) + Sent(b, c);
  }

  function Logged(w: World, c: Call): World {
    w.(log := w.log + [c])
  }

  function WithContainer(w: World, id: string, c: Container): World {
    w.(containers := w.containers[id := c], used := w.used + {id})
  }

  predicate Vacant(w: World, name: ResourceName) {
    forall id | id in w.containers :: w.containers[id].name != name
  }

  predicate HasName(w: World, id: string, name: ResourceName) {
    id in w.containers && w.containers[id].name == name
  }

  predicate FreshContainer(w: World, id: string, c: Container) {
    id !in w.used && id !in w.containers && Hex64(id) && Vacant(w, c.name)
  }

  /** What the caller asks of a new container. */
  datatype Recipe = Recipe(
    name: ResourceName, image: string, environment: map<string, string>, labels: Labels, mounts: seq<Mount>,
    network: ResourceName)

  predicate MadeFrom(w: World, r: Recipe, c: Container) {
    && c.name == r.name && c.labels == r.labels && !c.running
    && r.image in w.images && c.image == w.images[r.image].id && c.user == w.images[r.image].user
    && c.networks == [r.network] && c.mounts == r.mounts
    && (forall k | k in r.environment :: k in c.environment && c.environment[k] == r.environment[k])
  }

  ghost predicate CreateSent(w: World, w': World, r: Recipe, out: Result<Option<string>, Raised>) {
    match out
    case Success(Some(id)) =>
      exists c :: FreshContainer(w, id, c) && MadeFrom(w, r, c)
                  && w' == Logged(WithContainer(w, id, c), Create(r.name, Some(id), false))
    case Success(None) =>
      exists id, c :: FreshContainer(w, id, c) && MadeFrom(w, r, c)
                      && w' == Logged(WithContainer(w, id, c), Create(r.name, None, false))
    case Failure(_) =>
      || w' == Logged(w, Create(r.name, None, true))
      || exists id, c :: FreshContainer(w, id, c) && MadeFrom(w, r, c)
                         && w' == Logged(WithContainer(w, id, c), Create(r.name, None, true))
  }

  predicate Started(w: World, w': World, id: string, ok: bool) {
    && (ok ==> id in w.containers)
    && (|| w' == Logged(w, Start(id, ok))
        || (id in w.containers
            && exists running: bool {:trigger w.containers[id].(running := running)} ::
                 w' == Logged(w.(containers := w.containers[id := w.containers[id].(running := running)]),
                              Start(id, ok))))
  }

  /** A container was made from a recipe and started under its own id; the answer to its creation
      may not have carried the id. */
  predicate Ran(w: World, w': World, r: Recipe, id: string, answered: Option<string>) {
    && OnlyContainers(w, w') && Vacant(w, r.name) && id !in w.containers
    && id in w'.containers && w'.containers == w.containers[id := w'.containers[id]]
    && MadeFrom(w, r, w'.containers[id].(running := false))
    && w'.log == w.log + [Create(r.name, answered, false), Start(id, true)]
  }

  lemma MadeThenStarted(w: World, w1: World, w2: World, r: Recipe, answered: Option<string>, made: string,
                        c: Container, id: string)
    requires FreshContainer(w, made, c) && MadeFrom(w, r, c)
    requires w1 == Logged(WithContainer(w, made, c), Create(r.name, answered, false))
    requires HasName(w1, id, r.name) && Started(w1, w2, id, true)
    ensures Ran(w, w2, r, id, answered)
  {
    assert id != made ==> HasName(w, id, r.name);
    assert w2.containers[id].(running := false) == c;
    assert w2.containers == w.containers[id := w2.containers[id]];
  }

  lemma RanFromCreation(w: World, w1: World, w2: World, r: Recipe, answered: Option<string>, id: string)
    requires CreateSent(w, w1, r, Success(answered))
    requires HasName(w1, id, r.name) && Started(w1, w2, id, true)
    ensures Ran(w, w2, r, id, answered)
  {
    if answered.Some? {
      var c :| FreshContainer(w, answered.value, c) && MadeFrom(w, r, c)
            && w1 == Logged(WithContainer(w, answered.value, c), Create(r.name, answered, false));
      MadeThenStarted(w, w1, w2, r, answered, answered.value, c, id);
    } else {
      var made, c :| FreshContainer(w, made, c) && MadeFrom(w, r, c)
                  && w1 == Logged(WithContainer(w, made, c), Create(r.name, answered, false));
      MadeThenStarted(w, w1, w2, r, answered, made, c, id);
    }
  }

  predicate Removed(w: World, w': World, id: string, ok: bool) {
    || w' == Logged(w.(containers := w.containers - {id}), Remove(id, ok))
    || (!ok && w' == Logged(w, Remove(id, ok)))
  }

  /** An inspection by name shows the container that has it. */
  ghost predicate SeenIn(w: World, s: Seen, name: ResourceName) {
    exists id | id in w.containers ::
      && w.containers[id] == s.container && s.container.name == name
      && (s.id.Some? ==> s.id.value == id)
  }

  predicate MountedFile(w: World, id: string, mount: Mount, f: File) {
    && id in w.containers && mount in w.containers[id].mounts
    && mount.volume in w.volumes && w.volumes[mount.volume].file == Some(f)
  }

  /** What verifying a secret recipient establishes, all read from the one container: it runs the
      image as its user, and has the secret environment and mounts. */
  predicate Recipient(w: World, id: string, image: Image, environment: map<string, string>, mounts: seq<Mount>) {
    && id in w.containers
    && var c := w.containers[id];
       && c.running && c.image == image.id && c.user == image.user
       && (forall k | k in environment :: k in c.environment && c.environment[k] == environment[k])
       && (forall m | m in mounts :: m in c.mounts)
  }

  predicate OnlyContainers(w: World, w': World) {
    w'.volumes == w.volumes && w'.networks == w.networks && w'.images == w.images && w.log <= w'.log
  }

  class Daemon {
    var world: World
    const reliable: bool
    const localSocket: bool
    const socketGroup: Option<string>
    const facts: Option<ProviderFacts>

    constructor (world: World, reliable: bool, localSocket: bool, socketGroup: Option<string>,
                 facts: Option<ProviderFacts>)
      ensures this.world == world && this.reliable == reliable
      ensures this.localSocket == localSocket && this.socketGroup == socketGroup && this.facts == facts
    {
      this.world := world;
      this.reliable := reliable;
      this.localSocket := localSocket;
      this.socketGroup := socketGroup;
      this.facts := facts;
    }

    method Answers() returns (yes: bool)
      ensures reliable ==> yes
    {
      yes := *;
      yes := yes || reliable;
    }

    // ---- reads ----

    method InspectNetwork(name: ResourceName) returns (r: Result<Option<Labels>, Raised>)
      ensures r.Success? ==> r.value == if name in world.networks then Some(world.networks[name]) else None
      ensures r.Failure? ==> r.error == Other
      ensures reliable ==> r.Success?
    {
      var ok := Answers();
      r := if !ok then Failure(Other)
           else Success(if name in world.networks then Some(world.networks[name]) else None);
    }

    method InspectVolume(name: VolumeName) returns (r: Result<Option<Labels>, Raised>)
      ensures r.Success? ==> r.value == if name in world.volumes then Some(world.volumes[name].labels) else None
      ensures r.Failure? ==> r.error == Other
      ensures reliable ==> r.Success?
    {
      var ok := Answers();
      r := if !ok then Failure(Other)
           else Success(if name in world.volumes then Some(world.volumes[name].labels) else None);
    }

    /** Reads the content file of a volume through a read-only helper container. */
    method InspectFile(name: VolumeName) returns (r: Result<Option<File>, Raised>)
      ensures r.Success? ==> r.value == if name in world.volumes then world.volumes[name].file else None
      ensures r.Failure? ==> r.error == Other || r.error == EvidenceInvalid
      ensures reliable ==> r.Success?
    {
      var ok := Answers();
      var e: Raised := *;
      r := if !ok then Failure(if e == EvidenceInvalid then e else Other)
           else Success(if name in world.volumes then world.volumes[name].file else None);
    }

    method InspectImage(reference: string) returns (r: Result<Option<Image>, Raised>)
      ensures r.Success? ==> r.value == if reference in world.images then Some(world.images[reference]) else None
      ensures r.Failure? ==> r.error == Other
      ensures reliable ==> r.Success?
    {
      var ok := Answers();
      r := if !ok then Failure(Other)
           else Success(if reference in world.images then Some(world.images[reference]) else None);
    }

    /** By name: absence means that no container has the name. */
    method InspectContainer(name: ResourceName) returns (r: Result<Option<Seen>, Raised>)
      requires Consistent(world)
      ensures r == Success(None) ==> Vacant(world, name)
      ensures r.Success? && r.value.Some? ==> SeenIn(world, r.value.value, name)
      ensures r.Failure? ==> r.error == Other
      ensures reliable ==> r.Success? && (r.value.Some? ==> r.value.value.id.Some?)
    {
      var ok := Answers();
      var identified := Answers();
      if !ok {
        return Failure(Other);
      }
      if Vacant(world, name) {
        return Success(None);
      }
      var id :| id in world.containers && world.containers[id].name == name;
      r := Success(Some(Seen(if identified then Some(id) else None, world.containers[id])));
    }

    /** By id: the read is logged with what it found. */
    method LookUp(id: string) returns (r: Result<Option<Seen>, Raised>)
      modifies this
      ensures r.Success? ==> world == Logged(old(world), Look(id, r.value.Some?))
      ensures r == Success(None) ==> id !in old(world).containers
      ensures r.Success? && r.value.Some? ==> id in world.containers && world.containers[id] == r.value.value.container
      ensures r.Failure? ==> r.error == Other && world == old(world)
      ensures reliable ==> r.Success? && (r.value.Some? ==> r.value.value.id == Some(id))
      ensures reliable && id in old(world).containers ==> r.Success? && r.value.Some?
    {
      var ok := Answers();
      var identified := Answers();
      if !ok {
        return Failure(Other);
      }
      if id in world.containers {
        r := Success(Some(Seen(if identified then Some(id) else None, world.containers[id])));
        world := Logged(world, Look(id, true));
      } else {
        r := Success(None);
        world := Logged(world, Look(id, false));
      }
    }

    /** The mounted content file of one container, by its id and the target path. */
    method InspectMount(id: string, mount: Mount) returns (r: Result<Option<File>, Raised>)
      ensures r.Success? && r.value.Some? ==> MountedFile(world, id, mount, r.value.value)
      ensures r.Failure? ==> r.error == Other || r.error == EvidenceInvalid
      ensures reliable && (exists f :: MountedFile(world, id, mount, f)) ==> r.Success? && r.value.Some?
    {
      var ok := Answers();
      var e: Raised := *;
      if !ok {
        return Failure(if e == EvidenceInvalid then e else Other);
      }
      r := Success(
        if id in world.containers && mount in world.containers[id].mounts && mount.volume in world.volumes
        then world.volumes[mount.volume].file else None);
    }

    /** Reads the recipient back; `held` is whether every mounted file is the expected one. */
    method VerifyRecipient(id: string, image: Image, environment: map<string, string>, mounts: seq<Mount>, held: bool)
      returns (r: Result<(), Raised>)
      ensures r.Success? ==> Recipient(world, id, image, environment, mounts) && held
      ensures r.Failure? ==> r.error == Other || r.error == EvidenceInvalid
      ensures reliable && Recipient(world, id, image, environment, mounts) && held ==> r.Success?
    {
      var ok := Answers();
      var e: Raised := *;
      r := if ok && Recipient(world, id, image, environment, mounts) && held then Success(())
           else Failure(if e == EvidenceInvalid then e else Other);
    }

    /** The socket path of the active client and the group that may use it. */
    method InspectFacts() returns (r: Option<ProviderFacts>)
      ensures r.Some? ==> r == facts
      ensures reliable ==> r == facts
    {
      var ok := Answers();
      r := if ok then facts else None;
    }

    // ---- preparation ----
    // These calls are made only in the states they require: what is missing is created, what is
    // empty is written, and nothing else. That they are is proved of every caller.

    method Done(effect: World, c: Call) returns (r: Result<(), Raised>)
      modifies this
      ensures world == Logged(effect, c) || (r.Failure? && world == Logged(old(world), c))
      ensures r.Failure? ==> r.error == Other
      ensures reliable ==> r.Success?
    {
      var ok := Answers();
      var applied: bool := *;
      world := Logged(if ok || applied then effect else world, c);
      r := if ok then Success(()) else Failure(Other);
    }

    method PullImage(reference: string) returns (r: Result<(), Raised>)
      requires reference !in world.images
      modifies this
      ensures Prepared(old(world), world)
      ensures world.volumes == old(world).volumes && world.networks == old(world).networks
      ensures r.Failure? ==> r.error == Other
      ensures reliable ==> r.Success?
    {
      var image: Image := *;
      r := Done(world.(images := world.images[reference := image]), Pull(reference));
    }

    method MakeNetwork(name: ResourceName, labels: Labels) returns (r: Result<(), Raised>)
      requires name !in world.networks
      modifies this
      ensures Prepared(old(world), world)
      ensures world.volumes == old(world).volumes && world.images == old(world).images
      ensures r.Success? ==> name in world.networks && world.networks[name] == labels
      ensures r.Failure? ==> r.error == Other
      ensures reliable ==> r.Success?
    {
      r := Done(world.(networks := world.networks[name := labels]), CreateNetwork(name));
    }

    /** Only this volume may differ afterwards. */
    predicate OnlyVolume(w: World, name: VolumeName)
      reads this
    {
      && world.networks == w.networks && world.images == w.images
      && (forall v | v in world.volumes && v != name :: v in w.volumes && world.volumes[v] == w.volumes[v])
    }

    method MakeVolume(name: VolumeName, labels: Labels) returns (r: Result<(), Raised>)
      requires name !in world.volumes
      modifies this
      ensures Prepared(old(world), world) && OnlyVolume(old(world), name)
      ensures name in world.volumes ==> world.volumes[name] == Volume(labels, None)
      ensures r.Success? ==> name in world.volumes
      ensures r.Failure? ==> r.error == Other
      ensures reliable ==> r.Success?
    {
      r := Done(world.(volumes := world.volumes[name := Volume(labels, None)]), CreateVolume(name));
    }

    /** Writes the content file; a failed write may leave any file behind. */
    method WriteFile(name: VolumeName, file: File) returns (r: Result<(), Raised>)
      requires name in world.volumes ==> world.volumes[name].file.None?
      modifies this
      ensures Prepared(old(world), world) && OnlyVolume(old(world), name)
      ensures name in world.volumes <==> name in old(world).volumes
      ensures r.Success? ==> name in world.volumes && world.volumes[name].file == Some(file)
      ensures r.Failure? ==> r.error == Other
      ensures reliable && name in old(world).volumes ==> r.Success?
    {
      if name !in world.volumes {
        world := Logged(world, Materialize(name));
        return Failure(Other);
      }
      var ok := Answers();
      var left: Option<File> := *;
      var written := world.volumes[name].(file := if ok then Some(file) else left);
      world := Logged(world.(volumes := world.volumes[name := written]), Materialize(name));
      r := if ok then Success(()) else Failure(Other);
    }

    // ---- containers ----

    /** Creates a container and returns its id, if the answer carried a usable one. */
    method MakeContainer(recipe: Recipe) returns (r: Result<Option<string>, Raised>)
      requires Consistent(world)
      modifies this
      ensures Consistent(world) && CreateSent(old(world), world, recipe, r)
      ensures r.Failure? ==> r.error == Other
    {
      var ok := Answers();
      var identified := Answers();
      var id: string, c: Container, applied: bool := *, *, *;
      if FreshContainer(world, id, c) && MadeFrom(world, recipe, c) && (ok || applied) {
        r := if ok then Success(if identified then Some(id) else None) else Failure(Other);
        world := Logged(WithContainer(world, id, c),
                        Create(recipe.name, if ok && identified then Some(id) else None, !ok));
      } else {
        r := Failure(Other);
        world := Logged(world, Create(recipe.name, None, true));
      }
    }

    method StartContainer(id: string) returns (r: Result<(), Raised>)
      requires Consistent(world)
      modifies this
      ensures Consistent(world) && Started(old(world), world, id, r.Success?)
      ensures r.Failure? ==> r.error == Other
    {
      var ok := Answers();
      var applied: bool, running: bool := *, *;
      if id !in world.containers {
        world := Logged(world, Start(id, false));
        return Failure(Other);
      }
      if ok || applied {
        world := Logged(world.(containers := world.containers[id := world.containers[id].(running := running)]),
                        Start(id, ok));
      } else {
        world := Logged(world, Start(id, ok));
      }
      r := if ok then Success(()) else Failure(Other);
    }

    /** Starting by name starts the container that has it. */
    method StartNamed(name: ResourceName) returns (r: Result<(), Raised>)
      requires Consistent(world)
      modifies this
      ensures Consistent(world) && OnlyContainers(old(world), world) && NoRemoval(old(world), world)
      ensures r.Failure? ==> r.error == Other
      ensures r.Success? ==> exists id :: HasName(old(world), id, name) && Started(old(world), world, id, true)
    {
      if Vacant(world, name) {
        return Failure(Other);
      }
      ghost var w := world;
      var id :| id in world.containers && world.containers[id].name == name;
      assert HasName(w, id, name);
      r := StartContainer(id);
      assert Sent(w, world) == [Start(id, r.Success?)];
    }

    /** Removing by name removes the container that has it. */
    method RemoveNamed(name: ResourceName) returns (r: Result<(), Raised>)
      requires Consistent(world)
      modifies this
      ensures Consistent(world) && OnlyContainers(old(world), world)
      ensures r.Failure? ==> r.error == Other
      ensures r.Success? ==> exists id :: HasName(old(world), id, name) && Removed(old(world), world, id, true)
    {
      if Vacant(world, name) {
        return Failure(Other);
      }
      var id :| id in world.containers && world.containers[id].name == name;
      assert HasName(world, id, name);
      r := RemoveContainer(id);
    }

    /** Creates, connects and starts in one call. */
    method RunContainer(recipe: Recipe) returns (r: Result<(), Raised>)
      requires Consistent(world)
      modifies this
      ensures Consistent(world) && OnlyContainers(old(world), world) && NoRemoval(old(world), world)
      ensures r.Failure? ==> r.error == Other
      ensures r.Success? ==> exists id, answered :: Ran(old(world), world, recipe, id, answered)
    {
      ghost var w := world;
      var made := MakeContainer(recipe);
      assert Sent(w, world) == [world.log[|w.log|]] && world.log[|w.log|].Create?;
      if made.Failure? {
        return Failure(Other);
      }
      ghost var created := world;
      r := StartNamed(recipe.name);
      NoRemovalThen(w, created, world);
      if r.Success? {
        ghost var id :| HasName(created, id, recipe.name) && Started(created, world, id, true);
        RanFromCreation(w, created, world, recipe, made.value, id);
      }
    }

    method RemoveContainer(id: string) returns (r: Result<(), Raised>)
      requires Consistent(world)
      modifies this
      ensures Consistent(world) && Removed(old(world), world, id, r.Success?)
      ensures r.Failure? ==> r.error == Other
    {
      var ok := Answers();
      var applied: bool := *;
      world := Logged(if ok || applied then world.(containers := world.containers - {id}) else world, Remove(id, ok));
      r := if ok then Success(()) else Failure(Other);
    }
  }
}
