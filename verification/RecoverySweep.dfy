// Two sweeps over the selected addresses of one daemon, while anybody may change it. The report is
// complete only if both sweeps agree; then, if no observed value has come back after a change,
// there is one moment at which everything reported held together.

module RecoverySweep {
  import opened Wrappers
  import opened DockerLabels

  // ---- the daemon at one moment ----

  /** An answer: malformed, not found, or there. */
  datatype Raw<+T> = Malformed | NotFound | There(value: T)

  /** The projected image: whether it matches the pin, and the user id only if it does. */
  datatype ImageRaw = ImageRaw(identity: string, matches: bool, uid: Option<nat>)

  datatype MountFact = MountFact(isVolume: bool, volume: VolumeName, destination: string, writable: bool)

  datatype ContainerFacts = ContainerFacts(
    name: ResourceName, image: string, networks: map<ResourceName, string>, mounts: set<MountFact>,
    running: bool, status: string)

  datatype ContainerRaw = ContainerRaw(identity: string, labels: Labels, facts: ContainerFacts)

  datatype NetworkRaw = NetworkRaw(identity: string, labels: Labels, name: ResourceName)

  datatype VolumeRaw = VolumeRaw(name: VolumeName, labels: Labels, driver: string, scope: string, created: string)

  datatype Snapshot = Snapshot(
    daemon: Option<string>, image: Raw<ImageRaw>, container: Raw<ContainerRaw>, network: Raw<NetworkRaw>,
    volume: VolumeName -> Raw<VolumeRaw>, held: VolumeName -> Option<bool>)

  // ---- what is asked for ----

  datatype Role = ContainerRole | NetworkRole | ImageRole | ConfigurationRole | SecretRole

  /** A volume to look at; the address of a secret file needs the image's user id. */
  datatype VolumeTarget = VolumeTarget(role: Role, index: nat, name: Option<VolumeName>, labels: Labels,
                                       destination: string)

  datatype ConfigurationTarget = ConfigurationTarget(name: VolumeName, labels: Labels, destination: string)

  datatype SecretTarget = SecretTarget(name: nat -> VolumeName, labels: nat -> Labels, destination: string)

  datatype Plan = Plan(
    expected: string, container: ResourceName, containerLabels: Labels, network: ResourceName, networkLabels: Labels,
    configurations: seq<ConfigurationTarget>, secrets: seq<SecretTarget>)

  const MAX_VOLUMES := 8

  function Volumes(p: Plan, uid: Option<nat>): (ts: seq<VolumeTarget>)
    ensures |ts| == |p.configurations| + |p.secrets|
  {
    seq(|p.configurations|, i requires 0 <= i < |p.configurations| =>
      VolumeTarget(ConfigurationRole, i, Some(p.configurations[i].name), p.configurations[i].labels,
                   p.configurations[i].destination))
    + seq(|p.secrets|, i requires 0 <= i < |p.secrets| =>
        VolumeTarget(SecretRole, i, if uid.Some? then Some(p.secrets[i].name(uid.value)) else None,
                     if uid.Some? then p.secrets[i].labels(uid.value) else map[], p.secrets[i].destination))
  }

  predicate DistinctNames(ts: seq<VolumeTarget>) {
    forall i, j | 0 <= i < j < |ts| && ts[i].name.Some? && ts[j].name.Some? :: ts[i].name != ts[j].name
  }

  // ---- rows ----

  datatype State = Unknown | Present | Absent | UnsupportedState

  datatype Ownership = Unestablished | Matching | Conflicting | NotApplicable

  datatype Attachment = AttachmentUnknown | Observed | NotObserved | NoAttachment

  datatype Reason =
    | NoReason | OwnershipConflict | Missing | SelectorUnavailable | ProviderUnavailable | MalformedReply | Drift

  datatype Identity = NoIdentity | Id(id: string) | Commitment(of: VolumeRaw)

  datatype Row = Row(role: Role, index: nat, state: State, ownership: Ownership, identity: Identity,
                     attachment: Attachment, reason: Reason)

  function Cpk(labels: Labels): Labels {
    map k | k in labels && DockerLabels.Cpk(k) :: labels[k]
  }

  /** What the rows of one sweep are compared against: the image's identity and the exact mounts,
      as far as they are known. */
  datatype Context = Context(image: Option<string>, mounts: set<MountFact>, complete: bool)

  function ImageRow(image: Raw<ImageRaw>): Row
    requires !image.Malformed?
  {
    match image
    case NotFound => Row(ImageRole, 0, Absent, NotApplicable, NoIdentity, NoAttachment, Missing)
    case There(i) =>
      Row(ImageRole, 0, Present, if i.matches then NotApplicable else Conflicting, Id(i.identity), NoAttachment,
          if i.matches then NoReason else OwnershipConflict)
  }

  function UidOf(image: Raw<ImageRaw>): Option<nat> {
    if image.There? && image.value.matches then image.value.uid else None
  }

  function ContextOf(p: Plan, image: Raw<ImageRaw>): Context {
    var ts := Volumes(p, UidOf(image));
    Context(if image.There? && image.value.matches then Some(image.value.identity) else None,
            set i | 0 <= i < |ts| && ts[i].name.Some? :: MountFact(true, ts[i].name.value, ts[i].destination, false),
            image.There? && image.value.matches && forall i | 0 <= i < |ts| :: ts[i].name.Some?)
  }

  predicate ContainerMatches(p: Plan, c: Context, raw: ContainerRaw) {
    && raw.facts.name == p.container && raw.facts.networks.Keys == {p.network} && c.mounts <= raw.facts.mounts
    && (c.image.Some? ==> raw.facts.image == c.image.value)
    && (c.complete ==> raw.facts.mounts == c.mounts)
    && Cpk(raw.labels) == p.containerLabels
  }

  /** The container's row, before its network is taken into account. */
  function ContainerRow(c: Context, identity: Raw<string>, owned: bool): Row
    requires !identity.Malformed?
  {
    match identity
    case NotFound => Row(ContainerRole, 0, Absent, NotApplicable, NoIdentity, NoAttachment, Missing)
    case There(id) =>
      if owned && !c.complete then
        Row(ContainerRole, 0, Present, Unestablished, Id(id), NoAttachment, SelectorUnavailable)
      else if owned then Row(ContainerRole, 0, Present, Matching, Id(id), NoAttachment, NoReason)
      else Row(ContainerRole, 0, Present, Conflicting, Id(id), NoAttachment, OwnershipConflict)
  }

  function NetworkRow(p: Plan, network: Raw<NetworkRaw>): Option<Row> {
    match network
    case Malformed => None
    case NotFound => Some(Row(NetworkRole, 0, Absent, NotApplicable, NoIdentity, NoAttachment, Missing))
    case There(n) =>
      var matches := n.name == p.network && Cpk(n.labels) == p.networkLabels;
      Some(Row(NetworkRole, 0, Present, if matches then Matching else Conflicting, Id(n.identity), NoAttachment,
               if matches then NoReason else OwnershipConflict))
  }

  /** A volume's row without its attachment. */
  function VolumeRow(t: VolumeTarget, raw: Raw<VolumeRaw>): Option<Row> {
    match raw
    case Malformed => None
    case NotFound => Some(Row(t.role, t.index, Absent, NotApplicable, NoIdentity, AttachmentUnknown, Missing))
    case There(v) =>
      if Some(v.name) != t.name then None
      else
        var matches := Cpk(v.labels) == t.labels;
        Some(Row(t.role, t.index, Present, if matches then Matching else Conflicting, Commitment(v), AttachmentUnknown,
                 if matches then NoReason else OwnershipConflict))
  }

  /** With what the holder query says; a held volume that is absent is a contradiction. */
  function Attached(row: Row, held: Option<bool>): Option<Row> {
    if held.None? || (held.value && row.state == Absent) then None
    else Some(row.(attachment := if held.value then Observed else NotObserved))
  }

  /** A container on another network of that name is in conflict. */
  function Reconciled(p: Plan, container: Row, facts: Option<ContainerFacts>, network: Row): Row {
    if facts.Some? && network.state == Present
       && (p.network !in facts.value.networks || Id(facts.value.networks[p.network]) != network.identity)
    then container.(ownership := Conflicting, reason := OwnershipConflict)
    else container
  }

  /** A volume that is absent although the container mounts it has drifted. */
  function Undrifted(t: VolumeTarget, row: Row, facts: Option<ContainerFacts>): Row {
    if row.state == Absent && facts.Some?
       && (exists m | m in facts.value.mounts :: m.isVolume && Some(m.volume) == t.name)
    then Row(t.role, t.index, Unknown, Unestablished, NoIdentity, AttachmentUnknown, Drift)
    else row
  }

  function UnsupportedRow(t: VolumeTarget): Row {
    Row(t.role, t.index, UnsupportedState, Unestablished, NoIdentity, AttachmentUnknown, SelectorUnavailable)
  }

  /** What one sweep has read. */
  datatype Readings = Readings(image: Raw<ImageRaw>, identity: Raw<string>, facts: Option<ContainerFacts>, owned: bool,
                               network: Row, volumes: seq<Row>)

  function RowsOf(p: Plan, r: Readings): seq<Row>
    requires !r.image.Malformed? && !r.identity.Malformed? && |r.volumes| == |p.configurations| + |p.secrets|
  {
    var ts := Volumes(p, UidOf(r.image));
    [Reconciled(p, ContainerRow(ContextOf(p, r.image), r.identity, r.owned), r.facts, r.network), r.network,
     ImageRow(r.image)]
    + seq(|ts|, i requires 0 <= i < |ts| => Undrifted(ts[i], r.volumes[i], r.facts))
  }

  predicate Definite(row: Row) {
    && (row.state == Present || row.state == Absent)
    && row.attachment != AttachmentUnknown && row.ownership != Unestablished
  }

  // ---- a sweep of a frozen daemon ----

  function IdentityOf(c: Raw<ContainerRaw>): Raw<string> {
    match c
    case Malformed => Malformed
    case NotFound => NotFound
    case There(raw) => There(raw.identity)
  }

  function FactsOf(c: Raw<ContainerRaw>): Option<ContainerFacts> {
    if c.There? then Some(c.value.facts) else None
  }

  function OwnedBy(p: Plan, c: Context, raw: Raw<ContainerRaw>): bool {
    raw.There? && ContainerMatches(p, c, raw.value)
  }

  /** The row of one volume, or None where a sweep would stop. */
  function VolumeReading(t: VolumeTarget, inspected: Snapshot, asked: Snapshot): Option<Row> {
    if t.name.None? then Some(UnsupportedRow(t))
    else
      match VolumeRow(t, inspected.volume(t.name.value))
      case None => None
      case Some(row) => Attached(row, asked.held(t.name.value))
  }

  /** The readings are those of one unchanging snapshot. */
  predicate ReadAt(s: Snapshot, p: Plan, r: Readings) {
    var ts := Volumes(p, UidOf(r.image));
    && s.daemon == Some(p.expected)
    && r.image == s.image && !r.image.Malformed?
    && r.identity == IdentityOf(s.container) && !r.identity.Malformed?
    && r.facts == FactsOf(s.container) && r.owned == OwnedBy(p, ContextOf(p, r.image), s.container)
    && NetworkRow(p, s.network) == Some(r.network)
    && |r.volumes| == |ts| && forall i | 0 <= i < |ts| :: VolumeReading(ts[i], s, s) == Some(r.volumes[i])
  }

  /** Everything reported held together at this moment. */
  ghost predicate HeldTogether(s: Snapshot, p: Plan, rows: seq<Row>) {
    exists r :: ReadAt(s, p, r) && RowsOf(p, r) == rows
  }

  // ---- what the rows say of the snapshot ----

  /** The interpreter's own labels are the planned ones. */
  ghost predicate LabelledAs(labels: Labels, planned: Labels) {
    && (forall k | k in planned :: !k.Foreign? && k in labels && labels[k] == planned[k])
    && (forall k | k in labels && !k.Foreign? :: k in planned)
  }

  lemma LabelledIsCpk(labels: Labels, planned: Labels)
    ensures LabelledAs(labels, planned) <==> Cpk(labels) == planned
  {
    var own := Cpk(labels);
    if LabelledAs(labels, planned) {
      assert forall k :: k in own <==> k in planned;
      assert own == planned;
    }
    if own == planned {
      assert forall k :: k in own <==> k in labels && !k.Foreign?;
    }
  }

  /** The pinned image is there, with a user id that secret files can belong to. */
  predicate UserKnown(s: Snapshot) {
    s.image.There? && s.image.value.matches && s.image.value.uid.Some?
  }

  /** Every volume's address is known, and so is the image. */
  predicate AllKnown(s: Snapshot, p: Plan) {
    s.image.There? && s.image.value.matches && (p.secrets == [] || s.image.value.uid.Some?)
  }

  /** A volume of the plan with a known address, mounted read-only where the plan wants it. */
  ghost predicate PlannedMount(s: Snapshot, p: Plan, m: MountFact) {
    && m.isVolume && !m.writable
    && (|| (exists i | 0 <= i < |p.configurations| ::
              m.volume == p.configurations[i].name && m.destination == p.configurations[i].destination)
        || (UserKnown(s)
            && exists i | 0 <= i < |p.secrets| ::
                 && m.volume == p.secrets[i].name(s.image.value.uid.value)
                 && m.destination == p.secrets[i].destination))
  }

  /** The container is the planned one, as far as what is known decides: its name, the only network,
      the pinned image, the planned mounts and no others, and its labels. */
  ghost predicate Planned(s: Snapshot, p: Plan, c: ContainerRaw) {
    && c.facts.name == p.container && c.facts.networks.Keys == {p.network}
    && (s.image.There? && s.image.value.matches ==> c.facts.image == s.image.value.identity)
    && (forall m | PlannedMount(s, p, m) :: m in c.facts.mounts)
    && (AllKnown(s, p) ==> forall m | m in c.facts.mounts :: PlannedMount(s, p, m))
    && LabelledAs(c.labels, p.containerLabels)
  }

  /** If the network is there, the container is on that very network. */
  predicate OnThatNetwork(s: Snapshot, p: Plan, c: ContainerRaw) {
    s.network.There? ==>
      p.network in c.facts.networks && c.facts.networks[p.network] == s.network.value.identity
  }

  ghost predicate ContainerRowMeans(s: Snapshot, p: Plan, row: Row) {
    && row.role == ContainerRole && row.attachment == NoAttachment && !s.container.Malformed?
    && (row.state == Absent <==> s.container.NotFound?) && (row.state == Present <==> s.container.There?)
    && (s.container.NotFound? ==> row.ownership == NotApplicable && row.reason == Missing)
    && (s.container.There? ==>
          var c := s.container.value;
          && row.identity == Id(c.identity)
          && (row.ownership == Matching <==> Planned(s, p, c) && AllKnown(s, p) && OnThatNetwork(s, p, c))
          && (row.ownership == Unestablished <==> Planned(s, p, c) && !AllKnown(s, p) && OnThatNetwork(s, p, c))
          && (row.ownership == Conflicting <==> !Planned(s, p, c) || !OnThatNetwork(s, p, c))
          && (row.reason == NoReason <==> row.ownership == Matching)
          && (row.reason == OwnershipConflict <==> row.ownership == Conflicting))
  }

  ghost predicate NetworkRowMeans(s: Snapshot, p: Plan, row: Row) {
    && row.role == NetworkRole && row.attachment == NoAttachment && !s.network.Malformed?
    && (row.state == Absent <==> s.network.NotFound?) && (row.state == Present <==> s.network.There?)
    && (s.network.NotFound? ==> row.ownership == NotApplicable && row.reason == Missing)
    && (s.network.There? ==>
          var n := s.network.value;
          && row.identity == Id(n.identity)
          && (row.ownership == Matching <==> n.name == p.network && LabelledAs(n.labels, p.networkLabels))
          && (row.ownership == Conflicting <==> n.name != p.network || !LabelledAs(n.labels, p.networkLabels))
          && (row.reason == NoReason <==> row.ownership == Matching)
          && (row.reason == OwnershipConflict <==> row.ownership == Conflicting))
  }

  /** An image has no owner: it is the pinned one or in conflict. */
  ghost predicate ImageRowMeans(s: Snapshot, row: Row) {
    && row.role == ImageRole && row.attachment == NoAttachment && !s.image.Malformed?
    && (row.state == Absent <==> s.image.NotFound?) && (row.state == Present <==> s.image.There?)
    && (s.image.NotFound? ==> row.ownership == NotApplicable && row.reason == Missing)
    && (s.image.There? ==>
          && row.identity == Id(s.image.value.identity)
          && (row.ownership == NotApplicable <==> s.image.value.matches)
          && (row.ownership == Conflicting <==> !s.image.value.matches)
          && (row.reason == NoReason <==> s.image.value.matches)
          && (row.reason == OwnershipConflict <==> !s.image.value.matches))
  }

  predicate Mounted(s: Snapshot, name: VolumeName) {
    s.container.There? && exists m | m in s.container.value.facts.mounts :: m.isVolume && m.volume == name
  }

  /** The row of a volume with a known name: one that the container mounts although it is not there
      has drifted, and a holder is reported of every other. */
  ghost predicate VolumeRowMeans(s: Snapshot, name: VolumeName, planned: Labels, row: Row) {
    && !s.volume(name).Malformed? && s.held(name).Some?
    && (row.state == Present <==> s.volume(name).There?)
    && (row.state == Absent <==> s.volume(name).NotFound? && !Mounted(s, name))
    && (row.reason == Drift <==> s.volume(name).NotFound? && Mounted(s, name))
    && (s.volume(name).There? ==>
          var v := s.volume(name).value;
          && v.name == name && row.identity == Commitment(v)
          && (row.ownership == Matching <==> LabelledAs(v.labels, planned))
          && (row.ownership == Conflicting <==> !LabelledAs(v.labels, planned))
          && (row.reason == NoReason <==> row.ownership == Matching)
          && (row.reason == OwnershipConflict <==> row.ownership == Conflicting))
    && (row.state == Absent ==> row.ownership == NotApplicable && row.reason == Missing && s.held(name) == Some(false))
    && (row.reason != Drift ==>
          && (row.attachment == Observed <==> s.held(name) == Some(true))
          && (row.attachment == NotObserved <==> s.held(name) == Some(false)))
  }

  ghost predicate ConfigurationRowMeans(s: Snapshot, p: Plan, rows: seq<Row>, i: nat)
    requires i < |p.configurations| && 3 + i < |rows|
  {
    var row := rows[3 + i];
    && row.role == ConfigurationRole && row.index == i
    && VolumeRowMeans(s, p.configurations[i].name, p.configurations[i].labels, row)
  }

  /** A secret file's volume has no address as long as the user id is not known. */
  ghost predicate SecretRowMeans(s: Snapshot, p: Plan, rows: seq<Row>, i: nat)
    requires i < |p.secrets| && 3 + |p.configurations| + i < |rows|
  {
    var t, row := p.secrets[i], rows[3 + |p.configurations| + i];
    && row.role == SecretRole && row.index == i
    && if UserKnown(s) then
         VolumeRowMeans(s, t.name(s.image.value.uid.value), t.labels(s.image.value.uid.value), row)
       else row.state == UnsupportedState && row.ownership == Unestablished && row.reason == SelectorUnavailable
  }

  /** What a report of these rows says about the daemon, written over its own answers. */
  ghost predicate Describes(s: Snapshot, p: Plan, rows: seq<Row>) {
    && |rows| == 3 + |p.configurations| + |p.secrets|
    && ContainerRowMeans(s, p, rows[0]) && NetworkRowMeans(s, p, rows[1]) && ImageRowMeans(s, rows[2])
    && (forall i | 0 <= i < |p.configurations| :: ConfigurationRowMeans(s, p, rows, i))
    && (forall i | 0 <= i < |p.secrets| :: SecretRowMeans(s, p, rows, i))
  }

  lemma ContextMounts(s: Snapshot, p: Plan)
    ensures forall m :: m in ContextOf(p, s.image).mounts <==> PlannedMount(s, p, m)
    ensures ContextOf(p, s.image).complete <==> AllKnown(s, p)
  {
    var n, c, ts := |p.configurations|, ContextOf(p, s.image), Volumes(p, UidOf(s.image));
    forall m ensures m in c.mounts <==> PlannedMount(s, p, m) {
      if m in c.mounts {
        var i :| 0 <= i < |ts| && ts[i].name.Some? && m == MountFact(true, ts[i].name.value, ts[i].destination, false);
        if n <= i {
          assert ts[i].destination == p.secrets[i - n].destination;
        }
      }
      if PlannedMount(s, p, m) {
        PlannedIsInContext(s, p, m);
      }
    }
    if c.complete && p.secrets != [] {
      assert ts[n].name.Some?;
    }
  }

  lemma PlannedIsInContext(s: Snapshot, p: Plan, m: MountFact)
    requires PlannedMount(s, p, m)
    ensures m in ContextOf(p, s.image).mounts
  {
    var n, ts := |p.configurations|, Volumes(p, UidOf(s.image));
    if i :| 0 <= i < n && m.volume == p.configurations[i].name && m.destination == p.configurations[i].destination {
      assert m == MountFact(true, ts[i].name.value, ts[i].destination, false);
    } else {
      var i :| 0 <= i < |p.secrets| && m.volume == p.secrets[i].name(s.image.value.uid.value)
            && m.destination == p.secrets[i].destination;
      assert m == MountFact(true, ts[n + i].name.value, ts[n + i].destination, false);
    }
  }

  lemma MatchingIsPlanned(s: Snapshot, p: Plan, c: ContainerRaw)
    ensures ContainerMatches(p, ContextOf(p, s.image), c) <==> Planned(s, p, c)
  {
    var x := ContextOf(p, s.image);
    ContextMounts(s, p);
    LabelledIsCpk(c.labels, p.containerLabels);
    if Planned(s, p, c) && x.complete {
      assert c.facts.mounts == x.mounts;
    }
  }

  lemma ContainerRowIs(s: Snapshot, p: Plan, r: Readings)
    requires ReadAt(s, p, r)
    ensures ContainerRowMeans(s, p, RowsOf(p, r)[0])
  {
    if s.container.There? {
      MatchingIsPlanned(s, p, s.container.value);
      ContextMounts(s, p);
    }
  }

  lemma NetworkRowIs(s: Snapshot, p: Plan, r: Readings)
    requires ReadAt(s, p, r)
    ensures NetworkRowMeans(s, p, RowsOf(p, r)[1]) && ImageRowMeans(s, RowsOf(p, r)[2])
  {
    if s.network.There? {
      LabelledIsCpk(s.network.value.labels, p.networkLabels);
    }
  }

  lemma VolumeRowIs(s: Snapshot, t: VolumeTarget, row: Row)
    requires t.name.Some? && VolumeReading(t, s, s) == Some(row) && !s.container.Malformed?
    ensures var out := Undrifted(t, row, FactsOf(s.container));
            out.role == t.role && out.index == t.index && VolumeRowMeans(s, t.name.value, t.labels, out)
  {
    if s.volume(t.name.value).There? {
      LabelledIsCpk(s.volume(t.name.value).value.labels, t.labels);
    }
  }

  lemma ConfigurationRowIs(s: Snapshot, p: Plan, r: Readings, i: nat)
    requires ReadAt(s, p, r) && i < |p.configurations|
    ensures ConfigurationRowMeans(s, p, RowsOf(p, r), i)
  {
    var t := Volumes(p, UidOf(s.image))[i];
    assert t.name == Some(p.configurations[i].name) && VolumeReading(t, s, s) == Some(r.volumes[i]);
    VolumeRowIs(s, t, r.volumes[i]);
  }

  lemma SecretRowIs(s: Snapshot, p: Plan, r: Readings, i: nat)
    requires ReadAt(s, p, r) && i < |p.secrets|
    ensures SecretRowMeans(s, p, RowsOf(p, r), i)
  {
    var n := |p.configurations| + i;
    var t := Volumes(p, UidOf(s.image))[n];
    assert VolumeReading(t, s, s) == Some(r.volumes[n]);
    assert RowsOf(p, r)[3 + n] == Undrifted(t, r.volumes[n], r.facts);
    if UserKnown(s) {
      VolumeRowIs(s, t, r.volumes[n]);
    }
  }

  lemma RowsMean(s: Snapshot, p: Plan, r: Readings)
    requires ReadAt(s, p, r)
    ensures Describes(s, p, RowsOf(p, r))
  {
    var rows := RowsOf(p, r);
    ContainerRowIs(s, p, r);
    NetworkRowIs(s, p, r);
    forall i | 0 <= i < |p.configurations| ensures ConfigurationRowMeans(s, p, rows, i) {
      ConfigurationRowIs(s, p, r, i);
    }
    forall i | 0 <= i < |p.secrets| ensures SecretRowMeans(s, p, rows, i) {
      SecretRowIs(s, p, r, i);
    }
  }

  /** What held together is what the rows say. */
  lemma HeldTogetherMeans(s: Snapshot, p: Plan, rows: seq<Row>)
    requires HeldTogether(s, p, rows)
    ensures Describes(s, p, rows)
  {
    var r :| ReadAt(s, p, r) && RowsOf(p, r) == rows;
    RowsMean(s, p, r);
  }

  // ---- values that do not come back ----

  /** Everything a row or a comparison depends on, each on its own. */
  datatype Observable =
    | DaemonId
    | ImageReply
    | ContainerIdentity
    | ContainerState
    | ContainerOwned(context: Context)
    | NetworkReply
    | VolumeReply(target: VolumeTarget)
    | Holder(name: VolumeName)

  datatype Value =
    | DaemonValue(Option<string>)
    | ImageValue(Raw<ImageRaw>)
    | IdentityValue(Raw<string>)
    | FactsValue(Option<ContainerFacts>)
    | OwnedValue(bool)
    | RowValue(Option<Row>)
    | HolderValue(Option<bool>)

  function ValueOf(s: Snapshot, p: Plan, o: Observable): Value {
    match o
    case DaemonId => DaemonValue(s.daemon)
    case ImageReply => ImageValue(s.image)
    case ContainerIdentity => IdentityValue(IdentityOf(s.container))
    case ContainerState => FactsValue(FactsOf(s.container))
    case ContainerOwned(c) => OwnedValue(OwnedBy(p, c, s.container))
    case NetworkReply => RowValue(NetworkRow(p, s.network))
    case VolumeReply(t) => RowValue(if t.name.Some? then VolumeRow(t, s.volume(t.name.value)) else None)
    case Holder(n) => HolderValue(s.held(n))
  }

  /** The value does not come back after it has changed. */
  ghost predicate Stable(h: seq<Snapshot>, p: Plan, o: Observable) {
    forall i, j, k | 0 <= i <= j <= k < |h| && ValueOf(h[i], p, o) == ValueOf(h[k], p, o) ::
      ValueOf(h[j], p, o) == ValueOf(h[i], p, o)
  }

  /** A volume that a sweep could look at: its address follows from the plan and from an image of
      the history. */
  ghost predicate Addressed(h: seq<Snapshot>, p: Plan, t: VolumeTarget) {
    exists i | 0 <= i < |h| :: t in Volumes(p, UidOf(h[i].image))
  }

  /** What a sweep could observe. */
  ghost predicate Relevant(h: seq<Snapshot>, p: Plan, o: Observable) {
    match o
    case ContainerOwned(c) => exists i | 0 <= i < |h| :: c == ContextOf(p, h[i].image)
    case VolumeReply(t) => Addressed(h, p, t)
    case Holder(n) => exists t :: Addressed(h, p, t) && t.name == Some(n)
    case _ => true
  }

  /** No value that a sweep could observe comes back after it has changed. */
  ghost predicate Settles(h: seq<Snapshot>, p: Plan) {
    forall o | Relevant(h, p, o) :: Stable(h, p, o)
  }

  // ---- one sweep over a changing daemon ----

  /** The moments at which a sweep read what it has read. */
  datatype Moments = Moments(info: nat, image: nat, container: nat, network: nat, inspected: seq<nat>, asked: seq<nat>)

  predicate Within(m: Moments, lo: nat, hi: nat) {
    && lo <= m.info <= hi && lo <= m.image <= hi && lo <= m.container <= hi && lo <= m.network <= hi
    && |m.inspected| == |m.asked|
    && (forall i | 0 <= i < |m.inspected| :: lo <= m.inspected[i] <= hi && lo <= m.asked[i] <= hi)
  }

  ghost predicate Swept(h: seq<Snapshot>, p: Plan, r: Readings, m: Moments, lo: nat, hi: nat) {
    && Within(m, lo, hi) && hi < |h|
    && h[m.info].daemon == Some(p.expected)
    && r.image == h[m.image].image && !r.image.Malformed?
    && r.identity == IdentityOf(h[m.container].container) && !r.identity.Malformed?
    && r.facts == FactsOf(h[m.container].container)
    && r.owned == OwnedBy(p, ContextOf(p, r.image), h[m.container].container)
    && NetworkRow(p, h[m.network].network) == Some(r.network)
    && var ts := Volumes(p, UidOf(r.image));
       && |r.volumes| == |ts| == |m.inspected|
       && forall i | 0 <= i < |ts| :: VolumeReading(ts[i], h[m.inspected[i]], h[m.asked[i]]) == Some(r.volumes[i])
  }

  // ---- the double collect ----

  lemma Unchanged(h: seq<Snapshot>, p: Plan, o: Observable, i: nat, j: nat, k: nat)
    requires Settles(h, p) && Relevant(h, p, o)
    requires i <= j <= k < |h| && ValueOf(h[i], p, o) == ValueOf(h[k], p, o)
    ensures ValueOf(h[j], p, o) == ValueOf(h[i], p, o)
  {
    assert Stable(h, p, o);
  }

  /** A volume's row tells its reply and its holder apart. */
  lemma ReadingTellsParts(t: VolumeTarget, a: Snapshot, b: Snapshot, c: Snapshot, e: Snapshot)
    requires t.name.Some?
    requires VolumeReading(t, a, b).Some? && VolumeReading(t, a, b) == VolumeReading(t, c, e)
    ensures VolumeRow(t, a.volume(t.name.value)) == VolumeRow(t, c.volume(t.name.value))
    ensures b.held(t.name.value) == e.held(t.name.value)
  {
    var x, y := VolumeRow(t, a.volume(t.name.value)), VolumeRow(t, c.volume(t.name.value));
    assert VolumeReading(t, a, b).value.(attachment := AttachmentUnknown) == x.value;
    assert VolumeReading(t, c, e).value.(attachment := AttachmentUnknown) == y.value;
  }

  lemma VolumeHolds(h: seq<Snapshot>, p: Plan, t: VolumeTarget, row: Row, a: nat, b: nat, j: nat, c: nat, e: nat)
    requires Settles(h, p) && Addressed(h, p, t) && a <= j <= c < |h| && b <= j <= e < |h|
    requires VolumeReading(t, h[a], h[b]) == Some(row) && VolumeReading(t, h[c], h[e]) == Some(row)
    ensures VolumeReading(t, h[j], h[j]) == Some(row)
  {
    if t.name.Some? {
      ReadingTellsParts(t, h[a], h[b], h[c], h[e]);
      Unchanged(h, p, VolumeReply(t), a, j, c);
      Unchanged(h, p, Holder(t.name.value), b, j, e);
    }
  }

  /** Two readings that rows can be made of. */
  predicate Comparable(p: Plan, first: Readings, second: Readings) {
    && !first.image.Malformed? && !first.identity.Malformed? && |first.volumes| == |p.configurations| + |p.secrets|
    && !second.image.Malformed? && !second.identity.Malformed?
    && |second.volumes| == |p.configurations| + |p.secrets|
  }

  /** The rows and facts of two sweeps that agree. */
  predicate Agree(p: Plan, first: Readings, second: Readings)
    requires Comparable(p, first, second)
  {
    && RowsOf(p, first) == RowsOf(p, second)
    && first.image == second.image && first.facts == second.facts
  }

  predicate AllDefinite(rows: seq<Row>) {
    forall i | 0 <= i < |rows| :: Definite(rows[i])
  }

  /** Agreeing definite sweeps have read the same identity, network and volumes. */
  lemma AgreementMeans(p: Plan, first: Readings, second: Readings)
    requires Comparable(p, first, second)
    requires Agree(p, first, second) && AllDefinite(RowsOf(p, second))
    ensures first.identity == second.identity && first.network == second.network && first.volumes == second.volumes
    ensures first.owned == second.owned || second.identity.NotFound?
         || (var c := ContextOf(p, second.image);
             Reconciled(p, ContainerRow(c, second.identity, true), second.facts, second.network)
             == Reconciled(p, ContainerRow(c, second.identity, false), second.facts, second.network))
  {
    var a, b := RowsOf(p, first), RowsOf(p, second);
    var ts := Volumes(p, UidOf(second.image));
    assert a[0] == b[0] && a[1] == b[1];
    forall i | 0 <= i < |ts| ensures first.volumes[i] == second.volumes[i] {
      assert Definite(b[3 + i]);
      assert a[3 + i] == Undrifted(ts[i], first.volumes[i], first.facts);
      assert b[3 + i] == Undrifted(ts[i], second.volumes[i], second.facts);
    }
  }

  /** A node without volumes whose container is on an earlier network of the same name. */
  function OnFormerNetwork(p: Plan, labels: Labels): Snapshot {
    Snapshot(
      Some(p.expected), There(ImageRaw("image", true, Some(0))),
      There(ContainerRaw("container", labels,
                         ContainerFacts(p.container, "image", map[p.network := "former"], {}, true, "running"))),
      There(NetworkRaw("current", p.networkLabels, p.network)), _ => NotFound, _ => None)
  }

  function ReadingsOfFormer(p: Plan, labels: Labels, owned: bool): Readings {
    Readings(OnFormerNetwork(p, labels).image, There("container"), FactsOf(OnFormerNetwork(p, labels).container), owned,
             Row(NetworkRole, 0, Present, Matching, Id("current"), NoAttachment, NoReason), [])
  }

  lemma FormerIsRead(p: Plan, labels: Labels, owned: bool)
    requires p.configurations == [] && p.secrets == [] && Cpk(p.networkLabels) == p.networkLabels
    requires owned <==> Cpk(labels) == p.containerLabels
    ensures ReadAt(OnFormerNetwork(p, labels), p, ReadingsOfFormer(p, labels, owned))
    ensures AllDefinite(RowsOf(p, ReadingsOfFormer(p, labels, owned)))
  {
    assert Volumes(p, Some(0)) == [];
  }

  /** Agreement does not tell whether the container's labels were the same: where the network is
      in conflict, two agreeing definite sweeps can have read different ones. */
  lemma ConflictHidesLabels(p: Plan, labels: Labels) returns (first: Readings, second: Readings)
    requires p.configurations == [] && p.secrets == [] && Cpk(labels) != p.containerLabels
    requires Cpk(p.networkLabels) == p.networkLabels && Cpk(p.containerLabels) == p.containerLabels
    ensures ReadAt(OnFormerNetwork(p, p.containerLabels), p, first) && ReadAt(OnFormerNetwork(p, labels), p, second)
    ensures Agree(p, first, second) && AllDefinite(RowsOf(p, second)) && first.owned && !second.owned
  {
    first, second := ReadingsOfFormer(p, p.containerLabels, true), ReadingsOfFormer(p, labels, false);
    FormerIsRead(p, p.containerLabels, true);
    FormerIsRead(p, labels, false);
    assert RowsOf(p, first) == RowsOf(p, second);
  }

  /** The container's row at a moment between the sweeps. */
  lemma ContainerHolds(h: seq<Snapshot>, p: Plan, first: Readings, second: Readings, a: nat, j: nat, c: nat, k: nat)
    requires Settles(h, p) && a <= j <= c < |h| && k < |h| && h[k].image == second.image
    requires first.image == second.image && !second.image.Malformed?
    requires first.identity == IdentityOf(h[a].container) && second.identity == IdentityOf(h[c].container)
    requires first.facts == FactsOf(h[a].container) && second.facts == FactsOf(h[c].container)
    requires first.owned == OwnedBy(p, ContextOf(p, first.image), h[a].container)
    requires second.owned == OwnedBy(p, ContextOf(p, second.image), h[c].container)
    requires first.identity == second.identity && !second.identity.Malformed? && first.facts == second.facts
    requires var c := ContextOf(p, second.image);
             first.owned == second.owned || second.identity.NotFound?
             || Reconciled(p, ContainerRow(c, second.identity, true), second.facts, second.network)
                == Reconciled(p, ContainerRow(c, second.identity, false), second.facts, second.network)
    ensures IdentityOf(h[j].container) == second.identity && FactsOf(h[j].container) == second.facts
    ensures var c := ContextOf(p, second.image);
            Reconciled(p, ContainerRow(c, second.identity, OwnedBy(p, c, h[j].container)), second.facts, second.network)
            == Reconciled(p, ContainerRow(c, second.identity, second.owned), second.facts, second.network)
  {
    Unchanged(h, p, ContainerIdentity, a, j, c);
    Unchanged(h, p, ContainerState, a, j, c);
    if first.owned == second.owned {
      Unchanged(h, p, ContainerOwned(ContextOf(p, second.image)), a, j, c);
    }
  }

  lemma VolumesHold(h: seq<Snapshot>, p: Plan, second: Readings, first: Readings, m: Moments, n: Moments,
                    lo: nat, j: nat, mid: nat, hi: nat)
    requires Settles(h, p) && Swept(h, p, first, m, lo, j) && Swept(h, p, second, n, mid, hi) && j <= mid
    requires first.image == second.image && first.volumes == second.volumes
    ensures var ts := Volumes(p, UidOf(second.image));
            |second.volumes| == |ts|
            && forall i | 0 <= i < |ts| :: VolumeReading(ts[i], h[j], h[j]) == Some(second.volumes[i])
  {
    var ts := Volumes(p, UidOf(second.image));
    forall i | 0 <= i < |ts| ensures VolumeReading(ts[i], h[j], h[j]) == Some(second.volumes[i]) {
      assert ts[i] in Volumes(p, UidOf(h[n.image].image));
      VolumeHolds(h, p, ts[i], second.volumes[i], m.inspected[i], m.asked[i], j, n.inspected[i], n.asked[i]);
    }
  }

  lemma RepliesHold(h: seq<Snapshot>, p: Plan, first: Readings, second: Readings, m: Moments, n: Moments,
                    lo: nat, j: nat, mid: nat, hi: nat)
    requires Settles(h, p) && Swept(h, p, first, m, lo, j) && Swept(h, p, second, n, mid, hi) && j <= mid
    requires first.image == second.image && first.network == second.network
    ensures h[j].daemon == Some(p.expected) && h[j].image == second.image
    ensures NetworkRow(p, h[j].network) == Some(second.network)
  {
    Unchanged(h, p, DaemonId, m.info, j, n.info);
    Unchanged(h, p, ImageReply, m.image, j, n.image);
    Unchanged(h, p, NetworkReply, m.network, j, n.network);
  }

  lemma Together(s: Snapshot, p: Plan, second: Readings)
    requires !second.image.Malformed? && !second.identity.Malformed?
    requires s.daemon == Some(p.expected) && s.image == second.image && NetworkRow(p, s.network) == Some(second.network)
    requires IdentityOf(s.container) == second.identity && FactsOf(s.container) == second.facts
    requires var ts := Volumes(p, UidOf(second.image));
             |second.volumes| == |ts|
             && forall i | 0 <= i < |ts| :: VolumeReading(ts[i], s, s) == Some(second.volumes[i])
    requires var c := ContextOf(p, second.image);
             Reconciled(p, ContainerRow(c, second.identity, OwnedBy(p, c, s.container)), second.facts, second.network)
             == Reconciled(p, ContainerRow(c, second.identity, second.owned), second.facts, second.network)
    ensures HeldTogether(s, p, RowsOf(p, second))
  {
    var r := second.(owned := OwnedBy(p, ContextOf(p, second.image), s.container));
    assert ReadAt(s, p, r);
    assert RowsOf(p, r) == RowsOf(p, second);
  }

  /** The double collect: when both sweeps agree and every row is definite, all rows held
      together at the last moment of the first sweep. */
  lemma DoubleCollect(h: seq<Snapshot>, p: Plan, first: Readings, second: Readings, m: Moments, n: Moments,
                      lo: nat, j: nat, mid: nat, hi: nat)
    requires Settles(h, p) && Swept(h, p, first, m, lo, j) && Swept(h, p, second, n, mid, hi) && j <= mid
    requires Agree(p, first, second) && AllDefinite(RowsOf(p, second))
    ensures HeldTogether(h[j], p, RowsOf(p, second))
  {
    AgreementMeans(p, first, second);
    ContainerHolds(h, p, first, second, m.container, j, n.container, n.image);
    RepliesHold(h, p, first, second, m, n, lo, j, mid, hi);
    VolumesHold(h, p, second, first, m, n, lo, j, mid, hi);
    Together(h[j], p, second);
  }
}
