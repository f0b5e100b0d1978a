// The observer's own reading of the same world, and its agreement with the executor.

module Observer {
  import opened Wrappers
  import opened Text
  import opened DockerLabels
  import opened DockerDaemon
  import opened DockerAuthority
  import opened NodeAdmission
  import opened NodeOperations

  datatype Postcondition = Confirmed | Absent | Conflicting | Unestablished | Unsupported

  /** The requests it can observe: no configuration, secrets or retained data, no delivery but the
      local socket, and for a reconciliation no verification checks. */
  predicate Observable(q: Install, checks: bool) {
    && q.selection.None? && !q.selected
    && q.artifacts == [] && q.secretFiles == [] && q.secretEnvironment == map[] && q.retained == []
    && (forall i | 0 <= i < |q.deliveries| :: q.deliveries[i].LocalSocketMount?)
    && (q.reconcile ==> !checks)
  }

  /** Equality of the interpreter's own labels; only a reconciliation allows an earlier plan. */
  predicate Owns(labels: Labels, q: Install) {
    Correlated(labels, q.reconcile, false) == Correlated(NodeLabels(q), q.reconcile, false)
  }

  lemma OwnsIs(labels: Labels, q: Install)
    ensures Owns(labels, q) <==> LabelledAlike(labels, NodeLabels(q), q.reconcile, false)
  {
    CorrelatedIs(labels, NodeLabels(q), q.reconcile, false);
  }

  /** What the container must show once its labels, state and authority have been read. */
  function ImageVerdict(c: Container, q: Install, image: Option<Image>): Postcondition {
    if image.None? || q.image !in image.value.pins || !CanonicalImageId(c.image) then Unestablished
    else if c.image != image.value.id || c.networks != [NetworkOf(q)] then Conflicting
    else Confirmed
  }

  predicate SocketsOnly(deliveries: seq<AuthorityDelivery>) {
    deliveries == [] || (deliveries[0].LocalSocketMount? && SocketsOnly(deliveries[1..]))
  }

  lemma {:induction false} SocketsOnlyIs(deliveries: seq<AuthorityDelivery>)
    ensures SocketsOnly(deliveries) <==> forall i | 0 <= i < |deliveries| :: deliveries[i].LocalSocketMount?
  {
    if deliveries != [] {
      SocketsOnlyIs(deliveries[1..]);
      assert forall i | 0 < i < |deliveries| :: deliveries[i] == deliveries[1..][i - 1];
    }
  }

  /** The runtime's network carries other labels, or the node's container is not the request's. */
  ghost predicate Contradicts(w: World, q: Install, id: string) {
    Named(w, q, id) && NetworkOf(q) in w.networks
    && (w.networks[NetworkOf(q)] != RuntimeLabels(q) || !Owns(w.containers[id].labels, q))
  }

  /** The runtime's network and the node's container are the request's own, and the container runs
      the pinned image on that network with conforming authority. */
  ghost predicate ConfirmedBy(w: World, d: Daemon, q: Install, id: string) {
    && NetworkOf(q) in w.networks && w.networks[NetworkOf(q)] == RuntimeLabels(q)
    && Named(w, q, id)
    && var c := w.containers[id];
       && Owns(c.labels, q) && c.running && ConformsExactly(d, q, c)
       && ImageReady(w, q) && c.image == w.images[q.image].id && c.networks == [NetworkOf(q)]
  }

  ghost predicate NetworkDiffers(w: World, q: Install) {
    NetworkOf(q) in w.networks && w.networks[NetworkOf(q)] != RuntimeLabels(q)
  }

  /** A container of the node's name that is not the request's: by its labels, or, running beside the
      network, by its authority, its image or its networks. */
  ghost predicate ContainerDiffers(w: World, d: Daemon, q: Install, id: string) {
    && Named(w, q, id)
    && var c := w.containers[id];
       || !Owns(c.labels, q)
       || (&& NetworkOf(q) in w.networks && c.running && Declared(d, q).Success?
           && (|| ConformanceOf(c, Declared(d, q).value, d.localSocket, d.facts) == Conflict
               || (&& ConformsExactly(d, q, c) && ImageReady(w, q) && CanonicalImageId(c.image)
                   && (c.image != w.images[q.image].id || c.networks != [NetworkOf(q)]))))
  }

  ghost predicate Differs(w: World, d: Daemon, q: Install) {
    NetworkDiffers(w, q) || exists id :: ContainerDiffers(w, d, q, id)
  }

  /** The verdict on a world whose reads do not fail. */
  ghost predicate IsVerdict(w: World, d: Daemon, q: Install, checks: bool, r: Postcondition) {
    && (r == Unsupported <==> !Observable(q, checks) || Declared(d, q) == Failure(UnsupportedAuthority))
    && (Observable(q, checks) && Declared(d, q).Success? ==>
          && (r == Conflicting <==> Differs(w, d, q))
          && (r == Absent <==> Vacant(w, NameOf(q)) && !NetworkDiffers(w, q))
          && (r == Confirmed <==> exists id :: ConfirmedBy(w, d, q, id)))
  }

  /** Looks at the container itself, beside the network if that is there. */
  method InspectNode(d: Daemon, q: Install, delivery: Delivery, c: Container, network: bool) returns (r: Postcondition)
    requires Consistent(d.world) && Declared(d, q) == Success(delivery) && !NetworkDiffers(d.world, q)
    requires network <==> NetworkOf(q) in d.world.networks
    requires exists id :: Named(d.world, q, id) && d.world.containers[id] == c
    ensures r == Confirmed || r == Conflicting || r == Unestablished
    ensures forall id | Named(d.world, q, id) ::
              && (r == Confirmed ==> ConfirmedBy(d.world, d, q, id))
              && (r == Conflicting ==> ContainerDiffers(d.world, d, q, id))
              && (!Owns(c.labels, q) ==> r == Conflicting)
              && (d.reliable && ConfirmedBy(d.world, d, q, id) ==> r == Confirmed)
              && (d.reliable && ContainerDiffers(d.world, d, q, id) ==> r == Conflicting)
  {
    if !Owns(c.labels, q) {
      return Conflicting;
    }
    if !network || !c.running {
      return Unestablished;
    }
    var conformance := Conforms(d, c, delivery);
    match conformance
    case Unknown => r := Unestablished;
    case Conflict => r := Conflicting;
    case Conformant =>
      var image := d.InspectImage(q.image);
      r := if image.Failure? then Unestablished else ImageVerdict(c, q, image.value);
  }

  /** Observes a StartNode or ReconcileNode. A failed read never establishes anything; where none
      fails, the world decides the verdict. */
  method Inspect(d: Daemon, q: Install, checks: bool) returns (r: Postcondition)
    requires Consistent(d.world)
    ensures r == Confirmed ==> Observable(q, checks) && exists id :: ConfirmedBy(d.world, d, q, id)
    ensures forall id :: d.reliable && Observable(q, checks) && ConfirmedBy(d.world, d, q, id) ==> r == Confirmed
    ensures r == Absent ==> Vacant(d.world, NameOf(q))
    ensures forall id ::
              d.reliable && Observable(q, checks) && Declared(d, q).Success? && Contradicts(d.world, q, id) ==>
                r == Conflicting
    ensures r == Conflicting ==> Differs(d.world, d, q)
    ensures d.reliable ==> IsVerdict(d.world, d, q, checks, r)
  {
    SocketsOnlyIs(q.deliveries);
    if q.selection.Some? || q.selected || q.artifacts != [] || q.secretFiles != [] || q.secretEnvironment != map[]
       || q.retained != [] || !SocketsOnly(q.deliveries) || (q.reconcile && checks) {
      return Unsupported;
    }
    var delivery := DeclaredDelivery(d, q);
    if delivery.Failure? {
      return if delivery.error == UnsupportedAuthority then Unsupported else Unestablished;
    }
    var network := d.InspectNetwork(NetworkOf(q));
    if network.Failure? {
      return Unestablished;
    }
    if network.value.Some? && network.value.value != RuntimeLabels(q) {
      return Conflicting;
    }
    var container := d.InspectContainer(NameOf(q));
    if container.Failure? {
      return Unestablished;
    }
    if container.value.None? {
      return Absent;
    }
    var c := container.value.value.container;
    r := InspectNode(d, q, delivery.value, c, network.value.Some?);
  }

  // ---- agreement ----

  /** A node reconciliation accepts an earlier plan label only when it is not blank, while the
      observer accepts any that is not empty; the graph label is the request's own. */
  predicate PlanRecorded(q: Install, labels: Labels) {
    q.reconcile ==> RecordedText(Get(labels, PlanKey)) && !Blank(q.graph)
  }

  lemma OwnedLabels(labels: Labels, q: Install)
    requires Owns(labels, q) && q.selection.None?
    ensures Get(labels, MaterialProfile) == Some(NODE_PROFILE) && Get(labels, Fingerprint) == Some(NodeFingerprint(q))
    ensures Get(labels, GraphKey) == Some(Plain(q.graph))
  {
    InstallLabelsAre(q);
    CorrelatedLabel(labels, NodeLabels(q), q.reconcile, false, MaterialProfile);
    CorrelatedLabel(labels, NodeLabels(q), q.reconcile, false, Fingerprint);
    CorrelatedLabel(labels, NodeLabels(q), q.reconcile, false, GraphKey);
  }

  lemma OwnedEvidence(labels: Labels, q: Install)
    requires Owns(labels, q) && q.selection.None?
    ensures MaterialEvidence(labels) <==> RecordedText(Get(labels, PlanKey)) && !Blank(q.graph)
  {
    OwnedLabels(labels, q);
  }

  /** Labels equal but for the plan are also equal but for the plan and the graph. */
  lemma OwnedCorrelates(labels: Labels, q: Install)
    requires Owns(labels, q) && q.selection.None?
    ensures Correlates(labels, NodeLabels(q), q.reconcile) <==> PlanRecorded(q, labels)
  {
    OwnedEvidence(labels, q);
    GraphAllowance(labels, NodeLabels(q), q.reconcile);
  }

  /** CONFIRMED is the executor's own criterion, but for the plan label of a reconciliation. */
  lemma ConfirmedIsServing(w: World, d: Daemon, q: Install, id: string)
    requires q.selection.None? && ConfirmedBy(w, d, q, id) && PlanRecorded(q, w.containers[id].labels)
    ensures AlreadyServing(w, d, q, id)
  {
    OwnedCorrelates(w.containers[id].labels, q);
  }

  /** On a world that the observer confirms, the executor finds nothing to do: it succeeds as
      reused without any change, exactly when the recorded plan and the graph are not blank;
      otherwise, a reconciliation is refused, also without any change. */
  method ExecuteConfirmed(d: Daemon, q: Install, checks: bool, resolves: bool, ghost id: string)
    returns (r: Result<Performed, Raised>)
    requires Consistent(d.world) && Observable(q, checks) && ConfirmedBy(d.world, d, q, id)
    requires d.reliable && resolves
    modifies d
    ensures d.world == old(d.world)
    ensures r == if PlanRecorded(q, old(d.world).containers[id].labels)
                 then Success(ReusedNode) else Failure(Precondition)
  {
    OwnNodeIs(q, d.world.containers[id]);
    OwnedEvidence(d.world.containers[id].labels, q);
    if PlanRecorded(q, d.world.containers[id].labels) {
      ConfirmedIsServing(d.world, d, q, id);
    }
    r := OperateNode(d, q, resolves, id);
  }

  /** The container was created for this very graph, as it always is for a StartNode. */
  predicate GraphRecorded(q: Install, labels: Labels) {
    q.reconcile ==> Get(labels, GraphKey) == Some(Plain(q.graph))
  }

  lemma ServingIsOwned(q: Install, c: Container, image: string)
    requires q.selection.None? && Suits(c, q, NodeLabels(q), image) && GraphRecorded(q, c.labels)
    ensures Owns(c.labels, q)
  {
    InstallLabelsAre(q);
    GraphAllowance(c.labels, NodeLabels(q), q.reconcile);
    if !q.reconcile {
      CorrelatedLabel(c.labels, NodeLabels(q), false, false, GraphKey);
    }
  }

  /** What the observer adds to the executor's criterion. */
  lemma ServingIsConfirmedIff(w: World, d: Daemon, q: Install, id: string)
    requires q.selection.None? && ImageReady(w, q) && ServingAs(w, d, q, id)
    ensures ConfirmedBy(w, d, q, id) <==>
              && NetworkOf(q) in w.networks && w.networks[NetworkOf(q)] == RuntimeLabels(q)
              && GraphRecorded(q, w.containers[id].labels)
  {
    var c := w.containers[id];
    if GraphRecorded(q, c.labels) {
      ServingIsOwned(q, c, w.images[q.image].id);
    }
    if Owns(c.labels, q) {
      OwnedLabels(c.labels, q);
    }
  }

  // ---- executing, then observing ----

  /** Before the call: there is no network of the runtime, or it carries this request's labels. */
  predicate NetworkFits(w: World, q: Install) {
    NetworkOf(q) in w.networks ==> w.networks[NetworkOf(q)] == RuntimeLabels(q)
  }

  /** Before the call: a container that will be kept was recorded for this graph. */
  ghost predicate GraphFits(w: World, q: Install) {
    forall id | Named(w, q, id) && FingerprintMatches(w.containers[id].labels, NodeLabels(q)) ::
      GraphRecorded(q, w.containers[id].labels)
  }

  /** Whether the container that serves in the end was recorded for this graph is decided before
      the call. */
  lemma GraphIsDecidedBefore(w: World, w': World, q: Install, done: Performed, id: string)
    requires PerformedAs(w, w', q, done) && Consistent(w) && Consistent(w') && Named(w', q, id)
    requires FingerprintMatches(w'.containers[id].labels, NodeLabels(q))
    ensures GraphRecorded(q, w'.containers[id].labels) <==> GraphFits(w, q)
  {
    PerformedLabels(w, w', q, done, id);
    if done.RecreatedNode? {
      var former :| Named(w, q, former) && !FingerprintMatches(w.containers[former].labels, NodeLabels(q));
      assert forall other | Named(w, q, other) :: other == former;
    }
  }

  lemma SameContainersSameGraph(w: World, w': World, q: Install)
    requires w'.containers == w.containers
    ensures GraphFits(w', q) <==> GraphFits(w, q)
  {
  }

  /** What is served and not confirmed is contradicted. */
  lemma ServedOrContradicted(w: World, d: Daemon, q: Install, id: string)
    requires q.selection.None? && ServingAs(w, d, q, id) && NetworkOf(q) in w.networks
    requires !(w.networks[NetworkOf(q)] == RuntimeLabels(q) && GraphRecorded(q, w.containers[id].labels))
    ensures Contradicts(w, q, id)
  {
    if Owns(w.containers[id].labels, q) {
      OwnedLabels(w.containers[id].labels, q);
    }
  }

  lemma ConfirmationIsDecidedBefore(w0: World, w: World, d: Daemon, q: Install, done: Performed, id: string)
    requires q.selection.None? && ImageReady(w, q) && ServingAs(w, d, q, id)
    requires Ended(w0, w, q, done) && Consistent(w0) && Consistent(w)
    ensures ConfirmedBy(w, d, q, id) <==> NetworkFits(w0, q) && GraphFits(w0, q)
    ensures !ConfirmedBy(w, d, q, id) ==> Contradicts(w, q, id)
  {
    CorrelationMeaning(w.containers[id].labels, NodeLabels(q), q.reconcile);
    var admitted :| Prepared(w0, admitted) && PerformedAs(admitted, w, q, done);
    GraphIsDecidedBefore(admitted, w, q, done, id);
    SameContainersSameGraph(w0, admitted, q);
    ServingIsConfirmedIff(w, d, q, id);
    if !ConfirmedBy(w, d, q, id) {
      ServedOrContradicted(w, d, q, id);
    }
  }

  /** What an observable operation has brought about is confirmed exactly if, before it, the
      runtime had no network or one with this request's labels, and a container that was kept was
      recorded for this graph; otherwise it is a conflict. */
  method ExecuteThenObserve(d: Daemon, q: Install, checks: bool, resolves: bool, ghost id: string)
    returns (r: Result<Performed, Raised>, seen: Postcondition)
    requires Consistent(d.world) && Observable(q, checks) && d.reliable
    modifies d
    ensures r.Success? ==> Serving(d.world, d, q)
    ensures resolves && AlreadyServing(old(d.world), d, q, id) ==> r == Success(ReusedNode)
    ensures r.Success? ==>
              seen == if NetworkFits(old(d.world), q) && GraphFits(old(d.world), q) then Confirmed else Conflicting
  {
    ghost var w0 := d.world;
    r := OperateNode(d, q, resolves, id);
    seen := Inspect(d, q, checks);
    if r.Success? {
      ghost var served :| Named(d.world, q, served) && ServingAs(d.world, d, q, served);
      ConfirmationIsDecidedBefore(w0, d.world, d, q, r.value, served);
    }
  }

  // ---- two inputs on which a success is not confirmed ----

  function ServedContainer(q: Install, delivery: Delivery, labels: Labels, image: ImageId): Container {
    Container(NameOf(q), true, labels, image, None, [NetworkOf(q)], map[], [],
              Some(delivery.mounts), Some(delivery.groups), None, map[])
  }

  /** Nothing but one node that serves, under the given labels, on a network with the given labels. */
  ghost predicate OneNode(w: World, d: Daemon, q: Install, network: Labels, labels: Labels, id: string) {
    && Declared(d, q).Success? && Consistent(w)
    && w.networks == map[NetworkOf(q) := network] && w.containers.Keys == {id}
    && w.containers[id].labels == labels && AlreadyServing(w, d, q, id)
  }

  lemma OneNodeCanServe(d: Daemon, q: Install, network: Labels, labels: Labels) returns (w: World, id: string)
    requires Declared(d, q).Success? && Correlates(labels, NodeLabels(q), q.reconcile)
    requires RuntimeOwner(network, RuntimeLabels(q))
    ensures OneNode(w, d, q, network, labels, id)
  {
    id := seq(64, _ => '0');
    var c := ServedContainer(q, Declared(d, q).value, labels, ZERO_ID);
    w := World(map[id := c], map[], map[NetworkOf(q) := network],
               map[q.image := Image(ZERO_ID, {q.image}, None, None)], {id}, []);
  }

  /** The network was made under an earlier plan: StartNode finds its node served, and the
      observer a conflict. */
  lemma EarlierPlanIsNotConfirmed(d: Daemon, q: Install, plan: string) returns (w: World, id: string)
    requires Declared(d, q).Success? && !q.reconcile && plan != q.plan
    ensures OneNode(w, d, q, RuntimeLabels(q.(plan := plan)), NodeLabels(q), id)
    ensures !NetworkFits(w, q) && GraphFits(w, q) && Contradicts(w, q, id)
  {
    var network := RuntimeLabels(q.(plan := plan));
    w, id := OneNodeCanServe(d, q, network, NodeLabels(q));
    assert network[PlanKey] != RuntimeLabels(q)[PlanKey];
  }

  lemma EarlierGraphCorrelates(q: Install, graph: string)
    requires q.reconcile && graph != q.graph && !Blank(graph) && q.graph != "" && !Blank(q.plan)
    ensures var labels := NodeLabels(q)[GraphKey := Plain(graph)];
            && Correlates(labels, NodeLabels(q), true) && FingerprintMatches(labels, NodeLabels(q))
            && !GraphRecorded(q, labels) && !Owns(labels, q)
  {
    var expected := NodeLabels(q);
    assert Get(expected, GraphKey) == Some(Plain(q.graph)) && Get(expected, PlanKey) == Some(Plain(q.plan));
    assert MaterialEvidence(expected[GraphKey := Plain(graph)]) by {
      OtherGraphIsEvidence(expected, graph);
    }
    OtherGraph(expected, graph);
  }

  lemma OtherGraphIsEvidence(expected: Labels, graph: string)
    requires !Blank(graph) && RecordedText(Get(expected, PlanKey))
    requires Get(expected, MaterialProfile) == Some(NODE_PROFILE) && DigestText(Get(expected, Fingerprint))
    ensures MaterialEvidence(expected[GraphKey := Plain(graph)])
  {
  }

  lemma OtherGraph(expected: Labels, graph: string)
    requires GraphKey in expected && NonEmptyText(expected[GraphKey]) && graph != ""
    requires expected[GraphKey] != Plain(graph)
    ensures Correlated(expected[GraphKey := Plain(graph)], true, true) == Correlated(expected, true, true)
    ensures Correlated(expected[GraphKey := Plain(graph)], true, false) != Correlated(expected, true, false)
    ensures FingerprintMatches(expected[GraphKey := Plain(graph)], expected)
  {
    var labels := expected[GraphKey := Plain(graph)];
    assert Correlated(labels, true, false)[GraphKey] != Correlated(expected, true, false)[GraphKey];
  }

  /** The container was made for an earlier graph: a reconciliation finds its node served, and
      the observer a conflict. */
  lemma EarlierGraphIsNotConfirmed(d: Daemon, q: Install, graph: string) returns (w: World, id: string)
    requires Declared(d, q).Success? && q.reconcile && graph != q.graph
    requires !Blank(graph) && q.graph != "" && !Blank(q.plan)
    ensures OneNode(w, d, q, RuntimeLabels(q), NodeLabels(q)[GraphKey := Plain(graph)], id)
    ensures NetworkFits(w, q) && !GraphFits(w, q) && Contradicts(w, q, id)
  {
    EarlierGraphCorrelates(q, graph);
    w, id := OneNodeCanServe(d, q, RuntimeLabels(q), NodeLabels(q)[GraphKey := Plain(graph)]);
    assert Named(w, q, id);
  }

  /** The two readings differ on a blank recorded plan: confirmed, and refused. */
  lemma BlankPlanIsConfirmedButRefused(q: Install)
    requires q.reconcile && q.plan != "" && !Blank(q.graph) && q.selection.None?
    ensures var labels := NodeLabels(q)[PlanKey := Plain(" ")];
            Owns(labels, q) && !MaterialEvidence(labels) && !PlanRecorded(q, labels)
  {
    var labels := NodeLabels(q)[PlanKey := Plain(" ")];
    assert Correlated(labels, true, false) == Correlated(NodeLabels(q), true, false);
    assert !RecordedText(Get(labels, PlanKey)) by {
      assert Get(labels, PlanKey) == Some(Plain(" "));
      assert Blank(" ");
    }
  }
}
