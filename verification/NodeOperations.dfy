// Starting and reconciling a node without selected material.

module NodeOperations {
  import opened Wrappers
  import opened DockerLabels
  import opened ConfigurationAttempt
  import opened DockerDaemon
  import opened DockerAuthority
  import opened NodePreparation
  import opened NodeAdmission
  import opened Installation

  datatype Performed = CreatedNode | RecreatedNode | StartedNode | ReusedNode

  /** What a successful node operation has read back at the end. */
  ghost predicate Serving(w: World, d: Daemon, q: Install) {
    && ImageReady(w, q) && NetworkOwned(w, q)
    && exists id :: Named(w, q, id) && ServingAs(w, d, q, id)
  }

  ghost predicate ServingAs(w: World, d: Daemon, q: Install, id: string) {
    && Named(w, q, id) && q.image in w.images
    && var c := w.containers[id];
       && Suits(c, q, NodeLabels(q), w.images[q.image].id) && c.running && ConformsExactly(d, q, c)
  }

  /** Everything both operations do before the container: resolve, admit the image and the secret
      recipient, and see to the network. */
  method Admission(d: Daemon, q: Install, resolves: bool) returns (r: Result<Ready, Raised>)
    requires Consistent(d.world)
    modifies d
    ensures Consistent(d.world) && Prepared(old(d.world), d.world)
    ensures r.Success? ==>
              && ImageReady(d.world, q) && NetworkOwned(d.world, q) && NetworkKept(old(d.world), d.world, q)
              && r.value.image == d.world.images[q.image] && r.value.owner == OwnerIn(d.world, q)
    ensures r.Failure? ==> r.error == Other || r.error == Precondition || r.error == ControlError
    ensures d.reliable && resolves && q.secretFiles == [] && old(ImageReady(d.world, q) && NetworkOwned(d.world, q)) ==>
              r.Success? && d.world == old(d.world)
  {
    ghost var w := d.world;
    var _ :- ResolveMaterial(resolves);
    var image :- AdmitImage(d, q);
    var owner :- PreflightSecrets(d, q, image, "");
    ghost var between := d.world;
    var network := EnsureNetwork(d, q);
    PreparedThen(w, between, d.world);
    var _ :- network;
    r := Success(Ready(image, owner));
  }

  /** The last inspection, by name. */
  method Confirm(d: Daemon, q: Install, image: Image, delivery: Delivery) returns (r: Result<(), Raised>)
    requires Consistent(d.world) && Declared(d, q) == Success(delivery)
    requires ImageReady(d.world, q) && NetworkOwned(d.world, q) && d.world.images[q.image] == image
    ensures r.Success? ==> Serving(d.world, d, q)
    ensures r.Failure? ==> r.error == Other || r.error == Precondition
    ensures forall id :: d.reliable && ServingAs(d.world, d, q, id) ==> r.Success?
  {
    var observed :- d.InspectContainer(NameOf(q));
    if observed.None? {
      return Failure(Other);
    }
    var c := observed.value.container;
    if !Suits(c, q, NodeLabels(q), image.id) || !c.running {
      return Failure(Precondition);
    }
    var _ :- RequireAuthority(d, c, delivery, true);
    ghost var id :| id in d.world.containers && d.world.containers[id] == c && c.name == NameOf(q);
    assert ServingAs(d.world, d, q, id);
    r := Success(());
  }

  function NodeRecipe(q: Install, mounts: seq<Mount>): Recipe {
    Recipe(NameOf(q), q.image, q.environment + q.secretEnvironment, NodeLabels(q), mounts, NetworkOf(q))
  }

  /** After more preparation, a container was made from the request's recipe and started. */
  ghost predicate RanNode(w: World, w': World, q: Install) {
    && Bindable(q)
    && exists prep, id, answered :: Prepared(w, prep) && RanFrom(prep, w', q, id, answered)
  }

  ghost predicate RanFrom(prep: World, w: World, q: Install, id: string, answered: Option<string>) {
    && Supplied(prep, q, OwnerIn(prep, q))
    && Ran(prep, w, NodeRecipe(q, AskedMounts(prep, q)), id, answered)
  }

  function OwnerIn(w: World, q: Install): nat {
    if q.image in w.images then OwnerOf(q, w.images[q.image]) else 0
  }

  function AskedMounts(w: World, q: Install): seq<Mount> {
    PlainMounts(q, |q.artifacts|) + SecretMounts(q, |q.secretFiles|, OwnerIn(w, q))
  }

  /** The container was made for this request: under its name, with its labels, on its network, of
      its image, with everything its environment and its secrets bind, and with exactly what it asks for
      mounted; all of that is in the node's own volumes. */
  ghost predicate MadeForNode(w: World, q: Install, id: string) {
    && id in w.containers && q.image in w.images
    && var c := w.containers[id];
       && c.name == ContainerName(q.workspace, q.node) && c.labels == NodeLabels(q)
       && c.networks == [NetworkName(q.workspace, q.runtime)]
       && c.image == w.images[q.image].id && c.user == w.images[q.image].user
       && (forall k | k in q.environment :: k in c.environment && c.environment[k] == q.environment[k])
       && (forall k | k in q.secretEnvironment :: k in c.environment && c.environment[k] == q.secretEnvironment[k])
       && PlainsMounted(q, c.mounts) && SecretsMounted(q, |q.artifacts|, OwnerOf(q, w.images[q.image]), c.mounts)
       && Supplied(w, q, OwnerOf(q, w.images[q.image]))
  }

  lemma RanIsMade(prep: World, w: World, q: Install, id: string, answered: Option<string>)
    requires Bindable(q) && RanFrom(prep, w, q, id, answered)
    ensures MadeForNode(w, q, id)
  {
    MountsAreAsked(q, PlainMounts(q, |q.artifacts|), OwnerIn(prep, q));
    SuppliedStays(prep, w, q, OwnerIn(prep, q));
    var bound := q.environment + q.secretEnvironment;
    assert forall k | k in q.environment :: k in bound && bound[k] == q.environment[k];
    assert forall k | k in q.secretEnvironment :: k in bound && bound[k] == q.secretEnvironment[k];
  }

  method CreateNode(d: Daemon, q: Install, ready: Ready) returns (r: Result<(), Raised>)
    requires Consistent(d.world) && q.image in d.world.images && ready.owner == OwnerIn(d.world, q)
    modifies d
    ensures Consistent(d.world) && Extends(old(d.world), d.world) && NoRemoval(old(d.world), d.world)
    ensures r.Success? ==> RanNode(old(d.world), d.world, q)
    ensures r.Failure? ==> r.error == Other || (r.error == Precondition && AllOk(old(d.world), d.world))
  {
    ghost var w := d.world;
    var scratch := new Attempt();
    var mounts := Prepare(d, q, scratch, ready.owner, PlainMounts(q, |q.artifacts|));
    if mounts.Failure? {
      return Failure(mounts.error);
    }
    ghost var prepared := d.world;
    assert mounts.value == AskedMounts(prepared, q);
    r := d.RunContainer(NodeRecipe(q, mounts.value));
    NoRemovalThen(w, prepared, d.world);
    if r.Success? {
      ghost var id, answered :| Ran(prepared, d.world, NodeRecipe(q, mounts.value), id, answered);
      assert RanFrom(prepared, d.world, q, id, answered);
    }
  }

  /** What the node's container must be before anything is changed. A StartNode asks for its own
      labels, a reconciliation for a node of its own: one made from the same declarations must be
      labelled alike but for the plan and graph, one with authority deliveries be made from them. */
  ghost predicate AdmissibleNode(d: Daemon, q: Install, c: Container) {
    && c.networks == [NetworkName(q.workspace, q.runtime)] && ConformsExactly(d, q, c)
    && (!q.reconcile ==> LabelledAlike(c.labels, NodeLabels(q), false, false))
    && (q.reconcile ==>
          && OwnNode(q, c)
          && (SameMaterial(q, c) ==> LabelledAlike(c.labels, NodeLabels(q), true, true))
          && (q.deliveries != [] ==> SameMaterial(q, c)))
  }

  /** The checks on an existing container before anything is changed. */
  method AdmitExisting(d: Daemon, q: Install, c: Container, delivery: Delivery) returns (r: Result<(), Raised>)
    requires Declared(d, q) == Success(delivery)
    ensures r.Success? ==> AdmissibleNode(d, q, c)
    ensures d.reliable && AdmissibleNode(d, q, c) ==> r.Success?
    ensures q.reconcile && !OwnNode(q, c) ==> r == Failure(Precondition)
    ensures r.Failure? ==> r.error == Other || r.error == Precondition || r.error == UnsupportedAuthority
  {
    var labels := NodeLabels(q);
    OwnNodeIs(q, c);
    CorrelationIs(c.labels, labels, false);
    CorrelationIs(c.labels, labels, true);
    if q.reconcile && (!NodeOwner(c.labels, labels) || !MaterialEvidence(c.labels)) {
      return Failure(Precondition);
    }
    if !q.reconcile && !Correlates(c.labels, labels, false) {
      return Failure(Precondition);
    }
    if c.networks != [NetworkOf(q)] {
      return Failure(Precondition);
    }
    var _ :- RequireAuthority(d, c, delivery, false);
    if q.reconcile && FingerprintMatches(c.labels, labels) && !Correlates(c.labels, labels, true) {
      return Failure(Precondition);
    }
    r := if q.reconcile && q.deliveries != [] && !FingerprintMatches(c.labels, labels)
         then Failure(UnsupportedAuthority) else Success(());
  }

  /** The world already serves the request, and the checks before the first change accept it. */
  ghost predicate AlreadyServing(w: World, d: Daemon, q: Install, id: string) {
    ImageReady(w, q) && NetworkOwned(w, q) && ServingAs(w, d, q, id)
  }

  lemma ServingIsAdmissible(w: World, d: Daemon, q: Install, id: string)
    requires ServingAs(w, d, q, id)
    ensures AdmissibleNode(d, q, w.containers[id])
  {
    var c := w.containers[id];
    OwnNodeIs(q, c);
    CorrelationIs(c.labels, NodeLabels(q), q.reconcile);
    CorrelationMeaning(c.labels, NodeLabels(q), q.reconcile);
  }

  /** Which calls and which container each success stands for, from the admitted world on. */
  ghost predicate PerformedAs(w: World, w': World, q: Install, done: Performed) {
    match done
    case ReusedNode => w' == w
    case StartedNode => exists id :: Named(w, q, id) && !w.containers[id].running && Started(w, w', id, true)
    case CreatedNode => Vacant(w, NameOf(q)) && RanNode(w, w', q)
    case RecreatedNode =>
      q.reconcile && exists gone, id ::
        && Named(w, q, id) && OwnNode(q, w.containers[id]) && !SameMaterial(q, w.containers[id])
        && Removed(w, gone, id, true) && RanNode(gone, w', q)
  }

  /** What the inspection before the first change showed. */
  ghost predicate Showed(w: World, q: Install, inspection: Option<Container>) {
    match inspection
    case None => Vacant(w, NameOf(q))
    case Some(c) => exists id :: Named(w, q, id) && w.containers[id] == c
  }

  /** After admission: create, start, keep or, for a reconciliation, replace. */
  method Perform(d: Daemon, q: Install, inspection: Option<Container>, ready: Ready)
    returns (r: Result<Performed, Raised>)
    requires Consistent(d.world) && Showed(d.world, q, inspection)
    requires q.image in d.world.images && ready.owner == OwnerIn(d.world, q)
    requires inspection.Some? && q.reconcile ==> OwnNode(q, inspection.value)
    modifies d
    ensures Consistent(d.world) && Extends(old(d.world), d.world)
    ensures !q.reconcile ==> NoRemoval(old(d.world), d.world)
    ensures r.Success? ==> PerformedAs(old(d.world), d.world, q, r.value)
    ensures r.Failure? ==> r.error == Other || (r.error == Precondition && AllOk(old(d.world), d.world))
    ensures inspection.Some? && inspection.value.running
            && Suits(inspection.value, q, NodeLabels(q), ready.image.id) ==>
              r == Success(ReusedNode) && d.world == old(d.world)
  {
    if inspection.Some? {
      OwnNodeIs(q, inspection.value);
      if Suits(inspection.value, q, NodeLabels(q), ready.image.id) {
        CorrelationMeaning(inspection.value.labels, NodeLabels(q), q.reconcile);
      }
    }
    if inspection.None? {
      var made := CreateNode(d, q, ready);
      r := match made case Success(_) => Success(CreatedNode) case Failure(e) => Failure(e);
    } else if q.reconcile && !FingerprintMatches(inspection.value.labels, NodeLabels(q)) {
      if !NodeOwner(inspection.value.labels, NodeLabels(q)) {
        return Failure(Precondition);
      }
      var recreated := RecreateNode(d, q, inspection.value, ready);
      r := match recreated case Success(_) => Success(RecreatedNode) case Failure(e) => Failure(e);
    } else if !Suits(inspection.value, q, NodeLabels(q), ready.image.id) {
      r := Failure(Precondition);
    } else if inspection.value.running {
      r := Success(ReusedNode);
    } else {
      var started := d.StartNamed(NameOf(q));
      r := match started case Success(_) => Success(StartedNode) case Failure(e) => Failure(e);
    }
  }

  method RecreateNode(d: Daemon, q: Install, ghost c: Container, ready: Ready) returns (r: Result<(), Raised>)
    requires Consistent(d.world) && Showed(d.world, q, Some(c))
    requires q.image in d.world.images && ready.owner == OwnerIn(d.world, q)
    requires q.reconcile && OwnNode(q, c) && !SameMaterial(q, c)
    modifies d
    ensures Consistent(d.world) && Extends(old(d.world), d.world)
    ensures r.Success? ==> PerformedAs(old(d.world), d.world, q, RecreatedNode)
    ensures r.Failure? ==> r.error == Other || (r.error == Precondition && AllOk(old(d.world), d.world))
  {
    ghost var w := d.world;
    var _ :- d.RemoveNamed(NameOf(q));
    ghost var gone := d.world;
    ghost var id :| HasName(w, id, NameOf(q)) && Removed(w, gone, id, true);
    r := CreateNode(d, q, ready);
    if r == Failure(Precondition) {
      RemovalIsOk(w, gone, id);
      AllOkThen(w, gone, d.world);
    }
  }

  lemma AllOkThen(a: World, b: World, c: World)
    requires AllOk(a, b) && AllOk(b, c)
    ensures AllOk(a, c)
  {
    assert Sent(a, c) == Sent(a, b) + Sent(b, c);
  }

  lemma RanIsOk(w: World, w': World, q: Install)
    requires RanNode(w, w', q)
    ensures AllOk(w, w') && Extends(w, w')
  {
    var prep, id, answered :| Prepared(w, prep) && RanFrom(prep, w', q, id, answered);
    assert Sent(w, w') == Sent(w, prep) + [Create(NameOf(q), answered, false), Start(id, true)];
  }

  lemma StartIsOk(w: World, w': World, id: string)
    requires Started(w, w', id, true)
    ensures AllOk(w, w') && Sent(w, w') == [Start(id, true)]
  {
    assert w'.log == w.log + [Start(id, true)];
  }

  lemma RemovalIsOk(w: World, w': World, id: string)
    requires Removed(w, w', id, true)
    ensures AllOk(w, w') && Sent(w, w') == [Remove(id, true)]
  {
    assert Sent(w, w') == [Remove(id, true)];
  }

  /** No call of a performed operation raised. */
  lemma PerformedIsOk(w: World, w': World, q: Install, done: Performed)
    requires PerformedAs(w, w', q, done)
    ensures AllOk(w, w')
  {
    match done
    case ReusedNode =>
    case StartedNode =>
      var id :| Named(w, q, id) && Started(w, w', id, true);
      StartIsOk(w, w', id);
    case CreatedNode => RanIsOk(w, w', q);
    case RecreatedNode =>
      var gone, id :| Named(w, q, id) && Removed(w, gone, id, true) && RanNode(gone, w', q);
      RemovalIsOk(w, gone, id);
      RanIsOk(gone, w', q);
      AllOkThen(w, gone, w');
  }

  lemma RanLabels(w: World, w': World, q: Install, id: string)
    requires RanNode(w, w', q) && Consistent(w') && Named(w', q, id)
    ensures w'.containers[id].labels == NodeLabels(q)
  {
    var prep, made, answered :| Prepared(w, prep) && RanFrom(prep, w', q, made, answered);
    assert w'.containers[made].name == NameOf(q);
    assert id == made;
  }

  /** The labels of the container that serves in the end: those of the one that was kept, or
      this request's. */
  lemma PerformedLabels(w: World, w': World, q: Install, done: Performed, id: string)
    requires PerformedAs(w, w', q, done) && Consistent(w) && Consistent(w') && Named(w', q, id)
    ensures if done.ReusedNode? || done.StartedNode?
            then Named(w, q, id) && w'.containers[id].labels == w.containers[id].labels
            else w'.containers[id].labels == NodeLabels(q)
  {
    match done
    case ReusedNode =>
    case StartedNode =>
    case CreatedNode => RanLabels(w, w', q, id);
    case RecreatedNode =>
      var gone :| RanNode(gone, w', q);
      RanLabels(gone, w', q, id);
  }

  lemma ServedStaysServed(w: World, w': World, q: Install, ready: Ready)
    requires ImageReady(w, q) && NetworkOwned(w, q) && ready.image == w.images[q.image] && Extends(w, w')
    ensures ImageReady(w', q) && NetworkOwned(w', q) && ready.image == w'.images[q.image]
  {
  }

  /** What a success says about the whole run: only preparation before the calls it stands for,
      and the runtime's network as it was, or made for this request. */
  ghost predicate Ended(w0: World, w: World, q: Install, done: Performed) {
    && NetworkKept(w0, w, q)
    && exists admitted :: Prepared(w0, admitted) && PerformedAs(admitted, w, q, done)
  }

  lemma EndedFromAdmitted(w0: World, admitted: World, w: World, q: Install, done: Performed)
    requires Prepared(w0, admitted) && NetworkKept(w0, admitted, q)
    requires PerformedAs(admitted, w, q, done) && Extends(admitted, w)
    ensures Ended(w0, w, q, done) && AllOk(w0, w)
  {
    PerformedIsOk(admitted, w, q, done);
    AllOkThen(w0, admitted, w);
  }

  method PerformAdmitted(d: Daemon, q: Install, existing: Option<Container>, ready: Ready, ghost w0: World)
    returns (r: Result<Performed, Raised>)
    requires Consistent(d.world) && Showed(d.world, q, existing)
    requires q.image in d.world.images && ready.owner == OwnerIn(d.world, q)
    requires existing.Some? && q.reconcile ==> OwnNode(q, existing.value)
    requires Prepared(w0, d.world) && NetworkKept(w0, d.world, q)
    modifies d
    ensures Consistent(d.world) && Extends(old(d.world), d.world)
    ensures !q.reconcile ==> NoRemoval(w0, d.world)
    ensures r.Success? ==> Ended(w0, d.world, q, r.value) && AllOk(w0, d.world)
    ensures r.Failure? ==> r.error == Other || (r.error == Precondition && AllOk(w0, d.world))
    ensures existing.Some? && existing.value.running
            && Suits(existing.value, q, NodeLabels(q), ready.image.id) ==>
              r == Success(ReusedNode) && d.world == old(d.world)
  {
    ghost var admitted := d.world;
    r := Perform(d, q, existing, ready);
    if !q.reconcile {
      NoRemovalThen(w0, admitted, d.world);
    }
    if r.Success? {
      EndedFromAdmitted(w0, admitted, d.world, q, r.value);
    } else if r.error == Precondition {
      AllOkThen(w0, admitted, d.world);
    }
  }

  // ---- the container calls of a success ----

  /** The calls that are more than preparation. */
  function Acts(calls: seq<Call>): seq<Call> {
    if calls == [] then []
    else Acts(calls[..|calls| - 1])
         + (if Preparatory(calls[|calls| - 1]) then [] else [calls[|calls| - 1]])
  }

  lemma {:induction false} ActsAfter(before: seq<Call>, calls: seq<Call>)
    requires forall c | c in before :: Preparatory(c)
    ensures Acts(before + calls) == Acts(calls)
    decreases |before| + |calls|
  {
    var all := before + calls;
    if calls != [] {
      assert all[..|all| - 1] == before + calls[..|calls| - 1];
      ActsAfter(before, calls[..|calls| - 1]);
    } else if before != [] {
      assert all[..|all| - 1] == before[..|before| - 1] + [];
      ActsAfter(before[..|before| - 1], []);
    }
  }

  lemma ActsOfThese(a: Call, b: Call)
    requires !Preparatory(a) && !Preparatory(b)
    ensures Acts([a]) == [a] && Acts([a, b]) == [a, b]
  {
    assert [a][..0] == [] && [a, b][..1] == [a];
  }

  lemma RanTrace(w: World, w': World, q: Install) returns (id: string, answered: Option<string>)
    requires RanNode(w, w', q)
    ensures w.log <= w'.log && Named(w', q, id) && MadeForNode(w', q, id)
    ensures Acts(Sent(w, w')) == [Create(NameOf(q), answered, false), Start(id, true)]
  {
    var prep;
    prep, id, answered :| Prepared(w, prep) && RanFrom(prep, w', q, id, answered);
    RanIsMade(prep, w', q, id, answered);
    var made := [Create(NameOf(q), answered, false), Start(id, true)];
    assert Sent(w, w') == Sent(w, prep) + made;
    ActsAfter(Sent(w, prep), made);
    ActsOfThese(made[0], made[1]);
  }

  lemma RecreationTrace(w: World, gone: World, w': World, former: string)
    requires Removed(w, gone, former, true) && gone.log <= w'.log
    ensures w.log <= w'.log && Acts(Sent(w, w')) == [Remove(former, true)] + Acts(Sent(gone, w'))
  {
    RemovalIsOk(w, gone, former);
    assert Sent(w, w') == [Remove(former, true)] + Sent(gone, w');
    ActsBefore(Remove(former, true), Sent(gone, w'));
  }

  lemma {:induction false} ActsBefore(first: Call, calls: seq<Call>)
    requires !Preparatory(first)
    ensures Acts([first] + calls) == [first] + Acts(calls)
  {
    var all := [first] + calls;
    if calls == [] {
      ActsOfThese(first, first);
      assert all == [first];
    } else {
      assert all[..|all| - 1] == [first] + calls[..|calls| - 1];
      ActsBefore(first, calls[..|calls| - 1]);
    }
  }

  ghost predicate CreationCalls(w: World, q: Install, calls: seq<Call>) {
    exists id, answered ::
      MadeForNode(w, q, id) && calls == [Create(NameOf(q), answered, false), Start(id, true)]
  }

  /** The container calls that each success stands for, and the container that was made. */
  ghost predicate CallsOf(w0: World, w: World, q: Install, done: Performed, calls: seq<Call>) {
    match done
    case ReusedNode => calls == []
    case StartedNode => exists id :: Named(w0, q, id) && calls == [Start(id, true)]
    case CreatedNode => Vacant(w0, NameOf(q)) && CreationCalls(w, q, calls)
    case RecreatedNode =>
      && q.reconcile && |calls| == 3 && calls[0].Remove? && calls[0].ok
      && Named(w0, q, calls[0].removed) && OwnNode(q, w0.containers[calls[0].removed])
      && !SameMaterial(q, w0.containers[calls[0].removed]) && CreationCalls(w, q, calls[1..])
  }

  lemma PerformedCalls(w: World, w': World, q: Install, done: Performed)
    requires PerformedAs(w, w', q, done)
    ensures w.log <= w'.log && CallsOf(w, w', q, done, Acts(Sent(w, w')))
  {
    match done
    case ReusedNode =>
    case StartedNode =>
      var id :| Named(w, q, id) && Started(w, w', id, true);
      StartIsOk(w, w', id);
      ActsOfThese(Start(id, true), Start(id, true));
    case CreatedNode =>
      var id, answered := RanTrace(w, w', q);
    case RecreatedNode =>
      var gone, former :|
        Named(w, q, former) && OwnNode(q, w.containers[former]) && !SameMaterial(q, w.containers[former])
        && Removed(w, gone, former, true) && RanNode(gone, w', q);
      RecreatedCalls(w, gone, w', q, former);
  }

  lemma RecreatedCalls(w: World, gone: World, w': World, q: Install, former: string)
    requires q.reconcile && Named(w, q, former) && Removed(w, gone, former, true) && RanNode(gone, w', q)
    requires OwnNode(q, w.containers[former]) && !SameMaterial(q, w.containers[former])
    ensures w.log <= w'.log && CallsOf(w, w', q, RecreatedNode, Acts(Sent(w, w')))
  {
    var id, answered := RanTrace(gone, w', q);
    RecreationTrace(w, gone, w', former);
    assert Acts(Sent(w, w'))[1..] == Acts(Sent(gone, w'));
  }

  /** The container calls of a success are exactly those of what it says: none for a reuse, one
      start, one creation and its start, or one removal before these. */
  lemma SuccessIsItsCalls(w0: World, w: World, q: Install, done: Performed)
    requires Ended(w0, w, q, done)
    ensures w0.log <= w.log && CallsOf(w0, w, q, done, Acts(Sent(w0, w)))
  {
    var admitted :| Prepared(w0, admitted) && PerformedAs(admitted, w, q, done);
    PerformedCalls(admitted, w, q, done);
    ActsAfterPreparation(w0, admitted, w);
    CallsFromStart(w0, admitted, w, q, done, Acts(Sent(admitted, w)));
  }

  lemma ActsAfterPreparation(w0: World, admitted: World, w: World)
    requires Prepared(w0, admitted) && admitted.log <= w.log
    ensures w0.log <= w.log && Acts(Sent(w0, w)) == Acts(Sent(admitted, w))
  {
    assert Sent(w0, w) == Sent(w0, admitted) + Sent(admitted, w);
    ActsAfter(Sent(w0, admitted), Sent(admitted, w));
  }

  lemma CallsFromStart(w0: World, admitted: World, w: World, q: Install, done: Performed, calls: seq<Call>)
    requires Prepared(w0, admitted) && CallsOf(admitted, w, q, done, calls)
    ensures CallsOf(w0, w, q, done, calls)
  {
    if done.StartedNode? {
      var id :| Named(admitted, q, id) && calls == [Start(id, true)];
      assert Named(w0, q, id);
    }
  }

  /** From the admitted container on. */
  method Finish(d: Daemon, q: Install, resolves: bool, existing: Option<Container>, delivery: Delivery,
                ghost id: string)
    returns (r: Result<Performed, Raised>)
    requires Consistent(d.world) && Declared(d, q) == Success(delivery) && Showed(d.world, q, existing)
    requires existing.Some? && q.reconcile ==> OwnNode(q, existing.value)
    modifies d
    ensures Consistent(d.world)
    ensures r.Success? ==> Serving(d.world, d, q) && Ended(old(d.world), d.world, q, r.value)
    ensures !q.reconcile ==> NoRemoval(old(d.world), d.world)
    ensures r.Failure? ==> r.error != UnsupportedAuthority
    ensures r == Failure(Precondition) ==> AllOk(old(d.world), d.world)
    ensures (&& d.reliable && resolves && q.secretFiles == [] && AlreadyServing(old(d.world), d, q, id)
             && existing == Some(old(d.world).containers[id])) ==> r == Success(ReusedNode) && d.world == old(d.world)
  {
    ghost var w := d.world;
    var ready :- Admission(d, q, resolves);
    ghost var admitted := d.world;
    var done :- PerformAdmitted(d, q, existing, ready, w);
    ServedStaysServed(admitted, d.world, q, ready);
    var _ :- Confirm(d, q, ready.image, delivery);
    r := Success(done);
  }

  /** Looks at the node's container, if there is one, and admits it. */
  method AdmitNode(d: Daemon, q: Install) returns (r: Result<Delivery, Raised>, existing: Option<Container>)
    requires Consistent(d.world)
    ensures r.Success? ==> Declared(d, q) == r && Showed(d.world, q, existing)
    ensures r.Success? && existing.Some? ==> AdmissibleNode(d, q, existing.value)
    ensures r.Failure? ==> r.error == Other || r.error == Precondition || r.error == UnsupportedAuthority
    ensures forall i | Named(d.world, q, i) ::
              var c := d.world.containers[i];
              && (!AdmissibleNode(d, q, c) ==> r.Failure?)
              && (d.reliable && Declared(d, q).Success? && AdmissibleNode(d, q, c) ==>
                    r.Success? && existing == Some(c))
              && (d.reliable && Declared(d, q).Success? && q.reconcile && !OwnNode(q, c) ==>
                    r == Failure(Precondition))
    ensures d.reliable && Declared(d, q).Success? && Vacant(d.world, NameOf(q)) ==> r.Success?
  {
    existing := None;
    var delivery := DeclaredDelivery(d, q);
    if delivery.Failure? {
      return delivery, existing;
    }
    var inspection := d.InspectContainer(NameOf(q));
    if inspection.Failure? {
      return Failure(inspection.error), existing;
    }
    if inspection.value.Some? {
      existing := Some(inspection.value.value.container);
      assert Showed(d.world, q, existing);
      var admitted := AdmitExisting(d, q, existing.value, delivery.value);
      if admitted.Failure? {
        return Failure(admitted.error), existing;
      }
    }
    r := delivery;
  }

  /** StartNode, or ReconcileNode when the request says so. `id` names the container of a world
      that already serves the request, if it is one. */
  method OperateNode(d: Daemon, q: Install, resolves: bool, ghost id: string) returns (r: Result<Performed, Raised>)
    requires Consistent(d.world)
    modifies d
    ensures Consistent(d.world)
    ensures r.Success? ==> Serving(d.world, d, q) && Ended(old(d.world), d.world, q, r.value)
    ensures !q.reconcile ==> NoRemoval(old(d.world), d.world)
    ensures d.reliable && resolves && q.secretFiles == [] && AlreadyServing(old(d.world), d, q, id) ==>
              r == Success(ReusedNode) && d.world == old(d.world)
    ensures r == Failure(UnsupportedAuthority) ==> d.world == old(d.world)
    ensures r == Failure(Precondition) ==> AllOk(old(d.world), d.world)
    ensures forall i | Named(old(d.world), q, i) && !AdmissibleNode(d, q, old(d.world).containers[i]) ::
              r.Failure? && d.world == old(d.world)
    ensures forall i | Named(old(d.world), q, i) && q.reconcile && !OwnNode(q, old(d.world).containers[i]) ::
              d.reliable && Declared(d, q).Success? ==> r == Failure(Precondition)
  {
    if AlreadyServing(d.world, d, q, id) {
      ServingIsAdmissible(d.world, d, q, id);
    }
    var delivery, existing := AdmitNode(d, q);
    if delivery.Failure? {
      return Failure(delivery.error);
    }
    r := Finish(d, q, resolves, existing, delivery.value, id);
  }
}
