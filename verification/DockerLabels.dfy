// What the Docker interpreter writes on resources and reads back: ownership labels, names and the
// correlation rules. Digests are opaque and injective: a digest is the value it was taken of.

module DockerLabels {
  import opened Wrappers
  import opened Text

  /** One selected configuration allocation and the artifact it must hold. */
  datatype Reference = Reference(
    workspace: string, runtime: string, node: string, allocation: string, artifact: string, digest: string)

  /** The immutable identity of one selected secret file. */
  datatype SecretFileIdentity = SecretFileIdentity(
    workspace: string, runtime: string, node: string, reference: string, intent: string, version: string,
    target: string, mode: nat, owner: nat)

  datatype Digested =
    | OfReference(reference: Reference)
    | OfNode(workspace: string, node: string, runtime: string, product: string, descriptor: string, image: string,
             material: string)
    | OfRuntime(workspace: string, graph: string, runtime: string)
    | OfSelection(selection: string)
    | OfSecret(identity: SecretFileIdentity)

  /** The closed words the interpreter writes as label values. */
  datatype Word =
    | NodeContainer | RuntimeNetwork | ConfigurationVolume | ConfigurationWord | SecretFileWord | RetainedData
    | ConfigurationInstanceProfile | NodeMaterialProfile | RecordedPlan | RecordedGraph

  /** A label value: one of the closed words, a digest, or any other text. */
  datatype Value = Closed(word: Word) | Plain(text: string) | Digest(of: Digested)

  datatype Key =
    | Kind | Workspace | Runtime | Node | PlanKey | GraphKey | Product | Descriptor | ImageKey
    | MaterialProfile | Fingerprint | ConfigurationSelection | VolumeKind | Allocation
    | ConfigurationProfile | ConfigurationReference | ArtifactKey | ArtifactDigest
    | SecretTarget | SecretReference | SecretIdentity
    | OtherCpk(name: string)
    | Foreign(name: string)

  type Labels = map<Key, Value>

  predicate Cpk(k: Key) {
    !k.Foreign?
  }

  function Get(labels: Labels, k: Key): Option<Value> {
    if k in labels then Some(labels[k]) else None
  }

  // ---- names ----

  datatype VolumeName =
    | AllocationVolume(workspace: string, runtime: string, node: string, allocation: string)
    | NodeVolume(workspace: string, node: string, resource: string)
    | SecretVolume(workspace: string, node: string, target: string, reference: string)
    | SelectedSecretVolume(identity: SecretFileIdentity)

  datatype ResourceName =
    | NetworkName(workspace: string, runtime: string)
    | ContainerName(workspace: string, node: string)

  function ConfigurationVolumeName(r: Reference): VolumeName {
    AllocationVolume(r.workspace, r.runtime, r.node, r.allocation)
  }

  // ---- the request ----

  datatype Artifact = Artifact(id: string, digest: string, mode: nat, target: string)

  datatype SecretFile = SecretFile(target: string, reference: string, intent: string, version: Option<string>,
                                   mode: nat, digest: string)

  datatype AuthorityDelivery = LocalSocketMount | OtherDelivery

  /** One StartNode or ReconcileNode request with its single product, as far as it is used here.
      `selection` is present for the configuration activity, `selected` when the product selects
      secret versions; `material` stands for the remaining fingerprinted declarations. */
  datatype Install = Install(
    reconcile: bool,
    workspace: string, runtime: string, node: string, plan: string, graph: string,
    product: string, descriptor: string, imageDigest: string, image: string, material: string,
    selection: Option<string>, references: seq<Reference>, artifacts: seq<Artifact>, retained: seq<string>,
    selected: bool, secretFiles: seq<SecretFile>,
    environment: map<string, string>, secretEnvironment: map<string, string>,
    deliveries: seq<AuthorityDelivery>, ports: seq<string>)

  function NodeFingerprint(q: Install): Value {
    Digest(OfNode(q.workspace, q.node, q.runtime, q.product, q.descriptor, q.image, q.material))
  }

  const NODE_PROFILE := Closed(NodeMaterialProfile)

  function NodeLabels(q: Install): Labels {
    map[
      Kind := Closed(NodeContainer), Workspace := Plain(q.workspace), Runtime := Plain(q.runtime),
      Node := Plain(q.node), PlanKey := Plain(q.plan), GraphKey := Plain(q.graph), Product := Plain(q.product),
      Descriptor := Plain(q.descriptor), ImageKey := Plain(q.imageDigest), MaterialProfile := NODE_PROFILE,
      Fingerprint := NodeFingerprint(q)]
  }

  /** A configuration activity also records which selection it installs. */
  function InstallLabels(q: Install): Labels {
    match q.selection
    case None => NodeLabels(q)
    case Some(s) => NodeLabels(q)[ConfigurationSelection := Digest(OfSelection(s))]
  }

  function RuntimeLabels(q: Install): Labels {
    map[
      Kind := Closed(RuntimeNetwork), Workspace := Plain(q.workspace), Runtime := Plain(q.runtime),
      PlanKey := Plain(q.plan), GraphKey := Plain(q.graph),
      Fingerprint := Digest(OfRuntime(q.workspace, q.graph, q.runtime))]
  }

  function ConfigurationLabels(r: Reference): Labels {
    map[
      Kind := Closed(ConfigurationVolume), VolumeKind := Closed(ConfigurationWord),
      Workspace := Plain(r.workspace), Runtime := Plain(r.runtime), Node := Plain(r.node),
      Allocation := Plain(r.allocation), ConfigurationProfile := Closed(ConfigurationInstanceProfile),
      ConfigurationReference := Digest(OfReference(r)),
      ArtifactKey := Plain(r.artifact), ArtifactDigest := Plain(r.digest)]
  }

  /** Every expected label is there with its value; others do not matter. */
  predicate Carries(labels: Labels, expected: Labels) {
    forall k | k in expected :: Get(labels, k) == Some(expected[k])
  }

  predicate ConfigurationOwner(labels: Labels, r: Reference) {
    Carries(labels, ConfigurationLabels(r))
  }

  predicate RuntimeOwner(observed: Labels, expected: Labels) {
    && Get(observed, Kind) == Get(expected, Kind)
    && Get(observed, Workspace) == Get(expected, Workspace)
    && Get(observed, Runtime) == Get(expected, Runtime)
  }

  predicate NodeOwner(observed: Labels, expected: Labels) {
    RuntimeOwner(observed, expected) && Get(observed, Node) == Get(expected, Node)
  }

  predicate FingerprintMatches(observed: Labels, expected: Labels) {
    Get(observed, Fingerprint) == Get(expected, Fingerprint)
  }

  predicate HexChar(c: char) {
    '0' <= c <= '9' || 'a' <= c <= 'f'
  }

  predicate Hex64(s: string) {
    |s| == 64 && forall i | 0 <= i < 64 :: HexChar(s[i])
  }

  predicate DigestText(v: Option<Value>) {
    v.Some? && (v.value.Digest? || (v.value.Plain? && Hex64(v.value.text)))
  }

  predicate RecordedText(v: Option<Value>) {
    v.Some? && (v.value.Plain? ==> !Blank(v.value.text))
  }

  predicate MaterialEvidence(labels: Labels) {
    && Get(labels, MaterialProfile) == Some(NODE_PROFILE)
    && DigestText(Get(labels, Fingerprint))
    && RecordedText(Get(labels, PlanKey)) && RecordedText(Get(labels, GraphKey))
  }

  // ---- correlation ----

  predicate NonEmptyText(v: Value) {
    v.Plain? ==> v.text != []
  }

  /** A recorded plan or graph label is replaced by a fixed mark where an earlier one is allowed. */
  function Correlated(labels: Labels, priorPlan: bool, priorGraph: bool): (r: Labels)
    ensures forall k :: k in r <==> k in labels && Cpk(k)
  {
    map k | k in labels && Cpk(k) ::
      if priorPlan && k == PlanKey && NonEmptyText(labels[k]) then Closed(RecordedPlan)
      else if priorGraph && k == GraphKey && NonEmptyText(labels[k]) then Closed(RecordedGraph)
      else labels[k]
  }

  predicate Correlates(observed: Labels, expected: Labels, prior: bool) {
    && (prior ==> MaterialEvidence(observed))
    && Correlated(observed, prior, prior) == Correlated(expected, prior, prior)
  }

  lemma CorrelatedLabel(observed: Labels, expected: Labels, priorPlan: bool, priorGraph: bool, k: Key)
    requires Correlated(observed, priorPlan, priorGraph) == Correlated(expected, priorPlan, priorGraph)
    requires Cpk(k) && (priorPlan ==> k != PlanKey) && (priorGraph ==> k != GraphKey)
    ensures Get(observed, k) == Get(expected, k)
  {
    var o, e := Correlated(observed, priorPlan, priorGraph), Correlated(expected, priorPlan, priorGraph);
    assert k in o <==> k in e;
    if k in o {
      assert o[k] == observed[k] && e[k] == expected[k];
    }
  }

  /** The same value, or two recorded plans or graphs where an earlier one is allowed. */
  predicate Alike(k: Key, a: Value, b: Value, priorPlan: bool, priorGraph: bool) {
    || a == b
    || (&& ((priorPlan && k == PlanKey) || (priorGraph && k == GraphKey))
        && (a.Plain? ==> a.text != []) && (b.Plain? ==> b.text != []))
  }

  /** The interpreter's own labels are the same ones with like values. */
  ghost predicate LabelledAlike(observed: Labels, expected: Labels, priorPlan: bool, priorGraph: bool) {
    forall k | Cpk(k) ::
      && (k in observed <==> k in expected)
      && (k in observed && k in expected ==> Alike(k, observed[k], expected[k], priorPlan, priorGraph))
  }

  lemma CorrelatedIs(observed: Labels, expected: Labels, priorPlan: bool, priorGraph: bool)
    ensures Correlated(observed, priorPlan, priorGraph) == Correlated(expected, priorPlan, priorGraph) <==>
              LabelledAlike(observed, expected, priorPlan, priorGraph)
  {
    var o, e := Correlated(observed, priorPlan, priorGraph), Correlated(expected, priorPlan, priorGraph);
    if o == e {
      forall k | Cpk(k)
        ensures && (k in observed <==> k in expected)
                && (k in observed && k in expected ==> Alike(k, observed[k], expected[k], priorPlan, priorGraph))
      {
        assert k in o <==> k in e;
        assert k in o ==> o[k] == e[k];
      }
    }
    if LabelledAlike(observed, expected, priorPlan, priorGraph) {
      forall k ensures (k in o <==> k in e) && (k in o ==> o[k] == e[k]) {
        assert Cpk(k) && k in observed ==>
            k in expected && Alike(k, observed[k], expected[k], priorPlan, priorGraph);
      }
      assert o == e;
    }
  }

  /** That is what correlation is, with evidence where an earlier plan or graph is allowed. */
  lemma CorrelationIs(observed: Labels, expected: Labels, prior: bool)
    ensures Correlates(observed, expected, prior) <==>
              (prior ==> MaterialEvidence(observed)) && LabelledAlike(observed, expected, prior, prior)
  {
    CorrelatedIs(observed, expected, prior, prior);
  }

  /** Correlated labels agree on owner, fingerprint and selection. */
  lemma CorrelationMeaning(observed: Labels, expected: Labels, prior: bool)
    requires Correlates(observed, expected, prior)
    ensures NodeOwner(observed, expected) && FingerprintMatches(observed, expected)
    ensures Get(observed, ConfigurationSelection) == Get(expected, ConfigurationSelection)
  {
    CorrelatedLabel(observed, expected, prior, prior, Kind);
    CorrelatedLabel(observed, expected, prior, prior, Workspace);
    CorrelatedLabel(observed, expected, prior, prior, Runtime);
    CorrelatedLabel(observed, expected, prior, prior, Node);
    CorrelatedLabel(observed, expected, prior, prior, Fingerprint);
    CorrelatedLabel(observed, expected, prior, prior, ConfigurationSelection);
  }

  /** Allowing an earlier graph as well is the weaker comparison; a graph that agrees makes it
      the stronger one again. */
  lemma GraphAllowance(observed: Labels, expected: Labels, prior: bool)
    ensures Correlated(observed, prior, false) == Correlated(expected, prior, false) ==>
              Correlated(observed, prior, prior) == Correlated(expected, prior, prior)
    ensures Correlated(observed, prior, prior) == Correlated(expected, prior, prior)
            && Get(observed, GraphKey) == Get(expected, GraphKey) ==>
              Correlated(observed, prior, false) == Correlated(expected, prior, false)
  {
    var a, b := Correlated(observed, prior, prior), Correlated(expected, prior, prior);
    var x, y := Correlated(observed, prior, false), Correlated(expected, prior, false);
    if x == y {
      forall k ensures (k in a <==> k in b) && (k in a ==> a[k] == b[k]) {
        assert (k in x <==> k in y) && (k in x ==> x[k] == y[k]);
      }
      assert a == b;
    }
    if a == b && Get(observed, GraphKey) == Get(expected, GraphKey) {
      forall k ensures (k in x <==> k in y) && (k in x ==> x[k] == y[k]) {
        assert (k in a <==> k in b) && (k in a ==> a[k] == b[k]);
      }
      assert x == y;
    }
  }

  lemma InstallLabelsAre(q: Install)
    ensures var l := InstallLabels(q);
            && Get(l, MaterialProfile) == Some(NODE_PROFILE) && Get(l, Fingerprint) == Some(NodeFingerprint(q))
            && Get(l, PlanKey) == Some(Plain(q.plan)) && Get(l, GraphKey) == Some(Plain(q.graph))
            && Get(l, ConfigurationSelection) ==
               match q.selection case None => None case Some(s) => Some(Digest(OfSelection(s)))
    ensures NodeOwner(InstallLabels(q), NodeLabels(q)) && FingerprintMatches(InstallLabels(q), NodeLabels(q))
  {
  }

  /** Exactly correlated labels are material evidence when the plan and graph are not blank. */
  lemma ExactCorrelationIsEvidence(observed: Labels, q: Install)
    requires Correlates(observed, InstallLabels(q), false) && !Blank(q.plan) && !Blank(q.graph)
    ensures MaterialEvidence(observed)
  {
    InstallLabelsAre(q);
    CorrelatedLabel(observed, InstallLabels(q), false, false, MaterialProfile);
    CorrelatedLabel(observed, InstallLabels(q), false, false, Fingerprint);
    CorrelatedLabel(observed, InstallLabels(q), false, false, PlanKey);
    CorrelatedLabel(observed, InstallLabels(q), false, false, GraphKey);
  }
}
