// The bounded facts one installation records about itself while it runs.

module ConfigurationAttempt {
  import opened Wrappers
  import opened DockerLabels

  datatype Phase =
    | Preflight | AuthorityPreflight | Network | ConfigurationStaging | ContainerPreparation
    | ContainerRemove | ContainerCreate | ContainerStart | InstalledVerification

  datatype Action = NotStarted | CreatedAction | Recreated | StartedAction | ReusedAction

  /** The attempt at one moment. */
  datatype Facts = Facts(
    phase: Phase, attempted: seq<nat>, staged: seq<nat>,
    prior: Option<string>, container: Option<string>, oldRemoved: bool, unknownCreated: bool, action: Action,
    fileOwner: Option<nat>, secretAttempted: seq<nat>, secretStaged: seq<nat>,
    retained: set<VolumeName>, unknownMaterialization: bool)

  /** The part of the facts that says what was done to which container. */
  datatype Mark = Mark(
    prior: Option<string>, container: Option<string>, oldRemoved: bool, unknownCreated: bool, action: Action)

  function MarkOf(f: Facts): Mark {
    Mark(f.prior, f.container, f.oldRemoved, f.unknownCreated, f.action)
  }

  function Range(n: nat): (r: seq<nat>)
    ensures |r| == n && forall i | 0 <= i < n :: r[i] == i
  {
    seq(n, i => i)
  }

  lemma RangeThen(n: nat)
    ensures Range(n) + [n] == Range(n + 1)
  {
  }

  const MAX_UID: nat := 2147483647

  const FRESH := Facts(Preflight, [], [], None, None, false, false, NotStarted, None, [], [], {}, false)

  /** Indices are tried in order and confirmed in order, and at most the last is unconfirmed. */
  predicate InStep(attempted: seq<nat>, staged: seq<nat>) {
    && attempted == Range(|attempted|) && staged == Range(|staged|)
    && |staged| <= |attempted| <= |staged| + 1
  }

  lemma InStepAt(n: nat)
    ensures InStep(Range(n), Range(n)) && InStep(Range(n + 1), Range(n))
  {
  }

  class Attempt {
    var phase: Phase
    var attempted: seq<nat>
    var staged: seq<nat>
    var prior: Option<string>
    var container: Option<string>
    var oldRemoved: bool
    var unknownCreated: bool
    var action: Action
    var fileOwner: Option<nat>
    var secretAttempted: seq<nat>
    var secretStaged: seq<nat>
    var retained: set<VolumeName>
    var unknownMaterialization: bool

    constructor ()
      ensures Now() == FRESH
    {
      phase := Preflight;
      attempted, staged := [], [];
      prior, container := None, None;
      oldRemoved, unknownCreated := false, false;
      action := NotStarted;
      fileOwner := None;
      secretAttempted, secretStaged := [], [];
      retained := {};
      unknownMaterialization := false;
    }

    function Marked(): Mark
      reads this
    {
      Mark(prior, container, oldRemoved, unknownCreated, action)
    }

    function Now(): Facts
      reads this
    {
      Facts(phase, attempted, staged, prior, container, oldRemoved, unknownCreated, action, fileOwner,
            secretAttempted, secretStaged, retained, unknownMaterialization)
    }
  }
}
