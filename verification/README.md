# Effect protocols of the control-plane interpreters

The interpreters run sequences of provider calls that may fail after they have taken effect, and
then report what happened. This project models those protocols in Dafny, with the provider as an
explicit world and every request or call in a log, and proves that the reports are true of every
provider behaviour.

Verify everything with `dafny verify dfyconfig.toml`.

## Structure

- **Cloudflare ingress** (`CloudflareProvider`, `CloudflareReservation`, `CloudflareCleanup`,
  `CloudflareEvidence`, `CloudflareCreate`, `CloudflareIngress`, `CloudflareLifecycle`, `Hostnames`,
  `Text`): creating, rebinding, deactivating, releasing and tearing down one named ingress, with
  compensation, and whole runs of these operations.
- **Docker installation** (`DockerLabels`, `ConfigurationAttempt`, `IpAddress`, `DockerDaemon`,
  `DockerAuthority`, `ConfigurationStaging`, `NodePreparation`, `NodeAdmission`, `EvidenceCapacity`,
  `Installation`, `InstallationOutcome`, `OversizedSuccess`): the machine that installs a node with
  selected material, its report, the capacity of the report, and running it again.
- **Executor and observer** (`NodeOperations`, `Observer`): two readings of the same world.
- **Recovery metadata** (`RecoverySweep`, `RecoveryMetadata`): a double collect under a call budget,
  while anybody changes the daemon.
- **Configuration cleanup** (`ConfigurationCleanup`): exact deletion of selected volumes.
- **Invoked runs** (`Invocations`, `PreparedSecrets`, `InvokedRun`): admission, preparation, sealing and
  the one dispatch.
- **Codecs and pages** (`JsonDepth`, `Base64Url`, `Credential`, `SecretId`, `PolicyPages`).

## Assumptions about the providers

- A request has taken effect by the time its failure is reported, or it never will. A failed write of a
  file may leave any file behind.
- A successful delete means that the resource is gone. At Cloudflare, and for a configuration volume,
  it also was there: a delete of what is not there is answered with not-found. New ids are fresh, and a
  new container is made from the recipe it was asked for, with a daemon's own report of its binds and
  groups.
- A read that succeeds does not lie; it may leave fields out, and it may fail at any time. A listing of
  one entry means that exactly one record has the name, one of several that several have; the page of a
  reconciliation owes the truth only if its own bookkeeping says that it is the whole answer.
- Cloudflare: between two calls other parties may change the account, but not the resources that the run
  created or was handed, and they never point a record at a tunnel of the run.
- Docker operations: nobody else writes while one of them is executed. Recovery metadata and
  configuration cleanup assume nothing of the kind: anybody may change anything between two calls.
- A daemon is called reliable where a law needs that no call fails, and a Cloudflare provider where it
  needs that no deletion of what is there fails. Where a law says what becomes of a run that nothing
  disturbs, a Cloudflare provider has a script of the ids and the token it hands out and carries every
  request out, a daemon under observation is frozen, and a store of volumes is quiet and reliable.
- Digests are opaque and injective, so that a digest, and a name built from one, is the value it was
  taken of. Resolving the same grants again gives the same secrets.

## Where the code and its promises differ

- A rebind updates the record with the reservation's own spelling of the hostname. Its rollback
  therefore restores the target, but the whole record exactly if that spelling was already there or no
  restoring update was needed (`CloudflareIngress.AllOrNothingIffSpelledAlike`); for every record in
  another spelling there is a run that loses it (`CloudflareIngress.OtherSpellingIsLost`, and one such
  record in `CloudflareIngress.OneLostSpelling`).
- A deletion answered with not-found counts as a failed cleanup stage. A torn-down ingress is therefore
  never torn down again (`CloudflareIngress.TornDownOnce`): on a reliable provider a teardown of an
  allowed hostname succeeds exactly if record and tunnel are still there (`CloudflareIngress.Teardown`).
- The capacity reserve counts 64 characters of growth for each endpoint, and a host of 64 characters
  with the brackets of an IPv6 address grows by up to 65. An address without a zone has at most 45
  characters (`IpAddress.ZonelessIsShort`), so that the reserve covers it for any number of ports
  (`EvidenceCapacity.ZonelessIsReserved`). An address that comes with its network's id never has a zone:
  its inspection would be refused. What remains is an address with a zone, in an entry that does not
  name its network's id. The reserve covers it up to 4096 ports (`EvidenceCapacity.GrowthIsReserved`)
  and in general exactly if `EvidenceCapacity.CapacityCovers`. Where it does not, there is a whole run of
  a reconciliation whose success is reported as uncertain (`OversizedSuccess.SuccessCanGoUnreported`);
  its address is `fe80::1%` with a zone of 56 letters, for a node with a name of at most 64 characters.
  Eight thousand ports are not covered (`EvidenceCapacity.ManyPortsAreUncovered`). How many ports and
  how large an envelope the core admits is not part of this model.
- The observer accepts any recorded plan label that is not empty, a reconciliation only one that is not
  blank (`Observer.BlankPlanIsConfirmedButRefused`).
- A successful operation is not always confirmed. It is confirmed exactly if, before it, there was no
  network of the runtime or one with this request's labels, and a container that is kept was recorded
  for this graph (`Observer.ExecuteThenObserve`). It is not on a network made under an earlier plan
  (`Observer.EarlierPlanIsNotConfirmed`), nor for a reconciled container made for an earlier graph
  (`Observer.EarlierGraphIsNotConfirmed`).
- In a recovery report a network conflict overwrites the container's ownership. Two agreeing sweeps can
  therefore have read different labels of that container (`RecoverySweep.ConflictHidesLabels`); the
  reported row holds at the common moment all the same (`RecoverySweep.ContainerHolds`).
- A policy page for a limit of zero can return its own cursor for ever (`PolicyPages.ZeroLimitCanLoop`).
  The check of the page alone does not exclude it; whether a request can have that limit is decided by
  the request's own type, which is not part of this model.

## Model

| member | source | states |
|---|---|---|
| `CloudflareCreate.CreateProvider` | src/control_plane_kit_interpreters/cloudflare/client.py:545-738 | for every provider behaviour the evidence a creation ends with is true: not-required means that nothing mutating was sent, withheld that no deletion was, complete that nothing created is left, and each certainty and id names exactly what was created; tunnel and record are created only directly after a look at the hostname that no record had; a stop for an occupied hostname names the only record that had it, a conflict follows a look that found several; a success is exactly its five or six requests and one token read, whose token it carries; a provider that carries everything out succeeds on a free hostname, also if the answer to the record creation is lost, and on one that is taken the run stops unchanged with that record |
| `CloudflareCreate.AllocateAndPublish` | src/control_plane_kit_interpreters/cloudflare/client.py:568-580 | sound for every answer to the allocation; a stop at this stage withholds every deletion, because a tunnel whose id never arrived may exist |
| `CloudflareCreate.ConfigureAndPublish` | src/control_plane_kit_interpreters/cloudflare/client.py:581-600 | sound for every answer to the configuration; a stop at this stage has sent the deletion of the one known tunnel as its last request, with no record created |
| `CloudflareCreate.PublishIfFree` | src/control_plane_kit_interpreters/cloudflare/client.py:601-641 | sound for every second look at the hostname, and nothing is published but directly after a look that no record had; a stop that compensates has created no record and has sent the deletion of the one known tunnel, any other has deleted nothing |
| `CloudflareCreate.PublishAndFetch` | src/control_plane_kit_interpreters/cloudflare/client.py:642-695 | sound for every answer to the record creation; a stop deletes the tunnel only if no record of the run can exist |
| `CloudflareCreate.Reconcile` | src/control_plane_kit_interpreters/cloudflare/client.py:646-695 | after a failed record creation the record found is taken over only if the failure was one of transport; where the run's own record is the only one of its name and the answer was lost, it is taken over and the creation succeeds |
| `CloudflareCreate.FetchToken` | src/control_plane_kit_interpreters/cloudflare/client.py:696-738 | sound for every answer to the token read; a stop at this stage has sent the deletions of record and tunnel, in this order, as its last requests, and is complete only if both are gone |
| `CloudflareCreate.ObserveReconciled` | src/control_plane_kit_interpreters/cloudflare/client.py:1122-1206 | an exhaustive page read means what it says about the world: free is no record of that name, and a single record is the only one |
| `CloudflareEvidence.ReconciliationMeaning` | src/control_plane_kit_interpreters/cloudflare/client.py:1167-1206 | the classification of a page agrees with the account it was read from, whatever fields are missing |
| `CloudflareEvidence.ListingMeaning` | src/control_plane_kit_interpreters/cloudflare/client.py:1081-1120 | a look answers free only of a world with no record of that name, occupied or own only with the identifier of the only record of that name, told apart by its kind and content, and a conflict only of several |
| `CloudflareEvidence.ListingDecides` | src/control_plane_kit_interpreters/cloudflare/client.py:1081-1120 | where nothing is left out of the listing the look decides: free exactly if no record has the name, and the only legible record is reported |
| `CloudflareEvidence.PageIsReadExactly` | src/control_plane_kit_interpreters/cloudflare/client.py:1167-1206 | free, several, own and occupied are answered exactly of a whole page with no entry, two entries, or one proxied CNAME entry of exactly this name with or without the tunnel as its target |
| `CloudflareCreate.DeleteKnownTunnel` | src/control_plane_kit_interpreters/cloudflare/client.py:1280-1289 | deleting the known tunnel is the last request sent, keeps every request the run's own and, when complete without any record, leaves nothing |
| `CloudflareCreate.CleanupCreated` | src/control_plane_kit_interpreters/cloudflare/client.py:1292-1311 | the deletions of record and tunnel are both sent, in this order, and nothing is left when neither failed |
| `CloudflareCreate.RecordedFailureLeavesNothing` | src/control_plane_kit_interpreters/cloudflare/client.py:117-145 | a creation recorded as failed, and not as unknown, has left no tunnel and no record of its own |
| `CloudflareEvidence.WhatIsRecorded` | src/control_plane_kit_interpreters/cloudflare/client.py:117-145 | exactly a stop that is certain of its mutations and of its cleanup is recorded as failed, a success as returned, and a control error not at all |
| `CloudflareCleanup.AttemptExactCleanup` | src/control_plane_kit_interpreters/cloudflare/client.py:1314-1330 | every stage is attempted in order whatever failed before, unless a control error interrupts; a stage not reported as failed had something to delete and has its effect at the end, nothing but the resources of the stages has changed, and on a reliable provider no stage fails whose resource is there |
| `CloudflareReservation.ObserveReservation` | src/control_plane_kit_interpreters/cloudflare/client.py:1674-1709 | a reservation reported as absent is not there, and one reported as present is the record with the tunnel it targets; a legible record is reported by a provider that carries everything out |
| `CloudflareReservation.RestoreReservation` | src/control_plane_kit_interpreters/cloudflare/client.py:1732-1753 | an update is sent only to a record that targets the new tunnel; a success leaves the record as the reservation spells it if the update was sent, and otherwise unchanged with the expected target |
| `CloudflareReservation.ObserveTunnelAbsent` | src/control_plane_kit_interpreters/cloudflare/client.py:1756-1782 | absence by not-found or by tombstone is the tunnel's absence |
| `CloudflareIngress.Create` | src/control_plane_kit_interpreters/cloudflare/client.py:472-518 | a success holds in custody the token that was read of the created tunnel, and is exactly the requests of a creation and then the store; without an invocation port a custody failure is compensated, completely exactly when the evidence says so, and the run ends with the token read, its store, the revocation and both deletions; with one, the provider resources stay for a later admission; a hostname outside the authority or an unusable name changes nothing; a provider that carries everything out allocates a free hostname |
| `CloudflareIngress.StoreLegacyToken` | src/control_plane_kit_interpreters/cloudflare/client.py:520-543 | after a failed custody write the revocation and the deletions of record and tunnel are all sent, in this order, after the store of the token that was read; a complete compensation has revoked custody and left nothing |
| `CloudflareIngress.Rebind` | src/control_plane_kit_interpreters/cloudflare/client.py:740-860 | all or nothing: a success is exactly its eight requests, has the same record target the new tunnel, and holds in custody the token that was read of that tunnel; a token is stored only directly after it was read of the new tunnel; any error but an uncertain cleanup keeps the record's target, has deleted every tunnel whose id came back and has revoked an attempted custody write; an uncertain cleanup has done so in every stage it does not name; a rebind is uncertain only after an update was sent, and a transport error is reported as such only before; no record is ever deleted or created; a refused hostname, ingress or name changes nothing; a provider that carries everything out binds the tunnel it hands out |
| `CloudflareIngress.AllOrNothingIffSpelledAlike` | src/control_plane_kit_interpreters/cloudflare/client.py:821-860 | after such an error the whole record is as it was exactly if it already carried the reservation's spelling of its name or no restoring update was sent |
| `CloudflareIngress.OtherSpellingIsLost` | src/control_plane_kit_interpreters/cloudflare/client.py:1732-1753 | for every record in another spelling there are ten answers of the provider after which the rollback is complete and the record has lost its spelling |
| `CloudflareIngress.OneLostSpelling` | src/control_plane_kit_interpreters/cloudflare/client.py:1732-1753 | one such record: "A.example.com" becomes "a.example.com" |
| `CloudflareIngress.Deactivate` | src/control_plane_kit_interpreters/cloudflare/client.py:880-943 | a success has revoked custody, deleted the tunnel and kept the record on that tunnel; it and an uncertain deactivation, which names the stages that failed, observations included, have sent exactly the three removals between two looks; every outcome keeps the record; a refusal has mutated nothing, and one for a foreign hostname or mismatched resources has sent nothing; a provider that carries everything out deactivates an expected record and its tunnel |
| `CloudflareIngress.Release` | src/control_plane_kit_interpreters/cloudflare/client.py:945-978 | a success deletes a record that targeted the expected tunnel; an uncertain release names whether the deletion or the observed absence failed, and the record is gone unless both did; both have sent exactly one deletion between two looks; a refusal has mutated nothing, and one for a foreign hostname has sent nothing; no tunnel and no custody is touched; a provider that carries everything out releases an expected record |
| `CloudflareIngress.Teardown` | src/control_plane_kit_interpreters/cloudflare/client.py:992-1050 | a success leaves neither record nor tunnel nor active custody, and found both there; an uncertain teardown has done so in every stage it does not name; both have sent exactly the revocation and the deletions of record, connections and tunnel, in this order; a failed revocation through a port prevents every deletion; a foreign hostname changes nothing; on a reliable provider an allowed teardown succeeds exactly if record and tunnel are there |
| `CloudflareIngress.TornDownOnce` | src/control_plane_kit_interpreters/cloudflare/client.py:992-1050 | whatever others do in between, a second teardown does not succeed, and if it ends uncertain it names the three provider stages |
| `CloudflareLifecycle.RecordTargetsLastAllocation` | src/control_plane_kit_interpreters/cloudflare/client.py:740-978 | over any interleaving of rebinds, deactivations and refused releases, failed ones and other parties' changes included, the one record keeps its id and targets the tunnel of the last successful allocation |
| `CloudflareLifecycle.CreateStartsAndReleaseEnds` | src/control_plane_kit_interpreters/cloudflare/client.py:472-978 | a successful create is such a start, and a successful release ends it with the record gone |
| `CloudflareLifecycle.ClaimIsTrue` | src/control_plane_kit_interpreters/cloudflare/client.py:740-978 | whatever the calls answered, what the caller may claim from the answers alone is true of the provider |
| `CloudflareLifecycle.RunTouchesOnlyItsOwn` | src/control_plane_kit_interpreters/cloudflare/client.py:1280-1330 | no run, failed calls included, changes or addresses a record or tunnel other than those it created or its caller named |
| `CloudflareLifecycle.RebindAndDeactivateKeepRecords` | src/control_plane_kit_interpreters/cloudflare/client.py:740-943 | rebinding and deactivating, however often, sends no record deletion |
| `Hostnames.MatchesAreInstances` | src/control_plane_kit_interpreters/cloudflare/client.py:321-331 | a hostname matches a pattern exactly when it is the pattern with each wildcard replaced by a non-empty text without a dot |
| `Hostnames.MatchIsLabelwise` | src/control_plane_kit_interpreters/cloudflare/client.py:321-331 | matching is label by label: same number of labels, each matching its own |
| `Hostnames.ZoneSuffix` | src/control_plane_kit_interpreters/cloudflare/client.py:1823-1832 | what a valid pattern matches ends with its zone |
| `Hostnames.AllowedHostnamesStayInZone` | src/control_plane_kit_interpreters/cloudflare/client.py:301-331 | every hostname an authority allows lies under its zone and has exactly as many labels as the pattern |
| `Hostnames.AllowedIffLabelwise` | src/control_plane_kit_interpreters/cloudflare/client.py:321-331 | exactly the valid hostnames are allowed whose labels match the pattern's one by one |
| `ConfigurationStaging.Stage` | src/control_plane_kit_interpreters/docker/configuration.py:154-177 | whatever stops it, staging overwrites no existing file and touches no volume with other labels or outside the request; attempted and staged indices are prefixes that differ by at most one; a success has every selected volume hold the exact digest and mode; on a staged world a reliable daemon is not changed |
| `ConfigurationStaging.SelectedAreMounted` | src/control_plane_kit_interpreters/docker/configuration.py:154-177 | on a staged world each selected volume is mounted at the target of the last artifact with its id |
| `ConfigurationStaging.StageOne` | src/control_plane_kit_interpreters/docker/configuration.py:158-176 | one volume is created or proved owned, filled only if empty, and verified |
| `NodePreparation.Prepare` | src/control_plane_kit_interpreters/docker/runtime.py:1432-1566 | preparation changes no container, no label and no existing file; a success has every secret file in its own volume with the exact identity, content, mode and owner, every plain artifact's content and every retained datum in a volume labelled as the node's own, the attempt's doubts resolved, and no environment name bound to two values |
| `NodePreparation.StagedIs` | src/control_plane_kit_interpreters/docker/runtime.py:1491-1548 | a secret volume passes the checks exactly if it has the node's labels, for a selected version the digest of just its identity, and the file with that content, mode and owner |
| `NodePreparation.MakeSecret` | src/control_plane_kit_interpreters/docker/runtime.py:1505-1523 | a secret volume that is being created or written leaves the attempt in doubt until it is verified |
| `NodeAdmission.PreflightSecrets` | src/control_plane_kit_interpreters/docker/runtime.py:1325-1379 | a passed preflight of a kept container has every secret staged and mounted exactly once, in the admitted image's user |
| `NodeAdmission.AdmitImage` | src/control_plane_kit_interpreters/docker/runtime.py:908-932 | an admitted image satisfies the immutable reference; if an image is there under it, nothing is pulled and nothing changes, whatever the daemon answers |
| `NodeAdmission.MatchInstalled` | src/control_plane_kit_interpreters/docker/configuration.py:180-191 | every configuration mount of the container with this id holds the declared bytes and mode |
| `DockerAuthority.DeclaredDelivery` | src/control_plane_kit_interpreters/docker/runtime.py:1729-1760 | the loop gives the delivery that the recursive definition determines, or its refusal |
| `DockerAuthority.MaterialMeans` | src/control_plane_kit_interpreters/docker/runtime.py:1729-1760 | there is a delivery exactly if all are of the local socket and the interpreter has one with a group; the refusal is a broken precondition exactly if such a socket comes first and its group is not known |
| `DockerAuthority.MaterialContents` | src/control_plane_kit_interpreters/docker/runtime.py:1729-1760 | each delivery is one writable socket mount and one mention of its group |
| `DockerAuthority.Conforms` | src/control_plane_kit_interpreters/docker/authority.py:32-77 | the answer is the conformance of what was reported, or unknown where the provider's facts could not be read |
| `DockerAuthority.ConformantMeans` | src/control_plane_kit_interpreters/docker/authority.py:32-77 | conformant is exactly the declared mounts and groups, or the one compatibility case of a proxied socket on the qualified desktop |
| `DockerAuthority.UnknownMeans` | src/control_plane_kit_interpreters/docker/authority.py:32-77 | unknown is exactly that mounts or groups were not reported, or in that one case the configuration or the facts were not |
| `DockerLabels.CorrelationMeaning` | src/control_plane_kit_interpreters/docker/runtime.py:2162-2200 | labels that correlate, even with an earlier plan and graph allowed, agree on owner, fingerprint and selection |
| `DockerLabels.CorrelationIs` | src/control_plane_kit_interpreters/docker/runtime.py:2162-2200 | labels correlate exactly if the interpreter's own labels are the same ones with the same values, but for a recorded plan and graph where earlier ones are allowed, and then with material evidence |
| `NodeAdmission.OwnNodeIs` | src/control_plane_kit_interpreters/docker/runtime.py:2147-2275 | owner, material evidence and network are those of the node exactly if the container carries the node's kind, workspace, runtime and node, the material profile, a digest and a recorded plan and graph, and is on the runtime's network and no other |
| `Installation.Decide` | src/control_plane_kit_interpreters/docker/runtime.py:541-602 | nothing is changed before the decision; a container of the node's name is admitted only if it is the node's own, conforms in its authority, and for a StartNode is labelled exactly as this request labels it; where no read fails the decision is reached exactly if there is no such container or an admissible one and the capacity preflight passes, and one that is not the node's own is a broken precondition; the installation counts as the same exactly if declarations and selection are |
| `Installation.Admit` | src/control_plane_kit_interpreters/docker/runtime.py:581-602 | an admitted container is admissible, and where no read fails every admissible container is admitted; what is not the node's own is a broken precondition |
| `Installation.RemoveOld` | src/control_plane_kit_interpreters/docker/runtime.py:643-653 | whatever happens, nothing is removed but, at most, the captured container under its id and while it is what was admitted; a success has read its absence back |
| `Installation.CreateNew` | src/control_plane_kit_interpreters/docker/runtime.py:654-669 | a new container has a fresh canonical id, is made from the recipe and started under that id; a failure leaves either the attempt's doubt or the id of the container it has made; no other container changes |
| `Installation.VerifyInstalled` | src/control_plane_kit_interpreters/docker/runtime.py:671-690 | a success has the container with the recorded id running, correlated, on its network and image, conforming in its authority, and with the configuration and secrets read back from it |
| `Installation.DispositionNeverFallsThrough` | src/control_plane_kit_interpreters/docker/configuration.py:225-239 | the facts of a finished attempt always determine created, reused or replaced |
| `Installation.Carry` | src/control_plane_kit_interpreters/docker/runtime.py:604-697 | after the decision a run is either refused with preparation only, or acts and verifies; every other container stays as it is; on a world that already is installed it only looks |
| `InstallationOutcome.Execute` | src/control_plane_kit_interpreters/docker/runtime.py:506-533 | the report, the calls made and the world left fit together for every daemon; every removal that was sent addresses a container of the start world with the node's own kind, workspace, runtime and node, its material evidence, and only the runtime's network; a container of the node's name that is not admissible ends the run failed and unchanged; a success is reused exactly if the captured container is the same installation, and a new container has this request's name, labels, network, image and environment and mounts exactly its configuration and secret files, from the node's own volumes; in every run, uncertain ones included, no container but the node's captured one is removed or changed and nothing else is taken away; a run on an installed world is reused under the same id and changes nothing |
| `InstallationOutcome.ReportIs` | src/control_plane_kit_interpreters/docker/runtime.py:506-533 | where the results fit, each report is given exactly for its ends: UNSUPPORTED for an unsupported authority, FAILED for a broken precondition, a material conflict or early invalid evidence while nothing of a selected secret is in doubt, uncertain for everything else that is not a success or a control error |
| `InstallationOutcome.ExecuteBound` | src/control_plane_kit_interpreters/docker/runtime.py:354-395 | a report other than uncertain means that the client closed or the execution raised: a success is the calls that were made, a failure is definite, unsupported changed nothing, and a contract failure came before any change, for failures of at most 1000 characters |
| `InstallationOutcome.SuccessIsTheTrace` | src/control_plane_kit_interpreters/docker/runtime.py:623-697 | CREATED is one create and no remove, REUSED is neither, REPLACED is one remove by the captured id, its absence read back, and then one create; only preparation comes before, and only a reconciliation replaces; the reported host is the container's address on the runtime's network, or the node's name if it has none there |
| `InstallationOutcome.UnsupportedChangedNothing` | src/control_plane_kit_interpreters/docker/runtime.py:515-517 | UNSUPPORTED means that nothing was changed at all |
| `InstallationOutcome.FailedIsDefinite` | src/control_plane_kit_interpreters/docker/runtime.py:518-529 | FAILED means that no create, remove or start of the container raised; with selected secrets none was sent, and nothing created or written is unverified, whatever the failure was |
| `InstallationOutcome.StartNodeRemovesNothing` | src/control_plane_kit_interpreters/docker/runtime.py:594-598 | whatever is reported, a StartNode has removed no container |
| `InstallationOutcome.NoOversizedReport` | src/control_plane_kit_interpreters/docker/runtime.py:553-580 | once the capacity preflight has passed, no result is refused for its size, so that the contract failure of an oversized result cannot follow a change |
| `InstallationOutcome.DoneIsReported` | src/control_plane_kit_interpreters/docker/runtime.py:691-697 | a success that was done is reported as one: for any number of ports unless the address has a zone, and then if there are at most 4096 ports or the reserve covers the longest host |
| `InstallationOutcome.IdentifiedIsZoneless` | src/control_plane_kit_interpreters/docker/sdk.py:274-291 | an inspected address that comes with its network's id has no zone |
| `InstallationOutcome.UncoveredIsNotReported` | src/control_plane_kit_interpreters/docker/runtime.py:561-580 | where the reserve does not cover it, the preflight passes and a replacement on the longest link-local address with a zone is reported as uncertain |
| `OversizedSuccess.SuccessCanGoUnreported` | src/control_plane_kit_interpreters/docker/runtime.py:553-697 | a whole run on such a host: every check of a reconciliation passes, the old container is removed and the new one created, started and verified, no call fails, and the success is reported as uncertain |
| `InstallationOutcome.SuccessIsInstalled` | src/control_plane_kit_interpreters/docker/runtime.py:553-697 | what a success leaves is a world on which every check of the same operation passes again, if the capacity preflight passes for its container and the request mounts each secret once |
| `InstallationOutcome.MountedOnceIf` | src/control_plane_kit_interpreters/docker/runtime.py:1325-1379 | each secret is mounted once if there are none, or if the read-only mounts have different targets |
| `InstallationOutcome.ExecuteTwice` | src/control_plane_kit_interpreters/docker/runtime.py:553-697 | running the same operation again on a reliable daemon, if the same preflights pass again, is reused with the same container id and changes nothing |
| `EvidenceCapacity.StoppedResultFits` | src/control_plane_kit_interpreters/docker/configuration.py:98-151 | in every reachable state, a stopped result is no longer than the measured maximum, and so is that of an unknown close with the members common to every success |
| `EvidenceCapacity.SuccessfulResultFits` | src/control_plane_kit_interpreters/docker/runtime.py:561-580 | a successful result with its receipts fits if the growth of the hosts in the endpoints is within the reserve |
| `EvidenceCapacity.ReplacementIsTight` | src/control_plane_kit_interpreters/docker/runtime.py:561-580 | and only then: a replaced installation with both documents exceeds the measured result by exactly what the growth exceeds the reserve |
| `EvidenceCapacity.GrowthIsReserved` | src/control_plane_kit_interpreters/docker/runtime.py:570-580 | up to 4096 ports the reserve covers every host that verification lets through, brackets included |
| `EvidenceCapacity.ZonelessIsReserved` | src/control_plane_kit_interpreters/docker/runtime.py:570-580 | an address without a zone is covered for any number of ports |
| `IpAddress.ZonelessIsShort` | src/control_plane_kit_interpreters/docker/sdk.py:280-291 | an IP address without a zone has at most 45 characters, as many as an inspection accepts of an address with its network's id |
| `IpAddress.LinkLocalIsIpv6` | src/control_plane_kit_interpreters/docker/sdk.py:1986-1991 | a link-local address with a zone of any length is an IPv6 address |
| `EvidenceCapacity.CoversEveryHost` | src/control_plane_kit_interpreters/docker/runtime.py:686-690 | what covers the longest host covers every host that verification lets through |
| `EvidenceCapacity.UncoveredResultIsTooLong` | src/control_plane_kit_interpreters/docker/runtime.py:561-580 | where the longest host is not covered, the preflight can pass and the result of a replacement on the longest link-local address with a zone still be too long |
| `EvidenceCapacity.ManyPortsAreUncovered` | src/control_plane_kit_interpreters/docker/runtime.py:570-580 | eight thousand ports of a node with a name of one character are not covered |
| `NodeOperations.OperateNode` | src/control_plane_kit_interpreters/docker/runtime.py:775-1045 | a success serves the request, on the network that was there or one made for the request; a StartNode removes nothing; a container of the node's name that is not admissible ends the run failed and unchanged, and one that is not the node's own is a broken precondition of a reconciliation; a failed precondition means that no container call raised; on a world that already serves the request the result is reused without any change; a refused authority changes nothing |
| `NodeOperations.SuccessIsItsCalls` | src/control_plane_kit_interpreters/docker/runtime.py:775-1045 | the container calls of a success are exactly those of what it reports: none, one start, one creation with its start, or before these one removal, by a reconciliation, of the node's own container made from other declarations; a created container has this request's name, labels, network, image and environment, and mounts exactly its artifacts and secret files, which are in the node's own volumes |
| `Observer.Inspect` | src/control_plane_kit_interpreters/docker/observer.py:318-459 | on a reliable daemon the world decides the verdict: CONFIRMED exactly of the worlds that satisfy the observer's criterion, a conflict exactly if the network or the container differs, absence exactly of a vacant name beside no foreign network, unsupported exactly of the requests it cannot observe; a failed read establishes nothing |
| `Observer.OwnsIs` | src/control_plane_kit_interpreters/docker/observer.py:437-459 | a container is the request's own exactly if the interpreter's own labels are the request's, but for a recorded plan that a reconciliation allows |
| `Observer.ExecuteConfirmed` | src/control_plane_kit_interpreters/docker/observer.py:351-432 | on a confirmed world the executor succeeds as reused without any change, exactly when the recorded plan and the graph are not blank; otherwise it refuses without any change |
| `Observer.ExecuteThenObserve` | src/control_plane_kit_interpreters/docker/observer.py:351-432 | after a success the observer confirms exactly if, before it, the runtime's network was absent or carried the request's labels and a kept container was recorded for this graph; otherwise it reports a conflict |
| `Observer.ConfirmationIsDecidedBefore` | src/control_plane_kit_interpreters/docker/observer.py:351-432 | what the observer will say of a success is determined by the network's and the container's labels before the operation |
| `Observer.EarlierPlanIsNotConfirmed` | src/control_plane_kit_interpreters/docker/runtime.py:775-906 | a node served on a network made under an earlier plan is reused by StartNode and a conflict for the observer |
| `Observer.EarlierGraphIsNotConfirmed` | src/control_plane_kit_interpreters/docker/runtime.py:934-1045 | a container made for an earlier graph is reused by a reconciliation and a conflict for the observer |
| `Observer.BlankPlanIsConfirmedButRefused` | src/control_plane_kit_interpreters/docker/runtime.py:2147-2160 | a blank recorded plan is owned for the observer and no evidence for a reconciliation |
| `RecoveryMetadata.Observe` | src/control_plane_kit_interpreters/docker/recovery_metadata.py:426-477 | at most 40 budgeted calls, each scheduled within 30 seconds of the start, none after a read that failed; a complete report leaves nothing open, and its rows held together at one moment and say what the daemon had then, if no value that a sweep could observe comes back after a change; of a frozen daemon that can be read the report is exactly its rows, complete exactly if nothing is open and the client closed |
| `RecoveryMetadata.Sweep` | src/control_plane_kit_interpreters/docker/recovery_metadata.py:362-423 | the rows of a sweep are those of its readings, each taken of the daemon at a moment within the sweep |
| `RecoveryMetadata.MarkDrift` | src/control_plane_kit_interpreters/docker/recovery_metadata.py:449-457 | rows on which the sweeps differ are overwritten as drift; if every row is definite, the sweeps agreed on every row and fact |
| `RecoveryMetadata.Budget.Check` | src/control_plane_kit_interpreters/docker/recovery_metadata.py:62-85 | a call is scheduled only if the clock has not run backwards and 30 seconds have not passed |
| `RecoverySweep.DoubleCollect` | src/control_plane_kit_interpreters/docker/recovery_metadata.py:440-459 | two agreeing definite sweeps describe one moment between them |
| `RecoverySweep.HeldTogetherMeans` | src/control_plane_kit_interpreters/docker/recovery_metadata.py:247-423 | rows that held together say of the daemon's own answers: the network is matching exactly if it has the planned name and its control-plane labels are the planned ones; the container exactly if besides these it has the pinned image, the planned mounts and no others, and the planned network with its very id as the only one; the image exactly by its pin; each volume exactly by its labels, with its holder, or drifted if it is gone and still mounted; conflict and absence are exactly the rest, and each identity is the one read |
| `RecoverySweep.AgreementMeans` | src/control_plane_kit_interpreters/docker/recovery_metadata.py:413-423 | agreeing rows and facts have been read from the same identity, network and volumes; only the container's ownership may differ, where its network conflict hides it |
| `RecoverySweep.ConflictHidesLabels` | src/control_plane_kit_interpreters/docker/recovery_metadata.py:413-423 | two snapshots with different container labels whose definite sweeps agree |
| `ConfigurationCleanup.Cleanup` | src/control_plane_kit_interpreters/docker/configuration_cleanup.py:19-34 | one row for each instance in order; known rows, at most one left uncertain, then rows not attempted; each row is backed by the calls made for it; whatever the rows say, a deletion was sent only after the three checks; unselected volumes stay; where nobody else acts and no call fails, the first shelf decides every row of different volumes |
| `ConfigurationCleanup.CleanupOne` | src/control_plane_kit_interpreters/docker/configuration_cleanup.py:37-58 | REMOVED means the exact owner's local volume, unused, unchanged at the recheck, deleted and absent afterwards; a refusal has seen other labels or the owner's volume that is not local, a retained row that it was in use, and both have deleted nothing; whatever the outcome, a deletion is sent only as the fourth call, after an exact owner, no use and an equal recheck were seen; in a quiet and reliable store the outcome is decided: absent, refused for its reason, retained or removed |
| `ConfigurationCleanup.Store.RemoveUnchanged` | src/control_plane_kit_interpreters/docker/sdk.py:849-861 | the volume is inspected once more and deleted only if it has not changed |
| `ConfigurationCleanup.UnselectedUntouched` | src/control_plane_kit_interpreters/docker/configuration_cleanup.py:19-34 | whoever else acts, no call of a cleanup changes a volume that was not selected |
| `ConfigurationCleanup.CleanupTwice` | src/control_plane_kit_interpreters/docker/configuration_cleanup.py:37-58 | after everything is removed, a replay finds everything already absent |
| `Invocations.Port.Finish` | src/control_plane_kit_interpreters/invocations.py:24-37 | an outcome is recorded exactly once; a success means a call without an error whose outcome was acknowledged; a failed acknowledgement is raised but never displaces a cancellation |
| `Invocations.Port.Conclude` | src/control_plane_kit_interpreters/invocations.py:40-53 | a control error goes through unrecorded, and nothing else does; what was acknowledged is the answer itself, and what was not is the refusal, except in place of a cancellation |
| `PreparedSecrets.PreparedResolver.Resolve` | src/control_plane_kit_interpreters/secrets.py:48-59 | a grant that was answered is never asked again; after sealing nothing is asked at all; entries and admitted calls grow together |
| `PreparedSecrets.PreparedResolver.ResolveAuthorized` | src/control_plane_kit_interpreters/secrets.py:307-360 | the result is exactly what the answers in the end determine, and an error where they still need one; when they already determine it, nothing is asked |
| `PreparedSecrets.PreparedResolver.ResolveSelected` | src/control_plane_kit_interpreters/secrets.py:263-304 | the same for selected versions, with the adapter's bounds |
| `PreparedSecrets.AnswersOfEntries` | src/control_plane_kit_interpreters/secrets.py:51-53 | the entries are a map from grants to answers |
| `PreparedSecrets.DeliveredMeans` | src/control_plane_kit_interpreters/secrets.py:307-360 | there is material exactly if every delivery's only permitting grant has resolved to its own reference and no name is asked for with two values; then each environment delivery's name has the value its grant resolved to, each file delivery its target and value in order, every name occurs once, and there is nothing else |
| `PreparedSecrets.SelectedMeans` | src/control_plane_kit_interpreters/secrets.py:263-304 | material of selected versions comes only of versions that have all been resolved through their only grants, and gives each delivery the value selected last for its use |
| `PreparedSecrets.GrantIsTheOnlyOne` | src/control_plane_kit_interpreters/secrets.py:222-249 | a grant is found for a use or a selected version exactly if it is the only one of the list for it |
| `InvokedRun.Interpreter.Execute` | src/control_plane_kit_interpreters/docker/runtime.py:397-460 | the admitted calls are resolutions of pairwise different grants followed by at most one dispatch; each is recorded exactly once, and only the last may be left unrecorded, for a control error that is raised; the ending is determined: unsupported kinds, activities and authorities, and ill-formed or uncovered requests end so before any call, a refused or missing secret is a failure, an exception a failure while the product's material is resolved and otherwise an uncertainty, controls and cancellations are raised, and once everything is answered the ending is the dispatch's own answer, if it was acknowledged; what is raised otherwise is what the port refused with, or the exception that interrupted the last resolution |
| `InvokedRun.SuccessWasAnswered` | src/control_plane_kit_interpreters/docker/runtime.py:447-460 | a run ends as succeeded only after an admitted dispatch that answered just that and was acknowledged |
| `InvokedRun.AnsweredMeans` | src/control_plane_kit_interpreters/docker/runtime.py:1773-1851 | everything is answered exactly if a remote connection's three secrets have resolved for their uses, and a node operation has its material and, where a pull authority is given, a credential that this authority covers |
| `InvokedRun.SelectionsCovered` | src/control_plane_kit_interpreters/docker/runtime.py:1942-1956 | selected versions are admitted exactly if each has its only grant, a resolver is configured and at most 32 files are delivered |
| `InvokedRun.Interpreter.Prepare` | src/control_plane_kit_interpreters/docker/runtime.py:411-433 | a prepared run is sealed, and everything the dispatch can ask for is answered |
| `InvokedRun.Interpreter.AskAgain` | src/control_plane_kit_interpreters/docker/runtime.py:1896-1934 | asked again from inside the dispatch, the sealed resolver gives the prepared material and credential without any call |
| `InvokedRun.PreparationIsLawful` | src/control_plane_kit_interpreters/docker/runtime.py:397-460 | resolutions that grow with distinct entries are pairwise different calls |
| `JsonDepth.Scanner` | src/control_plane_kit_interpreters/probes/health_transport.py:264-282 | the loop accepts exactly what the scanning function accepts |
| `JsonDepth.AcceptedExactlyUpToMaxDepth` | src/control_plane_kit_interpreters/probes/health_transport.py:264-283 | every JSON text, with any spacing and any quotes, backslashes or brackets in its strings, passes exactly when its true nesting is at most eight |
| `Base64Url.DecodeEncode` | src/control_plane_kit_interpreters/probes/health_transport.py:296-298 | decoding gives back every byte sequence from its encoding |
| `Base64Url.EncodeIsInjective` | src/control_plane_kit_interpreters/secret_provider/client.py:780-781 | different bytes are encoded differently |
| `Base64Url.CanonicalTexts` | src/control_plane_kit_interpreters/probes/health_transport.py:296-298 | the re-encoding comparison accepts exactly the encodings of bytes |
| `Base64Url.DecoderAloneIsNotInjective` | src/control_plane_kit_interpreters/probes/health_transport.py:296-298 | without the comparison two texts decode to the same byte |
| `Credential.Admit` | src/control_plane_kit_interpreters/probes/health_transport.py:286-302 | a token passes exactly when it is three canonical segments within their bounds, the last of 64 bytes |
| `Credential.OneSpellingPerCredential` | src/control_plane_kit_interpreters/probes/health_transport.py:296-302 | the same bytes are carried by one token only |
| `Credential.SignatureLength` | src/control_plane_kit_interpreters/probes/health_transport.py:294-302 | 64 signature bytes are exactly 86 letters |
| `SecretId.SecretIdIsInjective` | src/control_plane_kit_interpreters/secret_provider/client.py:771-781 | no two references are given the same provider secret id |
| `SecretId.SecretIdIsOneSegment` | src/control_plane_kit_interpreters/secret_provider/client.py:771-788 | the id needs no percent-encoding and is at most 1371 characters long |
| `PolicyPages.CheckPage` | src/control_plane_kit_interpreters/secret_provider/policy.py:183-205 | a page is accepted exactly when it is bounded, strictly increasing after the cursor, meets every filter, and its own cursor is its last grant of a full page |
| `PolicyPages.BeforeMeans` | src/control_plane_kit_interpreters/secret_provider/policy.py:188-193 | grants are ordered by the first place where their identifiers differ, a proper prefix first |
| `PolicyPages.ChainIsOneList` | src/control_plane_kit_interpreters/secret_provider/policy.py:177-205 | following cursors yields one strictly increasing list in which every grant meets the filters |
| `PolicyPages.NoGrantTwice` | src/control_plane_kit_interpreters/secret_provider/policy.py:177-205 | no grant occurs twice in it |
| `PolicyPages.CursorAdvancesIffLimit` | src/control_plane_kit_interpreters/secret_provider/policy.py:198-205 | an accepted cursor moves on exactly when the limit is at least one |
| `PolicyPages.CursorNeverReturns` | src/control_plane_kit_interpreters/secret_provider/policy.py:177-205 | with such a limit no cursor comes back, so that paging cannot loop |
| `PolicyPages.ZeroLimitCanLoop` | src/control_plane_kit_interpreters/secret_provider/policy.py:198-205 | with a limit of zero it can |

## Left out

- HTTP, TLS, sockets, the Docker SDK's own parsing and archives: their results are the contracts of the provider classes.
- Resolving the Cloudflare API token and binding the custodian, and recording an ingress outcome on its port; one custody slot stands for the grant.
- Cancellation and other non-exceptions, except where an invocation is recorded.
- Case folding of hostnames outside ASCII.
- The parsing of an image's numeric user and of the familiar spellings of an official image: an image carries the user id and the references it satisfies.
- Public and socket bindings of a node's environment apart from each other: a request carries them merged.
- The order of selected secret files, and waiting for health with its per-check ports.
- Starting, stopping and removing runtimes and stopping and removing nodes: single calls.
- Requests with other than one product.
- The canonical spelling that is demanded of an address with its network's id.
- Claims, signatures and destinations of health credentials, and duplicate object keys in JSON.
- Connector connections, managed health and verification probes.
- RecoveryMetadata.Observe: does not model the partial rows of an incomplete report, nor the version call at connection, which the same budget schedules.
- RecoveryMetadata.Sweep: puts its rows together at the end instead of overwriting them one by one, because only the rows of a finished sweep are compared.
- InstallationOutcome.NoOversizedReport: counts the canonical length as the sum of the members, with each host once in its endpoint and failures of at most 1000 characters.
- InvokedRun.Interpreter.Execute: covers every operation but waiting for health, whose checks are admitted one by one.
- CloudflareLifecycle.ClaimIsTrue: the claim says nothing between an uncertain rebind or release and the next definite answer.
