# Reconcilers of the multicluster orchestrator

The orchestrator is an operator on a hub and several spoke agents. They have no channel of their own: each
reconciler reads and writes objects of an API server, may be interrupted anywhere and is then repeated. This
project models the reconcilers with the most state and proves what their interplay guarantees.

`ApiServer` is the common ground: named objects with resourceVersion, finalizers and a deletion mark, an Update
that is refused on a stale resourceVersion, and listings in no particular order. `Options` and `Sequences` hold the
optional value and two facts about concatenation.

| files | what they model |
|---|---|
| `Distribution`, `DistributionPass`, `DistributionRun`, `DistributionAmid`, `DistributionController` | replication classes distributed over StorageConsumers from listings that grow stale: convergence when alone, safety of every run amid other writers |
| `PeerDeletion`, `PeerDeletionSafety`, `PeerDeletionClash`, `PeerDeletionControllers` | deletion of a MirrorPeer as a protocol between hub and agents |
| `Pairing`, `PairingRefinement`, `PairingRuns` | the pairing maps and the StorageClusterPeers of two clients |
| `PeeringStatus`, `Readiness` | when peering counts as done, and what the status Ready says |
| `Migration` | S3Configurations made from the DRClusters of older MirrorPeers |
| `S3Validation`, `S3Exclusivity`, `S3ExclusivityReconciler` | cluster exclusivity under concurrent passes, DRCluster ownership |
| `S3Lifecycle`, `S3LifecycleSafety`, `S3Setup`, `S3EarlyDeletion`, `S3Teardown`, `S3Reconciler` | set-up, teardown order, its end, and the reference-counted addon |
| `RamenProfiles`, `RamenConfig` | the profile list inside a document that others edit too |
| `DrPolicyManifests`, `Hash` | manifests generated through shared maps, and names made from hashes |
| `ClientInfoIndex`, `ReverseWatch` | derived indexes against a direct scan |

## How the models are made

Code that works step by step is a class or a method with loops. Where the point is how passes interleave
(`DistributionRun`, `PeerDeletion`, `S3Lifecycle`, `S3Exclusivity`), a state machine gives every API call as one step,
and the theorems speak of all runs of it. `DistributionController`, `PeerDeletionControllers`, `S3Reconciler` and
`S3ExclusivityReconciler` are the reconcilers as code over the same states: each call is followed by a note of the step
it made, others act between two calls, and each pass is shown to extend a run. In the last three what others do is a
method of which callers know the contract alone, which allows every step of the others.

In `DistributionController` it is a function that gives, for each API call, the state that others have made of the
stored one by then. It is bounded by `WritersMay`: they keep class names unique, neither add nor remove this
controller's finalizer, leave the kind of a held template alone and do not list the class of a template themselves;
and at every moment a class named like a stored template is listed, if at all, only under that template's kind, also
if the template is created later than the listing.
For every such function the state that a pass leaves is determined (`DistributionAmid`).

## Where the code does less than one would expect

- Agent finalizers of clusters with long names clash when the first ten characters agree (`LongNamesClash`). One of the
  two agents then takes the finalizer off for both, and the hub can let go before the other has seen its lock clear;
  it waits for an agent in every run exactly if no other spoke shares its finalizer (`WaitedForIff`).
- As long as the emptied ManifestWork of a provider whose last peering was cleaned up is stored, the next peering
  panics: data of an empty ConfigMap decodes to nil (`ConfigureDoneIff`). When the MirrorPeer that made the
  ManifestWork is gone and it has been collected, peering works again (`PeeringAfterTheLast`, `SecondFirstPeering`).
- The ManifestWork with the pairing map is owned only by the MirrorPeer that created it (`OwnerIsFirst`), so the
  entries of others go with it when it is collected (`CollectionTakesEntries`).
- A synchronous MirrorPeer can become Ready with Validated false or missing, because stripping spoke finalizers
  reloads the status (`ReadyButNotValidated`; `SoundKeptIff`, `SoundRunsIff`).
- Of two older MirrorPeers that share an S3 profile only the first has all its clusters migrated
  (`SharedProfileLosesACluster`). A cluster is managed whatever the order exactly if every MirrorPeer with a
  DRCluster of its profile has it (`AlwaysManagedIff`).
- An S3Configuration deleted before its first reconcile can leave an addon nobody uses
  (`EarlyDeletionOrphansAddOn`), unless the provider has no addon or another configuration uses it that is not just
  about to disappear (`EarlyDeleteKeepsIff`, `HarmlessIff`). One that is not under deletion is enough
  (`LiveUserSuffices`).
- A Ramen document that is empty makes an update panic (`UpdateRamenConfigForS3Configuration`).
- Writing a profile drops fields unknown to the type from every profile, and an empty CA
  (`SetExtract`, `ExtractSet`).
- Two items of a MirrorPeer on one provider cluster overwrite each other's replication classes; the last wins
  (`EachProviderHasItsOwn`).
- Merging a view never drops an entry of the client index: that of a client no longer reported stays (`MergedLookup`).
- A view whose DRPlacementControl refers to a Placement in another namespace is not told of its changes
  (`WatchedIffOwnNamespace`).

## Model

| member | source | states |
|---|---|---|
| `ApiServer.AcceptedWriteWasFresh` | addons/tokenexchange/resource_distribution_controller.go:233-238 | An Update that is accepted although the object was read earlier proves that nobody has changed the object since, so nothing is overwritten |
| `ApiServer.UpdateStores` | addons/tokenexchange/resource_distribution_controller.go:233-238 | What an accepted Update leaves: the object as sent under the newest resourceVersion with the server's deletion mark, unless that was set and the last finalizer is gone; all other objects as they were |
| `ApiServer.List` | addons/tokenexchange/resource_distribution_controller.go:121-124 | The listing holds every stored object exactly once, in an unspecified order |
| `Distribution.AdjustedMeetsWish` | addons/tokenexchange/resource_distribution_controller.go:212-232 | The edited class list names the class if and only if it is wanted, differs only if that was not so before, stays free of duplicates and keeps all other classes in order |
| `Distribution.ExpectedChangesOneClass` | addons/tokenexchange/resource_distribution_controller.go:203-276 | The consumer a pass wants differs from the listed one exactly if the class is listed wrongly, and then in this one class of one list only |
| `Distribution.OtherTemplatesUnmoved` | addons/tokenexchange/resource_distribution_controller.go:203-276 | A write made for one template leaves every other template listed or unlisted as it was |
| `Distribution.LockHoldsLiveClients` | addons/tokenexchange/resource_distribution_controller.go:165-176 | The rebuilt deletion lock has a client ID as a key if and only if some ManifestWork not under deletion is labelled with it |
| `DistributionPass.PassConverges` | addons/tokenexchange/resource_distribution_controller.go:103-288 | A pass over fresh listings, in any order and with no other writer, ends with every class where it belongs, or has a write refused and leaves strictly fewer wrong (template, consumer) pairs |
| `DistributionPass.RefusalsAreBounded` | addons/tokenexchange/resource_distribution_controller.go:193-285 | At most templates times consumers passes in a row can have a write refused, so one more reaches the fixed point |
| `DistributionPass.SyncTemplateProgress` | addons/tokenexchange/resource_distribution_controller.go:193-285 | One template: wrong pairs never increase, strictly decrease with the first write, and a refusal happens only after a consumer was already written in this pass |
| `DistributionPass.SyncConsumerProgress` | addons/tokenexchange/resource_distribution_controller.go:203-276 | One consumer: nothing is wrong, or the write rights exactly this pair, or it is refused |
| `DistributionPass.SuccessMeans` | addons/tokenexchange/resource_distribution_controller.go:103-288 | In terms of what is stored after a successful pass: a class is in its kind's list of a consumer if and only if its template is not under deletion and the consumer's client ID is a key of the mapping; the lock has as keys exactly the labels of the ManifestWorks not under deletion, or none if a listing was empty |
| `DistributionPass.RebuildLockStores` | addons/tokenexchange/resource_distribution_controller.go:161-183 | If the lock is stored as read it afterwards has exactly the live client IDs as keys, and is written if and only if it did not have them |
| `DistributionPass.MissingIff` | addons/tokenexchange/resource_distribution_controller.go:103-119 | A pass goes nowhere, and writes nothing, if and only if lock or mapping is missing |
| `DistributionPass.HoldAddsOne` | addons/tokenexchange/resource_distribution_controller.go:196-202 | A live template gets this finalizer besides its others; nothing else moves |
| `DistributionPass.ReleaseTakesOne` | addons/tokenexchange/resource_distribution_controller.go:278-284 | A deleted template loses this finalizer and no other, and disappears if and only if it had no other |
| `DistributionRun.ReleasedOnlyWhenUnlisted` | addons/tokenexchange/resource_distribution_controller.go:278-284 | In every run of any number of passes, with well-behaved writers between any two API calls: a template that loses the finalizer is under deletion, and no consumer stored at that moment has its class in either list |
| `DistributionRun.ControllerWritesOneClass` | addons/tokenexchange/resource_distribution_controller.go:203-276 | In every run a step of the controller changes at most one consumer, and of it exactly one class of what is stored at that moment, so no update of anybody is lost |
| `DistributionRun.NextKeeps` | addons/tokenexchange/resource_distribution_controller.go:103-288 | Every step of the pass and of the others keeps what the pass remembers of its stale listings |
| `DistributionRun.NobodyLists` | addons/tokenexchange/resource_distribution_controller.go:227-232 | Once the listed consumers are cleared no stored consumer has the class, also none created since the listing |
| `DistributionRun.AcceptedConsumerWrite` | addons/tokenexchange/resource_distribution_controller.go:233-238 | No lost update: an accepted write changes one class of the stored consumer and nothing else |
| `DistributionAmid.PassAlone` | addons/tokenexchange/resource_distribution_controller.go:103-288 | With idle others the pass amid others is the pass whose convergence is proved |
| `DistributionController.ResourceDistributionReconciler.Reconcile` | addons/tokenexchange/resource_distribution_controller.go:103-288 | For every behaviour of well-behaved others, given as what they do before each API call: the pass extends a run, a success gave every listed template its turn, and the state it leaves is determined |
| `DistributionController.ResourceDistributionReconciler.ListAndDistribute` | addons/tokenexchange/resource_distribution_controller.go:121-148 | The lock is cleared when either listing is empty; otherwise the two listings, made one after the other, are distributed |
| `DistributionController.ResourceDistributionReconciler.Distribute` | addons/tokenexchange/resource_distribution_controller.go:150-191 | Lock rebuilt, consumers selected, templates distributed, from listings that may grow stale: each write meets the state that others have made of it |
| `DistributionController.ResourceDistributionReconciler.RebuildLock` | addons/tokenexchange/resource_distribution_controller.go:150-183 | The lock is rewritten exactly if the set of live client IDs differs from what it held when read; if nobody has changed it since, it then has exactly these as keys |
| `DistributionController.ResourceDistributionReconciler.SelectConsumers` | addons/tokenexchange/resource_distribution_controller.go:185-191 | The selected names are exactly the listed consumers whose client is a key of the mapping |
| `DistributionController.ResourceDistributionReconciler.SyncTemplates` | addons/tokenexchange/resource_distribution_controller.go:193-285 | The template loop, up to the first refused write, with others acting before each call |
| `DistributionController.ResourceDistributionReconciler.SyncTemplate` | addons/tokenexchange/resource_distribution_controller.go:193-285 | One template: hold, consumers, release, with others acting before each call |
| `DistributionController.ResourceDistributionReconciler.Hold` | addons/tokenexchange/resource_distribution_controller.go:196-202 | A live template carries the finalizer before any consumer is given its class |
| `DistributionController.ResourceDistributionReconciler.VisitConsumers` | addons/tokenexchange/resource_distribution_controller.go:203-277 | The consumer loop, up to the first refused write, with others acting before each; afterwards no listed consumer names the class of a held, deleting template |
| `DistributionController.ResourceDistributionReconciler.SyncConsumer` | addons/tokenexchange/resource_distribution_controller.go:203-276 | Writes this consumer if and only if the listed one lists this class wrongly, with this class righted; refused if the consumer was changed since; afterwards it does not name a held, deleting template |
| `DistributionController.ResourceDistributionReconciler.Release` | addons/tokenexchange/resource_distribution_controller.go:278-284 | The finalizer of a deleting template is dropped, and when it is no stored consumer, listed or not, names its class in either list |
| `PeerDeletion.AgentFinalizerFits` | addons/tokenexchange/agent_mirrorpeer_controller.go:108-111 | Every agent finalizer has at most 63 characters, the slice is in range, and the hub recognises it by its suffix |
| `PeerDeletion.FinalizerIsStem` | addons/tokenexchange/agent_mirrorpeer_controller.go:108-111 | The finalizer is the name of the spoke, or the first ten characters of one longer than 27, with the suffix |
| `PeerDeletion.UnmapTakesOne` | pkg/storagevendor/odf/vendor.go:282-332 | Exactly one client leaves exactly one provider's mapping |
| `PeerDeletion.MapAddsOne` | pkg/storagevendor/odf/vendor.go:720-784 | Exactly one client comes |
| `PeerDeletion.AgentFinalizersClash` | addons/tokenexchange/agent_mirrorpeer_controller.go:108-111 | Two spokes share a finalizer if and only if their names agree after names longer than 27 characters are cut to ten |
| `PeerDeletion.LongNamesClash` | addons/tokenexchange/agent_mirrorpeer_controller.go:108-111 | Two concrete cluster names that share a finalizer |
| `PeerDeletionSafety.FinalizersOnlyShrink` | internal/controller/mirrorpeer/mirrorpeer_controller.go:184-201 | Once the MirrorPeer is under deletion no step of anybody adds a finalizer or takes back the deletion |
| `PeerDeletionSafety.HubFinalizerIsLast` | internal/controller/mirrorpeer/mirrorpeer_controller.go:237-274 | In every run the hub finalizer goes only after a listing, made while the object was already as it is, without a DRPolicy on the pair; with no spoke finalizer left; and, if asynchronous, with neither client in its provider's mapping |
| `PeerDeletionSafety.AgentFinalizerWaitsForLock` | addons/tokenexchange/agent_mirrorpeer_controller.go:121-168 | In every run a spoke finalizer of a deleting MirrorPeer goes only after an agent owning a finalizer of that name saw a lock that was there and did not hold the client ID of the MirrorPeer's item on that agent's provider, the first if both are |
| `PeerDeletionSafety.StepsTouchOwnFinalizers` | internal/controller/mirrorpeer/mirrorpeer_controller.go:203-235 | The hub adds and removes its own finalizer, and the spokes' of a live synchronous MirrorPeer; an agent its own; no step touches another |
| `PeerDeletionSafety.StepsTouchOwnEntries` | pkg/storagevendor/odf/vendor.go:102-161 | No step of hub or agents enters or takes out a client other than the MirrorPeer's two |
| `PeerDeletionSafety.HubWaitsForEveryAgent` | internal/controller/mirrorpeer/mirrorpeer_controller.go:255-271 | When the hub lets go, each agent whose finalizer was on the deleting MirrorPeer has seen its own lock without the client, if no other spoke shares the finalizer name |
| `PeerDeletionSafety.HubDropIsLastStep` | internal/controller/mirrorpeer/mirrorpeer_controller.go:262-271 | The hub finalizer is removed only by the last call of a pass that went through all checks |
| `PeerDeletionSafety.SpokeDropIsAgents` | addons/tokenexchange/agent_mirrorpeer_controller.go:160-164 | Under deletion a spoke finalizer is removed only by an agent owning that name |
| `PeerDeletionClash.WaitedForIff` | internal/controller/mirrorpeer/mirrorpeer_controller.go:255-271 | In every run the hub waits until this agent has seen its lock without the client, if and only if no other spoke has the same finalizer |
| `PeerDeletionClash.ClashingAgentIsOvertaken` | addons/tokenexchange/agent_mirrorpeer_controller.go:108-164 | For any two spokes with one finalizer, a run from the empty start in which the second one takes it off and the hub lets go, while the first one's lock holds the client all the time |
| `PeerDeletionControllers.Controllers.ReconcileHub` | internal/controller/mirrorpeer/mirrorpeer_controller.go:184-235 | A hub pass is a piece of a run of the protocol whatever others do; if it releases the MirrorPeer its finalizer and the mapped clients are gone |
| `PeerDeletionControllers.Controllers.DeleteMirrorPeer` | internal/controller/mirrorpeer/mirrorpeer_controller.go:237-274 | The outcomes of a deletion pass, failures of its calls among them, and what each says about policies, spoke finalizers, mapping and the hub finalizer |
| `PeerDeletionControllers.Controllers.CheckPolicies` | internal/controller/mirrorpeer/mirrorpeer_controller.go:238-253 | The pass goes on if and only if no DRPolicy names the pair in either order |
| `PeerDeletionControllers.Controllers.CheckAgents` | internal/controller/mirrorpeer/mirrorpeer_controller.go:255-260 | The pass goes on if and only if no finalizer has the spoke suffix |
| `PeerDeletionControllers.Controllers.CleanupResources` | pkg/storagevendor/odf/vendor.go:148-161 | Up to the first call that fails, and what the removals have done by then stays; if all succeed neither client of an asynchronous MirrorPeer is in its provider's mapping |
| `PeerDeletionControllers.Controllers.RemoveClientID` | pkg/storagevendor/odf/vendor.go:282-332 | Takes one client out of its provider's mapping and changes nothing else |
| `PeerDeletionControllers.Controllers.DropHubFinalizer` | internal/controller/mirrorpeer/mirrorpeer_controller.go:266-271 | If the write is accepted the finalizer is off |
| `PeerDeletionControllers.Controllers.ConfigureMirrorPeer` | internal/controller/mirrorpeer/mirrorpeer_controller.go:203-235 | A live MirrorPeer gets finalizer and label first; in a later pass an asynchronous one has its clients mapped, one after the other, and a synchronous one is rid of spoke finalizers |
| `PeerDeletionControllers.Controllers.ReconcileAgent` | addons/tokenexchange/agent_mirrorpeer_controller.go:61-168 | An agent pass is a piece of a run of the protocol; it fails without client info or lock, and stops at a lock that holds the client |
| `PeerDeletionControllers.Controllers.CheckLock` | addons/tokenexchange/agent_mirrorpeer_controller.go:122-149 | The agent goes on if and only if its lock exists, could be written if it had the finalizer of older versions, and does not hold the client ID of the MirrorPeer's item on this spoke, the first if both are |
| `PeerDeletionControllers.FindAddonKey` | addons/tokenexchange/agent_mirrorpeer_controller.go:134-143 | The loop finds the client ID of the first item on this spoke, or the empty key |
| `PeerDeletionControllers.Controllers.AddAgentFinalizer` | addons/tokenexchange/agent_mirrorpeer_controller.go:113-120 | If the write is accepted the agent's finalizer is on |
| `PeerDeletionControllers.Controllers.DropAgentFinalizer` | addons/tokenexchange/agent_mirrorpeer_controller.go:160-164 | If the write is accepted the agent's finalizer is off |
| `Pairing.ODFVendor.CreateOrUpdateManifestWork` | pkg/utils/manifestwork.go:15-55 | Manifests and feedback rule are replaced, the owner is set only on creation |
| `Pairing.ODFVendor.UpdateProviderConfigMap` | pkg/storagevendor/odf/vendor.go:720-784 | The write of one entry equals Pair, including the failure on a work without manifests and the panic on a nil map; a new map is in this provider's namespace and names the other provider's peer |
| `Pairing.ODFVendor.CreateManifestWorkForClusterPairingConfigMap` | pkg/storagevendor/odf/vendor.go:684-718 | Enters both clients, first item first, and neither if one is unknown |
| `Pairing.ODFVendor.RemoveClientIDFromClusterPairingConfigMap` | pkg/storagevendor/odf/vendor.go:282-332 | The clean-up loop equals UnpairBoth, with the early returns |
| `Pairing.ODFVendor.CreateStorageClusterPeer` | pkg/storagevendor/odf/vendor.go:475-639 | The two loops equal WireBoth, and write nothing if a client is unknown |
| `Pairing.ODFVendor.ConfigurePeering` | pkg/storagevendor/odf/vendor.go:102-125 | Peers before mappings, and an unknown client leaves the store untouched |
| `PairingRefinement.LookupIs` | pkg/utils/hash.go:24-26 | A client is found under cluster and client name joined by an underscore |
| `PairingRefinement.FirstEntryMakesMap` | pkg/storagevendor/odf/vendor.go:731-751 | The first entry on a provider makes the map in that provider's namespace, with the peer name of the other provider's cluster, owned by this MirrorPeer |
| `PairingRefinement.LaterEntry` | pkg/storagevendor/odf/vendor.go:751-784 | For every stored work: fails without manifest or with another one, panics on an empty map, else sets this one entry and moves nothing else |
| `PairingRefinement.EntryTakenOut` | pkg/storagevendor/odf/vendor.go:282-332 | For every store: what taking a client out does and when it fails |
| `PairingRefinement.PlaceStays` | pkg/storagevendor/odf/vendor.go:684-784 | Namespace, peer name and owner of a map stay as they were made |
| `PairingRefinement.ConfigureRefines` | pkg/storagevendor/odf/vendor.go:684-784 | Configuring adds the peering to the set, on both providers, and changes nothing else |
| `PairingRefinement.CleanUpRefines` | pkg/storagevendor/odf/vendor.go:282-332 | Cleaning up always succeeds and takes exactly this peering out |
| `PairingRefinement.MapsAreSymmetric` | pkg/storagevendor/odf/vendor.go:684-718 | One provider maps a to b if and only if the other maps b to a |
| `PairingRefinement.ConfigureSucceedsIff` | pkg/storagevendor/odf/vendor.go:720-784 | Configuring succeeds if and only if neither provider has a stored mapping from which the last live peering was removed |
| `PairingRefinement.OwnerIsFirst` | pkg/utils/manifestwork.go:16-24 | The first creator of a ManifestWork stays its owner through every configure and clean-up |
| `PairingRefinement.OrderDoesNotMatter` | pkg/storagevendor/odf/vendor.go:475-639 | For clients of different providers both orders of the items leave the same store |
| `PairingRefinement.ConfigureIsIdempotent` | pkg/storagevendor/odf/vendor.go:475-784 | Configuring again changes nothing |
| `PairingRefinement.SidesAreCrossWired` | pkg/storagevendor/odf/vendor.go:525-639 | Each side's peer carries the other side's token, endpoint, server and client CA and SANs and its own client certificate name, and the mappings agree and are where they belong |
| `PairingRuns.RunRefines` | pkg/storagevendor/odf/vendor.go:102-125 | After any run of configures and clean-ups, which may fail, panic or stop between their writes and be repeated in any order, and of the garbage collector, the maps hold exactly the entries made and not taken out or collected |
| `PairingRuns.CompleteRunsMirror` | pkg/storagevendor/odf/vendor.go:684-784 | If every operation goes through, each provider's map is exactly the peerings configured and not cleaned up since |
| `PairingRuns.RetryCompletes` | pkg/storagevendor/odf/vendor.go:684-718 | A configure that stopped between its two entries and is repeated gives what one in one go gives |
| `PairingRuns.ConfigureDoneIff` | pkg/storagevendor/odf/vendor.go:102-125 | Configuring succeeds if and only if both tokens are there and neither provider has a stored mapping that has lost its last entry |
| `PairingRuns.PeeringAfterTheLast` | pkg/storagevendor/odf/vendor.go:751-784 | While the emptied ManifestWork is stored the next configure panics, as empty data decodes to nil; once it has been collected with its MirrorPeer the configure succeeds |
| `PairingRuns.SecondFirstPeering` | pkg/storagevendor/odf/vendor.go:751-784 | Both happen, in a run from the empty store |
| `PairingRuns.CollectionTakesEntries` | pkg/utils/manifestwork.go:16-24 | When a MirrorPeer is gone, an entry made by another survives if and only if its provider's ManifestWork was not made by the first |
| `S3Validation.ValidateManagedClustersUniqueness` | internal/controller/s3configuration/s3configuration_controller.go:739-786 | Accepts if and only if the list has no duplicate and shares no cluster with another configuration |
| `S3Validation.ValidateNoDRPolicyUsesClusters` | internal/controller/s3configuration/s3configuration_controller.go:658-681 | Accepts if and only if no DRPolicy names any of the clusters |
| `S3Validation.EnsuredControls` | internal/controller/s3configuration/s3configuration_controller.go:624-647 | Take-over succeeds if and only if no cluster is controlled under another name; what is taken over names the configuration as controller and profile, and the rest of its spec and every other DRCluster stay |
| `S3Validation.CheckStored` | internal/controller/s3configuration/s3configuration_controller.go:739-786 | Over the stored configurations, listed in any order: accepts if and only if the list has no duplicate and shares no cluster with another stored configuration |
| `S3Validation.DRClusterClient.EnsureDrClusters` | internal/controller/s3configuration/s3configuration_controller.go:624-647 | The loop equals Ensured, stopping at the first foreign DRCluster; on success each cluster is taken over with the rest of its spec as it was |
| `S3Exclusivity.NeverBothReady` | internal/controller/s3configuration/s3configuration_controller.go:267-336 | In every run with any number of concurrent passes, checking and writing in separate steps, two stored configurations with a cluster in common are never both Ready |
| `S3Exclusivity.ControlledDRClusters` | internal/controller/s3configuration/s3configuration_controller.go:624-647 | In every run a DRCluster controlled by a stored configuration names it as profile and lies in its list |
| `S3Exclusivity.NextKeeps` | internal/controller/s3configuration/s3configuration_controller.go:267-336 | Every step of every pass, user or other writer keeps the invariant |
| `S3ExclusivityReconciler.S3ConfigurationReconciler.Reconcile` | internal/controller/s3configuration/s3configuration_controller.go:267-336 | A pass, one of any number at the same time, is part of a run; if it makes its configuration Ready every DRCluster of the list was taken over under its name in this pass |
| `S3ExclusivityReconciler.S3ConfigurationReconciler.CheckUniqueness` | internal/controller/s3configuration/s3configuration_controller.go:739-786 | Goes on only if the list shares no cluster with another configuration stored at that moment; otherwise the phase is written and the pass ends |
| `S3ExclusivityReconciler.S3ConfigurationReconciler.EnsureDrClusters` | internal/controller/s3configuration/s3configuration_controller.go:624-647 | Goes on only if each cluster of the list had its DRCluster taken over in this pass |
| `S3ExclusivityReconciler.S3ConfigurationReconciler.SetReady` | internal/controller/s3configuration/s3configuration_controller.go:318-336 | Ready is written if and only if the configuration is still the one the pass has read |
| `S3LifecycleSafety.RemovedLast` | internal/controller/s3configuration/s3configuration_controller.go:339-403 | In every run a configuration leaves the store only under deletion, after a listing made under that deletion showed no DRPolicy on its clusters, with its profile and its ManifestWork gone |
| `S3LifecycleSafety.ProfileStaysOut` | internal/controller/s3configuration/s3configuration_controller.go:352-358 | From the first clean-up pass on the profile stays out of the Ramen config while the configuration is stored |
| `S3LifecycleSafety.AddOnOnlyIfUsed` | internal/controller/s3configuration/s3configuration_controller.go:432-474 | In every run without early deletes a provider has the addon only while a stored internal configuration uses it |
| `S3LifecycleSafety.AddOnKeptForReady` | internal/controller/s3configuration/s3configuration_controller.go:697-735 | The addon is never deleted under a configuration that was Ready and is not under deletion |
| `S3LifecycleSafety.WorkerTouchesOwn` | internal/controller/s3configuration/s3configuration_controller.go:205-403 | A step of the worker touches only the profile, work and addon of the configuration it is at, and of its object only finalizer and readiness |
| `S3LifecycleSafety.PolicyCheckCameFirst` | internal/controller/s3configuration/s3configuration_controller.go:343-350 | Whatever stage after the check a deletion pass is at, the policies were once listed clear under that deletion |
| `S3LifecycleSafety.NextKeeps` | internal/controller/s3configuration/s3configuration_controller.go:235-403 | Every step keeps the invariant of the life cycle |
| `S3EarlyDeletion.EarlyDeleteKeepsIff` | internal/controller/s3configuration/s3configuration_controller.go:243-259 | A delete before the first reconcile keeps the invariant of the life cycle if and only if the provider has no addon or another configuration uses it that is not just about to disappear |
| `S3EarlyDeletion.UsedAfterwardsIff` | internal/controller/s3configuration/s3configuration_controller.go:243-259 | Right after it every addon is used if and only if the provider has none or another configuration uses it |
| `S3EarlyDeletion.LiveUserSuffices` | internal/controller/s3configuration/s3configuration_controller.go:243-259 | What a user can check: an early delete keeps the invariant and leaves no unused addon if another configuration that is not under deletion uses the provider |
| `S3EarlyDeletion.HarmlessIff` | internal/controller/s3configuration/s3configuration_controller.go:339-403 | Over whole runs with early deletes the invariant holds throughout if and only if each of them is harmless |
| `S3EarlyDeletion.HarmfulDeleteOrphans` | internal/controller/s3configuration/s3configuration_controller.go:432-474 | Wherever a run allows a harmful early delete it can go on to a state with an addon nobody uses |
| `S3EarlyDeletion.EarlyDeletionOrphansAddOn` | internal/controller/s3configuration/s3configuration_controller.go:243-259 | Such a run exists from the empty start |
| `S3Setup.SetupFinishes` | internal/controller/s3configuration/s3configuration_controller.go:235-336 | From every reachable state with no pass under way a live configuration can be made Ready, with profile, addon and applied ManifestWork, by the worker and the work agent alone |
| `S3Setup.AdvanceProgresses` | internal/controller/s3configuration/s3configuration_controller.go:267-336 | There is always a next such step, and it lowers what is left |
| `S3Teardown.TeardownIsBounded` | internal/controller/s3configuration/s3configuration_controller.go:339-403 | However users, other passes, the work agent and the worker interleave, while a deleted and unblocked configuration is stored the worker's steps at it are bounded by what was left to do and by how often it had to wait for the ManifestWork |
| `S3Teardown.TeardownEnds` | internal/controller/s3configuration/s3configuration_controller.go:339-403 | At most 22 steps, besides three for each wait; once the ManifestWork is collected it never waits and takes at most six |
| `S3Teardown.GoesOn` | internal/controller/s3configuration/s3configuration_controller.go:339-403 | A step of anybody raises what is left only by making the pass wait, and the worker's other steps at the configuration lower it |
| `S3Teardown.AdvanceProgresses` | internal/controller/s3configuration/s3configuration_controller.go:339-403 | There is always a next step of the work agent or the worker, and it lowers what is left |
| `S3Teardown.TeardownFinishes` | internal/controller/s3configuration/s3configuration_controller.go:339-403 | From every such moment the teardown can be carried to the removal of the configuration |
| `S3Reconciler.S3ConfigurationReconciler.Reconcile` | internal/controller/s3configuration/s3configuration_controller.go:205-336 | A pass is a piece of a run of the life cycle whatever others do, and what each outcome leaves behind |
| `S3Reconciler.S3ConfigurationReconciler.DeletionPhase` | internal/controller/s3configuration/s3configuration_controller.go:339-403 | The ordered teardown with its three outcomes: blocked by a policy, waiting for the ManifestWork, removed |
| `S3Reconciler.S3ConfigurationReconciler.CheckPolicies` | internal/controller/s3configuration/s3configuration_controller.go:343-350 | Goes on if and only if no DRPolicy uses a cluster |
| `S3Reconciler.S3ConfigurationReconciler.DeleteManifestWork` | internal/controller/s3configuration/s3configuration_controller.go:363-384 | Goes on if and only if the ManifestWork is gone, otherwise it is under deletion |
| `S3Reconciler.S3ConfigurationReconciler.CleanupInternalS3` | internal/controller/s3configuration/s3configuration_controller.go:360-391 | Work first, addon only when it is gone |
| `S3Reconciler.S3ConfigurationReconciler.CleanupManagedClusterAddOn` | internal/controller/s3configuration/s3configuration_controller.go:697-735 | The addon is deleted if and only if, when the configurations are listed, no other one uses the provider |
| `S3Reconciler.FindOtherUser` | internal/controller/s3configuration/s3configuration_controller.go:705-717 | Finds another user of the provider if and only if there is one |
| `S3Reconciler.S3ConfigurationReconciler.ConfigurePhase` | internal/controller/s3configuration/s3configuration_controller.go:267-336 | The outcomes of a live pass, each with its condition; only a complete one is Ready, with profile and addon in place |
| `S3Reconciler.S3ConfigurationReconciler.ReconcileInternalS3Type` | internal/controller/s3configuration/s3configuration_controller.go:406-429 | The addon is there, and the pass goes on if and only if the ManifestWork is applied |
| `Migration.GroupByProfile` | internal/controller/mirrorpeer/mirrorpeer_controller.go:409-416 | The map has exactly the non-empty groups, each with its clusters in item order |
| `Migration.GroupAppend` | internal/controller/mirrorpeer/mirrorpeer_controller.go:409-416 | One more item goes to the end of the group of its DRCluster's profile and to no other |
| `Migration.MigratedConfigsPass` | internal/controller/mirrorpeer/mirrorpeer_controller.go:449-555 | Configurations made by any MirrorPeers in any sequence of partial and complete runs have duplicate-free lists and share no cluster, so each passes the uniqueness check |
| `Migration.OnePeerMigratesAll` | internal/controller/mirrorpeer/mirrorpeer_controller.go:374-446 | With one MirrorPeer any number of partial runs and a complete one put each found cluster into exactly the configuration named by its profile |
| `Migration.ManagedIffMakerHasIt` | internal/controller/mirrorpeer/mirrorpeer_controller.go:452-462 | With several MirrorPeers, a cluster is managed after complete runs if and only if the MirrorPeer that made the configuration has it |
| `Migration.AlwaysManagedIff` | internal/controller/mirrorpeer/mirrorpeer_controller.go:374-462 | A cluster ends up managed whatever the order of the runs if and only if every MirrorPeer with a DRCluster of its profile has it |
| `Migration.SharedProfileLosesACluster` | internal/controller/mirrorpeer/mirrorpeer_controller.go:459-462 | Two MirrorPeers of two clusters each that share a profile: a cluster of the second ends in no configuration |
| `Migration.ReleasedOnlyWhenCovered` | internal/controller/mirrorpeer/mirrorpeer_controller.go:427-443 | A DRCluster loses its MirrorPeer owner only once all clusters of that MirrorPeer have their configurations |
| `Migration.BucketPlaceIsFirst` | internal/controller/mirrorpeer/mirrorpeer_controller.go:496-511 | The bucket goes to the first addon on one of the clusters, no earlier one being on any, and has no place exactly if there is none |
| `Migration.FindBucketPlace` | internal/controller/mirrorpeer/mirrorpeer_controller.go:496-511 | The nested loops with their breaks find it |
| `Migration.MirrorPeerReconciler.CreateS3ConfigForProfile` | internal/controller/mirrorpeer/mirrorpeer_controller.go:449-555 | Creates at most this configuration, never over an existing one, never with an empty name |
| `Migration.MirrorPeerReconciler.CreateForGroups` | internal/controller/mirrorpeer/mirrorpeer_controller.go:420-425 | Whatever the map order and wherever it stops: existing configurations stay, new ones are whole groups |
| `Migration.MirrorPeerReconciler.ReleaseDRClusters` | internal/controller/mirrorpeer/mirrorpeer_controller.go:427-443 | Takes out one reference to this MirrorPeer from each of its DRClusters and nothing else |
| `Migration.MirrorPeerReconciler.CreateS3Configuration` | internal/controller/mirrorpeer/mirrorpeer_controller.go:365-447 | Every run, complete or not, is an attempt; a complete one covers all found clusters and releases all DRClusters |
| `PeeringStatus.CheckStorageClusterPeerStatus` | pkg/storagevendor/odf/validations.go:74-151 | True if and only if every item's peer work is applied with first feedback Peered; otherwise the first item that is not decides between waiting, error, as when its work cannot be read, and nil dereference |
| `PeeringStatus.CheckClientPairingConfigMapStatus` | pkg/storagevendor/odf/validations.go:153-210 | True if and only if every item's mapping work is applied; a work that cannot be read is an error |
| `PeeringStatus.PeerVerdictIs` | pkg/storagevendor/odf/validations.go:93-146 | An item passes if and only if its peer work is readable, stored and applied and the first feedback value of its first StorageClusterPeer is Peered; it fails if and only if that is Failed or the work cannot be read; a missing string is a nil dereference; all else waits |
| `PeeringStatus.MappingVerdictIs` | pkg/storagevendor/odf/validations.go:171-205 | An item passes if and only if its mapping work is readable, stored and applied, and fails if and only if it cannot be read |
| `PeeringStatus.FeedbackIs` | pkg/storagevendor/odf/validations.go:124-133 | The feedback is that of the first StorageClusterPeer |
| `PeeringStatus.OverallIs` | pkg/storagevendor/odf/validations.go:93-146 | A verdict other than passing is the loop's result if and only if it is that of the first item that does not pass |
| `PeeringStatus.IsProviderModePeeringDone` | pkg/storagevendor/odf/validations.go:51-72 | True if and only if both hold for all items |
| `PeeringStatus.CheckPeerWork` | pkg/storagevendor/odf/validations.go:93-146 | One item is peered if and only if its work is applied and the first feedback says so; each other case has its own verdict |
| `PeeringStatus.CheckMappingWork` | pkg/storagevendor/odf/validations.go:171-205 | One item is done if and only if its mapping work is applied; a missing work means waiting, an unreadable one an error |
| `Readiness.MirrorPeerReconciler.Reconcile` | internal/controller/mirrorpeer/mirrorpeer_controller.go:108-152 | What a pass leaves as status, including the reload of the stored status by a write of the object, the early return of a migration and a failing write of the status |
| `Readiness.MirrorPeerReconciler.ReconcilePhases` | internal/controller/mirrorpeer/mirrorpeer_controller.go:153-235 | What the phases make of the copy of the object and of what is stored besides the status |
| `Readiness.ReadyIff` | internal/controller/mirrorpeer/mirrorpeer_controller.go:153-235 | The exact cases in which a pass leaves the phase Ready |
| `Readiness.CompleteIff` | internal/controller/mirrorpeer/mirrorpeer_controller.go:108-235 | When a pass gets to its end, by what it meets |
| `Readiness.PassRecords` | internal/controller/mirrorpeer/mirrorpeer_controller.go:153-235 | The phase and the conditions that a pass records for each way to end, and the conditions it leaves alone |
| `Readiness.SoundKeptIff` | pkg/storagevendor/odf/vendor.go:450-473 | A pass keeps Ready implying Validated and Configured, except exactly when it strips the spoke finalizers of a live, marked, synchronous MirrorPeer whose stored status has no true Validated and then gets to the end |
| `Readiness.SoundRunsIff` | pkg/storagevendor/odf/vendor.go:450-473 | Over whole runs Ready always implies Validated and Configured if and only if no pass does that |
| `Readiness.ReadyButNotValidated` | pkg/storagevendor/odf/vendor.go:460-469 | The exception happens, in a run of three passes from the initial status |
| `Readiness.ReadyComesFromACompletePass` | pkg/storagevendor/odf/vendor.go:102-146 | In every run Ready implies Configured and an earlier complete pass; if asynchronous one with all works applied and peered, and Validated |
| `Readiness.CleanUpManagedClusterAddonForSyncDR` | pkg/storagevendor/odf/vendor.go:386-473 | When the clean-up succeeds, when it strips the finalizers, and what it does to the copy |
| `RamenProfiles.SkipIsUpdate` | pkg/utils/ramen.go:106-120 | Comparing five fields is enough: the write is skipped if and only if the full update would change nothing |
| `RamenProfiles.UpdateSetsOne` | pkg/utils/ramen.go:106-125 | An update sets the generated fields of one profile, keeps its Velero reference, CA and secret namespace, and every other profile |
| `RamenProfiles.RemovedHasOthers` | pkg/utils/ramen.go:188-198 | Exactly the profiles of other names remain |
| `RamenProfiles.RemovedStep` | pkg/utils/ramen.go:188-198 | One more profile stays, after all that stay, unless it has that name |
| `RamenProfiles.RemovedUpdated` | pkg/utils/ramen.go:106-125 | Removing after an update equals removing |
| `RamenConfig.DecodeIffRecords` | pkg/utils/ramen.go:229-265 | What is read is what the document has under the field's own keys, null and missing ones being empty |
| `RamenConfig.EncodeRecords` | pkg/utils/ramen.go:229-265 | What is written has each field under its own key |
| `RamenConfig.ExtractSet` | pkg/utils/ramen.go:229-265 | Extract after set is the identity if and only if no profile has an empty CA; other keys do not move |
| `RamenConfig.SetExtract` | pkg/utils/ramen.go:229-265 | Set after extract is lossless if and only if the document has a list of profiles with exactly the known fields |
| `RamenConfig.UpdateSetsOneProfile` | pkg/utils/ramen.go:63-149 | The update on the whole document, skipped or not: one profile, no other key, names stay unique |
| `RamenConfig.UpdateTwice` | pkg/utils/ramen.go:106-116 | A second update finds nothing to do |
| `RamenConfig.RemoveTakesOut` | pkg/utils/ramen.go:152-227 | Removal takes out every profile of that name and nothing else |
| `RamenConfig.RemoveUndoesUpdate` | pkg/utils/ramen.go:152-227 | Remove after update leaves what remove alone would leave |
| `RamenConfig.RamenHubOperatorConfig.UpdateRamenConfigForS3Configuration` | pkg/utils/ramen.go:63-149 | The loop with its early return equals AfterUpdate; fails exactly on a missing or unreadable document and panics exactly on an empty one |
| `RamenConfig.RamenHubOperatorConfig.RemoveS3ProfileFromRamenConfig` | pkg/utils/ramen.go:152-227 | The loop equals AfterRemove; a missing document is no error |
| `Hash.XorBits` | pkg/utils/hash.go:15-22 | The exclusive or on numbers is that on their bits |
| `Hash.KnownValues` | pkg/utils/hash.go:15-22 | The hash of no bytes and of the letter a are the published ones |
| `Hash.DecimalIs` | internal/controller/drpolicy/drpolicy_controller.go:276-277 | Hashes are written in decimal, without leading zeros |
| `Hash.StepIsBijection` | pkg/utils/hash.go:15-22 | For each byte the FNV-1a step is a bijection on 32-bit states, with explicit inverse |
| `Hash.UnfoldFold` | pkg/utils/hash.go:15-22 | The state before a string is recovered from the hash |
| `Hash.OneByteMatters` | pkg/utils/hash.go:15-22 | Two strings that differ in one byte have different hashes |
| `Hash.ComputeFnvHash` | pkg/utils/hash.go:15-22 | The byte loop computes the fold |
| `Hash.OneByteGivesOtherName` | internal/controller/drpolicy/drpolicy_controller.go:276-277 | Policies, intervals or pools that differ in exactly one byte get different names |
| `Hash.HashNamesClash` | internal/controller/drpolicy/drpolicy_controller.go:207-231 | Two names of one kind are equal if and only if the hashes are |
| `Hash.GetKeyDetermines` | pkg/utils/hash.go:24-26 | GetKey is injective for cluster names without underscore |
| `Hash.GetKeyMayClash` | pkg/utils/hash.go:24-26 | The condition is needed: a concrete clash of names with underscores, which the names of clusters in Kubernetes do not have |
| `DrPolicyManifests.GroupManifestsAreRight` | internal/controller/drpolicy/drpolicy_controller.go:297-314 | One manifest per class and mirrored pool, each with its own pool and hash name, snapshot mirroring at the policy's interval, and flattenMode only in flattening classes of flattening policies |
| `DrPolicyManifests.VolumeManifestsAreRight` | internal/controller/drpolicy/drpolicy_controller.go:284-295 | One manifest per class, never with a pool, with flattenMode exactly in the flattening class of a flattening policy |
| `DrPolicyManifests.ProductAt` | internal/controller/drpolicy/drpolicy_controller.go:298-314 | Classes times pools in this order |
| `DrPolicyManifests.ManifestNamesClash` | internal/controller/drpolicy/drpolicy_controller.go:301-303 | Two manifests of a list have one name if and only if they are of one class and their pools hash alike |
| `DrPolicyManifests.SendToIs` | internal/controller/drpolicy/drpolicy_controller.go:316-384 | The two works for an item: their names, their manifests, and the label set when they are made and kept later; no other work moves |
| `DrPolicyManifests.EachProviderHasItsOwn` | internal/controller/drpolicy/drpolicy_controller.go:278-384 | When all items are served the works of a provider cluster are those of the last item on it, and other works are untouched |
| `DrPolicyManifests.BuildClasses` | internal/controller/drpolicy/drpolicy_controller.go:198-269 | The default class and a deep copy changed into the flattening one: distinct maps |
| `DrPolicyManifests.BuildVrcManifests` | internal/controller/drpolicy/drpolicy_controller.go:284-295 | Each class is serialized with the parameters it was built with |
| `DrPolicyManifests.BuildForPools` | internal/controller/drpolicy/drpolicy_controller.go:299-313 | Although all pools share one map each manifest has its own pool |
| `DrPolicyManifests.BuildVgrcManifests` | internal/controller/drpolicy/drpolicy_controller.go:297-314 | The two loops over shared maps build the product |
| `DrPolicyManifests.SentIsPrefix` | internal/controller/drpolicy/drpolicy_controller.go:278-384 | Whatever goes wrong, some items are served in full, at most one more has its first work only, the rest nothing; all are served if and only if all clients are known and no write is refused |
| `DrPolicyManifests.DRPolicyReconciler.CreateOrUpdateManifestWorkForVRCAndVGRC` | internal/controller/drpolicy/drpolicy_controller.go:195-387 | Maps reused across peers do not leak: the store is as if each peer had fresh classes; an unknown client or a refused write stops the loop |
| `ClientInfoIndex.GetOdfInfoMap` | internal/controller/managedclusterview/managedclusterview_controller.go:177-263 | Whatever the map order, the result has exactly the reported keys with reported values; fails exactly on an unreadable file or unknown cluster |
| `ClientInfoIndex.AddFile` | internal/controller/managedclusterview/managedclusterview_controller.go:225-259 | Every client of the file gets its key, no other key is added, none is lost, and it fails exactly if some client's cluster is unknown |
| `ClientInfoIndex.LookupIsReport` | pkg/storagevendor/odf/clientinfo.go:60-72 | A lookup finds exactly what was reported for that cluster and client |
| `ClientInfoIndex.LookupOfClient` | internal/controller/managedclusterview/managedclusterview_controller.go:239-258 | A reported client is found under its cluster's and its own name, with its own IDs and the provider's details |
| `ClientInfoIndex.LookupOfCluster` | internal/controller/managedclusterview/managedclusterview_controller.go:225-238 | A storage cluster without clients is found under the provider's and its own name |
| `ClientInfoIndex.ContainsIff` | internal/controller/managedclusterview/managedclusterview_controller.go:179-181 | A file counts if its name has the part .yaml anywhere |
| `ClientInfoIndex.WalkOrderDoesNotMatter` | internal/controller/managedclusterview/managedclusterview_controller.go:178-260 | Any two walks give the same index if no client is reported twice |
| `ClientInfoIndex.ViewsAgree` | internal/controller/managedclusterview/managedclusterview_controller.go:342-360 | Views of disjoint clients have disjoint keys |
| `ClientInfoIndex.MergeCommutesIff` | internal/controller/managedclusterview/managedclusterview_controller.go:356-358 | Two views merge in either order into every index if and only if they agree where they overlap |
| `ClientInfoIndex.MergeAllHolds` | internal/controller/managedclusterview/managedclusterview_controller.go:342-360 | Nothing of any view and no earlier entry is dropped |
| `ClientInfoIndex.ViewOrderDoesNotMatter` | internal/controller/managedclusterview/managedclusterview_controller.go:342-360 | Order and repetition of reconciles do not matter |
| `ClientInfoIndex.MergedLookup` | internal/controller/managedclusterview/managedclusterview_controller.go:342-360 | After merging any list of views that are equal or share no client, a lookup gives this information if and only if some view reports exactly it, or no view reports the client and the earlier index had it |
| `ClientInfoIndex.ClientInfoConfigMap.Merge` | internal/controller/managedclusterview/managedclusterview_controller.go:352-358 | The loop adds the entries over the old ones, also on nil data |
| `ClientInfoIndex.ClientInfoConfigMap.CreateOrUpdateConfigMap` | internal/controller/managedclusterview/managedclusterview_controller.go:296-369 | One reconcile: an index of the view is merged, or nothing is written |
| `ReverseWatch.FindPAVsForPlacement` | internal/controller/protectedapplicationview/protectedapplicationview_controller.go:580-608 | The indexed list gives exactly the scan, each once |
| `ReverseWatch.FindPAVsForPlacementDecision` | internal/controller/protectedapplicationview/protectedapplicationview_controller.go:611-633 | The same through the label, and nothing without label or Placement |
| `ReverseWatch.WatchedIffOwnNamespace` | internal/controller/protectedapplicationview/protectedapplicationview_controller.go:208-217 | A view is found from exactly the Placement it would fetch if and only if the reference names no or its own namespace |
| `ReverseWatch.RequestsAreDependentViews` | internal/controller/protectedapplicationview/protectedapplicationview_controller.go:580-608 | Then the requests are exactly the dependent views, besides missing or deleted ones |
| `ReverseWatch.ReconcileView` | internal/controller/protectedapplicationview/protectedapplicationview_controller.go:182-217 | The round trip: the Placement that is fetched is one whose changes ask for this view if and only if the reference names no or its own namespace |
| `ReverseWatch.ReconcileDrpc` | internal/controller/drplacementcontrol/drplacementcontrol_controller.go:35-82 | Every view keeps the key of its DRPlacementControl |
| `ReverseWatch.FieldIndex.Put` | internal/controller/protectedapplicationview/protectedapplicationview_controller.go:158-168 | The index agrees with a scan after every put |
| `ReverseWatch.FieldIndex.Remove` | internal/controller/protectedapplicationview/protectedapplicationview_controller.go:158-168 | The index agrees with a scan after every removal |

## Left out

- Start-up, flags, logging, probes, leases, RBAC, certificate requests and embedded manifests: plumbing.
- Content of onboarding tokens and their renewal: tokens are opaque and looked up by MirrorPeer UID and cluster.
- JSON and YAML texts: taken to be lossless, except that empty ConfigMap data decodes to nil and that profiles lose what their type does not know. The Go type of an S3 profile is not part of this model: its optional JSON keys are taken to be the Velero reference, the CA and the parts of the secret reference.
- Garbage collection of owned objects, except of ManifestWorks with pairing maps: DRClusters and secrets that go with their owner.
- Owner handling of the token exchange addon (pkg/storagevendor/odf/vendor.go:334-448): the in-memory removal of an owner is overwritten by the next Get, so only its effect on spoke finalizers is modelled.
- Comparison of operator versions and validation of the MirrorPeer's fields: results are inputs of `Readiness`.
- Watch predicates, requeue intervals, conditions' messages and reasons.
- Application lookup of ProtectedApplicationViews and their status fields.
- `CreateOrUpdate` and the Get before it are one step in `RamenConfig`, so a writer between them is not modelled.
- ReverseWatch.FieldIndex.Put: the cache's index is modelled after its promise; the cache itself is not part of this model.
- Controllers are compared by name in `EnsuredControls`: the library's SetControllerReference is not part of this model.
- ClientInfoIndex.ClientInfoConfigMap.CreateOrUpdateConfigMap: views of ODF only; those of IBM Storage Scale give one entry per file under the same kind of key, and views of no known vendor are skipped.
- S3Reconciler.S3ConfigurationReconciler.ConfigurePhase: whether the secret is there and valid and whether the DRClusters can be taken over are inputs, as they do not touch what the teardown works on; the take-over itself is in `S3ExclusivityReconciler`.
- S3Reconciler.S3ConfigurationReconciler.Reconcile: the same.
- PeerDeletionControllers.Controllers.ReconcileAgent: creating and renewing the onboarding token of a live asynchronous MirrorPeer comes after the modelled steps and touches nothing they use.
- PeerDeletionControllers.Controllers.ConfigureMirrorPeer: token exchange addons and StorageClusterPeers are not part of the protocol's state; only how far the pass gets is.
- DrPolicyManifests.DRPolicyReconciler.CreateOrUpdateManifestWorkForVRCAndVGRC: the client-info ConfigMap has been read, and serializing a class does not fail.
