# Verification of the NMOS sync daemon's control plane

The daemon keeps an AMWA NMOS node in step with a remote list of video, audio and ancillary-data streams.
A WebSocket peer announces changes, the daemon pulls a snapshot of all streams, works out what changed and
adds, updates and removes senders and receivers of the node, which publishes them over IS-04 (node
resources) and IS-05 (connection resources). This project models that control plane in Dafny and proves
what its parts promise each other.

| Files | Subject |
|---|---|
| `Naming` | resource ids: the paths they are derived from, and when two paths collide |
| `Streams`, `Resources` | the six stream kinds and their configurations; interfaces, endpoints, what a stream publishes |
| `Publication`, `RegistryModel`, `RegistrySteps`, `Activations`, `RegistryRuns` | the stream registry as values: the agreement of its parts, each operation's effect, activations, runs of operations |
| `NodeRegistry` | class `Node`: the registry operations themselves, step by step; a `World` decides at each insert, removal, build and transport file whether a stop arrives or it throws, and contracts say that nothing else can make an operation fail |
| `ReconcileModel`, `ReconcileEngine` | the incremental diff, as a plan over a map and as the engine that carries it out on a `Node` |
| `SyncState`, `App`, `AppMachine`, `StoreHistory`, `SyncTiming`, `SyncProgress`, `AppRefinement` | the shared state of the sync scheduler; its handlers undisturbed; all interleavings of its threads at the lock boundaries; what the status tells; coalescing and timing; what a request can come to; the tie between that machine and the real node |
| `Lifecycle` | start, stop and the worker thread |
| `PtpClock`, `GmidForm`, `JsonMerge` | the grandmaster-id normaliser and PTP selectors; the settings merge |

Main results:

- Every registry operation, whether it returns or throws, keeps the caches, the four id lists, both resource
  maps, the links between resources and the device's own lists in agreement; a failed add leaves no trace; a
  restart restores everything from whatever a stop left behind.
- Applying a snapshot lands where a full rebuild would, in any iteration order; cut short anywhere and any
  number of times, doing it again lands in the same place; unchanged streams are not touched; and on a node that
  is up nothing but a failing build, insert or transport file, or a stop, keeps it from succeeding.
- In every run of the daemon's threads no signal is lost and each sync serves the largest revision asked for, no
  sooner than the debounce and retry times allow; and as long as no node operation throws the registered ids
  follow the last snapshot.

Properties one might expect that the code does not have, each with the exact condition under which it holds:

- A failed apply followed by another snapshot can lose or keep streams wrongly (`OtherSnapshotExactly`,
  `OtherSnapshotCanLoseAStream`), and so can the first apply after a settings-driven restart
  (`ApplyAfterRestartExactly`).
- An update that throws leaves wrong leg counts exactly when it got as far as a sender's transport file and
  was to turn redundancy on or off (`ThrowingUpdateBreaksLegsExactly`).
- A restart can fail to initialise the node without anyone noticing; streams not yet re-added are then lost
  (`Node.ReinsertCached`, `Daemon.RestartNodeRuntime`).
- The settings merge departs from RFC 7396 exactly when the patch asks to delete a member the base does not
  have: inside an object the base has too, that throws; elsewhere the null is taken over
  (`MergeIsMergePatchExactly`, `MergeIsMergePatchByPaths`). A patch that succeeded can be repeated exactly when it holds no null
  (`MergeIdempotentExactly`).
- The published grandmaster id and the published lock state can come from different PTP entries
  (`SelectorsAgreeExactly`).
- Ids without a port can collide with ported ones (`PathsCollideExactly`, `UnportedIdsCanCollide`).
- A negative debounce setting, which nothing rejects, means no sync ever begins
  (`NegativeDebounceNeverSyncs`); with any other, until a stop is requested one always can
  (`PendingSyncCanBeginExactly`).

Where the design notes and the code differ the model follows the code: `NMOS_SYNC_DAEMON_OPENCODE_TASKS.md`
(Task 7.2) lets only a snapshot-changed message start a pull and ignores old revisions, but
`src/daemon/app.cpp` also asks for a sync on connecting and forces one on every signal.

## Model

| member | source | states |
|---|---|---|
| Naming.PathRoundTrip | src/node_implementation.cpp:42-46 | a canonical (type, port, id) can be read back from the path its id is derived from, for every id string |
| Naming.ParseIsPath | src/node_implementation.cpp:42-46 | and whatever reads back is the path of what was read |
| Naming.PathsCollideExactly | src/node_implementation.cpp:42-46 | exactly which two triples share a path: same type, and same port name and id run together |
| Naming.PathInjective | src/node_implementation.cpp:42-46 | no two triples in use share a path, whatever the id strings |
| Naming.UnportedIdsCanCollide | src/node_implementation.h:107-127 | an id without a port can collide with a ported one, which is why sources, flows, senders and receivers always carry theirs |
| Naming.IdsAreTheirKeys | src/node_implementation.cpp:42-46 | two ids in use are equal exactly when seed, type, port and id are |
| Streams.EquivalentIsSameConfig | src/daemon/dto.cpp:971-1050 | for each of the six kinds, equivalent means same id and same configuration, no field forgotten; the assigned sender id is ignored |
| Streams.ViewFirstWins | src/daemon/reconcile_engine.cpp:13-20 | of several items under one id the first is the one that counts |
| Streams.HasAnyStreamsMeansSomeId | src/daemon/dto.cpp:757-762 | a snapshot has streams exactly when some kind has an id |
| Resources.LegsShareInterfaceExactly | src/node.cpp:550-615 | the two redundancy legs end up on one interface exactly when the second address asks for it or no other interface has an address |
| Resources.AddressHonouredExactly | src/node.cpp:550-615 | an address asked for is used exactly when some interface has it, and a leg's address is one of its interface's unless none has any |
| Resources.PrimaryExactly | src/node.cpp:550-573 | the primary leg is on the first interface with the address asked for; by default on the first with any, on its first address; failing that on the first, without one |
| Resources.SecondaryExactly | src/node.cpp:575-599 | the second leg likewise, but by default on another interface than the primary, and sharing the primary's leg if there is none |
| Publication.AgreementResolves | src/node.cpp:2533-2580 | in agreement, a sender leads to its flow and on to its source, every stream has its connection and the device lists it |
| Publication.NothingLiveNothingPublished | src/node.cpp:2900-2963 | no orphans: with no stream cached only node and device are published, and every list is empty |
| Publication.AddedAgrees | src/node.cpp:2538-2580 | publishing a new stream keeps id lists, maps, links and device in agreement and touches no other stream's resources |
| Publication.RemovedAgrees | src/node.cpp:2915-2963 | so does withdrawing one |
| Publication.RemoveUndoesAdd | src/node.cpp:2900-2963 | withdrawing what was just published restores both maps, the lists and the device exactly |
| Publication.RebuiltAgrees | src/node.cpp:3184-3276 | replacing a stream's resources keeps the agreement and touches no other stream's |
| RegistryModel.AddedValid | src/node.cpp:2520-2580 | adding a new stream keeps the whole registry consistent, files its configuration and keeps leg counts right |
| RegistryModel.RemovedValid | src/node.cpp:2900-2963 | removing a stream keeps the registry consistent and takes exactly its cache entry away |
| RegistryModel.RemovedUndoesAdded | src/node.cpp:2900-2963 | remove after add is the state before, caches included |
| RegistryModel.UpdatedValid | src/node.cpp:3755-3780 | an update keeps the registry consistent, files the new configuration and sets the leg counts by it |
| RegistryModel.UpdateKeepsActiveExactly | src/node.cpp:3168-3237 | the running endpoint survives an update exactly when its leg count still fits, and is rebuilt otherwise |
| RegistryModel.NothingCachedNothingPublished | src/node.cpp:2835-3116 | a consistent registry without cached streams publishes nothing but node and device |
| RegistrySteps.UpsertedIsPublished | src/node.cpp:2520-2833 | after an add or update that returned, what is published, staged and constrained for the stream is what it was given on the present interfaces; for a new stream the running endpoint too |
| RegistrySteps.FinishRemove | src/node.cpp:2915-2963 | the steps of a remove add up to the removal, or under shutdown to a cache removal that leaves orphans |
| RegistrySteps.RefitStep | src/node.cpp:3958-4022 | rebuilding one more stream on new interfaces keeps those already rebuilt, every running endpoint and the agreement |
| RegistrySteps.RefittedBuilt | src/node.cpp:3958-4022 | after a rebuild of every stream each is published, staged and constrained as its cached configuration says on the new interfaces |
| RegistrySteps.ClockedValid | src/node.cpp:2393-2405 | setting the clock keeps the registry consistent, the published clock id well formed and the domain in 0..127 |
| RegistrySteps.ActivationLegs | src/node.cpp:1224-1275 | an activation never turns redundancy on or off, so leg counts stay right |
| RegistrySteps.ThreeKinds | src/node.cpp:1224-1275 | looking the id up in all three caches of a direction edits and reports at most the one entry that owns it |
| RegistrySteps.EntryActivatedRecaches | src/node.cpp:1231-1275 | the in-place edit of an entry is a re-caching of it under the same id, and the callback's argument is the stored entry |
| RegistrySteps.RestampedView | src/node.cpp:2449-2518 | re-inserting under another seed changes sender ids only, never what is registered |
| Activations.ReadBackExactly | src/node.cpp:1176-1243 | the activated endpoint can be read back from the cache: as it was exactly when its two enables agree, else with their conjunction |
| Activations.ActivatedTwice | src/node.cpp:1229-1243 | an activation leaves name, redundancy and unseen media alone, and repeated changes nothing more |
| Activations.ReceiverSettles | src/node.cpp:740-772 | a receiver that activates what it published gets back each address and port asked for on each leg, the second leg's defaulting to the first's, and would publish the very same endpoint again |
| Activations.UnresolvedSenderIsIgnored | src/node.cpp:774-806 | a sender is published enabled as configured, its second leg only if both it and the stream are, "auto" throughout, and that endpoint never reaches the caches |
| Activations.LegsMeetTheirConstraints | src/node.cpp:632-638 | each leg is constrained to its own interface's addresses, and a receiver's legs meet that unless no interface has any |
| Activations.PublishedExactly | src/node.cpp:601-630 | what IS-04 says of a stream: its configuration, the links from sender to flow to source, and each leg's interface name in order |
| Activations.ActivationOutcome | src/node.cpp:1145-1500 | which activations throw, which do nothing, and that all others edit and report the cached stream their id names, once |
| Activations.ActivationFilesWhatItSaw | src/node.cpp:305-440 | what was observed in a receiver's transport file is filed field by field, a format only if it could be told; nothing else, and nothing of a sender, changes; the stored entry is the callback's argument |
| RegistryRuns.LegsAgreeThroughout | src/node.cpp:3168-3276 | SMPTE ST 2022-7 over whole runs, operations that threw included: two staged and two active legs if redundant, else one of each, unless a sender's update that was to change redundancy threw |
| RegistryRuns.ThrowingUpdateBreaksLegsExactly | src/node.cpp:3184-3276 | after an update that threw, leg counts are right exactly if it got no further than building or was not to change redundancy; a receiver's never gets further |
| NodeRegistry.Node.InsertNode | src/node.cpp:1942-1980 | a gated insert succeeds exactly when the key is new and no shutdown comes, and changes nothing else |
| NodeRegistry.Node.InsertConn | src/node.cpp:1942-1980 | the same for connection resources |
| NodeRegistry.Node.RemoveNode | src/node.cpp:1982-1998 | a gated removal does nothing under shutdown |
| NodeRegistry.Node.InsertSender | src/node.cpp:2538-2566 | all four resources of a sender are inserted, or those inserted before the failure are taken out again |
| NodeRegistry.Node.InsertReceiver | src/node.cpp:2726-2742 | the same for a receiver's two |
| NodeRegistry.Node.PublishNew | src/node.cpp:2538-2566 | a new stream's resources are all published exactly if no stop arrives; whichever insert failed, both maps are as they were unless the node was shutting down before |
| NodeRegistry.Node.AddNew | src/node.cpp:2533-2580 | returns exactly if the node is up and nothing goes wrong; then exactly this stream is published, listed and cached, and else nothing changed but a shutdown that came |
| NodeRegistry.Node.Add | src/node.cpp:2520-2833 | add or, if the stream is there, update; all or nothing for a new stream; only this stream's resources move; on a node that is up it throws only if a build, insert or transport file failed |
| NodeRegistry.Node.Update | src/node.cpp:3755-3907 | update or, if the stream is not there, add; the cache changes only when nothing threw, and it throws only as add does; an updated sender's transport file was made anew |
| NodeRegistry.Node.Remove | src/node.cpp:2835-3116 | exactly this stream goes, from cache, lists, maps and device; an unknown id is a no-op; under shutdown, which is up exactly if it was or arrived meanwhile, the cache entry goes all the same |
| NodeRegistry.Node.RefreshTransportFiles | src/node.cpp:2408-2427 | returns exactly if no file throws, and then every listed sender's file was made anew of what is published now; nothing but files changes, however far it gets |
| NodeRegistry.Node.SetRuntimeInterfaces | src/node.cpp:3958-4042 | every cached stream is republished, staged and constrained for the new interfaces from its own configuration, no running endpoint is lost, every file is made anew; on a node that is up it throws only if something failed |
| NodeRegistry.Node.SetPtpClock | src/node.cpp:2393-2428 | the clock is published normalised or left alone, out-of-range domains become 127, every sender's file is made anew; throws exactly if one of them does |
| NodeRegistry.Node.OnActivated | src/node.cpp:1145-1500 | an activation edits at most the one cached entry its id names and fires at most that entry's callback; a sender with a port out of range changes nothing, a receiver with one that is no number throws |
| NodeRegistry.Node.Activate | src/node.cpp:1145-1500 | with the new active endpoint in place first, the registry stays consistent and leg counts right |
| NodeRegistry.Node.InitDevice | src/node.cpp:2332-2391 | after a reset, exactly node and device are published under the seed configured, or, exactly if something fails, the node at most; interfaces that are set stay, the host's are adopted only where none are |
| NodeRegistry.Node.ReinsertCached | src/node.cpp:2449-2518 | exactly the cached streams are back, in order, fully published; if adding one throws, the node is in order with exactly those before it and the rest are gone |
| NodeRegistry.Node.Restart | src/node.cpp:2332-2518 | from whatever a stop left, even under a new seed, exactly if nothing fails the whole invariant holds again with the same streams, each published, staged, constrained and running as cached on the interfaces that were set, or the host's if none were; a failure leaves the caches unpublished or a part re-added |
| ReconcileModel.OrderDoesNotMatter | src/daemon/reconcile_engine.cpp:42-70 | actions taken in any order covering the plan land in one place |
| ReconcileModel.DiffEqualsRebuild | src/daemon/reconcile_engine.cpp:32-71 | the incremental diff lands where clearing and registering everything would |
| ReconcileModel.LandsExactly | src/daemon/reconcile_engine.cpp:32-71 | for any registry: lands on the new list if and only if no unknown id is registered and every unchanged item is registered that way |
| ReconcileModel.ForgottenSnapshotExactly | src/daemon/app.cpp:205-222 | with the last snapshot forgotten, lands if and only if every stream kept is in the new list |
| ReconcileModel.RetryConverges | src/daemon/reconcile_engine.cpp:32-71 | from any state between the two lists, the plan lands where an undisturbed run does |
| ReconcileModel.OtherSnapshotExactly | src/daemon/app.cpp:410-443 | after a run cut short, retrying with another snapshot lands on it exactly when no action already taken is invisible to the new diff |
| ReconcileModel.OtherSnapshotCanLoseAStream | src/daemon/app.cpp:410-443 | an input where it does not: a stream both snapshots list stays missing |
| ReconcileEngine.MakeMap | src/daemon/reconcile_engine.cpp:13-20 | the map holds each id's first item |
| ReconcileEngine.ReconcileList | src/daemon/reconcile_engine.cpp:32-71 | on the real node, for any map order: each planned id acted on once, nothing else touched; after a throw, exactly the ids acted on are as planned; on a node that is up, if nothing fails it returns with all of them done |
| ReconcileEngine.PrepareClockAndDevices | src/daemon/reconcile_engine.cpp:73-82 | clock and interfaces are left entirely alone unless they differ, and caches in any case |
| ReconcileEngine.ApplySnapshot | src/daemon/reconcile_engine.cpp:73-149 | each kind ends as the overlay of the plan, or between old and planned if something threw, which on a node that is up takes a failure; at most one action per stream; leg counts stay right and streams published as cached |
| ReconcileEngine.AppliedSettings | src/daemon/reconcile_engine.cpp:73-82 | a successful apply has adopted the new snapshot's interfaces and published its clock, normalised, with the selected lock state and domain; settings both snapshots share are as they were |
| ReconcileEngine.AppliedIsPublished | src/daemon/reconcile_engine.cpp:73-149 | after a successful apply with new interfaces, or from a node that published every stream as cached, each stream acted on is published, staged and constrained as the new snapshot configures it |
| ReconcileEngine.UnchangedStreamUndisturbed | src/daemon/reconcile_engine.cpp:42-70 | streams both snapshots list alike keep every resource, running endpoint and transport file, even if the apply throws |
| ReconcileEngine.InterruptedApplyConverges | src/daemon/reconcile_engine.cpp:73-149 | any number of applies cut short, then one that is not, registers what one undisturbed apply would |
| ReconcileEngine.DrainAll | src/daemon/reconcile_engine.cpp:151-175 | exactly the snapshot's ids go, repeated or unknown ones included |
| ReconcileEngine.DrainUndoesApplyCompletely | src/daemon/reconcile_engine.cpp:151-175 | apply to an empty registry and drain: nothing is left but node and device |
| SyncState.StateStore.MarkApplySuccess | src/daemon/state_store.cpp:44-55 | a successful apply sets both revisions, even backwards, files the snapshot, ends protection mode and leaves an owed notification |
| SyncState.StateStore.MarkDrainedDueToWsDisconnect | src/daemon/state_store.cpp:57-62 | a drain raises protection mode and owes the peer one notification |
| SyncState.StateStore.ConsumePendingDrainNotification | src/daemon/state_store.cpp:134-139 | that notification is handed out once |
| SyncState.SyncRequest.Schedule | src/daemon/app.cpp:341-360 | an old revision is dropped only if nothing forces it and nothing is known to be missing; accepting one cancels a retry delay |
| SyncState.ScheduledExactly | src/daemon/app.cpp:341-360 | a newer, forced or needed revision always leaves a request for at least it, any other leaves the request as it was |
| SyncState.SyncRequest.Take | src/daemon/app.cpp:392-396 | taking the request clears all of it |
| SyncState.SyncRequest.Repend | src/daemon/app.cpp:428-437 | a failure asks again for at least the revision that failed, after the reconnect interval |
| App.Daemon.OnSnapshotChanged | src/daemon/app.cpp:249-259 | undisturbed, every signal gets its sync, whatever its revision |
| App.Daemon.PerformSync | src/daemon/app.cpp:403-443 | success files snapshot and revision, ends protection mode and makes registry and status agree; failure leaves the store alone and asks again; with a snapshot fetched and the node up, it fails only if a node operation does |
| App.Daemon.HandleWsConnected | src/daemon/app.cpp:445-454 | connecting asks for a sync of the last revision seen, at least 1, which is dropped only if nothing is missing; the drain notification is handed out once |
| App.Daemon.HandleWsDisconnected | src/daemon/app.cpp:456-463 | exactly the last snapshot's streams go, so none is left if and only if no other was registered; from a coherent state none is left and the status says so |
| App.Daemon.RestartNodeRuntime | src/daemon/app.cpp:205-222 | a settings-driven restart forgets the snapshot while the node keeps every stream and its interfaces, or a part of the streams if its initialisation failed; a sync is asked for exactly if start() returned true, which it may although initialisation failed |
| App.ApplyAfterRestartExactly | src/daemon/app.cpp:205-222 | the next apply then lands on its snapshot if and only if that has every stream kept; one it lacks is never removed |
| App.CoherentAfterApply | src/daemon/app.cpp:410-415 | registered ids that were the old snapshot's become the new one's, and the status flag is right |
| AppMachine.SystemAlways | src/daemon/app.cpp:403-463 | the lock discipline and, unless an operation threw, the registry invariant hold in every state of every interleaving |
| AppMachine.RegistryFollowsSnapshot | src/daemon/app.cpp:403-463 | in every run in which no node operation threw, whenever the reconcile lock is free the registered ids are the last snapshot's and the status flag is right |
| AppMachine.CallerMoves | src/daemon/app.cpp:249-259 | how far one callback can get in one step, and what each stage guarantees |
| AppMachine.ForceStep | src/daemon/app.cpp:392-396 | only taking the request clears `force`, and the sync it begins is later than every signal so far |
| AppMachine.CoveredStep | src/daemon/app.cpp:362-443 | no step uncovers a signal: not a take, a failure, a success or a dropped revision |
| AppMachine.SignalsAlways | src/daemon/app.cpp:249-443 | every signal is accounted for in every state of every interleaving until the daemon stops |
| AppMachine.NoSignalLost | src/daemon/app.cpp:249-443 | a signal whose callback has finished has a sync pending or under way, or an apply succeeded whose fetch began after it |
| StoreHistory.StatusTells | src/daemon/state_store.cpp:29-72 | in every run, whatever threw: protection mode is on exactly if a drain was marked since the last successful sync, a notification is owed exactly if one was since the last was asked for, the applied revision is the last successful sync's or zero, and so each other field by the latest deed that bears on it |
| AppRefinement.ApplyIsASetOfActs | src/daemon/reconcile_engine.cpp:73-149 | what the engine does to the node, the machine does to its map by planned actions: all of them on success, some on a throw |
| AppRefinement.AnyActsCanHappen | src/daemon/reconcile_engine.cpp:42-70 | any part of the planned actions is what some continuation of the machine's run carries out |
| AppRefinement.ApplyIsARun | src/daemon/reconcile_engine.cpp:73-149 | so whatever the engine does to the real node, returning or throwing, some run of the machine does to its map |
| AppRefinement.ApplySettlesTheNode | src/daemon/app.cpp:410-415 | and the machine's invariant holds of the real node: as long as nothing threw, a successful apply leaves exactly the new snapshot's ids |
| AppRefinement.DrainIsRemoval | src/daemon/reconcile_engine.cpp:151-175 | drain_all takes from the node what the machine's drain takes from the map |
| AppRefinement.DrainIsARun | src/daemon/reconcile_engine.cpp:151-175 | and some run of the machine does it |
| AppRefinement.ActivationIsActivates | src/node.cpp:1231-1275 | an activation of the real node is at most one entry's change of the map |
| SyncTiming.WantedIsMaximum | src/daemon/app.cpp:351-355 | the coalesced revision is the maximum, floored at zero, of those asked for since the last take |
| SyncTiming.TimingAlways | src/daemon/app.cpp:362-443 | request, loop and clock agree with the history in every state of every interleaving |
| SyncTiming.EverySyncIsSound | src/daemon/app.cpp:362-401 | each sync gets the largest revision asked for, starts no sooner than the debounce time after the first request it serves, and is a retry exactly if nothing came since the failure, then no sooner than the reconnect interval |
| SyncTiming.NegativeDebounceNeverSyncs | src/daemon/app.cpp:370-376 | below zero the deadline always lies before the last signal, so no run contains a sync |
| SyncProgress.PendingSyncCanBeginExactly | src/daemon/app.cpp:362-443 | until a stop is requested, from wherever sync thread and drain have got to, a run with a request waiting can be continued to a sync for it if and only if the debounce setting is not negative |
| Lifecycle.InvAlways | src/node.cpp:1002-1077 | caller, worker and flags fit together in every interleaving of one caller and the worker |
| Lifecycle.OneWorker | src/node.cpp:2224-2278 | never two live workers, and each but the present one joined |
| Lifecycle.StopRequestStands | src/node.cpp:2144-2153 | a stop request is not cleared before the worker has passed its wait and exited |
| Lifecycle.StartReportsRunning | src/node.cpp:2224-2278 | returning at once or after waiting, start returns true exactly on seeing the node running, and then its worker is past its set-up with no stop requested |
| Lifecycle.StopIsComplete | src/node.cpp:1032-1070 | a stop that returned leaves the node stopped, no thread, no request and a model reset due |
| Lifecycle.ShutdownStands | src/node.cpp:2241-2252 | only a later start lowers the shutdown flag |
| PtpClock.NormalizePtpGmid | src/node.cpp:471-507 | the loop computes the normal form |
| PtpClock.NormalizeYieldsValid | src/node.cpp:471-507 | a normal form is empty or valid, for every string |
| PtpClock.ValidExactlyNormal | src/node.cpp:445-507 | a string is valid exactly when it is non-empty and its own normal form |
| PtpClock.NormalizeIdempotent | src/node.cpp:471-507 | normalising twice is normalising once |
| GmidForm.NormalizesToExactly | src/node.cpp:471-507 | a string normalises to a given well-formed id exactly if it is that id's digits, in either case, with any colons, dashes and white space anywhere |
| PtpClock.FirstEntries | src/daemon/dto.cpp:713-750 | the entry a selector reads is the first that qualifies: it does, and nothing before it does |
| PtpClock.FirstEntryDecides | src/daemon/dto.cpp:713-750 | lock state and domain are the first usable entry's, 127 for a domain that is none; with no usable entry unlocked and 127; the id is the first named entry's or empty |
| PtpClock.EffectiveGmid | src/daemon/dto.cpp:713-724 | the id of the first usable entry that has one |
| PtpClock.EffectiveLocked | src/daemon/dto.cpp:726-736 | the lock state of the first usable entry |
| PtpClock.EffectivePtpDomain | src/daemon/dto.cpp:738-750 | the domain of the first usable entry, 127 if out of range or none |
| PtpClock.SelectorsAgreeExactly | src/daemon/dto.cpp:713-750 | id and lock state come from different entries exactly when the first usable entry has no id and a later one has |
| PtpClock.NamedExactly | src/daemon/dto.cpp:713-724 | an id is published exactly when some usable entry has one |
| JsonMerge.MergeObjects | src/daemon/app.cpp:116-137 | the loop over a copy computes the merge; it throws exactly when base or patch is no object or a null names a member the base object lacks |
| JsonMerge.ThrowsExactly | src/daemon/app.cpp:116-137 | on objects it throws exactly when the patch asks to delete, from an object the base has, a member that is not in it |
| JsonMerge.MergeIsMergePatchExactly | src/daemon/app.cpp:116-137 | the merge succeeds with the result of MergePatch, section 2 of RFC 7396, exactly when no null of the patch is missing its member in the base or stranded where the base has no object |
| JsonMerge.MergeIsMergePatchByPaths | src/daemon/app.cpp:116-137 | in one condition: exactly when the base has every member, at whatever depth, that the patch asks to delete |
| JsonMerge.MergeIdempotentExactly | src/daemon/app.cpp:116-137 | after a merge succeeded, the same patch succeeds again and changes nothing exactly when it holds no null |
| JsonMerge.NoNullsNoTrouble | src/daemon/app.cpp:116-137 | a patch without nulls always succeeds on an object, with the result of MergePatch |
| JsonMerge.UnnamedUnchanged | src/daemon/app.cpp:116-137 | what the patch does not name stays as it is, at every depth |
| JsonMerge.NamedIsSet | src/daemon/app.cpp:116-137 | what it sets is set, at every depth |
| JsonMerge.NullIsGoneExactly | src/daemon/app.cpp:116-137 | in a merge that succeeded, what a null names is gone at every depth if the base had it, and otherwise is there as a null |

## Left out

- UUID hashing of resource paths: taken to be injective on seed and path, so an id is kept as its seed and its (type, port, id).
- nmos-cpp itself: inserting, erasing and modifying resources are map operations; the connection API changes what a leg holds, never how many there are; resources are built as `make_connection_rtp_sender` and its kind document it.
- Transport files, SDP and resource contents beyond links, interfaces and endpoints: a file is whatever the `World` makes, at that moment, of the published resources, the running endpoint and the PTP domain.
- NodeRegistry.Node.OnActivated: takes what a receiver reads from its transport file as an input, because SDP parsing is nmos-cpp's, and takes the text fields of a transport parameter to be texts.
- The six vectors of the node and of a snapshot: one field indexed by kind.
- Node operations are atomic and start after initialisation; the existence check taken before the lock is not interleaved with other calls.
- Callbacks are taken to be set.
- `packet_time` is a real number, so a NaN that differs from itself is not modelled.
- Texts for humans (daemon state, node state, last error) and the registry status.
- JSON objects hold each member once; erasing an absent one throws, as the C++ REST SDK documents of `object::erase`.
- Messages sent over the WebSocket, the WebSocket and HTTP clients, the debug server, configuration and file reading, mDNS discovery, interface enumeration.
- Settings-driven restarts are in `App` but not among the steps of `AppMachine`, whose registry invariant they break as `ApplyAfterRestartExactly` says.
- The ends of `run` and `App::stop`: the machine only knows that a stop was requested and the sync loop may end.
- The sync loop's steps stay possible in `AppMachine` after a stop was requested, since one may fall between a test and what follows it; what is said to be possible is said only where none was.
- Concurrent callers of `start` and `stop`: one controlling caller, as the daemon has.
- AppMachine.RegistryFollowsSnapshot: does not cover runs in which a node operation threw, because the registry may then lie between two snapshots; `InterruptedApplyConverges` and `OtherSnapshotExactly` say what follows.
- The clock is positive and the reconnect interval does not reach back before its epoch, as the code's use of a zero time point presumes.
- Exceptions not derived from `std::exception`.
- The video format table, caps, and sampling and bit-depth switches: finite tables.
- Reading and writing snapshots as JSON: field by field, and the two shapes differ.
