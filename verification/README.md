# Verified model of the Perses operator

The Perses operator runs Perses servers in a Kubernetes cluster and copies dashboards, datasources
and global datasources into them. This project models the parts of it that carry a protocol, a
history or a translation, and proves what those parts promise.

Verify everything with `dafny verify dfyconfig.toml` (Dafny 4.11).

## How it is laid out

- **Child controllers.** `Backend` is one Perses server seen through its API, `InstanceSync` the
  synchronisation of one resource into one instance for every pattern of answers, `FleetSync` the
  loops over all instances, `Fleet` the same loops as a class that sends request by request and
  changes the servers in place. `ChildReconcile` is one whole reconciliation with its status.
- **The protocol around them.** `SyncProtocol` is a controller as a step system: API server, late
  informer, work queue, reconciles in flight, instances coming and going, one server each.
  `NoLostSyncProof` proves the invariant over every run, `SyncLimits` shows exactly where it ends,
  `Selection` says what a selector selects and where a resource therefore is, `NoLostDeletion` is the
  counterpart for removals, `Convergence` shows its
  progress and what keeps it going for ever. `Controller` adds the status writes, by which the operator
  triggers itself, and proves that it comes to rest all the same. `MapSums` serves it and `Metrics`.
- **Status.** `Conditions` sets conditions, `StatusRetry` is the get, change, compare, write, retry
  loop against a server with other writers, `StatusLinks` ties it to the one-step updates that the
  other modules use; `Subreconciler` is the result pair of one step.
- **Client cache.** `ClientCache` holds the sections under the lock, `CacheProtocol` interleaves any
  number of goroutines, `Fingerprint` is the string the cache compares.
- **Perses controller.** `PersesChain` is the chain of ten steps with its faults, `PersesRunner` the
  same as a class with one shared annotations map, `PersesRuns` the exact outcome of a run that
  reaches its last step, `PersesOutcomes` the promises about it, `PersesFrame` what no run touches, `PersesQuiet`
  how many runs it takes. `Provisioning` is the recorded list of secret versions.
- **API conversion.** `V1alpha1` and `V1alpha2` (in `ApiTypes.dfy`), `Conversion` (functions),
  `Converters` (methods that write out parameters), `ConversionLaws`.
- **Derived structures.** `VolumeNames`, `Volumes`, `Metrics`; `Paths` and `Sequences` serve them.

Methods are specified by functions, and the lemmas are about those functions. Requests that may
fail, clocks, digests and the choices of other clients are parameters, so every statement holds for
all of them.

## Where the code and its descriptions differ

- The availability predicate is described as firing "or is deleted"; the code ignores deletions
  (internal/perses/common/constants.go:210-229). The model ignores them too.
- A Deployment for SQL beside a file database without an emptyDir mounts a claim that the operator
  does not create (`Volumes.DeploymentNeedsAClaimIff`).
- `GetSecretVolumeName` is described as returning a valid volume name; `VolumeNames.ValidIff` gives
  the exact condition and `VolumeNames.AnInvalidName` an input.
- The key of a provisioning secret is not checked for slashes, so it can lead a mount out of its
  directory (`Volumes.EscapingKey`).
- Delays asked for by sub-reconcilers never reach the work queue (`PersesRuns.RunsReportErrorsNotDelays`).
- A selector that cannot be parsed is reported as an error of the run but not in the status
  (`ChildReconcile.BadSelectorIsNotReported`).
- A resource that failed and then synced is counted in both states (`Metrics.CountedTwice`).

## Model

| member | source | states |
|---|---|---|
| `InstanceSync.SyncSettles` | controllers/dashboards/dashboard_controller.go:89-179 | a synchronisation that continues leaves the current copy (and the project) on the instance; without faults it always continues |
| `InstanceSync.SyncFrame` | controllers/datasources/datasource_controller.go:92-194 | whatever fails, a synchronisation changes at most the resource's own object, its own secret and the missing project |
| `InstanceSync.NonInterference` | controllers/datasources/datasource_controller.go:348-379 | two different resources never change each other's object or secret |
| `Backend.SecretNamesDistinct` | controllers/datasources/datasource_controller.go:198-205 | distinct datasources have distinct "-secret" objects |
| `Backend.KindsAre` | controllers/globaldatasources/globaldatasource_controller.go:90-166 | which kinds live in a project, which may need a secret, and how that is called |
| `InstanceSync.SettledIsSilent` | controllers/dashboards/dashboard_controller.go:133-144 | a resource in sync is only read, whatever the answers |
| `InstanceSync.RejectedWritesNeither` | controllers/datasources/datasource_controller.go:152-165 | without an accepting validation neither object nor secret is written |
| `InstanceSync.SecretFirst` | controllers/datasources/datasource_controller.go:167-190 | an object that needs credentials is sent only after the same call stored its secret |
| `InstanceSync.CredentialsCurrentIff` | controllers/datasources/datasource_controller.go:146-150 | after a fault-free call the stored credentials are current exactly if the object was out of sync or they already were |
| `InstanceSync.SyncCallsFit` | controllers/datasources/datasource_controller.go:167-190 | every request concerns the resource itself; creations are sent only where nothing is, updates only where something is, for object, secret and project alike, and nothing is deleted |
| `InstanceSync.FaultFreeCalls` | controllers/datasources/datasource_controller.go:92-194 | without faults the requests are exactly these, in this order |
| `InstanceSync.LostRepliesLand` | controllers/dashboards/dashboard_controller.go:159-174 | a write whose reply is lost is there although it is reported as failed |
| `InstanceSync.ReasonsAre` | controllers/dashboards/dashboard_controller.go:89-175 | exactly which fault gives which reason |
| `InstanceSync.DeleteClears` | controllers/datasources/datasource_controller.go:404-452 | deletion that continues leaves neither object nor secret; without faults it continues exactly if the project exists |
| `InstanceSync.DeleteFrame` | controllers/globaldatasources/globaldatasource_controller.go:387-427 | deletion removes nothing but the object and its secret |
| `InstanceSync.DeleteCalls` | controllers/datasources/datasource_controller.go:404-452 | the requests of a deletion in their order, and the reasons it can fail for |
| `InstanceSync.DeleteAgain` | controllers/dashboards/dashboard_controller.go:204-233 | deletion repeated changes nothing |
| `FleetSync.SyncAllStopsAtFirstFailure` | controllers/dashboards/dashboard_controller.go:76-87 | complete description of the loop from the initial servers: it passes the instances before the first available one that fails, with that outcome, touching no others |
| `FleetSync.SyncAllInSync` | controllers/dashboards/dashboard_controller.go:76-87 | all passed available instances in sync, later ones untouched, unavailable ones never contacted |
| `FleetSync.UnlistedUntouched` | controllers/dashboards/dashboard_controller.go:49-74 | instances that are not selected keep their copies: narrowing a selector deletes nothing |
| `FleetSync.SettledSweepIsSilent` | controllers/datasources/datasource_controller.go:79-89 | a sweep over settled instances writes nothing |
| `FleetSync.SecondPassWritesNothing` | controllers/globaldatasources/globaldatasource_controller.go:77-87 | a pass after a successful one writes nothing, whatever the instances answer |
| `FleetSync.DeleteAllClears` | controllers/datasources/datasource_controller.go:381-402 | deletion stops at the first failing instance with all earlier ones clean and all later ones untouched; without an error all are clean |
| `FleetSync.DeleteAllAgain` | controllers/globaldatasources/globaldatasource_controller.go:363-385 | deletion where nothing is left and projects exist succeeds and changes nothing |
| `FleetSync.RepeatedDeletionIsIdle` | controllers/datasources/datasource_controller.go:381-452 | repeating a successful deletion succeeds and changes nothing |
| `Fleet.PersesFleet.SyncProject` | controllers/dashboards/dashboard_controller.go:96-120 | the requests and changes of the project step are those of the specification |
| `Fleet.PersesFleet.SyncSecret` | controllers/datasources/datasource_controller.go:348-379 | the same for the secret step |
| `Fleet.PersesFleet.StoreObject` | controllers/datasources/datasource_controller.go:167-194 | the same for secret, then object |
| `Fleet.PersesFleet.SyncStored` | controllers/datasources/datasource_controller.go:138-194 | the same for get, compare, validate, store |
| `Fleet.PersesFleet.SyncInstance` | controllers/globaldatasources/globaldatasource_controller.go:90-166 | the same for one whole instance, with or without a project |
| `Fleet.PersesFleet.SyncInAllInstances` | controllers/dashboards/dashboard_controller.go:76-87 | the loop with early return ends with the servers, the requests and the outcome of `SyncAll` |
| `Fleet.PersesFleet.DeleteFromInstance` | controllers/datasources/datasource_controller.go:404-452 | the requests and changes of one deletion |
| `Fleet.PersesFleet.DeleteInAllInstances` | controllers/dashboards/dashboard_controller.go:181-202 | the deletion loop ends as `DeleteAll` says |
| `ChildReconcile.ChildController.ReconcileInAllInstances` | controllers/dashboards/dashboard_controller.go:41-87 | selector, list and loop with their status reports end as the specification says |
| `ChildReconcile.ChildController.ReconcilePresent` | controllers/dashboards/persesdashboard_controller.go:104-141 | the three steps end with the specified servers, requests, conditions, number of status writes and error, for every way in which the status updates may end |
| `ChildReconcile.ChildController.ReconcileAbsent` | controllers/dashboards/dashboard_controller.go:181-202 | a custom resource that is gone is deleted from the listed instances, with the error of the first that fails |
| `ChildReconcile.ChildController.Reconcile` | controllers/dashboards/persesdashboard_controller.go:70-141 | present, absent or unreadable: the effect on servers, requests and status and the error reported, always with a result and never with a delay |
| `ChildReconcile.StatusIsTrue` | controllers/datasources/persesdatasource_controller.go:70-233 | with a well-formed selector and a status that goes through, Available is True exactly on success, Degraded exactly on failure, and Available means every available selected instance holds the current copy |
| `ChildReconcile.BadSelectorIsNotReported` | controllers/dashboards/dashboard_controller.go:49-59 | a selector that cannot be parsed leaves the old status, or a status begun and saying neither; no request is sent |
| `ChildReconcile.StatusSays` | controllers/dashboards/persesdashboard_controller.go:179-229 | status, reason and message of both conditions after each way a reconciliation can end, word for word |
| `ChildReconcile.RemovedIs` | controllers/dashboards/dashboard_controller.go:181-202 | a deletion that cannot list the instances fails and changes nothing; one that goes through leaves none of them with anything of the resource |
| `ChildReconcile.StatusTellsIff` | controllers/dashboards/dashboard_controller.go:41-87 | the status tells the outcome exactly if the selector is well formed or the old status was degraded and not available |
| `ChildReconcile.UnwrittenStatus` | controllers/dashboards/persesdashboard_controller.go:143-177 | if the first status does not go through nothing else happens, an error is reported exactly if the update failed, and the status changes only if the failed write landed |
| `ChildReconcile.Quiescence` | controllers/dashboards/persesdashboard_controller.go:104-141 | a reconciliation after a successful one with nothing changed succeeds, only reads, and writes no status |
| `ChildReconcile.RepeatedFailureIsQuiet` | controllers/globaldatasources/persesglobaldatasource_controller.go:200-233 | failing again for the same reason writes no status |
| `NoLostSyncProof.StepKeepsInv` | controllers/dashboards/dashboard_controller.go:49-87 | every step of users, informer, instances, queue and reconciles keeps the invariant |
| `NoLostSyncProof.RunKeepsInv` | controllers/dashboards/persesdashboard_controller.go:231-255 | so does every run |
| `NoLostSyncProof.NothingIsLost` | internal/perses/common/constants.go:171-229 | in every reachable state each available selected instance holds the current copy, or a reconcile is due, or one on the current reading has the instance still ahead |
| `NoLostSyncProof.RestMeansInSync` | controllers/datasources/persesdatasource_controller.go:231-255 | whenever the queue has drained everything is in sync |
| `NoLostSyncProof.VisitDelivers` | controllers/datasources/datasource_controller.go:92-194 | a visit without faults leaves the document that was read and, where the client needs them, the credentials |
| `Selection.SelectorMeans` | controllers/dashboards/dashboard_controller.go:49-59 | a missing selector selects every instance, any other exactly those whose labels fulfil every requirement, spelled out on the labels |
| `Selection.ListedAre` | controllers/dashboards/dashboard_controller.go:61-68 | a reconcile lists exactly those instances |
| `Selection.ListFailsIff` | controllers/dashboards/dashboard_controller.go:53-74 | the list fails, to be retried, exactly if it is empty or a requirement is not well formed |
| `Selection.WhereItIsAtRest` | controllers/dashboards/dashboard_controller.go:49-87 | whenever the queue has drained, a resource without a selector is on every available instance, and one with requirements on every available instance that fulfils them |
| `SyncLimits.FirstSeenAvailable` | internal/perses/common/constants.go:214-218 | an instance first seen available loses syncs exactly if its server lacks a wanted copy |
| `SyncLimits.InstanceUpdate` | internal/perses/common/constants.go:173-187 | exact condition under which an update of an instance loses nothing: it becomes available and the list succeeds, or its server has all wanted copies |
| `SyncLimits.OutsideWrite` | internal/perses/common/sync.go:25-42 | an outside write to a server loses no sync exactly if every wanted copy that nobody is about to write is still held |
| `SyncLimits.RelabellingLosesASync` | internal/perses/common/constants.go:173-187 | a run that comes to rest after which relabelling an available instance loses a sync for good |
| `Controller.StepKeepsInv` | controllers/dashboards/persesdashboard_controller.go:104-229 | every step, with the status write that goes with it and the delivery that write will cause, keeps the no-lost-sync invariant and the account of the status: each present resource is due, in process, or its status says reconciled |
| `Controller.RunKeepsInv` | controllers/dashboards/persesdashboard_controller.go:246-255 | so does every run, faults and restarts included |
| `Controller.RestMeansReconciled` | controllers/dashboards/persesdashboard_controller.go:179-198 | whenever the queue has drained, after any faults, every resource says it is reconciled and every available instance it selects holds its current copy |
| `Controller.BeginAndEndAreTold` | controllers/dashboards/persesdashboard_controller.go:179-198 | what reading and finishing write to the status, word for word |
| `Controller.FailuresAreTold` | controllers/dashboards/persesdashboard_controller.go:200-229 | an empty list and each failure of an instance are written with their reason and text |
| `Controller.MissingInstancesAreTold` | controllers/dashboards/dashboard_controller.go:65-74 | so are a list that fails and an instance that is gone |
| `Controller.NewObjectsHaveNoStatus` | controllers/dashboards/persesdashboard_controller.go:179-187 | a new or removed object has no status, a changed one keeps it |
| `Controller.BudgetDrops` | controllers/dashboards/persesdashboard_controller.go:179-198 | each status write of a good run uses up one of at most two: beginning the status and completing it |
| `Controller.QuietMovesDescend` | controllers/dashboards/persesdashboard_controller.go:104-141 | each fault-free step of informer or operator strictly lowers a measure, although its status writes make the resource due again |
| `Controller.QuietRunsAreBounded` | controllers/dashboards/persesdashboard_controller.go:104-141 | no fault-free run, the operator's own status writes and their deliveries included, is longer than that measure |
| `Controller.Converges` | controllers/dashboards/dashboard_controller.go:41-87 | from any state where every due resource can be placed and every due deletion done, fault-free steps lead to rest with everything in sync and every status saying so |
| `Controller.MaximalRunsRest` | controllers/dashboards/dashboard_controller.go:41-87 | every fault-free run that cannot be continued has come to rest in that way, so no choice of steps avoids it |
| `Convergence.UnplaceableNeverRests` | controllers/dashboards/dashboard_controller.go:49-74 | a due resource that no instance can take stays due or in process in every state of every run, faults and restarts included, as long as that does not change |
| `Controller.DrainsIff` | controllers/dashboards/dashboard_controller.go:41-87 | with nothing in flight and due deletions possible, fault-free steps drain the queue exactly if every due resource can be placed |
| `Convergence.MissingProjectNeverRests` | controllers/datasources/datasource_controller.go:412-418 | a due deletion stays due or in process in every state of every run without a restart in which some instance lacks the project |
| `NoLostDeletion.StepKeepsInv` | controllers/dashboards/dashboard_controller.go:181-233 | every step of every kind, restarts and outside writes included, keeps the account of removed resources |
| `NoLostDeletion.NoDeletionIsLost` | controllers/dashboards/persesdashboard_controller.go:80-95 | in every state of every run the object or the secret of a removed resource has its deletion due, or under way with that instance ahead, or came after the deletion had listed the instances, or was there at a restart |
| `NoLostDeletion.LeftBehind` | controllers/dashboards/dashboard_controller.go:181-202 | once the queue has drained only the last two kinds are left, and nothing will look for them |
| `NoLostDeletion.RestartForgets` | controllers/dashboards/persesdashboard_controller.go:246-255 | a restart loses no deletion exactly if no instance holds the object or the secret of a removed resource |
| `Conditions.SetMeans` | controllers/dashboards/persesdashboard_controller.go:179-229 | setting a condition gives it its status, reason and message, keeps all others and keeps kinds unique |
| `Conditions.UnknownShows` | controllers/dashboards/persesdashboard_controller.go:179-187 | the first update leaves exactly one condition, Available with status Unknown, on an empty status and touches no other |
| `Conditions.CompleteShows` | controllers/dashboards/persesdashboard_controller.go:189-198 | status, reason and messages after completion |
| `Conditions.DegradedShows` | controllers/dashboards/persesdashboard_controller.go:200-229 | status, reason and message of both conditions after a failure |
| `Conditions.OthersStay` | controllers/dashboards/persesdashboard_controller.go:179-229 | conditions of other kinds stay |
| `Conditions.ApplyKeepsSound` | controllers/datasources/persesdatasource_controller.go:179-229 | each status update keeps the conditions sound |
| `Conditions.HistoriesAreSound` | controllers/dashboards/persesdashboard_controller.go:179-229 | every history of updates from sound conditions ends in sound ones |
| `Conditions.ReachableConditions` | controllers/dashboards/persesdashboard_controller.go:179-229 | after any history kinds are unique, Available is True exactly if Degraded is present and False, and both are never True |
| `Conditions.TransitionTimes` | controllers/globaldatasources/persesglobaldatasource_controller.go:179-229 | a transition time moves exactly when that status changes, and then to the present |
| `Conditions.RepeatedUpdateIsIdle` | controllers/dashboards/persesdashboard_controller.go:179-229 | repeating an update at any later time changes nothing |
| `Conditions.AvailableAndDegraded` | controllers/perses/perses_controller.go:315-338 | the volume check leaves a Perses both available and degraded exactly if it was available |
| `Conditions.SnapshotConditions` | internal/perses/common/status.go:24-30 | the snapshot is a copy in fresh storage |
| `Conditions.SetCondition` | controllers/dashboards/persesdashboard_controller.go:179-229 | a condition present is changed in place, a new one is appended in fresh storage |
| `Conditions.SetAndCompare` | internal/perses/common/status.go:24-34 | snapshot, change, compare: a change is seen exactly when there is one, in place or appended |
| `StatusRetry.AttemptRefines` | controllers/dashboards/persesdashboard_controller.go:154-165 | one attempt, with any interference and any lag of the read, adds at most one own change, atomic and last; a skipped write means the version read is left as it is |
| `StatusRetry.StaleWrites` | controllers/dashboards/persesdashboard_controller.go:154-165 | a write lands only on the version it was computed from; otherwise it is a conflict, or not found if the object is gone |
| `StatusRetry.RetryRefines` | controllers/datasources/persesdatasource_controller.go:143-177 | so does any number of attempts |
| `StatusRetry.UncachedRetry` | controllers/dashboards/persesdashboard_controller.go:154-165 | with reads that bypass the cache, a skipped write was decided on the present version, and giving up takes as many foreign changes as attempts |
| `StatusRetry.UpdateIsAtomic` | controllers/dashboards/persesdashboard_controller.go:143-177 | every status write that lands is the update applied to exactly the version it replaces, and a write is skipped only if the update leaves the version last read unchanged, which without a cache is the present one |
| `StatusRetry.ApiServer.TryOnce` | controllers/perses/perses_controller.go:185-196 | the attempt as it runs, reading through a cache that may lag |
| `StatusRetry.ApiServer.UpdateOnConflict` | controllers/perses/perses_controller.go:174-208 | the retry loop as it runs |
| `StatusRetry.WhatWasRead` | controllers/perses/perses_controller.go:210-229 | every version read before the last one had no conditions, and the last one has some exactly if it was left as it is |
| `StatusRetry.PutOffWithoutWritingIff` | controllers/perses/perses_controller.go:217-234 | a run without error is put off without a write exactly if the last version read has conditions and there was an earlier one, or the object vanished after a version without conditions was read |
| `StatusRetry.PutOffIffWritten` | controllers/perses/perses_controller.go:210-237 | without interference and cache a Perses run is put off exactly when the first status was written |
| `StatusRetry.PutOffWithoutWriting` | controllers/perses/perses_controller.go:217-234 | a run of that kind |
| `StatusLinks.ChildStatusIsOneStep` | controllers/dashboards/persesdashboard_controller.go:143-177 | for every interleaving the retry loop is the one-step update of the child controllers: same reply, and the object is what the step makes of the version replaced or kept |
| `StatusLinks.PersesStatusIsOneStep` | controllers/perses/perses_controller.go:174-208 | undisturbed, the retry loop of the Perses controller is its one-step update, lost replies included |
| `ClientCache.ClientFactory.ForgetInstance` | internal/perses/common/perses_client_factory.go:69-76 | the entry is closed and removed |
| `ClientCache.ClientFactory.SweepExpiredLocked` | internal/perses/common/perses_client_factory.go:81-93 | a due sweep closes and removes exactly the expired entries, in any order of iteration |
| `ClientCache.ClientFactory.StoreLocked` | internal/perses/common/perses_client_factory.go:173-191 | recheck, replace, close and sweep |
| `CacheProtocol.StepKeepsInv` | internal/perses/common/perses_client_factory.go:153-192 | every step of any interleaving keeps the cache invariant |
| `CacheProtocol.RunKeepsInv` | internal/perses/common/perses_client_factory.go:69-93 | so does every run, and answers already given stay as they were |
| `CacheProtocol.CacheIsSafe` | internal/perses/common/perses_client_factory.go:139-192 | a returned client was built for the caller's key and fingerprint, a hit was younger than the ttl, no cached client was ever closed, sweeps are a ttl apart, every entry is newer than the last sweep less a ttl |
| `CacheProtocol.LookupAnswersIff` | internal/perses/common/perses_client_factory.go:139-169 | the first section answers with the cached client exactly if that has the key, the fingerprint and an age below the ttl |
| `CacheProtocol.StoreAnswersIff` | internal/perses/common/perses_client_factory.go:173-191 | the second section answers with the cached client exactly if that has become usable; otherwise with the new one, closing the client it replaces and, if a ttl has passed, exactly the expired ones |
| `CacheProtocol.EveryClientIsAccounted` | internal/perses/common/perses_client_factory.go:69-93 | over every run each client ever built is cached, closed, held by the call that built it, or the loser of a recheck |
| `CacheProtocol.StoredMeansSwept` | internal/perses/common/perses_client_factory.go:174-189 | when a storing call ends every entry is younger than twice the ttl |
| `CacheProtocol.ReturnedOpenIff` | internal/perses/common/perses_client_factory.go:184-191 | a storing call returns a closed client exactly if it swept and its own entry aged a ttl meanwhile |
| `CacheProtocol.ForgetDoesNotStick` | internal/perses/common/perses_client_factory.go:69-76 | a call that had built its client stores it again after the instance was forgotten |
| `CacheProtocol.ForgettingSticksIff` | internal/perses/common/perses_client_factory.go:69-76 | a forgotten instance stays out of the cache in every run without a new call for it exactly if no call for it was in flight |
| `CacheProtocol.LoserIsOrphan` | internal/perses/common/perses_client_factory.go:173-178 | the client of a storing call ends neither cached nor closed exactly if the recheck found another one |
| `CacheProtocol.OrphanStaysOpen` | internal/perses/common/perses_client_factory.go:173-178 | and nothing ever closes it |
| `Fingerprint.DigitsReadBack` | internal/perses/common/perses_client_factory.go:106-109 | decimal rendering can be read back |
| `Fingerprint.DecimalInjective` | internal/perses/common/perses_client_factory.go:106-109 | so can negative numbers, without confusion |
| `Fingerprint.Decodes` | internal/perses/common/perses_client_factory.go:104-135 | without commas in namespace and name, equal fingerprints have equal namespace, name, generation and port |
| `Fingerprint.TailDecodes` | internal/perses/common/perses_client_factory.go:110-134 | without commas in the other values these are equal too, up to absent against empty |
| `Fingerprint.CommaCollision` | internal/perses/common/perses_client_factory.go:104-106 | with a comma in a name different instances collide |
| `Fingerprint.SpelledOut` | internal/perses/common/perses_client_factory.go:104-135 | the string is all its parts one after the other, the optional ones where they are present |
| `Fingerprint.NeverAnOlderGeneration` | internal/perses/common/perses_client_factory.go:139-151 | a cache hit never serves another instance or another generation |
| `PersesRuns.StepsAreWellFormed` | internal/subreconciler/subreconciler.go:31-77 | none of the ten steps pairs a nil result with an error, whatever fails |
| `PersesRuns.DeletionStepIs` | controllers/perses/perses_controller.go:278-306 | each outcome of stripping the finalizer from an object being deleted |
| `PersesRuns.UnknownStepIs` | controllers/perses/perses_controller.go:210-237 | each outcome of beginning the status |
| `PersesRuns.FinalizerStepIs` | controllers/perses/perses_controller.go:243-276 | each outcome of removing the legacy finalizer |
| `PersesRuns.VolumeStepIs` | controllers/perses/perses_controller.go:308-341 | an undefined mount is always an error, and which |
| `PersesRuns.ProvisioningStepIs` | controllers/perses/perses_controller.go:354-409 | each outcome of recording the versions |
| `PersesRuns.MissingIsCreated` | controllers/perses/deployment_controller.go:64-95 | what becomes of a missing owned object, request by request |
| `PersesRuns.FoundIsUpdated` | controllers/perses/deployment_controller.go:97-113 | what becomes of one that is found |
| `PersesRuns.UnreadableIsReported` | controllers/perses/deployment_controller.go:50-68 | a failing read is reported, unless the object is not wanted |
| `PersesRuns.UnwantedIsDeleted` | controllers/perses/deployment_controller.go:46-62 | what becomes of a workload that is not wanted |
| `PersesRuns.FailedBuildIsReported` | controllers/perses/deployment_controller.go:69-87 | the status after a failed build, word for word, on the version read or not at all |
| `PersesRuns.NounsAre` | controllers/perses/configmap_controller.go:53-60 | what the message calls each owned object |
| `PersesRuns.RunsReportErrorsNotDelays` | controllers/perses/perses_controller.go:94-171 | a run that halts has a non-nil result; Reconcile reports its error, or that of the first read unless the object is gone, and no delay |
| `PersesRuns.OwnedSteps` | controllers/perses/statefulset_controller.go:40-116 | what the four steps for owned objects leave behind if none ends the run, field by field |
| `PersesRuns.ReachedRun` | controllers/perses/perses_controller.go:125-145 | the exact cluster and result of every run that reaches the last step, whatever that step meets, as a function of the cluster before |
| `PersesRuns.CompletedRun` | controllers/perses/perses_controller.go:125-145 | the exact cluster after a run that completes, as a function of the cluster before, for any faults |
| `PersesRuns.FirstFive` | controllers/perses/perses_controller.go:354-409 | whatever ends the run later, passing the first five steps means not deleted, volumes valid, secrets readable, versions recorded |
| `PersesRuns.RecordIsKept` | controllers/perses/deployment_controller.go:69-87 | whatever fails after the versions are recorded, the run ends with them recorded: the status write of a failed build cannot take them back |
| `PersesOutcomes.WorkloadsAtTheEnd` | controllers/perses/deployment_controller.go:46-113 | a run that reaches the last step, however that ends, leaves a workload exactly if the spec requires it, or it was there, is not required and could not be read |
| `PersesOutcomes.WorkloadsAfterCompletion` | controllers/perses/statefulset_controller.go:47-115 | the same for runs that complete |
| `PersesOutcomes.BothWorkloads` | api/v1alpha2/perses_types.go:374-386 | with readable workloads a run that reaches the last step leaves both exactly with SQL, file and no emptyDir, and none exactly with neither database |
| `PersesOutcomes.ServiceAnnotationsLeak` | controllers/perses/service_controller.go:141-148 | a service annotation shows on the config map and the required workloads exactly if the object has annotations of its own |
| `PersesOutcomes.OwnedObjectsAtTheEnd` | controllers/perses/configmap_controller.go:38-125 | every run that reaches the last step leaves service, config map and required workloads with the present ports, data, pods, annotations, labels and selectors, spelled out on the spec |
| `PersesOutcomes.TemplateAtTheEnd` | controllers/perses/deployment_controller.go:121-132 | the annotations and pods of every required workload after a run that reaches the last step, and the recorded versions |
| `PersesOutcomes.OneRunShowsTheOldStatus` | controllers/perses/deployment_controller.go:126-132 | one run that reaches the last step shows the digest of the versions recorded before it |
| `PersesOutcomes.TwoRunsShowTheSecrets` | controllers/perses/perses_controller.go:354-409 | two such runs show the digest of the versions the secrets have |
| `PersesOutcomes.TwoRunsForgetTheSecrets` | internal/perses/common/volumes.go:216-227 | without references two such runs take the annotation away |
| `PersesFrame.StepFrame` | controllers/perses/perses_controller.go:174-409 | no step touches the spec, the secrets or another service, takes away a required workload or adds one that is not required |
| `PersesFrame.RunFrame` | controllers/perses/perses_controller.go:86-172 | nor does any run, whatever fails and wherever it ends; a renamed service leaves the old one behind |
| `PersesQuiet.NeedCounts` | controllers/perses/statefulset_controller.go:66-94 | a quiet run completes exactly if the status was begun and a required StatefulSet exists; otherwise it gets one step closer |
| `PersesQuiet.CompletesByTheThirdRun` | controllers/perses/perses_controller.go:125-145 | of a sequence of quiet runs exactly those from a computable number, at most two, on complete |
| `PersesQuiet.UnserviceableNeverCompletes` | controllers/perses/perses_controller.go:278-409 | a deleted object, an undefined mount or a missing secret keeps every run from completing |
| `PersesQuiet.UnserviceableIsReported` | controllers/perses/perses_controller.go:308-387 | once the status has begun, each quiet run over an undefined mount or a missing secret reports an error |
| `PersesQuiet.InvalidVolumesAreReported` | controllers/perses/perses_controller.go:315-338 | the first mount without a volume is named in the error and in the Degraded condition |
| `PersesQuiet.FirstStatusRun` | controllers/perses/perses_controller.go:210-237 | the first quiet run writes Available Unknown and changes nothing else |
| `PersesQuiet.CompletedSays` | controllers/perses/perses_controller.go:343-352 | the conditions after a completed run, word for word |
| `PersesQuiet.DeletedRun` | controllers/perses/perses_controller.go:278-306 | a quiet run over an object being deleted takes the legacy finalizer off it, changes nothing else and reports nothing |
| `PersesQuiet.PutOffRunsAreFollowed` | controllers/perses/perses_controller.go:230-237 | a quiet run put off without an error has begun the status or created the StatefulSet, and that watched change brings the next run |
| `PersesQuiet.TwoThenRest` | controllers/perses/deployment_controller.go:97-113 | after two completed runs a third changes nothing in the cluster |
| `PersesQuiet.ComesToRest` | controllers/perses/perses_controller.go:125-145 | from any start a quiet cluster stops changing after at most four runs |
| `PersesRunner.PersesReconciler.UpdatePersesStatus` | controllers/perses/perses_controller.go:174-208 | the status update and its three outcomes |
| `PersesRunner.PersesReconciler.HandleDeletion` | controllers/perses/perses_controller.go:278-306 | an object being deleted loses the legacy finalizer and ends the run; every error is reported, not-found included |
| `PersesRunner.PersesReconciler.SetToUnknown` | controllers/perses/perses_controller.go:210-237 | puts the run off after writing the first status; that the object is gone does not stop it |
| `PersesRunner.PersesReconciler.StripFinalizer` | controllers/perses/perses_controller.go:243-276 | removes the legacy finalizer from a fresh reading, which the later steps then use |
| `PersesRunner.PersesReconciler.CheckVolumes` | controllers/perses/perses_controller.go:308-341 | the loop finds the first mount whose volume is not defined and reports it |
| `PersesRunner.PersesReconciler.RecordProvisioning` | controllers/perses/perses_controller.go:354-409 | the two loops and the sort record the canonical list, or fail if a secret is missing or cannot be read just now |
| `PersesRunner.PersesReconciler.Annotate` | controllers/perses/service_controller.go:141-148 | a builder writes into the shared map if there is one, otherwise into a fresh one |
| `PersesRunner.PersesReconciler.ReportFailure` | controllers/perses/deployment_controller.go:73-87 | the status write of a failed build carries the cause and lands only on the version the run has read |
| `PersesRunner.PersesReconciler.EnsureService` | controllers/perses/service_controller.go:39-104 | get, create or dry run, compare and update, with every early return, give the world of the service step |
| `PersesRunner.PersesReconciler.EnsureConfigMap` | controllers/perses/configmap_controller.go:38-99 | the same for the config map |
| `PersesRunner.PersesReconciler.PutOne` | controllers/perses/deployment_controller.go:46-113 | the create, update and delete branches of a workload |
| `PersesRunner.RemoveUnwanted` | controllers/perses/deployment_controller.go:46-62 | a workload that is not wanted is deleted if it can be read; an error of the read is dropped |
| `PersesRunner.CreateMissing` | controllers/perses/deployment_controller.go:64-95 | a missing workload is built and created |
| `PersesRunner.UpdateFound` | controllers/perses/deployment_controller.go:97-113 | a workload is updated exactly if its spec differs from the one built |
| `PersesRunner.ServiceNeedsUpdate` | controllers/perses/service_controller.go:106-134 | the loop over the operator's labels decides the comparison |
| `PersesRunner.ConfigMapNeedsUpdate` | controllers/perses/configmap_controller.go:101-125 | the same for the config map |
| `PersesRunner.PersesReconciler.EnsureDeployment` | controllers/perses/deployment_controller.go:39-114 | the branches and the report of a failed build give the world of the Deployment step |
| `PersesRunner.PersesReconciler.EnsureStatefulSet` | controllers/perses/statefulset_controller.go:40-116 | the same for the StatefulSet, where a creation ends the run |
| `PersesRunner.PersesReconciler.Reconcile` | controllers/perses/perses_controller.go:86-172 | the first read and the loop over the ten steps end with the cluster and the result of the specification |
| `Provisioning.CanonicalList` | controllers/perses/perses_controller.go:389-400 | sorted lists of the same versions are equal, however sorted and iterated |
| `Provisioning.LessIs` | controllers/perses/perses_controller.go:398-400 | the order of names: the shorter of two that agree, or the smaller character where they differ |
| `Provisioning.OrderAndRepeatsDoNotMatter` | controllers/perses/perses_controller.go:368-387 | the recorded list depends on which secrets are referenced only |
| `Provisioning.ReadableIsRecorded` | controllers/perses/perses_controller.go:380-386 | secrets that cannot be read just now matter only by failing the run |
| `Provisioning.OneEntryEach` | controllers/perses/perses_controller.go:368-400 | one entry per distinct referenced secret, with its version |
| `Provisioning.ReadVersions` | controllers/perses/perses_controller.go:368-387 | each distinct secret is read once; the first failure ends the run |
| `Provisioning.ListVersions` | controllers/perses/perses_controller.go:389-400 | a strictly sorted list of exactly the map's entries |
| `Provisioning.FindPersesForSecret` | controllers/perses/perses_controller.go:411-438 | the nested loops give the specified requests |
| `Provisioning.WokenAre` | controllers/perses/perses_controller.go:420-435 | woken are exactly the objects that reference the secret |
| `Provisioning.WokenOnce` | controllers/perses/perses_controller.go:425-434 | each of them once |
| `Provisioning.WakesWhoItConcerns` | controllers/perses/perses_controller.go:411-438 | a changed secret wakes exactly the objects whose recorded list it can change |
| `ConversionLaws.UpAgrees` | api/v1alpha1/zz_generated.conversion.go:904-971 | going up says the same exactly if the OAuth style fits 32 bits and a zero size is plain |
| `ConversionLaws.DownAgrees` | api/v1alpha1/zz_generated.conversion.go:977-1054 | going down always says the same, as far as v1alpha1 can |
| `ConversionLaws.AgreementIsUnique` | api/v1alpha1/zz_generated.conversion.go:596-622 | a v1alpha2 object has one v1alpha1 reading |
| `ConversionLaws.OthersAgree` | api/v1alpha1/zz_generated.conversion.go:742-772 | datasources and dashboards say the same in both versions, but for the client going down |
| `ConversionLaws.TruncateWraps` | api/v1alpha1/perses_conversion.go:62-66 | the cast of the OAuth style keeps the lowest 32 bits |
| `ConversionLaws.UnassignedFieldsStay` | api/v1alpha1/zz_generated.conversion.go:904-971 | fields that v1alpha1 lacks, and the type, are not assigned |
| `ConversionLaws.ListsAreConverted` | api/v1alpha1/zz_generated.conversion.go:836-851 | item by item in the same order |
| `ConversionLaws.PersesTrip` | api/v1alpha1/perses_conversion.go:45-119 | the exact result of v1alpha1 to v1alpha2 and back, for every object and any out parameters |
| `ConversionLaws.PersesTripIsIdentity` | api/v1alpha1/perses_conversion.go:58-119 | it is the identity exactly if the OAuth style fits and a zero size is plain; comparing sizes as amounts, the style alone decides |
| `ConversionLaws.DashboardTrip` | api/v1alpha1/persesdashboard_conversion.go:39-48 | the identity on dashboards |
| `ConversionLaws.DatasourceTrip` | api/v1alpha1/persesdatasource_conversion.go:45-48 | a datasource loses its client, or takes the one its out parameter held |
| `ConversionLaws.LosslessIffExpressible` | api/v1alpha1/perses_conversion.go:45-55 | v1alpha2 to v1alpha1 and back loses nothing exactly if v1alpha1 can express the object |
| `ConversionLaws.NormalIsIdempotent` | api/v1alpha1/perses_conversion.go:45-119 | a second such trip changes nothing further |
| `ConversionLaws.DashboardsNormalise` | api/v1alpha1/persesdashboard_conversion.go:39-48 | the same for dashboards, lossless exactly without an instance selector |
| `ConversionLaws.PersesListTrip` | api/v1alpha1/zz_generated.conversion.go:836-876 | a list of any length survives exactly if each item does; nil stays nil |
| `ConversionLaws.DashboardListTrip` | api/v1alpha1/zz_generated.conversion.go:680-720 | lists of dashboards always survive |
| `ConversionLaws.DatasourceListTrip` | api/v1alpha1/zz_generated.conversion.go:774-814 | lists of datasources survive exactly if no item has a client |
| `ConversionLaws.StaleStyle` | api/v1alpha1/perses_conversion.go:58-80 | exactly when a used out parameter corrupts the OAuth style |
| `ConversionLaws.StaleStorage` | api/v1alpha1/perses_conversion.go:84-119 | exactly when it corrupts the storage section |
| `Converters.ConvertOAuthUp` | api/v1alpha1/perses_conversion.go:58-68 | the assignments amount to the conversion function, out parameter included |
| `Converters.ConvertOAuthDown` | api/v1alpha1/perses_conversion.go:71-80 | the same, down |
| `Converters.ConvertStorageUp` | api/v1alpha1/perses_conversion.go:84-101 | the same for storage |
| `Converters.ConvertStorageDown` | api/v1alpha1/perses_conversion.go:105-119 | the same, down |
| `Converters.ConvertClientUp` | api/v1alpha1/zz_generated.conversion.go:348-387 | the same for the client section, nested objects allocated anew |
| `Converters.ConvertClientDown` | api/v1alpha1/zz_generated.conversion.go:393-432 | the same, down |
| `Converters.ConvertSpecUp` | api/v1alpha1/zz_generated.conversion.go:904-971 | the same for the spec; added fields keep what the out parameter held |
| `Converters.ConvertSpecDown` | api/v1alpha1/zz_generated.conversion.go:977-1054 | the same, down |
| `Converters.ConvertPersesUp` | api/v1alpha1/zz_generated.conversion.go:596-606 | the same for the whole object |
| `Converters.ConvertPersesDown` | api/v1alpha1/zz_generated.conversion.go:612-622 | the same, down |
| `Converters.ConvertDatasourceDown` | api/v1alpha1/persesdatasource_conversion.go:45-48 | only the configuration is assigned |
| `Converters.ConvertPersesListUp` | api/v1alpha1/zz_generated.conversion.go:836-851 | the index loop converts every item into a fresh object |
| `Converters.ConvertPersesListDown` | api/v1alpha1/zz_generated.conversion.go:857-872 | the same, down |
| `VolumeNames.NormaliseJoinsWords` | api/v1alpha2/common_types.go:47-55 | lower case, replace runs, trim is: the words joined by hyphens |
| `VolumeNames.LowerIs` | api/v1alpha2/common_types.go:48 | lower case by code points |
| `VolumeNames.LowerBeyondAscii` | api/v1alpha2/common_types.go:48 | the two characters beyond ASCII whose lower case is in it |
| `VolumeNames.AlnumIs` | api/v1alpha2/common_types.go:28 | the characters that are kept, by code points |
| `VolumeNames.CaseDoesNotMatter` | api/v1alpha2/common_types.go:47-55 | references that differ only in case share a volume name |
| `VolumeNames.SameNameIff` | api/v1alpha2/common_types.go:42-55 | two references share a volume name exactly if they consist of the same words |
| `VolumeNames.DifferentSecretsSameName` | api/v1alpha2/common_types.go:42-44 | references to different secrets can share one |
| `VolumeNames.ValidIff` | api/v1alpha2/common_types.go:46-55 | the name is a valid DNS label exactly if it has a letter or digit and is not too long |
| `VolumeNames.LongNamesAreInvalid` | api/v1alpha2/common_types.go:46-55 | for a name and a key of one word each the volume name is valid exactly up to 49 characters together |
| `VolumeNames.AnInvalidName` | api/v1alpha2/common_types.go:46-55 | a secret name of fifty letters gives an invalid one |
| `Volumes.GetVolumes` | internal/perses/common/volumes.go:31-116 | the list that is appended to is the specified one |
| `Volumes.GetVolumeMounts` | internal/perses/common/volumes.go:155-213 | the same for mounts |
| `Volumes.VolumeNamesDistinctIff` | api/v1alpha2/perses_types.go:125-133 | for an admitted spec the volume names of a pod, of a Deployment or a StatefulSet, are distinct exactly if the references' words are |
| `Volumes.PodLookup` | controllers/perses/statefulset_controller.go:187-209 | the claim template replaces the storage volume of a StatefulSet's pods and nothing else |
| `Volumes.MountPathsClashIff` | internal/perses/common/volumes.go:195-207 | for an admitted spec mount paths are distinct exactly if the cleaned paths of the references are and none falls on a path of the operator or the user |
| `Volumes.MountPathsDistinctIff` | api/v1alpha2/perses_types.go:134-142 | with names and keys a secret can have: exactly if no two references spell the same name-key |
| `Volumes.EscapingKey` | internal/perses/common/volumes.go:195-207 | a key with dots and slashes is mounted outside the directory of the secrets, here onto the configuration |
| `Volumes.DistinctNamesSuffice` | internal/perses/common/volumes.go:91-110 | distinct volume names imply distinct paths |
| `Volumes.MountsHaveVolumes` | controllers/perses/perses_controller.go:315-338 | once the controller's check passes every mount finds a volume of the pod |
| `Volumes.EachReferenceGetsItsKey` | internal/perses/common/volumes.go:195-207 | with distinct words the file of each reference is its own key of its own secret, in either kind of pod |
| `Volumes.WhatIsWhere` | internal/perses/common/volumes.go:53-90 | for an admitted spec and either kind of pod the configuration, the data and each certificate are found at the paths where the server looks for them, from the right source, and, with keys a secret can have, nothing where there is none |
| `Volumes.WhatIsReadOnly` | internal/perses/common/volumes.go:155-207 | which mounts are read-only |
| `Volumes.UserPartsAreThere` | internal/perses/common/volumes.go:112-115 | the user's volumes and mounts are there as given |
| `Volumes.DeploymentNeedsAClaimIff` | internal/perses/common/volumes.go:64-74 | a required Deployment mounts a claim, which only the user can have made, exactly if both databases are configured without an emptyDir |
| `Metrics.ResourceMetrics.SetResources` | internal/metrics/metrics.go:170-179 | the entry is set, all others stay |
| `Metrics.ResourceMetrics.ForgetObject` | internal/metrics/metrics.go:158-168 | the object leaves every key, and empty keys leave, in any order of iteration |
| `Metrics.ResourceMetrics.Collect` | internal/metrics/metrics.go:187-205 | one total per key, the sum of its entries |
| `Metrics.Total` | internal/metrics/metrics.go:191-195 | the summing loop, in any order |
| `Metrics.IndexIsHistory` | internal/metrics/metrics.go:146-180 | after any history each entry is the last report since the object was last forgotten, and no key is empty |
| `Metrics.CollectedIsHistory` | internal/metrics/metrics.go:146-205 | a key is collected exactly if some object has a report for it, with exactly those reports as its entries |
| `Metrics.ReportMovesOneTotal` | internal/metrics/metrics.go:170-179 | a report moves one total by the difference and no other |
| `Metrics.ForgettingTakesItsShare` | internal/metrics/metrics.go:158-168 | forgetting takes the object's share from each total |
| `Metrics.CountedTwiceIff` | internal/metrics/metrics.go:146-180 | after any history an object counts in both states exactly if it has reported both since it was last forgotten |
| `Metrics.CountedTwice` | internal/metrics/metrics.go:146-154 | an object that failed and then synced counts in both states |

## Left out

- Building a REST client (URLs, tokens, certificates, OAuth grants): a build yields a fresh client or an error.
- The fields of a synchronised secret and the lookups behind them: one value that may be missing.
- Labels, tags, images, probes, arguments, security contexts, TLS flags: single-branch code; a pod is its volumes, mounts, annotations and one opaque rest.
- Dry runs and semantic equality: a dry run changes nothing, and values compare as they are.
- Digests, JSON, YAML and Go's quoting of strings: abstract functions; the digest of a non-empty list is taken to be non-empty.
- controller-runtime: only its contract (one reconcile per key, a key added while in process is kept, an error re-queues); informer, queue and instance table are the operator's view of them.
- A request already sent when the operator restarts: the restart of the step system forgets it.
- Removal of an object by the API server once its last finalizer is gone, and garbage collection of owned objects.
- Aliasing between a converted object and its source: the converters copy pointers, the model copies values.
- Volumes: that a StatefulSet's claim template takes the place of the pod volume of its name is Kubernetes' doing and taken from there.
- Counters, the readiness and instance gauges, logging, durations, webhooks, scheme registration, deep copies, the OpenShift profile watch.
