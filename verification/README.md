# Session coordinator: a verified model

The coordinator is the SharedWorker that all wallet tabs share, with the two pieces of the page client that
must agree with it. It is a concurrent protocol written as single-threaded stretches of code between
awaits. Each part is modelled twice: as a state machine on values, with one transition per stretch, whose
runs the theorems quantify over; and, where the program updates fields in place, as a class whose methods
are proved equal to those transitions and keep their invariant.

| modules | part |
|---|---|
| `PeerSessions`, `PeerInvariant`, `PeerTheorems`, `PeerProgress`, `SessionCoordinator` | page peers, session opens and closes, election of the storage I/O owner |
| `TopicQueue`, `TopicClient`, `ReplicaAgreement` | the bounded topic queue, the page's projection of topics, and both connected |
| `UnitCatalog`, `UnitAvailability`, `UnitExplanations`, `UnitRegistry` | the dependency graph of worker units, explanations of unavailability, the instance registry and its reconcile loop |
| `LockBarrier`, `LockBarrierTheorems`, `LockBarrierLog`, `GlobalLock`, `WalletLockBarrierObject` | the wallet lock barrier and the worker's lock path |
| `AuthorityLeases`, `FinalIoAudit`, `FinalIo`, `FinalIoTheorems`, `FinalIoProgress`, `FinalIoBoundary`, `FinalIoLeases` | shared read leases and write leases, the audit ledger, the wrapper of final I/O, and the wrapper on top of the leases |
| `Base58`, `P2pkhAddress` | addresses |
| `PlatformStore` | the rebinding key-value store of a page |
| `RequestQueue` | the serial request queue |

Events that the environment decides (messages, promise settlements, time-outs, revocations, authority
checks, answers of remote calls) are parameters of the steps; a theorem over all event sequences is a
theorem over all interleavings. Sequences indexed by position stand for heaps of objects, the position
being the object's identity.

Findings where the code is narrower than its comments:

- `walletLockBarrier.ts:24-31`: `begin` on a barrier that is open but still keeps the promise of the cycle just
  finished replaces the operations and starts none. `BeginClosesIff` gives the exact condition. The lock path of
  the worker does not exclude it: `coordinatorWorker.ts:2601` returns the promise of a retry without remembering
  it, and lines 2664-2665 forget the first attempt's, so a lock that comes between the opening by a retried
  attempt and the settling of that attempt's joint promise leaves the wallet locked, the barrier open and
  nothing cleaned up. `GlobalLock.StrandingIsReachable` is such a run; `LockStartsIff` and `LockStrandsIff` give
  the exact conditions; `OnlyRetriesAreForgotten` says that locks after an unretried cycle are safe.
- `p2pkhPublicKeyAddress.ts:45-59`: `base58Encode` throws on the empty byte string; its last line, which would
  return "1", is never reached with an empty text. The address derivation never passes it.
- `coordinatorWorker.ts:1540-1573` says that a unit's readiness is read only from the registry, while the readiness
  predicate handed to the evaluator also reads Host state. The evaluator is modelled for any set of ready units.

## Model

| member | source | states |
|---|---|---|
| PeerTheorems.OwnerIsNewestOpenPeer | src/assembly/coordinatorWorker.ts:1409-1428 | In every reachable state the storage I/O owner is exactly the open peer with the greatest commit order, under that peer's current binding, and there is none iff no session is open; sessionOpen, status "open", binding and commit order coincide, and an open peer is registered with an active scope. |
| PeerTheorems.ReusedIdKeepsElectionIff | src/assembly/coordinatorWorker.ts:3234 | A peer configured under an id still registered keeps the election exact iff that id is not the owner's. |
| PeerTheorems.ReusedIdOrphansOwner | src/assembly/coordinatorWorker.ts:3238-3242 | Otherwise the revocation of the overwritten peer returns at once and the owner keeps the orphan's binding. |
| PeerTheorems.HandoffsIncrease | src/assembly/coordinatorWorker.ts:1418-1425 | Along every run the handoff revisions announced for successive owners are strictly increasing. |
| PeerTheorems.StepHandsOver | src/assembly/coordinatorWorker.ts:1495-1500 | Every single step keeps or raises the handoff revision; a new owner carries a revision above all earlier ones. |
| PeerInvariant.StepKeepsInv | src/assembly/coordinatorWorker.ts:1475-1507 | Every event of pages, peers and queues keeps the invariant: registry, scopes, election, per-peer turns, the global initialization queue and the single opening session agree. |
| PeerTheorems.RunKeepsInv | src/assembly/coordinatorWorker.ts:3044-3157 | Over every run of opens, closes, revokes, aborts and settled awaits that invariant holds. |
| PeerInvariant.RollbackNeverFires | src/assembly/coordinatorWorker.ts:3143-3152 | The cleanup in the catch block of an open never finds anything to undo: a failed open left no binding behind. |
| PeerTheorems.CommitsIncrease | src/assembly/coordinatorWorker.ts:3082-3096 | The bindings committed on one peer over a whole run have strictly increasing peerGeneration; a pending attempt is newer than every commit, and an open session is the last commit. |
| PeerTheorems.CloseMatchesExactly | src/assembly/coordinatorWorker.ts:2946-2952 | A close acts iff it carries the binding open now; then it ends just that session, under a newer generation. |
| PeerTheorems.LateCloseIsHarmless | src/assembly/coordinatorWorker.ts:2949-2951 | A close carrying any binding but the last one committed on its peer changes nothing, whenever it arrives. |
| PeerTheorems.OvertakenNeverOpens | src/assembly/coordinatorWorker.ts:1400-1407 | An open overtaken by a revoke, an abort or a generation change never commits, however the run goes on through both queues. |
| PeerTheorems.WhatOvertakes | src/assembly/coordinatorWorker.ts:1400-1407 | Revoking the peer, aborting the call, or another call moving the peer's generation does overtake a waiting open. |
| PeerTheorems.OpensIffNotOvertaken | src/assembly/coordinatorWorker.ts:3104-3137 | An initialized open whose exposure succeeds commits iff it was not overtaken. |
| PeerProgress.StartDecides | src/assembly/coordinatorWorker.ts:3060-3097 | The first turn of an open, in every reachable state and as four iffs: served by the open session of its own lease, nothing changed; the open session of another lease fenced and drained; the next generation claimed and the end of the global queue taken, iff the peer is closed and of the generation seen; refused as stale otherwise. |
| PeerProgress.ResumeDecides | src/assembly/coordinatorWorker.ts:3077-3096 | After the drain the open claims the next generation iff the peer is still of the generation of the drain, and is refused otherwise. |
| PeerProgress.InitializationDecides | src/assembly/coordinatorWorker.ts:3097-3105 | At its turn in the global queue the open begins to initialize iff it was not aborted, its peer is registered and the generation is its own. |
| PeerProgress.FinishDecides | src/assembly/coordinatorWorker.ts:3105-3157 | It commits iff initialization and exposure went well and it still stands; then the session is open under its binding, with the next commit order, and storage I/O is handed over to it. |
| PeerProgress.OpenSucceeds | src/assembly/coordinatorWorker.ts:3057-3157 | Progress over all runs: an open that nothing overtakes and whose initialization succeeds goes on with each of its turns; after at most four it has settled, and at that moment its peer's session is open under its lease, opened before or just now, and then that peer owns storage I/O. |
| PeerProgress.OpenCompletes | src/assembly/coordinatorWorker.ts:3057-3157 | An open that nothing overtook, with the global queue empty, gets its session by its own turns alone, also over the session of another lease. |
| PeerProgress.ArrivalsWait | src/assembly/coordinatorWorker.ts:3057-3059 | A connecting page is registered, active and closed; an open that it calls waits last, with its lease and the generation seen. |
| PeerProgress.FirstPageOpens | src/assembly/coordinatorWorker.ts:3057-3157 | The first page of a worker gets the first session and owns storage I/O. |
| SessionCoordinator.Coordinator.SelectStorageIoOwner | src/assembly/coordinatorWorker.ts:1409-1428 | The loop over the peers selects the candidate with the greatest commit order, or none. |
| SessionCoordinator.Coordinator.FencePeer | src/assembly/coordinatorWorker.ts:1475-1507 | Fencing in place: new state and answer are those of the fence transition, including the re-election. |
| SessionCoordinator.Coordinator.OnRevoke | src/assembly/coordinatorWorker.ts:3224-3243 | Revoking a scope fences its peer in the same step and keeps the invariant. |
| SessionCoordinator.Coordinator.CloseSession | src/assembly/coordinatorWorker.ts:2946-2952 | A close in place is the exact-match fence and keeps the invariant. |
| SessionCoordinator.Coordinator.OpenSession | src/assembly/coordinatorWorker.ts:3057-3059 | A call of session.open joins the peer's queue with the generation it saw. |
| SessionCoordinator.Coordinator.RunOperation | src/assembly/coordinatorWorker.ts:3060-3097 | The body of an open in place: it returns the committed session, replaces an old lease, is refused as stale, or claims the next generation, each in the case that `StartDecides` gives. |
| SessionCoordinator.Coordinator.ResumeOperation | src/assembly/coordinatorWorker.ts:3077-3097 | After the drain a replaced lease goes on only under an unchanged generation of an unrevoked peer. |
| SessionCoordinator.Coordinator.OnDrained | src/assembly/coordinatorWorker.ts:1457-1467 | A settled drain frees a closing peer only if it is still the registered one. |
| SessionCoordinator.Coordinator.BeginInitialization | src/assembly/coordinatorWorker.ts:3097-3105 | Initialization starts in queue order, one opening session at a time, only for a fresh attempt. |
| SessionCoordinator.Coordinator.EndInitialization | src/assembly/coordinatorWorker.ts:3105-3156 | After the shared initialization the attempt commits, or settles as stale or failed. |
| SessionCoordinator.Coordinator.CommitSession | src/assembly/coordinatorWorker.ts:3119-3137 | The commit sets binding, order and owner together. |
| TopicQueue.StreamHasNoGap | src/assembly/coordinatorWorker.ts:1234-1282 | Over every interleaving of enqueue, take and close: delivered and queued events are the accepted ones minus events each followed by one it may coalesce with; the k-th take gets the k-th settlement; values and waiters never coexist; at most 256 values; one ending, seen by every later take. |
| TopicQueue.OpenStreamLosesNothing | src/coordinator/storageActivityCoalescing.ts:4-15 | While the stream is open nothing is missing on any topic but storage.state, and the newest accepted event is always kept. |
| TopicQueue.OverflowEndsStream | src/assembly/coordinatorWorker.ts:1260-1266 | The queue overflows exactly when an admitted event meets 256 values and cannot merge; then the consumer gets the overflow error and no further event. |
| TopicQueue.ThinnedKeepsOtherTopics | src/coordinator/storageActivityCoalescing.ts:4-15 | Coalescing never removes an event of another topic. |
| TopicQueue.ThinnedShowsAllChanges | src/coordinator/storageActivityCoalescing.ts:4-15 | What is deleted differs from its successor in revision and activity alone: deleted or not, the same changes of everything else are seen in the same order. |
| TopicQueue.OpenStreamShowsAllChanges | src/coordinator/storageActivityCoalescing.ts:4-15 | So over every run of an open stream. |
| TopicQueue.OpenStreamAcceptsAll | src/assembly/coordinatorWorker.ts:1246-1268 | While the stream is open, the accepted events are all that were offered on its topics, in order. |
| TopicQueue.OfferDecides | src/assembly/coordinatorWorker.ts:1246-1268 | Which of the ways an offered event takes, in state fields: ignored, handed to the oldest waiting take, put in place of a newest value that differs in revision and activity alone, appended, or the end of the stream. |
| TopicQueue.TopicStreamQueue.EnqueueEvent | src/assembly/coordinatorWorker.ts:1246-1268 | The in-place enqueue hands the event to the oldest waiter, merges, overflows or stores it. |
| TopicQueue.TopicStreamQueue.TakeEvent | src/assembly/coordinatorWorker.ts:1270-1282 | The in-place take delivers, ends or waits. |
| TopicQueue.TopicStreamQueue.CloseQueue | src/assembly/coordinatorWorker.ts:1234-1244 | Closing settles every waiter once, in order, and drops the values. |
| TopicClient.HeldUnitsOverRuns | src/keymasterSessionCoordinatorClient.ts:1343-1412 | Over every sequence of messages, valid or malformed, from any page in order, also one that reconnects with cached units: cached units belong to the cached epoch; the epochs held are those of a line of at most four, where a fifth pushes out the first, each with its highest-revision event. |
| TopicClient.ResetKeepsClient | src/keymasterSessionCoordinatorClient.ts:533-548 | Losing the connection leaves such a page. |
| TopicClient.TrackAll | src/keymasterSessionCoordinatorClient.ts:1343-1443 | Over every sequence of messages the client invariant holds together with the record of what was deferred. |
| TopicClient.UnitsRiseWithinEpoch | src/keymasterSessionCoordinatorClient.ts:1362-1371 | Within an epoch the unit revision never falls, and the units change only with it rising; `UnitsApplyIffNewer` says when it does. |
| TopicClient.UnitsApplyIffNewer | src/keymasterSessionCoordinatorClient.ts:1362-1371 | A unit event of the cached epoch becomes units, revision and cached event iff its revision is above the cached one; one of another epoch is held; otherwise nothing changes. |
| TopicClient.OthersApplyIffNewer | src/keymasterSessionCoordinatorClient.ts:1362-1443 | Any other event is applied iff its revision is above the last one of its topic: then cached, counted, its payload taken over, and wallet generation and epoch follow; otherwise nothing changes. |
| TopicClient.UnitsAreNewest | src/keymasterSessionCoordinatorClient.ts:1355-1443 | Over every sequence of messages the units shown are those of the highest revision offered for the epoch: by the cache it began with, by the events deferred for it while it stood in line, or by those received since. |
| TopicClient.ConfirmedEpochApplies | src/keymasterSessionCoordinatorClient.ts:1394-1412 | Confirming an epoch applies the event held for it in the same step, shows no units otherwise, and drops every other held event. |
| TopicClient.ReceiveKeepsClient | src/keymasterSessionCoordinatorClient.ts:1343-1371 | Every message keeps the client invariant. |
| TopicClient.TrackKeeps | src/keymasterSessionCoordinatorClient.ts:501-512 | Every message keeps, for each held epoch, an event that no deferred one of that epoch exceeds. |
| TopicClient.TopicProjection.ApplyTopicEvent | src/keymasterSessionCoordinatorClient.ts:1343-1354 | A message in place: a malformed payload is dropped and, for a session, resets the trackers; a valid one is applied. |
| TopicClient.TopicProjection.ApplyValid | src/keymasterSessionCoordinatorClient.ts:1355-1443 | The in-place application, with its recursive call for the held event, applies just what `UnitsApplyIffNewer`, `OthersApplyIffNewer` and `ConfirmedEpochApplies` say. |
| TopicClient.TopicProjection.DeferWorkerUnitEvent | src/keymasterSessionCoordinatorClient.ts:501-512 | Holding an event in place, with the eviction loop. |
| TopicClient.TopicProjection.ResetDisconnectedState | src/keymasterSessionCoordinatorClient.ts:533-548 | The reset keeps cached data and forgets revisions and held events. |
| ReplicaAgreement.DrainedReplicaAgrees | src/assembly/coordinatorWorker.ts:2198-2312 | For session.state, background.snapshot, chain.fees and chain.height: whenever the stream is open and drained, the page's revision and value equal the worker's latest, for every interleaving of publications, baseline building, takes and deliveries. |
| ReplicaAgreement.Run | src/assembly/coordinatorWorker.ts:3187-3222 | Over every run of one connection the replica invariant holds and the subscribed topics stay. |
| ReplicaAgreement.StepKeepsInv | src/assembly/coordinatorWorker.ts:3187-3222 | Queue, baselines and page together never lose the latest revision of a replicated topic: what the page lacks is still under way. |
| ReplicaAgreement.PublishKeepsInv | src/assembly/coordinatorWorker.ts:2856-2897 | A publication keeps the replica invariant: its event reaches the open stream. |
| ReplicaAgreement.BaselinesKeepInv | src/assembly/coordinatorWorker.ts:3187-3222 | Because the queue is registered before the baselines are built, a baseline older than a concurrent publication does no harm. |
| ReplicaAgreement.DeliverKeepsInv | src/keymasterSessionCoordinatorClient.ts:1362-1371 | Accepting only larger revisions keeps the page from ever going back. |
| ReplicaAgreement.WorkerFollowsPublications | src/assembly/coordinatorWorker.ts:2856-2897 | The worker's revision of a topic counts its publications, and its value is the one published last. |
| ReplicaAgreement.CatchingUpDrains | src/assembly/coordinatorWorker.ts:3187-3222 | From every state of an open stream with its baselines built, yields, takes and deliveries alone drain it, and the page then has the worker's revision and value of every subscribed topic. |
| UnitCatalog.ValidateAcyclic | src/coordinator/workerUnitCatalog.ts:220-247 | Sound and complete on every catalog: no error iff the dependency graph over catalog ids is acyclic, every reported cycle is a real closed path, and no two reported cycles have the same units. |
| UnitCatalog.SameUnitsSameCycle | src/coordinator/workerUnitCatalog.ts:231-241 | Two cycles closed in one search on the same units are the same cycle: each unit is entered by one path only. |
| UnitCatalog.CycleCheck.Visit | src/coordinator/workerUnitCatalog.ts:231-244 | The depth-first visit terminates and keeps: settled units are topologically ordered while no error was found, and every error is a cycle. |
| UnitCatalog.CycleCheck.VisitDependencies | src/coordinator/workerUnitCatalog.ts:242 | The loop over the dependencies leaves them all settled, or a cycle reported. |
| UnitCatalog.CycleCheck.Report | src/coordinator/workerUnitCatalog.ts:234-239 | Reporting keeps the list of errors to real cycles with distinct keys. |
| UnitCatalog.OrderedIsAcyclic | src/coordinator/workerUnitCatalog.ts:214-219 | A graph whose units can be ordered after their dependencies has no cycle. |
| UnitCatalog.TailIsCycle | src/coordinator/workerUnitCatalog.ts:233-234 | Meeting a unit of the current path closes a real cycle. |
| UnitCatalog.GraphIsDeclared | src/coordinator/workerUnitCatalog.ts:222-228 | With distinct ids the checked graph has exactly each unit's declared, catalogued dependencies. |
| UnitAvailability.ReadyIffFlat | src/coordinator/workerUnitAvailability.ts:99-146 | On any catalog, even a cyclic one, the recursive evaluation ends and is ready iff scope, self and each direct dependency pass the one-level test. |
| UnitAvailability.LayersExtend | src/coordinator/workerUnitAvailability.ts:155-181 | Construction reasons are a prefix of startup reasons, and these of availability reasons. |
| UnitAvailability.MoreFactsKeepReady | src/coordinator/workerUnitAvailability.ts:113-145 | Making more facts true never turns ready into failed. |
| UnitAvailability.NamedIffBlocked | src/coordinator/workerUnitAvailability.ts:121-141 | On any catalog, the ids named unit-not-ready below a set of visited units are those reached by a path that avoids them and whose later nodes are catalogued and not ready. |
| UnitAvailability.StartupNamesReachable | src/coordinator/workerUnitAvailability.ts:176-181 | The same for a startup evaluation, on every catalog. |
| UnitAvailability.AcceptedCatalogExplains | src/coordinator/workerUnitAvailability.ts:128-139 | On a catalog that the cycle check accepts, the visiting guard never fires, and startup names exactly the units reachable by a non-empty path of catalogued units that are not ready. |
| UnitAvailability.GuardNeverFires | src/coordinator/workerUnitAvailability.ts:128-132 | Without a cycle no dependency is ever met while it is being visited. |
| UnitAvailability.FrameworkTextMeansUnavailable | src/coordinator/workerUnitAvailability.ts:200-210 | The framework gets no text iff the flat test passes, and otherwise a non-empty text: the fallback is never needed. |
| UnitAvailability.EvaluateInPlace | src/coordinator/workerUnitAvailability.ts:99-146 | The loop that pushes reasons computes the evaluation function. |
| UnitAvailability.ExplainDependency | src/coordinator/workerUnitAvailability.ts:121-140 | One round of that loop adds the reasons of one dependency, leaving out the redundant one. |
| UnitExplanations.EveryReasonMeans | src/coordinator/workerUnitAvailability.ts:113-146 | On any catalog a storage, owner or unknown-unit reason is given iff that very fact is missing: at construction in the unit's own scope, later at the unit or at one behind it on a path of units that are not ready and do not lead back. An uncatalogued unit other than the transport is itself unknown. |
| UnitExplanations.PlainIff | src/coordinator/workerUnitAvailability.ts:121-141 | The same below any set of visited units. |
| UnitExplanations.NotReadyIff | src/coordinator/workerUnitAvailability.ts:133-139 | Where the visiting guard is silent, dependency-not-ready names just the units on such paths that have more wrong with them than not being ready. |
| UnitExplanations.AcceptedReasonsMean | src/coordinator/workerUnitAvailability.ts:99-146 | On a catalog that the cycle check accepts: every code of a startup or availability evaluation as an iff on scopes, declarations and ready units. |
| UnitRegistry.NotifiesIffVisiblyChanged | src/coordinator/workerUnitRuntime.ts:79-91 | Subscribers are notified iff the visible units change, and exactly then the revision rises by one and is stamped on every active entry. |
| UnitRegistry.CallsTakeEffect | src/coordinator/workerUnitRuntime.ts:112-179 | What an accepted call leaves visible of its unit; no call touches another unit. |
| UnitRegistry.SuccessIff | src/coordinator/workerUnitRuntime.ts:112-158 | An activation succeeds iff the unit is catalogued, the identity fits its scope, and the unit is free or active under the same identity; a free unit gets the id brought along or the next number. Readiness succeeds iff the id is the active one's. |
| UnitRegistry.NumbersIncrease | src/coordinator/workerUnitRuntime.ts:125-128 | Over every run each number handed out is above all before it, so no two instances share one. |
| UnitRegistry.OldInstancesStayOut | src/coordinator/workerUnitRuntime.ts:144-179 | Over every run an instance once stopped or replaced is never current again, unless a caller brings the same name, and a ready, fail or stop that carries its id changes nothing. |
| UnitRegistry.SupersededCallsAreSilent | src/coordinator/workerUnitRuntime.ts:144-179 | A call with an instance id that is not current changes nothing and wakes nobody; `OldInstancesStayOut` says that a superseded id stays so. |
| UnitRegistry.RunKeepsLoop | src/assembly/coordinatorWorker.ts:1719-1736 | Over every run the request flag, the schedule flag and the reconcile loop agree, and reconciles of this loop never overlap. |
| UnitRegistry.NoLostWakeUp | src/assembly/coordinatorWorker.ts:1719-1736 | Whenever the loop is idle, its latest reconcile started after the latest registry change; and once calls stop it gets there within a microtask and two settled reconciles. |
| UnitRegistry.UnitWorker.Touch | src/coordinator/workerUnitRuntime.ts:79-91 | Stamping and notifying in place. |
| UnitRegistry.UnitWorker.ActivateUnit | src/coordinator/workerUnitRuntime.ts:112-142 | Activation in place, with its identity checks and error cases, decided as in `SuccessIff`, under an id of its own. |
| UnitRegistry.UnitWorker.ReadyUnit | src/coordinator/workerUnitRuntime.ts:144-158 | Readiness in place, refused for a superseded instance. |
| UnitRegistry.UnitWorker.FailUnit | src/coordinator/workerUnitRuntime.ts:160-170 | Failure in place, ignored for a superseded instance. |
| UnitRegistry.UnitWorker.StopUnit | src/coordinator/workerUnitRuntime.ts:172-179 | Stopping in place. |
| UnitRegistry.UnitWorker.ScheduleReconcile | src/assembly/coordinatorWorker.ts:1719-1736 | A wake-up is recorded, and starts the loop if none is scheduled. |
| UnitRegistry.UnitWorker.OnReconciled | src/assembly/coordinatorWorker.ts:1719-1736 | A settled reconcile is followed by another iff one was requested meanwhile. |
| LockBarrierTheorems.OpensOnlyWhenClean | src/walletLockBarrier.ts:80-87 | The step that opens the barrier finds every operation of the cycle succeeded and no page owing a report. |
| LockBarrierTheorems.EveryPageReported | src/walletLockBarrier.ts:62-66 | When the barrier opens, every page that took part when the last attempt began, and every later joiner, has since left or reported success for that very attempt of that lock. |
| LockBarrierTheorems.WaitsForWhoOwes | src/walletLockBarrier.ts:19-23 | In every reachable closed state the pages waited for are exactly those that owe a report by the event history. |
| LockBarrierTheorems.StaysOpen | src/walletLockBarrier.ts:80-87 | Once open the barrier stays open until the next attempt, which only a begin or a retry starts. |
| LockBarrierTheorems.CleanBarrierOpens | src/walletLockBarrier.ts:57-58 | The barrier is never stuck: closed with everything clean, only the joint promise of the current attempt is outstanding, and its settling opens it. |
| LockBarrierTheorems.LateReportIsVoid | src/walletLockBarrier.ts:62-63 | A report for an earlier attempt or another epoch changes nothing, whenever it arrives. |
| LockBarrierTheorems.TimeoutOnlyReports | src/walletLockBarrier.ts:38-42 | A time-out starts and ends no execution and lifts no page's debt; with anything unfinished the barrier stays closed as failed. |
| LockBarrierTheorems.RestartedOnlyAfterRejection | src/walletLockBarrier.ts:44-57 | Between two starts of an operation it was rejected, and it had not succeeded before: at most one execution is in flight and none follows success. |
| LockBarrierTheorems.RetryTakesUpTheRest | src/walletLockBarrier.ts:30-61 | A retry of a failed attempt has every unfinished operation in flight again, done ones untouched, and every participating page owes anew. |
| LockBarrierTheorems.LogIsDigest | src/walletLockBarrier.ts:70-79 | The failure log keeps the first and the latest three of what was recorded, nothing is recorded twice, and a finished operation shows no error; `LogFollowsEvents` says what that is. |
| LockBarrierLog.LogFollowsEvents | src/walletLockBarrier.ts:38-79 | Over every run log and diagnostics are the first and the latest three of the failures that the events brought up since the latest begin, each once: rejections of executions that the current attempt awaits, errors reported by pages that owe it, and at a time-out every silent page and every unfinished operation, in order. |
| LockBarrierLog.UnrepeatedMeans | src/walletLockBarrier.ts:70-73 | Each once: nothing that occurred is missing, nothing else is listed, and no two entries agree in attempt and text. |
| LockBarrierLog.DoneIffSucceeded | src/walletLockBarrier.ts:51-57 | An operation is done iff an execution in flight of it has succeeded since the latest begin. |
| LockBarrierTheorems.BeginClosesIff | src/walletLockBarrier.ts:24-31 | begin closes the barrier for a new attempt iff no promise of an unfailed cycle is kept; otherwise it replaces the operations and starts none. |
| LockBarrierTheorems.BusyWindowIsReachable | src/walletLockBarrier.ts:57-59 | That other case is reachable: the last operation opens the barrier before the joint promise is cleared. |
| LockBarrierTheorems.OpenIsDoneIff | src/walletLockBarrier.ts:24-31 | In every run an open barrier has all operations done iff the latest begin did not meet a kept promise. |
| GlobalLock.LockStartsIff | src/assembly/coordinatorWorker.ts:2599-2671 | In every run of the worker a lock starts its own cleanup, with every operation in flight and every page waited for, iff no lock is remembered, the barrier is open and it keeps no promise. |
| GlobalLock.LockStrandsIff | src/assembly/coordinatorWorker.ts:2599-2601 | A lock hands its cleanup to an open barrier that starts none of it iff no lock is remembered, the barrier is open and keeps a promise; that promise is then one of a retried attempt, which line 2601 does not remember. |
| GlobalLock.OnlyRetriesAreForgotten | src/assembly/coordinatorWorker.ts:2664-2669 | The promise of an attempt that a begin started is remembered as long as the barrier keeps it. |
| GlobalLock.StrandingIsReachable | src/assembly/coordinatorWorker.ts:2599-2601 | A run that gets there: an operation is rejected, its promise settles, a second lock retries it, it succeeds, and a third lock comes before the retry's promise is cleared. |
| GlobalLock.OpenWalletIsClean | src/assembly/coordinatorWorker.ts:2576 | In every run of the worker an open barrier has all cleanup done iff the latest begin did not strand. |
| GlobalLock.WorkerRunsBarrier | src/assembly/coordinatorWorker.ts:2586-2591 | Every run of the worker is a run of the barrier, so all theorems on barrier runs hold of the worker. |
| LockBarrierTheorems.StepMoves | src/walletLockBarrier.ts:19-87 | Every event, also a begin while a promise is kept and a retry of an open barrier, keeps the invariant (snapshot, watchers, lives of executions, log) and moves pages and attempt only as the history definitions say. |
| LockBarrierTheorems.RunKeepsInv | src/walletLockBarrier.ts:19-87 | Over every run of register, remove, begin, retry, report, time-out and settlements that invariant holds. |
| WalletLockBarrierObject.WalletLockBarrier.Register | src/walletLockBarrier.ts:19-22 | A page joins in place, also during a cycle. |
| WalletLockBarrierObject.WalletLockBarrier.Remove | src/walletLockBarrier.ts:23 | A page leaves in place, which may open the barrier. |
| WalletLockBarrierObject.WalletLockBarrier.Begin | src/walletLockBarrier.ts:24-29 | A begin on an open barrier, in place: a new attempt, or only the new operations while a promise is kept. |
| WalletLockBarrierObject.WalletLockBarrier.Retry | src/walletLockBarrier.ts:30-61 | A retry in place, in any state: a running, unfailed attempt is joined; otherwise a new attempt begins. |
| WalletLockBarrierObject.WalletLockBarrier.LaunchOperations | src/walletLockBarrier.ts:44-50 | The loop launches or joins each unfinished operation. |
| WalletLockBarrierObject.WalletLockBarrier.Report | src/walletLockBarrier.ts:62-66 | A page's report in place. |
| WalletLockBarrierObject.WalletLockBarrier.TimerFires | src/walletLockBarrier.ts:38-42 | The two time-out loops in place. |
| WalletLockBarrierObject.WalletLockBarrier.OperationSettles | src/walletLockBarrier.ts:51-57 | The continuations of a settled execution, in place. |
| WalletLockBarrierObject.WalletLockBarrier.RecordFailure | src/walletLockBarrier.ts:70-79 | Recording in place, with the splice that keeps the first entry. |
| WalletLockBarrierObject.WalletLockBarrier.CommitState | src/walletLockBarrier.ts:80-87 | The commit in place. |
| WalletLockBarrierObject.LockPath.PerformGlobalLock | src/assembly/coordinatorWorker.ts:2599-2671 | The three ways of a lock, in place over the barrier object. |
| WalletLockBarrierObject.LockPath.OnJointSettled | src/assembly/coordinatorWorker.ts:2664-2667 | A settled joint promise is forgotten by the barrier and then by the lock path. |
| AuthorityLeases.RunKeepsInv | src/coordinator/workerAuthority.ts:190-269 | Over every run of claims, acquires, releases and mutex turns: entries, reference counts and the shared lease agree, also across generations. |
| AuthorityLeases.RecordCounts | src/coordinator/workerAuthority.ts:166-188 | Each record holds exactly one entry per unreleased write lease taken on it, plus one if a read group lives on it; a group's references are its unreleased handles and its waiting releases. |
| AuthorityLeases.HolderIsCovered | src/coordinator/workerAuthority.ts:207-250 | Whoever holds an unreleased read handle is covered by an entry in the record of that handle's generation; in the current generation its group is the shared one. |
| AuthorityLeases.ReleaseStaysInItsGeneration | src/coordinator/workerAuthority.ts:224-233 | A release runs on a positive count, so the clamp never acts; a release of an old generation leaves the records and the shared lease of other generations alone. |
| AuthorityLeases.ReadersShare | src/coordinator/workerAuthority.ts:212-218 | Readers of one generation share one group and one entry. |
| AuthorityLeases.ReleasedAllIsEmpty | src/coordinator/workerAuthority.ts:250-268 | With everything released and the mutex idle, no record keeps an entry and nothing is shared. |
| AuthorityLeases.ReadTurnDecides | src/coordinator/workerAuthority.ts:190-222 | The turn of a read gives a handle of the shared lease, and counts it, iff a live lease of the current generation exists; otherwise it goes on to ask the authority, without trace. |
| AuthorityLeases.ReadAnswerDecides | src/coordinator/workerAuthority.ts:235-253 | The answer gives a handle of a new shared lease, with a fresh entry in the record of that moment, iff the authority is current; the mutex is free either way. |
| AuthorityLeases.WriteAnswerDecides | src/coordinator/workerAuthority.ts:166-188 | A write lease with a fresh entry in the current record is given iff the authority is current. |
| AuthorityLeases.GenerationCountsClaims | src/coordinator/workerAuthority.ts:89-107 | Over every run the generation counts the claims, and a claim adds one empty record under the next generation. |
| AuthorityLeases.MutexServesAll | src/coordinator/workerAuthority.ts:190-233 | Under an authority that stays current, turns alone free the mutex, and every waiting read gets its handle. |
| AuthorityLeases.WorkerAuthority.ClaimAuthority | src/coordinator/workerAuthority.ts:89-107 | A claim starts an empty record under the next generation. |
| AuthorityLeases.WorkerAuthority.AcquireWriteLease | src/coordinator/workerAuthority.ts:166-188 | A write lease registers an entry of its own, or is refused without trace. |
| AuthorityLeases.WorkerAuthority.RunNextOperation | src/coordinator/workerAuthority.ts:190-233 | A mutex turn: an acquire joins the shared lease or goes on to wait; a release gives back one reference. |
| AuthorityLeases.WorkerAuthority.ResumeAcquire | src/coordinator/workerAuthority.ts:235-253 | After the authority check the acquire creates the shared lease on the record current now, or fails without trace. |
| AuthorityLeases.WorkerAuthority.ReleaseReadHandle | src/coordinator/workerAuthority.ts:224-226 | A handle queues one release, however often it is called. |
| AuthorityLeases.WorkerAuthority.ReleaseWriteLease | src/coordinator/workerAuthority.ts:182-187 | A write lease deletes its own entry once. |
| FinalIoAudit.AdmittedBalances | src/coordinator/finalIoAudit.ts:83-105 | For every operation admitted = completed + failed + unknown + open handles. |
| FinalIoAudit.FinishKeepsLedger | src/coordinator/finalIoAudit.ts:93-97 | Finishing keeps the counters equal to the number of handles with each outcome. |
| FinalIoAudit.FirstOutcomeStays | src/coordinator/finalIoAudit.ts:93-96 | A second finish of a handle is void. |
| FinalIoAudit.LedgerFollowsEvents | src/coordinator/finalIoAudit.ts:83-105 | Over every run there is one handle for each begun operation, in order, with the outcome it was first finished with, and the counters count just these. |
| FinalIoAudit.FinalIoAudit.Begin | src/coordinator/finalIoAudit.ts:86-92 | Begins a handle in place and counts it. |
| FinalIoAudit.FinalIoAudit.Finish | src/coordinator/finalIoAudit.ts:93-97 | Finishes a handle in place, once. |
| FinalIoTheorems.GivenBackOnce | src/coordinator/workerAuthority.ts:308-398 | On every exit path the admission, the gate lease, the I/O lease and the audit handle that a call took are given back exactly once; nothing is taken or given back twice. |
| FinalIoTheorems.AuditBalances | src/coordinator/workerAuthority.ts:374-377 | Per operation, admitted = completed + failed + unknown + calls in flight. |
| FinalIoTheorems.FailuresAreReads | src/coordinator/workerAuthority.ts:376-377 | No write's audit ever ends as failed and no read's as unknown; failed counts exactly the reads that ended so, and unknown exactly the writes. |
| FinalIoTheorems.SuccessMeansCurrent | src/coordinator/workerAuthority.ts:354-375 | A returned result implies that the body ended while the admitting gate was active and the call not aborted, or after an allowed local lock or owner transition, and that the authority was found current after that. |
| FinalIoTheorems.ExactOutcome | src/coordinator/workerAuthority.ts:352-397 | Over every run a call returned its result iff its body had ended well, the authority was then found current and the I/O lease was released; the audit says completed iff the first two hold, so also of a call that failed in its release, and otherwise unknown for a write and failed for a read. |
| FinalIoTheorems.OutcomeOf | src/coordinator/workerAuthority.ts:352-397 | A running call whose three answers come in turn does reach that outcome. |
| FinalIoProgress.EntryDecides | src/coordinator/workerAuthority.ts:334-352 | An entry passes iff it was let in, a current gate exists, it is active and the call is not aborted; then the call holds the lease of that gate and awaits the I/O lease iff durable, and otherwise runs, with an audit handle iff one was asked for. |
| FinalIoProgress.LeaseDecides | src/coordinator/workerAuthority.ts:345-353 | A durable call whose lease is answered runs iff it got the lease and its gate is still active. |
| FinalIoProgress.SucceedsIffAllWell | src/coordinator/workerAuthority.ts:316-398 | Over every run a call whose answers all came out well stands at just the stage that their number says, and a call with a bad one has failed or is about to. |
| FinalIoProgress.ExactFromTheStart | src/coordinator/workerAuthority.ts:316-398 | A call that is over succeeded iff admission, entry, lease, body, authority and release each came out well at its moment. |
| FinalIoProgress.EnvironmentDecides | src/coordinator/workerAuthority.ts:271-306 | Closing deactivates the current gate, a replacement is active and current, an abort marks its call, and nothing else touches gates, sessions or aborts. |
| FinalIoProgress.AbortedIffAbortCame | src/coordinator/workerAuthority.ts:316-333 | A call counts as aborted iff an abort has come since it began. |
| FinalIoTheorems.LeaseRemembersEntry | src/coordinator/workerAuthority.ts:334-339 | The gate and the session facts that the end of the body is judged by are those read at the call's entry, when that gate was the current, active one. |
| FinalIoTheorems.StepKeepsInv | src/coordinator/workerAuthority.ts:327-398 | Every stretch of every call, and every closing or replacing of gates between, keeps which resources each call holds. |
| FinalIoLeases.EachLeaseHasItsCall | src/coordinator/workerAuthority.ts:346-384 | Wrapper and leases together: every read handle and write lease ever given out belongs to one call, no two calls share one, and it is released exactly when that call has left its body behind. |
| FinalIoLeases.BodyIsCovered | src/coordinator/workerAuthority.ts:345-352 | While the body of a call with a durable lease runs, and until its authority is confirmed, the record keeps the entry of its lease. |
| FinalIoLeases.AllOverIsEmpty | src/coordinator/workerAuthority.ts:380-396 | When every call is over and the mutex is idle, no record keeps an entry and nothing is shared. |
| FinalIoLeases.RunKeepsInv | src/coordinator/workerAuthority.ts:327-398 | Over every run of calls, mutex turns and claims, the waiting line of readers and the mutex queue agree, and calls hold leases of their own kind. |
| FinalIoBoundary.Boundary.OnEntry | src/coordinator/workerAuthority.ts:328-349 | The stretch from the authority check to the I/O lease, in place, decided as in `EntryDecides`. |
| FinalIoBoundary.Boundary.OnIoLease | src/coordinator/workerAuthority.ts:348-353 | The stretch from the I/O lease to the body, in place. |
| FinalIoBoundary.Boundary.OnBodyEnd | src/coordinator/workerAuthority.ts:353-371 | The replacement conditions and the last lease check, in place. |
| FinalIoBoundary.Boundary.OnAuthority | src/coordinator/workerAuthority.ts:373-379 | The confirmation, in place. |
| FinalIoBoundary.Boundary.OnReleased | src/coordinator/workerAuthority.ts:380-396 | The finally block after its await, in place. |
| FinalIoBoundary.Boundary.CloseUpgradeSession | src/coordinator/workerAuthority.ts:394-398 | Closing deactivates the current gate, and with it every lease admitted by it. |
| FinalIoBoundary.Boundary.ReplaceUpgradeSession | src/coordinator/workerAuthority.ts:271-306 | An unusable gate is closed; a new one takes its place iff the handshake is accepted. |
| Base58.Encode | packages/contracts/src/p2pkhPublicKeyAddress.ts:45-59 | The encoder's loops; only the empty input is refused, because BigInt cannot read "0x". |
| Base58.EncodedMeans | packages/contracts/src/p2pkhPublicKeyAddress.ts:45-59 | The text denotes the big-endian value of the bytes in base 58, and its leading ones are as many as the leading zero bytes. |
| Base58.DecodeEncoded | packages/contracts/src/p2pkhPublicKeyAddress.ts:45-59 | Decoding the text gives the bytes back. |
| Base58.EncodedInjective | packages/contracts/src/p2pkhPublicKeyAddress.ts:45-59 | Byte strings with the same text are the same. |
| Base58.HexValue | packages/contracts/src/p2pkhPublicKeyAddress.ts:47 | The hexadecimal detour keeps the value. |
| P2pkhAddress.ZeroVersion | packages/contracts/src/p2pkhPublicKeyAddress.ts:16-21 | Twenty-five bytes beginning with 0x00 give a text beginning with 1, of at most 34 characters. |
| P2pkhAddress.TestVersion | packages/contracts/src/p2pkhPublicKeyAddress.ts:16-21 | Twenty-five bytes beginning with 0x6f give exactly 34 characters, the first m or n. |
| P2pkhAddress.AddressShape | packages/contracts/src/p2pkhPublicKeyAddress.ts:5-22 | Every address has the shape of its network and decodes to version, key hash and checksum. |
| P2pkhAddress.AddressDetermines | packages/contracts/src/p2pkhPublicKeyAddress.ts:5-22 | Equal addresses come from the same network and the same key hash. |
| P2pkhAddress.HexOfFromHex | packages/contracts/src/p2pkhPublicKeyAddress.ts:24-32 | Reading hexadecimal text as bytes loses nothing. |
| P2pkhAddress.HexToBytes | packages/contracts/src/p2pkhPublicKeyAddress.ts:24-32 | Any text: a prefix, blanks and case are cleaned away, odd length is refused, and the rest is read pair by pair, as parseInt reads it. |
| P2pkhAddress.DeriveP2pkhAddress | packages/contracts/src/p2pkhPublicKeyAddress.ts:5-22 | The whole derivation, with both error cases. |
| PlatformStore.AtMostOneEffect | src/bootstrapPlugins.ts:351-373 | One request sends at most two calls, and all but one of them were refused before any I/O. |
| PlatformStore.RefusedIsRepeated | src/bootstrapPlugins.ts:359-373 | A request refused before any I/O on the grant in use discards it, awaits one new bind, and its second call decides the result. |
| PlatformStore.RepeatsOnNewerGrant | src/bootstrapPlugins.ts:369-372 | A repeated call goes out on a newer grant than the refused one. |
| PlatformStore.LateFailureJoins | src/bootstrapPlugins.ts:328-333 | A failure on a grant that was replaced meanwhile neither discards the newer grant nor starts a bind: it joins the newer one. |
| PlatformStore.OneBindAtATime | src/bootstrapPlugins.ts:309-327 | At most one bind is under way; it is the shared one and no grant is in use beside it. |
| PlatformStore.GrantsDieByUse | src/bootstrapPlugins.ts:328-333 | Another bind is sent only after the last was rejected, or its grant refused or gone stale for a request that called with it. |
| PlatformStore.RefusalsShareRebind | src/bootstrapPlugins.ts:354-373 | Requests refused on the same grant share one rebind, unless the earlier rebind was rejected or its grant refused or gone stale as well. |
| PlatformStore.StartAwaits | src/bootstrapPlugins.ts:309-327 | A request of an open store awaits the bind that is under way or done, and sends one iff there is none. |
| PlatformStore.FirstAnswerDecides | src/bootstrapPlugins.ts:328-373 | What the answer to a first call does, as iffs: a value ends it, a final error fails it, a refusal awaits a bind; the grant goes iff this call used the one in use and was refused or failed on a stale binding. |
| PlatformStore.ResultIff | src/bootstrapPlugins.ts:351-373 | Over every run, the exact result of a request: which answer, bind or closing it ended with. |
| PlatformStore.StepKeepsInv | src/bootstrapPlugins.ts:309-373 | Every event keeps grant, bind and requests in agreement. |
| PlatformStore.PlatformStore.OnAnswer | src/bootstrapPlugins.ts:354-373 | The answer of a call in place: value, final error, or one rebind. |
| PlatformStore.PlatformStore.OnBind | src/bootstrapPlugins.ts:312-325 | The answer of a bind in place. |
| PlatformStore.PlatformStore.InvalidateGrant | src/bootstrapPlugins.ts:328-333 | Only the grant in use can be discarded. |
| RequestQueue.HandlersAreSerial | src/assembly/coordinatorWorker.ts:2403-2419 | Handlers never overlap and begin in the order in which their requests arrived. |
| RequestQueue.DisconnectedNeverRuns | src/assembly/coordinatorWorker.ts:2421-2437 | A request answered as disconnected had not run its handler and never will, and the answer stays. |
| RequestQueue.RunIsAnsweredByItsHandler | src/assembly/coordinatorWorker.ts:2421-2437 | A request whose handler began is answered by that handler's own result, and only when it has ended. |
| RequestQueue.OthersRun | src/assembly/coordinatorWorker.ts:2406-2417 | Only an abort or a revoked peer keeps a request whose turn has come from its handler. |
| RequestQueue.IdleMeansAnswered | src/assembly/coordinatorWorker.ts:2418-2419 | With nothing running and every turn taken, each request has its answer. |
| RequestQueue.TurnDecides | src/assembly/coordinatorWorker.ts:2406-2417 | A turn starts the handler of the first waiting request iff neither abort nor revocation came first, and otherwise answers it as disconnected. |
| RequestQueue.AbortDecides | src/assembly/coordinatorWorker.ts:2427-2436 | An abort answers its request at once iff it had no turn yet, and touches no other. |
| RequestQueue.EveryoneIsAnswered | src/assembly/coordinatorWorker.ts:2403-2437 | If handlers end, every request is answered: one still waiting by its handler iff nothing has cut it off. |
| RequestQueue.CoordinatorRequestQueue.EnqueueRequest | src/assembly/coordinatorWorker.ts:2403-2437 | Enqueueing in place; an aborted signal is answered at once. |
| RequestQueue.CoordinatorRequestQueue.ExecuteNext | src/assembly/coordinatorWorker.ts:2406-2417 | A turn in place: the handler starts unless the request was aborted or its peer revoked. |
| RequestQueue.CoordinatorRequestQueue.OnAbort | src/assembly/coordinatorWorker.ts:2427-2436 | An abort answers only a request that did not start. |

## Left out

- The WebLoom framework, Web Locks, IndexedDB, React, timers and the hash functions: a gate is active or closed, a scope revocation runs its callback atomically, hashes are parameters returning 32 and 20 bytes.
- A peer connects under an id that no configured peer has, because the framework gives each physical connection an id of its own; without that, `coordinatorPeers.set` would overwrite the registered peer, the old scope's callback would return early, and an owner of that id would keep the orphan's binding (`ReusedIdKeepsElectionIff`, `ReusedIdOrphansOwner`). Service exposures, bridge requests and grants of a peer are not modelled, and a drain may settle at any time.
- The worker.units topic in `ReplicaAgreement`: its revision comes from Host state and may repeat. The other client topics are modelled in `TopicClient` only.
- `ReplicaAgreement` assumes that every change of a projection is published in the same step, and speaks of one connection whose trackers start reset.
- The RPC response path that also writes the session epoch (`keymasterSessionCoordinatorClient.ts:486`), topic listeners, and payloads beyond the fields that decide.
- `WalletLockBarrier.reset` and the registry's reset, used by tests only; time stamps, the 8192 and 32768 character cuts and the joined error text of the barrier; publishing its snapshot.
- `WalletLockBarrierObject.WalletLockBarrier.Begin`: only on an open barrier; its one caller looks at the snapshot in the same stretch (`coordinatorWorker.ts:2601`). The wallet's own lock transition around it is not modelled.
- In the lock barrier a settled promise reaches all continuations awaiting it before any other event; labels and epochs are plain strings.
- Lease-id strings: identity is the position. Records, groups, gates and handles are entries of sequences in the classes too, so aliasing between their objects is by index.
- The scheduling of the first authority claim (`workerAuthority.ts:111-146`): a claim may happen at any step, and an authority check answers yes or no.
- `FinalIoBoundary.Boundary`: the audit ledger is held as a value of the ledger's own transitions rather than as a second object.
- `PlatformStore`: error messages are represented by two independent facts, whether they are in the pre-I/O set and whether they look stale; a request may resume any time after its bind has settled.
- `P2pkhAddress.HexToBytes`: characters outside ASCII whose lower case has another length, which shift the pairs.
- `UnitRegistry.OldInstancesStayOut`: an instance id that a caller brings is taken never to have the registry's own numbered form (`workerUnitRuntime.ts:127`).
- `UnitRegistry.UnitWorker.StopUnit`: the returned snapshot's descriptive fields (product, services, tasks) are not modelled; neither are throwing subscribers and a throwing snapshot publication before scheduling.
- The connect, reconnect and page-presence code of the client, plugin bootstrap staging, worker retirement, diagnostics redaction, the media service worker and route migration: wiring over unseen hosts.
- The small validators of the contracts package (auto-lock, background intervals, fee policy, spend classification): one-branch facts.
