# A verified model of the client cache mirror

The repository keeps a copy of a client's `~/.claude` tree (and `~/.claude.json`) on a server, so that a remote session
can read it. This project models the parts that decide what that copy holds, and proves what they promise.

**The cache-sync protocol.** `CacheStore` is the server's cache of one device: a manifest and content-addressed blobs,
changed by lists of atomic disk writes that a fault may cut short anywhere. `CacheTasks` says what each critical
section of the task manager does to a task; `CacheTaskManager` and the store's class are the imperative code, proved
against these functions, and `CacheTaskProperties` fences deltas. `TaskRuns` composes the sections into runs,
`TaskRunProperties` says what holds in every run, and `MutationWindow` follows the remembered mutation ids.
`SectionMeanings` tells what each section does in the record's own fields, without the functions the code is proved
against; `Heartbeats` traces a record's two times back through its run to say whom a sweep deposes, and `ReadBypass` a
session's own change of a file to the moment when reads may be served from the cache again.
`ClientMachine` is the client's state machine, and `SyncProtocol`, with its two proof modules and `SyncTheorems`, is
the whole: server, clients and a network that loses, repeats and reorders, several tasks and other writers sharing one
manifest per device. `Assignments` counts a client's assignments, `WatcherChanges` follows a change that the watcher
reports, `TruncationFlags` what the manifest says about truncation back to the plans that were made, and `SyncExample` is
one execution in full. `UploadPipeline` is the accounting of batches in flight,
`UploadRefinement` compares sending on predicted revisions with sending one at a time, and `PromiseLock` is the
promise-chain lock that makes a section one step.

**Reconciliation.** `ScanFilter`, `Walk` and `Scan` are the pruned, depth-limited walk of a finite file tree;
`ScopeBudget` the byte budget; `Reconcile` the diff against the remote manifest and what applying it leaves. `Mirror` joins
this with the protocol: what a ready task's manifest says about the client's files. `EndToEnd` goes the whole way, from
the access ledger over the plan, the scan and the sync to the directory snapshot, for the files that are shown and for
the content they are shown with.

**Path indexes.** `AccessLedger` is the ledger's class with its map, two sorted lists and set; `LedgerProperties`,
`AccessEventBuffer` and `LedgerFile` prove its invariants over flushes and through files; `EventMeanings` says what each
flushed event means for the paths it names; `PathScan` is about scans of a
sorted list; `NegativeCache` is the FUSE daemon's cache; `SyncPlan` and `Snapshot` derive a walk instruction and a
directory tree from flat paths. `StringOrder` and `Paths` hold what these need about strings.

## How it is modelled

- A critical section is one atomic step with one clock reading. It touches its own task record and makes at most one
  store access; other tasks' store writes after that access commute with the rest of the section, so interleaving them
  before or after the section covers all cases. `PromiseLock` proves that sections of one key do not overlap.
- A task record is an object: a handler that looked it up may use it after the map has dropped it. Records are therefore
  named by numbers and never disappear.
- The end of an initial sync sets its client to watching without looking at the assignment again; if another assignment
  has come in between its report and that, the new one starts out watching. `SyncProtocol` has the two as separate steps
  and remembers such assignments as `raced`. Clients that say hello once per connection never come to this
  (`NeverRaced`).
- In `SyncProtocol` a client says hello for one device and directory only, as the repository's client does; `TaskRuns` does
  not assume this.
- Disk faults, clocks, ids, contents and the hash are parameters. New ids are new. A fault is a bound on the number of
  writes that still succeed.
- Paths are absolute and normalised; "/" is never stored. Strings are sequences of characters; only the total order of
  characters is used. The order on client ids that breaks election ties is a parameter, one number per client.
- File trees are finite and do not change during a scan; what the scan cache returns is what hashing would return.
- Where the code does less than one would expect of it, the model follows the code and says exactly when it meets the
  expectation. The ledger's rename leaves a stale missing index when something present lands on a path recorded as
  missing, and the invalidation that follows does not repair it (`RenameKeepsAgreement`, `RenameOverMissingBreaksIndex`).
  The negative cache documents a hit for every path below a stored one; its single probe gives it only without low
  extensions (`ProbeIsExact`). The sync plan treats a directory that was only stat-ed as taking care of its whole subtree,
  the client walks only its direct children (`PresentFileCovered`). The initial sync walks with the plan's instruction and
  diffs without it (`InitialSyncDeletes`). Predicted revisions hold only without another writer
  (`PredictionNeedsSingleWriter`) and with delivery in order (`ReorderedIsRejected`). A watcher change reported after the
  initial sync took its buffer out, and before it sets the client to watching, is not sent (`SentIffHeard`). A delta sent
  again is written again unless the window still holds all its ids (`ReplayWritesNothing`). A second round of
  reconciliation goes on until only files larger than the scope's limit are left (`SecondRoundIsEmpty`).

## Model

| member | source | states |
|---|---|---|
| SyncTheorems.ReadyMeansSynced | server/src/cache-task-manager.ts:295-323 | In every execution, whatever the network loses, repeats or reorders and whoever else writes the store, a task that is ready under an assignment has had every batch of the plan made under that assignment written whole under it, and the flushed batch too unless all its changes were duplicates |
| SyncTheorems.ReadyManifest | client/src/cache-task-state-machine.ts:412-482 | When a task is ready and nobody else wrote the device's manifest since its assignment was issued, the manifest is the issued one with the plan's batches in order and then the live batches without their duplicates; each batch raised the revision by one and the task is at the store's revision. The flushed batch, which holds exactly the buffered changes, is among them if and only if it was not dropped whole as duplicate, and then it is the first unless an earlier sync had set the client to watching; before any other live batch is sent nothing else follows the plan |
| SyncTheorems.ReadyIsPlanAndFlush | client/src/cache-task-state-machine.ts:412-482 | With no other live batch sent and no mutation ids in the buffer, the manifest of a ready task is the issued one, then the plan, then the buffered changes, and its revision is the issued one plus the number of batches |
| SyncTheorems.ResyncIsUnreachable | server/src/cache-task-manager.ts:305-307 | A completion report never makes the server reassign its sender: the reported revision is at most the task's, for every network and any number of other writers |
| TruncationFlags.FlagsAreReported | server/src/file-agent/store.ts:135-159 | In every execution the manifest has, scope by scope, the truncation flags of the plans of the sync whose report was stored last for the device, until somebody else writes the manifest |
| TruncationFlags.ReadyByReport | server/src/cache-task-manager.ts:295-323 | The step that makes a task ready stores the report of the assignment the task holds |
| TruncationFlags.ReadyFlagsArePlans | client/src/cache-task-state-machine.ts:466-474 | From then on the manifest says of each scope that it is truncated if and only if the budget dropped one of the files found there |
| Assignments.AssignmentsPerHello | server/src/cache-task-manager.ts:107-217 | In every execution a client has been issued at most as many assignments as it has said hello: an election takes a waiting candidate, and a deposed client waits no more |
| Assignments.NeverRaced | client/src/cache-task-state-machine.ts:473-482 | When clients say hello once, as the repository's client does on each connection, the end of a sync never sets a client to watching under another assignment |
| Assignments.SectionSpends | server/src/cache-task-manager.ts:155-217 | A critical section other than the hello issues an assignment only to a candidate that was not active, and makes no client such a candidate |
| WatcherChanges.SentIffHeard | client/src/cache-task-state-machine.ts:443-496 | A change that the watcher reports under an assignment, and does not report anew, has been sent live under that assignment or still waits where the next live batch or the coming flush takes it from, as long as the assignment lasts, if and only if at the report the client was watching or its sync had not flushed yet. Otherwise it stays in the buffer and no live batch names its file |
| WatcherChanges.HeardByPhase | client/src/cache-task-state-machine.ts:443-482 | That condition is the sync's phase at the report: before or at the flush, or finished, unless an earlier sync's end had set the client to watching |
| WatcherChanges.WaitingCanBeSent | client/src/cache-task-state-machine.ts:457-461 | A waiting change can be sent in the next step when its client watches or its sync has come to the flush: every map of changes can be listed, and the list holds the change |
| SyncExample.LateChangeIsStranded | client/src/cache-task-state-machine.ts:457-482 | Such a change exists: an execution in which one is reported while the completion report is being made, the task becomes ready, and the change is in the buffer and in no live batch |
| Mirror.ReadyMirrorsClient | client/src/cache-task-state-machine.ts:334-482 | When a task becomes ready without other writers, after a sync that planned both scopes against the assigned manifest, the server's manifest is a mirror of what the client found followed by what was written live: each found file's size, time and hash of what was read, or no content if it is over the file limit, unless the budget dropped it; the old entry of a dropped one; and no file that was not found |
| EndToEnd.AccessedFilesAreShown | server/src/file-proxy-manager.ts:1167-1211 | From ledger to snapshot: after a sync without other writers that scanned for the plan made from the ledger, the server shows, of the files it has seen being read and no live batch has changed, exactly those that exist on the client, are not skipped and lie within the plan's depth, with the client's size and time; of those the budget dropped it shows what it showed before |
| EndToEnd.FoundContentIsShown | server/src/file-proxy-manager.ts:1213-1252 | The content of the same execution: of a found file that no live batch has changed the snapshot shows data whose hash is the hash of what the client read, none if it is over the file limit, and, where size and time had not changed, data of the hash the manifest had before |
| EndToEnd.StoresAreSound | server/src/file-agent/store.ts:114-344 | In every execution whose other writers leave sound stores, every device's store is sound after every step: each entry with content has a blob that hashes to the entry's hash |
| EndToEnd.DataMeans | server/src/file-proxy-manager.ts:1219-1226 | The data a snapshot's file comes with: none exactly for a skipped entry, and otherwise content of the entry's hash |
| EndToEnd.SnapshotShowsData | server/src/file-proxy-manager.ts:1167-1252 | Each file of the scope is shown with exactly that data |
| EndToEnd.AccessedIsFound | client/src/cache-sync.ts:681-725 | Of the files the server has seen being read, the client's scan for the plan finds exactly those that exist, are not skipped and are not two or more levels below a directory that was seen but never read |
| EndToEnd.MissingIsDeleted | client/src/cache-sync.ts:752-784 | A path the server knows to be missing is not looked for by the plan's scan, and diffing with the plan's instruction deletes a remote entry that is still there |
| EndToEnd.SnapshotShows | server/src/file-proxy-manager.ts:1167-1211 | A snapshot shows a file at a path of the scope exactly if the manifest has it, with the manifest's size and time |
| EndToEnd.PlanHome | client/src/cache-task-state-machine.ts:334-384 | Walking the scope for the instruction, or whole if it lists nothing, and diffing against the whole scope gives exactly the files the instruction leads to, each once, and their plan |
| Mirror.MirroredMirrors | client/src/cache-sync.ts:512-576 | Both scopes' plans together make the manifest a mirror of both scopes |
| Mirror.StagesMakeMirror | client/src/cache-sync.ts:294-410 | Pushing each scope's metadata batch and then its uploads one by one applies exactly the two plans |
| Mirror.StagesAreWellPlanned | client/src/cache-sync.ts:512-576 | The plans of two scopes have no empty batch and no mutation ids, so a sync can be made of them |
| SyncExample.ReadyIsReached | client/src/cache-task-state-machine.ts:334-482 | Such executions exist: one in which a client says hello, plans its one file against the empty manifest, uploads it without another writer, reports its plans' truncation flags, and its task becomes ready |
| SyncTheorems.ExecutionKeeps | client/src/cache-task-state-machine.ts:334-482 | Every execution of server, clients and network keeps the protocol's invariant |
| SyncTheorems.StepKeeps | client/src/cache-task-state-machine.ts:334-605 | Every single step, of the server, of a client or of a message, keeps the invariant |
| SyncTheorems.SoloManifest | client/src/cache-sync.ts:321-410 | The manifest of an assignment that had no other writer, from the invariant alone |
| SyncTheorems.PlanComesFirst | client/src/cache-sync.ts:321-410 | Once the plan is written, its batches are the first log entries of the assignment, each at its predicted place and whole |
| SyncTheorems.PlanEntryPlace | client/src/cache-sync.ts:327-328 | The place of a plan batch among its assignment's entries is what its predicted base says |
| SyncTheorems.FlushComesNext | client/src/cache-task-state-machine.ts:457-461 | The flushed buffer, if not dropped as duplicate, is the first entry after the plan, unless an earlier sync had set the client to watching |
| SyncTheorems.OnlyFlushFollows | client/src/cache-task-state-machine.ts:457-482 | Until another live batch is sent, exactly the flushed batch follows the plan, if there is one that was not dropped as duplicate, and nothing otherwise |
| SyncProtocolProofs.ServerStepKeeps | server/src/cache-task-manager.ts:107-323 | Any critical section of the server keeps the protocol's invariant |
| SyncProtocolProofs.DeltaSteps | server/src/cache-task-manager.ts:219-293 | A delta is written and logged, or manifest, log and revision stay; a positive ack means the sender held the assignment and carries the task's new revision |
| SyncProtocolProofs.DroppedNow | server/src/cache-task-manager.ts:230-238 | A flushed batch that is accepted without being written was not written before, and consists of changes the record remembers |
| SyncProtocolProofs.DroppedStays | server/src/cache-task-manager.ts:230-277 | A flushed batch that was dropped as duplicate is not written later either, through any event of the server |
| SyncProtocolProofs.SoloAfterDelta | server/src/cache-task-manager.ts:230-277 | A delta under another assignment of another device, or under the assignment itself, keeps what a solo assignment says about its manifest |
| SyncProtocolProofs.ReadyStep | server/src/cache-task-manager.ts:295-323 | A record becomes ready only by a completion report for the assignment it holds |
| SyncProtocolProofs.PlainBatchPasses | server/src/cache-task-manager.ts:712-724 | Changes without mutation ids are never filtered |
| SyncProtocolClients.ClientSideKeeps | client/src/cache-task-state-machine.ts:248-482 | If only the client side moves, only what is new has to satisfy the invariant |
| SyncProtocolClients.MaxRevisionOk | client/src/cache-sync.ts:399-410 | The largest acknowledged revision of a stage is never ahead of the task, and without another writer is the stage's base plus its number of batches |
| SyncProtocolClients.StageIsLogged | client/src/cache-sync.ts:399-410 | All positive acks of a stage mean that all its batches are written under the assignment |
| SyncProtocolClients.SentJobOk | client/src/cache-sync.ts:321-360 | A batch goes out with the stage's base plus the number of batches sent before it |
| SyncProtocol.KnownStays | server/src/cache-task-manager.ts:524-605 | A revision that the store has reached and that no assignment held by the client is behind stays such a revision through every event of the server |
| SyncProtocol.HolderKnows | server/src/cache-task-manager.ts:524-605 | The revision of the record whose active client is c is known to c |
| SyncProtocol.ServerStaysOk | server/src/cache-task-manager.ts:107-323 | Candidates stay on the record of their own device and directory, and an assignment's manifest is known to its client, through every event |
| TaskRunProperties.RunKeeps | server/src/cache-task-manager.ts:107-493 | Every run of critical sections, in any order and with any other store writes between them, keeps the server's invariant |
| TaskRunProperties.EveryRecordIsConsistent | server/src/cache-task-manager.ts:524-605 | At every lock boundary: active client, assignment and heartbeat are all set or all unset, the active client is a candidate, the phase is syncing or ready exactly when there is one and never degraded, the revision is at most the store's; a record dropped from the map is vacant |
| CacheTaskProperties.DeltaFence | server/src/cache-task-manager.ts:230-277 | A delta changes the manifest exactly if something was applied, and then its sender is the active client with the current assignment and the task's revision, the manifest gains exactly the changes that are not duplicates, and the task strictly advances to the store's new revision; else task and manifest stay |
| CacheTaskProperties.AnswersMean | server/src/cache-task-manager.ts:219-293 | Which refusal gets which code, and which asks for a resynchronisation: not the active client, another assignment, another base, in this order; a fresh delta is accepted if nothing in it is new or all of it is honest and the disk holds; the first dishonest change decides between the hash code and the store code, and only the latter asks for none |
| CacheTaskProperties.ContainsMeans | server/src/cache-task-manager.ts:693-697 | The search for a part in an error message, which decides the code, finds exactly the occurrences |
| TaskRunProperties.EachBaseIsConsumedOnce | server/src/cache-task-manager.ts:230-277 | No pair of assignment and base revision is written twice in any run; bases strictly grow |
| TaskRunProperties.DroppedRecordIsInert | server/src/cache-task-manager.ts:752-761 | Handlers that still hold a record the map has dropped change nothing and reject every delta |
| TaskRunProperties.ElectionPicksEarliest | server/src/cache-task-manager.ts:607-620 | A client is elected exactly if it is the winner among the candidates; whoever is elected connected no later than any candidate that can serve; otherwise the task is idle |
| TaskRunProperties.CandidatesShrink | server/src/cache-task-manager.ts:155-217 | Only a hello adds a candidate, and every failover removes the deposed client |
| TaskRunProperties.FailoversEnd | server/src/cache-task-manager.ts:586-605 | Without new hellos a record sees at most as many failovers as it has candidates |
| SectionMeanings.HelloMeans | server/src/cache-task-manager.ts:126-153 | A hello makes its sender a candidate; a free place goes to the earliest candidate that can serve, a holder that says hello again gets the new assignment id at the store's revision, and any other holder keeps its own |
| SectionMeanings.FirstHelloMeans | server/src/cache-task-manager.ts:126-153 | The first hello for a key opens a record with its sender as the only candidate, and no other record changes |
| SectionMeanings.DisconnectMeans | server/src/cache-task-manager.ts:163-177 | A client that disconnects is no candidate and not active any more; if it held the place, the earliest of the others that can serve gets it, and none leaves the task idle |
| SectionMeanings.FaultMeans | server/src/cache-task-manager.ts:204-217 | A fatal fault costs its reporter place and candidacy if it held the assignment it names; a lesser one counts as a sign of life; anybody else's changes nothing |
| SectionMeanings.CompletionMeans | server/src/cache-task-manager.ts:301-323 | A report makes the task ready exactly if it names the assignment its sender holds, is not ahead of the task and its flags could be stored; one that is ahead gets a new assignment; any other changes nothing, flags included |
| SectionMeanings.FailOverFills | server/src/cache-task-manager.ts:586-605 | What becomes of a record whose holder has lost its place: the earliest remaining candidate that can serve holds the new assignment, or the task is idle; bypasses and remembered ids stay |
| Heartbeats.TimesAreHistory | server/src/cache-task-manager.ts:179-217 | In every run the record's heartbeat time is when its present holder was last assigned, sent a heartbeat or reported a lesser fault, and its failover time is when a holder was last replaced |
| Heartbeats.SweepDeposesTheSilent | server/src/cache-task-manager.ts:463-493 | After every run, a sweep leaves a holder that was last heard of at most the timeout ago, or that replaced another less than the cooldown ago, and takes every other holder out of the candidates and fills its place from the rest |
| ReadBypass.BypassedUntilAnswered | server/src/cache-task-manager.ts:325-426 | From a session's own change of a file on, in every run, reads of the file go past the cache of a ready task exactly until a change that answers it has been written or its time is over |
| ReadBypass.ClearingMeans | server/src/cache-task-manager.ts:699-710 | A written list of changes ends the bypass of a file exactly if one of them is of this file and carries the mutation's id or none |
| ReadBypass.AskingIsInvisible | server/src/cache-task-manager.ts:408-426 | Dropping an expired bypass when asked changes no later answer |
| TaskRuns.SectionIsGood | server/src/cache-task-manager.ts:155-217 | Each critical section leaves the record consistent and either keeps assignment and revision, drops the assignment, or takes the new one at the loaded manifest's revision |
| CacheTasks.ElectedUnique | server/src/cache-task-manager.ts:607-620 | The election has exactly one outcome |
| CacheTasks.Better | server/src/cache-task-manager.ts:607-620 | Comparing the winner so far with one more candidate gives the winner among all |
| CacheTaskManager.CacheTaskManager.GetOrCreateTask | server/src/cache-task-manager.ts:500-522 | Returns the live record of the key, creating an idle one if there is none; other keys keep theirs |
| CacheTaskManager.CacheTaskManager.CleanupIdleTask | server/src/cache-task-manager.ts:752-761 | Drops the record exactly if it has neither active client nor candidates |
| CacheTaskManager.CacheTaskManager.ElectCandidate | server/src/cache-task-manager.ts:607-620 | The loop over the candidates finds the winner |
| CacheTaskManager.CacheTaskManager.ElectActiveClient | server/src/cache-task-manager.ts:524-565 | Elects the winner and assigns the loaded manifest's revision, or leaves the task idle |
| CacheTaskManager.CacheTaskManager.ReassignActiveClient | server/src/cache-task-manager.ts:567-584 | Gives the active client a new assignment at the loaded revision |
| CacheTaskManager.CacheTaskManager.FailoverTask | server/src/cache-task-manager.ts:586-605 | Deposes the active client, removes it if asked, and elects among the rest |
| CacheTaskManager.CacheTaskManager.RegisterHelloLocked | server/src/cache-task-manager.ts:107-153 | The hello section. Its sender becomes a candidate; the active client's own hello leaves it under the new assignment id, and whoever is told to be active holds the announced id in the record, which is syncing at the announced manifest's revision |
| CacheTaskManager.CacheTaskManager.HandleDisconnectLocked | server/src/cache-task-manager.ts:155-177 | The disconnect section; whoever is told to be active holds the announced assignment |
| CacheTaskManager.CacheTaskManager.HandleHeartbeatLocked | server/src/cache-task-manager.ts:179-196 | The heartbeat section; a heartbeat of the holder under its assignment sets the heartbeat time to now |
| CacheTaskManager.CacheTaskManager.HandleFaultLocked | server/src/cache-task-manager.ts:198-217 | The fault section; whoever is told to be active holds the announced assignment |
| CacheTaskManager.CacheTaskManager.SweepLocked | server/src/cache-task-manager.ts:463-493 | The heartbeat sweep's section: a holder heard of no longer ago than the timeout is left alone, one silent for longer and with no failover before it loses place and candidacy, and whoever is told to be active holds the announced assignment |
| CacheTaskManager.CacheTaskManager.CompleteInitialSyncLocked | server/src/cache-task-manager.ts:295-323 | The completion section: if the report is stored, each reported scope has the reported flag and every other scope the flag it had; otherwise the manifest stays |
| CacheTaskManager.CacheTaskManager.RegisterMutationHintLocked | server/src/cache-task-manager.ts:325-364 | The mutation-hint section, which starts the bypass of the hinted files |
| CacheTaskManager.CacheTaskManager.ShouldBypassCacheRead | server/src/cache-task-manager.ts:408-426 | Whether a read must go past the cache; an expired bypass is dropped on the way, which changes no later answer |
| CacheTaskManager.CacheTaskManager.ApplyDeltaLocked | server/src/cache-task-manager.ts:219-293 | The delta section: task, store and ack are what the specification says, for every refusal and disk fault |
| CacheTaskManager.CacheTaskManager.FilterDuplicateMutationChanges | server/src/cache-task-manager.ts:712-724 | The filter loop drops exactly the changes with remembered ids |
| CacheTaskManager.CacheTaskManager.RememberMutationIds | server/src/cache-task-manager.ts:726-740 | The remember loop with eviction |
| CacheTaskManager.CacheTaskManager.ClearReadBypass | server/src/cache-task-manager.ts:699-710 | The loop that ends read bypasses |
| MutationWindow.RememberExactly | server/src/cache-task-manager.ts:726-740 | The id set and the id order agree, hold no id twice and at most 64, and are the last 64 ids ever added |
| MutationWindow.WindowInEveryRun | server/src/cache-task-manager.ts:726-740 | The consistency of id set and order holds for every record at every lock boundary of every run |
| MutationWindow.ReplayWritesNothing | server/src/cache-task-manager.ts:230-252 | A delta that was written and is sent again on the new revision is acknowledged without writing anything, if and only if each of its changes has a mutation id and that id is among the last 64 of those the window held and those the delta newly brought |
| MutationWindow.SmallReplay | server/src/cache-task-manager.ts:726-740 | After a delta all of whose changes were new and brought at most 64 different ids, the window holds every one of their ids, so the delta sent again writes nothing |
| MutationWindow.LargeReplayWrites | server/src/cache-task-manager.ts:733-738 | A delta with more than 64 new, distinct ids is written again when it is sent again, all but its last 64 changes, or refused |
| MutationWindow.DroppedWhateverItsPath | server/src/cache-task-manager.ts:712-724 | Which changes the filter drops depends on their mutation ids alone, whatever files they name: two lists with the same ids in the same places keep the same places |
| MutationWindow.FilterNone | server/src/cache-task-manager.ts:712-724 | Nothing passes the filter exactly if every change is a duplicate |
| ClientMachine.CacheTaskStateMachine.HandleWatcherChanges | client/src/cache-task-state-machine.ts:485-496 | Changes go to the buffer while syncing and to the live map while watching, the latest per file |
| ClientMachine.CacheTaskStateMachine.HandleActiveAssignment | client/src/cache-task-state-machine.ts:248-300 | A new assignment bumps the generation, stores the manifest's revision and clears both maps |
| ClientMachine.CacheTaskStateMachine.TransitionToPassive | client/src/cache-task-state-machine.ts:613-626 | Drops the assignment, bumps the generation and clears both maps |
| ClientMachine.CacheTaskStateMachine.OnDisconnected | client/src/cache-task-state-machine.ts:207-222 | Drops the assignment, bumps the generation and clears both maps |
| ClientMachine.LatestStays | client/src/cache-task-state-machine.ts:485-496 | Of each file the latest of a list of changes stays in the map, and no other file is in it |
| ClientMachine.NothingOldIsCurrent | client/src/cache-task-state-machine.ts:739-741 | Whatever ends or replaces an assignment makes every stretch that began before it stop at its next check |
| CacheStore.ClientCacheStore.ApplyDelta | server/src/file-agent/store.ts:114-133 | The delta loop and the manifest write do what the specification says, cut short by any refusal or disk fault; other devices are untouched |
| CacheStore.ClientCacheStore.StoreChange | server/src/file-agent/store.ts:282-344 | One change: refusal before any write, blob written only if missing, entry updated |
| CacheStore.ClientCacheStore.WriteBlobIfMissing | server/src/file-agent/store.ts:377-392 | A blob that is there is not written again |
| CacheStore.ClientCacheStore.RemoveEntry | server/src/file-agent/store.ts:216-230 | Removes one entry and raises the revision, or does nothing |
| CacheStore.ClientCacheStore.UpdateScopeTruncated | server/src/file-agent/store.ts:135-159 | Each reported scope gets the reported flag, every other scope keeps the one it had, and entries, blobs and revision stay; nothing is written if nothing changes |
| CacheStore.ClientCacheStore.GcOrphanBlobs | server/src/file-agent/store.ts:246-270 | Deletes names that no entry needs, one after the other |
| CacheStoreProperties.DeltaKeepsSound | server/src/file-agent/store.ts:282-344 | After every individual write of a delta, each entry that is not skipped has a blob whose hash is its key |
| CacheStoreProperties.DeltaWritesManifest | server/src/file-agent/store.ts:114-133 | A failed delta leaves the manifest as it was; an applied one raises the revision by one and applies all changes |
| CacheStoreProperties.DeltaStoresContent | server/src/file-agent/store.ts:282-344 | After an applied delta each file's entry has the size, time, hash and skipped mark of its last change, or is gone if that is a deletion; an entry with content has a blob that hashes to the hash of the content sent; all other entries stay |
| CacheStoreProperties.HonestIsApplied | server/src/file-agent/store.ts:282-344 | A delta is applied only if every change with content declares the hash of that content, and then unless the disk fails |
| CacheStoreProperties.RemovalMeans | server/src/file-agent/store.ts:216-230 | A removal takes out the one entry and nothing else, and raises the revision exactly if the entry was there |
| CacheStoreProperties.FirstRefusalIsFirst | server/src/file-agent/store.ts:282-344 | A delta is refused exactly if some change is, and for the first such change |
| CacheStoreProperties.RemoveKeeps | server/src/file-agent/store.ts:216-230 | Removing an entry keeps the store sound |
| CacheStoreProperties.GcExact | server/src/file-agent/store.ts:246-270 | Collection keeps the store sound after every deletion, never touches the manifest, and on a full listing leaves exactly the blobs that some entry names |
| CacheStoreProperties.EveryRunIsSound | server/src/file-agent/store.ts:114-270 | Every sequence of deltas, removals and collections, each cut short anywhere, keeps the store sound, and the revision never goes back |
| UploadRefinement.PipeliningRefinesSerial | client/src/cache-sync.ts:321-411 | Sending all uploads on predicted bases before any ack gives the same manifest, blobs, task, outcome and final revision as sending each after the previous ack, for acks in any order and also when uploads are refused or disk writes fail |
| UploadRefinement.PredictionNeedsSingleWriter | client/src/cache-sync.ts:327-328 | Several storable uploads sent at once are all accepted if and only if the store is where the task is; sent one at a time they always are |
| UploadRefinement.GapRejects | client/src/cache-sync.ts:327-328 | If other writers moved the store ahead by a gap, exactly the uploads one to gap are rejected and all others accepted |
| UploadRefinement.ArrivalOrderIsIrrelevant | client/src/cache-sync.ts:279-286 | What the client collects does not depend on the order or repetition of acks |
| UploadRefinement.ReorderedIsRejected | server/src/cache-task-manager.ts:240-242 | Storable uploads are all accepted, even without another writer, if and only if they reach the server in the order in which they were sent |
| UploadRefinement.AcceptedInTurn | server/src/cache-task-manager.ts:240-242 | Whatever the order of delivery, an upload is accepted exactly if as many were accepted before it as were sent before it |
| UploadRefinement.AnswerToPlain | server/src/cache-task-manager.ts:219-293 | An upload is accepted only when fresh and taken by the store, and then task and store stand at the store's next revision; a stale one changes nothing |
| UploadPipeline.InFlightIsExact | client/src/cache-sync.ts:228-271 | In every run the bytes in flight are the sum of the pending sizes, above the limit only while exactly one batch is pending, and a waiter not yet woken has a pending batch whose settling wakes it |
| UploadPipeline.EveryBatchSettlesOnce | client/src/cache-sync.ts:399-428 | A settled batch never changes its outcome, and when the push ends, however it ends, every registered batch has settled, so the cleanup abandons none |
| UploadPipeline.DoneMeansDelivered | client/src/cache-sync.ts:399-428 | A push that returns has had every batch it sent acknowledged positively, and none of its sends failed |
| UploadPipeline.SettledOnce | client/src/cache-sync.ts:236-246 | Only pending batches settle, and settled ones stay as they are |
| UploadPipeline.WaitsIfTooMuch | client/src/cache-sync.ts:263-271 | A batch waits exactly if others are in flight and with it they would exceed the limit |
| UploadPipeline.NextKeeps | client/src/cache-sync.ts:217-428 | Acks, timeouts, sends that return or fail before or after the ack, failures, aborts and every stretch of the main loop keep count, limit, waiters and ids consistent |
| UploadPipeline.TotalWithout | client/src/cache-sync.ts:236-246 | Taking out one batch takes its size off the total |
| UploadPipeline.UploadState.TakePending | client/src/cache-sync.ts:236-246 | Settles a pending batch, gives back its bytes and wakes the waiters; does nothing for another id |
| UploadPipeline.UploadState.RejectAllPending | client/src/cache-sync.ts:248-253 | The loop over a copy of the keys settles every pending batch |
| UploadPipeline.UploadState.TryCapacity | client/src/cache-sync.ts:263-271 | Parks the caller exactly if something is pending and the bytes do not fit |
| UploadPipeline.UploadState.OnRegistered | client/src/cache-sync.ts:470-477 | Registers a batch and counts its bytes |
| PromiseLock.MutualExclusion | server/src/cache-task-manager.ts:442-461 | At most one body runs per key, and a call enters only when all earlier calls on its key have ended, also when bodies throw |
| PromiseLock.KeyHeldWhileNeeded | server/src/file-agent/store.ts:66-87 | A key is in the map exactly while some call on it runs or waits, and then its tail is the latest call |
| PromiseLock.EntersInTurn | server/src/access-ledger.ts:332-350 | A waiting call may enter exactly when all earlier calls on its key have ended: no wake-up is lost |
| PromiseLock.RunKeeps | server/src/cache-task-manager.ts:442-461 | Any run of arrivals, entries and exits keeps the chains well formed |
| PromiseLock.MutexChains.Queue | server/src/cache-task-manager.ts:443-449 | Reads the old tail and installs its own in one step |
| PromiseLock.MutexChains.Release | server/src/cache-task-manager.ts:454-459 | Settles its promise and drops the key only if nobody queued behind |
| LedgerProperties.UpsertMissingDenotes | server/src/access-ledger.ts:82-110 | Recording a missing path makes the known-missing set exactly its union with that path's subtree |
| LedgerProperties.InvalidateMissingDenotes | server/src/access-ledger.ts:112-124 | Invalidating a path removes at most one missing entry, exactly the one at or above it, and leaves the path not known missing |
| LedgerProperties.UpsertFileKeeps | server/src/access-ledger.ts:54-61 | Keeps the indexes in agreement with the map and the missing entries an antichain |
| LedgerProperties.UpsertDirKeeps | server/src/access-ledger.ts:63-72 | The same for directories, whose observed flag is sticky |
| LedgerProperties.UpsertMissingKeeps | server/src/access-ledger.ts:82-110 | The same for missing paths, absorbing those below |
| LedgerProperties.InvalidateKeeps | server/src/access-ledger.ts:112-124 | The same for invalidation |
| LedgerProperties.RemovePathsKeeps | server/src/access-ledger.ts:126-142 | The same for removals |
| LedgerProperties.TouchKeeps | server/src/access-ledger.ts:174-188 | The same for touching a path |
| LedgerProperties.AgeKeeps | server/src/access-ledger.ts:190-204 | Ageing keeps the invariant and removes exactly the missing entries that are older than the limit; every other entry stays as it is |
| LedgerProperties.RenameKeepsAgreement | server/src/access-ledger.ts:144-172 | A rename keeps the indexes in agreement with the map if and only if every stored missing path that it overwrites is replaced by a missing entry and every observed directory by an observed one |
| LedgerProperties.RenameKeeps | server/src/access-ledger.ts:144-172 | A rename onto an unoccupied destination, with the invalidation after it, keeps the whole invariant |
| LedgerProperties.RenameOverMissingBreaksIndex | server/src/access-ledger.ts:166-171 | Renaming something present over a path recorded as missing leaves that path in the missing index, and the following invalidation does not repair it |
| LedgerProperties.RenameOverMissingHappens | server/src/access-ledger.ts:166-171 | Such a ledger exists among those that satisfy the invariant |
| AccessEventBuffer.FlushKeepsGood | server/src/access-event-buffer.ts:67-147 | Any sequence of flushed events keeps indexes and antichain, as long as renames go to unoccupied destinations |
| AccessEventBuffer.ApplyKeepsGood | server/src/access-event-buffer.ts:77-143 | Each flushed event keeps indexes and antichain, as long as a rename goes to an unoccupied destination |
| AccessEventBuffer.SessionAccessBuffer.Flush | server/src/access-event-buffer.ts:67-147 | Empties the buffer, applies the events in order and raises the revision once; an empty buffer changes nothing. What the events do is EventMeanings.FlushMeans |
| AccessEventBuffer.SessionAccessBuffer.RecordEvent | server/src/access-event-buffer.ts:45-47 | Appends the event |
| EventMeanings.EventMeans | server/src/access-event-buffer.ts:77-143 | What each event does to the ledger, told in its entries: a path seen is stored as what it was seen to be, a path reported missing makes exactly its ancestor's subtree known missing in addition and, unless that was below a missing one already, is stored with the time of the report, a written, created or renamed-to path and what the same entry hid are no longer known missing, a deleted one is not stored, what was moved stands at its new place, and nothing else changes |
| EventMeanings.FlushMeans | server/src/access-event-buffer.ts:67-147 | In a flush every event, at its turn, does to the ledger what it means |
| EventMeanings.RmdirSeen | server/src/access-event-buffer.ts:130-133 | A removed directory is not stored and only what lies below goes with it; all of that goes exactly if no stored path blocks the scan |
| EventMeanings.RenameSeen | server/src/access-event-buffer.ts:135-139 | What the scan from the old path reaches stands at its new path with its old entry; the new path is not known missing; what lies at neither path nor below stays |
| EventMeanings.CreatedIsNotMissing | server/src/access-event-buffer.ts:109-131 | A path that was written, created or renamed to is not known missing at the end of the flush unless a later event says so |
| EventMeanings.CreatedIsNotSkipped | server/src/sync-plan.ts:27-52 | The next plan does not list such a file as missing, so the client's scan does not pass over it |
| AccessLedger.AccessLedgerRuntime.UpsertFilePresent | server/src/access-ledger.ts:54-61 | Keeps sorted lists, set and map exactly in step with the specification's value: stores a file |
| AccessLedger.AccessLedgerRuntime.UpsertDirPresent | server/src/access-ledger.ts:63-72 | Keeps sorted lists, set and map exactly in step with the specification's value: stores a directory |
| AccessLedger.AccessLedgerRuntime.RemoveFilePresent | server/src/access-ledger.ts:74-80 | Keeps sorted lists, set and map exactly in step with the specification's value: removes one entry |
| AccessLedger.AccessLedgerRuntime.UpsertMissingEntry | server/src/access-ledger.ts:82-110 | Keeps sorted lists, set and map exactly in step with the specification's value: stores a missing path unless one above it is stored, and absorbs those below |
| AccessLedger.AccessLedgerRuntime.InvalidateMissingPrefixes | server/src/access-ledger.ts:112-124 | Keeps sorted lists, set and map exactly in step with the specification's value: removes the missing entries at or above the path |
| AccessLedger.AccessLedgerRuntime.RemoveDirSubtree | server/src/access-ledger.ts:126-142 | Keeps sorted lists, set and map exactly in step with the specification's value: removes what the scan from the directory collects |
| AccessLedger.AccessLedgerRuntime.RenameSubtree | server/src/access-ledger.ts:144-172 | Keeps sorted lists, set and map exactly in step with the specification's value: moves what the scan collects |
| AccessLedger.AccessLedgerRuntime.TouchIfPresent | server/src/access-ledger.ts:174-188 | Keeps sorted lists, set and map exactly in step with the specification's value: refreshes the time |
| AccessLedger.AccessLedgerRuntime.RunAging | server/src/access-ledger.ts:190-204 | Keeps sorted lists, set and map exactly in step with the specification's value: deletes the expired missing entries |
| AccessLedger.AccessLedgerRuntime.HasMissingAncestorOf | server/src/access-ledger.ts:220-229 | Keeps sorted lists, set and map exactly in step with the specification's value: the parent loop finds a stored missing ancestor exactly if there is one |
| AccessLedger.InvalidateFromExact | server/src/access-ledger.ts:112-124 | The loop over parents invalidates exactly the missing entries at or above the path |
| AccessLedger.PutEachIsPutAll | server/src/access-ledger.ts:166-171 | Putting the moved entries one by one is putting them all at once: their destinations are distinct |
| PathScan.ScanComplete | server/src/access-ledger.ts:126-142 | A scan that starts at the directory touches only it and its descendants, and all of them if and only if no stored path lies strictly between `dir` and `dir + "/"` with a stored descendant beyond it |
| PathScan.ScanCollects | server/src/access-ledger.ts:126-142 | What the loop from the lower bound collects |
| PathScan.PrefixScanCollects | server/src/access-ledger.ts:91-102 | The absorb scan, which starts at the path with a slash, is complete unconditionally |
| StringOrder.LowerBound | server/src/access-ledger.ts:368-377 | Binary search finds the first position not below the item |
| StringOrder.InsertSorted | server/src/access-ledger.ts:210-213 | Insertion keeps the list strictly sorted and adds exactly the item |
| StringOrder.RemoveFromSorted | server/src/access-ledger.ts:215-218 | Removal keeps the list strictly sorted and removes exactly the item |
| StringOrder.TotalOrder | server/src/access-ledger.ts:368-377 | Code-unit order on strings is total |
| StringOrder.PrefixInterval | server/src/access-ledger.ts:126-142 | The strings that extend a prefix form an interval |
| LedgerFile.LoadCompresses | server/src/access-ledger.ts:294-317 | Loading entries in any order gives the map without the missing entries below other missing ones, with agreeing indexes |
| LedgerFile.RoundTrip | server/src/access-ledger.ts:29-36 | Writing a ledger and loading it from any entry order gives the same map, indexes and revision if and only if its missing entries form an antichain |
| LedgerFile.Load | server/src/access-ledger.ts:294-317 | The loading loop builds what the specification says; an unreadable or mismatched file gives an empty ledger |
| NegativeCache.ProbeIsExact | server/src/fuse-host-script.ts:82-91 | On an antichain the single predecessor probe decides ancestor containment for every path if and only if no stored path extends another with a character below '/' |
| NegativeCache.HitIsSound | server/src/fuse-host-script.ts:82-91 | A hit means that the path or an ancestor is stored |
| NegativeCache.ProbeMisses | server/src/fuse-host-script.ts:82-91 | With such an extension stored, some path below a stored one is missed |
| NegativeCache.PutHits | server/src/fuse-host-script.ts:93-118 | After a put the path is a hit |
| NegativeCache.PutKeeps | server/src/fuse-host-script.ts:93-118 | A put keeps the antichain and covers exactly the path's subtree more |
| NegativeCache.InvalidateClears | server/src/fuse-host-script.ts:120-147 | After an invalidation the path is no hit |
| NegativeCache.InvalidateExact | server/src/fuse-host-script.ts:120-147 | An invalidation removes exactly the path, its ancestors and its descendants if and only if no stored path blocks the scan |
| NegativeCache.RunKeepsAntichain | server/src/fuse-host-script.ts:69-151 | In every run without low extensions the stored paths stay an antichain and the probe stays exact |
| NegativeCache.NegativeCache.Contains | server/src/fuse-host-script.ts:82-91 | Answers by bisection what the specification says |
| NegativeCache.NegativeCache.Put | server/src/fuse-host-script.ts:93-118 | List and set stay equal and strictly sorted, with the specified contents |
| NegativeCache.NegativeCache.InvalidatePrefix | server/src/fuse-host-script.ts:120-147 | The same for the two deletion loops |
| NegativeCache.NegativeCache.Clear | server/src/fuse-host-script.ts:149-151 | Empties both |
| SyncPlan.ComputeSyncPlan | server/src/sync-plan.ts:11-72 | The seed whitelist exactly for an empty ledger; otherwise subtrees, files and known-missing paths are exactly the topmost directories, the files below none of them with the intermediate directories, and the missing paths |
| SyncPlan.ListLedger | server/src/sync-plan.ts:27-52 | The loop in path order lists exactly the topmost directories, loose files and missing paths seen so far |
| SyncPlan.ListPath | server/src/sync-plan.ts:27-52 | The loop body |
| SyncPlan.IsUnderAnySubtree | server/src/sync-plan.ts:74-86 | Tells whether a path lies at or below a listed subtree, whatever its depth |
| SyncPlan.CollectIntermediateAncestors | server/src/sync-plan.ts:94-125 | Adds exactly the directories above listed files and missing paths that are neither missing nor below a subtree |
| SyncPlan.AncestorsOf | server/src/sync-plan.ts:100-109 | The dirname loop visits every directory above the path |
| SyncPlan.SubtreesNotNested | server/src/sync-plan.ts:40-48 | The subtrees are pairwise non-nested |
| SyncPlan.PresentListedOnce | server/src/sync-plan.ts:27-52 | Every present path is a listed file or at or below a subtree, never both; the missing ones are exactly the known-missing ones |
| SyncPlan.ListedFileNotBelow | server/src/sync-plan.ts:110-125 | No listed file, stored or intermediate, lies at or below a subtree or is known missing |
| SyncPlan.AncestorsAccountedFor | server/src/sync-plan.ts:94-125 | Every directory above a listed file or missing path is a listed file, known missing, or at or below a subtree |
| SyncPlan.PresentFileCovered | server/src/sync-plan.ts:74-86 | A present file is covered by the client's coverage predicate if and only if it is not two or more levels below a topmost directory that was never read |
| Snapshot.BuildSnapshotFromManifest | server/src/file-proxy-manager.ts:1167-1211 | The snapshot holds an entry for `.claude.json`, one per directory, one per file, and nothing else |
| Snapshot.CollectDirs | server/src/file-proxy-manager.ts:1183-1190 | The split and join loops collect the root and every proper ancestor |
| Snapshot.CollectDirectChildren | server/src/file-proxy-manager.ts:1332-1352 | Exactly the names whose child is a directory or a file |
| Snapshot.PrefixesAreAncestors | server/src/file-proxy-manager.ts:1185-1189 | Joining a proper prefix of the components gives an ancestor, and every ancestor arises so |
| Snapshot.EntriesExact | server/src/file-proxy-manager.ts:1180-1206 | The paths with an entry are the files, their ancestors and the root; the directories among them are the root and the ancestors |
| Snapshot.ListedIfPresent | server/src/file-proxy-manager.ts:1332-1352 | A directory lists a name exactly if its child of that name has an entry |
| Snapshot.EveryEntryIsListed | server/src/file-proxy-manager.ts:1167-1211 | Every entry but the root's is listed by its parent, which has an entry |
| Snapshot.PathsAreUnique | server/src/file-proxy-manager.ts:1167-1211 | No path has two entries if and only if no file of the manifest lies below another |
| Walk.WalkDir | client/src/cache-sync.ts:622-679 | The pruned, depth-limited walk returns exactly the files below its start that are not too deep, not skipped and not known missing, each once |
| Walk.WalkedThroughEntry | client/src/cache-sync.ts:643-679 | What one directory entry contributes to the walk |
| Walk.BelowChild | client/src/cache-sync.ts:774-784 | Depth by components grows by one per level |
| Scan.ScanInstructionFiles | client/src/cache-sync.ts:681-725 | A scan returns exactly the existing, kept, not known-missing files that are listed or properly below a subtree within its depth |
| Scan.ScanLocalFiles | client/src/cache-sync.ts:585-620 | A whole-scope scan returns exactly the existing kept files below the root, each once |
| Scan.ScanSubtree | client/src/cache-sync.ts:697-712 | One subtree: nothing if skipped or no directory, else its walk |
| Scan.MissedExactly | client/src/cache-sync.ts:752-784 | Among existing kept files that the instruction covers, the scan misses exactly those known missing and those that stand only at a subtree's root |
| ScanFilter.FilterKeepsAncestors | client/src/config.ts:197-224 | The filter keeps every directory above a path that it keeps |
| ScanFilter.KeptExactly | client/src/config.ts:197-234 | A path is kept exactly if it is at top level or in the cone of an include directory, and below no excluded one |
| ScopeBudget.ApplyScopeBudget | client/src/cache-sync.ts:834-855 | The loop over the sorted changes keeps what the greedy choice keeps and reports truncation exactly when something is dropped |
| ScopeBudget.BudgetIsSound | client/src/cache-sync.ts:834-855 | Kept and dropped share the input out, skipped files are all kept, the kept content fits, and no dropped file would fit beside what was kept in the end |
| ScopeBudget.OrderIsIrrelevant | client/src/cache-sync.ts:841 | With distinct times the outcome does not depend on the order of the input |
| ScopeBudget.NewerFilesWin | client/src/cache-sync.ts:834-855 | A file is dropped because of files at least as new, which leave no room for it; older content that is kept is smaller than it |
| ScopeBudget.TiesDependOnOrder | client/src/cache-sync.ts:841 | Of two files of the same time that fit alone but not together, the first is kept |
| ScopeBudget.SortIsNewestFirst | client/src/cache-sync.ts:841 | The sort is descending by time |
| ScopeBudget.SortIsStable | client/src/cache-sync.ts:841 | The sort keeps files of the same time in their order |
| Reconcile.HashScope | client/src/cache-sync.ts:512-576 | The loops build exactly the specified plan |
| Reconcile.CollectAdds | client/src/cache-sync.ts:518-540 | The loop over the local files adds exactly the outdated ones |
| Reconcile.CollectDeletes | client/src/cache-sync.ts:542-551 | The loop over the remote paths deletes exactly those covered and not local |
| Reconcile.LocalsArrive | client/src/cache-sync.ts:512-576 | After applying the plan a local file has its local size and time, and the hash of what was read unless it is over the file limit, if and only if the budget did not drop it; a dropped one keeps its old entry |
| Reconcile.OthersLeaveOrStay | client/src/cache-sync.ts:542-551 | A remote path that is not local disappears if and only if it is covered; all others, and other scopes, keep their entry |
| Reconcile.AbsentIsDeleted | client/src/cache-sync.ts:542-551 | The remote entry of a path that is not local is deleted exactly if the instruction is empty, lists the path as a file or as missing, or has a subtree the path lies in, within its depth |
| Reconcile.SecondRoundAdds | client/src/cache-sync.ts:518-540 | A second round adds exactly what the first one's budget dropped |
| Reconcile.SecondRoundIsEmpty | client/src/cache-sync.ts:512-576 | A second scan against the result has nothing to do if and only if every file that the first budget dropped is larger than the scope's limit; in particular if it dropped none |
| Reconcile.RoundsConverge | client/src/cache-sync.ts:512-576 | Each round brings no file out of date, and it brings some file up to date if and only if an outdated one is over the file limit, so that it goes without content, or fits the scope's limit alone |
| Reconcile.ChosenIffSomeFits | client/src/cache-sync.ts:834-855 | The budget lets something through exactly if some outdated file goes without content or fits the scope's limit alone |
| Reconcile.DeletesAreSafe | client/src/cache-sync.ts:752-784 | With the instruction it scanned for, the client never deletes the remote entry of an existing file that is neither excluded nor known missing, unless it stands at a subtree's root |
| Reconcile.InitialSyncDeletes | client/src/cache-task-state-machine.ts:370-384 | The initial sync diffs against the whole scope: there the entry of an existing kept file is deleted if and only if the instruction does not lead the scan to it |
| Reconcile.AppliedAt | server/src/file-agent/store.ts:282-344 | Applying changes that agree leaves each file with the size, time, hash and skipped mark of its change, or gone if it was deleted |

## Left out

- CacheTaskManager.CacheTaskManager.ElectCandidate: ids that the locale's order does not tell apart are ordered by code units; the code takes whichever came first.
- SyncTheorems.ReadyIsPlanAndFlush: the buffered changes are arbitrary; that the watcher reports what is on the client's disk is not modelled.
- EndToEnd.FoundContentIsShown: content is known by its hash only, and the hash is a parameter; the diff compares size and time, so a file that changed without changing them keeps its old content on the server.
- EndToEnd.StoresAreSound: other writers of a device's cache are arbitrary but for leaving it sound, as the repository's own operations do (`EveryRunIsSound`).
- Reconcile.HashScope: leaves out the scan cache and the abort check between files; contents are a function of the path.
- Walk.WalkDir: leaves out read and stat errors, which skip an entry, and the abort check.
- Scan.ScanInstructionFiles: models the `~/.claude` scope; the single file of `~/.claude.json` is not scanned here.
- SyncPlan.ComputeSyncPlan: the contents of the seed whitelist are not modelled, only that it is returned for an empty ledger.
- Snapshot.BuildSnapshotFromManifest: leaves out file modes and the redaction of settings.
- LedgerFile.Load: JSON is not parsed; the file is a list of path and entry pairs in any order, or unreadable.
- ClientMachine.CacheTaskStateMachine.HandleActiveAssignment: one stretch, although the code waits for the old watcher to stop after bumping the generation; a client that says hello once is assigned at most once (`AssignmentsPerHello`) and has no old watcher then.
- CacheTaskManager.CacheTaskManager.RegisterHelloLocked: messages are returned, not sent; a hello without capability or device never reaches the section.
- Fault reports by the client, heartbeats and timers: their sections are modelled on the server; when a client sends them is arbitrary.
- Liveness: nothing says that a message arrives or that a sync ends, except that failovers end and rounds converge.
- The suppression of echoes in the watcher, which gives changes the ids of the session's mutations: which id a change carries is arbitrary.
- Settings redaction, time-to-live tables, prefetching, statistics, progress events, logging: no hard property.
- Sessions, terminals, the FUSE mount, WebSocket and HTTP plumbing, authentication, the command line and the web interface.
