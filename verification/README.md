# Verification of goaria's stateful cores

This project models the parts of goaria-v3 where correctness depends on the order of
steps, on agreement between several records of the same fact, or on an encoding that
must not be ambiguous, and proves what those parts are for. One module, sometimes a
few, per component:

- `RuntimeStore`, `RuntimeManager`, `RuntimeManagerSafety`: the extractor sources as an
  optimistic transaction over a published list, an index file and generation directories,
  with concurrent load, reload and remove and a crash after any step.
- `Idempotency`, `IdempotencyCache`, `Dispatch`, `DispatchPermits`, `DispatchDelivery`,
  `DispatchOwnership`, `DispatchBound`, `DispatchScenarios`, `DispatchCrowd`: the request
  cache and the dispatches that race for it.
- `DownloadAuth`, `DownloadAuthHistory`, `AddTask`, `AddTaskDispatcher`, `TasksAdapter`:
  bearer tokens behind opaque refs, who owns them and when they may be read.
- `GroupStore`, `GroupStoreRuns`, `GroupStoreObject`: the task-group store and its saver.
- `Rpc`, `TaskMetadata`, `TaskLists`, `TaskTick`, `TaskCache`, `TickNormalize`: the task
  lists of an engine, what moves between them and what a tick may change.
- `History`, `HistoryStore`: the history list and its two indexes.
- `CdnDetector`, `CdnDetectorTicks`, `Namer`: timers and wait groups.
- `Fingerprint`, `FingerprintWriter`, `EndpointTemplate`, `WasmSections`: three codecs.
- `Prelude`, `Decimal`, `Utf8`, `Locator`: shared helpers, byte strings as UTF-8, and the
  check on the locator of a source.

`dafny verify dfyconfig.toml` checks the whole project.

## How to read it

An operation that the program performs in one critical section is one step. Where
several goroutines take part, the steps are a machine (`Event`, `Enabled`, `Next`) and
the results are about every run of it. Where the program changes an object, the object
is a class; each method is proved against a function of its old state, and the
lemmas are about those functions. Methods that run while others act take what the others
do as a parameter, without restriction beyond what the locks give. Strings of the codecs,
of locators and of tokens are byte strings, one character a byte.

Hypotheses, each stated where it is used:

- minted ids are fresh: generations and sources never reused, invocation ids nonzero and
  known to their owner only, download-auth refs never minted twice;
- rename is atomic, and a directory or file is changed only by the program;
- the strings of an index found at the start, and every pack version, came out of a JSON
  decoder, so they are well-formed UTF-8;
- clocks do not go back; integers are 64 bits where a length or size is read, and
  otherwise do not overflow;
- the panics modelled are those of guest code, of the resolver, of the handlers, and of the
  writing of a reply.

## What the code does not do

Some properties one would expect do not hold of the code. The model keeps the code, a
lemma shows the failure, and the exact condition is proved beside it.

- `replaceIndex` checks neither the size nor the encoding of what it writes. 128 sources
  with long lock URLs, each admissible, exceed the 1 MiB that `readIndex` takes
  (`RuntimeStore.AdmissibleIndexCanBeUnreadable`), and a local path that is no UTF-8, which
  the locator check admits, comes back as another path
  (`RuntimeStore.AdmissibleLocatorCanChange`). Read-back holds if and only if the encoding
  fits and every locator is well-formed UTF-8 (`RuntimeStore.WrittenIndexReadsBack`); the
  restart theorem carries that condition.
- `complete` and `abandon` recognise an entry by key and digest only, so an old owner can
  settle a newer entry. Ownership is single, and every waiter gets its owner's bytes, as
  long as three kinds of step do not occur: clearing a request in flight, retiring one, and
  a panic while the reply is written, after the settlement, of a dispatch whose key and
  digest match an entry in flight again.
  These are exactly the steps that expose an owner (`DispatchOwnership.CleanIffProtected`);
  `DispatchOwnership.ClearInFlightBreaksSingleOwner` and, without any clear,
  `DispatchOwnership.LatePanicAbandonsForeignEntry` show what follows.
- `Load` builds the position index with the last of several entries of one gid. The index
  is exact if and only if the gids in the file are distinct
  (`History.LoadIsExactIffDistinct`), and a removal takes all of a gid if and only if it
  occurred once (`History.LoadedRemovalIsExactIff`).
- A refused direct batch gives its gate back before it abandons its entry, so the permits
  do not bound the requests in flight: with n connections open, n can be in flight and not
  one permit taken (`DispatchCrowd.PermitsBoundNothing`). A connection's read loop takes one
  message at a time, so a connection has at most one such batch, and at most three requests
  more are in flight than connections are open (`DispatchBound.InFlightFitsConnections`);
  the bound is attained (`DispatchCrowd.BoundsAreAttained`). The cache keeps to its 256
  entries in every run with at most `limit` connections open at each begin if and only if
  `limit` is at most 254 (`DispatchCrowd.LimitIsExact`). A connection counts as open until
  its read loop has returned.
- A group can requeue itself four times in a row, because its callbacks overlap
  (`Namer.FourRequeuesInARow`). It cannot as long as its attempts are not cleared while one
  of its callbacks is about to requeue (`Namer.CalmRunBoundsRequeues`), and from any such
  clear it can (`Namer.UncalmClearOverflows`).
- A namer callback forgets its group's timer even if that was armed again meanwhile; Stop
  then leaves the firing to come, and waits for it (`Namer.RearmedTimerOutlivesStop`,
  `Namer.StopCancelsAllIff`).

Smaller findings: the section walk takes size encodings of six bytes and drops high bits
(`WasmSections.SizesAreLenient`); in endpoint values the checks for "authorization:" and
"cookie:" cannot fire, since colons are refused before them.

## Model

| member | source | states |
|---|---|---|
| `RuntimeStore.Store.ReadIndex` | internal/extractor/runtime_store.go:195-311 | the index is read as a whole or refused: absent, too large, wrong version, and each row and duplicate check, exactly as `ReadIndexResult` orders them |
| `RuntimeStore.Store.WriteCandidateToStaging` | internal/extractor/runtime_store.go:369-440 | a staging directory receives the files of the candidate in order; a fault removes the directory again, or leaves what the interrupted removal leaves, and touches nothing else |
| `RuntimeStore.Store.FinalizeCandidateGeneration` | internal/extractor/runtime_store.go:442-484 | one rename moves the whole staging directory to the generation unless that exists; if the check after the rename fails, the target is removed again |
| `RuntimeStore.Store.ReplaceIndex` | internal/extractor/runtime_store.go:486-557 | the index is replaced in one step by the encoding of the rows, or stays |
| `RuntimeStore.Store.DeleteStagingGeneration` | internal/extractor/runtime_store.go:559-590 | only the staging directory of that generation is touched |
| `RuntimeStore.Store.DeleteGeneration` | internal/extractor/runtime_store.go:592-647 | only the named generation is touched |
| `RuntimeStore.WrittenIndexReadsBack` | internal/extractor/runtime_store.go:486-502 | an index written from valid rows is read back as those rows if and only if its encoding fits the size limit and every locator is well-formed UTF-8; otherwise it is refused or read with repaired locators |
| `RuntimeStore.FullGenerationReadsBack` | internal/extractor/runtime_store.go:649-707 | a fully written generation is read back as the candidate it was made from |
| `RuntimeStore.AdmissibleIndexCanBeUnreadable` | internal/extractor/runtime_store.go:486-502 | the limit is real: 128 sources whose lock URLs pass every check are written to an index the next start refuses |
| `RuntimeStore.AdmissibleLocatorCanChange` | internal/extractor/runtime_store.go:486-502 | so is the encoding: a local source whose file name is no UTF-8 is written, and read back without error as another path |
| `Utf8.RepairKeepsExactlyUtf8` | internal/extractor/runtime_store.go:493-502 | encoding a string as JSON and decoding it gives it back if and only if it is well-formed UTF-8 |
| `Locator.PaddedUrlIsDurable` | internal/extractor/runtime_pack_loader.go:551-594 | an https lock URL with a query of any length up to 8192 bytes in all passes the locator check |
| `Locator.OddFileNameIsDurable` | internal/extractor/runtime_store.go:313-346 | an absolute, clean path with a byte that is no UTF-8 passes it too |
| `RuntimeManagerSafety.RunKeepsInvariant` | internal/extractor/runtime_manager.go:501-928 | every step of load, reload and remove, every failure and every crash or restart keeps the invariant tying disk, index, published list and lock |
| `RuntimeManagerSafety.NoStepDeletesNamedGeneration` | internal/extractor/runtime_manager.go:616-655 | in every run no step removes or alters a generation the on-disk index names |
| `RuntimeManagerSafety.EveryWrittenRowIsBacked` | internal/extractor/runtime_store.go:369-557 | in every run each index row was there at the start or names a generation that is on disk in full and matches the row |
| `RuntimeManagerSafety.RestartReadsOldOrNew` | internal/extractor/runtime_manager.go:219-354 | a crash after any step and a restart bring back the list published before or the one being committed, nothing between, exactly when the index fits its limit and every locator is well-formed UTF-8; otherwise nothing, read-only, or that list with repaired locators |
| `RuntimeManagerSafety.RestartServesCommittedSources` | internal/extractor/runtime_manager.go:219-354 | a restart serves every committed source its dependencies still allow |
| `RuntimeManagerSafety.QuiescentIndexIsPublishedList` | internal/extractor/runtime_manager.go:544-655 | whenever no writer holds the lock the on-disk index is the projection of the published sources, locators repaired, and the projection itself exactly when they are well-formed UTF-8 |
| `RuntimeManagerSafety.PublicationIsOneAtomicChange` | internal/extractor/runtime_manager.go:703-834 | the published list changes only by one operation at a time, with one revision more, and as that operation asks; a reload replaces only the record it captured, in place |
| `RuntimeManagerSafety.IndexChangeIsFollowedByPublication` | internal/extractor/runtime_manager.go:616-655 | once the index is replaced the operation can only publish |
| `RuntimeManagerSafety.SuccessMeansOneCommit` | internal/extractor/runtime_manager.go:836-928 | an operation that succeeds committed exactly once, one that fails never |
| `RuntimeManagerSafety.ServedPacksAreDistinct` | internal/extractor/runtime_manager.go:445-456 | no pack id is served twice, by two sources or by a source and an embedded pack |
| `Idempotency.KeyInjective` | internal/extension/idempotency.go:47-49 | cache keys of NUL-free message types are equal only for equal generation, type and request |
| `Idempotency.PrefixMeansGenerationAndType` | internal/extension/idempotency.go:163-191 | a key carries a retirement prefix only if it is of that generation and message type |
| `Idempotency.RetirementIsExact` | internal/extension/idempotency.go:163-191 | retiring a generation removes exactly its resolve and batch keys |
| `Idempotency.BeginKeepsBooks` | internal/extension/idempotency.go:77-111 | a begin keeps the completed queue duplicate-free, equal to the completed keys and ordered by expiry |
| `Idempotency.CompleteKeepsBooks` | internal/extension/idempotency.go:130-149 | so does a completion |
| `Idempotency.AbandonKeepsBooks` | internal/extension/idempotency.go:113-128 | so does an abandonment |
| `Idempotency.RetireKeepsBooks` | internal/extension/idempotency.go:163-191 | so does a retirement |
| `Idempotency.EvictionTakesEarliest` | internal/extension/idempotency.go:207-215 | an evicted entry expires no later than any completed entry that stays |
| `Idempotency.BeginStaysWithinLimit` | internal/extension/idempotency.go:77-111 | the map stays within 256 entries when fewer than 256 requests are in flight |
| `IdempotencyCache.RequestCache.LookupRequest` | internal/extension/idempotency.go:68-75 | the object finds what the specification finds and drops what has expired; a coalesced waiter gets a new open channel, every other channel is untouched |
| `IdempotencyCache.RequestCache.BeginRequest` | internal/extension/idempotency.go:77-111 | the object answers hit, conflict, coalesce or miss as specified, evicting first; a coalesced waiter gets a new open channel, every other channel is untouched |
| `IdempotencyCache.RequestCache.CompleteRequest` | internal/extension/idempotency.go:130-149 | the entry is completed and every waiter gets the bytes and is closed, once |
| `IdempotencyCache.RequestCache.AbandonRequest` | internal/extension/idempotency.go:113-128 | the entry goes and every waiter gets the bytes and is closed, once |
| `IdempotencyCache.RequestCache.Clear` | internal/extension/idempotency.go:151-161 | every entry goes and every waiter is closed without bytes |
| `IdempotencyCache.RequestCache.RetireExtractorGeneration` | internal/extension/idempotency.go:163-191 | exactly the retired entries go, and their waiters are closed |
| `DispatchPermits.PermitsConserved` | internal/extension/server_dispatch.go:83-199 | in every interleaving each counter equals the number of dispatches holding its permit |
| `DispatchPermits.PermitsBounded` | internal/extension/server.go:367-393 | the resolve, batch and per-connection counters stay within 2, 1 and 4 and never go negative |
| `DispatchPermits.FinishedDispatchesHoldNothing` | internal/extension/safeconn.go:51-66 | whatever exit a dispatch took, it gave every permit back: when all are done every counter is zero |
| `DispatchDelivery.ChannelDiscipline` | internal/extension/idempotency.go:113-149 | in every run a waiter channel is sent to at most once and closed at most once |
| `DispatchDelivery.NoSendOrCloseOnClosedChannel` | internal/extension/idempotency.go:113-191 | no step sends to or closes a channel already closed |
| `DispatchDelivery.RestingRunClosedEveryChannel` | internal/extension/server_dispatch.go:83-199 | when nothing is in flight and no dispatch is delivering, every channel has been closed except those a retirement is still closing |
| `DispatchBound.InFlightIsBounded` | internal/extension/server_dispatch.go:312-326 | in every run, clears, retirements and late panics included, at most three requests are in flight besides those of refused direct batches that have given their gate back |
| `DispatchBound.PastGateFitConnections` | internal/extension/server.go:310-331 | in every run there are no more of these batches than connections whose read loop runs: a loop takes one message at a time |
| `DispatchBound.InFlightFitsConnections` | internal/extension/server_dispatch.go:312-326 | in every run at most three more requests are in flight than connections are open |
| `DispatchBound.BeginSeesFewer` | internal/extension/server_dispatch.go:284-312 | a begin finds at most two requests in flight besides those batches, and fewer of them than connections are open |
| `DispatchBound.CacheStaysWithinLimit` | internal/extension/idempotency.go:207-215 | the cache stays within 256 entries in every run with at most 254 connections open at each begin |
| `DispatchCrowd.PermitsBoundNothing` | internal/extension/server_dispatch.go:312-326 | the permits alone bound nothing: for every n a run with n connections open has n requests in flight and not one permit taken |
| `DispatchCrowd.BoundsAreAttained` | internal/extension/server_dispatch.go:312-326 | for every n a run has n connections open, as many refused batches past their gate, and n + 3 requests in flight |
| `DispatchCrowd.OneConnectionTooMany` | internal/extension/idempotency.go:207-215 | a run that never has more than 255 connections open fills the cache with 257 entries |
| `DispatchCrowd.LimitIsExact` | internal/extension/idempotency.go:207-215 | every run with at most `limit` connections open at each begin keeps the cache within 256 entries if and only if `limit` is at most 254 |
| `DispatchOwnership.SingleOwner` | internal/extension/server_dispatch.go:83-199 | in clean runs (no request in flight is cleared or retired, and no panic while the reply is written matches an entry in flight) two dispatches never own the same key |
| `DispatchOwnership.NoSecondMiss` | internal/extension/idempotency.go:77-111 | in clean runs, between a miss and its settlement no other begin on that key misses |
| `DispatchOwnership.WaiterReceivesOwnersBytes` | internal/extension/server_dispatch.go:62-210 | in clean runs a coalesced waiter receives exactly the bytes its owner settled with |
| `DispatchOwnership.HitReplaysOwnersBytes` | internal/extension/idempotency.go:68-111 | in clean runs a hit replays exactly the bytes the owner completed with |
| `DispatchOwnership.CleanIffProtected` | internal/extension/idempotency.go:113-191 | after any clean run, a step leaves every unsettled dispatch safe from a second owner of its key if and only if the step is clean |
| `DispatchOwnership.CleanRunsAreTheProtectedOnes` | internal/extension/idempotency.go:113-191 | so the clean runs are exactly those in which no unsettled dispatch is ever exposed to a second owner |
| `DispatchOwnership.ClearInFlightBreaksSingleOwner` | internal/extension/idempotency.go:151-161 | for every resolve request: a run in which it is cleared in flight and then owned twice |
| `DispatchOwnership.LatePanicAbandonsForeignEntry` | internal/extension/idempotency.go:113-128 | for every resolve request: a run, nothing cleared, in which a panic while the reply is written, after the settlement, abandons the entry of the next owner |
| `DownloadAuth.Registry.RegisterToken` | internal/extractor/download_auth.go:61-101 | token check, sweep, per-invocation limit, capacity, then a pending entry |
| `DownloadAuth.Registry.BindRef` | internal/extractor/download_auth.go:105-131 | a host is bound only to a live entry of that invocation and pack |
| `DownloadAuth.Registry.End` | internal/extractor/download_auth.go:136-155 | committed output keeps bound entries without owner and purges the rest; uncommitted purges all |
| `DownloadAuth.Registry.ClaimRef` | internal/extractor/download_auth.go:160-176 | a holder is added to a live entry |
| `DownloadAuth.Registry.ReleaseRef` | internal/extractor/download_auth.go:180-200 | the last holder of a retained entry frees it |
| `DownloadAuth.Registry.MaterializeRef` | internal/extractor/download_auth.go:205-226 | a token only for a retained, bound, held entry of that pack and host |
| `DownloadAuth.Registry.Invalidate` | internal/extractor/download_auth.go:251-262 | every entry goes |
| `DownloadAuthHistory.HistoryExplained` | internal/extractor/download_auth.go:61-312 | every live entry of every history of calls is what its registration, bindings, commit and claims say |
| `DownloadAuthHistory.MaterializeImpliesHistory` | internal/extractor/download_auth.go:205-226 | a token returned was registered by that pack in a nonzero invocation, bound there to that host, the invocation ended committed, a claim is unreleased, and neither the TTL nor an invalidation intervened |
| `DownloadAuthHistory.HistoryImpliesMaterialize` | internal/extractor/download_auth.go:205-226 | conversely, a registration that was accepted, bound, committed and claimed gives its token, unless an expiry, an invalidation, a release or another end was seen meanwhile |
| `DownloadAuthHistory.CapacityKept` | internal/extractor/download_auth.go:61-101 | whatever is called the registry holds at most 256 entries |
| `AddTask.OwnedHasOpenRegistration` | internal/extractor/download_auth.go:136-155 | an entry owned by an invocation was registered under it and the invocation has not ended since |
| `AddTask.SettledOwnsNothing` | internal/extractor/add_task.go:129-211 | once every started invocation has ended nothing is owned by any of them |
| `AddTask.BackstopIsInert` | internal/extractor/add_task.go:168-173 | ending an invocation that owns nothing only sweeps |
| `AddTask.BackstopsOnlySweep` | internal/extractor/add_task.go:168-173 | after a settled resolution the deferred ends purge nothing, whatever others do between them |
| `AddTask.CommitKeepsExactlyBound` | internal/extractor/download_auth.go:136-155 | a commit keeps exactly the bound, unexpired entries of its invocation, ownerless and otherwise unchanged |
| `AddTask.CommittedRefIsRetained` | internal/extractor/add_task.go:217-230 | a ref bound before its invocation committed stays bound to that host and pack and ownerless as long as it is live |
| `AddTaskDispatcher.Dispatcher.Match` | internal/extractor/runner.go:60-91 | a match invocation has ended whichever way the guest left, a panic included |
| `AddTaskDispatcher.Dispatcher.Extract` | internal/extractor/runner.go:93-145 | a failed or panicking extract has ended its invocation; a returned output hands it over |
| `AddTaskDispatcher.Dispatcher.BoundItems` | internal/extractor/add_task.go:217-230 | the invocation ends exactly once, committed if and only if every item passed |
| `AddTaskDispatcher.Dispatcher.ResolvedItems` | internal/extractor/add_task.go:439-514 | every item of an accepted output passed its checks and had its ref bound |
| `AddTaskDispatcher.Dispatcher.TryPack` | internal/extractor/add_task.go:145-195 | one candidate gives the verdict its guest, policy and items call for, and leaves its invocations ended or under a deferred end |
| `AddTaskDispatcher.Dispatcher.TryPacks` | internal/extractor/add_task.go:142-211 | the loop stops at the first decisive candidate and otherwise concludes unmatched, generic-auth or failed from what it saw |
| `AddTaskDispatcher.Dispatcher.Resolve` | internal/extractor/add_task.go:129-211 | on every path no entry stays owned by an invocation the resolution started; a matched resolution bound its refs before its commit; the deferred ends only sweep |
| `AddTaskDispatcher.MatchedItemsAreReady` | internal/extractor/add_task.go:129-230 | a ref of a matched item that is still live is ownerless and bound to the item's host and pack |
| `TasksAdapter.HolderKeyInjective` | internal/extractor/tasks_adapter.go:94-105 | different refs have different holder keys |
| `TasksAdapter.SectionKeepsAgreement` | internal/extractor/tasks_adapter.go:43-125 | every critical section, ours or another goroutine's, keeps the registry's adapter holders equal to the refs that stand for them |
| `TasksAdapter.HolderIff` | internal/extractor/tasks_adapter.go:94-125 | a ref holds a live entry if and only if it is stored, or being stored or released, for that entry |
| `TasksAdapter.Adapter.ToNeutralItem` | internal/extractor/tasks_adapter.go:94-125 | a fresh ref is claimed and stored, or leaves no trace |
| `TasksAdapter.Adapter.ReleaseItem` | internal/extractor/tasks_adapter.go:81-92 | a released ref is neither stored nor a holder |
| `TasksAdapter.Adapter.Resolve` | internal/extractor/tasks_adapter.go:43-75 | each item gets its own stored ref, and after a failed conversion no ref drawn for it survives in the adapter or as a holder |
| `GroupStore.StepKeepsInvariant` | internal/monitor/group_store.go:107-193 | every step of mutators, worker, savers, discards and stop keeps counters, save in progress, file agreement, pending work and channel closing right |
| `GroupStore.StepMovesForward` | internal/monitor/group_store.go:408-447 | no step takes the recorded trigger back |
| `GroupStoreRuns.FileIsMapAtLastSaved` | internal/monitor/group_store.go:408-447 | after a successful save and until the next discard the file is the map as of the last recorded trigger, an absent file meaning the empty map |
| `GroupStoreRuns.SavedNeverDecreases` | internal/monitor/group_store.go:408-447 | the recorded trigger never decreases and the map of an earlier trigger is never rewritten |
| `GroupStoreRuns.WritesMoveForward` | internal/monitor/group_store.go:408-447 | each write carries a map newer than everything recorded and touches one file |
| `GroupStoreRuns.UnsavedTriggerIsPending` | internal/monitor/group_store.go:326-404 | a trigger neither recorded, nor failed, nor being saved has a buffered signal or a worker yet to take its snapshot, unless stopped or disabled |
| `GroupStoreRuns.DoneClosedOnce` | internal/monitor/group_store.go:180-193 | the done channel is closed at most once, and exactly when the store is stopped and no worker runs |
| `GroupStoreRuns.JoinedForGood` | internal/monitor/group_store.go:180-193 | after the join no worker ever runs |
| `GroupStoreObject.HolderStaysAlone` | internal/monitor/group_store.go:120-131 | while a save holds the write lock nobody else touches its file, its path or the enabled flag |
| `GroupStoreObject.SaveWritesTheMap` | internal/monitor/group_store.go:408-447 | whatever others do in its gaps, a save without error leaves the file equal to the map of a recorded trigger no older than the caller's, if anything was recorded since the last discard; if nothing was triggered since, to the map as it is |
| `GroupStoreObject.FlushWritesTheMap` | internal/monitor/group_store.go:173-176 | a flush that no change of the map overtakes leaves the file equal to the map, and it stays so whoever saves again, until the map or the selected file changes |
| `GroupStoreObject.SaveCoversTheCaller` | internal/monitor/group_store.go:408-447 | a save without error has everything triggered before it recorded, by itself or another; a failed one changed no file |
| `GroupStoreObject.Store.TriggerSaveLocked` | internal/monitor/group_store.go:326-343 | counts the mutation, starts the worker once, buffers one signal |
| `GroupStoreObject.Store.DiscardPendingSaveLocked` | internal/monitor/group_store.go:197-203 | marks pending triggers handled and drops the signal |
| `GroupStoreObject.Store.UpdateStoredTaskGroupName` | internal/monitor/group_store.go:237-265 | renames exactly the stale rows of the group, counts them, and triggers only if there were any |
| `GroupStoreObject.Store.RemoveTaskGroups` | internal/monitor/group_store.go:280-296 | removes exactly the listed rows and triggers only if one was there |
| `GroupStoreObject.Store.LoadFromDisk` | internal/monitor/group_store.go:139-165 | replaces the map by the usable rows of the file and discards pending triggers |
| `GroupStoreObject.Store.RegisterTaskGroup` | internal/monitor/group_store.go:205-217 | stores a named row and triggers a save |
| `GroupStoreObject.Store.SelectPath` | internal/monitor/group_store.go:88-97 | a new path starts from no groups and discards pending triggers |
| `GroupStoreObject.Store.Switch` | internal/monitor/group_store.go:120-131 | switching persistence off discards pending triggers, switching it on leaves the rest |
| `GroupStoreObject.Store.Stop` | internal/monitor/group_store.go:180-193 | marks the store stopped once, and closes done itself only if no worker was started |
| `GroupStoreObject.Store.SnapshotSection` | internal/monitor/group_store.go:408-425 | nothing to do, or a snapshot with its trigger |
| `GroupStoreObject.Store.WriteSection` | internal/monitor/group_store.go:426-443 | writes or removes the file, or fails and changes none |
| `GroupStoreObject.Store.RecordSection` | internal/monitor/group_store.go:444-446 | records the trigger of the snapshot that was written |
| `TaskMetadata.MergeTaskFiles` | internal/monitor/cache.go:680-710 | the loops compute the specified merge |
| `TaskMetadata.MergeIsIdempotent` | internal/monitor/cache.go:680-710 | merging the same files again changes nothing |
| `TaskMetadata.MergeUnions` | internal/monitor/cache.go:680-710 | the merged list has exactly the usable paths of both sides, and for each path the addresses of both |
| `TaskMetadata.MergedFilesAreNamed` | internal/monitor/cache.go:680-710 | no blank path or address survives a merge |
| `TaskMetadata.FillIsIdempotent` | internal/monitor/cache.go:642-678 | filling in the same sibling twice is filling it in once |
| `TaskLists.MovePartitions` | internal/monitor/cache.go:445-490 | from any state, twins included, a successful move leaves the download once, in the destination, every other row untouched and in order; a refused one changes nothing |
| `TaskLists.MoveSource` | internal/monitor/cache.go:445-490 | the reported source, and exactly when there is none |
| `TaskLists.MovedRow` | internal/monitor/cache.go:445-490 | the moved row has the new status and no speed, and loses its errors exactly when it came from the stopped list |
| `TaskLists.AddPartitions` | internal/monitor/cache.go:594-611 | AddSgTask leaves the download once, in the target, every other row untouched and in order |
| `TaskLists.ReachableListsAreDistinct` | internal/monitor/cache.go:588-611 | however the Surge lists are driven no download shows in two places |
| `TaskTick.TickIsExact` | internal/monitor/cache.go:154-263 | after a tick each row has the engine's measurements and exactly the paths and addresses the engine and the three lists knew |
| `TaskTick.TickKeepsNames` | internal/monitor/cache.go:154-203 | a title, directory or group any previous row had is not lost, and the engine's own comes first |
| `TaskTick.FoldFollowsFirst` | internal/monitor/cache.go:545-565 | a folded row takes status, speed and errors from the first row |
| `TaskTick.FoldKeepsLengths` | internal/monitor/cache.go:545-565 | a positive length any twin measured is not lost |
| `TaskTick.MoveLosesNoMetadata` | internal/monitor/cache.go:445-565 | a moved row carries exactly the paths and addresses the three lists had |
| `TaskTick.AddedRow` | internal/monitor/cache.go:594-640 | what was known updated by what was sent: paths united, lengths never regressing to zero, errors the sender's only for a row new to the list |
| `TaskCache.EngineLists.DetachTask` | internal/monitor/cache.go:528-542 | removes every row of the download and says whether there was one |
| `TaskCache.EngineLists.StoreFoldedTask` | internal/monitor/cache.go:567-581 | one row, where the first was or at the end |
| `TaskCache.EngineLists.MoveTaskBetweenLists` | internal/monitor/cache.go:445-490 | the three slices become what the specified move gives |
| `TaskCache.EngineLists.AddTaskLocked` | internal/monitor/cache.go:594-611 | the three slices become what the specified addition gives |
| `TaskCache.Cache.MoveTaskToStoppedTerminal` | internal/monitor/cache.go:340-379 | a live row moves to stopped with its terminal fields; others are left alone |
| `TaskCache.Cache.RestoreAriaHistoryTaskToWaiting` | internal/monitor/cache.go:408-419 | a history row is staged only when no live row exists |
| `TaskCache.Cache.UpdateFromAria2` | internal/monitor/cache.go:154-263 | the aria2 lists become the specified tick, the Surge lists stay, and the rows that left stopped are reported |
| `TickNormalize.NormalizeAria2TickLists` | internal/monitor/aria2_tick_normalize.go:14-62 | the loops compute the canonical lists |
| `TickNormalize.NormalizedPartition` | internal/monitor/aria2_tick_normalize.go:14-62 | the canonical lists share no gid, name exactly the non-empty gids, each in the first list that had it, stopped ones once |
| `TickNormalize.NormalizeIsIdempotent` | internal/monitor/aria2_tick_normalize.go:14-62 | canonical lists are left alone |
| `TickNormalize.TickListsShareNothing` | internal/monitor/aria2_tick_normalize.go:14-62 | a canonical tick leaves the cache's aria2 lists sharing no download, whatever they held |
| `TickNormalize.DropDeletedStopped` | internal/monitor/aria2_tick_normalize.go:66-81 | tombstoned rows go; with no tombstones the list is returned as it came |
| `History.RemoveManyIsRemoveEach` | internal/history/history.go:429-492 | one compaction pass equals removing each non-empty gid in turn, in any order |
| `History.IndexesAreUnique` | internal/history/history.go:429-492 | exact indexes are determined by the entries, so equal entries have equal indexes |
| `History.AddChangesOneEntry` | internal/history/history.go:328-383 | adding changes one entry, never loses a group or a timing, and keeps gids distinct |
| `History.WithoutIsCut` | internal/history/history.go:397-426 | in a list of distinct gids removing one cuts out its position |
| `History.LoadIsExactIffDistinct` | internal/history/history.go:208-236 | the position index built on load is exact if and only if the file's gids are distinct |
| `History.LoadedRemovalIsExactIff` | internal/history/history.go:208-236 | after loading, a removal takes every entry of its gid if and only if the file had at most one |
| `History.TwinSurvivesRemoval` | internal/history/history.go:397-426 | whenever a file has twins of a gid, one of them is still listed after the gid was removed |
| `HistoryStore.Journal.Add` | internal/history/history.go:328-377 | updates or appends in place and keeps both indexes exact |
| `HistoryStore.Journal.RemoveLocked` | internal/history/history.go:397-426 | cuts one entry out, renumbers the rest, keeps both indexes exact, fires the hook once |
| `HistoryStore.Journal.RemoveMany` | internal/history/history.go:429-492 | leaves what removing each gid leaves, with exact indexes; if anything went, the hook fires once with the removed gids in order |
| `HistoryStore.Journal.Clear` | internal/history/history.go:601-610 | empties list and indexes |
| `HistoryStore.Journal.Load` | internal/history/history.go:208-236 | the source index is always exact, the position index exactly when gids are distinct |
| `HistoryStore.Journal.Get` | internal/history/history.go:555-566 | equals linear search |
| `HistoryStore.Journal.ContainsSource` | internal/history/history.go:523-531 | equals linear search for a non-empty source |
| `HistoryStore.Journal.ContainsSources` | internal/history/history.go:534-552 | exactly the queried non-empty sources that occur |
| `HistoryStore.Journal.GetMissingByGID` | internal/history/history.go:507-519 | the entries not already known, in order |
| `CdnDetector.BadNeedsAFastPeer` | internal/monitor/cdn_detector.go:173-303 | no worker is condemned unless another one, warmed up and not refused, is above the floor |
| `CdnDetector.ActionKeepsSpacing` | internal/monitor/cdn_detector.go:307-352 | an action whose timers have run out keeps actions on one worker at least 5 s apart, and 10 s unless forgotten between |
| `CdnDetectorTicks.KillsAfter` | internal/monitor/cdn_detector.go:345-352 | one step: an event that kills only while the budget lasts keeps at most three kills of a worker between resets; the object keeps this at every tick |
| `CdnDetectorTicks.Detector.ShouldFire` | internal/monitor/cdn_detector.go:307-321 | fires only once sustain and cooldown have run out since the last action |
| `CdnDetectorTicks.Detector.RecordKill` | internal/monitor/cdn_detector.go:345-352 | logs the action and restarts the timers |
| `CdnDetectorTicks.Detector.EvaluateGid` | internal/monitor/cdn_detector.go:173-240 | at most one action, the last event, on a worker the decision tree condemned |
| `CdnDetectorTicks.Detector.PruneAbsent` | internal/monitor/cdn_detector.go:138-157 | every worker of the download that was seen starts over, every other one ages by one tick, and exactly those absent beyond the grace ticks are forgotten |
| `CdnDetectorTicks.Detector.Tick` | internal/monitor/cdn_detector.go:118-170 | keeps the spacing and kill bounds over the whole log; no download is acted on twice in a tick when the sampled downloads are distinct |
| `Namer.WaitGroupIsExact` | internal/monitor/group_namer.go:111-180 | in every run the wait group equals scheduled firings plus running callbacks, is never negative, and is zero only when neither is left |
| `Namer.QuietAfterStop` | internal/monitor/group_namer.go:111-126 | once Stop has returned nothing is scheduled or runs again |
| `Namer.RequeuesAreRationed` | internal/monitor/group_namer.go:194-237 | each self-requeue uses an allowance, and at most three are given between clears of a group's attempts |
| `Namer.CalmRunBoundsRequeues` | internal/monitor/group_namer.go:194-237 | a group requeues itself at most three times in a row in every run that never clears its attempts while one of its callbacks is about to requeue |
| `Namer.UncalmClearOverflows` | internal/monitor/group_namer.go:194-237 | the condition is exact: after any run, such a clear lets the group go on to four requeues in a row |
| `Namer.FourRequeuesInARow` | internal/monitor/group_namer.go:194-237 | and every group has such a run |
| `Namer.StopCancelsAllIff` | internal/monitor/group_namer.go:111-126 | Stop cancels every firing to come if and only if every due timer is still in the map |
| `Namer.RearmedTimerOutlivesStop` | internal/monitor/group_namer.go:167-180 | which can fail: a callback that starts late forgets the timer armed again meanwhile |
| `Namer.GroupNamer.QueueKey` | internal/monitor/group_namer.go:151-180 | resets or makes the timer and counts a firing that was not already due |
| `Namer.GroupNamer.CancelTimers` | internal/monitor/group_namer.go:111-126 | cancels and uncounts exactly the due timers the map knows |
| `Fingerprint.ParseUndoesPrint` | internal/extractor/browser_grant.go:433-440 | the length-prefixed stream gives its fields back, whatever bytes they hold |
| `Fingerprint.ReadContextUndoes` | internal/extractor/browser_grant.go:398-431 | the stream gives the arranged context back |
| `Fingerprint.SortedIsUnique` | internal/extractor/browser_grant.go:402-405 | with distinct keys there is one sorted arrangement, whatever sort made it |
| `Fingerprint.StreamsEqualIff` | internal/extractor/browser_grant.go:398-440 | streams of arranged contexts are equal if and only if user agent, language, referer and the set of grants with their header sets are |
| `FingerprintWriter.BrowserContextStream` | internal/extractor/browser_grant.go:398-440 | the loops write the stream of the arranged context, and an empty context is not hashed |
| `FingerprintWriter.ArrangeIsArranged` | internal/extractor/browser_grant.go:402-426 | sorting a validated context arranges it |
| `FingerprintWriter.FingerprintInputsEqualIff` | internal/extractor/browser_grant.go:398-440 | validated contexts are hashed alike exactly when they are equal up to the order of grants and headers |
| `FingerprintWriter.ValidateBrowserHeaderGrants` | internal/extractor/browser_grant.go:220-242 | accepts exactly when every grant passes and no scope repeats; what it returns is validated |
| `FingerprintWriter.ValidateHeaders` | internal/extractor/browser_grant.go:277-314 | accepts exactly admissible, distinct names within the total size, and sorts them |
| `EndpointTemplate.ScanAcceptsExactlyRenderings` | internal/extractor/host_policy.go:610-634 | a template is accepted exactly when it is the rendering of well-formed tokens, and then of one list only |
| `EndpointTemplate.Placeholders` | internal/extractor/host_policy.go:610-634 | the scan returns exactly the keys of the readable template, or refuses it |
| `EndpointTemplate.ReplaceIsFillOne` | internal/extractor/host_policy.go:532-535 | replacing one key in the text is substituting it in the tokens |
| `EndpointTemplate.OrderDoesNotMatter` | internal/extractor/host_policy.go:532-535 | replacing the keys in any order gives the one simultaneous substitution |
| `EndpointTemplate.FilledHasNoBraces` | internal/extractor/host_policy.go:536-538 | nothing unresolved is left |
| `EndpointTemplate.PathEscapeHasNoBraces` | internal/extractor/host_policy.go:534 | an escaped value has no braces |
| `EndpointTemplate.ReplaceEach` | internal/extractor/host_policy.go:532-535 | the loop over the map, in whatever order it is walked |
| `EndpointTemplate.ExpandEndpointURL` | internal/extractor/host_policy.go:513-549 | succeeds exactly when template, params and result pass, with the simultaneous substitution; the unresolved-placeholder error is unreachable |
| `WasmSections.HasWasmStartSection` | internal/extractor/runner_preflight.go:200-243 | the loops compute the walk, stop on every input and read nothing out of range |
| `WasmSections.StartSectionFound` | internal/extractor/runner_preflight.go:208-240 | on well-formed sections the answer is whether one of them is a start section |
| `WasmSections.AnswerMeansSections` | internal/extractor/runner_preflight.go:208-240 | on any bytes an answer means readable sections up to a start section, or to the end without one |
| `WasmSections.SumIsValue` | internal/extractor/runner_preflight.go:212-227 | the shifted groups add up to the number modulo 2^32 |
| `WasmSections.SizesAreLenient` | internal/extractor/runner_preflight.go:212-227 | six-byte sizes are taken and high bits dropped, beyond what the format allows |

## Left out

- HTTP transport, WebSocket I/O, guest execution, zip reading, signatures, hashes and the parsing of JSON are opaque values or steps that may fail; the fingerprint is the stream given to the hash.
- The file system is rename, create, remove and existence; permission and symlink checks are the steps that fail. Fsync order is not modelled.
- Runtime manager and dispatcher operations are steps of a machine, not methods, because other goroutines act between any two of them; sharing of memory between published snapshots is not modelled.
- The resolver may rewrite a cached resolve on a hit before it is sent; the cache's own bytes are what the model speaks of.
- IdempotencyCache: `hasCompleted` and `len` only read and are left out.
- A download-auth registry that is not configured (nil) and the zeroing of freed secrets are left out.
- DownloadAuth.Registry.RegisterToken: a failing random source, after which nothing is stored, is not a case; minted refs are an input.
- Add-task filename, URL, domain and header checks appear as the outcome of the checks before and after the binding.
- The adapter's source requests, header building and preflight do not touch holders and are left out.
- The group store's reset for tests, which rebuilds channels and counters for a new epoch, is left out; gids and group ids are taken as already trimmed; timers may fire at any time.
- GroupStoreObject.Store: locks are not fields; each method is one critical section, and what others do between them is in the machine.
- The task cache's metadata map, pending-start marks and the history retirement after a tick are left out; the rows that left the stopped list are reported. Copying of rows is the identity on values, so aliasing of file slices is not modelled.
- In-place edits of rows by enrichment and group renames are any change that keeps every gid in its place.
- The history's saver, which is a simpler form of the group store's, its file writes and its group renames are left out; the hooks are a list of what was fired.
- CdnDetector: the sample windows are inputs, speeds are real numbers and the coefficient of variation is compared squared; the windows' own ring buffer is left out. Per-download maps of workers are one map.
- Namer: what a callback finds in its snapshot is an input, so are the names it computes; the reset for tests is left out.
- FingerprintWriter.ValidateHeaders: the name and value checks that look at one header alone are an input, and so are the canonical forms of origin and target.
- FingerprintWriter.ValidateBrowserHeaderGrants: what canonical origin and target are is an input, as for its headers.
- EndpointTemplate.ExpandEndpointURL: the URL and host checks are inputs, and case folding is that of ASCII.
- RuntimeStore.Store.ReplaceIndex: temporary file, write, sync and clean-up are one step that may fail; that the rename puts all or nothing in place is a hypothesis.
- RuntimeStore.Store.ReadIndex: locators follow the POSIX path rules; the IP-literal test on the host of a lock URL and the finer syntax of URLs are the library's, so the model admits some URLs more.
- AddTaskDispatcher.Dispatcher.TryPack: when a binding fails is left to the registry, whose entries others change meanwhile; the verdict for items with a ref is one of two, and what each means is proved.
- TaskCache.Cache.UpdateFromAria2: pending-start marks, and the history retirement that follows a row that left the stopped list, are not part of it.
- Field-by-field validators, cards and counts of download groups, URL and public-suffix parsing, output parsers, wiring and the user interface are left out: they would add only easy members.
