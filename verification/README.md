# InfiniCache, verified core

InfiniCache is a proxy that spreads erasure-coded chunks of objects over serverless instances.
This project models the six parts of it that hold hard state and proves what they keep, over every
step and every run:

- **The placer** (`Placer*.dfy`). It keeps a clock over two arrays with online compaction, places
  chunks, evicts objects and hands their places on, and accounts bytes per instance on 64-bit
  counters.
- **Migration** (`Migration*.dfy`, `Listing.dfy`). While the keys of a source lambda are copied, the
  destination's store reads and writes through an adapter. The key listing that opens a migration is
  modelled from the backing array to the parsed operations.
- **The deployment scheduler** (`Scheduler.dfy`, `SchedulerHeap.dfy`). It is a pool, an id-keyed table
  of deployments that exchange identities in place, and group slots.
- **The session timeout** (`Timeout.dfy`). It covers tick rounding, and a state machine of a timer, a
  one-slot mailbox, a busy count and a disabled flag.
- **Reply matching** (`Replies.dfy`). It covers wait queues, retries and answers that are given once.
- **Shard split and join** (`Shards.dfy`).

`Basics.dfy` holds options and facts about slot arrays. `dafny verify dfyconfig.toml` checks the
whole project.

## How the placer is layered

`PlacerHeap` is the placer as it is written: metadata objects, arrays of pointers, back-pointers, a
sweep loop and a retry loop. Each of its methods is proved equal to a step on values
(`PlacerModel`, `PlacerSteps`). `PlacerClock` and `PlacerEviction` relate the two arrays to one list
with a hand (`Clock`): between sweeps and in the middle of one, compaction is invisible on that list.
`PlacerRun` puts the steps together into runs. `GetOrInsert` is two steps of a run, because the
object's lock is taken first and the placer's lock later, and other objects' evictions may come
between them. `PlacerAccounting`, `PlacerOverflow`, `PlacerMarks`, `PlacerHistory` and `PlacerSlices`
prove properties of whole runs, `PlacerDouble` and `PlacerWitness` what goes wrong outside them.

## What the proofs found

- **An object can be listed twice.** If a later chunk of a partly placed object needs an eviction and
  the object stands ahead of its victim on the clock list, the sweep has compacted it already, and the
  eviction compacts it again: proxy/server/placer.go:281 clears its slot in one array only.
  `PlacerRun.SettleKeepsIff` shows that this is the only way to break the clock, as an equivalence,
  and `PlacerWitness.DoubleListingReachable` gives a run from a new placer that gets there.
  `PlacerDouble` follows the object until the end of the sweep puts it on the list twice. Runs
  (`PlacerRun.IsRun`) leave out exactly those steps. Runs in which only first chunks evict never have
  such a step (`PlacerHistory.FirstChunkSafe`).
- **The capacity check can wrap.** It is right for every fill level if and only if capacity and chunk
  size fit a 64-bit word together (`PlacerOverflow.FitsExactIff`); otherwise
  `PlacerOverflow.Overflows` gives a run that fills an instance beyond its capacity.
- **`Get` of the storage adapter caches zeros.** `InterceptReader` embeds its reader, so `ReadAll` goes
  around the interceptor and the buffer stays blank; a stream that is given up early without a read
  error leaves zeros as well.
- **A set can reach the source only.** If the last read of the body reports an error, the adapter
  leaves the local store alone although the source has applied and acknowledged the set
  (lambda/migrator/storage_adapter.go:221-225). Reads then get the old value
  (`Migration.StaleAfterFailedSet`).
- `Migration.StepCoherentIff` says exactly which commands keep the stores alike, and
  `Migration.ReadSurvivesIff` and `Migration.SetSurvivesIff` what becomes of them at the end.
- **A key set again before its burial is lost at the destination**, whatever else happens
  (`Migration.SetSurvivesIff`, `Migration.SetDuringMigrationIff`).
- **A lookup can hand out a spare deployment**, in two ways. Every call of the scheduler keeps the
  allocation if and only if it is orderly (`Scheduler.StepKeepsIff`), and a lookup is not if the slot is
  still held by a recycled deployment: get, recycle, reserve for the same slot and look up makes an id
  spare and active at once (`Scheduler.DoubleRun`, `SchedulerHeap.DoubleAllocation`). If the pool hands
  the same deployment out again, the same four calls are all orderly, but the lookup recycles the
  deployment that it returns (`Scheduler.SpareReturned`). `Scheduler.LookupReturns` gives the exact
  condition for a lookup that returns an active deployment.
- **A lookup of an entry whose slot is empty fills the slot and crashes**: `Validate` returns the nil
  entry it found (proxy/server/group.go:52-61).
- **A halt that is overtaken by a restart leaves the session without a timeout.** `Halt` disables and
  then stops; a restart in between arms a timer that the stop takes away (`Timeout.HaltOvertaken`).
  `Timeout.RunAwaitedIff` shows that nothing else loses a wake-up, as an equivalence over runs.
- **A granted reset can promise another one's extension**, because the extension is noted outside the
  lock (`Timeout.ResetOvertaken`).
- **The encoder rejects its own output** when the last shard would start behind the data:
  `Shards.SplitVerifiesIff` and `Shards.SplitRejected`.
- **`Join` of no bytes still looks at the first shard**, and fails if it is nil:
  `Shards.TrailingNilsReadyIff`.

## Model

| member | source | states |
|---|---|---|
| `PlacerClock.KeepClean` | proxy/server/placer.go:291-294 | Compacting the object under the hand keeps the second array equal to the occupied swept slots, in order, with back-pointers into both arrays. |
| `PlacerClock.VisitClean` | proxy/server/placer.go:261-299 | Passing a slot keeps the clock well-formed and moves the hand on by one object on the list, or by none at an empty slot. |
| `PlacerClock.SkipSpec` | proxy/server/placer.go:261-299 | On the list, a sweep stops at the first unmarked object from the hand on, or at the end of the sweep, and clears the marks of exactly the complete objects it passed. |
| `PlacerClock.SkipWell` | proxy/server/placer.go:261-299 | A sweep ends in a well-formed clock. |
| `PlacerClock.FinishSpec` | proxy/server/placer.go:301-317 | The end of a sweep leaves the list of live objects, its order and its marks as they were, in the other array, well-formed and with the hand at rest. |
| `PlacerClock.EvictListing` | proxy/server/placer.go:273-288 | After an eviction the list has the requester in the victim's place, once, and everything else in order. |
| `PlacerClock.EvictKeeps` | proxy/server/placer.go:273-294 | An eviction for a requester outside the swept slots keeps the clock well-formed. |
| `PlacerClock.EvictBreaks` | proxy/server/placer.go:281-293 | An eviction for a requester among the swept slots never does: it is then compacted twice. |
| `PlacerClock.VictimPlacement` | proxy/server/placer.go:270-279 | A victim is complete, and every entry of the placement it hands on is an instance of the group. |
| `PlacerEviction.SweepSpec` | proxy/server/placer.go:248-299 | From any well-formed state, one sweep on the arrays does what the one-list clock says: where it stops, what it clears, and nothing else. |
| `PlacerEviction.PassFinds` | proxy/server/placer.go:248-320 | A call finds a victim exactly when the one-list clock has an unmarked object in its window. |
| `PlacerEviction.PassMisses` | proxy/server/placer.go:301-319 | A call that finds none is the one-list clock rewound: same objects, same order, the covered complete ones unmarked. |
| `PlacerEviction.RewoundSpec` | proxy/server/placer.go:174-177 | A sweep without a victim leaves one sweep fewer to go and the same preferred victim. |
| `PlacerEviction.ChosenSpec` | proxy/server/placer.go:174-177 | The repeated sweeps stop in front of the preferred victim and touch only marks and arrays. |
| `PlacerEviction.RetryEnds` | proxy/server/placer.go:174-177 | The retry loop ends if and only if a complete object other than the requester is listed, and then after at most three sweeps. |
| `PlacerEviction.RetryKeepsIff` | proxy/server/placer.go:174-177 | The eviction leaves a well-formed clock if and only if the requester is not listed ahead of its victim, and then the list has the requester in the victim's place. |
| `PlacerEviction.ChosenView` | proxy/server/placer.go:174-177 | The repeated sweeps stop with exactly the marks cleared, and the limit set, that the one-list clock says. |
| `PlacerEviction.RetryView` | proxy/server/placer.go:174-177 | After an eviction that keeps the clock, list, hand, limit, unmarked and complete objects are those of the one-list clock. |
| `PlacerSteps.Wrap` | proxy/lambdastore/meta.go:57-63 | A counter stays below 2^64 and is exact on results that fit. |
| `PlacerSteps.WrapIsMod` | proxy/lambdastore/meta.go:57-63 | Wrapping is reduction modulo 2^64, for negative results too. |
| `PlacerSteps.NewMeta` | proxy/server/placer.go:91-97 | New metadata has the lambda id under its chunk and 0 elsewhere, the chunk and slice sizes asked for, no slice base and no placer metadata. |
| `PlacerSteps.InheritOk` | proxy/server/placer.go:178-202 | After the retry loop the requester holds a full swap map of valid instances, equal to its victim's placement. |
| `PlacerSteps.SliceKeeps` | proxy/server/group.go:79-87 | Drawing a slice base keeps the clock well-formed and the set of possible victims. |
| `PlacerRun.AdmitKeeps` | proxy/server/placer.go:106-133 | The part of a set under the object lock keeps the invariant, for new, known and evicted objects. |
| `PlacerRun.AdmitEffect` | proxy/server/placer.go:110-133 | A chunk that was set before flags its object; a new or evicted object starts over with nothing confirmed or inherited; nothing else changes. |
| `PlacerRun.PlaceKeeps` | proxy/server/placer.go:154-169 | Placing a chunk that fits keeps the invariant, the listing of a new object included. |
| `PlacerRun.SettleKeepsIff` | proxy/server/placer.go:135-202 | The part under the placer lock keeps the invariant if and only if it does not evict for an object listed ahead of its victim. |
| `PlacerRun.SettleEffect` | proxy/server/placer.go:135-202 | Where the chunk ends up: at base plus lambda id modulo the group size if it fits there, at its inherited instance, or at that of the same chunk of the victim; confirmed in each case. |
| `PlacerRun.CompactedTwice` | proxy/server/placer.go:281-293 | In that case the object is twice in the array being compacted. |
| `PlacerDouble.PassKeepsTwice` | proxy/server/placer.go:291-317 | Once an object is compacted twice, every further call of the sweep keeps it so, and the end of the sweep puts it on the list twice. |
| `PlacerDouble.SettleTwice` | proxy/server/placer.go:171-202 | Settling a chunk for an object listed ahead of its victim leaves it compacted twice in a state that can be swept on. |
| `PlacerRun.TouchKeeps` | proxy/server/placer.go:204-246 | A get keeps the invariant. |
| `PlacerRun.StepKeeps` | proxy/server/placer.go:106-320 | Every step keeps the invariant: slot 0 empty, hand within bounds, back-pointers, no object listed twice, listed exactly when not evicted and with a confirmed chunk, unmarked only when complete. |
| `PlacerRun.RunInv` | proxy/server/placer.go:76-320 | The invariant holds at the end of every run from a new placer. |
| `PlacerRun.RunHolds` | proxy/server/placer.go:76-320 | The invariant holds in every state of every run. |
| `PlacerWitness.DoubleListingReachable` | proxy/server/placer.go:160-162 | A run of five steps ends in a state where settling one more chunk lists an object twice and breaks the invariant. |
| `PlacerAccounting.ChargeNet` | proxy/server/placer.go:180-196 | The loop over the swap map changes each instance by the sum of its entries' net charges, on wrapping counters, and leaves capacities alone. |
| `PlacerAccounting.InheritLoad` | proxy/server/placer.go:178-202 | Reservations after inheriting are the requester's own plus the victim's plus the net charge. |
| `PlacerAccounting.RetryLoad` | proxy/server/placer.go:174-196 | An eviction changes the reservations on each instance by exactly its net charge. |
| `PlacerAccounting.ComplementIs` | proxy/lambdastore/meta.go:61-63 | Flipping the bits of dec - 1 gives the 64-bit word of -dec. |
| `PlacerAccounting.StepLoad` | proxy/server/placer.go:106-232 | Every step changes each counter and the reservations behind it by the same amount. |
| `PlacerAccounting.RunConserves` | proxy/server/placer.go:106-202 | In every run, each counter is its initial value plus the chunk sizes reserved by all listed objects: confirmed chunks at their placement, the others at the swap map once an eviction was decided. |
| `PlacerAccounting.RunWithin` | proxy/server/placer.go:154-196 | With one chunk size, initial sizes below capacity, and capacities that leave room for one chunk below 2^64, every instance stays below capacity in every run and its counter is the exact sum: no addition wraps. |
| `PlacerOverflow.FitsExactIff` | proxy/server/placer.go:156 | The capacity check is right, both ways, for every fill level below capacity if and only if capacity and chunk size together are at most 2^64. |
| `PlacerOverflow.Overflows` | proxy/server/placer.go:156-165 | For every other capacity and chunk size there is a run that fills an instance beyond its capacity and wraps its counter. |
| `PlacerOverflow.ChargeExact` | proxy/server/placer.go:180-196 | While a swap map is charged, each counter only falls and stays exact: no partial sum wraps. |
| `PlacerOverflow.RunChargesExactly` | proxy/server/placer.go:180-196 | In every run as for `RunWithin`, every partial sum of every eviction's accounting is exact. |
| `PlacerMarks.SweepSparesMarked` | proxy/server/placer.go:248-299 | No single sweep evicts an object that was marked when it began. |
| `PlacerMarks.SecondChance` | proxy/server/placer.go:235-289 | If an object that was marked at the start of the retry loop is evicted, nobody ahead of the hand was unmarked, and after a third sweep nobody at all. |
| `PlacerMarks.RetryMarks` | proxy/server/placer.go:174-177 | A whole retry loop leaves every marked object but its victim listed, and clears exactly the marks that the one-list clock clears. |
| `PlacerMarks.StepMarks` | proxy/server/placer.go:106-320 | Every step evicts a marked object, clears its mark as the one-list clock says, or leaves it listed and marked. |
| `PlacerMarks.UseMarks` | proxy/server/placer.go:235-246 | A get of a placed chunk, the placing of an object's first chunk and an eviction on its behalf leave the object listed and marked. |
| `PlacerMarks.ClearedWereMarked` | proxy/server/placer.go:270-272 | The hand clears marked objects only. |
| `PlacerMarks.RunMarks` | proxy/server/placer.go:235-289 | In every run an object that is not evicted stays marked until the hand clears it. |
| `PlacerMarks.RunSecondChance` | proxy/server/placer.go:235-289 | In every run, between any moment at which an object is marked and its eviction, the hand clears its mark, in an earlier step or in an earlier sweep of the evicting call. |
| `PlacerMarks.UsedGetsSecondChance` | proxy/server/placer.go:235-289 | In particular after every use of the object, by whatever step led to that state. |
| `PlacerHistory.StepStable` | proxy/server/placer.go:106-232 | A step evicts an object or leaves its confirmed chunks where they are, within the group. |
| `PlacerHistory.RunStable` | proxy/server/placer.go:117-232 | From its confirmation until its object's eviction, a chunk stays on one instance of the group, in every run. |
| `PlacerRun.VictimComplete` | proxy/server/placer.go:268-279 | The object that gives way has all chunks confirmed. |
| `PlacerHistory.FirstChunkSafe` | proxy/server/placer.go:160-177 | An eviction for an object's first chunk never lists it twice. |
| `PlacerHistory.CompleteSpread` | proxy/server/group.go:79-82 | Distinct lambda ids below the group size, or an inherited spread placement, give pairwise different instances. |
| `PlacerHistory.RunSpread` | proxy/server/placer.go:145-198 | In runs with distinct lambda ids where only first chunks evict, every complete object's chunks are on different instances, through any chain of evictions. |
| `PlacerSlices.StepBase` | proxy/server/group.go:67-87 | A step draws at most the base of its own object, from the counter before it, and keeps every base drawn before. |
| `PlacerSlices.RunCounter` | proxy/server/group.go:67-69 | In every run the counter is the sum of all slices drawn, as a 64-bit word. |
| `PlacerSlices.RunBases` | proxy/server/group.go:67-87 | A drawn base is the sum of the slices drawn before it, modulo the group size: slices lie end to end. |
| `PlacerSlices.RunBaseStays` | proxy/server/group.go:79-87 | A base never changes once drawn, not even when its object is evicted and set again. |
| `PlacerHeap.InstanceMeta.IncreaseSize` | proxy/lambdastore/meta.go:57-59 | Adds a signed amount to the 64-bit counter. |
| `PlacerHeap.InstanceMeta.DecreaseSize` | proxy/lambdastore/meta.go:61-63 | The complement trick subtracts. |
| `PlacerHeap.Group.NextSlice` | proxy/server/group.go:67-69 | Returns the counter before this slice modulo the group size, and advances the counter. |
| `PlacerHeap.Meta.constructor` | proxy/server/placer.go:91-97 | New metadata: the requested lambda id under its chunk and 0 elsewhere, no placer metadata, no slice base. |
| `PlacerHeap.Placer.constructor` | proxy/server/placer.go:76-89 | A new placer is the initial state of a run. |
| `PlacerHeap.Placer.AddObject` | proxy/server/placer.go:235-241 | Appends the object to the primary array with its back-pointer, marked. |
| `PlacerHeap.Placer.TouchObject` | proxy/server/placer.go:243-246 | Marks the object and nothing else. |
| `PlacerHeap.Placer.Compact` | proxy/server/placer.go:291-294 | Appends to the secondary array with the back-pointer and moves the hand on. |
| `PlacerHeap.Placer.Claim` | proxy/server/placer.go:273-287 | The object under the hand is flagged, its placement and slot are inherited, and the requester's old slot is cleared. |
| `PlacerHeap.Placer.VisitSlot` | proxy/server/placer.go:261-299 | One iteration: evicts if the slot holds a target, otherwise passes it, clearing marks of complete objects. |
| `PlacerHeap.Placer.Sweep` | proxy/server/placer.go:260-299 | The loop over the slots ends at the model's first target and evicts it, or at the end of the sweep. |
| `PlacerHeap.Placer.FinishSweep` | proxy/server/placer.go:301-317 | The loop over the slots behind the sweep, and the switch of the arrays. |
| `PlacerHeap.Placer.NextAvailableObject` | proxy/server/placer.go:248-320 | The whole call, on pointers and arrays, is the model's sweep, with the same result. |
| `PlacerHeap.Placer.FindVictim` | proxy/server/placer.go:174-177 | The retry loop terminates and ends in the model's eviction. |
| `PlacerHeap.Placer.GetIndex` | proxy/server/group.go:79-87 | The base is drawn on first use only, and the result is an instance of the group. |
| `PlacerHeap.Placer.ChargeSwap` | proxy/server/placer.go:180-196 | The loop over the swap map charges every entry to its instance once. |
| `PlacerHeap.Placer.SettleInPlace` | proxy/server/placer.go:156-169 | Places and confirms the chunk, lists the object if it is not, and charges the instance. |
| `PlacerHeap.Placer.SettleByEviction` | proxy/server/placer.go:171-202 | Eviction, accounting and confirmation of the chunk together. |
| `PlacerHeap.Placer.Settle` | proxy/server/placer.go:135-202 | The part of `GetOrInsert` under the placer lock; tells whether it evicted. |
| `PlacerHeap.Placer.Lookup` | proxy/server/metastore.go:23-26 | Returns the stored object, or stores the new one. |
| `PlacerHeap.Placer.Admit` | proxy/server/placer.go:110-133 | The part under the object lock; tells whether the chunk was set before. |
| `PlacerHeap.Placer.GetOrInsert` | proxy/server/placer.go:106-202 | From any state that satisfies the invariant, the whole call is the model's set; tells whether the object was known and whether it evicted; flags an object whose chunk was set before, and puts a chunk that fits where it was meant to go. |
| `PlacerHeap.Placer.Insert` | proxy/server/proxy.go:134-137 | A client's set: new metadata and `GetOrInsert`, with the chunk and the lambda id that the client gave. |
| `PlacerHeap.Placer.InsertFitting` | proxy/server/proxy.go:134-137 | If the chunk fits, its instance is the slice base plus the client's lambda id, modulo the group size. |
| `PlacerHeap.Placer.Get` | proxy/server/placer.go:204-232 | Finds evicted objects and confirmed chunks, and marks the object in the second case. |
| `Migration.DelEffect` | lambda/migrator/storage_adapter.go:265-282 | An applied delete of a known key leaves a tombstone at the source, nothing to be read anywhere, and other keys alone. |
| `Migration.SetEffect` | lambda/migrator/storage_adapter.go:198-231 | An applied set is what the source shows, and the local store unless it failed; other keys are left alone. |
| `Migration.GetEffect` | lambda/migrator/storage_adapter.go:156-196 | A read changes the local store only, and only a key that is not visible there and was fetched without an error, to what was copied of it. |
| `Migration.CopyEffect` | lambda/migrator/client.go:181-199 | The next listed key is buried, skipped if visible, or shown as the source shows it; other keys are left alone. |
| `Migration.AnswerAgreesIff` | lambda/migrator/storage_adapter.go:156-175 | A read is answered as the source would answer it if and only if a local copy, if there is one, is what the source has. |
| `Migration.StepCoherentIff` | lambda/migrator/storage_adapter.go:73-282 | Every command keeps each locally visible key equal to the source in chunk id and bytes, if and only if it does not cache a read whose uncopied bytes are not all zeros, and is not an applied set that failed over a local copy of another value. |
| `Migration.StaleAfterFailedSet` | lambda/migrator/storage_adapter.go:221-225 | From every coherent state with another value, an applied set that fails leaves a read of the old value. |
| `Migration.RunCoherent` | lambda/migrator/storage_adapter.go:145-282 | From a coherent start, every run of such commands stays coherent, and every read answers what the source would. |
| `Migration.StartSync` | lambda/handler.go:637-657 | A listing of the whole source starts in sync, if each key visible locally is the same at the source or a tombstone there. |
| `Migration.StepSync` | lambda/migrator/client.go:176-201 | Every orderly step, client commands and copying alike, keeps every difference between the stores on the list. |
| `Migration.RunSync` | lambda/migrator/client.go:176-201 | So does every orderly run. |
| `Migration.MigrationExact` | lambda/migrator/client.go:176-201 | Once every listed key is handled, under any orderly interleaving, both stores show the same keys, ids and bytes, key by key. |
| `Migration.EndsWith` | lambda/migrator/client.go:176-201 | What both stores show at the end for a key that no client touches any more, from any state and whatever happens to other keys. |
| `Migration.SetSurvivesIff` | lambda/migrator/storage_adapter.go:198-231 | After an acknowledged set and any steps that leave its key to the migration, whatever happens to other keys, the destination has the value at the end if and only if no burial of the key was pending and, if the set failed after it was applied, the local copy had the same value or the key was still to be fetched. |
| `Migration.ReadSurvivesIff` | lambda/migrator/storage_adapter.go:156-196 | After a cached read the stores agree on its key at the end if and only if no burial of it was pending and the uncopied bytes are zeros. |
| `Migration.DelSurvives` | lambda/migrator/storage_adapter.go:265-282 | After an applied delete that no client undoes, both stores show nothing at the end. |
| `Migration.ListedAreOnce` | lambda/handler.go:641-657 | A listing names each key for one operation, once. |
| `Migration.TombstonesFirst` | lambda/handler.go:652-657 | Behind a key to be fetched, only keys to be fetched are listed. |
| `Migration.TasksOrder` | lambda/handler.go:643-650 | Each part lists its keys in the order in which the store lists them. |
| `Migration.SetDuringMigrationIff` | lambda/migrator/client.go:176-201 | The same for a set at any moment of a migration that starts with a listing. |
| `Migration.SetBeforeBurialLoses` | lambda/migrator/client.go:181-187 | A tombstoned key that is set before its burial ends up visible at the source and missing locally. |
| `MigrationHeap.Storage.Get` | lambda/storage/storage.go:21-28 | Finds a stored chunk with its id, and neither tombstones nor unknown keys. |
| `MigrationHeap.Storage.Set` | lambda/storage/storage.go:50-55 | Stores the chunk, over a tombstone too, and leaves other keys alone. |
| `MigrationHeap.Storage.Del` | lambda/storage/storage.go:30-39 | Leaves a tombstone and other keys alone; fails on unknown keys. |
| `MigrationHeap.Storage.Len` | lambda/storage/storage.go:66-68 | Counts keys, tombstones included. |
| `MigrationHeap.InterceptReader.Read` | lambda/migrator/intercept_reader.go:22-30 | Delivers the next bytes, appends the same bytes to the copy and keeps the error. |
| `MigrationHeap.InterceptReader.ReadAll` | lambda/migrator/intercept_reader.go:7-13 | The promoted method delivers the rest and copies nothing. |
| `MigrationHeap.Stream` | lambda/migrator/intercept_reader.go:22-34 | However a stream is cut into reads, the receiver and the interceptor see the same bytes, all of them once it is read to the end, and the error of the last read is what is left. |
| `MigrationHeap.StorageAdapter.Get` | lambda/migrator/storage_adapter.go:156-196 | Answers locally or from the source, and caches what went through unless the last read failed. |
| `MigrationHeap.StorageAdapter.GetAll` | lambda/migrator/storage_adapter.go:73-81 | Answers the same, and caches blanks. |
| `MigrationHeap.StorageAdapter.Set` | lambda/migrator/storage_adapter.go:198-231 | Both stores get exactly the bytes sent; or, if the last read reported an error, the source alone; or neither, if the set was not acknowledged or the stream broke off. Only the first is reported as a success. |
| `MigrationHeap.StorageAdapter.Del` | lambda/migrator/storage_adapter.go:265-282 | Both stores get the tombstone and reads find nothing, or neither store changes. |
| `MigrationHeap.StorageAdapter.CopyOne` | lambda/migrator/client.go:181-199 | Buries, skips or fetches the next listed key. |
| `Listing.AtoiItoa` | lambda/migrator/client.go:160 | Decimal numbers are read back as written if they fit 64 bits, and rejected otherwise. |
| `Listing.AtoiSigned` | lambda/migrator/client.go:160 | Signs are read, within 64 bits. |
| `Listing.DecodeEncode` | lambda/migrator/client.go:182-183 | Every operation and key is read back as written, whatever the key contains. |
| `Listing.DecodeIs` | lambda/migrator/client.go:182-183 | A line is a deletion if and only if it starts with the code of one; the key is the rest. |
| `Listing.Partition` | lambda/handler.go:641-650 | Two lists in one backing array: neither overwrites the other, together they are all keys, each part in listing order. |
| `Listing.Emit` | lambda/handler.go:652-657 | Appends one line per key of a list. |
| `Listing.List` | lambda/handler.go:637-657 | The message has the announced count and the listing, which has the tombstones first (`Migration.TombstonesFirst`). |
| `Listing.MessageExample` | lambda/handler.go:637-657 | A store with "a" deleted and "b" present sends "2", "2a", "1b". |
| `Listing.Read` | lambda/migrator/client.go:153-189 | Reads the count, with or without a sign, and as many lines; tells apart unreadable messages, crashes on a negative count or an empty line with the keys handled before, and complete lists. |
| `Listing.ParseIs` | lambda/migrator/client.go:153-174 | No count or fewer lines than announced are unreadable, a negative count crashes, and lines beyond the count are ignored. |
| `Listing.ParseLinesIs` | lambda/migrator/client.go:181-183 | The announced lines are decoded one by one, up to the first empty one. |
| `Listing.ParseMessage` | lambda/migrator/client.go:153-189 | The receiver recovers every operation and key, in order, and the count is right, for every store whose size fits 64 bits; a larger one is unreadable. |
| `Listing.ListedMigrationExact` | lambda/migrator/client.go:150-202 | End to end: working off the parsed message under any orderly interleaving makes the stores show the same. |
| `Scheduler.Deployment.Reset` | proxy/lambdastore/deployment.go:37-43 | Takes over another identity after handing on its own. |
| `Scheduler.Deployment.Switch` | proxy/lambdastore/instance.go:210-215 | Exchanges the identities of two deployments, the same one twice included. |
| `Scheduler.RecycleKeepsIff` | proxy/server/scheduler.go:75-84 | Recycling keeps the allocation if and only if the deployment was active. |
| `Scheduler.LookupKeepsIff` | proxy/server/scheduler.go:95-111 | A lookup keeps the allocation if and only if the slot is not held by another entry with a spare deployment. |
| `Scheduler.SpareExchange` | proxy/server/scheduler.go:95-111 | In that case the looked-up id ends up spare and active at once. |
| `Scheduler.LookupReturns` | proxy/server/scheduler.go:95-111 | A lookup returns a deployment under the id; it is active and not spare if and only if the slot is held by the looked-up entry itself, or by an entry with another deployment that is not spare. |
| `Scheduler.LookupEffect` | proxy/server/scheduler.go:95-111 | The whole new state of a lookup, case by case: with a slot that another entry holds, the looked-up deployment joins the end of the pool, the holder's entry takes its place in the table, the holder's old id leaves the table, and the two identities are exchanged. |
| `Scheduler.ClearKeeps` | proxy/server/scheduler.go:113-126 | Clearing keeps the allocation, takes exactly the given keys from the table and adds their deployments to the end of the pool, in order. |
| `Scheduler.StepKeepsIff` | proxy/server/scheduler.go:43-126 | Every call (get, reserve, recycle, lookup with switch, clear) keeps the allocation if and only if it is orderly. |
| `Scheduler.RunKeepsIff` | proxy/server/scheduler.go:28-126 | Over any sequence of calls, the allocation is consistent in every state if and only if every call was orderly. |
| `Scheduler.Partition` | proxy/server/scheduler.go:28-37 | In a consistent state every id below n is either spare or active, and the pool holds at most n. |
| `Scheduler.RunConserves` | proxy/server/scheduler.go:28-126 | Over orderly runs ids stay partitioned, table keys are current ids and names stay paired with ids. |
| `Scheduler.DoubleRun` | proxy/server/scheduler.go:43-111 | Get, recycle, reserve for the same slot and look up is a run, orderly up to its last call, that ends with an id both spare and active. |
| `Scheduler.SpareReturned` | proxy/server/scheduler.go:43-111 | With one deployment the same four calls are a run of orderly calls whose lookup takes the id from the table and recycles what it returns. |
| `SchedulerHeap.Scheduler.constructor` | proxy/server/scheduler.go:28-37 | All ids are spare at the start, in order. |
| `SchedulerHeap.Scheduler.NewGroup` | proxy/server/group.go:23-28 | A new group with empty slots. |
| `SchedulerHeap.Scheduler.GetForGroup` | proxy/server/scheduler.go:43-48 | Takes the first spare deployment, enters it in the table with its group and slot, and fills the slot; waits while none is spare; crashes at a slot that does not exist, after the deployment became active. |
| `SchedulerHeap.Scheduler.ReserveForGroup` | proxy/server/scheduler.go:50-59 | The same without filling the slot; fails if and only if none is spare. |
| `SchedulerHeap.Scheduler.Recycle` | proxy/server/scheduler.go:75-84 | Any deployment of the scheduler joins the end of the pool and its id leaves the table; consistent if and only if it was active, and then the channel has room. |
| `SchedulerHeap.Scheduler.Instance` | proxy/server/scheduler.go:95-111 | Unknown ids, crashes on empty or missing slots, and lookups with switch, each with the exact new pool and table: the replaced deployment is recycled. Consistent if and only if the holder of the slot is not spare; the returned deployment active and not spare if and only if the slot serves the id. |
| `SchedulerHeap.Scheduler.Clear` | proxy/server/scheduler.go:113-120 | Exactly the group's entries leave the table, and their deployments join the end of the pool. |
| `SchedulerHeap.Scheduler.ClearAll` | proxy/server/scheduler.go:122-126 | The table is empty and the pool has all n deployments. |
| `SchedulerHeap.DoubleAllocation` | proxy/server/scheduler.go:43-111 | From any consistent scheduler with two spare deployments, those four calls end with a deployment both in the pool and in the table. |
| `Timeout.DueIsLeast` | lambda/lifetime/timeout.go:220-231 | Due plus the tick error is the least multiple of a tick that is not before now + ext. |
| `Timeout.DurationBounds` | lambda/lifetime/timeout.go:220-231 | ext - TICK_ERROR <= timeout < ext + TICK - TICK_ERROR, and never in the past for ext >= TICK_ERROR. |
| `Timeout.DueMonotone` | lambda/lifetime/timeout.go:220-231 | A later request or a longer extension is never due earlier, for two extensions that are both negative or both not. |
| `Timeout.DueAcrossSignsIff` | lambda/lifetime/timeout.go:221-225 | An extension that is not negative is never due earlier than a negative one if and only if it is at least a millisecond and the tick error. |
| `Timeout.ZeroBeforeNegative` | lambda/lifetime/timeout.go:221-225 | A second into the session, no extension is due before a negative one. |
| `Timeout.StepCore` | lambda/lifetime/timeout.go:98-218 | Every step of the loop, the handlers, the timer and the clock keeps the core of the invariant, in any interleaving. |
| `Timeout.StepAwaitedIff` | lambda/lifetime/timeout.go:98-218 | A step loses the wake-up of an enabled session if and only if it stops the timer that the session depends on. |
| `Timeout.LostStays` | lambda/lifetime/timeout.go:168-205 | After that, timer and loop have no step left, until the session is reset, disabled, restarted or done. |
| `Timeout.RunCore` | lambda/lifetime/timeout.go:56-218 | The core of the invariant holds in every state of every run. |
| `Timeout.RunAwaitedIff` | lambda/lifetime/timeout.go:98-218 | In any run a wake-up is under way in every state if and only if every stop of the timer was harmless. |
| `Timeout.NoLostWakeUp` | lambda/lifetime/timeout.go:98-218 | While a session is enabled, not done and not timed out, a wake-up is under way, in every run in which the timer is only stopped while disabled. |
| `Timeout.OneSignal` | lambda/lifetime/timeout.go:180-202 | In every run there is at most one signal, and its channel has room for it. |
| `Timeout.HaltOvertaken` | lambda/lifetime/timeout.go:98-110 | For every extension there is a run in which a restart overtakes a halt, and the session is left enabled with an idle timer and an empty mailbox. |
| `Timeout.ResetOvertaken` | lambda/lifetime/timeout.go:128-131 | A reset that is overtaken by another one between its two parts is granted the extension of the other. |
| `Timeout.TimeoutIsFinal` | lambda/lifetime/timeout.go:112-131 | After the signal no reset is granted and the timer is never armed again. |
| `Timeout.NotBeforePromise` | lambda/lifetime/timeout.go:188-202 | The session times out only when idle, enabled, with no reset unread, and not before the latest promised due time. |
| `Timeout.GrantedPromise` | lambda/lifetime/timeout.go:112-131 | A granted reset promises the extension noted last, up to the tick error and a tick, or a millisecond if it is negative; one that is not granted changes nothing. |
| `Timeout.InitPromise` | lambda/lifetime/timeout.go:56-69 | A new timeout is armed and due after its first extension. |
| `Timeout.DecideEffect` | lambda/lifetime/timeout.go:188-202 | The decision on a tick: the one signal if the session is idle, enabled, due and not being reset; a reset by the last extension if it is busy or not due; nothing otherwise. |
| `Timeout.TimesOutIff` | lambda/lifetime/timeout.go:188-202 | In every run the session times out exactly when the loop decides on a tick of such a session. |
| `Timeout.ResetArms` | lambda/lifetime/timeout.go:173-179 | Taking an extension from the mailbox arms the timer, and the session is due after it, up to a tick. |
| `Timeout.RunCounts` | lambda/lifetime/timeout.go:137-166 | In every run the busy count is the number of requests begun less those ended, and the disabled flag is what was last asked for. |
| `Timeout.SessionTimeout.constructor` | lambda/lifetime/timeout.go:56-69 | A new timeout is the initial state of a run. |
| `Timeout.SessionTimeout.ResetLocked` | lambda/lifetime/timeout.go:207-218 | The latest extension is in the mailbox, an unread one is replaced. |
| `Timeout.SessionTimeout.Reset` | lambda/lifetime/timeout.go:112-126 | Grants the reset exactly when enabled, not done and not timed out, and changes nothing otherwise. |
| `Timeout.SessionTimeout.ResetWithExtension` | lambda/lifetime/timeout.go:128-131 | Notes the extension, then resets; granted exactly when enabled, not done and not timed out. |
| `Timeout.SessionTimeout.Halt` | lambda/lifetime/timeout.go:98-103 | Disables, then stops the timer. |
| `Timeout.SessionTimeout.Restart` | lambda/lifetime/timeout.go:105-110 | Enables, then resets; keeps the invariant. |
| `Timeout.SessionTimeout.OnReset` | lambda/lifetime/timeout.go:173-179 | The mailbox is emptied and the timer armed anew. |
| `Timeout.SessionTimeout.OnTick` | lambda/lifetime/timeout.go:180-186 | The tick is taken and the signal channel emptied. |
| `Timeout.SessionTimeout.Decide` | lambda/lifetime/timeout.go:188-202 | Signals exactly if the session expires, and resets or passes otherwise; the channel always has room for the signal. |
| `Replies.Match` | proxy/types/request.go:94-98 | The first waiting request with the reply's command, request id and chunk id. |
| `Replies.ReplyEffect` | proxy/lambdastore/connection.go:178-197 | A reply to a queue of any length, on values as `Connection.SetResponse` does it on objects: data to the first match, a missing response to those ahead, nothing to those behind. |
| `Replies.ReplyGives` | proxy/lambdastore/connection.go:178-197 | The waiting, unanswered request that a reply is for gets its data. |
| `Replies.ErrorEffect` | proxy/lambdastore/connection.go:199-208 | An error goes to the oldest waiting request. |
| `Replies.CloseEffect` | proxy/lambdastore/connection.go:72-80 | A close empties the queue and answers everyone in it. |
| `Replies.SendEffect` | proxy/lambdastore/instance.go:431-443 | A request that is put on a connection waits there; if sending fails it leaves the queue for another attempt, and gets the error if it is given up. |
| `Replies.StartEffect` | proxy/lambdastore/instance.go:167-202 | New requests have no answer, new connections nobody waiting, and a request that was sent waits on. |
| `Replies.TakenAreAnswered` | proxy/lambdastore/connection.go:178-220 | A request that a reply, an error reply or a close takes from a queue has been answered. |
| `Replies.StepDrains` | proxy/lambdastore/connection.go:178-220 | Those steps touch one queue only, keep given answers, give data to matching requests alone, and a close empties the queue. |
| `Replies.StepInv` | proxy/lambdastore/instance.go:167-202 | Every step, retries and concurrent closes included, keeps the invariant. |
| `Replies.RunInv` | proxy/lambdastore/instance.go:167-202 | In every run data reached matching requests only, closed connections on which nothing is being sent are drained, and every request is answered, waiting on an open connection, being sent or about to be retried. |
| `Replies.AnsweredOnce` | proxy/types/request.go:100-112 | Across replies, errors, closes and retries on other connections, the first answer stands. |
| `Replies.Request.SetResponse` | proxy/types/request.go:100-112 | Answers once, and sends to the client's channel once. |
| `Replies.Connection.PassOver` | proxy/lambdastore/connection.go:183-196 | Requests ahead of the match leave the queue with a missing-response answer. |
| `Replies.Connection.SetResponse` | proxy/lambdastore/connection.go:178-197 | The first match gets the data, those ahead of it are passed over, those behind it are untouched. |
| `Replies.Connection.SetErrorResponse` | proxy/lambdastore/connection.go:199-208 | The oldest request gets the error. |
| `Replies.Connection.ClearResponses` | proxy/lambdastore/connection.go:210-220 | The queue is empty and every request in it answered. |
| `Replies.HandleRequest` | proxy/lambdastore/instance.go:431-443 | The request waits on the connection if it was sent, is taken from its queue if not, and nothing changes while the queue is occupied. |
| `Replies.SecondAttempt` | proxy/lambdastore/instance.go:173-191 | A retriable request whose first sending fails goes to the second connection. |
| `Replies.Serve` | proxy/lambdastore/instance.go:167-200 | The retry loop: the request waits on the first connection that takes it and nowhere else, gets the error after the last attempt, or is held up at the first occupied queue. |
| `Shards.PerShardLeast` | client/ec.go:66 | The shard size is the least with which all shards together hold the data. |
| `Shards.Split` | client/ec.go:61-81 | Shard i is its window of the data; the first that is not full is the last one set; empty input is an error. |
| `Shards.SplitHolds` | client/ec.go:61-81 | The shards hold the data, byte by byte and in order. |
| `Shards.SplitTrails` | client/ec.go:69-78 | Only trailing shards are nil, and never the first. |
| `Shards.Check` | client/ec.go:90-106 | Passes if and only if a run of leading shards holds enough bytes; tells nil shards from short data. |
| `Shards.Copy` | client/ec.go:108-120 | Writes exactly the first outSize bytes. |
| `Shards.Join` | client/ec.go:83-121 | Each outcome with its exact condition, and the exact prefix on success. |
| `Shards.TrailingNilsReadyIff` | client/ec.go:83-121 | With trailing nil shards only, exactly the sizes up to the total can be read, if the first shard is there. |
| `Shards.RoundTrip` | client/ec.go:61-121 | Splitting and joining returns every prefix of the data and fails beyond its end. |
| `Shards.Verify` | client/ec.go:34-45 | Accepts exactly the right number of shards, none of them empty. |
| `Shards.SplitVerifiesIff` | client/ec.go:34-45 | Split's output is accepted if and only if (d-1)*ceil(n/d) < n. |
| `Shards.SplitRejected` | client/ec.go:34-45 | Five bytes in four shards are not accepted. |

## Left out

Not modelled:

- Reed-Solomon coding, consistent hashing, the hash maps, and the RESP reader and writer. Plain maps stand for the meta store and the active table, and clearing iterates over a snapshot.
- Lambda invocation, S3, TCP, deadlines and the byte forwarder of migrations.
- The wake-up and validation handshake of instances.
- Reuse of commands, metas and placements through `sync.Pool`, and `postProcess` with its `sync.Once` (proxy/server/placer.go:36-47). The model tells whether an eviction took place.
- Access times, and so the order in which `Keys` lists a store. Every listing order is covered.
- Logging, collection of statistics and dumping.

Assumptions:

- Locked regions and select cases are atomic. The write of `hasReset` at lambda/lifetime/timeout.go:179 is outside the lock and is taken together with its case. The write of `lastExtension` at line 129 is a step of its own.
- All objects of a placer have the same number of chunks, because a swap map is indexed with the requester's chunk ids. Lambda ids, sizes and chunk numbers are not negative.
- A forwarded command is applied and acknowledged, or not applied. Each command has a record of its own.
- `math.Ceil` on a quotient of floating-point numbers is exact integer rounding.
- A flush on a connection that is already closed fails. An instance that is closed for good ends `HandleRequests` with its request unanswered (proxy/lambdastore/instance.go:183-186); in the model that request stays between two attempts.
- Stored bodies are not nil slices, which the store would take for tombstones.
- Writers passed to `Join` accept what they are given, and `outSize` is not negative.

Contracts that say less than the code:

- PlacerHeap.Placer.GetOrInsert: one call, without another object's eviction between its two locked parts; runs in `PlacerRun` have those interleavings.
- PlacerHeap.Placer.FindVictim: requires that a complete object other than the requester is listed, because the loop does not end otherwise.
- PlacerHeap.Meta.constructor: the placer metadata is a value inside its object, because only its object refers to it.
- SchedulerHeap.Scheduler.Recycle: the deployment is one of this scheduler's, and blocking on a full channel, possible only after calls that are not orderly, is not modelled.
- Timeout.SessionTimeout.ResetWithExtension: one call without another reset between its parts; runs in `Timeout` have those interleavings.
- Replies.Serve: covers the loop without interference; replies, closes and other requests between its attempts are steps of `Replies.Step`.
- Listing.List: the store does not change while its keys are listed.
- MigrationHeap.StorageAdapter.Set: a set whose stream breaks off is not acknowledged.
