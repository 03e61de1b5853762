# A verified model of Attemory's session and KV cache state

Attemory keeps an append-only list of memories per session, cuts it into segments that fit a model
context, computes a KV state for every segment, and keeps that state in memory and on disk. Four
things have to agree at all times: the facts of a session (its system text, memories and manual
boundaries), its segment plan, the KV states that are cached in memory, and the files. This project
models the code that keeps them in agreement and proves that it does, or exactly when it does.

The C++ objects that change in place (the resident store, the KV manager, the session manager, the
sessions, the files, the streams) are classes with `modifies` clauses; what is pure in the source is a
function. Every method is proved against a specification function or a predicate on old and new
state, and the laws are lemmas about those. The tokeniser and the engine are not part of this model:
they are records of arbitrary functions (`Core`, `Engine`) that may fail, so nothing below depends on
what they answer unless a lemma names the hypothesis. The engine is a parameter of every command: what
fails in one command may work in the next. Files, crashes and failing file operations are parameters,
too.

## How the modules follow the program

| modules | what they model |
|---|---|
| `Basics`, `Persistent`, `SessionState` | the stored facts, the segment plan, the entries of a session |
| `SegmentPlanner`, `PlanShape`, `PlanQuality` | the batch planner: shape, minimality, exactness |
| `IncrementalPlan`, `PlanRefinement`, `PlanInvariant`, `PlanOrder` | planning one memory at a time, why it gives the batch plan, and what every plan keeps |
| `BinaryIO`, `SessionFiles`, `SessionSaving`, `Durability` | file formats, the two-file save with its crash points, dirty facts |
| `ContentHash`, `CacheManifest`, `PlanRestore`, `SessionPlans` | the hash, the manifest, and restoring a plan from it |
| `SegmentKV`, `ResidentStore`, `Coherence`, `KVManager`, `MemoryRoom` | shared handles, the LRU store, the cache protocol, room in memory |
| `SessionCommands`, `IndexCommands`, `SearchCommands`, `OneshotSearch`, `SessionStatus` | the commands as steps of one machine |
| `SavedSegments`, `Steps`, `Names` | what each command keeps and does, by the session's own name and under any name |
| `Runs`, `Restarts`, `Pitfalls` | what whole runs of commands keep, what outlives a restart, and two runs that end badly |
| `SearchResults`, `CodeChunks`, `StorageNames` | ranked merge and limit, code chunks and line ranges, directory names |

## Main results

1. **All runs.** After any sequence of commands on any sessions, whichever file operations fail and
   whatever the engine does in each command, every cached KV state carries exactly the system text and
   memory texts its segment has now (a staged prefix: a proper part of them), and every entry carries the
   hash of its segment. This holds up to the first command that would make a second session known that
   has the same directory as one that is known (`Names.Clashes`), which is where it ends
   (`Pitfalls.Twins`). The trace of the run has the effect of every step (`Steps.Effect`), and every
   session that was not loaded from its directory is planned in order (`Runs.Run`).
2. **Facts are durable.** For every session whose inputs stayed within the limits of the readers
   (`Steps.StepsFit`, a condition on the commands alone, which `Steps.SmallRunsFit` gives for small runs)
   the directory loads as the present facts or, while they are dirty, as an earlier state; if no save of
   the session failed (`Steps.StepsClean`) that state lacks at most memories of the last segment; and at
   every moment since the session became known, also within a command, the directory loads as an
   earlier state (`Runs.FactsAreDurable`).
   A crash and a restore bring exactly that back (`Runs.CrashAndRestore`).
3. **Indexed stays indexed.** A segment that counts as saved, with a file that loads for what it holds,
   stays so, in the same file, through any run that neither deletes its session, nor ends the process,
   nor adds a memory to that segment (`Runs.Continue`, `Runs.IndexAndContinue`). After an index, a
   restart and a restore, a search finds the plan that was indexed, with the counts and in the files of
   the index, and nothing fails when everything works and no count is above the context length
   (`Restarts.IndexRestartAndSearch`).
4. **Incremental planning refines batch planning**, after any accepted and refused commands
   (`PlanRefinement.IncrementalRefinesBatch`), and so for every session that a run creates, until it is
   indexed (`Runs.CreatedSessionIsRebuilt`).
5. **The greedy plan is a shortest legal split**, and the cheap estimate makes the cuts of an exact
   planner within the safety margin (`PlanQuality`).
6. **One live context, with room.** Inside a search command the activated context is the only live one
   that anything can reach, holds exactly its segment, and has room for all tokens of the segment and of
   the query; every ranking of a search is logged with the state of the cache in which it was made
   (`KVManager`, `SearchCommands`).
7. **Crash-consistent saving** and exact round trips of all three formats, in both directions: what is
   written reads back exactly within the limits, and what is read was written so, with every number and
   field in its place, but for the bytes that stand for true (`SessionSaving`, `SessionFiles`, `CacheManifest`).
8. **Eviction** keeps the byte count, ends, never drops its own entry, and is determined by the time
   stamps, which are distinct until the clock starts again (`ResidentStore`).
9. **Search** returns, for arbitrary rankings, the first distinct hits of every segment in order
   (`SearchResults`, `SearchCommands`). Every command has its conditions of success: with a working engine
   and room, an index, a save, and a search of what is in memory or on disk do not fail, and a oneshot
   search succeeds exactly when its plan, its query and its segments can be made (`IndexCommands`,
   `SearchCommands`, `OneshotSearch`).
10. **The hash tells contents apart** wherever one byte of one text is changed: a step is injective in the
   byte and in the state (`ContentHash.SegmentHashTellsApart`).

## Where the program does less than one might expect

Where the code decides, these are exact conditions; otherwise a concrete input or what still holds.

- A rebuild can fail for a store that add-memory accepted: it also counts the empty context and every
  text. It succeeds, and equals the incremental plan, if and only if those can be counted
  (`PlanRefinement.RebuildCanFailWhereAppendSucceeds`, `IncrementalRefinesBatch`).
- The writers do not check the limits that the readers enforce. A saved session or manifest loads back
  if and only if it is within them (`SessionFiles.SavedSessionLoadsBack`,
  `CacheManifest.ManifestReadsBack`).
- The manifest of a finished index is accepted after a restart if and only if no segment has a gap in
  its memory numbers and every recorded count is within the context length. This holds for every plan
  that cuts the store in order (`IndexCommands.IndexSurvivesRestart`). Created sessions have such plans in
  every run (`Runs.Run`), and so have sessions that are planned anew over memories in the order of their
  numbers, by a rebuild that completes or from their own manifest (`PlanOrder.PlannedAnewInOrder`).
- Indexing a segment that grew leaves the old file registered under the new hash. The file is fresh
  afterwards if and only if this turn wrote it or it was fresh before, and it is not written when an
  older file exists for a segment that was not resident (`IndexCommands.MakeSaved`). Growing a segment
  whose file is there always leads there (`Pitfalls.GrowThenIndex`; `Pitfalls.StaleFile` is a run of five
  commands). Such a file is never loaded for the wrong content: loading compares contents. Its entry then
  has a count of the new content with the size it had before.
- create-session refuses a valid name with an underscore at either end, with an internal error, since
  the directory name differs. Sessions it does create never share a directory, although valid names
  alone can (`StorageNames`). restore-session does not refuse such a name and loads a session of
  another name. Nothing goes wrong as long as no two known sessions have the same own name
  (`Names.ExecuteAs`, `Runs.Run`); after "a" and "_a" no cached state can be right for both
  (`Pitfalls.Twins`). A session that is known by another name than its own cannot be deleted: its
  directory goes, but it stays known (`Names.DeletedStaysKnown`).
- A rebuild that stops early leaves a partial plan that later commands take as ready. It is still
  numbered, disjoint and made of stored memories (`PlanInvariant.RebuiltPlanOk`), but covers only a
  beginning of the store.
- Indexing a session without kv_persist can be undone by the budget before it ends; the command then
  reports an error (`IndexCommands.IndexInMemory`).

## Model

| member | source | states |
|---|---|---|
| `Runs.Run` | src/context/session/session_manager.cpp:413-720 | after any sequence of commands on any sessions, under any names, with any file operation failing and the engine of each command failing where it likes, up to the first command that would make a second session of one own name known: resident segments carry exactly their system text and memories, staged prefixes a proper part of them, the active context those of its segment, and initialised entries the hash of the content; what a session stored within the limits is on disk; every session that was not loaded from its directory is planned in order; and each step had its effect on the sessions |
| `Names.ExecuteAs` | src/context/command/command_scope.cpp:64-85 | a command under any name: it comes to the session that is known so, or to none; it keeps the invariant, the saved segments it does not touch, the order of the plans, and, within the limits and with working saves, the durability of every session; and it has its effect |
| `Names.OwnIsOwn` | src/context/storage/storage_layout.cpp:26-36 | the name of a session's directory leads to that directory; it is the given name exactly when that has no underscore at its ends |
| `Names.OnItsOwnName` | src/context/session/session_manager.cpp:652-676 | a command under another name is the same command on the directory of that name, but for a delete, which does not take the session out of the known ones |
| `Names.RestoredIsKnown` | src/context/session/session_manager.cpp:459-511 | a restore of a directory that loads makes a session known under the name of the request, unless that would be a clash |
| `Names.KnownHasEffect` | src/context/command/command_scope.cpp:64-85 | a command under a name that is known has its effect |
| `Names.StillNamed` | src/context/storage/storage_layout.cpp:26-47 | a command leaves every known session known under a valid name that leads to its own directory, which no other known session has |
| `Names.FindClash` | src/context/session/session_manager.cpp:459-511 | the check for a clash: a create or restore that would succeed under a name whose own name a session has that is known by another |
| `Names.DeletedStaysKnown` | src/context/session/session_manager.cpp:652-676 | a session that is known by another name than its own stays known, with its plan, when it is deleted |
| `Steps.Execute` | src/context/session/session_manager.cpp:413-720 | each command keeps the invariant, the saved segments it does not touch, the order of the plans, and, when it stays within the limits and its saves work, the durability of every session; what it does is stated command by command: create and restore make a session known exactly on their conditions, add-memory, next-segment and add-system give the plan of the next planning command or, when hindered, the old one, delete removes, index and save change token counts at most, and no other session changes |
| `Runs.Continue` | src/context/session/session_status.cpp:56-109 | indexed stays indexed: in any run of commands a segment that counts as saved, and whose file loads for what it holds, still does in the end, in the same file, unless its session was deleted, the process ended, or a memory may have gone to it; plans stay in order, sessions within the limits stay storable, and the trace of the run has the effect of every step |
| `Runs.CreatedSessionIsRebuilt` | src/context/session/session_manager.cpp:140-291 | a session that a run creates has, as long as it is not indexed, saved or deleted and the process lives, the plan that its accepted commands give one by one, all of them when exports work; and a rebuild of its store, when it can count at all, gives that very plan |
| `Runs.OneMoreOrdered` | src/context/session/session_manager.cpp:234-290 | one more command leaves every plan in order that was, and creates sessions that are planned in order |
| `Steps.SmallRunsFit` | src/persistent/session_persistence.cpp:148-236 | a run whose names, texts and growth are within the record limits meets the condition for durability: where a session is created there is room for all that is added later |
| `PlanOrder.PlannedAnewInOrder` | src/context/session/segment_planner.cpp:123-378 | a session whose memories are in the order of their numbers is planned in order, by a rebuild that completes or from its own manifest |
| `PlanOrder.PlansToInOrder` | src/context/kv/segment_kv_cache_commands.cpp:149-255 | so it is after the index or save that planned it |
| `Restarts.RestartAndSearch` | src/context/search/search_service.cpp:89-157 | after an index or save the process ends, the session is restored and searched: it has the plan that was indexed, with the token counts of its entries, each segment is ranked on a context with its content, the results are those of that plan, and nothing fails while the engine works |
| `Restarts.IndexLeavesBehind` | src/context/kv/segment_kv_cache_commands.cpp:149-255 | a finished index or save over no stale file, of a plan in order without gaps, whose entries have counts within the context, leaves all that a search after a restart needs, with those counts in the manifest |
| `Restarts.LeftBehindIsSearchable` | src/context/kv/segment_kv_metadata.cpp:30-75 | however the restored session is planned, it gets the segments that were indexed, all saved in files that load for their content |
| `Restarts.PlannedAsIndexed` | src/context/session/segment_planner.cpp:238-378 | planning from what was left behind succeeds and gives the runs that were indexed, with the token counts of their entries |
| `Restarts.FoundAgain` | src/context/kv/segment_kv_metadata.cpp:30-75 | every entry of the restored session has the token count and the file size that it had when it was indexed, and counts as saved |
| `Restarts.IndexRestartAndSearch` | src/context/kv/segment_kv_cache_commands.cpp:149-255 | index, end of the process, restore and search in one: with no count of the engine, of the files or in memory above the context before the index, the search finds in the plan that was indexed, and nothing fails when everything works |
| `Runs.IndexAndContinue` | src/context/kv/segment_kv_cache_commands.cpp:227-292 | an index of a planned session with kv_persist succeeds when its file operations do, the engine works and there was room beforehand; once it succeeded, over no file that is stale for the plan it had or gets, all segments of that plan stay saved with their contents through any run that spares them; and that plan is in order if the old one was, or the memories of the unplanned session were |
| `Runs.OneMoreCommand` | src/context/session/session_status.cpp:56-109 | one more command keeps what a run so far has kept |
| `SavedSegments.CommandKeeps` | src/context/kv/segment_kv_cache_commands.cpp:149-255 | a command that keeps the contents and the loadable files of its own session, and the files of the others, keeps every saved segment saved |
| `SavedSegments.LoadableIsKept` | src/context/search/search_runner.cpp:42-52 | index, save and search leave every saved segment, with a file that loads, saved with that very file |
| `SavedSegments.AppendedContents` | src/context/session/session_manager.cpp:234-290 | adding a memory changes the content of the last segment at most |
| `SavedSegments.SameSessionsKeep` | src/context/session/session_manager.cpp:652-676 | creating, restoring and deleting sessions leave the saved segments of other sessions saved |
| `SavedSegments.IndexedIsSaved` | src/context/kv/segment_kv_cache_commands.cpp:227-255 | what a finished index leaves, over no stale file, counts as saved and loads |
| `SavedSegments.StaySavedOn` | src/context/session/session_status.cpp:56-109 | a command may run on an engine of its own, as long as that loads what the first one loads |
| `SavedSegments.AddAndKeep` | src/context/session/session_manager.cpp:559-606 | add-memory un-saves at most the segment it opens or extends |
| `SavedSegments.IndexAndKeep` | src/context/kv/segment_kv_cache_commands.cpp:227-292 | re-indexing un-saves nothing that loads, in any session |
| `SavedSegments.SearchAndKeep` | src/context/search/search_runner.cpp:67-185 | searching, with its evictions and releases, un-saves nothing that loads |
| `SavedSegments.ClearAndKeep` | src/context/session/session_manager.cpp:640-650 | clearing un-saves nothing |
| `Runs.InvMeans` | src/context/kv/segment_kv_manager.cpp:247-261 | the invariant in plain terms: caches and hashes agree with the facts the sessions hold now, and no segment is both resident and staged |
| `Runs.FactsAreDurable` | src/context/command/command_scope.cpp:13-40 | whatever of a session stayed within the limits through the run loads from its directory as an earlier state, as the present facts unless they are dirty, and lacks at most memories of the last segment when no save of it failed; and whatever the directory held at any moment since the session became known, also between the file operations of a command, loads as an earlier state |
| `Runs.CrashAndRestore` | src/context/session/session_manager.cpp:459-511 | after a crash at any moment of a run, and a restore from the directory as it was then, the session is back in an earlier state; from the directory as the last command left it, in its present state unless dirty, and otherwise without memories of the last segment at most |
| `Durability.PastOfSave` | src/persistent/session_persistence.cpp:287-330 | a save that passes only through states that load as the old facts or as the new ones keeps everything the directory ever held an earlier state |
| `Runs.OneMoreStanding` | src/context/command/command_scope.cpp:13-40 | one more command, within the limits and with working saves, keeps every session storable and saved |
| `SessionCommands.SessionManager.Restart` | src/context/session/session_manager.cpp:459-511 | the end of the process leaves nothing but the files |
| `SegmentPlanner.RebuildSegmentPlanFast` | src/context/session/segment_planner.cpp:123-236 | the loop computes the plan that the specification function gives, keeps the partial plan on failure, and changes nothing of the facts but cached estimates |
| `SegmentPlanner.PlaceMemory` | src/context/session/segment_planner.cpp:167-230 | one memory is placed as specified: refused, appended by cheap or exact count, or opens a segment |
| `SegmentPlanner.SoftLimitIsTheLargest` | src/context/session/segment_planner.cpp:36-45 | the soft limit is the largest count within 85 percent of the context, and at least one |
| `SegmentPlanner.RefreshTextEstimate` | src/context/session/segment_planner.cpp:161-166 | fills in a cached estimate when it is missing or has to be refreshed, and nothing else |
| `SegmentPlanner.PlaceIgnoresEstimates` | src/context/session/segment_planner.cpp:156-233 | the plan does not depend on the cached per-memory estimates that the loop fills in on the way |
| `PlanShape.CompletedPlanHasShape` | src/context/session/segment_planner.cpp:123-236 | a completed rebuild covers the store in order with at most 100 non-empty numbered segments within the limits, which start only at the first memory, at honoured boundaries or where the exact count overflowed |
| `PlanShape.StepsHaveShape` | src/context/session/segment_planner.cpp:156-233 | the same of the memories reached when planning stops early, with the reason for every stop at the segment limit |
| `PlanQuality.GreedyIsMinimal` | src/context/session/segment_planner.cpp:156-233 | with a monotone tokeniser no legal split has fewer segments, and the segment limit is reported only when every legal split needs more than 100 |
| `PlanQuality.FastPlannerIsExact` | src/context/session/segment_planner.cpp:94-106 | within the safety margin the cheap estimate makes the same cuts, flags and errors as recounting exactly at every memory, and bounds every exact count from above, saturation included |
| `PlanQuality.PlanIsLegal` | src/context/session/segment_planner.cpp:156-233 | a completed plan is itself a legal split of the store |
| `PlanQuality.GreedyIsAShortestSplit` | src/context/session/segment_planner.cpp:156-233 | a completed plan is a legal split and as short as any |
| `IncrementalPlan.AppendMemoryAndUpdatePlan` | src/context/session/session_manager.cpp:140-291 | an accepted memory is numbered, stored and placed as decided and its segment marked missing under its new hash; a refused one changes nothing |
| `IncrementalPlan.DecidePlace` | src/context/session/session_manager.cpp:156-231 | the decision of where a memory goes, with every refusal |
| `PlanRefinement.IncrementalRefinesBatch` | src/context/session/session_manager.cpp:140-291 | after any accepted and refused commands on a fresh session a rebuild of the final store succeeds exactly when the empty context and all texts can be counted, and then gives the plan grown one memory at a time |
| `PlanRefinement.RebuildCanFailWhereAppendSucceeds` | src/context/session/segment_planner.cpp:148-152 | a session of one memory whose rebuild fails although the memory was accepted |
| `PlanRefinement.StepsLookBack` | src/context/session/segment_planner.cpp:156-233 | a rebuild of a longer store starts like the rebuild of its beginning, as boundaries recorded later lie ahead |
| `PlanInvariant.RebuiltPlanOk` | src/context/session/segment_planner.cpp:123-236 | even a rebuild that stops early leaves numbered, non-empty, disjoint segments of stored memories |
| `PlanInvariant.RestoredPlanOk` | src/context/session/segment_planner.cpp:238-378 | so does a restored plan |
| `PlanInvariant.GrownPlanOk` | src/context/session/session_manager.cpp:234-290 | so does adding a memory |
| `PlanInvariant.DecideUpToEstimates` | src/context/session/session_manager.cpp:156-231 | where a memory goes does not depend on the cached estimates |
| `PlanInvariant.GrownContents` | src/context/session/session_manager.cpp:234-290 | adding a memory leaves the content and hash of every other segment as they were; the one it goes to holds what it held, then the new text |
| `PlanInvariant.GrownHashesOk` | src/context/session/session_manager.cpp:234-290 | every entry still carries the hash of its segment after a memory was added |
| `PlanRestore.RestoreSegmentPlan` | src/context/session/segment_planner.cpp:238-378 | a manifest is accepted exactly when its model, session, ranges, hashes, counts and coverage all fit, and gives the plan its sorted records describe |
| `PlanRestore.RestoreSegment` | src/context/session/segment_planner.cpp:308-353 | the walk over one record: it fails only if the records do not fit the store |
| `PlanRestore.SortsRecords` | src/context/session/segment_planner.cpp:276-283 | the records are walked in the order of their numbers, none lost and none twice |
| `PlanRestore.RestoredPlanIsAPartition` | src/context/session/segment_planner.cpp:299-378 | an accepted manifest yields contiguous runs that hold every stored memory exactly once, each with the recorded hash and within the context |
| `PlanRestore.OwnManifestIsAccepted` | src/context/session/segment_planner.cpp:238-378 | the manifest written for any plan that cuts the store in order is accepted exactly when no segment has a gap in its numbers and every count fits the context |
| `PlanRestore.OwnManifestRestoresThePlan` | src/context/session/segment_planner.cpp:308-353 | and then restores the same numbers, memories and start flags |
| `PlanRestore.RebuildIsPartition` | src/context/session/segment_planner.cpp:156-233 | a rebuild cuts what it reaches into consecutive runs with the start flags that the boundaries call for; when it completes, the whole store |
| `PlanOrder.GrownInOrder` | src/context/session/session_manager.cpp:234-290 | adding a memory keeps a plan that cuts the whole store in order one |
| `PlanOrder.SealedInOrder` | src/context/session/session_manager.cpp:608-638 | so does recording a boundary |
| `PlanOrder.RestoredInOrder` | src/context/session/segment_planner.cpp:308-353 | so is a plan that its own manifest restores |
| `PlanInvariant.PartitionIsOk` | src/context/session/segment_planner.cpp:156-233 | such a plan is numbered, disjoint and made of stored memories |
| `IndexCommands.IndexSurvivesRestart` | src/context/kv/segment_kv_cache_commands.cpp:149-225 | the manifest of a finished index or save of such a plan is accepted after a restart under exactly that condition, and restores the indexed plan with the recorded counts |
| `IndexCommands.RestartFindsFiles` | src/context/kv/segment_kv_metadata.cpp:30-75 | after the restart exactly the segments whose files are there count as saved, with the counts and sizes that the manifest recorded |
| `SessionPlans.RefreshSessionKvMetadata` | src/context/kv/segment_kv_metadata.cpp:30-75 | every planned segment gets an initialised entry whose state follows from manifest, hash and file; other entries stay |
| `SessionPlans.IndexRecords` | src/context/kv/segment_kv_metadata.cpp:38-45 | the last record of each segment number counts, and none of a foreign manifest |
| `SessionPlans.PrepareSessionPlan` | src/context/session/segment_planner.cpp:380-452 | a ready plan is kept; otherwise it is restored or rebuilt, and on success every segment has a fresh entry |
| `SessionPlans.PlanSession` | src/context/session/segment_planner.cpp:380-425 | how a session without a plan gets one, and when that fails |
| `SessionPlans.PlannedAnewIsNewPlan` | src/context/session/segment_planner.cpp:380-425 | there is exactly one way to plan a session anew, and one reason why it may be incomplete |
| `Persistent.FindMemoryIsTheRecord` | src/persistent/persistent.h:94-111 | the positional shortcut never changes the answer of the lookup |
| `Persistent.ValidateLoadedStore` | src/persistent/session_persistence.cpp:238-264 | accepts exactly the valid stores: indices in range and distinct, boundaries not ahead of the next index, a valid name |
| `SessionState.CollectSegmentMemoryTexts` | src/context/session/session_state.h:60-73 | the texts of the members that are stored, in order |
| `SessionState.FindSegmentByNumber` | src/context/session/session_state.h:48-58 | in a numbered plan the lookup finds segment n at position n, and nothing elsewhere |
| `SessionState.SegmentTextsInPrefix` | src/context/session/session_state.h:60-73 | appending memories does not change the texts of existing segments |
| `BinaryIO.StringReadsBack` | src/persistent/binary_io.cpp:51-69 | a written string reads back and leaves the rest, unless it is longer than the reader accepts |
| `BinaryIO.I64VectorReadsBack` | src/persistent/binary_io.cpp:71-100 | the same of vectors |
| `BinaryIO.I64ReadsBack` | src/persistent/binary_io.cpp:13-35 | signed 64-bit values survive writing and reading |
| `BinaryIO.InputStream.ReadString` | src/persistent/binary_io.cpp:57-69 | the reader consumes exactly what the format says or fails |
| `BinaryIO.OutputStream.WriteI64Vector` | src/persistent/binary_io.cpp:71-82 | the writer appends the encoding |
| `SessionFiles.SavedSessionLoadsBack` | src/persistent/session_persistence.cpp:268-312 | a saved session loads back exactly when it is within the limits of the readers, which the writers do not check |
| `SessionFiles.LoadedIsReadable` | src/persistent/session_persistence.cpp:148-236 | whatever loads is within the limits of the readers and of the integer types, so it could be saved and would load again |
| `SessionFiles.EmptySessionLoadsBack` | src/persistent/session_persistence.cpp:199-206 | before there are memories the metadata file alone loads |
| `SessionFiles.VersionOneLoadsBack` | src/persistent/session_persistence.cpp:148-197 | a version 1 metadata file reads as the same store with kv_persist off |
| `SessionFiles.MemoriesReadBack` | src/persistent/session_persistence.cpp:199-236 | the first n records of a longer memories file read as the first n memories |
| `SessionFiles.MetadataIsWritten` | src/persistent/session_persistence.cpp:148-197 | the reader of metadata takes nothing but magic number, a known version and every field in its place, up to the byte that stands for true |
| `SessionFiles.MemoriesAreWritten` | src/persistent/session_persistence.cpp:199-236 | nor does the reader of memories |
| `SessionFiles.SmallMetadata` | src/persistent/session_persistence.cpp:61-104 | the metadata file of a small session, byte by byte |
| `SessionFiles.SmallTail` | src/persistent/session_persistence.cpp:61-104 | and its end |
| `SessionFiles.FreshMetadata` | src/persistent/session_persistence.cpp:61-104 | the metadata file of a new session, byte by byte |
| `SessionFiles.SmallMemories` | src/persistent/session_persistence.cpp:106-146 | and its memories file |
| `SessionSaving.LoadSession` | src/persistent/session_persistence.cpp:268-285 | the stream readers compute the format function, including every rejection |
| `SessionSaving.SessionDirectory.SaveSession` | src/persistent/session_persistence.cpp:287-312 | memories are written before metadata; every state the files pass through is one of three |
| `SessionSaving.SessionDirectory.SaveSessionMetadata` | src/persistent/session_persistence.cpp:314-330 | only the metadata file changes, at once |
| `SessionSaving.NewMemoriesOldMetadata` | src/persistent/session_persistence.cpp:287-312 | new memories under old metadata load as the old facts |
| `SessionSaving.SaveIsCrashConsistent` | src/persistent/session_persistence.cpp:287-312 | whenever the process dies during a save, what is on disk loads as the old facts or as the new store |
| `Durability.DurableSession.Persist` | src/context/command/command_scope.cpp:13-27 | facts are dirty afterwards exactly when the save failed; a crash meanwhile leaves the old or the new facts |
| `Durability.DurableSession.PersistIfDirty` | src/context/command/command_scope.cpp:29-40 | clean facts are not written again |
| `Durability.DurableSession.AppendMemory` | src/context/session/session_manager.cpp:559-595 | the files stay an older state with the same beginning; only memories of the last segment may be unsaved until a save is due |
| `Durability.DurableSession.SetSystem` | src/context/session/session_manager.cpp:525-529 | the new system text makes the facts dirty and drops the plan |
| `Durability.DurableSession.PersistMetadata` | src/context/session/session_manager.cpp:541-548 | before there are memories a crash leaves the old or the new facts |
| `Durability.DirectoryDuringSave` | src/persistent/session_persistence.cpp:287-312 | what a save leaves loads as the old or the new facts, and as the new ones if it succeeded |
| `Durability.AppendKeepsDurable` | src/context/session/session_manager.cpp:559-595 | adding a memory keeps the relation between files and facts |
| `Durability.NewMemoryStays` | src/context/session/session_manager.cpp:559-595 | a memory whose texts the readers take costs one place and nothing else of what can be stored |
| `Durability.FilledStays` | src/context/session/segment_planner.cpp:161-166 | filling in estimates leaves what can be stored as it is |
| `CacheManifest.ManifestReadsBack` | src/persistent/kv_cache_persistence.cpp:46-163 | a written manifest reads back exactly when it is within the limits of the reader |
| `CacheManifest.ManifestIsWritten` | src/persistent/kv_cache_persistence.cpp:46-99 | the reader takes nothing but what the writer writes, with magic number, version and every field in its place |
| `CacheManifest.SmallManifest` | src/persistent/kv_cache_persistence.cpp:101-163 | the manifest of a small session, field by field |
| `CacheManifest.SmallHead` | src/persistent/kv_cache_persistence.cpp:17-27 | the names in its head, byte by byte |
| `CacheManifest.SmallRecord` | src/persistent/kv_cache_persistence.cpp:101-163 | and its record |
| `CacheManifest.WriteManifest` | src/persistent/kv_cache_persistence.cpp:101-163 | the writer produces the encoding |
| `CacheManifest.ReadManifest` | src/persistent/kv_cache_persistence.cpp:46-99 | the reader computes the format function |
| `ContentHash.SegmentKvContentHash` | src/context/kv/segment_kv_metadata.cpp:79-106 | the accumulator loop computes the hash of the specified byte stream |
| `ContentHash.HashInputIsUnambiguous` | src/context/kv/segment_kv_metadata.cpp:79-100 | two segments of stored memories feed the same bytes exactly when system text, indices and texts are equal |
| `ContentHash.FnvTellsApart` | src/context/kv/segment_kv_metadata.cpp:79-87 | byte streams that differ in exactly one byte never have the same hash: a step is injective in the byte and in the state |
| `ContentHash.HexTellsApart` | src/context/kv/segment_kv_metadata.cpp:79-106 | nor the same printed hash |
| `ContentHash.SegmentHashTellsApart` | src/context/kv/segment_kv_metadata.cpp:79-106 | a segment with one byte of one of its texts changed, or of the system text, has another hash |
| `ContentHash.HashOfOneByte` | src/context/kv/segment_kv_metadata.cpp:80-87 | the hash of one byte as the published algorithm gives it with the seed of the program |
| `ContentHash.SomeHexDigits` | src/context/kv/segment_kv_metadata.cpp:101-104 | digits are printed most significant first and in lower case |
| `SegmentKV.HandleTable.EnsureSnapshot` | src/context/kv/resident_kv_store.cpp:90-108 | a live context is exported under its own metadata; without one the old snapshot must do |
| `SegmentKV.HandleTable.ReleaseToSnapshot` | src/context/kv/resident_kv_store.cpp:19-35 | a context is released only after it was exported |
| `ResidentStore.ResidentKVStore.Find` | src/context/kv/resident_kv_store.cpp:131-144 | finding an entry gives it a new time stamp, later than any other until the clock starts again |
| `ResidentStore.ResidentKVStore.Store` | src/context/kv/resident_kv_store.cpp:160-195 | the counter never wraps: an entry is refused exactly when it would; otherwise it is in as the one used last, stays in, and others are evicted to the budget |
| `ResidentStore.ResidentKVStore.Remove` | src/context/kv/resident_kv_store.cpp:197-213 | the entry goes and the byte counter follows |
| `ResidentStore.ResidentKVStore.ClearSession` | src/context/kv/resident_kv_store.cpp:215-225 | exactly the entries of the session go |
| `ResidentStore.ResidentKVStore.OldestUnprotected` | src/context/kv/resident_kv_store.cpp:334-352 | the candidate is an unprotected entry no younger than any other |
| `ResidentStore.ResidentKVStore.EvictToBudget` | src/context/kv/resident_kv_store.cpp:324-363 | eviction ends within a non-zero budget or with nothing left to select, removes only entries older than every unprotected survivor, and no more than needed |
| `ResidentStore.EvictionIsDetermined` | src/context/kv/resident_kv_store.cpp:324-363 | with distinct stamps and sizes below 2^64 these conditions determine what stays |
| `ResidentStore.OnlyOneWayToEvict` | src/context/kv/resident_kv_store.cpp:324-376 | in every store whose clock has not started again the stamps are distinct, so there is only one way to evict |
| `ResidentStore.NothingToEvict` | src/context/kv/resident_kv_store.cpp:324-363 | nothing is evicted where so many entries of such sizes are within the budget |
| `ResidentStore.ResidentKVStore.RefreshEntryBytes` | src/context/kv/resident_kv_store.cpp:365-369 | the recorded size becomes that of the snapshot, and the counter the sum |
| `ResidentStore.ResidentKVStore.Tick` | src/context/kv/resident_kv_store.cpp:371-376 | stamps increase by one and restart at 1 after the largest 64-bit value |
| `ResidentStore.ResidentKVStore.KeepOnlySessionLive` | src/context/kv/resident_kv_store.cpp:262-288 | other sessions' contexts are exported and released, sizes refreshed, then the budget enforced with the session protected |
| `ResidentStore.ResidentKVStore.KeepOnlySegmentLive` | src/context/kv/resident_kv_store.cpp:290-322 | the session's other contexts are exported and released, sizes refreshed, then the budget enforced with the segment protected |
| `ResidentStore.ResidentKVStore.ReleaseAllLiveContexts` | src/context/kv/resident_kv_store.cpp:237-260 | every live context is exported and released |
| `Coherence.ShrinkingKeepsCoherence` | src/context/kv/segment_kv_manager.cpp:216-275 | dropping, exporting or releasing cached states never makes the cache disagree with the sessions |
| `KVManager.SegmentKVManager.EvictActiveForCommand` | src/context/kv/segment_kv_manager.cpp:220-229 | a command of another session takes the active context away, create-session does not |
| `KVManager.SegmentKVManager.StageIncrementalPrefix` | src/context/kv/segment_kv_manager.cpp:247-261 | a resident segment becomes the staged prefix and stops being resident or active |
| `KVManager.StagingKeepsCoherence` | src/context/kv/segment_kv_manager.cpp:247-261 | what was the whole of a segment that grew is a proper prefix of it now |
| `KVManager.NewSegmentKeepsCoherence` | src/context/session/session_manager.cpp:234-265 | a segment nothing is cached for may be planned at any time |
| `KVManager.SegmentKVManager.KeepOnlySegmentLive` | src/context/kv/segment_kv_manager.cpp:787-806 | only the segment may stay live among its session's residents, all prefixes and the active slot; its own state is not touched |
| `KVManager.SegmentKVManager.TryPrepareIncremental` | src/context/kv/segment_kv_manager.cpp:530-642 | a staged prefix is consumed; if the engine works and there is room the segment becomes resident, live and active by appending exactly the missing memories, in a context with room for the whole segment or hydrated for it |
| `KVManager.SegmentKVManager.ContextWithRoom` | src/context/kv/segment_kv_manager.cpp:578-605 | the prefix's own context is kept when it is long enough for so many tokens, otherwise its snapshot is hydrated for them into a new one |
| `KVManager.SegmentKVManager.GrowContext` | src/context/kv/segment_kv_manager.cpp:607-624 | the memories beyond the prefix are appended and the result is exported |
| `KVManager.SegmentKVManager.PrepareResidentSegment` | src/context/kv/segment_kv_manager.cpp:197-214 | a segment is found, extended from its prefix, loaded from a file that loads, or built when allowed, in that order of preference between file and building; its entry records which, and in the store it is the one that was used last; it cannot fail while the engine works and there is room |
| `KVManager.SegmentKVManager.LoadOrBuild` | src/context/kv/segment_kv_manager.cpp:673-785 | a file that loads is taken, one that does not is marked missing, and only then is the segment built, if that is allowed; if it is not, only the file of a segment that counts as saved is read |
| `KVManager.SegmentKVManager.ActivateForSearch` | src/context/kv/segment_kv_manager.cpp:315-528 | inside a command of the session the activated context is the only live one that anything can reach, holds exactly the content of the segment, and has room for all tokens of the segment and the query together, or was hydrated for so many; its segment is the one that was used last |
| `KVManager.SegmentKVManager.ActivatePrepared` | src/context/kv/segment_kv_manager.cpp:346-528 | a context that is long enough is reused, otherwise the snapshot is hydrated for the tokens needed |
| `KVManager.SegmentKVManager.ReleaseAllLiveContexts` | src/context/kv/segment_kv_manager.cpp:267-271 | nothing reachable stays live |
| `KVManager.SegmentKVManager.RemoveResidentSegment` | src/context/kv/segment_kv_manager.cpp:242-245 | the segment is neither resident nor staged afterwards |
| `KVManager.SegmentKVManager.StoreResident` | src/context/kv/resident_kv_store.cpp:160-195 | a finished state becomes resident at the cost of others only; it is refused only for lack of room |
| `KVManager.SegmentKVManager.RankActive` | src/context/search/search_runner.cpp:140-151 | the ranking is that of the engine on the active context, and is logged with the state of the cache at that moment |
| `MemoryRoom.RoomyFits` | src/context/kv/resident_kv_store.cpp:160-195 | where nothing held is larger than a limit and so many more fit, the next segment is not refused |
| `MemoryRoom.SizedIsRoomy` | src/context/kv/resident_kv_store.cpp:160-195 | a step that keeps the sizes and brings one segment costs one place |
| `SessionCommands.SessionManager.EnterCommand` | src/context/command/command_scope.cpp:64-84 | entering a command puts other sessions' residents to sleep, keeps the session's own, and evicts none where the budget has room; with an engine that exports it fails only for unknown or invalid names, with the code for each |
| `SessionCommands.SessionManager.PreparePlan` | src/context/command/command_scope.cpp:143-160 | the plan is ready afterwards, the one the session had or the one it gets, and its segments' contents are what the cache may hold; it reports exactly whether the plan is complete |
| `SessionCommands.SessionManager.CreateSession` | src/context/session/session_manager.cpp:413-457 | succeeds exactly for a valid, unused name without underscores at its ends whose metadata can be written, with the error code for each refusal, and adds a fresh planned session |
| `SessionCommands.SessionManager.RestoreSession` | src/context/session/session_manager.cpp:459-511 | loads an unknown session unplanned and uncached, or says why not; the invariant holds afterwards if and only if nothing was loaded or the name has no underscore at its ends |
| `SessionCommands.SessionManager.AddSystem` | src/context/session/session_manager.cpp:513-557 | changes the system text, refused exactly when there are memories, and drops plan and caches of this session alone; succeeds when its one write does |
| `SessionCommands.SessionManager.AddMemory` | src/context/session/session_manager.cpp:559-606 | for the plan the session has, or the one it gets: an incomplete plan is an internal error, a refusal is answered with its reason, and a memory that opens a segment is saved at once; appends as planned, and un-indexes only the segment the memory opens or extends; other sessions keep what they have in memory where the budget has room |
| `SessionCommands.SessionManager.GrowSession` | src/context/session/session_manager.cpp:570-595 | the exact effect on plan, entries, resident segments, prefixes and active slot |
| `SessionCommands.SessionManager.NextSegment` | src/context/session/session_manager.cpp:608-638 | records one boundary and keeps every segment indexed; refused exactly when there is no segment to close, or its end is recorded already, or the plan cannot be completed; other sessions keep what they have in memory where the budget has room |
| `SessionCommands.SessionManager.ClearSession` | src/context/session/session_manager.cpp:640-650 | drops everything of this session in memory and demotes resident entries, of which only the state changes; what counted as saved still does and nothing else does; cannot fail with an engine that exports |
| `SessionCommands.SessionManager.DeleteSession` | src/context/session/session_manager.cpp:652-676 | with an engine that exports: drops all that is cached, removes the files that can be removed, and forgets the session exactly when its directory was removed; no file of another session is touched, nor what it has in memory where the budget has room |
| `SessionCommands.SessionManager.DropRuntimeState` | src/context/session/session_manager.cpp:65-68 | exactly the active, resident and staged states of the session go |
| `SessionCommands.MarkCleared` | src/context/session/session_manager.cpp:70-82 | a resident entry falls back to its file or to missing, and keeps its hash, count and size |
| `IndexCommands.IndexSession` | src/context/kv/segment_kv_cache_commands.cpp:227-292 | for the plan the session has, or the one it gets: an incomplete plan is an internal error and an empty one an invalid request; with kv_persist every segment is saved and the manifest describes the plan with the counts and sizes of its entries; without it every segment is resident; no loadable saved segment is lost and no file of a segment that was not resident is rewritten; with a working engine, working files and room beforehand it cannot fail, without kv_persist also given that the budget has room for all |
| `IndexCommands.SaveSession` | src/context/kv/segment_kv_cache_commands.cpp:294-325 | the same on disk for any session, which persists its cache from then on |
| `IndexCommands.PersistSegments` | src/context/kv/segment_kv_cache_commands.cpp:149-225 | saves all segments in order under a growing manifest, which records the token count and the file size of every entry; every file is fresh afterwards if none was stale before; the counts are those of the files or of what the engine made of the segment, and where all entries had the count and size of their files they all have; counts of newly saved segments become exact |
| `IndexCommands.CountsFit` | src/context/kv/segment_kv_cache_commands.cpp:31-48 | when no count of the engine, of the files or in memory is above the context, no count that is recorded is |
| `IndexCommands.MakeSaved` | src/context/kv/segment_kv_cache_commands.cpp:172-218 | afterwards the file holds the segment's present content if and only if the turn wrote it, which it does not when an older file exists under a segment that was not resident, or the file held that content before; an entry of a file that was written has its token count and size |
| `Pitfalls.GrowThenIndex` | src/context/kv/segment_kv_cache_commands.cpp:198-205 | adding a memory to a segment whose file is there and indexing again always leaves the old file, registered under the new hash: fresh before means stale after |
| `Pitfalls.StaleFile` | src/context/kv/segment_kv_cache_commands.cpp:198-205 | a concrete run of five commands, none of which fails, that ends with a stale file |
| `Pitfalls.Twins` | src/context/session/session_manager.cpp:459-511 | a concrete run that restores "a" and "_a": two sessions with the same segment keys, for which no cached state can be right once each has a memory of its own |
| `IndexCommands.PersistSnapshot` | src/context/kv/segment_kv_cache_commands.cpp:69-100 | the file holds exactly the present content, and its entry the token count and size of it; or it is removed |
| `IndexCommands.IndexInMemory` | src/context/kv/segment_kv_cache_commands.cpp:257-288 | brings every segment into memory, or reports that the budget evicted one; where the budget has room for all it cannot fail while the engine works |
| `SessionStatus.PopulatePlannedStatus` | src/context/session/session_status.cpp:56-109 | a planned session is reported as indexed, or as cached on disk, exactly when every segment is |
| `SearchCommands.Search` | src/context/search/search_service.cpp:89-157 | returns, segment by segment, the first top_k distinct hits; the log of the manager grew by exactly one ranking per segment, each on the only live context, which held exactly that segment and had room for it and the query; while the engine works and there was room beforehand it cannot fail for a session saved in loadable files, nor, where the budget has room for all, for one whose segments are each in memory or saved; a planned session is refused as an invalid request exactly when it has no segment or one that is not indexed, and one whose plan cannot be completed with an internal error |
| `SearchCommands.SearchSegments` | src/context/search/search_runner.cpp:67-185 | the loop over the segments, with its rankings logged in order; when streaming, no saved segment stays in memory, and otherwise the cache is left as the last ranking saw it |
| `SearchCommands.SearchSegment` | src/context/search/search_runner.cpp:90-182 | one turn: activate alone, with room for the segment and the query, rank in that very state, merge, and leave the cache in it but for a saved copy that is given up |
| `SearchCommands.ReleaseSegment` | src/context/search/search_runner.cpp:42-52 | the copy in memory goes, its entry becomes exactly what the file leaves of it, with hash, count and size as they were, and every segment counts as saved just as before |
| `SearchCommands.AllIndexed` | src/context/search/search_service.cpp:105-118 | the check before a search |
| `SearchResults.MergeSegmentRankedResults` | src/context/search/search_results.cpp:39-58 | the loop computes the specified merge |
| `SearchResults.ApplySearchResultLimits` | src/context/search/search_service.cpp:47-71 | the counter map computes the specified limit |
| `SearchResults.SearchReturnsContributions` | src/context/search/search_runner.cpp:90-182 | for arbitrary rankings over a partitioned plan the limited merge is the concatenation, in id order, of the first top_k distinct valid hits of each segment, all when top_k is zero |
| `SearchResults.SearchResultIsSound` | src/context/search/search_results.cpp:39-58 | no memory is returned twice, every reference lies in its segment and in the store, and segments appear in order |
| `SearchResults.SortsSegments` | src/context/search/search_runner.cpp:22-37 | segments are searched in the order of their numbers, none left out and none twice |
| `SearchResults.DistinctHitsAre` | src/context/search/search_results.cpp:20-58 | the distinct hits of a segment are exactly the valid ones, without repeats |
| `SearchResults.DistinctHitsAreNamed` | src/context/search/search_results.cpp:20-58 | a position gives a hit exactly when it is one of the segment and its memory is stored under a number of 32 bits |
| `SearchResults.RankedAreHits` | src/context/search/search_results.cpp:20-58 | a ranking that names positions of a proper segment, none twice, gives exactly their memories in its order |
| `OneshotSearch.Oneshot` | src/context/search/search_service.cpp:159-323 | fails as an invalid request exactly without memories; succeeds, with an engine that exports, exactly when the plan completes, the query can be built and every segment can be built and ranked; leaves nothing live wherever it ends after its first step, touches no session, and returns the first top_k distinct hits of every segment of its own plan, each ranked on the given system text with the given texts, and each with the identifier and text it was given |
| `OneshotSearch.RunEphemeral` | src/context/search/search_runner.cpp:187-268 | succeeds exactly when every segment can be built and ranked; each is ranked on a context built from its own texts |
| `OneshotSearch.OneshotContent` | src/context/search/search_service.cpp:26-45 | a segment of the plan is made of the given system text and the given texts with its numbers |
| `StorageNames.SanitizeStorageComponent` | src/persistent/storage_paths.cpp:7-41 | the loops compute the specified name |
| `StorageNames.SafeStorageComponent` | src/context/storage/storage_layout.cpp:6-11 | the sanitised name, or the fallback when nothing is left |
| `StorageNames.SanitizedIsClean` | src/persistent/storage_paths.cpp:7-41 | the result is a clean name with all letters, digits, dots and dashes in order, and exactly the clean names are left as they are |
| `StorageNames.RunsBecomeUnderscores` | src/persistent/storage_paths.cpp:7-41 | a run of forbidden bytes between allowed ones becomes one underscore |
| `StorageNames.SanitizingTwice` | src/persistent/storage_paths.cpp:7-41 | sanitising is idempotent |
| `StorageNames.CreatedUnderItsOwnName` | src/context/storage/storage_layout.cpp:26-47 | the first save of a session is refused exactly when its name has an underscore at an end; otherwise its directories carry its name |
| `StorageNames.CreatedSessionsNeverCollide` | src/context/storage/storage_layout.cpp:26-47 | two sessions that could be created never share a directory |
| `StorageNames.ValidNamesCanCollide` | src/context/storage/storage_layout.cpp:26-36 | valid names alone can share one |
| `StorageNames.FactsAreSharedCachesAreNot` | src/context/storage/storage_layout.cpp:13-47 | models shown under one name share the facts of a session; caches are kept apart by the key of the model |
| `CodeChunks.SplitCode` | python/attemory/code/project.py:510-543 | the chunks are the non-blank pieces of a cut of the file whose pieces end at the first blank line within reach or at their nominal end |
| `CodeChunks.PieceEnd` | python/attemory/code/project.py:523-530 | the search for the end of one piece |
| `CodeChunks.CutsAreDetermined` | python/attemory/code/project.py:520-542 | there is only one such cut |
| `CodeChunks.ChunksAreComplete` | python/attemory/code/project.py:510-543 | chunks are ordered, disjoint, not blank, not too long, carry their lines, and every line that is not blank is in one |
| `CodeChunks.PiecesAreTheFile` | python/attemory/code/project.py:531-542 | kept and dropped pieces together are the file |
| `CodeChunks.MergeRanges` | python/attemory/code/cli.py:919-927 | the result covers exactly the lines of the ranges with two non-zero ends, in order with gaps between |
| `CodeChunks.MergedRangesAreUnique` | python/attemory/code/cli.py:919-927 | non-empty ranges with gaps between that cover the same lines are the same ranges |

## Left out

- the tokeniser and the engine: arbitrary functions; a successful load carries the requested texts, an extension appends, an export or hydration copies, as their callers rely on. `Works` and `Exports`, where a contract says that a command cannot fail, say what the engine is assumed to do, and `MemoryRoom.Roomy` what there has to be room for beforehand.
- the native engine, which returns before it takes a staged prefix, and its ephemeral rebuild path: the model is of the other runtime.
- search-cache blobs, time stamps, languages, chunk identifiers and error texts: they do not act on the state.
- the remove-then-rename fallback of the savers: it is not atomic; only a rename that succeeds or fails as a whole is modelled, and a temporary file that could be written or not.
- `CacheDisk`: holds the manifest of a session as a value, in the numbering the program writes; that the bytes of a manifest read back is proved separately (`CacheManifest.ManifestReadsBack`). File names inside manifest records are empty, which stands for the default names; a manifest that names another file is not modelled.
- nested maps of the resident store: one map from pairs of session and segment; shared ownership of KV states: a table of handles whose cells are never reclaimed.
- 32-bit casts of token counts of the engine, and contexts so long that 85 times their length overflows 32 bits (`ContextLength`).
- an access clock that reaches 2^64-1: the wrap itself is modelled, but an entry stamped with the last value cannot be selected, as in the source, so eviction may end over budget with that entry left.
- collisions of the 64-bit hash: the program compares hashes, and so does the model; what is proved is that the hashed bytes are unambiguous, and that changing one byte of them changes the hash.
- `IndexCommands.PersistSnapshot`: the size of a file that was just written is taken to be that of the serialised state; the program asks the file system.
- `SearchResults.SearchReturnsContributions`: takes the segments as a partition, which the plans of the other modules are; the order of equal segment numbers under the standard sort is not modelled.
- status of a session without a plan, the scan of the storage directory at start-up (it restores each session), and shutdown.
- a delete that removes a directory half way: what is left of the session's files is arbitrary, and no durability is claimed for that session afterwards.
- `Runs.Run`: says nothing of what follows the first command that makes a second session of the same own name known; it takes the engine to answer the same question alike within one command, and the tokeniser as one function for the whole run.
- a command under another name than the session's own: it is modelled as the command under its own name after the contexts of all sessions were put to sleep that are not called so (`Names.ExecuteAs`), which leaves nothing to do for the second entry.
- `Steps.Execute`: its effect says nothing of the plan that the next command makes for a session without one, nor of the files and entries that index, save and search leave; the contracts of these commands do.
- `Steps.StepsFit`: durability is claimed while names, system texts and memory texts are within what the readers take, the counts of memories and boundaries fit, and no deletion fails; beyond that the files do not load.
- `PlanInvariant.RestoredPlanOk`: takes manifests whose records are numbered 0, 1, 2 and so on, as the program writes them; one with other numbers, made by something else, is accepted by `PlanRestore.RestoreSegmentPlan` but not followed further.
- `SessionPlans.PlanSession`: takes such manifests only.
- `SessionPlans.PrepareSessionPlan`: takes such manifests only.
- `SessionPlans.RefreshSessionKvMetadata`: the file of a segment is the one of its default name; a manifest that records another file name, which the program never writes, is not followed.
- `OneshotSearch.RunEphemeral`: the context of each segment is a local value that its destructor releases; it is not in the table of handles.
- `KVManager.RankLog`: the log of rankings is there for the statements about search only; the program keeps none.
- scores of files and `fnmatch` patterns of the code tool: floating point and a library; and Python's `splitlines`: `SplitCode` takes the lines.
- the locale of `isalnum` in directory names (ASCII is taken) and file systems that fold case.
- HTTP, JSON, command line, configuration, the Python client and its transports.
