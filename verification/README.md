# Swink-Agent core: a verified model

This project models the core of Swink-Agent, a Rust library for running language-model agents, and proves what its
core promises. It covers six parts.

* **Stream assembly.** Adapters drive a block accumulator that emits start, delta and end events for interleaved text,
  thinking and tool-call blocks (`BlockAccumulator.dfy`). `accumulate_message` rebuilds a message from such events
  (`StreamAccumulator.dfy`). `StreamGrammar.dfy` says, block by block, which streams are well formed and what message
  they describe. `AccumulateMessage` accepts exactly those streams and returns exactly that message.
  `StreamRoundTrip.dfy` gives the producer's calls a meaning without indices or events, a log of blocks, and shows that
  the stream the calls emit is rebuilt to that log. `StreamConfluence.dfy` shows that interleaving across blocks does
  not matter. `StreamSanitize.dfy` models the repair of truncated tool calls.
* **Context compaction and versioned history.** Sliding-window compaction with its two boundary adjustments
  (`Context.dfy`, laws in `ContextLaws.dfy`), the transformer with two anchors and two budgets
  (`ContextTransformer.dfy`), the archive of dropped messages over whole conversations (`ContextVersion.dfy`), and
  passes that overtake one another or share a store (`VersionRaces.dfy`).
* **Per-path locks and atomic replacement.** The pruned table of weak lock references (`LockTable.dfy`) and the protocol
  as a state machine whose steps any number of threads interleave, down to references dropped between two visits of a
  prune (`LockProtocol.dfy`); the invariant of locks, logs and temporary files (`AtomicReplace.dfy`), that of contents
  (`AtomicContents.dfy`), and what follows for every run (`AtomicRuns.dfy`); paths that lead to one file
  (`AtomicAliases.dfy`); the size of the table (`SearchTrace.dfy`, `TableBound.dfy`) with a run that reaches the bound
  (`LateDrops.dfy`); and one replacement with all the ways it can fail (`AtomicWrite.dfy`).
* **Supervised agents.** The agent loop with restarts, replies and final status (`Orchestrator.dfy`) and the
  parent/child registry (`Hierarchy.dfy`).
* **Plugins.** The registry and its priority order (`Plugins.dfy`) and the merge of plugin contributions with its
  name-collision retry loop (`PluginMerge.dfy`), which ends with the code's own hashed names (`ToolNames.dfy`).
* **Session state and policies.** The change log of the session state (`SessionState.dfy`) and the policy slot runners
  (`Policy.dfy`).

`Wrappers.dfy`, `Messages.dfy`, `StreamEvents.dfy` and `Sequences.dfy` hold the shared types and one law of sequences.

## How the code is modelled

* Code that updates state in place is a class with the same fields and methods; each method is proved against a function
  of the old state, and the laws are proved about that function. `AccumulateMessage`, `CompactSlidingWindowWith`,
  `LockForTarget` and `MergePluginContributions` hand parts of their bodies to helper methods, so that each stays small enough to verify.
* Errors are one failure value, panics that refuse a call are a `false` result, and timestamps are parameters.
* JSON parsing is an arbitrary partial function, a token counter and a summarizer are arbitrary functions.
* The merge takes any naming of tools and asks only that the retry loops it runs end. With the code's own naming they do,
  for every plugin and tool, in merges of up to 10000 plugin tools (`CodeOffersEnd`); how names are composed and encoded
  in bytes stays open. For any other naming a loop ends exactly when not every candidate is a plugin tool's name that no
  direct tool owns (`SearchEndsExactlyWhen`), so when candidates for a tool do not repeat (`FreshOffersEnd`); for an
  arbitrary naming that condition cannot simply be dropped (`StuckNamingNeverEnds`).
* A path leads by an arbitrary function to the directory entry that a rename replaces, so two paths may lead to the same
  one. Symbolic and hard links are left out.
* A policy is an arbitrary function of the arguments that may return or panic. A supervisor is an arbitrary function of
  the error and of how many failures it has been asked about.
* Integers are unbounded.

## Where the code and what is said of it differ

* In `src/atomic_fs.rs` an error does not mean that the target is as it was: a directory sync that fails after the rename
  reports an error although the target already holds the new content (lines 101-104). `FailedReportMayPublish` shows this
  for every state in which a rename is due. `ReportsAreTrueIff` says, of every run, that reports are right on a path if
  and only if no step of the run was a rename on that path whose directory sync failed.
* `src/atomic_fs.rs` promises that concurrent writes to the same target are serialized (lines 9-10), but keeps its locks
  by path as spelled. `LocksSufficeIff` says that updates are kept, in every run on a set of paths, if and only if the
  paths lead to different files; `AliasLosesUpdate` gives the run in which two spellings lose one.
* `src/atomic_fs.rs` says the lock map is bounded by roughly its threshold plus the writes in flight (lines 115-117). Of
  the writes in flight at some earlier point this holds in every reachable state (`TableIsWithinSum`). Of those in flight
  now it holds exactly if at most 64 entries are dead (`SumNowIff`), and `LateDropsExceedSum` gives a run in which it
  fails. Nor does the larger of the two bound the table, even right after a lookup: more than 64 entries outnumber the
  live mutexes exactly when, during the lookup, somebody dropped the last reference to the lock of another path whose
  entry the lookup had already visited (`LookupBound`); `LateDropsExceedLive` gives a run with 65 entries although never
  more than 64 mutexes were live.
* `latest_version` is to load the most recent version (`src/context_version.rs`, lines 112-119), but looks the last number
  listed up again. Whether most recent means stored last or highest number: it returns the version stored last if and
  only if no other has its number, and the highest number if and only if the version stored last has it (`LatestIsLastStoredIff`, `LatestIsHighestIff` in `ContextVersion.dfy`).
  Both can fail: when two transformers share a store (`SharedStoreReturnsOlder`), and, because a pass lets its lock go
  before it stores its version (lines 312-314), when one pass overtakes another (`OvertakenSaveReturnsOlder`). For runs
  `VersionRaces.LatestIsLastStoredIff` and `LatestIsNewestIff` give the exact conditions.
* `BlockAccumulator::alloc_index` is offered for allocating an index without opening a block. `RoundTrip` shows that the
  stream is then refused exactly if some block is opened afterwards.
* `SessionState::apply_baseline` adds keys outside the delta. `BaselineIsReplayableIff` gives the exact condition under
  which the flushed deltas still rebuild the data; `BaselineMayBreakReplay` gives a run that breaks it.

## Model

| member | source | states |
|---|---|---|
| `StreamAccumulator.AccumulateMessage` | src/stream.rs:1138-1512 | succeeds exactly on the streams the block grammar accepts, and returns exactly the message the grammar describes |
| `StreamAccumulator.AccumulateText` | src/stream.rs:1259-1306 | a text event is refused, or changes the blocks and open flags, exactly as the acceptor's step says |
| `StreamAccumulator.AccumulateThinking` | src/stream.rs:1308-1362 | the same for thinking events, where the end event sets the signature |
| `StreamAccumulator.AccumulateToolCall` | src/stream.rs:1364-1457 | the same for tool-call events, with the parse of the joined arguments and its tolerance under a length stop |
| `StreamAccumulator.RunDecidesStream` | src/stream.rs:1222-1512 | the acceptor completes exactly when there is one Start first, one terminal last, and a well-formed and finished body, and then holds the described blocks |
| `StreamAccumulator.RunBody` | src/stream.rs:1250-1457 | after Start the acceptor survives exactly the bodies whose blocks are numbered as opened and whose per-block traces are well formed |
| `StreamAccumulator.FramedRun` | src/stream.rs:1212-1220 | a terminal is accepted exactly if every block is closed, or only tool calls are open and the terminal is Done with the length reason |
| `StreamAccumulator.MayEndMatches` | src/stream.rs:1155-1192 | the terminal check agrees with the grammar's rule for unfinished blocks |
| `StreamAccumulator.FeedMatchesTrace` | src/stream.rs:1273-1457 | a delta or end event is refused exactly if it does not extend its block's trace, and otherwise gives the block of the longer trace |
| `StreamAccumulator.RefusalIsFinal` | src/stream.rs:1222-1493 | once an event is refused, so is every stream with that prefix |
| `StreamConfluence.Confluence` | src/stream.rs:1222-1512 | accepted streams with the same terminal and the same per-block events give the same message, however interleaved |
| `StreamConfluence.InterleavingIrrelevant` | src/stream.rs:1222-1512 | acceptance too depends only on the per-block events, the opening order and the terminal |
| `StreamConfluence.NeighboursCommute` | src/stream.rs:1222-1493 | neighbouring events of different blocks can be swapped, unless both open a block, without changing the outcome |
| `StreamSanitize.SanitizeIncompleteToolCalls` | src/stream.rs:1107-1127 | repairs every incomplete tool call in place, leaves every other block alone and counts the repairs |
| `StreamSanitize.SanitizeIsIdempotent` | src/stream.rs:1103-1104 | a second pass finds nothing to repair and changes nothing |
| `StreamSanitize.IncompleteCounts` | src/stream.rs:1108-1126 | the count returned is the number of tool calls with partial JSON or arguments that are no object |
| `StreamSanitize.RepairedIs` | src/stream.rs:1112-1123 | such a call gets an empty object and no partial JSON and keeps id and name; every other block is left alone |
| `StreamSanitize.SanitizeAfterStream` | src/stream.rs:1087-1101 | on any accepted stream exactly the tool calls whose arguments did not arrive as an object are repaired, keeping id and name |
| `BlockAccumulator.Accumulator.AllocIndex` | src/block_accumulator.rs:118-127 | hands out the next index and changes nothing else |
| `BlockAccumulator.Accumulator.EnsureTextOpen` | src/block_accumulator.rs:131-144 | opens a text block under the next index and returns its start event, or does nothing if one is open |
| `BlockAccumulator.Accumulator.CloseText` | src/block_accumulator.rs:161-168 | closes the open text block and returns its end event, if there is one |
| `BlockAccumulator.Accumulator.TextDelta` | src/block_accumulator.rs:170-178 | returns a delta for the open text block, if there is one, and changes nothing |
| `BlockAccumulator.Accumulator.EnsureThinkingOpen` | src/block_accumulator.rs:182-195 | opens a thinking block under the next index, or does nothing if one is open |
| `BlockAccumulator.Accumulator.SetThinkingSignature` | src/block_accumulator.rs:212-221 | stores the signature with the open thinking block; nothing happens without one |
| `BlockAccumulator.Accumulator.CloseThinking` | src/block_accumulator.rs:223-237 | closes the thinking block; a signature given here overrides one stored before |
| `BlockAccumulator.Accumulator.ThinkingDelta` | src/block_accumulator.rs:239-250 | returns a delta for the open thinking block, if there is one |
| `BlockAccumulator.Accumulator.OpenToolCall` | src/block_accumulator.rs:254-268 | opens a tool call under the next index beside any others open |
| `BlockAccumulator.Accumulator.CloseToolCall` | src/block_accumulator.rs:270-286 | closes the open tool call with this index, if there is one |
| `BlockAccumulator.Accumulator.ToolCallDelta` | src/block_accumulator.rs:288-294 | returns the delta event for the index given, whatever the state |
| `BlockAccumulator.Accumulator.DrainOpenBlocks` | src/block_accumulator.rs:299-326 | returns the open blocks sorted by index and leaves none open |
| `BlockAccumulator.Accumulator.FinalizeBlocks` | src/block_accumulator.rs:55-73 | returns the end events of the drained blocks |
| `BlockAccumulator.SortByIndexSorts` | src/block_accumulator.rs:323 | sorting keeps the blocks and orders them by index |
| `StreamRoundTrip.RoundTrip` | src/block_accumulator.rs:107-326 | for every run of calls, finalized, and every terminal, the emitted stream is accepted exactly when the calls kept the two rules and every tool text is empty or JSON, or the stream is done with the length reason; the message then has one block per block opened, in order, with its kind, joined deltas, id, name and signature |
| `StreamRoundTrip.CutOffStream` | src/stream.rs:1155-1192 | the same for every run that is not finalized: every block must be closed, except that under the length reason tool calls may be open or cut short, and then keep their text unparsed |
| `StreamRoundTrip.LogOutcome` | src/stream.rs:1222-1512 | the outcome of any stream that carries a log, with usage, cost and error as the terminal gives them and zeros where it gives none |
| `StreamRoundTrip.Simulation` | src/block_accumulator.rs:116-295 | while the rules are kept the events carry the log and the indices agree with it; once one is broken no continuation is well formed |
| `StreamRoundTrip.MirrorStep` | src/block_accumulator.rs:129-295 | each allowed call keeps events and log in step, each other call spoils the stream |
| `StreamRoundTrip.LinkedStep` | src/block_accumulator.rs:116-286 | each allowed call keeps the stored indices equal to the positions of the open blocks |
| `StreamRoundTrip.FinalEventsSettle` | src/block_accumulator.rs:49-73 | finalizing closes every open block of the log and nothing else |
| `StreamRoundTrip.FinalEventsInOrder` | src/block_accumulator.rs:36-47 | the final events close exactly the open blocks, in ascending index order |
| `StreamRoundTrip.FinalizeIsClosing` | src/block_accumulator.rs:299-326 | finalizing midway emits and leaves what closing each open block by its call would, so every law of runs covers runs that finalize on the way |
| `StreamRoundTrip.BareAllocSpoilsStream` | src/block_accumulator.rs:118-127 | allocating an index and then opening a block gives a refused stream |
| `Context.CompactSlidingWindowWith` | src/context.rs:237-312 | leaves what the cut keeps and reports the pass as `Compacted` says, for every history, budget, anchor and counter |
| `ContextLaws.WithinBudgetIsKept` | src/context.rs:248-251 | a history within the budget is left as it is, and there is no report |
| `ContextLaws.OverBudgetIsCut` | src/context.rs:253-311 | a history over the budget keeps exactly what precedes the end of the protected messages and what follows the tail, the longest suffix that fits moved back to the call of its leading results; the report has the counts of both, and there is none exactly when nothing lies between |
| `ContextLaws.TokensAre` | src/context.rs:246-248 | tokens are the counter's values added up |
| `Context.ExtendAnchorForToolResults` | src/context.rs:140-169 | the two walks compute the extended anchor |
| `Context.WalkTail` | src/context.rs:261-272 | the backward walk finds the longest suffix that fits |
| `Context.WalkToCall` | src/context.rs:274-280 | the second walk moves back over tool results to the message they follow |
| `Context.LongestTailFits` | src/context.rs:261-272 | the suffix chosen fits and no longer one does |
| `ContextLaws.AnchorIsClean` | src/context.rs:140-169 | on a well-formed history the extended anchor is never inside a tool group |
| `ContextLaws.AnchorIsFirstClean` | src/context.rs:140-169 | on a well-formed history the extended anchor is the first place at or after the anchor that splits no tool group |
| `ContextLaws.AnchorMovesOverAnswers` | src/context.rs:140-169 | on every history the anchor moves only over answers to the calls of the message its run belongs to, and past all of them if the run before it consists of such answers |
| `ContextLaws.HeadlessAnchorStays` | src/context.rs:145-151 | with only tool results before it the anchor stays |
| `ContextLaws.CutIsClean` | src/context.rs:253-285 | on a well-formed history neither boundary of the cut separates a tool result from its call |
| `ContextLaws.ToolGroupsStayWhole` | src/context.rs:220-223 | a tool call and each of its results are kept together or dropped together |
| `ContextLaws.CompactionKeepsWellFormed` | src/context.rs:237-312 | compacting a well-formed history gives a well-formed history |
| `ContextLaws.CompactionIsIdempotent` | src/context.rs:237-312 | a second pass with the same budget, anchor and counter drops nothing, for every history, even when the first ended over budget |
| `ContextLaws.CompactionIsMonotone` | src/context.rs:248-285 | a larger budget keeps every position a smaller one keeps |
| `ContextLaws.TailIsLongest` | src/context.rs:261-280 | the tail before adjustment is the longest suffix that fits beside the anchor, and the adjustment pulls in one message and tool results of its run |
| `ContextLaws.TokensBalance` | src/context.rs:248-311 | tokens before are tokens after plus those dropped; tokens after exceed neither budget nor anchor by more than the pulled-in group |
| `ContextLaws.ProtectedStays` | src/context.rs:220-223 | the anchor messages stay where they are and the dropped count is what is missing |
| `ContextLaws.NothingElseIsLost` | src/context.rs:289-301 | the LLM messages are those before the cut, those reported as dropped and those after, in order |
| `ContextLaws.LlmOnlyKeepsAll` | src/context.rs:290-296 | collecting the LLM messages of a slice keeps each as often as it occurs |
| `ContextLaws.CallIdsAreIds` | src/context.rs:116-131 | the ids of an assistant message are those of its tool-call blocks |
| `ContextLaws.ToolCallIdsAre` | src/context.rs:116-131 | the ids that count are those of all tool-call blocks of an assistant message, and none of any other message |
| `ContextTransformer.SlidingWindowTransformer.Transform` | src/context_transformer.rs:162-181 | compacts with the overflow budget in overflow mode and the normal one otherwise, with the larger of the anchor and the cached prefix, and marks the report with the mode |
| `ContextTransformer.SlidingWindowTransformer.PublishCachedPrefix` | src/context_transformer.rs:140-147 | stores the published prefix and nothing else |
| `ContextTransformer.SlidingWindowTransformer.CachedPrefixLen` | src/context_transformer.rs:149-159 | the published prefix if one was published, else the configured one |
| `ContextTransformer.OverflowKeepsLess` | src/context_transformer.rs:168-172 | overflow mode keeps no position that normal mode drops, if its budget is no larger |
| `ContextTransformer.PrefixIsProtected` | src/context_transformer.rs:174-178 | messages below the anchor or the cached prefix stay in place in either mode |
| `ContextVersion.VersioningTransformer.Transform` | src/context_version.rs:278-319 | runs the inner pass, stores a version exactly when LLM messages were dropped, and advances both counters with it |
| `ContextVersion.VersioningTransformer.constructor` | src/context_version.rs:249-263 | numbering starts at 1 with no turn counted |
| `ContextVersion.InMemoryVersionStore.LoadVersion` | src/context_version.rs:186-192 | the first version stored under the number, or none if there is none |
| `ContextVersion.InMemoryVersionStore.ListVersions` | src/context_version.rs:194-209 | one record per stored version, in order |
| `ContextVersion.InMemoryVersionStore.LatestVersion` | src/context_version.rs:113-119 | the first version stored under the last number, on every store |
| `ContextVersion.LatestIsLastStoredIff` | src/context_version.rs:112-119 | that is the version stored last exactly when no other has its number |
| `ContextVersion.LatestIsHighestIff` | src/context_version.rs:109-119 | it has the highest number exactly when the version stored last has |
| `ContextVersion.VersionsAreNumbered` | src/context_version.rs:297-312 | over every run of passes one after another, versions are numbered 1, 2, 3 without gaps or repeats, none is empty, and the counters agree with the store |
| `VersionRaces.StoredNumbersDiffer` | src/context_version.rs:293-316 | however passes overtake one another, no transformer has two versions of one number in the store |
| `VersionRaces.NoGapsOnceSaved` | src/context_version.rs:293-316 | once all saves are done each transformer's stored numbers are exactly those from 1 to the count it gave |
| `VersionRaces.IssuedOnce` | src/context_version.rs:303-316 | every version numbered is stored once or still to be stored |
| `VersionRaces.LatestIsLastStoredIff` | src/context_version.rs:112-119 | in every run the latest version returned is the one stored last exactly when no other transformer had stored its number |
| `VersionRaces.LatestIsNewestIff` | src/context_version.rs:109-119 | with one transformer and all saves done it has the highest number exactly when the pass that took its number last was stored last |
| `VersionRaces.SharedStoreReturnsOlder` | src/context_version.rs:113-119 | a run of two transformers on one store in which the older version is returned |
| `VersionRaces.OvertakenSaveReturnsOlder` | src/context_version.rs:312-316 | a run of one transformer in which a save is overtaken and version 1 is returned although version 2 is stored |
| `VersionRaces.PassAloneFiles` | src/context_version.rs:284-319 | a pass that is not overtaken files the version the sequential layer files |
| `ContextVersion.MessagesAreConserved` | src/context_version.rs:278-319 | over every run, whatever the budgets and anchors, each LLM message appended is active or archived exactly as often |
| `ContextVersion.ArchiveIsComplete` | src/context_version.rs:278-319 | with a fixed anchor and well-formed batches the LLM messages appended are, in order, the protected prefix, the versions and the active tail |
| `ContextVersion.AppendKeepsPrefix` | src/context.rs:140-169 | growing by a well-formed batch does not move the end of the protected prefix |
| `ContextVersion.CompactKeepsPrefix` | src/context.rs:253-301 | compacting does not move it either, for every history |
| `LockTable.LockMap.LockForTarget` | src/atomic_fs.rs:147-160 | prunes at the threshold, then shares the live mutex of the path or makes a new one, as `Lookup` says |
| `LockTable.LookupEffect` | src/atomic_fs.rs:130-160 | the path maps to the mutex returned, the live one if there was one; its count rises by one; other live entries stay |
| `LockTable.LookupBoundsTable` | src/atomic_fs.rs:113-118 | right after an uninterrupted lookup the table has at most 64 entries or one per live mutex |
| `LockTable.VisitingAllPrunes` | src/atomic_fs.rs:151-153 | visiting the entries one by one, in any order, leaves exactly the live ones |
| `LockProtocol.PruneKeepsRefs` | src/atomic_fs.rs:115-117 | a visit of a prune never removes an entry whose mutex somebody holds |
| `LockProtocol.LookupKeepsRefs` | src/atomic_fs.rs:142-146 | after a lookup counts are still the numbers of holders and every holder's mutex is the one the table has |
| `LockProtocol.DropKeepsRefs` | src/atomic_fs.rs:122-124 | a holder can always give its reference back, and counts stay right |
| `AtomicReplace.StepKeeps` | src/atomic_fs.rs:47-106 | every step of every thread keeps the invariant of locks, logs and temporary files |
| `AtomicContents.StepKeepsContents` | src/atomic_fs.rs:47-106 | every step keeps the invariant of contents as long as the paths locked lead to different files |
| `AtomicContents.LockKeepsFiles` | src/atomic_fs.rs:47-53 | a path locked for the first time leads to a file nobody has replaced |
| `AtomicContents.FinishKeepsSeen` | src/atomic_fs.rs:47-53 | a replacement leaves what every other thread has read still current |
| `AtomicRuns.EveryRunKeeps` | src/atomic_fs.rs:47-160 | the invariant holds after every interleaving |
| `AtomicRuns.OneLockPerPath` | src/atomic_fs.rs:142-146 | in every interleaving all references to a path's lock are to the mutex in the table, and no two threads are inside for one path |
| `AtomicRuns.NoLostUpdate` | src/atomic_fs.rs:43-53 | in every interleaving in which the paths locked lead to different files, each holds its initial content with the published updates applied in lock order, and no other file changes |
| `AtomicAliases.LocksSufficeIff` | src/atomic_fs.rs:9-10 | in every run on these paths each file holds what its operations, each as often as it was done, make of it in some order, if and only if the paths lead to different files |
| `AtomicAliases.AliasLosesUpdate` | src/atomic_fs.rs:147-158 | two paths to one file: a run in which both operations report success and one update is lost |
| `AtomicRuns.LogIsAcquisitionOrder` | src/atomic_fs.rs:47-53 | that order is the order of the lock acquisitions on the path |
| `AtomicRuns.ReplaceIsAtomic` | src/atomic_fs.rs:3-7 | in every interleaving a step leaves a file alone or puts a whole new content in its place, the update of what it held when paths lead to different files |
| `AtomicRuns.NoStrayTemps` | src/atomic_fs.rs:6-7 | a temporary file exists only while a thread inside is writing it |
| `SearchTrace.SearchTracks` | src/atomic_fs.rs:147-153 | during a lookup of a full table an entry already visited is dead exactly if its last reference was dropped behind the lookup |
| `SearchTrace.EntriesAreLiveIff` | src/atomic_fs.rs:113-124 | a table has no more entries than live mutexes exactly if no entry is dead |
| `TableBound.LookupBound` | src/atomic_fs.rs:113-153 | in every run, after a lookup the table has at most 64 entries or one more than mutexes live when it began; beyond 64 it has no more than mutexes live now exactly if nobody dropped the last reference to another path's lock behind the lookup |
| `TableBound.TableIsBounded` | src/atomic_fs.rs:113-118 | in every reachable state the table has at most 64 entries or one more than mutexes live at some earlier point |
| `TableBound.SearchBegan` | src/atomic_fs.rs:147-153 | while a lookup prunes, whatever other threads do, no count rises, and in a table still full every entry visited was live when it began |
| `TableBound.TableIsWithinSum` | src/atomic_fs.rs:113-118 | in every reachable state the table has at most 64 entries more than mutexes live at some earlier point |
| `TableBound.SumNowIff` | src/atomic_fs.rs:113-118 | in every reachable state it has at most 64 entries more than mutexes live now exactly if at most 64 entries are dead |
| `TableBound.LookupLeavesDead` | src/atomic_fs.rs:147-160 | a lookup that leaves more than 64 entries leaves dead exactly those of other paths whose last reference was dropped behind it |
| `SearchTrace.EntriesSplit` | src/atomic_fs.rs:122-124 | a table's entries are as many as its live mutexes and its dead entries together |
| `LateDrops.LateDropsExceedSum` | src/atomic_fs.rs:113-118 | a run that leaves 65 entries with no mutex live |
| `LateDrops.LateDropsExceedLive` | src/atomic_fs.rs:147-160 | a run whose last lookup leaves 65 entries with one mutex live, though never more than 64 were live before |
| `AtomicRuns.ReportedUpdatesAreKept` | src/atomic_fs.rs:23-27 | if no step was a rename on the path whose directory sync failed, the file holds exactly the updates reported as successful |
| `AtomicRuns.UnsyncedIsLogged` | src/atomic_fs.rs:101-104 | a path's log has an update that took effect without being reported exactly if some step of the run was such a rename |
| `AtomicRuns.ReportsAreTrueIff` | src/atomic_fs.rs:23-27 | after every run, what took effect on a path is exactly what was reported as successful if and only if no step was a rename on it whose directory sync failed |
| `AtomicReplace.RenameEffect` | src/atomic_fs.rs:101 | a rename puts the whole new content in the target's place, leaves other files alone and takes the temporary file away |
| `AtomicRuns.FailedReportMayPublish` | src/atomic_fs.rs:101-104 | whenever a rename is due it may also end in a reported failure with the target replaced |
| `AtomicWrite.FileSystem.AtomicWriteInner` | src/atomic_fs.rs:68-106 | whatever fails, the target is untouched or holds the whole content, the result says which except for a failed directory sync, and no temporary file is left |
| `AtomicWrite.JoinedInOrder` | src/atomic_fs.rs:83-90 | the content written is the chunks one after the other, in order |
| `Orchestrator.RunAgentLoop` | src/orchestrator.rs:423-521 | stops at the first poll that ends the loop, has replied to exactly the requests taken, has built one agent per restart and one more; the status is completed exactly for a closed channel, cancelled exactly for the token, failed exactly for a stop or an exhausted budget |
| `Orchestrator.RestartBudget` | src/orchestrator.rs:474-485 | while the loop runs the counter is within its maximum, and restarts in all are at most the maximum times successes plus one |
| `Orchestrator.OneReplyEach` | src/orchestrator.rs:444-500 | every request taken gets exactly one reply attempt, in the order taken |
| `Orchestrator.ReplyAt` | src/orchestrator.rs:444-500 | the reply to a request is its answer exactly if the prompt succeeded, its own error if it failed, and an abort if it was cancelled |
| `Orchestrator.RepliesInOrder` | src/orchestrator.rs:444-500 | replies to polls after one another come one after the other |
| `Orchestrator.NoSupervisorKeepsGoing` | src/orchestrator.rs:468-472 | without a supervisor no failure stops or restarts the agent |
| `Orchestrator.StopOrEscalate` | src/orchestrator.rs:468-498 | a supervisor is asked about each failure with its error; its stop ends the loop, its escalation changes nothing |
| `Orchestrator.SuccessResets` | src/orchestrator.rs:462-466 | a success gives the whole restart budget back |
| `Orchestrator.RestartsInARow` | src/orchestrator.rs:474-498 | with a supervisor that always restarts, an agent with its whole budget survives as many failures in a row as it has restarts, and not one more |
| `Orchestrator.FailuresAre` | src/orchestrator.rs:467-472 | the failures a supervisor has been asked about are the requests whose prompt failed |
| `Orchestrator.SuccessesAre` | src/orchestrator.rs:462-466 | the successes that pay for restarts are the requests whose prompt succeeded |
| `Hierarchy.AgentOrchestrator.AddAgent` | src/orchestrator.rs:277-303 | adds a root with the default restart budget and no children unless the name is taken, changes nothing else, and keeps the hierarchy a forest |
| `Hierarchy.AgentOrchestrator.AddChild` | src/orchestrator.rs:305-343 | adds a child with the default restart budget and lists it last under its parent, unless the name is taken or the parent missing, changes nothing else, and keeps the hierarchy a forest |
| `Hierarchy.EveryRegistryIsForest` | src/orchestrator.rs:284-343 | after every run of registrations parent and children views agree and every chain of parents ends at a root |
| `Hierarchy.ForestIsTreeShaped` | src/orchestrator.rs:345-355 | no agent is its own ancestor, and each is listed once under exactly the parent it names |
| `Plugins.PluginRegistry.Register` | src/plugin.rs:100-110 | replaces the first namesake in place or appends, and keeps distinct names distinct |
| `Plugins.InsertedKeepsNames` | src/plugin.rs:100-110 | the plugin is in, plugins of other names stay, and names stay distinct |
| `Plugins.InsertedAt` | src/plugin.rs:102-109 | the first plugin of the name is replaced where it stands; without one the plugin goes last |
| `Plugins.PluginRegistry.List` | src/plugin.rs:152-157 | highest priority first, and within a priority exactly the plugins registered, in order |
| `Plugins.SortIsStable` | src/plugin.rs:112-116 | the sort orders by priority, keeps every plugin, and keeps the order among equals |
| `Plugins.StableOrderIsUnique` | src/plugin.rs:112-116 | there is only one such order |
| `PluginMerge.AgentOptions.MergePluginContributions` | src/agent.rs:479-594 | whenever its retry loops end, rewrites the options as `Merged` says: sorted plugins, plugin policies first, plugin tools last under their resolved names, forwarders first |
| `PluginMerge.Disambiguate` | src/agent.rs:520-561 | every retry loop that ends stops at the first candidate that is free or owned by a direct tool, within one more attempt than there are taken names when its candidates are distinct |
| `PluginMerge.FreshEndsSoon` | src/agent.rs:524-557 | a search that tries no candidate twice ends within one more attempt than there are taken names |
| `PluginMerge.FreshOffersEnd` | src/agent.rs:505-561 | when no tool offered has a candidate twice among as many as tools come before it, every retry loop of the merge ends |
| `PluginMerge.Pigeonhole` | src/agent.rs:524-557 | distinct candidates that are all taken are no more than the taken names |
| `PluginMerge.StuckNamingNeverEnds` | src/agent.rs:524-557 | for an arbitrary naming the condition of `FreshOffersEnd` cannot be dropped: with one that has a single candidate a retry loop runs forever (the code's own naming is no such naming) |
| `ToolNames.CodeOffersEnd` | src/agent.rs:524-557 | with the code's own naming every retry loop of a merge of up to 10000 plugin tools ends |
| `ToolNames.CodeSearchEnds` | src/agent.rs:524-557 | for every plugin and tool a search with fewer than 10000 names taken ends by attempt 19999 |
| `ToolNames.AttemptsDiffer` | src/tool_name.rs:49-54 | attempts 10000 to 19999 try different names |
| `ToolNames.DigitsTellApart` | src/tool_name.rs:73-80 | from the same hash, up to four different digits lead to different hashes |
| `ToolNames.StaysApart` | src/tool_name.rs:73-80 | hashes once apart on their lower 40 bits are not brought together by three more digits |
| `ToolNames.PaddedIsItsValue` | src/tool_name.rs:79 | the sixteen hexadecimal digits of a hash give it back |
| `ToolNames.HashIs` | src/tool_name.rs:73-80 | the hash starts at its offset and takes in one byte after another by exclusive or and multiplication modulo 2^64 |
| `ToolNames.NamesFit` | src/tool_name.rs:49-54 | a disambiguated name has at most 64 characters: at most 47 of the composed name, an underscore and 16 digits |
| `ToolNames.IdentityTellsApart` | src/agent.rs:525-529 | without zero bytes in names, what is hashed differs whenever plugin, tool or attempt does |
| `PluginMerge.TurnedAwayOnlyForDirect` | src/agent.rs:512-561 | a tool is skipped exactly if a direct tool owns its composed name or, that being taken, its first free candidate |
| `PluginMerge.SearchEndsExactlyWhen` | src/agent.rs:524-557 | the search ends exactly when not every candidate is a taken name that no direct tool owns |
| `PluginMerge.AcceptedNamesAreFree` | src/agent.rs:505-564 | accepted plugin tools have distinct names, none of them a direct tool's |
| `PluginMerge.NoneTurnedAwayIff` | src/agent.rs:505-564 | every plugin tool gets in, in order, exactly when no direct tool owns a name the tools come to |
| `PluginMerge.MergeIsCollisionFree` | src/agent.rs:472-477 | direct tools stay a verbatim prefix, plugin names are distinct and disjoint from theirs, and all names are distinct exactly if the direct ones were |
| `PluginMerge.PoliciesRunByPriority` | src/agent.rs:573-584 | in every slot plugin policies precede the agent's own, and higher-priority plugins precede lower ones |
| `PluginMerge.PoliciesStand` | src/agent.rs:500-503 | each plugin's pre-turn, pre-dispatch, post-turn and post-loop policies stand in their slots right after those of the plugins before it, and the agent's own at the end |
| `PluginMerge.GatheredGrows` | src/agent.rs:500-503 | one plugin more adds its four lists of policies to the four slots |
| `PluginMerge.ForwardersStand` | src/agent.rs:566-592 | the first forwarders are one per plugin, in order, and the agent's own follow |
| `PluginMerge.MergedPluginsAre` | src/agent.rs:482-485 | the plugins are those given, by descending priority and in their order among equals |
| `PluginMerge.OffersAre` | src/agent.rs:505-510 | tools are offered plugin after plugin, each under its plugin's name |
| `PluginMerge.NamesAreSeen` | src/agent.rs:167-178 | uniqueness is about a direct tool's own name and a plugin tool's final one |
| `PluginMerge.AssertUniqueToolNames` | src/agent.rs:167-186 | passes exactly when no two tools share a name |
| `SessionState.SessionState.Set` | src/state.rs:121-129 | sets the key in data and delta and leaves all else alone, or changes nothing if the value does not serialize |
| `SessionState.SessionState.Remove` | src/state.rs:131-136 | takes the key out of the data and records it as removed, or does nothing if it is absent |
| `SessionState.SessionState.Clear` | src/state.rs:158-164 | empties the data, records every key it had as removed and keeps what was recorded of others |
| `SessionState.SessionState.ApplyBaseline` | src/state.rs:93-106 | adds the baseline's absent keys, overrides none, and leaves the delta alone |
| `SessionState.SessionState.FlushDelta` | src/state.rs:171-174 | hands out the delta and starts an empty one |
| `SessionState.ChangeIsRecorded` | src/state.rs:121-164 | if the delta replays to the data before a change, it does after it |
| `SessionState.AppliedAt` | src/state.rs:15-24 | key by key a delta sets what it has a value for, removes what it has none for, and leaves the rest |
| `SessionState.ReplayConcat` | src/state.rs:13-24 | deltas are applied one after the other |
| `SessionState.DeltasReplayToData` | src/state.rs:13-24 | over every run the flushed deltas in order and then the pending one rebuild the data |
| `SessionState.BaselineIsReplayableIff` | src/state.rs:93-106 | after a baseline some start still replays to the data exactly if no key the baseline added was ever changed |
| `SessionState.PendingRemovalIsTheObstacle` | src/state.rs:93-106 | since the last flush this means exactly that no baseline key has a pending removal |
| `SessionState.BaselineMayBreakReplay` | src/state.rs:93-106 | set a key, remove it, layer in a baseline that has it: no start replays to the data |
| `Policy.RunPreDispatchPolicies` | src/policy.rs:369-411 | verdict and arguments are those of the walk: first Stop or Skip wins, messages accumulate, panics are rolled back |
| `Policy.OnePolicy` | src/policy.rs:381-403 | one policy alone: its verdict and its arguments stand, an empty injection is none, a panic leaves everything as it was |
| `Policy.FirstStopDecides` | src/policy.rs:387-394 | the verdict is a Stop or Skip exactly if some policy returns one with none before it, and then is that policy's word for word, with the arguments it leaves |
| `Policy.InjectionsJoin` | src/policy.rs:395-411 | policies after one another: the rest go on with the arguments the first leave, and messages are joined in order |
| `Policy.PanicsAreTransparent` | src/policy.rs:374 | running only the policies that are reached and do not panic gives the same verdict and arguments |
| `Policy.SurvivorsReturn` | src/policy.rs:384-403 | none of the policies kept panics at its turn, and only the last of them may stop |
| `Policy.RunnerDistributes` | src/policy.rs:375-411 | a concatenation runs as its first part and then, unless that stopped, its second on what is left |
| `Policy.ArgumentsAreComposed` | src/policy.rs:381-403 | the final arguments are the survivors' mutations composed in order, up to the one that stopped the walk |
| `Policy.RunPolicies` | src/policy.rs:258-367 | in the other slots the first Stop wins, and otherwise all injected messages are joined in order |
| `Policy.OneInjects` | src/policy.rs:281-295 | one policy injects the messages it returns, and none if it panics or lets the turn go on |
| `Policy.InjectedInOrder` | src/policy.rs:258-291 | the messages of policies after one another are joined in order |

## Left out

- AccumulateMessage: error strings are not modelled, every refusal is one value, and the cache hint, which is always empty here, is no field of the message.
- RunAgentLoop: waiting, channels and the token are a list of what each wait yields; whether a reply reaches its receiver is not modelled.
- LockForTarget: mutexes are named by allocation order and reference counts are stored in the table, where the source keeps them in the shared allocation.
- AtomicWriteInner: permissions, buffering and durability after a crash are not modelled; a write is a list of chunks.
- RunPolicies: one method stands for the three runners of the same shape; the read-only contexts are fixed in the policy.
- ApplyBaseline: the state and its baseline are different objects, as Rust's borrow rules demand.
- MergePluginContributions: what policies, tools and observers do is not modelled, they are told apart by numbers; the sort is an insertion sort standing for the library's stable sort.
- CompactSlidingWindowWith: the default counter (characters divided by four) is one instance of the arbitrary counter.
- Versions numbered concurrently are modelled for the store; what their messages were appended to is not followed there, and `ArchiveIsComplete` is about passes on one conversation, one after another.
- Transform: the inner transformer of the versioning layer is the sliding window; closures wrapped as transformers report no dropped messages and archive nothing.
- An operation under the lock is one read followed by at most one replacement; several replacements in one critical section are not modelled.
- Symbolic and hard links: a read follows a symbolic link while a rename replaces it, which no fixed function from paths to files describes.
- Writes that skip the lock (`atomic_write_unlocked` without `with_target_lock`) are outside the protocol.
- Stateful policies and plugins: a policy is a function of the arguments it sees.
- Provider adapters, HTTP and SSE, the agent's turn loop, tool dispatch, checkpoints, the terminal interface, telemetry and credential storage.
- Floating-point code: pricing, retry delays and duration parsing.
- Builders, catalog lookups, display and message conversion, whose properties are read off one body.
