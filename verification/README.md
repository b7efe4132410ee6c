# Verified model of opencode-a2a's stateful core

The project models, in Dafny 4.11, the parts of opencode-a2a that keep state across calls, and
proves what they promise over whole runs. `dafny verify dfyconfig.toml` checks everything.

**Sessions** (`SessionStore`, `SessionManager`, `SessionProtocol`, `SessionInvariants`,
`SessionTheorems`, `SessionClaims`, `SessionWedge`, `SessionLocks`). The database session
repository, the session manager and the claim guard are classes. Each method is tied to a function
on the tables, one per section that the source runs under a lock. `SessionProtocol` interleaves
those sections freely for any number of activities, together with upstream outcomes, cancellation
of a waiting caller, and sections that a cancellation or a storage failure cuts: a create commit
between its two writes or after them, a claim after its row is written, a finalisation before or
after it clears the claim, a release that never happens, a pop after it deleted the binding.
`SessionLocks` is the queue for a session's execution lock, with cleanups that come late or are cut.

**Streaming** (`StreamState`, `StreamRuntime`, `StreamTheorems`, `StreamParts`, `StreamTools`,
`StreamReports`, `OutputModes`). Decoded upstream events become chunks, chunks become queue
updates, a client folds the updates (section 4.2.2 of the A2A Protocol 1.0 specification), and the
task store compacts what it saves. `StreamReports` says what the upstream reported without any of
that machinery, and that the client gets it. Deltas and snapshots are arbitrary strings, so the
theorems cover in particular the trimmed snapshots and untrimmed deltas that the event decoder
delivers; part ids are trimmed by the decoder, which the tool theorem uses.

**Output modes** (`OutputNegotiation`). Accepted output modes are normalised, remembered, written
into task metadata at every save, and applied to the parts that a client is shown.

**Outbound clients** (`ClientCache`, `ClientManager`, `ClientLosses`). `ClientManager` has the
cache entries as objects changed in place; every method is one step of the protocol in
`ClientCache`, where the invariants over runs of borrows, returns, evictions and close_all are
proved. A client's number stands for its identity, and `is_busy` is an arbitrary set of clients at
each pass. `ClientLosses` adds operations that are cut while they close what they evicted.

**Interrupt requests** (`Interrupts`, `InterruptTheorems`, `InterruptAges`). The memory and the
database repository are classes over their own tables, related by a simulation and by the history
of calls, which also decides exactly when they disagree.

**Bounded machinery** (`RateLimiter`, `TtlCache`, `TtlCacheTheorems`, `Polling`). Each is proved
against a simple history, timed map or closed form. Clocks, lifetimes and intervals are reals.

`Prelude` and `Text` hold shared vocabulary: options, whitespace trimming, decimals, JSON escapes,
string order.

## What the proofs turned up

Each has its exact condition, and most a run that shows it.

- A create commit cut between writing the binding
  (`src/opencode_a2a/execution/session_manager.py:121`) and writing the owner (line 127) leaves a
  binding nobody owns. Another identity can then take the session, and the cached binding still
  hands it to the first (`CutCommitHandsOutForeignSession`, `BindingsOwnedUnlessCut`).
- A claim cut after its row is written (line 161 of the same file) and before the caller learns of
  it (`src/opencode_a2a/execution/coordinator.py:257-260`,
  `src/opencode_a2a/jsonrpc/handlers/common.py:47`) is released by nobody and keeps others out
  until it expires; so is one whose last holder's release fails (`CutClaimKeepsOthersOut`,
  `LeaksIffCut`, `LeakedRowEnds`).
- A claim row belongs to an identity, not to a request: of two requests of one identity for one
  session, the first to exit drops the claim of both (`SecondGuardLosesClaim`,
  `ClaimExcludesUnlessFreed`).
- Cancelling a caller that awaits a create cancels the shared task, and line 106 of
  `session_manager.py` does not catch that. The key then serves nobody until it is popped or bound;
  a pop that is cut between lines 199 and 201 can bring the same about for a key that was bound
  since (`CancelWedges`, `CancelLeavesCancelled`, `CutPopStrandsKey`,
  `StuckIffStrandedUntilUnstuck`, `CancelWedgesIff`, `WedgedUntilRescued`).
- A coordinator cancelled while it waits for a session's lock releases in its cleanup, now or
  later, the lock of whoever holds it then, and the next one runs beside that holder (`TwoAtOnce`,
  `DelayedReleaseHitsLaterHolder`, `ExclusiveUnlessStolen`). A second cancellation in the cleanup of
  a holder leaves the lock locked for those who wait (`CutCleanupStrandsWaiters`,
  `HeldIffNeverOrphaned`).
- A borrow cut while it closes evicted clients (`src/opencode_a2a/server/client_manager.py:99`) is
  counted and never returned, and pins its entry (`LosesIffCut`, `LostBorrowPins`).
- The rate limiter's delay hint is too long when the window opened between the rejection and the
  question, as it may between lines 779 and 780 of `src/opencode_a2a/server/middleware.py`
  (`HintAfterWindowOpened`, `HintExactIffRejected`).
- The two interrupt repositories answer missing against expired exactly when memory's tombstone
  has ended and the database's has not (`MemoryForgetsFirst`, `DifferIff`).

`OneTextArtifact` and `LeadingSpaceSplitsText` show that the final snapshot goes to a second
artifact when the artifact id begins with whitespace. Nothing in the repository makes such a task
id: ids reach `src/opencode_a2a/execution/coordinator.py:98` unchanged from the request context.

## Model

The main results come first, then the operations they are about.

| member | source | states |
|---|---|---|
| SessionTheorems.OwnerNeverChanges | src/opencode_a2a/execution/session_manager.py:112-127 | an owner once set is the owner in every later state of the run, whatever claims, expiries, creates, cancels or cuts follow |
| SessionTheorems.OneFinalizer | src/opencode_a2a/execution/session_manager.py:164-177 | two successful finalisations of one session are by one identity, and that identity owns the session |
| SessionTheorems.BindingImpliesOwner | src/opencode_a2a/execution/session_manager.py:62-87 | in runs whose commits are not cut, every stored binding whose context lock is free, and every session handed back for a key, belongs to the key's identity |
| SessionTheorems.BindingsOwnedUnlessCut | src/opencode_a2a/execution/session_manager.py:119-127 | a step breaks "bound implies owned" if and only if it cuts a commit between its two writes |
| SessionTheorems.CutCommitHandsOutForeignSession | src/opencode_a2a/execution/session_manager.py:119-127 | a concrete run in which such a cut makes a caller receive a session that another identity owns |
| SessionClaims.ClaimExcludesUnlessFreed | src/opencode_a2a/execution/session_manager.py:150-185 | over any run within its lifetime a claim stands at every moment if and only if no holder of the same identity and session exits or finalises; while it stands every other identity is refused |
| SessionClaims.SecondGuardLosesClaim | src/opencode_a2a/jsonrpc/handlers/common.py:61-74 | a concrete run: the first of two guards of one identity exits, and another identity takes the session under the second |
| SessionClaims.NoClaimLeak | src/opencode_a2a/execution/session_manager.py:150-185 | every claim row, expired or not, has a live guard or coordinator of that identity on that session which claimed and has neither finalised nor exited, or a cut left it behind |
| SessionClaims.NoClaimAfterAllExit | src/opencode_a2a/jsonrpc/handlers/common.py:61-74 | when all of them have exited only rows that cuts left behind remain, and none without such a cut |
| SessionClaims.LeaksIffCut | src/opencode_a2a/execution/coordinator.py:256-267 | from a state without leaks a step leaks a claim if and only if it cuts a claim after its row is written, or the release of its last holder, with nobody else of that identity holding |
| SessionClaims.LeakedRowEnds | src/opencode_a2a/server/state_store.py:283-299 | a leaked row goes exactly with the first step that prunes at or after its expiry, unless its identity claims again |
| SessionClaims.CutClaimKeepsOthersOut | src/opencode_a2a/jsonrpc/handlers/common.py:45-51 | a concrete run: a request cancelled right after its claim was written keeps others out until the claim expires |
| SessionTheorems.CreatesBounded | src/opencode_a2a/execution/session_manager.py:78-131 | the creates issued upstream for a key are at most one more than the cancels and failures that took the key's binding or create away |
| SessionTheorems.OneSessionPerKey | src/opencode_a2a/execution/session_manager.py:78-131 | with no such disruption and no explicit rebinding a key has exactly one create, and all callers receive the same session |
| SessionWedge.StuckIffStrandedUntilUnstuck | src/opencode_a2a/execution/session_manager.py:91-110 | a step makes a key stuck if and only if it cancels the running create that the callers of the unbound key join, or is a pop of a bound key with a cancelled create in flight that is cut after its delete; and it frees a stuck key if and only if it pops the key or writes a binding for it |
| SessionWedge.CutPopStrandsKey | src/opencode_a2a/execution/session_manager.py:190-201 | a concrete run whose last step is such a cut pop |
| SessionWedge.StuckIffNeverUnstuck | src/opencode_a2a/execution/session_manager.py:91-131 | over any run a stuck key stays stuck if and only if no such step occurs |
| SessionWedge.CancelLeavesCancelled | src/opencode_a2a/execution/session_manager.py:104-110 | cancelling a waiting caller leaves a cancelled create under its key if and only if that create is current and was running or cancelled |
| SessionWedge.CancelWedgesIff | src/opencode_a2a/execution/session_manager.py:104-110 | the same with nobody else on the way: exactly when the cancel leaves a key that serves nobody |
| SessionWedge.WedgedUntilRescued | src/opencode_a2a/execution/session_manager.py:62-76 | such a key is rescued exactly by a pop or by a request that prefers a session and is not refused |
| SessionWedge.CancelledCreateWedgesKey | src/opencode_a2a/execution/session_manager.py:91-110 | until then nothing creates or hands out a session for it |
| SessionWedge.UnstuckServesNext | src/opencode_a2a/execution/session_manager.py:78-102 | once freed, the next caller issues a create of its own or gets the bound session |
| SessionWedge.CancelWedges | src/opencode_a2a/execution/session_manager.py:104-110 | in particular cancelling the only caller of a fresh create, a run of two steps |
| SessionLocks.GuardedUnlessStolen | src/opencode_a2a/execution/coordinator.py:498-511 | a step leaves a holder of a session lock without it if and only if it is the release by a cleanup that never had the lock while another holds it |
| SessionLocks.ExclusiveUnlessStolen | src/opencode_a2a/execution/coordinator.py:256-271 | over any run every holder keeps its lock if and only if no such release occurs, and then no session has two coordinators at a time |
| SessionLocks.ExclusiveWithoutCancelledWaiter | src/opencode_a2a/execution/coordinator.py:256-271 | in every run without a coordinator cancelled while it waits for the lock, however cleanups are delayed or cut, no session has two coordinators at a time |
| SessionLocks.StolenLockIsShared | src/opencode_a2a/execution/coordinator.py:510-511 | after such a release the next waiter runs beside the coordinator that lost its lock |
| SessionLocks.LocksHeldUnlessOrphaned | src/opencode_a2a/execution/coordinator.py:498-511 | a step leaves a session locked with nobody to release it if and only if it cuts the cleanup of its last holder |
| SessionLocks.HeldIffNeverOrphaned | src/opencode_a2a/execution/coordinator.py:498-511 | over any run every locked session has a holder at every moment if and only if no such cut occurs |
| SessionLocks.OrphanBlocks | src/opencode_a2a/execution/coordinator.py:510-511 | such a lock stays until the cleanup of a cancelled waiter happens to release it or nobody refers to it |
| SessionLocks.TwoAtOnce | src/opencode_a2a/execution/coordinator.py:510-511 | a concrete run with two coordinators on one session |
| SessionLocks.DelayedReleaseHitsLaterHolder | src/opencode_a2a/execution/coordinator.py:498-511 | a concrete run in which the cleanup of a cancelled waiter comes late and takes the lock of a later holder |
| SessionLocks.CutCleanupStrandsWaiters | src/opencode_a2a/execution/coordinator.py:498-511 | a concrete run that leaves two coordinators waiting for a lock nobody holds |
| StreamTheorems.ClientEndsWithResponse | src/opencode_a2a/execution/coordinator.py:393-416 | after any mix of deltas, snapshots, rewrites, repetitions and dropped echoes, a run that completes with a non-blank response leaves the client with that response up to outer whitespace |
| StreamReports.EventCarries | src/opencode_a2a/execution/stream_runtime.py:529-620 | an event turns the runtime state of its part into the next report, and its chunks carry exactly the pieces the event says |
| StreamReports.BufferIsReported | src/opencode_a2a/execution/stream_runtime.py:299-366 | over any run the buffer of a part is the text that was reported of it: deltas append, snapshots and payloads replace, early deltas count, silent parts say nothing |
| StreamReports.ClientGetsWhatWasReported | src/opencode_a2a/execution/stream_runtime.py:91-127 | for every event sequence the client has exactly what was reported as text and as reasoning, piece by piece in order of arrival, prompt repetitions aside |
| StreamReports.SaysTheDifference | src/opencode_a2a/execution/stream_runtime.py:326-366 | what an event says is what it adds to the report if and only if it is not a snapshot that rewrites it |
| StreamReports.PiecesSpellReport | src/opencode_a2a/execution/stream_runtime.py:299-366 | while a part's snapshots only grow its pieces spell its reported text: each character once |
| StreamReports.ClientGetsThePart | src/opencode_a2a/execution/stream_runtime.py:299-366 | with one growing text part the client has exactly its reported text |
| StreamReports.ClientGetsMergedParts | src/opencode_a2a/execution/stream_runtime.py:299-366 | with any number of text parts the client's text is a merge of their words in order of arrival, in which the words of every part whose snapshots only grow spell exactly its reported text |
| StreamReports.ToolShowsLastPayload | src/opencode_a2a/execution/stream_runtime.py:368-402 | for a tool part without deltas the client's last part renders the last payload reported while the part was not silent, and without one the artifact is unknown |
| StreamTheorems.FoldIsBuffer | src/opencode_a2a/execution/stream_state.py:102-118 | for every event sequence, a client that replaces on append=false and extends on append=true has exactly the content buffer of each text or reasoning artifact |
| StreamTheorems.FoldIsBufferAfterFinish | src/opencode_a2a/execution/coordinator.py:393-416 | and still has after the final snapshot |
| StreamTheorems.OneTextArtifact | src/opencode_a2a/execution/stream_state.py:127-136 | streamed text and final snapshot share one artifact if and only if no text was streamed or the artifact id does not begin with whitespace |
| StreamTheorems.LeadingSpaceSplitsText | src/opencode_a2a/execution/stream_state.py:127-136 | a concrete run whose artifact id begins with a space and whose text ends up in two artifacts |
| StreamTheorems.EventsNumbered | src/opencode_a2a/execution/stream_runtime.py:111-127 | all events of a run carry 1, 2, 3, ... with pairwise distinct ids, also distinct from the closing status event's |
| StreamTheorems.EventIdsDistinct | src/opencode_a2a/execution/stream_state.py:159-160 | different numbers give different event ids, none of them the status event's |
| StreamTheorems.InterruptsAlternate | src/opencode_a2a/execution/stream_runtime.py:491-525 | per request id the statuses alternate asked and resolved, and the id is pending exactly when the last one is "asked" |
| StreamParts.EarlyDeltasCommute | src/opencode_a2a/execution/stream_runtime.py:538-592 | deltas that come before the update announcing their part end in the very same stream state and queue as the other order |
| StreamParts.EchoesLeaveNoTrace | src/opencode_a2a/execution/stream_state.py:86-100 | repetitions of the prompt before anything was sent change neither state nor queue; after that a repetition is content like any other |
| StreamParts.RepeatedSnapshot | src/opencode_a2a/execution/stream_runtime.py:326-340 | a repeated snapshot produces nothing and changes nothing |
| OutputModes.CompactionCommutes | src/opencode_a2a/server/task_store.py:106-116 | compacting at every save of a homogeneous artifact gives what compacting once at the end gives |
| OutputModes.CanonicalCommutes | src/opencode_a2a/output_modes.py:214-230 | compacting before an append is harmless if and only if the artifact is a tool's, already compact, or extended by text alone |
| OutputModes.CanonicalIdempotent | src/opencode_a2a/output_modes.py:214-230 | compacting twice is compacting once |
| OutputModes.StoredIsBuffer | src/opencode_a2a/server/task_store.py:185-191 | with stream metadata on, a stored text or reasoning artifact is at every moment one part equal to the content buffer |
| OutputModes.StoredEndsWithResponse | src/opencode_a2a/execution/coordinator.py:393-416 | the stored text artifact of a completed run is one part equal to the response up to outer whitespace |
| OutputNegotiation.NegotiationSurvives | src/opencode_a2a/server/task_store.py:64-69 | with the registry entry gone, the stored task alone yields the same modes, and any payload is shown the same |
| OutputNegotiation.SaveTwice | src/opencode_a2a/server/task_store.py:185-191 | saving a stored task again stores the same task, with or without the registry |
| OutputNegotiation.MergeExtract | src/opencode_a2a/output_modes.py:88-126 | modes merged into metadata are extracted again, sorted, and every other entry is untouched |
| OutputNegotiation.MergeTwice | src/opencode_a2a/output_modes.py:88-126 | merging what is there already changes nothing |
| OutputNegotiation.NormalizeMeans | src/opencode_a2a/output_modes.py:45-54 | no restriction exactly if a wildcard is listed or nothing usable is; otherwise exactly the trimmed lower-case modes, once each |
| OutputNegotiation.FilterShowsKept | src/opencode_a2a/output_modes.py:285-316 | what is shown is decided part by part and in order: accepted parts as they are, data as text where text is accepted, nothing else |
| OutputNegotiation.FilterAllShowsKept | src/opencode_a2a/output_modes.py:233-283 | artifacts and messages stay in order, and one is left out exactly when none of its parts is kept |
| OutputNegotiation.FilterAllTwice | src/opencode_a2a/output_modes.py:265-316 | what is shown has only acceptable parts, no empty artifact or message, and filtering it again changes nothing |
| ClientCache.EvictKeeps | src/opencode_a2a/server/client_manager.py:124-160 | a pass removes only idle unprotected entries and otherwise only marks |
| ClientCache.EvictDropsStale | src/opencode_a2a/server/client_manager.py:133-140 | an expired or marked entry leaves in the first pass that finds it idle and unprotected, and is marked until then |
| ClientCache.EvictBounded | src/opencode_a2a/server/client_manager.py:124-160 | after a pass the cache is above its maximum only if some entry is marked |
| ClientCache.EvictIsLru | src/opencode_a2a/server/client_manager.py:149-158 | capacity eviction never shrinks the cache below its maximum, and what goes was used no later than any idle unprotected entry that stays |
| ClientCache.EvictFits | src/opencode_a2a/server/client_manager.py:124-160 | with nothing borrowed, busy or protected a pass ends within the maximum |
| ClientCache.StepInv | src/opencode_a2a/server/client_manager.py:71-115 | borrow, return and close_all keep: counts match outstanding borrows, clients distinct, none closed twice |
| ClientCache.RunInv | src/opencode_a2a/server/client_manager.py:71-122 | so does every run |
| ClientCache.EntriesOutliveBorrows | src/opencode_a2a/server/client_manager.py:71-115 | without close_all, each count is the number of outstanding borrows of that entry, and every borrowed entry is still cached |
| ClientCache.NobodyClosedTwice | src/opencode_a2a/server/client_manager.py:117-122 | no client is ever closed twice, and no cached client is closed |
| ClientCache.ClosedAreIdle | src/opencode_a2a/server/client_manager.py:124-160 | eviction closes no busy client and none that is still borrowed |
| ClientCache.BorrowRenews | src/opencode_a2a/server/client_manager.py:81-99 | a borrow always ends with its entry cached, counted and renewed |
| ClientCache.ReturnRenews | src/opencode_a2a/server/client_manager.py:104-114 | a return renews the borrowed entry if it is still cached, and changes no other except by marking |
| ClientCache.CacheBounded | src/opencode_a2a/server/client_manager.py:143-147 | over whole runs the cache exceeds its maximum only while an entry is marked |
| ClientCache.CacheFitsWhenIdle | src/opencode_a2a/server/client_manager.py:103-115 | when the last borrow returns and no client is busy the cache is within its maximum |
| ClientLosses.LosesIffCut | src/opencode_a2a/server/client_manager.py:93-99 | a step loses a borrow if and only if it is a borrow cut while it closes evicted clients, and then it loses its own |
| ClientLosses.LostBorrowPins | src/opencode_a2a/server/client_manager.py:93-115 | an entry with a lost borrow stays cached and counted for ever: no eviction ever removes it |
| ClientLosses.CutsKeepEntries | src/opencode_a2a/server/client_manager.py:71-115 | with such cuts, too, counts match outstanding borrows, borrowed entries stay cached, and no client is closed twice |
| InterruptTheorems.SimStep | src/opencode_a2a/server/state_store.py:432-738 | the two repositories stay related under every operation, and their answers agree |
| InterruptTheorems.Lockstep | src/opencode_a2a/server/state_store.py:491-738 | on the same calls and one monotone clock: same active answers and bindings, same pending lists in the same order, and expired in memory implies expired in the database |
| InterruptTheorems.ActiveIffBound | src/opencode_a2a/server/state_store.py:648-687 | either repository answers active with a binding if and only if that is the binding last remembered, not discarded since, and not expired |
| InterruptTheorems.PendingIffBound | src/opencode_a2a/server/state_store.py:517-534 | a pending list holds exactly the standing bindings that match, in order |
| InterruptTheorems.AnswersOnlyAge | src/opencode_a2a/server/state_store.py:491-511 | until an id is remembered again its answers only go from active to expired to missing, in both repositories |
| InterruptTheorems.MemoryForgetsFirst | src/opencode_a2a/server/state_store.py:592-600 | a concrete run in which they differ |
| InterruptAges.AnswersFollowCalls | src/opencode_a2a/server/state_store.py:491-687 | every answer of either repository is decided by the calls made so far: the standing binding, and when its tombstone started |
| InterruptAges.DifferIff | src/opencode_a2a/server/state_store.py:491-687 | a resolve is answered differently if and only if the binding is over, memory's tombstone has ended, and the database's has not ended or not started; then memory says missing and the database expired |
| Interrupts.OneList | src/opencode_a2a/server/state_store.py:680-690 | that order determines the list |
| RateLimiter.AdmitsIffWindowHasRoom | src/opencode_a2a/server/runtime_limits.py:95-105 | while a key is not evicted it is admitted if and only if fewer than the limit of all its earlier admissions are inside the window |
| RateLimiter.AdmissionsSpaced | src/opencode_a2a/server/runtime_limits.py:95-105 | admissions that many requests apart differ by at least the window |
| RateLimiter.HintExactIffRejected | src/opencode_a2a/server/runtime_limits.py:107-116 | the delay hint is the exact earliest admitting delay if and only if a check at the time of asking would be rejected |
| RateLimiter.HintAfterWindowOpened | src/opencode_a2a/server/runtime_limits.py:107-116 | a concrete run: one request per ten seconds, rejected at 9, and a hint of ten seconds at 10 |
| RateLimiter.EvictedIsOldest | src/opencode_a2a/server/runtime_limits.py:122-128 | a key is evicted only when another key enters a full table, and then it is the one inserted first |
| RateLimiter.KeysBounded | src/opencode_a2a/server/runtime_limits.py:122-128 | no more keys than the maximum, no more times per key than the limit |
| RateLimiter.PrunedLater | src/opencode_a2a/server/runtime_limits.py:118-120 | pruning early never changes a later look |
| TtlCacheTheorems.SetFits | src/opencode_a2a/execution/stream_state.py:216-238 | whatever was held before, the cache is within its maximum after every set |
| TtlCacheTheorems.EvictedExpireFirst | src/opencode_a2a/execution/stream_state.py:235-238 | a live entry is evicted only from a cache that stays full, and nothing that stays expires sooner |
| TtlCacheTheorems.JustSetStays | src/opencode_a2a/execution/stream_state.py:216-238 | with a monotone clock the key just set is never the one evicted |
| TtlCacheTheorems.HitIsLatest | src/opencode_a2a/execution/stream_state.py:201-214 | over any run a hit is the value last set, not popped and not expired since |
| TtlCacheTheorems.HitIffLatest | src/opencode_a2a/execution/stream_state.py:201-214 | for a key never crowded out, Get answers exactly as the timed map does |
| TtlCacheTheorems.CrowdedOnlyWhenFull | src/opencode_a2a/execution/stream_state.py:227-238 | a live key is crowded out only of a cache that is and stays full, and it was the first to expire |
| Polling.PollTaskUntilTerminal | src/opencode_a2a/client/client.py:365-395 | settles exactly at the first state that is not pollable, times out exactly when the deadline passed first, or stops at the first failing GetTask; intervals follow the capped geometric sequence |
| Polling.NextBackoff | src/opencode_a2a/client/polling.py:36-40 | growing the capped interval is capping the grown interval |
| Polling.BackoffRises | src/opencode_a2a/client/polling.py:36-40 | intervals never shrink and stay between the initial and the maximum interval |
| Polling.PollingBounded | src/opencode_a2a/client/client.py:372-395 | at most ceil(timeout / initial interval) GetTask calls and at most the timeout slept, whatever the task and the clock do |
| SessionStore.DatabaseSessionStateRepository.GetPendingClaim | src/opencode_a2a/server/state_store.py:357-378 | deletes every expired claim row first, then answers with the claimant that is left |
| SessionStore.DatabaseSessionStateRepository.SetPendingClaim | src/opencode_a2a/server/state_store.py:380-400 | prunes, then writes the claim with its expiry; a TTL that is not positive deletes instead |
| SessionStore.DatabaseSessionStateRepository.ClearPendingClaim | src/opencode_a2a/server/state_store.py:402-415 | removes the claim only if it is the given identity's |
| SessionStore.DatabaseSessionStateRepository.PruneExpired | src/opencode_a2a/server/state_store.py:283-299 | keeps exactly the claims that expire later; with a TTL that is not positive it keeps none |
| SessionManagement.SessionManager.ClaimPreferredSession | src/opencode_a2a/execution/session_manager.py:150-162 | refuses a session owned or claimed by someone else, answers false for one's own, and otherwise writes a claim |
| SessionManagement.SessionManager.FinalizeSessionClaim | src/opencode_a2a/execution/session_manager.py:164-177 | refuses as above, and otherwise writes the owner and clears the caller's own claim |
| SessionManagement.SessionManager.ReleasePreferredSessionClaim | src/opencode_a2a/execution/session_manager.py:179-185 | clears only the caller's claim |
| SessionManagement.SessionManager.StartCreate | src/opencode_a2a/execution/session_manager.py:78-102 | the bound session, or the task already in flight for the key, or exactly one new create |
| SessionManagement.SessionManager.CommitCreate | src/opencode_a2a/execution/session_manager.py:112-127 | refuses a session owned by another and then drops its own in-flight entry; otherwise binds it and writes an owner only where there is none |
| SessionManagement.SessionManager.ForgetCreate | src/opencode_a2a/execution/session_manager.py:128-130 | drops the in-flight entry only if it is still this task's |
| SessionManagement.SessionManager.PopCachedSession | src/opencode_a2a/execution/session_manager.py:190-201 | removes binding and in-flight entry and hands the entry's task back |
| SessionManagement.SessionClaimGuard.Enter | src/opencode_a2a/jsonrpc/handlers/common.py:45-51 | claims unless identity or session is empty; pending exactly when a claim was written |
| SessionManagement.SessionClaimGuard.Finalize | src/opencode_a2a/jsonrpc/handlers/common.py:53-59 | finalises at most once, and only a guard that claimed |
| SessionManagement.SessionClaimGuard.Exit | src/opencode_a2a/jsonrpc/handlers/common.py:61-74 | releases the claim exactly when the guard claimed and did not finalise |
| SessionTheorems.StepInv | src/opencode_a2a/execution/session_manager.py:78-201 | every step of every activity keeps the protocol invariant: creates, cancels, claims, finalisations, releases, binds and pops, whole or cut part-way |
| SessionTheorems.RunInv | src/opencode_a2a/execution/session_manager.py:52-201 | so does every interleaved run of any number of activities |
| StreamState.StreamOutputState.RegisterChunk | src/opencode_a2a/execution/stream_state.py:102-118 | a chunk counts exactly if it changes the artifact's content; it appends exactly if the artifact was emitted before |
| StreamState.StreamOutputState.ShouldEmitFinalSnapshot | src/opencode_a2a/execution/stream_state.py:138-146 | a correction is due exactly if the response is not blank and differs from the content beyond outer whitespace; the content then becomes the response |
| StreamState.StreamOutputState.MarkInterruptPending | src/opencode_a2a/execution/stream_state.py:165-172 | true exactly for a non-blank id that was not pending, which then is |
| StreamState.StreamOutputState.ClearInterruptPending | src/opencode_a2a/execution/stream_state.py:174-181 | true exactly for a non-blank id that was pending, which then is not |
| StreamRuntime.EmitOne | src/opencode_a2a/execution/stream_runtime.py:91-127 | one chunk is dropped as an echo, ignored as a repetition, or enqueued with the next number |
| StreamRuntime.EmitChunks | src/opencode_a2a/execution/stream_runtime.py:91-140 | the emission loop does this for each chunk in order |
| StreamRuntime.ReportProgress | src/opencode_a2a/execution/stream_runtime.py:429-470 | progress is reported once per change, and only sent with streaming metadata on |
| StreamRuntime.AskInterrupt | src/opencode_a2a/execution/stream_runtime.py:491-512 | an asked event is sent exactly when the id was not pending |
| StreamRuntime.ResolveInterrupt | src/opencode_a2a/execution/stream_runtime.py:513-528 | a resolved event is sent exactly when the id was pending |
| StreamRuntime.HandleStatusAspects | src/opencode_a2a/execution/stream_runtime.py:485-528 | progress, asked and resolved aspects of an event, in that order |
| StreamRuntime.Consume | src/opencode_a2a/execution/stream_runtime.py:404-620 | the consuming loop over all connections, reconnecting after failures with doubling pauses of at most five seconds, refines the event-by-event specification and stops after the terminal event |
| StreamRuntime.FinishStreaming | src/opencode_a2a/execution/coordinator.py:393-430 | a replacing snapshot if one is due, then the completed status event |
| StreamTheorems.ReachableOk | src/opencode_a2a/execution/stream_runtime.py:91-127 | all artifact, numbering and interrupt invariants hold after any sequence of events |
| OutputModes.CanonicalizeStreamArtifacts | src/opencode_a2a/output_modes.py:214-230 | the compaction loop rewrites each artifact to its canonical form and no other |
| OutputNegotiation.NormalizeAcceptedOutputModes | src/opencode_a2a/output_modes.py:45-54 | the normalising loop over the listed values |
| OutputNegotiation.FilterParts | src/opencode_a2a/output_modes.py:285-316 | the filtering loop |
| OutputNegotiation.TaskOutputModeRegistry.Remember | src/opencode_a2a/server/task_store.py:57-62 | remembers normalised modes, or forgets |
| OutputNegotiation.NegotiatingTaskStore.Save | src/opencode_a2a/server/task_store.py:185-199 | stores the compacted task annotated with its modes; a terminal save forgets the registry entry |
| ClientManager.A2AClientManager.SweepStale | src/opencode_a2a/server/client_manager.py:133-140 | the first eviction loop over the entry objects is the sweep of the table |
| ClientManager.A2AClientManager.TrimOldest | src/opencode_a2a/server/client_manager.py:149-158 | the second loop is the least-recently-used trim, stopping at the maximum |
| ClientManager.A2AClientManager.EvictLocked | src/opencode_a2a/server/client_manager.py:124-160 | one pass over the objects is one pass over the table, and the list to close is exactly the clients that left |
| ClientManager.A2AClientManager.BorrowClient | src/opencode_a2a/server/client_manager.py:58-99 | a borrow is one borrow step of the protocol, lends the entry object it counted, and lists exactly the clients to close |
| ClientManager.A2AClientManager.ReturnClient | src/opencode_a2a/server/client_manager.py:103-115 | a return of the lent object is one return step |
| ClientManager.A2AClientManager.CloseAll | src/opencode_a2a/server/client_manager.py:117-122 | empties the cache and lists every cached client once |
| Interrupts.SortPending | src/opencode_a2a/server/state_store.py:534-535 | the pending list is the given bindings in the order (expiry, request id) |
| Interrupts.MemoryInterruptRequestRepository.PruneRequests | src/opencode_a2a/server/state_store.py:432-440 | every request that is over becomes a tombstone starting now, and no other |
| Interrupts.MemoryInterruptRequestRepository.Remember | src/opencode_a2a/server/state_store.py:461-489 | prunes both tables, stores the binding, and clears its tombstone |
| Interrupts.MemoryInterruptRequestRepository.Resolve | src/opencode_a2a/server/state_store.py:491-511 | active with the binding, expired, or missing, with the pruning of each branch |
| Interrupts.MemoryInterruptRequestRepository.ListPending | src/opencode_a2a/server/state_store.py:517-534 | prunes, then lists the live matching bindings in order |
| Interrupts.DatabaseInterruptRequestRepository.Remember | src/opencode_a2a/server/state_store.py:612-646 | prunes, then writes a live row |
| Interrupts.DatabaseInterruptRequestRepository.Resolve | src/opencode_a2a/server/state_store.py:648-687 | active with the binding, expired (writing the tombstone on first sight), or missing |
| Interrupts.DatabaseInterruptRequestRepository.ListPending | src/opencode_a2a/server/state_store.py:696-738 | prunes tombstones, then lists the live matching rows in order |
| RateLimiter.SlidingWindowRateLimiter.CheckAndRecord | src/opencode_a2a/server/runtime_limits.py:95-105 | one check with its pruning, recording and eviction |
| RateLimiter.SlidingWindowRateLimiter.RetryDelay | src/opencode_a2a/server/runtime_limits.py:107-116 | the delay hint, pruning on the way |
| TtlCache.Cache.Get | src/opencode_a2a/execution/stream_state.py:201-214 | a hit, a miss that drops an expired entry, and the optional renewal |
| TtlCache.Cache.Set | src/opencode_a2a/execution/stream_state.py:216-222 | stores with a new expiry, then evicts; does nothing when the cache is disabled |
| TtlCache.Cache.EvictIfNeeded | src/opencode_a2a/execution/stream_state.py:227-238 | expired entries first, then the first to expire, stable in insertion order |
| SessionClaims.RefusedIffTaken | src/opencode_a2a/execution/session_manager.py:150-177 | claims and finalisations are refused exactly because somebody else owns the session or has a running claim on it |
| SessionClaims.ClaimEndsWithItsLifetime | src/opencode_a2a/execution/session_manager.py:150-177 | and it stands no longer: with nobody else in the way others are let in exactly from its expiry on |
| StreamParts.EventTexts | src/opencode_a2a/execution/stream_runtime.py:299-366 | the chunks of an event carry exactly what it adds to the part's buffer, if and only if the event is not a rewriting snapshot |
| StreamParts.ChunksSpellBuffer | src/opencode_a2a/execution/stream_runtime.py:299-366 | while snapshots only grow, the chunk texts of a part concatenate to what its buffer gained |
| StreamTools.ToolArtifactEndsWithLastPayload | src/opencode_a2a/execution/stream_runtime.py:368-402 | an artifact without text deltas ends, at the client, with the payload of the last tool chunk |

## Left out

- Memory session repository: its owners and bindings live in separate caches with expiry, so the stable-owner results are stated for the database repository only.
- Context and ownership locks are total maps that are free or held by a commit; the weak references that the source keeps locks in appear only as the step in `SessionLocks` that forgets a lock nobody refers to.
- Claim rows without an expiry time, which only an old schema could hold.
- StreamRuntime.Consume: does not model upstream errors; an external stop ends the arriving events early, and a connection fails between events.
- The final snapshot runs after the consumer has stopped; a consumer that is still running beside it and failed enqueues are not modelled.
- Token usage, upstream errors, metrics and logging in the streaming loop, and the extraction of fields from raw events.
- Part states and stored artifacts are values, so aliasing between them is not captured; the content of a data part is its rendered JSON text.
- SQL, JSON and protobuf encodings: tables are maps with atomic transactions, request details are the text that the database stores, and its collation is code-point order.
- OutputNegotiation.NormalizeAcceptedOutputModes: folds the case of ASCII letters only, which media types are made of, and takes the listed values, not the configuration object or other source they are an attribute of.
- OutputNegotiation.NormalizeMeans: lower case means ASCII letters, as above.
- Errors raised by the inner task store, and the versioned store wrapper, whose annotation and compaction are the same.
- URL normalisation, network policy and credentials in `borrow_client`, and a `close_all` that is cut between two closes.
- Cache entries with equal last use: the model lets them be trimmed in any order, which covers the source's stable sort.
- The rate limiter and polling policy constructors' error messages: settings that they reject are outside the `Config` type, or answered with `Refused`.
- RateLimiter.AdmitsIffWindowHasRoom: speaks of a stretch in which the key is not evicted, because eviction forgets a key's history by design.
- TtlCacheTheorems.HitIffLatest: speaks of a key that was not crowded out; `CrowdedOnlyWhenFull` says when that happens.
- Whether polling is enabled and whether the last event of a send asks for it: single-branch checks.
- Floating-point rounding of clocks and intervals.
- `apply_stream_budget`, response builders, HTTP, authentication, agent card, redaction, sandbox paths, migrations and configuration: plumbing or single-branch code that would only add easy members.
