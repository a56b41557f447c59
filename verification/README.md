# PlayerTrace in Dafny

A model of the PlayerTrace telemetry pipeline and proofs about it, for every interleaving of
its threads, with storage and sink faults, crashes at any step and any number of restarts.
`dafny verify dfyconfig.toml` checks the whole project.

## How the program is modelled

**The pipeline is a system of steps** (`Pipeline.dfy`). The threads are the producers, which the
admission lock serializes, one consent caller, which the consent lock serializes, and the worker.
A step is one access to shared state or one critical section of the store lock; between any two
steps every other thread may run and the process may die. `Next(s, step)` is the state after a
step; a step that is not enabled changes nothing, so every sequence of steps is a run. A state is
`Reachable` if some run from an empty database goes to it, and `Leads(s, t)` says that some run goes
from `s` to `t`; the main results are about every reachable state. Faults, timeouts and the sink's
verdicts are parameters of the steps. The worker has 38 program points, from the latch of a flush
request in `run` through `process_incoming`, `deliver_all`, `purge_store` and the drain loop to the
worker's exit or death.

`Run`, `Log` and `Fate` are history that no thread reads: what was admitted, in which order, when
consent was last revoked, which events were stored, written, acknowledged, dropped or lost. An
event's identifier is a fresh number, the event's position in the admission log, so that order over
restarts is admission order and not the order of raw ordinals, which start again at 1 over an empty
store. Session markers are told from user events by their kind, not by their name.

**The objects that change in place are classes**, each proved against the functions the step system
uses: `EventQueue.Queue` and `EventQueue.Counter`, `SessionManager.Manager`, `EventStore.Store`
(transactions), `PassResults.Results` (the flush table) and `FileSink.Sink` over `FileSink.Stream`.
The two scanners and the UTF-8 validator are methods with the loops of the program.

**Reading guide.** `PipelineOrder` keeps rows, retry buffer, the worker's hands and the queue in one
line. `PipelineConsent` is the generation and consent invariant, `PipelinePrivacy` what revoking
guarantees. `PipelineLedger` gives every admitted event exactly one fate. `PipelineCapacity` and
`PipelineConservation` count, `PipelineFirstGrant` says exactly when the counter loses track without a
revocation, `PipelineHeldLimit` what can be held at all, and `PipelineDelivered` what is still counted
as delivered after a purge. `PipelineTokens` and `PipelineFlush` are the flush pass: whose answer a
token gets, and what Ok means. `PipelineDrain` (steps of the worker with consent granted),
`PipelineDrainSteps` (all threads), `PipelineDrainOff` (without consent) and `PipelineDrainRuns`
(infinite runs) say when its uncapped loop ends, `PipelineDrainStarved` that staying in it takes
admissions for ever, and `PipelineSpin` shows a run that does.
`PipelineHandover` says exactly when a revoked batch is still written. `PipelineSessions` and
`PipelineReplacement` are sessions. `PipelineWitness` and `PipelineOverfull` exhibit runs in which a
stronger claim would be false, with `PipelineSingle` to follow a single event.

## Where the code and its claims differ

- docs/privacy.md:104-107 speaks of one sink write in flight. A batch may be fetched before the
  flip, or even after it if consent was read just before, and be handed to the sink after the
  revocation and a new grant have both returned Ok (`StaleWriteAfterNewConsent`). That happens in
  some continuation exactly if, at the flip, the worker is past its consent check and holds such a
  batch or is about to fetch one (`StaleWriteIffCommitted`), and then with one batch at most
  (`AtMostOneStaleBatch`).
- src/client.cpp:159-166 calls a branch unreachable. It is reached when the worker dies between the
  two markers, and only then (`DeathBetweenMarkers`, `StartSessionIsAtomic`).
- src/worker.cpp:293-318 intends a refusal for every token no pass reached. An exit that refuses more
  than 256 tokens forgets the oldest refusals, which then report Internal (`NeverRunTokens`,
  `RefusalForgotten`).
- src/worker.cpp:203-224 loops until nothing at or below the barrier is left. Where only the count of
  rows fails and a producer keeps sending, a fair run can stay in the loop for ever
  (`CountFailureSpins`). There is no other way: a fair run that never leaves the loop has nothing at
  or below the barrier left from some point on, takes count after count, all of which fail
  (`StuckMeansCountsFail`, `StuckMeansCountsRecur`), and admits event after event
  (`StuckMeansAdmissionsRecur`). If counts succeed from some point on, or nothing is admitted from
  some point on, the loop is left (`DrainTerminates`, `QuietRunsLeave`).
- src/client.cpp:584-627 keeps pending events within max_pending_events. A purge that began without
  consent resets the counter even if the first grant, and admissions under it, came before the reset.
  Without a revocation the counter comes to miss an event exactly if the first grant falls into a
  purge of the worker's while events can be admitted (`CounterMissesIffPurging`); otherwise it is
  exact and the limit is kept (`CounterIsExact`, `LimitKeptAfterGrant`). For every configuration the
  limit is then exceeded by as much of it as the queue takes (`LimitExceeded`), and never by more
  (`Conservation`). Through any number of revocations, what is held stays within the limit and
  twice a queue and a batch (`HeldIsLimited`).
- src/worker.cpp:502-508 does not count as delivered what a revocation has purged. An event is
  nevertheless counted after the purge has committed (`CountedAfterPurge`), exactly if the worker had
  then acknowledged a batch and not yet settled for it (`CountsLateIffUnsettled`). That batch is
  counted once, and every other increase is an acknowledgment of an event admitted later
  (`LateCountsAreOneBatch`, `DeliveredAfterPurge`).
- src/file_sink.cpp:313-317 creates the file when opening it for update fails. If the file exists
  nevertheless, what it held is erased (`CreatingErases`, and exactly then, `OpeningKeeps`); otherwise
  acknowledged lines stay for ever (`AcknowledgedForever`).
- docs/reliability.md:57 says that a failed batch returns to the front of the queue; the code keeps
  it in a retry buffer ahead of the queue, and so does the model.

## Model

| member | source | states |
|---|---|---|
| `PipelineOrder.AcknowledgedInAdmissionOrder` | src/worker.cpp:145-169 | over any run with faults, revocations, crashes and restarts, acknowledgments come in admission order and at most once each, every deliverable event still held is younger, and what is held is held in admission order |
| `PipelineOrder.OrderAlways` | src/worker.cpp:366-374 | the line rows, retry buffer, hands, queue is strictly ascending in every reachable state, and each held event is the one that was admitted |
| `PipelineOrder.OrderStep` | src/worker.cpp:171-322 | every step of every thread keeps that line |
| `PipelineOrder.OrderStored` | src/worker.cpp:425-456 | the insert moves the kept events behind all stored rows and nothing is ignored |
| `PipelineOrder.AckAllOrNone` | src/sqlite_store.cpp:1110-1127 | an acknowledgment removes the whole fetched batch, or finds the store emptied by a purge |
| `PipelineOrder.FetchOldest` | src/sqlite_store.cpp:925-1002 | a fetch returns the usable part of the oldest rows, and a committed quarantine removes exactly the unusable ones among them |
| `PipelineOrder.LineRestamped` | src/client.cpp:931-942 | rows recovered at opening stay before everything admitted later |
| `PipelineConsent.ConsentAlways` | src/client.cpp:375-418 | the consent invariant: generations, owed purge, marker, what the worker's last reading still guarantees, in every reachable state |
| `PipelineConsent.ConsentStep` | src/worker.cpp:379-445 | every step of every thread keeps the consent invariant |
| `PipelineConsent.ConsentStored` | src/worker.cpp:425-438 | an insert that passed the boundary check stores only current events, or a purge is still ahead |
| `PipelineConsent.ConsentRevoked` | src/client.cpp:396-401 | the flip keeps the consent invariant, with everything admitted so far now condemned by it |
| `PipelineConsent.ConsentMarked` | src/client.cpp:470-486 | committing the marker outside the store lock keeps the consent invariant |
| `PipelineConsent.ConsentCallerPurged` | src/client.cpp:488-509 | the caller's purge, which empties the store and clears the marker, keeps the consent invariant |
| `PipelineConsent.ConsentOpenedEmpty` | src/client.cpp:903-922 | an owed purge, or an opening without consent, is resolved before the run starts |
| `PipelineConsent.ConsentOpenedGranted` | src/client.cpp:924-942 | an opening with consent and without a marker recovers only rows that no revocation has marked |
| `PipelineConsent.AllCondemned` | src/client.cpp:396-415 | without consent every held event was admitted before the latest revocation |
| `PipelinePrivacy.StoredEventsAreCurrent` | src/worker.cpp:425-438 | with consent granted every stored row is of the current generation; an older row, or any row without consent, means that a purge is owed |
| `PipelinePrivacy.RevocationIsFinal` | src/client.cpp:470-509 | once set_consent's purge has committed, nothing admitted before is ever stored or acknowledged again, through re-grants, crashes and restarts |
| `PipelinePrivacy.AckedAfter` | src/worker.cpp:505-528 | everything acknowledged from now on was admitted after the last completed purge |
| `PipelinePrivacy.MarkerSurvives` | src/client.cpp:903-922 | in every later run no event stored before a committed marker can be fetched |
| `PipelinePrivacy.OnlyRevokedAreDropped` | src/worker.cpp:387-406 | an event is discarded or purged for consent only if a revocation, or an opening without consent, came after its admission |
| `PipelinePrivacy.AtMostOneStaleBatch` | src/worker.cpp:459-503 | after the flip, at most one batch with an earlier event is in or enters a sink write, for every continuation, crashes included once the purge has committed |
| `PipelinePrivacy.PotentialStep` | src/worker.cpp:462-491 | handing over such a batch uses up the only chance to do so |
| `PipelinePrivacy.StaleWritesAfterRevoking` | src/worker.cpp:459-491 | after the flip no more such batches are handed over than the worker is committed to at the flip |
| `PipelinePrivacy.FaultsOnlyShorten` | src/sqlite_store.cpp:925-1002 | a fetch that meets a fault returns no stale event that a fetch without one would not |
| `PipelineHandover.StaleWriteIffCommitted` | src/worker.cpp:459-491 | some continuation without a crash hands the sink an event admitted before the flip if and only if, at the flip, the worker is past its consent check and holds such a batch or is about to fetch one |
| `PipelineHandover.Regranted` | src/client.cpp:396-509 | from any point of a revocation, its remaining steps and a new grant can complete while the worker stands still |
| `PipelineWitness.StaleWriteAfterNewConsent` | src/worker.cpp:470-491 | that one batch can be handed over after revocation and a new grant have both completed |
| `PipelineLedger.EveryEventIsAccountedFor` | src/worker.cpp:366-531 | every admitted event is held, or is exactly one of acknowledged, invalid, dropped for consent, lost in memory at a death |
| `PipelineLedger.AtLeastOnce` | src/sqlite_store.cpp:778-858 | a committed row is still stored, or was acknowledged after a sink write containing it returned Ok, or cannot be parsed and was quarantined, or was purged for consent; it is never lost |
| `PipelineLedger.RowsLeaveForAReason` | src/worker.cpp:459-549 | in every step of every run a row leaves the store only by an acknowledgment after a sink write containing it returned Ok, by the quarantine of a row that cannot be parsed, or by a purge for consent, and that is its first and only fate |
| `PipelineLedger.AccountsAlways` | src/worker.cpp:366-531 | the ledger in every reachable state |
| `PipelineLedger.AccountsQuarantined` | src/sqlite_store.cpp:971-993 | a quarantine moves exactly the unparseable rows from held to invalid |
| `PipelineLedger.AccountsCrashed` | src/worker.cpp:171-322 | a crash loses what was in memory and no stored row |
| `PipelineCapacity.CapacityIsNeverLeaked` | src/internal/pipeline.hpp:70-85 | without worker death, and unless a purge is between commit and reset, `outstanding` is at most the number of events that occupy capacity; between operations, at most the number held |
| `PipelineCapacity.CapacityAlways` | src/worker.cpp:533-549 | the same bound as an invariant of every reachable state, under revoke and re-grant races |
| `PipelineCapacity.ReleasedMoving` | src/worker.cpp:387-410 | every worker step that moves events releases exactly what it drops, and traces the rest |
| `PipelineCapacity.BalancedProducer` | src/client.cpp:584-627 | admission counts an event before it publishes it, and takes the count back if it cannot |
| `PipelineConservation.Conservation` | src/client.cpp:584-627 | in a run without revocation or worker death, under any faults: recovered + accepted = queued + in hand + retry + stored + delivered + dropped_invalid, and held never exceeds max(max_pending_events + min(max_pending_events, max_queue_size), recovered) |
| `PipelineConservation.CounterIsExact` | src/internal/pipeline.hpp:70-85 | in such a run, unless its first grant fell into a purge of the worker's, `outstanding` is exactly what occupies capacity, and held never exceeds max(max_pending_events, recovered) |
| `PipelineConservation.ConservedAlways` | src/worker.cpp:473-529 | both as an invariant of every reachable state |
| `PipelineConservation.ExactReset` | src/worker.cpp:533-549 | the reset after a purge forgets at most what the queue took while the purge was under way |
| `PipelineFirstGrant.CounterMissesIffPurging` | src/worker.cpp:533-549 | after the first grant some continuation without crash, death or revocation has a counter that misses an event if and only if, at the grant, the worker is inside a purge and the client is running |
| `PipelineFirstGrant.LimitKeptAfterGrant` | src/client.cpp:375-395 | otherwise the counter stays exact and held never exceeds max(max_pending_events, recovered) in every such continuation |
| `PipelineFirstGrant.ExactnessLasts` | src/internal/pipeline.hpp:70-85 | with consent granted and no purge under way an exact counter stays exact, and the limit is kept |
| `PipelineWitness.CounterMissesOne` | src/worker.cpp:533-549 | an event admitted under the first grant, before the reset of a purge that began without consent, is held and not counted |
| `PipelineOverfull.LimitExceeded` | src/client.cpp:584-627 | for every configuration a run without revocation or death holds max_pending_events + min(max_pending_events, max_queue_size) events, so the bound is reached |
| `PipelineOverfull.MakesRoom` | src/worker.cpp:447-455 | with inserts failing the worker empties a full queue into its retry buffer and releases nothing |
| `PipelineHeldLimit.HeldIsLimited` | src/client.cpp:396-418 | through any revocations, grants and purges, while the worker lives, held never exceeds max(max_pending_events, recovered) + 2 * (max_queue_size + batch_size) |
| `PipelineHeldLimit.HeldStep` | src/worker.cpp:387-456 | every step keeps the invariant behind it: of the events since the latest revocation the counter misses at most a queue and a batch |
| `PipelineHeldLimit.StaleFront` | src/worker.cpp:387-399 | when an outdated event is dropped, only a batch and the queue can hold current ones |
| `PipelineDelivered.CountsLateIffUnsettled` | src/worker.cpp:502-529 | once a revocation's purge has committed, some continuation without a crash counts an event admitted before it as delivered if and only if the worker has acknowledged a batch and not yet settled for it |
| `PipelineDelivered.LateCountsAreOneBatch` | src/worker.cpp:510-529 | in every continuation the earlier events so counted are that whole batch, once, or none |
| `PipelineDelivered.DeliveredAfterPurge` | src/worker.cpp:510-529 | while process and worker live, `delivered` grows by that batch and by acknowledgments of events admitted after the purge, and by nothing else |
| `PipelineDelivered.DeliveredOnlyBySettling` | src/worker.cpp:527-527 | the counter grows only when the worker settles for an acknowledged batch, by the size of that batch |
| `PipelineWitness.CountedAfterPurge` | src/worker.cpp:510-529 | a reachable state in which a purged event is counted as delivered by the next step |
| `PipelineTokens.TokensAnswerForThemselves` | src/worker.cpp:50-85 | a lookup returns what the pass covering that token recorded, the newest 256 answers are there, older ones report Internal, and Ok means that a pass ran for this token and recorded Ok |
| `PipelineTokens.NeverRunTokens` | src/worker.cpp:293-318 | after the worker's exit a token no pass ran for reports AlreadyShutdown exactly if it is within the newest 256 |
| `PipelineTokens.RecordIsFinal` | src/worker.cpp:242-256 | no later pass, pruning or exit rewrites an answer |
| `PipelineTokens.TokensAlways` | src/worker.cpp:28-40 | tokens, passes and the table agree in every reachable state |
| `PipelineTokens.RetainMore` | src/worker.cpp:42-48 | pruning after each pass leaves what pruning the whole record once would leave |
| `PipelineWitness.RefusalForgotten` | src/worker.cpp:293-318 | with 257 unserved tokens at exit the first one is answered with Internal |
| `PipelineFlush.FlushOkMeansDrained` | src/worker.cpp:232-241 | an Ok answer means that no event with an ordinal at or below the one captured at submission is in the queue, the retry buffer, the worker's hands or the store |
| `PipelineFlush.FlushAlways` | src/worker.cpp:185-258 | barriers, the progress of the check and the meaning of recorded Oks, in every reachable state |
| `PipelineFlush.CheckedStore` | src/worker.cpp:324-364 | the three tests in sequence establish that nothing remains, although they look at different moments |
| `PipelineFlush.OkRecorded` | src/worker.cpp:242-256 | an Ok is recorded only for tokens whose barrier the pass has drained |
| `PipelineFlush.PendAbove` | src/client.cpp:245-247 | an event that is still to be published is above every barrier |
| `PipelineDrainRuns.StuckMeansCountsFail` | src/worker.cpp:203-224 | a fair infinite run that never leaves the uncapped drain loop, with consent left alone and storable payloads, whatever producers send and whatever else fails, has nothing at or below the barrier left from some point on, and every count taken from there on fails |
| `PipelineDrainRuns.StuckMeansCountsRecur` | src/worker.cpp:324-364 | such a run takes a failing count again and again |
| `PipelineDrainStarved.StuckMeansAdmissionsRecur` | src/worker.cpp:213-223 | such a run admits an event again and again |
| `PipelineDrainStarved.QuietRunsLeave` | src/worker.cpp:213-223 | every fair infinite run in which nothing is admitted from some point on leaves the loop, whatever the counts say |
| `PipelineDrainStarved.WorkLessens` | src/worker.cpp:203-224 | with nothing admitted every turn of the worker leaves the loop or lowers what is held or the measure |
| `PipelineDrainRuns.DrainTerminates` | src/worker.cpp:203-224 | every fair infinite run from the loop head whose counts succeed from some point on leaves the loop, with or without consent and whatever happened before |
| `PipelineDrainRuns.RunsOut` | src/worker.cpp:203-224 | a fair run cannot lower the measure for ever |
| `PipelineDrainRuns.OffLeaves` | src/worker.cpp:220-223 | without consent the loop is left, counts or not |
| `PipelineDrainSteps.WorkAdvances` | src/worker.cpp:203-224 | every turn of the worker leaves the loop or lowers a lexicographic measure led by the outdated events and those at or below the barrier, unless it acknowledges events with nothing left; and once nothing is left it comes nearer to the next count |
| `PipelineDrainSteps.OtherDrains` | src/client.cpp:584-627 | the other threads, producers included, leave both measures alone |
| `PipelineDrainSteps.WorkWithin` | src/worker.cpp:387-410 | in the loop the worker never adds to what the counter misses |
| `PipelineDrain.AckCounts` | src/worker.cpp:505-528 | acknowledging the oldest rows takes one at or below the barrier, if any remain |
| `PipelineDrain.CountEnds` | src/worker.cpp:345-363 | a count that succeeds with nothing left ends the loop |
| `PipelineDrainOff.OffWork` | src/worker.cpp:213-223 | without consent every turn brings the worker nearer to the break at the end of the iteration |
| `PipelineSpin.CountFailureSpins` | src/worker.cpp:345-355 | there is a fair infinite run that never leaves the loop and never answers the flush, in which consent is left alone, every payload is storable, every operation of the worker other than the count succeeds, and every count fails |
| `PipelineSpin.TurnSpins` | src/worker.cpp:203-224 | each turn of that run leads to a state from which it goes on |
| `PipelineSessions.SessionsAreWellFormed` | src/client.cpp:597-624 | each session's admitted events are numbered 0..n-1 in ordinal order, begin with its start marker, and none follows its end marker |
| `PipelineSessions.EndedStaysEnded` | src/client.cpp:158-170 | a session whose end marker was admitted is never active again |
| `PipelineSessions.SessionsAlways` | src/session_manager.cpp:10-93 | the session counter, the log and the pending call agree in every reachable state |
| `PipelineSessions.SessionsReplaced` | src/client.cpp:147-158 | beginning the new session behind the old one's end marker keeps the session invariant |
| `PipelineSessions.SessionsRefused` | src/client.cpp:150-170 | undoing a refused marker keeps the session invariant |
| `PipelineReplacement.ReplacementIsAtomic` | src/client.cpp:129-173 | once both places are reserved, only the worker's death can refuse a marker; a refusal of the first restores the old session and leaves the log alone |
| `PipelineReplacement.StartSessionIsAtomic` | src/client.cpp:109-173 | over a whole call on a live session, from entry to return and with every other thread in between: both markers are admitted with consecutive ordinals and nothing between them, or log and session are as they were, or the worker has died, only the end marker is admitted and no session is active |
| `PipelineReplacement.MarkersAreConsecutive` | src/client.cpp:147-158 | the two markers of a replacement carry consecutive ordinals |
| `PipelineReplacement.PushNeverFails` | src/client.cpp:617-625 | an event that was counted always finds room in the queue |
| `PipelineReplacement.ReplaceAlways` | src/client.cpp:550-564 | a reservation stays valid until both markers are admitted |
| `PipelineWitness.DeathBetweenMarkers` | src/client.cpp:159-166 | the branch called unreachable is reached if the worker dies between the markers |
| `EventQueue.Queue.constructor` | src/internal/pipeline.hpp:41-46 | a new queue is empty |
| `EventQueue.Queue.TryPush` | src/event_queue.cpp:23-33 | appends unless full, and then refuses the newest; a queue that is ready stays so |
| `EventQueue.Queue.PopWait` | src/event_queue.cpp:43-61 | waits while other threads push and kick, until a batch is there or the queue is kicked or the timeout fires, not at all if it was ready, and never past the first moment it is; then takes the oldest `max` events in order |
| `EventQueue.Queue.FrontOrdinal` | src/event_queue.cpp:35-41 | the smallest ordinal of a queue in order |
| `EventQueue.Queue.HasRoomFor` | src/event_queue.cpp:16-21 | true exactly if that many more fit |
| `EventQueue.Queue.Full` | src/event_queue.cpp:11-14 | true exactly at capacity |
| `EventQueue.Queue.Clear` | src/event_queue.cpp:71-76 | empties the queue and returns how many went |
| `EventQueue.Queue.Kick` | src/event_queue.cpp:63-69 | the queue is ready: the wait under way ends, or the next one does not begin |
| `EventQueue.Counter.ReleaseOutstanding` | src/internal/pipeline.hpp:75-84 | the compare-exchange loop subtracts from the value it finds in place, never below zero, whatever others store meanwhile |
| `SessionManager.Manager.Start` | src/session_manager.cpp:10-18 | a new session with number 0 next |
| `SessionManager.Manager.Next` | src/session_manager.cpp:47-57 | hands out consecutive numbers while active |
| `SessionManager.Manager.Undo` | src/session_manager.cpp:84-93 | gives back the last number, and only that |
| `SessionManager.Manager.Save` | src/session_manager.cpp:59-68 | the whole state |
| `SessionManager.Manager.Restore` | src/session_manager.cpp:70-77 | the whole state again |
| `SessionManager.Manager.End` | src/session_manager.cpp:20-30 | ends an active session and reports its duration |
| `SessionManager.Manager.Stop` | src/session_manager.cpp:79-82 | no session is active |
| `EventStore.Store.Insert` | src/sqlite_store.cpp:778-858 | all records or none; a stored identifier is ignored |
| `EventStore.Store.DeleteIds` | src/sqlite_store.cpp:1046-1108 | the named rows or none, and how many there were |
| `EventStore.Store.Acknowledge` | src/sqlite_store.cpp:1110-1127 | Ok exactly if every named row was removed; a committed deletion with missing rows reports an error |
| `EventStore.Store.Fetch` | src/sqlite_store.cpp:925-1044 | the oldest rows in ordinal order, with unusable ones removed in one transaction or not at all |
| `EventStore.Store.MarkRevocationPending` | src/sqlite_store.cpp:1129-1151 | commits the marker or changes nothing |
| `EventStore.Store.PurgeAndClearRevocation` | src/sqlite_store.cpp:1153-1188 | rows and marker go together or both stay |
| `EventStore.QuarantineCounts` | src/sqlite_store.cpp:971-993 | each unusable row that was seen is removed exactly once |
| `EventStore.AcknowledgeCounts` | src/sqlite_store.cpp:1085-1087 | the number of rows an acknowledgment removes is the number of batch events still stored, which is what the step system compares with the batch |
| `StoreSpec.OrderedAlready` | src/sqlite_store.cpp:935-936 | rows kept in order are fetched in the order they are stored |
| `StoreSpec.InsertFresh` | src/sqlite_store.cpp:791-794 | INSERT OR IGNORE ignores nothing when identifiers are new |
| `StoreSpec.CountUpToZero` | src/sqlite_store.cpp:905-923 | the count is zero exactly if no row is at or below the barrier |
| `StoreSpec.MaxOrdinalBounds` | src/sqlite_store.cpp:897-903 | MAX(ordinal) is the largest ordinal stored, 0 for none |
| `PassResults.Results.RecordOutcome` | src/worker.cpp:242-256 | one entry per covered token, then pruning, is the specified table |
| `PassResults.Results.Exit` | src/worker.cpp:293-318 | every unserved token is refused |
| `PassResults.Results.Prune` | src/worker.cpp:42-48 | erasing the smallest key until 256 remain keeps the newest 256 |
| `PassResults.Results.Result` | src/worker.cpp:50-85 | the lookup by exact key and its two reasons for no record |
| `PassResults.Results.WaitFlush` | src/worker.cpp:87-110 | a waiter is answered exactly if the pass is over or the worker gone, with the worker's death outranking the record, and pruning again changes nothing |
| `PassResults.Results.SubmitFlush` | src/worker.cpp:37-39 | tokens are consecutive |
| `FileSpec.AcknowledgedForever` | src/file_sink.cpp:199-256 | after an Ok write the whole file is a prefix of the file through all later writes, faults, deaths at any byte and reopenings that do not recreate an existing file, and the write appended one line per event |
| `FileSpec.FailedForGood` | src/file_sink.cpp:301-307 | a permanently failed sink never changes the file again and answers no write with Ok |
| `FileSpec.RepairKeeps` | src/file_sink.cpp:328-356 | repair never cuts below a prefix that ends in a newline |
| `FileSpec.OpeningKeeps` | src/file_sink.cpp:315-325 | opening keeps a complete prefix exactly if the file was open, or was not created afresh, or there was nothing to keep |
| `FileSink.FirstWrite` | src/file_sink.cpp:199-325 | the first write over any content is Ok exactly if no call on its way fails, and leaves the repaired content followed by the batch or, if the file cannot be opened for update, the batch alone |
| `FileSink.CreatingErases` | src/file_sink.cpp:313-317 | a sink over a file with one line, opening for update failing and creating succeeding, answers Ok and the line is gone |
| `FileSink.FindLastCompleteLineEnd` | src/file_sink.cpp:151-179 | the backward block scan finds one past the last newline, or 0, for every content and block size, and fails exactly if one of the blocks up to that newline cannot be read |
| `FileSink.Sink.Write` | src/file_sink.cpp:199-256 | a batch is appended whole, or the file is as it was once open and repaired, or the sink fails for good; Ok exactly if no call on its way fails; created afresh exactly if opening for update fails and creating does not; every content the file passes through begins with the repaired file |
| `FileSink.Sink.Append` | src/file_sink.cpp:212-255 | Ok exactly if no call failed |
| `FileSink.Sink.EnsureOpen` | src/file_sink.cpp:301-325 | opens and repairs, or leaves everything alone, or fails for good; Ok exactly if no call fails |
| `FileSink.Sink.RepairTail` | src/file_sink.cpp:328-356 | cuts to the last complete line, or fails for good exactly if a call it needs fails |
| `FileSink.Sink.RollBack` | src/file_sink.cpp:361-386 | back to the given offset, or failed for good exactly if truncation, sync or seek fails |
| `FileSink.Sink.FailHard` | src/file_sink.cpp:389-404 | closed and failed, the file unchanged |
| `FileSink.Sink.PutLines` | src/file_sink.cpp:220-238 | the lines in order, or a failure at the first line that is not taken whole |
| `FileSink.Sink.FlushNow` | src/file_sink.cpp:258-283 | changes nothing between calls, and reports flush and sync failures |
| `FileSink.Sink.RequestCancel` | src/file_sink.cpp:197-197 | later writes are refused |
| `Utf8.IsValidUtf8` | src/event_validator.cpp:25-77 | accepts a byte string exactly if it is the encoding of some sequence of Unicode scalar values |
| `Utf8.EncodingIsUnique` | src/event_validator.cpp:25-77 | that sequence is unique |
| `Utf8.WellFormedJoin` | src/event_validator.cpp:25-77 | acceptance is closed under concatenation |
| `Utf8.EncodingStarts` | src/event_validator.cpp:36-60 | every encoded scalar value is accepted and read back |
| `Utf8.StartsWithEncoding` | src/event_validator.cpp:62-72 | what passes the checks is the shortest encoding of a scalar value |
| `SqlNoise.StripSqlNoise` | src/sqlite_store.cpp:93-142 | the scanner computes `Strip` |
| `SqlNoise.StripIsBlank` | src/sqlite_store.cpp:93-142 | every well-formed token stream is mapped to its code characters with one space per comment or quoted region |
| `SqlNoise.EveryTextIsAStream` | src/sqlite_store.cpp:89-92 | every text, unterminated regions included, is such a stream |
| `SqlNoise.StripIsIdempotent` | src/sqlite_store.cpp:93-142 | stripping twice is stripping once |
| `SqlNoise.BodiesDoNotShow` | src/sqlite_store.cpp:80-88 | what comments and quoted regions contain does not show in the result |
| `SqlChecks.CheckExpressions` | src/sqlite_store.cpp:164-208 | the scanner returns the collapsed bodies of the specified constraints, in order |
| `SqlChecks.ExpressionsAreBodies` | src/sqlite_store.cpp:158-163 | each is the balanced body of a whole-token CHECK, and every such CHECK outside another one's body is found |
| `SqlChecks.SpansAreSeparate` | src/sqlite_store.cpp:206-206 | the constraints found do not overlap and come in order |
| `SqlChecks.ValidateEventsCheck` | src/sqlite_store.cpp:441-457 | the verdict is whether the stripped text carries the required constraint |
| `SqlChecks.VerdictIgnoresBodies` | src/sqlite_store.cpp:441-457 | comments and literals cannot change the verdict |
| `SqlChecks.ConstraintIsCode` | src/sqlite_store.cpp:83-87 | a constraint is only found where CHECK stands in the code itself |

## Left out

- src/worker.cpp and src/client.cpp in place: the pipeline is a step system over values, because its guarantees are about interleavings; there is no class for the worker or the client, and locks are program points that other threads wait for.
- Atomicity: admission reads its conditions in one step, and a consent check with the counter it guards in one; other threads can only lower the values read meanwhile.
- 64-bit wrap-around of ordinals, generations, tokens and counters.
- A ROLLBACK that fails, and an exception thrown inside a store transaction.
- The rejection counters, the error callback and the log.
- Clocks and durations of waits: in the step system a wait ends whenever a step is taken, and PopWait's timeout fires when nothing more arrives.
- Shutdown's own time budget; only its effect on admission and on the worker's stop flag is modelled, and nothing is claimed about what shutdown has persisted.
- SQLite, its pragmas, and the checks of tables and indexes other than the CHECK constraint.
- JSON: whether a payload can be serialized, and whether a stored row can be parsed, are properties of the payload.
- validate_config, identifiers, names, property validation, the property filter and the path registry: each is settled by reading one branch.
- Power loss: a death keeps what the operating system holds; what fsync adds is not modelled.
- FileSink.Stream: assumes that fflush leaves the buffer empty, that ftruncate cuts exactly or fails, and that bytes reach the file in order.
- Utf8.IsValidUtf8: bit masks and shifts are written as division and remainder on numbers.
- PipelineDrainRuns.DrainTerminates: asks that what is held and what is tracked can be serialized and parsed; events that cannot be stored are dropped and so can keep arriving without using up capacity, and a row that can neither be parsed nor quarantined stays.
