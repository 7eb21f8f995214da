# flops-agent, verified

A Dafny model of the parts of the flops-agent runtime that carry guarantees: the run log and its subscribers, the
durable run store, the runner with its history, database and crash resume, the active-run marker, stream assembly
with retry, remote tool dispatch, tool-argument parsing, and context compaction with read-time projection.
`dafny verify dfyconfig.toml` checks all of it.

How the source's form is kept: objects whose methods change their fields are classes (`Run`, `InMemoryRunStore`,
`Session`, `InMemoryDatabase`, `Runner`, `StreamAccumulator`, `InMemoryDispatchLedger`, `ExecutorLink`,
`InMemoryCompactionStore`, `MemoryInbox`), loops are loops, and each such method is proved against a function of its
inputs. What happens under interleaving, crashes or an unreliable network is a state machine over its steps, with
theorems over every run.

| file | what it holds |
|---|---|
| `RunLog`, `Execution`, `RunStore`, `StoreLockstep` | one run's log with its in-place snapshot slot, cursors, and the store that mirrors it |
| `HandOff` | emits, subscribers and finish under any interleaving |
| `Messages`, `Pairing`, `Session`, `Database` | the history message, when a history is a valid conversation, history edits, delta sync |
| `Runner`, `RunnerGuarantees`, `RunnerHistory`, `RunnerCases`, `Turn` | the step loop as a state machine with crashes and restarts, its theorems, what its history says and how its runs end, a run for each failing case, and the object whose methods make its steps |
| `LossyWrites` | delta sync when database writes fail |
| `ActiveMarker`, `SuspendedMarker`, `Inbox`, `Stream` | the session's two markers, out-of-turn messages, streaming with retry |
| `ToolArguments`, `ToolRepair`, `BareValues`, `ToolCalls`, `DispatchLink` | argument scanner and repair against the JSON grammar, tool-call round trip, remote dispatch |
| `Alignment`, `SplitSearch`, `Compaction` | split points, thresholds, planning, repair and the compaction store |
| `Trim`, `Projection`, `ProjectionDefaults`, `RegimeB`, `Reinjection` | trimming, what is sent to the model, one ruler for both, hard cap, re-injected results |

Where the code does not do what one would first say of it, the code is modelled as it is; one lemma says exactly when
it does, and another gives an input or a run that fails:

* a replayed delivery's cursor for an open slot is not safe: `RunLog.StableExactlyUpToLiveCursor`,
  `RunLog.ReplayedCursorLosesUpdate`;
* a subscriber joining mid-segment misses what the coalescer holds: `HandOff.JoinMissesExactlyWhatWasHeld`,
  `HandOff.HeldEventIsMissed`;
* a batch that brings two versions in a row of a snapshot it opens leaves the store stale: `StoreLockstep.OwnSlotRejectedIff`,
  `StoreLockstep.OwnSlotLeavesStoreStale`;
* a store that can overwrite but not be read starts a resumed run misaligned, against the docstring at
  `src/flops_agent/engine/execution.py:320`: `StoreLockstep.SeedAlignedIff`, `StoreLockstep.UnreadStoreIsCorrupted`;
* continuing a reply writes into a companion that follows it: `Session.ContinuationReachesReplyIff`,
  `Session.ContinuationIntoCompanion`;
* a suspend decided after execution truncates only in memory: `RunnerGuarantees.MemoryOnlyCutIsExactIff`,
  `RunnerCases.MemoryOnlyCutIsLost`; so does one cancelled inside its own write:
  `RunnerGuarantees.CancelledCutIsExactIff`, `RunnerCases.CancelledCutIsLost`; one decided by the gate truncates
  nothing: `Session.UncutSuspendLeavesTheRest`, `Session.GateSuspendLeavesTwo`;
* a suspend on a call that cannot be told from an earlier one of its batch leaves the wrong calls open:
  `Session.SuspendLeavesOneIff`, `Session.SameIdSuspendIsLost`;
* a batch aborted after its first result is persisted half-way and stuck: `RunnerGuarantees.AbortedBatchResumesIff`,
  `RunnerCases.AbortedBatchIsStuck`;
* a failed write after a continuation is never made up for once another message is stored behind it:
  `LossyWrites.NextPersistIsExactIff`, `LossyWrites.ContinuationIsBuried`;
* an answer's marker is deleted before its result is persisted, so a crash in between loses the interaction:
  `RunnerGuarantees.AnswerLostInWindow`, `RunnerCases.AnswerIsLost`; a crash before the first dispatch record is not
  resumable: `RunnerGuarantees.CrashIsResumableIff`, `RunnerCases.CrashBeforeFirstRecord`;
* the in-memory database's active-run marker is written without the session lock, so a settling run can erase a live
  run's marker: `ActiveMarker.UnlockedClearErasesIff`, `ActiveMarker.UnlockedStartLosesMarker`;
* another run's end can erase the marker of a suspended run that has not left the pool yet, against the docstring at
  `src/flops_agent/engine/runtime.py:727`: `SuspendedMarker.GuardErasesSuspendedIff`,
  `SuspendedMarker.QuickRunErasesMarker`;
* `ToolCallStarted` carries the first name fragment only: `Stream.AnnouncedNameIsFinalIff`,
  `Stream.SplitNameIsAnnouncedShort`;
* weighing knows no tool names and strips metadata, so exempt tools and padded metadata break the common ruler:
  `Projection.OneRulerIff`, `ProjectionDefaults.ExemptResultBreaksRuler`;
* the newest user message always keeps its floor, even past the hard cap: `Trim.FloorKeepsCapIff`,
  `Trim.FloorExceedsCap`;
* a notice is never trimmed, not even as the newest user message under the hard cap: `RegimeB.TailUnderHardCapIff`,
  `RegimeB.NoticeExceedsCap`;
* if the newest message alone exceeds the transcript cap nothing is cut: `Reinjection.TranscriptWithinCapIff`,
  `Reinjection.HeavyMessageIsNotCut`;
* a summary that ends inside a tool turn lets results be sent twice: `Reinjection.ResultSentTwiceIff`,
  `Reinjection.SplitTurnIsSentTwice`.

## Model

| member | source | states |
|---|---|---|
| RunLog.LiveCursorIsStable | src/flops_agent/engine/execution.py:433-449 | whatever is committed later, live cursors never decrease and the log below an issued live cursor never changes |
| RunLog.StableExactlyUpToLiveCursor | src/flops_agent/engine/execution.py:603-630 | a cursor is safe against all later commits iff it is at most the live cursor or overwriting is off, so index+1 of a replayed open slot is not |
| RunLog.ReplayedCursorLosesUpdate | src/flops_agent/engine/execution.py:621-626 | a client that reconnects behind a replayed open slot never sees the version that overwrites it |
| RunLog.AppendOnlyOnceDisabled | src/flops_agent/engine/execution.py:407-431 | once overwriting is off the log only ever grows |
| RunLog.BatchLeavesSurvivors | src/flops_agent/engine/execution.py:407-431 | a batch adds to the log exactly its writes, of versions of a snapshot in a row only the last, the first of them in place of a slot already open; a slot is open behind it iff its last write is a version of a snapshot |
| RunLog.ReconnectEqualsFullReplay | src/flops_agent/engine/execution.py:94-122 | replaying the later log from a live cursor gives the same client state as replaying all of it, when each snapshot subsumes the one it overwrites |
| Execution.Run.constructor | src/flops_agent/engine/execution.py:187-274 | a run starts on exactly what the store holds for its id, has a log there, and registering it twice keeps the stored metadata |
| Execution.Run.ApplyToLog | src/flops_agent/engine/execution.py:407-431 | writes a batch as specified and keeps an open slot last |
| Execution.Run.LiveCursor | src/flops_agent/engine/execution.py:433-449 | the length of the log or, while a slot is open, the index of its last entry |
| Execution.Run.PersistParts | src/flops_agent/engine/execution.py:451-479 | overwrites first, then one append; overwriting goes off for good iff an overwrite is rejected |
| Execution.Run.Emit | src/flops_agent/engine/execution.py:385-405 | a store in lockstep stays so, with overwriting on, iff what the coalescer hands over has no two versions in a row of a snapshot it opens |
| RunStore.InMemoryRunStore.CreateRun | src/flops_agent/seams/run_store.py:135-142 | idempotent: a known run keeps status, log and resume count |
| RunStore.InMemoryRunStore.ReplaceChunk | src/flops_agent/seams/run_store.py:156-162 | replaces that one segment or, out of range, rejects and changes nothing |
| RunStore.InMemoryRunStore.RecordDispatch | src/flops_agent/seams/run_store.py:203-206 | merges into that call's record and touches no other run or call |
| StoreLockstep.StoreLockstep | src/flops_agent/engine/execution.py:451-479 | at every moment of a run with successful store calls, persisting the queued batches makes the store equal to the log |
| StoreLockstep.OwnSlotRejectedIff | src/flops_agent/engine/execution.py:457-477 | on a store in lockstep the overwrites of a batch of writes are all accepted, and the store follows the log, iff the batch does not hold two versions in a row of a snapshot it opens |
| StoreLockstep.OwnSlotIff | src/flops_agent/engine/execution.py:407-431 | an overwrite is recorded for an entry not stored yet iff the writes handed over hold two versions in a row of a snapshot they open |
| StoreLockstep.OwnSlotLeavesStoreStale | src/flops_agent/engine/execution.py:457-477 | such a batch leaves the store with the first version of the snapshot |
| StoreLockstep.LastGrantedIsStored | src/flops_agent/engine/execution.py:457-479 | under any refusals each entry of the store is the last version granted for it or what it was, and a failed append adds nothing |
| StoreLockstep.PersistAcceptedIff | src/flops_agent/engine/execution.py:457-479 | overwriting stays on iff every overwrite was granted and in range, whatever becomes of the append |
| StoreLockstep.OverwritesNeverHitAnotherSegment | src/flops_agent/seams/run_store.py:156-162 | on a seeded run, under any pattern of failed appends and refused overwrites, an accepted overwrite only ever hits an older version of the same snapshot |
| StoreLockstep.SeedAlignedIff | src/flops_agent/engine/execution.py:304-350 | seeding leaves log and store aligned or overwriting off iff the store can be read, is empty, or cannot overwrite; from a readable store the log is all that is stored and overwriting is on iff the store can overwrite |
| StoreLockstep.UntrustedReadDisablesOverwrite | src/flops_agent/engine/execution.py:330-350 | reads that fail or disagree never leave overwriting on, and never anything in the log |
| StoreLockstep.UnreadStoreIsCorrupted | src/flops_agent/engine/execution.py:326-329 | a concrete run: a store without a length read loses a segment of an earlier process |
| HandOff.ExactHandOff | src/flops_agent/engine/execution.py:481-559 | for any coalescer, one that overwrites its slot included, and any interleaving, what a subscriber has received, queued and still in flight is exactly its replay, then every later event, then the sentinel, in order |
| HandOff.LiveCursorsStaySafe | src/flops_agent/engine/execution.py:433-449 | for any coalescer and interleaving, the log below the cursor of a live delivery never changes again |
| HandOff.CursorAtCommit | src/flops_agent/engine/execution.py:385-405 | in every run and for any coalescer each live event was delivered with the length the log had at its commit or, with a slot open, the index of its last entry; reconnecting right away replays at most one entry |
| HandOff.CursorsNeverDecrease | src/flops_agent/engine/execution.py:433-449 | cursors of live deliveries never go back, also not behind those of an earlier process |
| HandOff.CommittedAsFed | src/flops_agent/engine/execution.py:385-405 | for any coalescer and interleaving every event fed is committed once, in the order fed, or still waits |
| HandOff.OwedSinceJoining | src/flops_agent/engine/execution.py:621-630 | what a subscriber is owed is the log of the moment it subscribed, an open slot included, and, unless the run was done, every event committed since |
| HandOff.OwedArrives | src/flops_agent/engine/execution.py:631-647 | nothing gets stuck: from any state of any run the steps already queued and the subscriber's own bring it everything it is owed |
| HandOff.LeftForGood | src/flops_agent/engine/execution.py:645-647 | a subscriber that has left is never sent anything again |
| HandOff.ExactlyOnceHandOff | src/flops_agent/engine/execution.py:603-647 | with the passthrough coalescer, on a new run or on an earlier process's events, a subscriber from cursor c gets events[c..] once each, replay first, then live, sentinel last |
| HandOff.EveryLogHasAHistory | src/flops_agent/engine/execution.py:304-350 | a run may start on any stored log: some history of emits leads to it |
| HandOff.JoinMissesExactlyWhatWasHeld | src/flops_agent/engine/execution.py:621-626 | in every run of an appending, order-preserving coalescer a subscriber replaying from 0 misses exactly what was held when it joined |
| HandOff.HeldEventIsMissed | src/flops_agent/engine/execution.py:621-626 | a concrete run: of two events coalesced into one segment a subscriber that joined between them is sent only the second |
| HandOff.ReconnectRepeatsExactlyWhatWasHeld | src/flops_agent/engine/execution.py:390-403 | there, reconnecting with a live event's cursor leaves no gap and repeats exactly what was held after that event |
| Pairing.PairedIffInBlocks | src/flops_agent/engine/runner.py:315-392 | the message-by-message check accepts a history iff every request is followed by all its results in order and every result belongs to one |
| Pairing.OpenIsBlock | src/flops_agent/engine/runner.py:315-392 | unanswered calls are always the rest of one block at the very end |
| Pairing.PairedAnswersEveryCall | src/flops_agent/engine/runner.py:1420-1427 | in a fully answered history the j-th call of a turn is answered j+1 messages later |
| Session.Session.TruncateToolCallsAfter | src/flops_agent/entities/session.py:190-204 | keeps the newest request for that id up to the call, everything else unchanged, and reports the index iff something was cut |
| Session.Session.EndsWithOpenReply | src/flops_agent/entities/session.py:112-122 | true iff the newest message that is not a companion is an assistant turn without calls |
| Session.Session.HasToolCall | src/flops_agent/entities/session.py:205-211 | true iff some request names the id |
| Session.Session.HasToolResult | src/flops_agent/entities/session.py:213-217 | true iff some result carries the id |
| Session.CutLeavesOne | src/flops_agent/entities/session.py:190-204 | cutting at the next unanswered call leaves exactly that call open, as the last of the last block |
| Session.SuspendLeavesOneIff | src/flops_agent/engine/runner.py:789-801 | a suspend leaves exactly the asking call open iff its id is new in the batch or, without an id, it is the last call |
| Session.SameIdSuspendIsLost | src/flops_agent/engine/runner.py:789-801 | two calls by one id: suspending on the second leaves nothing open |
| Session.UncutSuspendLeavesTheRest | src/flops_agent/engine/runner.py:532-535 | a gate suspend leaves all remaining calls of the batch open |
| Session.GateSuspendLeavesTwo | src/flops_agent/engine/runner.py:532-535 | a gate suspending on the first of two calls leaves both open |
| Session.ReplyIsWritten | src/flops_agent/engine/runner.py:1171-1196 | a reply that says nothing changes nothing; one with calls, or behind no open reply, is a new turn with its text, reasoning and calls; otherwise its text goes to the end of the last message and its reasoning, if any, replaces that one's |
| Session.ContinuationReachesReplyIff | src/flops_agent/engine/runner.py:1182-1189 | a continuation reaches the reply that allowed it iff the last message is not a companion |
| Session.ContinuationIntoCompanion | src/flops_agent/engine/runner.py:1182-1189 | a concrete history whose companion takes the reply's text |
| Database.InMemoryDatabase.LoadMessages | src/flops_agent/seams/database.py:124-135 | a clamped page: these messages, in order, and all of them up to the limit |
| Database.InMemoryDatabase.PatchMeta | src/flops_agent/seams/database.py:168-181 | None deletes a field, a value sets it, unnamed fields stay |
| Database.InMemoryDatabase.CreateSession | src/flops_agent/seams/database.py:183-187 | idempotent: a known session keeps messages and metadata |
| Database.SyncSession | src/flops_agent/seams/database.py:190-216 | appends, truncates or rewrites the last message, touches no other session, and returns the difference in length |
| Database.SyncIsExactIff | src/flops_agent/seams/database.py:190-216 | a delta sync makes the database equal to the history iff they agree below the shorter end or, at equal length, below the last message |
| Turn.Runner.ApplyAnswer | src/flops_agent/engine/runner.py:844-883 | applied iff an interaction with an id is pending, no result carries that id, and the response resolves; then the old history is kept, the answer is the last message as the result of that call, in front of it, exactly when no request names the call, a request for it under the marker's tool name; markers cleared and persisted; otherwise nothing changes |
| Turn.Runner.ResumeDispatchPlan | src/flops_agent/engine/runner.py:666-714 | a plan iff it is the first step, the history ends in a request and records are left: the calls of that request, each with its record or an empty one |
| Turn.Runner.BuildReply | src/flops_agent/engine/runner.py:1171-1196 | nothing, a continuation of the last message, or a new assistant message |
| Turn.Runner.RecordDispatches | src/flops_agent/engine/runner.py:728-745 | records every call of the batch that has an id, unless the batch is a resumed one |
| Turn.Runner.DispatchTools | src/flops_agent/engine/runner.py:373-379 | collects results in order up to the first call that asks or is stopped; false exactly when stopped |
| Turn.ResultsAreToolSteps | src/flops_agent/engine/runner.py:373-379 | collecting results is that many steps of the state machine, one for each result |
| Turn.Runner.SuspendFor | src/flops_agent/engine/runner.py:789-801 | leaves the marker, in memory and on record, the cut history, and that one message rewritten in the database |
| Turn.EveryCallIsRecorded | src/flops_agent/engine/runner.py:728-745 | afterwards each call with an id has a record with the time of dispatch and the tool of the last call that goes by it |
| Turn.RecordedIsRecordSteps | src/flops_agent/engine/runner.py:728-745 | recording a batch is that many recording steps of the state machine |
| Runner.AnswerCompletes | src/flops_agent/engine/runner.py:844-883 | the answer completes the history, whether the call is still in it or has to be patched in |
| Runner.AnswerCompletesIff | src/flops_agent/engine/runner.py:852-861 | an answer completes a waiting history iff the response resolves and no older result carries the same id |
| Runner.DoKeepsHistInv | src/flops_agent/engine/runner.py:268-392 | every step keeps, for each point of the loop, what is unanswered there |
| Runner.DoKeepsDbInv | src/flops_agent/engine/runner.py:916-953 | every step keeps the database within reach of the next delta sync |
| Runner.DoKeepsCrashInv | src/flops_agent/engine/runner.py:716-763 | every step keeps what a crash there would leave resumable |
| RunnerGuarantees.HistoryPairing | src/flops_agent/engine/runner.py:268-306 | over all runs, crashes and restarts: DONE ends in complete blocks, or still waits where it only refused an answer; SUSPENDED lacks exactly the last result of the last block, the one the marker names; STOPPED and FAILED lack at most results of the last block |
| RunnerGuarantees.MailLandsBetweenBlocks | src/flops_agent/engine/runner.py:992-998 | side messages are only appended behind complete blocks |
| RunnerGuarantees.AnswerCompletesTheRun | src/flops_agent/engine/runner.py:844-883 | an applied answer always leaves complete blocks |
| RunnerGuarantees.AnswerIsKept | src/flops_agent/engine/runner.py:871-883 | an applied answer is the last message, under the id the marker named, and one step later the last of the database too |
| RunnerGuarantees.AnsweredOnlyOnce | src/flops_agent/engine/runner.py:852-857 | after an answer neither the cleared marker nor the old one admits another |
| RunnerGuarantees.PlainTextNeedsCompleteHistory | src/flops_agent/engine/runner.py:1031-1038 | a plain query keeps the history valid iff every call was answered |
| RunnerHistory.NothingSaidIsLost | src/flops_agent/engine/runner.py:315-392 | over any number of runs without a crash the texts of the history are those of before and then everything brought in by queries, replies, results, answers and mail, in order, once each; and its results are those brought in, each under the id of its call |
| RunnerHistory.RunCanFinish | src/flops_agent/engine/runner.py:268-392 | no state of any run is a dead end: some further steps, none of them a crash or an abort, finish it |
| RunnerHistory.EndingsMeanWhatTheySay | src/flops_agent/engine/runner.py:268-306 | a run is done only behind a reply without calls, reports that nothing is pending only for an answer on its first step, and is suspended only with the asking call as its marker, also on record |
| RunnerHistory.RecordsLast | src/flops_agent/engine/runner.py:716-763 | through steps, crashes and restarts under the same id no dispatch record is lost until its batch is settled |
| RunnerHistory.RecordsEndWithTheirBatch | src/flops_agent/engine/runner.py:747-763 | in a run that starts without records and whose settling succeeds there are none outside a batch |
| RunnerGuarantees.DeltaSyncIsExact | src/flops_agent/engine/runner.py:938-953 | over all runs every persist leaves database and history identical, and outside a suspend the database is a prefix or differs in the last message only |
| LossyWrites.NextPersistIsExactIff | src/flops_agent/engine/runner.py:928-953 | with any writes failing and any suspends cancelled inside theirs, the next persist makes database and history equal iff the last stored message was not rewritten since or is still the last one |
| LossyWrites.BuriedIsNeverRepaired | src/flops_agent/seams/database.py:190-216 | a stale message with another stored behind it survives any number of later delta syncs of growing histories |
| LossyWrites.ContinuationIsBuried | src/flops_agent/engine/runner.py:938-953 | a concrete run: the write of a continued reply fails, mail arrives, and the next persist does not bring the continuation to the database |
| RunnerGuarantees.MemoryOnlyCutIsExactIff | src/flops_agent/engine/runner.py:557-563 | a cut made only in memory is repaired by the final persist iff the asking call is the first or the last of its batch |
| RunnerGuarantees.CancelledCutIsExactIff | src/flops_agent/engine/runner.py:928-936 | a suspend cancelled inside its own write is repaired by the final persist iff none of the batch's results had been collected |
| RunnerCases.MemoryOnlyCutIsLost | src/flops_agent/engine/runner.py:557-563 | a reachable run whose cut in memory never reaches the database |
| RunnerCases.CancelledCutIsLost | src/flops_agent/engine/runner.py:928-936 | a reachable run, cancelled inside its suspend, whose cut never reaches the database |
| RunnerGuarantees.CrashIsResumableIff | src/flops_agent/engine/runner.py:666-714 | a crash at any point can be resumed without a query iff what is stored is complete, or ends in a request and some record is left: always outside a batch, inside one iff some record exists |
| RunnerCases.CrashBeforeFirstRecord | src/flops_agent/engine/runner.py:716-745 | a reachable run, its batch stored but not yet recorded, that a crash leaves not resumable |
| RunnerGuarantees.AnswerLostInWindow | src/flops_agent/engine/runner.py:874-879 | between clearing the marker and persisting the result a crash leaves a session some query can start on iff the asking call was the first of its batch and an old record is left; one step later it always resumes |
| RunnerCases.AnswerIsLost | src/flops_agent/engine/runner.py:874-879 | a reachable run in which no query can start the session after that crash |
| RunnerGuarantees.CrashResume | src/flops_agent/engine/runner.py:666-714 | a crash anywhere while a batch is in flight, then any steps and further crashes: the same calls are dispatched with their original records and the model cannot be asked |
| RunnerGuarantees.AbortedBatchResumesIff | src/flops_agent/engine/runner.py:211-247 | after a batch is stopped or failed the next run resumes it iff nothing had been collected and a record is left, and can start with plain text iff everything had |
| RunnerCases.AbortedBatchIsStuck | src/flops_agent/engine/runner.py:211-247 | a reachable stopped run that neither resumes nor takes plain text |
| RunnerGuarantees.PersistedBatchIsNeverRedispatched | src/flops_agent/engine/runner.py:916-926 | once a step is persisted no later run re-dispatches its batch, whether or not its records were cleared |
| ToolCalls.StreamedCallSurvives | src/flops_agent/tools/schema.py:66-89 | a call written to history and read back is the same call |
| ToolCalls.EntrySurvivesIff | src/flops_agent/tools/schema.py:66-89 | a stored entry survives reading and writing iff its name and arguments are strings and its id is one or missing |
| ToolCalls.MissingArgumentsAreEmptyObject | src/flops_agent/tools/schema.py:66-82 | a call read back without arguments is dispatched with the empty object, which is accepted unrepaired |
| ToolCalls.OtherFieldsAreRead | src/flops_agent/tools/schema.py:66-82 | names and arguments that are no text are read in their printed and JSON forms, other ids as missing |
| ActiveMarker.LiveRunKeepsItsMarker | src/flops_agent/engine/runtime.py:546-581 | with the marker written under the session lock, in every interleaving a live run whose marker was written has it and no settling run removes it |
| ActiveMarker.SettledSessionHasNoMarker | src/flops_agent/engine/runtime.py:458-474 | with or without the lock, once every run has settled the marker is gone |
| ActiveMarker.UnlockedClearErasesIff | src/flops_agent/engine/runtime.py:1094-1099 | without the lock a settling run's clear erases a live run's marker iff a run is live by then, which was started after the decision |
| ActiveMarker.UnlockedStartLosesMarker | src/flops_agent/engine/runtime.py:1094-1099 | a concrete interleaving in which a live run loses its marker |
| ActiveMarker.MarkerChangesOnlyBy | src/flops_agent/engine/runtime.py:546-581 | only a starting run's write and a settling run's clear touch the marker: a cancelled run leaves its own |
| ActiveMarker.SettlingClears | src/flops_agent/engine/runtime.py:546-581 | a settling run clears its own marker and that of any run it takes for dead |
| SuspendedMarker.GuardErasesSuspendedIff | src/flops_agent/engine/runtime.py:458-474 | a run that settles takes a suspended run's marker away iff the suspended run is still in the pool |
| SuspendedMarker.SuspendedKeepsMarker | src/flops_agent/engine/runtime.py:788-826 | a suspended run that has left the pool keeps its marker through every interleaving of starts, ends, settles and restarts, until an answer or another suspend |
| SuspendedMarker.GuardClearsIff | src/flops_agent/engine/runtime.py:458-474 | a run that ended otherwise clears its own marker, and another's exactly if that run is in the pool and not running, or has left it and ended |
| SuspendedMarker.SuspensionIsFound | src/flops_agent/engine/runtime.py:828-842 | a run that suspends, settles and leaves the pool is named by the marker after anything quiet, whether or not it had left its marker itself |
| SuspendedMarker.PatientSettleKeepsSuspended | src/flops_agent/engine/runtime.py:828-842 | where each run waits until the one before has left the pool, no settling run takes a suspended run's marker away |
| SuspendedMarker.QuickRunErasesMarker | src/flops_agent/engine/runtime.py:458-474 | a concrete run of six steps: a second run ends before the suspended first one is discarded, and its marker is gone |
| Stream.StreamAccumulator.Feed | src/flops_agent/engine/stream.py:37-67 | one chunk's effect on the assembled state and the events it yields |
| Stream.StreamAccumulator.ToolCalls | src/flops_agent/engine/stream.py:110-111 | one call per index, by increasing index |
| Stream.SortedCallsAreUnique | src/flops_agent/engine/stream.py:110-111 | what was assembled determines the committed calls |
| Stream.AssembledAsSaid | src/flops_agent/engine/stream.py:53-67 | what is assembled for an index is the concatenation of its fragments with its last id, however the stream is cut and interleaved |
| Stream.ChunkingDoesNotMatter | src/flops_agent/engine/stream.py:37-67 | two streams that say the same are committed as the same reply |
| Stream.DeltasReproduceReply | src/flops_agent/engine/stream.py:37-67 | folding the emitted deltas reproduces text, reasoning and arguments |
| Stream.AnnouncedFirst | src/flops_agent/engine/stream.py:56-67 | a chunk's announcement comes before its argument delta |
| Stream.StartedOnceWithFirstName | src/flops_agent/engine/stream.py:57-61 | each call is announced at most once, exactly if it gets a name, and with the first fragment of it |
| Stream.AnnouncedNameIsFinalIff | src/flops_agent/engine/stream.py:57-61 | the announced name is the committed one iff exactly one chunk brought a piece of it |
| Stream.SplitNameIsAnnouncedShort | src/flops_agent/engine/stream.py:57-61 | a name in two fragments is announced as its first |
| Stream.StreamLlm | src/flops_agent/engine/runner.py:394-457 | attempt after attempt while they break transiently within policy; reply, interruption or error as the last one ends |
| Stream.AttemptsAreBounded | src/flops_agent/engine/runner.py:417-433 | at most max_attempts attempts, and one without a policy |
| Stream.RetriesAreExhausted | src/flops_agent/engine/runner.py:417-457 | an error is raised iff the last attempt broke and was not transient, had no policy or no waiting times, or was the last one allowed; a reply that comes in time is the one returned; a notice is logged iff another attempt was due |
| Stream.RetryNoticesAreCounted | src/flops_agent/engine/runner.py:434-446 | retry events are numbered 1, 2, ... |
| Stream.RetriedStreamIsFaithful | src/flops_agent/engine/runner.py:394-457 | whatever attempts broke before, folding the whole log from the last retry event on gives the committed reply |
| ToolArguments.JsonBracketsBalanced | src/flops_agent/tools/schema.py:165-191 | the scan agrees with the lexical reading of the text |
| ToolArguments.JsonTextIsBalanced | src/flops_agent/tools/schema.py:165-191 | every text of the grammar of RFC 8259, sections 2, 4, 5 and 7, is balanced |
| ToolArguments.ObjectPrefixIsUnbalanced | src/flops_agent/tools/schema.py:165-191 | every non-empty proper prefix of an object text is unbalanced |
| ToolArguments.StringPrefixIsUnbalanced | src/flops_agent/tools/schema.py:165-191 | so is every non-empty proper prefix of a string text |
| ToolArguments.EarlyCloseIsUnbalanced | src/flops_agent/tools/schema.py:165-191 | and every text with a closing bracket behind its value, whatever follows |
| ToolArguments.RepairScan | src/flops_agent/tools/schema.py:194-267 | the repair loop computes the specified text and flag |
| ToolArguments.RepairLeavesObjectPrefix | src/flops_agent/tools/schema.py:194-267 | the repair changes no prefix of an object text, the whole included |
| ToolArguments.CutObjectIsTruncated | src/flops_agent/tools/schema.py:131-162 | every non-empty proper prefix of an object text is classified as truncated |
| ToolArguments.WholeObjectIsParsed | src/flops_agent/tools/schema.py:131-162 | the whole object is accepted unchanged |
| ToolRepair.QuotedIsJsonIff | src/flops_agent/tools/schema.py:251-257 | a quoted bare text is a JSON string denoting exactly that text iff it holds no control character but the three the repair escapes |
| ToolRepair.RepairShift | src/flops_agent/tools/schema.py:211-258 | what the repair does from a place on depends on nothing before it |
| BareValues.BareValuesAreRepaired | src/flops_agent/tools/schema.py:131-162 | an object text with any number of values, at any depth, left without quotes is accepted as the object with those texts as strings there |
| ToolArguments.ClassificationIsSound | src/flops_agent/tools/schema.py:131-162 | for any text that is not blank, white space around it apart: accepted as it is iff it denotes an object, not an object iff it denotes something else, repaired iff it denotes nothing and its repair an object, truncated iff unbalanced and not repaired, invalid iff none of these |
| ToolArguments.EmptyArgumentsIff | src/flops_agent/tools/schema.py:131-146 | empty arguments iff there are none or a blank text; a mapping and only a mapping is passed on; any other type is not an object; only an unbalanced text is truncated |
| DispatchLink.ExecutorLink.ReceiveMessage | src/flops_agent/executor/link.py:100-125 | the first terminal outcome goes to the waiter's queue or is parked as it was, repeats are only acknowledged, stream updates go to the end of a waiter's queue or nowhere |
| DispatchLink.ExecutorLink.StartDispatch | src/flops_agent/executor/link.py:149-163 | a resumed dispatch returns what the parked outcome says and takes it away, or waits; a new one only registers its waiter |
| DispatchLink.ExecutorLink.DrainQueue | src/flops_agent/executor/link.py:166-180 | relays updates in order up to the first terminal message, removes the waiter and returns a failure with its error text iff that message was a failure, otherwise its value |
| DispatchLink.InMemoryDispatchLedger.TakeParked | src/flops_agent/executor/link.py:64-65 | hands a parked outcome out once |
| DispatchLink.DispatchConservation | src/flops_agent/executor/link.py:100-180 | over loss, repetition, reordering, sends that raise with or without delivering, and restarts: run_tool is sent at most once, an acknowledged task is seen, a waiting one not parked, and each received outcome is in exactly one place |
| DispatchLink.ResultTellsFirstOutcome | src/flops_agent/executor/protocol.py:96-114 | in every run a dispatch that returned an outcome told its caller what the first terminal message received for its task said: a failure with its error text or the default one iff it was one, otherwise its value, or plain success when that is empty |
| DispatchLink.ReplayCompletes | src/flops_agent/executor/link.py:100-125 | however much was lost, one replay that arrives is seen, acknowledged and leaves the outbox |
| DispatchLink.WaiterReturns | src/flops_agent/executor/link.py:163-180 | an outcome in a waiter's queue can be returned, whatever updates come before it |
| DispatchLink.FirstOutcomeIsFinal | src/flops_agent/executor/link.py:100-125 | the first outcome received is never replaced |
| DispatchLink.RepeatIsOnlyAcknowledged | src/flops_agent/executor/link.py:106-113 | a repeated terminal message changes nothing and is acknowledged again |
| Inbox.MemoryInbox.Poll | src/flops_agent/seams/inbox.py:61-72 | at a step the step messages only, at the end of a turn those and then the turn messages, each queue emptied by delivering it |
| Inbox.NothingLostOrDoubled | src/flops_agent/seams/inbox.py:55-72 | under any pushes and polls each message is delivered exactly once or still waiting |
| Inbox.TurnMailWaitsForTheTurn | src/flops_agent/seams/inbox.py:55-72 | until the turn ends step messages are delivered in the order pushed and turn messages wait; at its end everything still waiting is delivered, in order |
| Alignment.AdjustTailStart | src/flops_agent/engine/compaction.py:140-159 | the two scanning loops compute the aligned start |
| Alignment.OpenToolsFollow | src/flops_agent/engine/compaction.py:140-147 | in every history the runner keeps, tool runs follow their request |
| Alignment.AlignNeverForward | src/flops_agent/engine/compaction.py:140-159 | there alignment never moves forward and never lands on a tool message |
| Alignment.AlignFindsRequest | src/flops_agent/engine/compaction.py:140-159 | there it moves exactly from tool messages, back to the request whose results they are |
| Alignment.AlignIdempotent | src/flops_agent/engine/compaction.py:140-159 | there aligning twice is aligning once |
| Alignment.AlignMonotone | src/flops_agent/engine/compaction.py:140-159 | there a later start is never aligned to an earlier place |
| Alignment.AlignForwardIff | src/flops_agent/engine/compaction.py:140-159 | on any history it moves forward iff it lands on a run of results without a request |
| SplitSearch.SuffixTotals | src/flops_agent/engine/compaction.py:553-574 | entry i is the weight of everything from i on |
| SplitSearch.SliceTotal | src/flops_agent/engine/compaction.py:576-594 | the weight of a slice, out-of-range ends clamped |
| SplitSearch.TailConstraintsMet | src/flops_agent/engine/compaction.py:642-673 | enough messages and enough tokens kept, or all there is |
| SplitSearch.ComputeIdealCovers | src/flops_agent/engine/compaction.py:1333-1407 | the three scanning passes compute the specified split |
| SplitSearch.SearchFindsLargest | src/flops_agent/engine/compaction.py:1379-1407 | one of the passes always succeeds and the aligned image of the largest candidate of the first such pass is returned |
| SplitSearch.SearchMeetsItsLimits | src/flops_agent/engine/compaction.py:1333-1407 | the split is at a turn boundary, leaves more than the reserved newest messages out, keeps an allowed tail in its pass's range, and no candidate of that pass covers more |
| SplitSearch.TargetIsPreferred | src/flops_agent/engine/compaction.py:1333-1407 | if a split within the target range is allowed, one in the range is taken that covers at least as much; failing that, one not above it if there is one; otherwise one above |
| Compaction.LinesAreOrdered | src/flops_agent/engine/compaction.py:1239-1300 | for every window of at least 20000 and the defaults: target_lo < target_hi < trigger < hard cap <= window, and the minimum tail fits below target_hi by 4000 |
| Compaction.HysteresisIff | src/flops_agent/engine/compaction.py:1277-1300 | target_hi is strictly below the trigger iff the window is usable |
| Compaction.DefaultLines | src/flops_agent/engine/compaction.py:1239-1300 | all default lines in numbers, with and without a usable window |
| Compaction.PlanExtends | src/flops_agent/engine/compaction.py:1420-1477 | a plan is made only where planning is enabled, and covers strictly more than the active record and never everything |
| Compaction.PlanWhenNeeded | src/flops_agent/engine/compaction.py:1420-1477 | nothing is planned up to the trigger; above it, if a split within the target range is allowed and covers more than the active record, a plan covers at least as much and brings the total into the range |
| Compaction.ChainEnds | src/flops_agent/engine/compaction.py:1420-1477 | any chain of plans on fixed messages gains coverage at each link, so it is shorter than the history |
| Compaction.FirstPassesAreOnTarget | src/flops_agent/engine/compaction.py:1379-1399 | a split found by one of the first two passes brings the total to at most target_hi |
| Compaction.PlannedRecordStays | src/flops_agent/engine/compaction.py:1420-1477 | no oscillation: after a plan on target, with a summary at most the hysteresis band dearer, planning again returns None and repair keeps the record |
| Compaction.TryRehome | src/flops_agent/engine/compaction.py:1490-1540 | the first archived record of largest coverage among the eligible ones, or None iff there is none |
| Compaction.FirstOfLargest | src/flops_agent/engine/compaction.py:1490-1540 | of eligible records of the same coverage the first is taken |
| Compaction.RepairActive | src/flops_agent/engine/compaction.py:1543-1618 | keep, rehome or clear, as specified |
| Compaction.RehomedRecordIsBest | src/flops_agent/engine/compaction.py:1490-1540 | a rehomed record is in range, keeps an allowed tail, covers the most, and survives its own pruning, which removes exactly the records above it |
| Compaction.RepairLeavesUsable | src/flops_agent/engine/compaction.py:1543-1618 | after a repair the record in use is in range of the conversation, the tokens and the tail; one that was is kept; none is in use only if no archived one of at least 40 characters is in range, and then the pointer is cleared |
| Compaction.RepairIsSettledInOneStep | src/flops_agent/engine/compaction.py:1543-1618 | applying a repair and repairing again changes nothing |
| Compaction.InMemoryCompactionStore.PruneAbove | src/flops_agent/seams/compaction_store.py:121-130 | keeps exactly the records at or below the cap and reports whether any was above |
| Compaction.InMemoryCompactionStore.AppendAndActivate | src/flops_agent/seams/compaction_store.py:101-114 | stores the record under its id, makes it active, keeps all others within the cap |
| Trim.TrimFitsIff | src/flops_agent/engine/compaction.py:125-137 | the result fits iff the text did or enough room is left around the marker, for texts of any length |
| Trim.DecimalDenotes | src/flops_agent/engine/compaction.py:125-137 | a count is written as the digits that denote it |
| Trim.DegenerateTrimCutsOff | src/flops_agent/engine/compaction.py:132-133 | with fewer than 64 characters around the marker the text is cut off at the limit, with a notice of what is missing |
| Trim.TrimKeepsBothEnds | src/flops_agent/engine/compaction.py:125-137 | otherwise a true prefix and a true suffix, equally long to one character and using all the room, around a marker that counts exactly what is missing |
| Trim.TrimIdempotent | src/flops_agent/engine/compaction.py:125-137 | outside the small-budget branch trimming twice is trimming once |
| Trim.DegenerateTrimIdempotentIff | src/flops_agent/engine/compaction.py:132-133 | inside that branch it is idempotent iff the notice is exactly as long as the text it stands for |
| Trim.SoftTrimFits | src/flops_agent/engine/compaction.py:298-332 | a tool result shorter than 10^33 trimmed with room for its marker fits its limit |
| Trim.SoftTrimKeepsBothEnds | src/flops_agent/engine/compaction.py:298-332 | a trimmed tool result keeps a true prefix and suffix within the configured head and tail |
| Trim.SoftTrimCutsOff | src/flops_agent/engine/compaction.py:298-332 | without room for its marker, or with nothing to keep of its ends, a tool result is cut off at the limit |
| Trim.TailStaysUnderHardCap | src/flops_agent/engine/compaction.py:596-640 | a message shorter than 10^3800 trimmed to its remaining budget keeps the total at or below the hard cap less overhead, injection and safety, whenever that budget is above the floor, and is sent whole if it fits |
| Trim.FloorKeepsCapIff | src/flops_agent/engine/compaction.py:639-640 | at the floor the cap is kept iff the message, or the floor less the marker's slack if it is longer, still fits |
| Trim.FloorExceedsCap | src/flops_agent/engine/compaction.py:639-640 | a message as long as the floor exceeds a cap that leaves one character less |
| RegimeB.LatestUserOverride | src/flops_agent/engine/compaction.py:596-640 | the newest user message of the tail and its budget, or None iff there is none or trimming is off |
| RegimeB.TailUnderHardCapIff | src/flops_agent/engine/compaction.py:596-640 | for any history, exempt tools, padded metadata and a notice included, the tail as sent, the newest user message's metadata line apart, keeps the cap iff that message's text and what the others send beyond their weight fit what the cap leaves |
| RegimeB.TailUnderHardCap | src/flops_agent/engine/compaction.py:596-640 | so without exempt tools and padded metadata elsewhere, and with a budget above its floor and a newest user message that is trimmed, the cap is kept |
| RegimeB.NoticeExceedsCap | src/flops_agent/engine/compaction.py:596-640 | a notice of 5000 characters as the newest user message is sent whole past a cap that leaves it 4500 |
| ProjectionDefaults.DefaultsFit | src/flops_agent/engine/compaction.py:208-232 | with the default configuration every tool result shorter than 10^33 fits its tier's limit, and within it is shown whole |
| ProjectionDefaults.DefaultTierByAge | src/flops_agent/engine/compaction.py:208-232 | with the defaults the three newest results are shown in full and those with 24 or more newer ones as stubs |
| ProjectionDefaults.DefaultUserTextFits | src/flops_agent/engine/compaction.py:208-232 | and every user text that is not a notice its own |
| ProjectionDefaults.ExemptResultBreaksRuler | src/flops_agent/engine/compaction.py:549-549 | with one exempt tool and a result of 16001 characters more is sent than weighed |
| Projection.ComputeToolTiers | src/flops_agent/engine/compaction.py:339-361 | every result, and nothing else, is graded by how many newer results there are |
| Projection.TierByAge | src/flops_agent/engine/compaction.py:339-361 | the newest results up to the configured count are shown in full, those with enough newer ones as stubs, the others, or all without grading, by the standard limit |
| Projection.NameIsNewest | src/flops_agent/engine/compaction.py:711-733 | the call of a result is the newest request for its id, or there is none and it has no name |
| Projection.IndexCalls | src/flops_agent/engine/compaction.py:711-733 | one pass over the whole history leaves, under each id, its newest request |
| Projection.ToolTextFits | src/flops_agent/engine/compaction.py:363-381 | in every tier short results are shown whole, longer ones fit their tier's limit or become a notice of their length |
| Projection.OneRuler | src/flops_agent/engine/compaction.py:516-594 | without exempt tools, with stripped metadata and no override, the characters sent for a slice are what it weighs, the difference of two suffix totals |
| Projection.ExemptResultAgreesIff | src/flops_agent/engine/compaction.py:549-549 | an exempt tool's result weighs what is sent iff it is no longer than its tier shows whole; otherwise more is sent |
| Projection.OneRulerIff | src/flops_agent/engine/compaction.py:516-594 | for every slice no less is sent than weighed, and exactly as much iff its metadata is stripped and its exempt results are short enough to be shown whole; given that tool results are trimmed, are shorter than 10^33, have limits with room for their markers (fullMax at least the standard limit, that at least stubMin), and stubMin is no less than the stub notice's length |
| Projection.ExpandCanonical | src/flops_agent/engine/compaction.py:677-783 | the expansion loop sends the specified messages of the clamped slice, in order |
| Projection.WithinLimitsSentWhole | src/flops_agent/engine/compaction.py:677-783 | a stretch of messages within the limits that apply to them is sent word for word, in order and role by role |
| Projection.WholeHistoryWithoutRecord | src/flops_agent/engine/compaction.py:911-926 | without a record, or with a blank or out-of-range one, all of the history is sent and nothing else |
| Projection.RecordThenTail | src/flops_agent/engine/compaction.py:928-948 | with a record in range its stripped text comes first, then the re-injected results, then every message it does not cover, behind at most the covered part of the tool turn its end falls into |
| Projection.ProjectionKeepsProtocol | src/flops_agent/engine/compaction.py:887-948 | for any history the runner keeps, any record, re-injection and budgets, what is sent leaves open exactly the calls the history leaves open, or none if the record covers everything |
| Projection.ExpansionKeepsMentions | src/flops_agent/engine/compaction.py:677-783 | ids, names and order of all calls and results are sent unchanged |
| Reinjection.GatherRecent | src/flops_agent/engine/compaction.py:803-873 | filter, label lookup and backward scan pick the specified results, oldest first |
| Reinjection.GatheredAreNewest | src/flops_agent/engine/compaction.py:837-870 | no newer candidate is passed over for an older one |
| Reinjection.ReinjectionIsMaximal | src/flops_agent/engine/compaction.py:837-870 | if a candidate is left out although fewer than the count are picked, the newest one left out does not fit what is left of the budget |
| Reinjection.CandidatesAreLong | src/flops_agent/engine/compaction.py:837-870 | candidates are exactly the summarised results of at least 200 characters, trimmed and stripped |
| Reinjection.PickIsLabelled | src/flops_agent/engine/compaction.py:837-870 | each is labelled by the newest summarised request for its id, or by its bare id |
| Reinjection.ReinjectionIsBounded | src/flops_agent/engine/compaction.py:803-873 | chronological, within count and budget, and disjoint from the tail when the coverage is aligned |
| Reinjection.ResultSentTwiceIff | src/flops_agent/engine/compaction.py:919-946 | some result is both re-injected and in the tail iff the newest candidate lies at or behind the aligned start and fits the budget, which takes an end inside a tool turn |
| Reinjection.SplitTurnIsSentTwice | src/flops_agent/engine/compaction.py:919-946 | a concrete turn of two calls, summarised up to between its results, whose first result is sent twice |
| Reinjection.TranscriptStart | src/flops_agent/engine/compaction.py:1126-1141 | the first message from which the transcript fits the cap, or 0 |
| Reinjection.TranscriptWithinCapIff | src/flops_agent/engine/compaction.py:1134-1141 | the cap is kept iff the newest message fits it on its own; otherwise nothing is cut |
| Reinjection.HeavyMessageIsNotCut | src/flops_agent/engine/compaction.py:1134-1141 | one message heavier than the cap is kept whole |

## Left out

- HandOff: what a replay contains is said for coalescers that only append and for rolling snapshots one client at a time (RunLog.ReconnectEqualsFullReplay). Delivery timing, full subscriber queues, extra deliveries before the sentinel, task cancellation inside an emit and completion at shutdown are not modelled.
- Execution.Run.Emit: the store calls are the in-memory store's; refused and failing calls are treated in StoreLockstep.
- RunnerGuarantees.HistoryPairing: assumes that a call that asks a person can be told from the earlier ones of its batch (what happens otherwise is Session.SuspendLeavesOneIff), that side messages are neither results nor requests, and that a run is started only on a session its query can continue.
- RunnerGuarantees.DeltaSyncIsExact: assumes successful database calls and suspends through suspend_for; failing writes, and a cancellation inside a suspend's own single-message write, are LossyWrites.NextPersistIsExactIff.
- LossyWrites.NextPersistIsExactIff: a write that fails changes nothing; one that fails half-way is not modelled. Once a message is buried it says nothing further; LossyWrites.BuriedIsNeverRepaired says what stays.
- RunnerHistory.NothingSaidIsLost: runs without a crash; after one the history is what was stored, which RunnerGuarantees.DeltaSyncIsExact describes.
- RunnerGuarantees.CrashResume: records are only required to be unchanged since the crash; a batch whose recording was cut short hands the calls without a record an empty one, as the code does.
- Runner: the silent-reply rescue is a step that lands nothing and goes round again; its attempt cap and the wire-only nudge are not modelled. Product override points (gates, list rewriting before dispatch, in-place waiting) keep their base-class behaviour, except for the two kinds of suspend named above. How a response resolves to a result text is a parameter of the query.
- SuspendedMarker: reuse of run ids, metadata reads and writes that fail, stores without status, and the synchronous variants, which take no lock.
- ActiveMarker: reuse of a run id after a restart, failing metadata writes and cross-process writers.
- Stream: waiting times, the fallback for the former chunk shape, and hooks that swallow or replace events.
- ToolArguments: Python's decoder also accepts NaN and Infinity and has size limits; neither is part of the grammar used here, so texts using them are outside the theorems.
- DispatchLink: values are texts, the empty one standing for every value that counts as false; several dispatches of one task at the same time, ledger calls that raise, a dispatch without a transport (an immediate error), cancel_tool, and the authentication handshake.
- Compaction: fractions are exact and rounded down where the code multiplies floating-point numbers; token estimates are given natural numbers, so the CJK heuristic does not appear. The summary's text, its quality gate and the summarizer are not modelled.
- Compaction.PlannedRecordStays: the lower bound of the accepted range, 0 by default, is assumed to be met.
- Trim.SoftTrimFits: holds for texts shorter than 10^33, the room the code reserves for a count.
- Projection: text contents only; images, sanitising hooks and the ungraded full export are not modelled; an id that is the empty string counts as missing.
- Reinjection.GatherRecent: the source's one loop is written as three (table, candidates, scan), with the same picks.
- Reinjection.TranscriptWithinCapIff: speaks of weights; the serialised transcript's own length is not modelled.
- Session: titles, opened packages, truncation by message id with its consent guard.
- Providers, encryption, memory, navigation, tool registries and schemas, and the wire format: input and output or one-branch logic.
