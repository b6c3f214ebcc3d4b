# piqo-server, modelled and proved

piqo-server keeps an append-only log of events for each session, folds a projection from it, drives model runs by
appending events, and streams the log to clients. This project models that engine in Dafny and proves what it promises.

| part | files | what is modelled |
|---|---|---|
| projection | Events, Session, SessionProjection, EventLog | the events, the step they make, the mutable record that takes them |
| history | History, Ledger, Origins, LogRules | what a longer log keeps of a shorter one; reading every field, and what comes next, off a log without replaying it |
| store | StoreSpec, StaleCache, Store, Recovery, StoreRuns | tables, summary rows, projection cache, transactions, forks, restart recovery, and runs of all of them |
| supervisor | SessionLocks, NativeClaims, Turns, Worker, Finishing, Writers, Quiescence, Retry, Admission, AdmissionRuns, Permissions, Delegation, ChildResult | locks, execution claims, the worker loop, everything that is appended, turn and retry limits, shutdown, admission, permissions, delegation, what a parent is told |
| streams | Stream, EventHub | replay, then live events; lag, re-reading and reconnecting; the channels in between |
| providers | Framing, Decoder, RequestBody, Compaction, CompactedLog | decoding a response as it arrives, building a request, compacting what does not fit |
| listing | Pagination | pages and cursors |

Code that updates state in place is a class or a method with loops, proved equal to a function of the old state; the
results are lemmas about those functions. Protocols are state machines over their steps, and their results hold for every
run. The source enumerates its events in one flat type; here they are grouped by subject, with the same fields.

Two things are assumed throughout: each store operation is one atomic step, and identifiers drawn by the source (UUIDs) are
new. Where the source uses a 64-bit integer for an id, a revision or a count, the model uses an unbounded one.

## Where the code does not do what one would expect

Each of these is a lemma that gives the exact condition, a concrete case, or both.

- A turn that completes reports its usage with the completion, and the branch that asks for permissions is taken only for a
  completion without usage. So no log ever holds a permission request, no call is ever claimed or answered, no child is
  delegated and no run is continued (`Writers.NothingIsManaged`; `Writers.AskingWouldWork` shows that nothing else is
  missing). What is proved of claims, permissions, results, delegation and continued runs holds of the code as it is, and
  matters once that branch is reached; below, such items are marked *not reached yet*.
- Such a turn closes its run whether or not its calls have results, and nobody can then give one
  (`Finishing.CompletionStrandsOpenCalls`, `Writers.StrandedCall`).
- Restart recovery looks at sessions whose phase is Running, and interrupts the session and its run in two appends. A stop
  between them leaves a run that no later recovery looks at (`Recovery.CutOffActivity`,
  `Recovery.HalfRecoveredRunSurvives`).
- *Not reached yet:* so does a run that was continued while its session stayed Interrupted (`Recovery.RecoveredActivity`,
  `Recovery.ContinuedRunSurvivesRecovery`). Finishing such a run closes it, but the phase change that follows is refused, so
  the steps after it do not happen (`Finishing.FinishAccepted`).
- An append whose caller is dropped between the commit and the cache update leaves a stale cached projection, and the next
  append is checked against it. The log may then fold no more, or fold to something else than the row says, and the database
  is refused when it is opened again (`StoreSpec.AbandonedCommit`, `StaleCache.StaleAppend`,
  `StaleCache.DroppedCancelBreaksLog`, `StaleCache.DroppedPhaseBreaksRow`). A deletion dropped at the same point leaves
  projections of sessions that are gone (`StaleCache.RemoveCoherent`).
- The stream misses an event when two batches of a session are published in another order than they were committed
  (`Stream.LostExactly`, `Stream.PublishedInAnyOrder`, `Stream.MissedEvent`).
- A lock-table entry can outlive its tasks (`SessionLocks.EntryCanOutliveItsTasks`). That costs memory, not exclusion.
- Tool calls are put on the transcript at an index that counts all closed messages. Once an artifact covers more messages
  than the transcript has leading entries, they land on the wrong entry or past the end (`RequestBody.AlignedExactly`,
  `CompactedLog.MisplacedCalls`, `CompactedLog.CallsPastTheEnd`).
- Compaction can hide messages it did not summarise when an old message is closed late
  (`Compaction.RemainingExactly`, `Compaction.LateCloseLosesMessages`).
- *Not reached yet:* a standing approval of `edit` never applies: it is recorded under `edit` and looked up under `write`
  (`Permissions.StandingApprovalApplies`).
- *Not reached yet:* a delegation is refused when any session has already delegated from a call with the same id, and the
  child session it created stays (`Delegation.SpawnSucceedsExactly`, `Delegation.SecondCallRefused`).
- *Not reached yet:* a delegated agent is held to the configuration of the agent right above it, not to what that agent is
  itself held to. A grandchild can do what the agent of the root run is denied (`Delegation.ExceedsExactly`,
  `Delegation.GrandchildExceeds`).
- A reservation is released by run id, and a fork copies run ids: ending the copy frees the place of a run that is still
  open (`AdmissionRuns.StepMoves`, `AdmissionRuns.CancelledCopyFreesPlace`).
- A failure between reserving a run and appending it keeps the reservation (`Admission.AdmissionController.Submit`).
- Fragments of one tool call that carry neither index nor id become calls of their own (`Decoder.AnonymousApart`,
  `Decoder.PiecesComeApart`).

## Model

| member | source | states |
|---|---|---|
| `Session.RunEventMeaning` | piqo-core/src/session.rs:459-593 | A run event is accepted exactly when it queues an unknown run or finds its run in a status that takes it; it then changes that run alone, and pauses or opens the queue as the event says |
| `Session.ReplayAppend` | piqo-server/src/storage.rs:1081-1103 | Replaying two stretches of a log one after the other is replaying both together, errors included |
| `Session.PrefixAccepted` | piqo-server/src/storage.rs:1081-1103 | Every prefix of an accepted log is accepted |
| `Session.IndexOf` | piqo-core/src/session.rs:307-342 | A message is found at its first position, and missing only if no message has the id |
| `Session.ActiveRun` | piqo-core/src/session.rs:699-703 | The active run is a running one, and there is none exactly when no run is running |
| `Session.ReadyActionRun` | piqo-core/src/session.rs:719-725 | The ready run waits for action, has calls, and has every result; there is none exactly when no run is like that |
| `SessionRecord.SessionProjection.Transition` | piqo-core/src/session.rs:203-217 | The phase moves and the revision counts it exactly when the current phase allows the move |
| `SessionRecord.SessionProjection.ApplyState` | piqo-core/src/session.rs:219-249 | The state part in place, equal to the specification, errors included |
| `SessionRecord.SessionProjection.TouchMessage` | piqo-core/src/session.rs:307-342 | Only an open message is extended or closed; nothing else in the list changes |
| `SessionRecord.SessionProjection.SetRunTerminal` | piqo-core/src/session.rs:674-697 | A run is closed once; closing a closed run is an error that changes nothing |
| `SessionRecord.SessionProjection.ApplyAgent` | piqo-core/src/session.rs:343-413 | The agent part in place, with the half-written state an error leaves |
| `SessionRecord.SessionProjection.ApplyPermission` | piqo-core/src/session.rs:414-458 | The permission part in place |
| `SessionRecord.SessionProjection.ApplyTool` | piqo-core/src/session.rs:562-637 | The tool-call part in place: emission, claim, result, write-once each |
| `SessionRecord.SessionProjection.ApplyRun` | piqo-core/src/session.rs:459-593 | The run part in place |
| `SessionRecord.SessionProjection.ApplyContext` | piqo-core/src/session.rs:648-668 | The context part in place; a fact id is recorded once |
| `SessionRecord.SessionProjection.ApplyMessage` | piqo-core/src/session.rs:272-342 | The message part in place |
| `SessionRecord.SessionProjection.Apply` | piqo-core/src/session.rs:265-672 | The mutable record moves as the specification step for every event, and on an error is left in the state the source leaves it in |
| `EventLogs.EventLog.AppendForSession` | piqo-core/src/event_log.rs:239-256 | The new event gets the next id |
| `EventLogs.EventLog.ForkAt` | piqo-core/src/event_log.rs:272-287 | A fork exists exactly for an event that exists; fork and replay from there make up the log |
| `EventLogs.ForkThenReplay` | piqo-core/src/event_log.rs:263-287 | Cutting a log at any id and replaying from it rebuilds the log |
| `History.FoldSound` | piqo-core/src/session.rs:265-697 | Over every accepted log: ids unique, keys match, no message both completed and interrupted, fact ids unique, last id equals the length |
| `History.BelowTransitive` | piqo-core/src/session.rs:265-697 | The information order composes |
| `History.StepBelow` | piqo-core/src/session.rs:265-697 | One accepted event takes nothing back |
| `History.HistoryNeverRewritten` | piqo-core/src/session.rs:265-697 | The projection of any prefix of an accepted log is below the projection of the log: closed messages frozen, terminal statuses absorbing, claims, results, decisions and agent results write-once |
| `Ledger.ClaimRecorded` | piqo-core/src/session.rs:594-617 | A call is claimed by an execution exactly when the log says so |
| `Ledger.ResultRecorded` | piqo-core/src/session.rs:618-637 | A call has a result exactly when the log reports it |
| `Ledger.DecisionRecorded` | piqo-core/src/session.rs:414-458 | A request has a decision exactly when the log records it |
| `Ledger.AgentResultRecorded` | piqo-core/src/session.rs:371-413 | An agent has a result exactly when the log reports it, by either event that carries one |
| `Ledger.StatusRecorded` | piqo-core/src/session.rs:508-546 | A run has a terminal status exactly when the log ends it that way, and no log ends a run twice |
| `Ledger.MessageRecorded` | piqo-core/src/session.rs:272-342 | A message holds exactly the blocks the log appends to it, and is completed or interrupted exactly when the log says so |
| `Ledger.RevisionCountsPhaseChanges` | piqo-core/src/session.rs:203-249 | The revision is the number of phase-changing events |
| `Origins.FollowsLog` | piqo-core/src/session.rs:265-672 | Any part of a projection that takes what an event says of it, and otherwise stays, is after every accepted log what was said of it last |
| `Origins.LastIsSaid` | piqo-core/src/session.rs:265-672 | What was said last: by an event after which nothing is said, or what was there at the start if nothing is |
| `Origins.SubmissionRecorded` | piqo-core/src/session.rs:459-486 | A run has the provider, model, request, origin and priority of the one event that queued it |
| `Origins.RetriesFirst` | piqo-core/src/session.rs:470-484 | In every projection a retry has a lower priority number than a fresh run |
| `Origins.AttemptRecorded` | piqo-core/src/session.rs:487-534 | The attempt of a run is that of its last start or attempt |
| `Origins.EveryStatusRecorded` | piqo-core/src/session.rs:459-593 | Every status is what the last event that sets one gives the run |
| `Origins.ErrorRecorded` | piqo-core/src/session.rs:508-644 | The error of a run is that of its last failed attempt, failure or interruption, cleared by a completion or cancellation |
| `Origins.UsageRecorded` | piqo-core/src/session.rs:508-515 | The usage of a run is that of its completion |
| `Origins.PauseRecorded` | piqo-core/src/session.rs:487-647 | The queue is paused or open as the last event that pauses or opens it says |
| `Origins.PhaseRecorded` | piqo-core/src/session.rs:219-249 | The phase is the one the last phase event leads to |
| `Origins.EmissionRecorded` | piqo-core/src/session.rs:562-593 | A call has the message, agent, tool, arguments, raw arguments and native flag of the one event that emitted it |
| `Origins.RequestRecorded` | piqo-core/src/session.rs:414-439 | A permission request is what the one event that asked says |
| `Origins.OpeningRecorded` | piqo-core/src/session.rs:272-306 | A message has the role, agent, author and first id of the one event that started it |
| `Origins.TouchRecorded` | piqo-core/src/session.rs:272-342 | The last id of a message is that of the last event that names it |
| `Origins.SpawningRecorded` | piqo-core/src/session.rs:343-367 | An agent has the parent, link and revision of its spawning |
| `Origins.AgentPhaseRecorded` | piqo-core/src/session.rs:343-413 | The phase of an agent is the one its last event gives it |
| `Origins.CaptureRecorded` | piqo-core/src/session.rs:386-398 | The context of an agent is the one captured last |
| `Origins.ArtifactRecorded` | piqo-core/src/session.rs:658-662 | The active artifact is that of the last compaction |
| `Origins.FactRecorded` | piqo-core/src/session.rs:648-657 | A durable fact is the first recorded under its id |
| `LogRules.NextFits` | piqo-core/src/session.rs:265-672 | An accepted log takes exactly the events that fit what it says: one rule for each kind of event, over the log alone |
| `LogRules.AcceptedExactly` | piqo-core/src/session.rs:265-672 | The logs that fold are exactly those in which every event fits what was said before it |
| `LogRules.ReadyRecorded` | piqo-core/src/session.rs:719-725 | A run is ready exactly when the log last said it waits for action, it emitted a call, and every call it emitted has a result in the log |
| `LogRules.ActiveRecorded` | piqo-core/src/session.rs:699-703 | The active run is the first, in key order, that the log last said to be running |
| `StoreSpec.TakesGrown` | piqo-server/src/storage.rs:825-898 | A batch replays on the current projection exactly when the longer log folds, and then gives its projection |
| `StoreSpec.AppendCoherent` | piqo-server/src/storage.rs:825-898 | Appending, accepted or rejected, keeps rows and cache equal to the fold |
| `StoreSpec.AppendTwice` | piqo-server/src/storage.rs:825-898 | Two accepted appends are one append of both batches |
| `StoreSpec.AbandonedCommit` | piqo-server/src/storage.rs:893-897 | A commit whose caller is dropped before the cache is refreshed leaves the store coherent if and only if the session was not cached |
| `StaleCache.WriteIsAppend` | piqo-server/src/storage.rs:825-898 | In a coherent store the append from whatever the cache holds is the append of the specification, and so is the dropped one |
| `StaleCache.StaleAppend` | piqo-server/src/storage.rs:825-898 | The append after such a commit: both batches are in the log; the tables are right if and only if the log folds to the phase and revision the stale projection arrived at, and the cache if and only if it folds to that projection |
| `StaleCache.DroppedCancelBreaksLog` | piqo-server/src/lib.rs:2379-2385 | A client that cancels a queued run goes away during the commit and cancels again: both cancellations are accepted, the log no longer folds, and the row counts both |
| `StaleCache.DroppedPhaseBreaksRow` | piqo-server/src/supervisor.rs:229-256 | The worker is aborted at shutdown during the commit of its phase change, and the shutdown reads the phase before it: the log folds to Running and the row says Created |
| `StaleCache.RemoveCoherent` | piqo-server/src/storage.rs:757-768 | A deletion whose caller is dropped after the DELETE leaves the store coherent if and only if no session of the project was cached |
| `StaleCache.DeletedIsReadable` | piqo-server/src/storage.rs:530-541 | The projection left behind is still read, and nothing is appended to it |
| `StoreSpec.CreateSessionCoherent` | piqo-server/src/storage.rs:428-462 | Creating a session keeps the store coherent |
| `StoreSpec.DeleteProjectCoherent` | piqo-server/src/storage.rs:757-768 | Deleting a project keeps the store coherent and leaves no projection cached for a session that is gone |
| `StoreSpec.ForkMeaning` | piqo-server/src/storage.rs:900-998 | The branch log is the parent prefix and the fork events, the first of which names parent and event; every row names the branch; it folds to the prefix projection, renamed, interrupted and paused |
| `StoreSpec.BranchActivity` | piqo-server/src/storage.rs:930-950 | A branch has no active run if and only if its prefix had at most one |
| `StoreSpec.ForkCoherent` | piqo-server/src/storage.rs:900-998 | Forking keeps the store coherent |
| `Store.Project` | piqo-server/src/storage.rs:1081-1103 | Projecting rows succeeds exactly on contiguous rows of the known schema that fold, with the fold as result |
| `Store.ApplyBatch` | piqo-server/src/storage.rs:853-892 | The transaction loop: rows, summary and projection after the batch, every new row with the next id, the session and the event, or the error of the first event that fails |
| `Store.WriteBranch` | piqo-server/src/storage.rs:930-990 | The branch rows, each naming the branch, and their summary |
| `Store.SqliteStore.NewSession` | piqo-server/src/storage.rs:428-462 | A session is created exactly when its project exists; its row and log are those of a new session |
| `Store.SqliteStore.Projected` | piqo-server/src/storage.rs:530-541 | A read gives what is cached or else the fold of the rows, and remembers it; in a coherent store always the fold |
| `Store.SqliteStore.BaseProjection` | piqo-server/src/storage.rs:833-851 | The projection a batch is checked against: the cached one, or the fold of the rows if they fold |
| `Store.SqliteStore.Transact` | piqo-server/src/storage.rs:825-892 | The transaction before its commit, whatever the cache holds: what the row, the rows and the projection become, each new row with the next id, the session and the event, or the first event that fails |
| `Store.SqliteStore.AppendEvents` | piqo-server/src/storage.rs:825-898 | All or nothing, whatever the cache holds: appended exactly when the batch replays on the base and nothing stops it; every event handed back has the next id and the session it was given; a rejected batch changes nothing; a coherent store stays coherent unless the caller is dropped after the commit of a cached session |
| `Store.SqliteStore.RemoveProject` | piqo-server/src/storage.rs:757-768 | The project, its sessions and their events are gone, and their cached projections unless the caller is dropped before the eviction; every other session keeps its row, log and cached projection |
| `Store.SqliteStore.RecoverRunningSessions` | piqo-server/src/storage.rs:389-417 | The recovery loop when the database stops taking appends anywhere: some running sessions are recovered and at most one only to its first append; if nothing stops it, all are |
| `Store.SqliteStore.Fork` | piqo-server/src/storage.rs:900-998 | The fork in place, exactly when the event exists and the prefix folds; its row names parent, event, title and project; the parent and every other session are unchanged |
| `Store.SqliteStore.ValidateAll` | piqo-server/src/storage.rs:1044-1078 | The check passes if and only if every log folds and every row says what its fold says |
| `Recovery.RecoveredSession` | piqo-server/src/storage.rs:389-417 | What recovery does to one session |
| `Recovery.RecoveredActivity` | piqo-server/src/storage.rs:389-417 | After recovery a session has no active run if and only if it had none, or it had one and its phase was Running |
| `Recovery.RecoverySettles` | piqo-server/src/storage.rs:389-417 | Recovery leaves the store coherent and no session running, and recovering again changes nothing |
| `Recovery.HalfRecovered` | piqo-server/src/storage.rs:396-411 | A recovery cut off between its two appends leaves the session Interrupted with its queue as it was |
| `Recovery.CutOffActivity` | piqo-server/src/storage.rs:389-417 | After a recovery that is cut off anywhere and a later one that is not, a session has no active run if and only if it had none, or it had one, its phase was Running and the first was not cut off in it |
| `Recovery.HalfRecoveredRunSurvives` | piqo-server/src/storage.rs:396-411 | The log of such a session: accepted, Interrupted, with an active run |
| `Recovery.ContinuationKeepsPhase` | piqo-server/src/supervisor.rs:845-867 | Continuing a ready run is always accepted, makes it active, and leaves the phase as it was |
| `Recovery.ClientMaySubmit` | piqo-server/src/supervisor.rs:413-485 | In the log below the client result passes every check, and what it appends is what the log goes on with |
| `Recovery.ContinuedRunSurvivesRecovery` | piqo-server/src/supervisor.rs:845-881 | A log with a request, its approval, a client result and a continuation is accepted, Interrupted, with an active run, which recovery does not look at; no writer appends such a request yet |
| `StoreRuns.DoCoherent` | piqo-server/src/storage.rs:757-998 | An operation keeps a coherent store coherent if and only if it is neither a dropped commit of a cached session nor a dropped deletion of one |
| `StoreRuns.RestartHeals` | piqo-server/src/storage.rs:335-417 | After opening the database again, and a recovery cut off anywhere, the store is coherent if and only if every row said what its log says |
| `StoreRuns.MissedIsHealed` | piqo-server/src/storage.rs:335-417 | Such a commit or deletion breaks coherence and a restart right after it restores it |
| `StoreRuns.DoGrows` | piqo-server/src/storage.rs:825-998 | No operation rewrites a log that survives it, whatever state the store is in |
| `StoreRuns.StoreRefinesFold` | piqo-server/src/storage.rs:335-998 | After any sequence of operations, dropped commits, dropped deletions and cut-off restarts included: logs are numbered, name their session and only grow, projections of logs that fold only gain; and as long as nothing has missed a cached projection since the database was opened, every row and cached projection is the fold of its log |
| `StoreRuns.RunExtends` | piqo-server/src/storage.rs:335-998 | Every allowed operation extends every run |
| `Quiescence.ShutdownBatch` | piqo-server/src/supervisor.rs:298-326 | The loop that builds the shutdown batch, equal to its specification |
| `Quiescence.InterruptReplay` | piqo-server/src/supervisor.rs:298-326 | A batch of interruptions of distinct open runs is always accepted, whatever the number of runs |
| `Quiescence.ShutdownSettles` | piqo-server/src/supervisor.rs:298-326 | The shutdown batch is always accepted; afterwards every run is over, the session is not running, and finished runs are untouched; the batch is empty exactly when there was nothing to do |
| `Quiescence.RestartSettles` | piqo-server/src/supervisor.rs:263-290 | After a restart no waiting run has a native call that was started and did not come back; runs that had one are interrupted, no other run changes, and repeating it does nothing |
| `SessionLocks.CheckKeeps` | piqo-server/src/supervisor.rs:945-954 | Removing a table entry by reference count never takes a lock away from a task that still needs it |
| `SessionLocks.StepKeepsInv` | piqo-server/src/supervisor.rs:404-411 | Every step of every task keeps the invariant of locks, logs and of what tasks have read |
| `SessionLocks.ForkDisciplined` | piqo-server/src/storage.rs:900-998 | A fork of a numbered log is numbered |
| `SessionLocks.ForkNeverTwo` | piqo-server/src/storage.rs:900-998 | A fork of a log that never had two running runs never has two |
| `SessionLocks.OneWorkerPerSession` | piqo-server/src/supervisor.rs:827-954 | For every interleaving and abort: two tasks are never inside one session, tasks refer to the lock now in the table, no log ever has two running runs, and no run starts more often than the turn limit |
| `SessionLocks.LogsAreNumbered` | piqo-server/src/supervisor.rs:837-937 | For every interleaving, what tasks read stays true until they start a run, so every log is numbered as the turn bound needs |
| `SessionLocks.CheckRemovesExactly` | piqo-server/src/supervisor.rs:945-954 | The entry is removed exactly when the checking task holds the only clone |
| `SessionLocks.EntryCanOutliveItsTasks` | piqo-server/src/supervisor.rs:945-954 | A run after which no task is left and the entry is still there |
| `NativeClaims.GrowFacts` | piqo-core/src/session.rs:594-617 | What an append does to claims, and that it never withdraws an Allow |
| `NativeClaims.StepKeepsInv` | piqo-server/src/supervisor.rs:2151-2266 | Every step of every actor keeps the claim invariant |
| `NativeClaims.AtMostOnce` | piqo-server/src/supervisor.rs:2151-2266 | For every interleaving, stop and crash: the execution of a call starts at most once, after its claim is in the log, and the claim after an Allow for that call |
| `Stream.EventStream.SendRows` | piqo-server/src/lib.rs:1955-1961 | The replay loop yields exactly the rows above the last id |
| `Stream.EventStream.Take` | piqo-server/src/lib.rs:1962-1985 | One receive: an event that is not new is dropped, a lag reads the log again |
| `Stream.EventStream.Drain` | piqo-server/src/lib.rs:1962-1985 | The receive loop yields increasing ids above the last one, each from the channel or from the re-read log, and empties the channel |
| `Stream.FreshIncreases` | piqo-server/src/lib.rs:1956-1961 | Skipping ids that are not new leaves an increasing sequence |
| `Stream.PublishedInAnyOrder` | piqo-server/src/supervisor.rs:2810-2832 | For any order of publication there is a run in which a connection that never lags takes the events in that order; it delivers all of them without a gap if and only if that is the order of commits |
| `Stream.MissedEvent` | piqo-server/src/lib.rs:1962-1985 | A run in which two events are committed, the second is published first and processed: the first is not delivered, and is in no continuation of the run |
| `Stream.StepSound` | piqo-server/src/lib.rs:1948-1987 | Every step keeps what was delivered increasing, above the cursor and committed |
| `Stream.StepUnbroken` | piqo-server/src/lib.rs:1948-1987 | Publishing in order, every step keeps what was delivered free of gaps, across lag, re-reads and reconnects |
| `Stream.StreamExactness` | piqo-server/src/lib.rs:1948-1987 | For every interleaving: increasing committed ids above the cursor; published in order, an unbroken slice over any number of connections, and the whole log once caught up |
| `Stream.LostExactly` | piqo-server/src/lib.rs:1948-1987 | For every run, with any lags, re-reads and reconnects: an id is passed over if and only if at some step the connection took a larger one published before it, while it was above all that had been delivered or read, and that larger one is still delivered |
| `Stream.LostForGood` | piqo-server/src/lib.rs:1948-1987 | An id below one that the client has processed is never processed later |
| `Stream.StillToCome` | piqo-server/src/lib.rs:1939-1961 | Any other committed id can still be processed: the run goes on with a new connection |
| `Hub.EventHub.Subscribe` | piqo-server/src/supervisor.rs:53-61 | A receiver is promised what is published from now on, and unused channels are swept |
| `Hub.EventHub.Publish` | piqo-server/src/supervisor.rs:62-72 | Every live receiver of the session gets the event, no other does, and unused channels go |
| `Hub.EventHub.Take` | piqo-server/src/supervisor.rs:53-72 | A receiver gets its next event, or the number of events overwritten before it, or nothing yet, or the end if it was cut off and has read all |
| `Hub.OnlyOldestMissed` | piqo-server/src/supervisor.rs:53-61 | A receiver misses only the oldest events beyond the capacity, is told how many, and gets all the others in order, cut off or not |
| `Hub.EventHub.RemoveIfUnused` | piqo-server/src/supervisor.rs:74-82 | A channel goes exactly when no live receiver needs it |
| `Hub.EventHub.CloseSessions` | piqo-server/src/supervisor.rs:84-89 | Exactly the receivers of the closed sessions are cut off, and they keep what they have not read |
| `Framing.FrameEndIsEarliest` | piqo-server/src/supervisor.rs:3294-3303 | The cut is at the earliest empty line of either kind, and missing exactly when there is none |
| `Framing.CutStable` | piqo-server/src/supervisor.rs:3294-3303 | More bytes never move a cut that was found |
| `Framing.FramesSplit` | piqo-server/src/supervisor.rs:1311-1314 | Cutting the stream anywhere changes no frame |
| `Framing.FramesPartition` | piqo-server/src/supervisor.rs:1311-1314 | Frames, delimiters and rest are the bytes received; no frame contains an empty line |
| `Framing.ReadChunks` | piqo-server/src/supervisor.rs:1311-1314 | Chunk by chunk the frames are those of the whole |
| `Decoder.ScanSplit` | piqo-server/src/supervisor.rs:1306-1466 | Decoding a buffer and then more bytes is decoding both together |
| `Decoder.GatherNext` | piqo-server/src/supervisor.rs:1338-1369 | However fragments interleave, one more goes to the buffer of its key and to no other |
| `Decoder.FirstSaidIs` | piqo-server/src/supervisor.rs:1353-1368 | The id and the name of a buffered call are the first that any of its fragments carries |
| `Decoder.DeltasMeaning` | piqo-server/src/supervisor.rs:1328-1450 | What decoding a sequence of deltas gives, without decoding it: all its text, the calls sent whole and those gathered up to each completion, the buffers since the last, the usage reported last, and how it ends |
| `Decoder.ResponseMeaning` | piqo-server/src/supervisor.rs:1311-1466 | What a whole response gives: what its deltas say, up to the first that asks for an action, in the frames before the first that cannot be read |
| `Decoder.SameCall` | piqo-server/src/supervisor.rs:1346-1352 | Fragments with an index belong together exactly when the indexes are equal, whatever ids they carry; those without one, when the ids are |
| `Decoder.NamedFragments` | piqo-server/src/supervisor.rs:1346-1352 | A key that does not look anonymous collects exactly the fragments that name it |
| `Decoder.AnonymousApart` | piqo-server/src/supervisor.rs:1346-1352 | A fragment with neither index nor id opens a buffer of its own, unless a call id looks anonymous |
| `Decoder.PiecesComeApart` | piqo-server/src/supervisor.rs:1346-1352 | Two pieces of one call without index or id become two calls |
| `Decoder.FlushedOnce` | piqo-server/src/supervisor.rs:1370-1400 | Flushing emits every call as often as there are buffers that hold it |
| `Decoder.ResponseDecoder.HandleDelta` | piqo-server/src/supervisor.rs:1328-1450 | One delta, with its buffering and flushing, is the one-shot step, whose meaning `Decoder.DeltasMeaning` gives |
| `Decoder.ResponseDecoder.Feed` | piqo-server/src/supervisor.rs:1306-1466 | One chunk decodes every frame it completes |
| `Decoder.Decode` | piqo-server/src/supervisor.rs:1273-1534 | For every chunking and flush schedule: the verdict is that of decoding the whole response at once, the persisted text concatenates to its text (a prefix if cancelled), the persisted calls are its calls, and a retried attempt persisted nothing |
| `Retry.SentAtMost` | piqo-server/src/supervisor.rs:1195-1260 | A level of the retry recursion sends at most one request for every retry left, and one more |
| `Retry.AtMostTwentyOne` | piqo-server/src/supervisor.rs:1195-1260 | One call of the streaming loop of `execute_run`, retries included, sends at most 21 requests, and 21 are possible; requests for a compaction summary are not among them |
| `Retry.StoppingSendsLess` | piqo-server/src/supervisor.rs:1195-1571 | Ending early or cutting a wait never sends more |
| `Retry.ExecuteRun` | piqo-server/src/supervisor.rs:1195-1571 | The two nested retries, ended anywhere by cancellation, shutdown or failure: requests sent; on each level attempts that rise by one, and before each retry of a connection a shift that is the number of retries made before it; attempt numbers past the count of the run, shifts at most 4, waits at most 4 seconds |
| `Turns.TurnBound` | piqo-server/src/supervisor.rs:845-881 | A run starts at most as often as it has attempts on record, and at most max(1, limit) times |
| `Turns.ChancesShrink` | piqo-server/src/supervisor.rs:837-937 | Without new submissions the turns left never grow, and a start or an end uses some up |
| `Worker.NextQueued` | piqo-core/src/session.rs:705-717 | The next run has the lowest priority number, then the least id, of all queued runs |
| `Worker.ProcessSession` | piqo-server/src/supervisor.rs:837-937 | The worker loop ends whatever others append meanwhile, with any number of new submissions; every run it starts is the one to start in a projection it read: none is active, and it is the first ready run, with turns left, or else, in an open queue, the queued run of lowest priority number and least id; it keeps the numbering, and stops only when told to, when an append is refused, or when what it last read left nothing to start; alone, nothing is refused and nothing is left to do |
| `Worker.ChosenIsOne` | piqo-server/src/supervisor.rs:845-916 | At most one run is the one to start |
| `Worker.OpeningStarts` | piqo-server/src/supervisor.rs:837-937 | What an iteration appends starts exactly the run to start, with the next number, and fails exactly a ready run that has no turns left |
| `Worker.OpeningReplays` | piqo-server/src/supervisor.rs:837-937 | What an iteration appends is accepted; the run to start then runs its next attempt, the session too if the run was queued; and with all runs over in an open queue the session is no longer running |
| `Worker.StartIsNext` | piqo-server/src/supervisor.rs:845-916 | A start from what was read is accepted if and only if the run still has its status, and then carries the next number |
| `Worker.ExecuteApproved` | piqo-server/src/supervisor.rs:2161-2285 | The native-call loop ends with no eligible call left; exactly the eligible calls were claimed, each by its execution and with the result that reported, and the queue is resumed exactly when the run has them all |
| `Finishing.ClosingAccepted` | piqo-server/src/supervisor.rs:2552-2660 | Closing a run is accepted, except for a completion that finds an interrupted message; the run gets the status, error and usage of the result, the message it finds is completed or interrupted, and nothing else changes |
| `Finishing.FinishMeaning` | piqo-server/src/supervisor.rs:2552-2661 | On a log: finishing goes through exactly when a completion finds no interrupted message, or else the phase is Running; the session is left Failed, Interrupted or as it was, the run with the status, error and usage of the result, and the last open message completed or interrupted |
| `Finishing.FinishAccepted` | piqo-server/src/supervisor.rs:2580-2660 | Finishing goes through if and only if the phase is Running; the run is closed either way |
| `Finishing.CompletionStrandsOpenCalls` | piqo-server/src/supervisor.rs:1573-1576 | A completed run can hold calls without a result, and a client can then no longer give one |
| `Writers.StrandedCall` | piqo-server/src/supervisor.rs:2552-2576 | A log in which that happens, with what the completed turn appends to it |
| `Writers.TurnsReportUsage` | piqo-server/src/supervisor.rs:1572-1575 | A turn reports a result if and only if it is not a completion without usage |
| `Writers.RetryGoesFirst` | piqo-server/src/supervisor.rs:686-726 | Queueing a retry is accepted exactly for a new id and opens the queue; the run to start is then one that waited for its results, or a retry |
| `Writers.StepKeepsInv` | piqo-server/src/supervisor.rs:2506-2550 | No writer appends a request, decision, claim, result or agent event to sessions that have none, nor starts a run twice |
| `Writers.NothingIsManaged` | piqo-server/src/supervisor.rs:1962-2079 | In every run of the server, whatever its writers had read when they append: no permission is asked for or decided, no call claimed or answered, no child delegated; no run is ever ready to be continued, and none is started twice |
| `Writers.AskingWouldWork` | piqo-server/src/supervisor.rs:2512-2550 | On a completion without usage the branch would append an accepted batch with a request for every open call |
| `Finishing.SubmissionMeaning` | piqo-server/src/supervisor.rs:413-485 | A result that passes the checks is accepted; the run is ready exactly when all calls have results; repeating it records nothing |
| `Finishing.SubmitExactly` | piqo-server/src/supervisor.rs:413-485 | Exactly which client results are recorded, known already, or in conflict: the run waits and does not own its transcript, the call is the client's, and the first request for it was allowed |
| `Finishing.OwnedIsKept` | piqo-server/src/supervisor.rs:425-427 | A run owns its transcript exactly when its request fills the place where either protocol puts the transcript |
| `Permissions.MatchingRuleIsNarrowest` | piqo-server/src/storage.rs:262-287 | The rule used applies and no applicable rule is narrower, or as narrow and newer |
| `Permissions.NarrowestFirst` | piqo-server/src/storage.rs:262-287 | A rule of the session is used before one of the project, that before one of the configuration, and of one scope the newest |
| `Permissions.RulingMeaning` | piqo-server/src/supervisor.rs:1990-2053 | Exactly when a call is allowed or asked about: a configured Deny beats every rule, and an explicit ceiling is never exceeded |
| `Permissions.RulingNamesItsReason` | piqo-server/src/supervisor.rs:2018-2053 | A standing approval is named, with its scope, exactly when it decides; otherwise the configuration did, or nothing was configured |
| `Permissions.SettingsAreSeparate` | piqo-server/src/supervisor.rs:3175-3189 | Each built-in tool has its own setting, `edit` that of `write`; settings by name or for all others never touch them |
| `Permissions.StandingApprovalApplies` | piqo-server/src/supervisor.rs:565-604 | A standing approval applies to later calls of its tool if and only if the tool is not `edit` |
| `Permissions.StandingApprovalReaches` | piqo-server/src/supervisor.rs:565-604 | Where else a standing approval applies: for its agent and tool alone, in its session, in its project, or everywhere |
| `Permissions.EvaluateCalls` | piqo-server/src/supervisor.rs:1986-2075 | The loop over the open calls builds the batch of their rulings |
| `Permissions.OpenCallsFit` | piqo-server/src/supervisor.rs:1988-1989 | The calls visited are the open calls of the run, each once |
| `Permissions.AfterMeaning` | piqo-server/src/supervisor.rs:2054-2075 | One request per call, decided unless it is Ask, a result for every denied call, nothing else |
| `Permissions.BatchAccepted` | piqo-server/src/supervisor.rs:2054-2076 | The batch is always accepted and does exactly that |
| `Writers.ResolutionMeaning` | piqo-server/src/supervisor.rs:528-617 | An approval is always taken and approves exactly its call; a denial is taken exactly when the call has no other result, and answers it; deciding again appends nothing |
| `Delegation.StepKeepsForest` | piqo-server/src/supervisor.rs:2287-2428 | Creating, spawning and deleting keep the links a forest |
| `Delegation.DelegationForest` | piqo-server/src/supervisor.rs:2323-2334 | In every run: one parent per child, depth is the length of the path to a root and within the limit, no cycles, one child per call |
| `Delegation.SpawnSucceedsExactly` | piqo-server/src/storage.rs:220-249 | A delegation gets a child if and only if the depth allows it and no link of any session uses its call id; a refused link leaves the session behind |
| `Delegation.DeletedExactly` | piqo-server/src/storage.rs:757-768 | Deleting a project deletes exactly its sessions, and a link exactly with its child |
| `Delegation.SecondCallRefused` | piqo-server/src/storage.rs:220-249 | A run in which two sessions delegate from calls with the same id: the second gets no child, and its session stays |
| `Delegation.ExceedsExactly` | piqo-server/src/supervisor.rs:2343-2350 | Exactly when a delegated agent may do more with a tool than an agent above it, up to the agent of the root run, is set to; the one right above is never exceeded |
| `Delegation.NarrowingIsSafe` | piqo-server/src/supervisor.rs:2343-2350 | If nobody on the way down is set to more than the agent above, nobody above is exceeded |
| `ChildResult.Truncate` | piqo-server/src/supervisor.rs:2940-2949 | The longest beginning of a text that fits the bytes allowed, cut between two characters |
| `ChildResult.ResultFor` | piqo-server/src/supervisor.rs:2691-2732 | The result handed over for a child's run, built as the source builds it |
| `ChildResult.HandedMeaning` | piqo-server/src/supervisor.rs:2691-2732 | A result is handed over exactly when the log has ended the run, and says how; for a completed run alone it holds text, the longest beginning that fits of what the log appended to the assistant's last message |
| `ChildResult.TurnIsHanded` | piqo-server/src/supervisor.rs:2552-2705 | What a turn of the child comes to is what its parent is told: nothing while it waits for an action, otherwise the way the turn ended |
| `Delegation.GrandchildExceeds` | piqo-server/src/supervisor.rs:2343-2350 | A run of the tables in which the agent of the root run is set to Deny, its child is held to that, and the grandchild may use the shell |
| `Delegation.ChildReports` | piqo-server/src/supervisor.rs:2733-2749 | The record in the child is refused exactly when the child does not know its agent, and is written once |
| `Delegation.DeliveryAccepted` | piqo-server/src/supervisor.rs:2750-2787 | A result is taken if and only if the parent spawned the agent and its call still takes it; delivering again appends nothing |
| `Delegation.DeliveryResumes` | piqo-server/src/supervisor.rs:2760-2790 | The delivery makes its waiting run ready exactly when the worker is run, and makes no other run ready or active |
| `Admission.ReserveBalancedExactly` | piqo-server/src/supervisor.rs:115-131 | Reserving keeps the books straight if and only if the run has no reservation |
| `Admission.ReleaseKeeps` | piqo-server/src/supervisor.rs:133-145 | Releasing keeps the books straight, never saturates, and is idempotent |
| `Admission.ReleaseUndoesReserve` | piqo-server/src/supervisor.rs:115-145 | Releasing gives back exactly what reserving took |
| `Admission.CountsAddUp` | piqo-server/src/supervisor.rs:91-96 | The counts per session add up to the pending count |
| `Admission.AdmissionController.Reserve` | piqo-server/src/supervisor.rs:115-131 | A run is admitted exactly below both caps |
| `Admission.AdmissionController.Release` | piqo-server/src/supervisor.rs:133-145 | The release in place |
| `Admission.AdmissionController.ReleaseEnded` | piqo-server/src/supervisor.rs:2821-2845 | A committed batch releases exactly the runs it ends |
| `Admission.AdmissionController.Submit` | piqo-server/src/supervisor.rs:356-374 | A failed append gives the reservation back; a failure before the append does not |
| `Admission.EndedAreTerminal` | piqo-server/src/supervisor.rs:2834-2845 | The runs released over a log are exactly the runs its projection calls terminal |
| `AdmissionRuns.SupervisedMeaning` | piqo-server/src/supervisor.rs:2821-2845 | Over all sessions: a batch ends runs in its own session and gives back the reservations of all runs it names |
| `AdmissionRuns.StepMoves` | piqo-server/src/supervisor.rs:2821-2845 | No ended run keeps its reservation; and every open run that was queued keeps holding its own if and only if the step does not end a copy of a run that is open elsewhere |
| `AdmissionRuns.OpenRunsWithinLimits` | piqo-server/src/supervisor.rs:115-145 | As long as no copy of an open run is ended, open runs hold their reservations and are within the limits, in all and per session |
| `AdmissionRuns.CancelledCopyFreesPlace` | piqo-server/src/storage.rs:955-962 | A run in which the copy of a queued run is cancelled in a fork: the run is still open and its place is given away |
| `Compaction.EstimateMeaning` | piqo-core/src/context.rs:57-68 | The saturating estimate is monotone and is the plain formula until a term saturates |
| `Compaction.ThresholdsAreExact` | piqo-server/src/supervisor.rs:1628-1629 | The trigger is the least integer at or above its share of the budget, the target the greatest at or below its own |
| `Compaction.TriggerWithinBudget` | piqo-server/src/config.rs:794-802 | A validated trigger lies within the input budget |
| `Compaction.RangeAdvances` | piqo-server/src/supervisor.rs:1660-1671 | An artifact keeps the start of its chain and ends strictly later |
| `Compaction.ChainStartsAtFirst` | piqo-server/src/supervisor.rs:1663-1668 | The first artifact starts where the earliest closed message starts |
| `Compaction.CorrelationsAreTheRest` | piqo-server/src/supervisor.rs:1709-1725 | A call is either shown in the requests made with the artifact or among its correlations, never both; these come by run and then by call, each once |
| `Compaction.RemainingExactly` | piqo-server/src/supervisor.rs:1634-1647 | Compacting loses nothing if and only if the summarised messages closed no later than the last of them and the last four after it |
| `Compaction.InOrderNothingLost` | piqo-server/src/supervisor.rs:1634-1647 | When messages close in order each is covered or still shown, and the last four are always shown |
| `Compaction.LateCloseLosesMessages` | piqo-server/src/supervisor.rs:2795-2806 | An accepted log whose first assistant message is interrupted after four others closed: compacting its projection leaves those four neither shown nor summarised |
| `Compaction.BuildCompactedBody` | piqo-server/src/supervisor.rs:1578-1780 | Outside the bypass a body that is sent fits into window less reserve; exactly when the body is sent as it is, compacted, over budget or without a summary, and with which code it fails; a compaction is recorded exactly when its body is sent |
| `Compaction.CompactionChain` | piqo-server/src/supervisor.rs:1726-1779 | Over a log of chained compactions: one start, strictly increasing ends, the last one active |
| `Compaction.BuiltIsChained` | piqo-server/src/supervisor.rs:1578-1780 | Compactions that record what the builder made of an earlier projection, with none in between, are chained |
| `SessionLocks.CompactionsAreChained` | piqo-server/src/supervisor.rs:1610-1779 | For every interleaving: a turn reads, others append, and what it then records still continues the active artifact, so that the compactions of every log form one chain |
| `RequestBody.MergeRequestBodies` | piqo-provider/src/body.rs:8-23 | The merge loop; it fails exactly at the first layer that is not an object |
| `RequestBody.LastLayerWins` | piqo-provider/src/body.rs:8-23 | Each key holds the value of the last layer that has it |
| `RequestBody.LayeredGroups` | piqo-provider/src/body.rs:8-23 | Merging groups of layers and then the results is merging all layers |
| `RequestBody.LayerPrecedence` | piqo-server/src/config.rs:954-982 | Which layers there are and in which order: defaults, model, agent file, agent table, variant, request; anything but an object counts as empty |
| `RequestBody.FilledPreserves` | piqo-server/src/supervisor.rs:2966-2984 | Filling the gaps changes no merged key and adds only model, stream, tools and transcript |
| `RequestBody.EntriesAre` | piqo-server/src/supervisor.rs:2985-3030 | Before calls are placed the transcript is the instructions, the summary, and exactly the closed messages the artifact does not cover, in the order they were begun |
| `RequestBody.AttachCalls` | piqo-server/src/supervisor.rs:3032-3052 | The loop that puts calls on the transcript, and exactly when its index runs past the end |
| `RequestBody.AlignedExactly` | piqo-server/src/supervisor.rs:3032-3052 | Every call list sits on its message if and only if, for every message that carries calls, its place in the transcript is the place found by counting closed messages |
| `RequestBody.FoundInOrder` | piqo-server/src/supervisor.rs:3032-3052 | When messages closed in order, the place of a message past the artifact is found if and only if the artifact covers no more messages than stand before the transcript; always so without an artifact |
| `RequestBody.CallsAre` | piqo-server/src/supervisor.rs:3033-3040 | The calls the transcript is built from are exactly the calls of all runs |
| `RequestBody.CallsAreListed` | piqo-server/src/supervisor.rs:3033-3040 | All calls of all runs are listed, each once, by run key and then by call key |
| `RequestBody.CallsAreCounted` | piqo-server/src/supervisor.rs:3033-3040 | There are as many as the runs have calls in all |
| `RequestBody.EmittedAreListed` | piqo-server/src/supervisor.rs:3033-3043 | What an entry gets for a message is exactly the visible calls that name it, each once, by run key and then by call key |
| `CompactedLog.CompactedIsBuilt` | piqo-server/src/supervisor.rs:1634-1779 | A log of three completed runs and the input of a fourth, then the compaction the builder records for it, whatever its budget and summary |
| `CompactedLog.MisplacedCalls` | piqo-server/src/supervisor.rs:3023-3052 | In the request made right after that compaction the calls of the first answer shown stand on the entry of the other one |
| `CompactedLog.CallsPastTheEnd` | piqo-server/src/supervisor.rs:3023-3052 | One answer with a call and one question later, the index of that answer lies past the end |
| `Pagination.DescendingIs` | piqo-server/src/storage.rs:543-586 | The listing holds every row once, newest first |
| `Pagination.NewestFirst` | piqo-server/src/storage.rs:557-571 | No session is listed before a newer one; of two as old the greater id comes first |
| `Pagination.CursorRoundTrip` | piqo-server/src/storage.rs:1269-1279 | A cursor gives back its parts if and only if both are nonempty and the timestamp has no separator |
| `Pagination.ClampIsNearest` | piqo-server/src/storage.rs:548 | A page size between 1 and 200 is kept; any other becomes the nearer of the two |
| `Pagination.PageIsNext` | piqo-server/src/storage.rs:608-653 | A page is the next rows of the listing, and names a next page exactly when there is one |
| `Pagination.ListAll` | piqo-server/src/storage.rs:543-586 | Following cursors lists every session once, in order, and ends, for every page size; every page but the last is as long as asked for, within 1 and 200 |

## Left out

- HTTP routing, request and response types, error envelopes, the command line and process start-up.
- SQL text, migrations, WAL mode and serialisation: tables are maps and sequences with the constraints the schema states.
- Timestamps on events and rows, session titles' updates, history retention and backups: they decide nothing modelled here.
- Two store calls interleaving inside one another: a projection read that is cached after a concurrent append is not modelled.
- Integer overflow of ids, revisions and counters, except in the token estimate.
- What tools, MCP servers and providers do, and LLM summaries: an execution, an answer or a summary is an arbitrary value.
- The content of a provider frame: `parse_sse_event` is an arbitrary function from frames to deltas; field lines of a frame are part of it.
- Responses that do not stream: their deltas are persisted in one pass, without framing or buffering.
- Store failures in the middle of decoding: the run fails; which part of the text was persisted is not stated.
- The transcript of a Responses request and the tool results appended to a Chat transcript: lists built in one pass.
- Byte limits on delegated context, and validation of a delegation request: checks that refuse before anything is written.
- Configuration files, credentials, provider discovery and Markdown agents; layers are given as JSON objects.
- `PermissionPolicy` in piqo-core/src/permissions.rs: a first-match lookup the supervisor does not use.
- Draining the semaphore of active runs, cancellation tokens and timeouts: a turn ends in any way at any time.
- Compaction.InOrderNothingLost: takes the same hypothesis; `Compaction.RemainingExactly` gives the exact condition without it.
- Compaction.BuildCompactedBody: ratios are reals where the source uses binary floating point.
- Turns.TurnBound: the turn limit is one number; with a limit that changes it is the largest.
- Delegation.DelegationForest: the depth limit is one number; with a limit that changes it is the largest.
- Worker.ExecuteApproved: nobody else claims or answers calls of the run while the loop goes on; `NativeClaims.AtMostOnce` has any number of actors.
- StoreRuns.StoreRefinesFold: a database that is refused when opened is not served; the runs let operations go on with its tables, which only adds runs.
- SessionLocks.OneWorkerPerSession: the turn limits that tasks read may differ and change; `maxTurns` is one they do not exceed.
- AdmissionRuns.OpenRunsWithinLimits: counts runs queued through admission since the server started; runs left queued by an earlier process, and runs of delegated children, hold no reservation in the source either.
- Writers.NothingIsManaged: a writer that appends several times in a row appends one batch, and a phase change is a writer of its own; a worker that starts a run is taken to hold the session's lock since its reading, as `SessionLocks` has it.
- Delegation.ExceedsExactly: one configuration, and parents that delegate from the run they were delegated for.
- Hub.EventHub.Take: the capacity is the number of events a channel keeps; rounding it up to a power of two is left out.
- NativeClaims.AtMostOnce: concerns one session; calls of different sessions have different logs. An actor may stop between claim and execution, and then the call is never executed.
