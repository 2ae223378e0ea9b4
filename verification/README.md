# A verified model of the job engine

The repository is a durable job engine in C++: a coordinator that takes jobs and workflows of jobs, hands
them to workers under leases, retries and times them out, and survives a crash; a group-commit store below
it; a bounded priority queue; and an HTTP/JSON front end. This project models the parts with the most state
and proves what they keep over every input, every run and every interleaving.

## What is proved

* **The coordinator** (`EngineModel` to `EngineExamples`, class `JobEngine` in `Engine.dfy`). One engine
  operation is one step of a state machine; a run is any sequence of enabled steps, crashes with recovery
  included, between operations or inside one. One invariant ties the job rows, the queue, `running_`,
  `outstanding_`, the dependency counts and the workflow counters together, and every step keeps it. From it, in
  every run: no job is lost or held twice, slots are conserved, a node starts only after all its ancestors
  succeeded, the counters of workflows are exact and a workflow is finalised, rightly, when its last node ends,
  attempts are bounded, no attempt begins before it is due, the holder of a lease and nobody else reports on it,
  every job ends for the reason its state names, and is cancelled only at somebody's wish, a cancelled job never
  succeeds. What each operation does to the job it names, to all others and to its caller's answer is stated field
  by field. What a crash can spoil is characterised exactly: propagation of failures, release
  of children and labels by conditions on the table it leaves, room in the queue by a condition on the restart and
  on every later step. Each method of `JobEngine` is proved to perform one step
  of the machine (`SubmitWorkflow` and `RecoverEngine` included, with their loops), so the theorems are about the
  class.
* **Leases** (`Leases`, `LeaseGraph`, `LeaseExamples`) at the grain of single lock sections and single store
  accesses, where calls interleave freely: first the machine of one job, then the machines of all nodes of a
  workflow together, tied by its graph.
* **The workflow graph** (`Graphs`, `Kahn`, `WorkflowGraph`): Kahn's loop accepts exactly the acyclic graphs.
* **The group-commit store** (`StoreModel` to `StoreExamples`, class `JobStore` in `Store.dfy`): reads through
  the cache are linearizable, id by id, a crash leaves a prefix, an acknowledged insert is committed, flush is a
  barrier. `EngineStore` ties the write log of the coordinator's machine to the store's buffer: every store step
  is a step of that log, and what a crash leaves of the buffer is what a restart of the machine reopens.
* **The priority queue** (`Queue.dfy`): two heaps, tombstones, index and counters stand for one map, and what is
  popped is, of the entries that are due, the highest priority, then the oldest.
* **HTTP framing** (`Http.dfy`): what the three verdicts of the parser mean in bytes, and which streams are framed
  the same way however they are cut.
* **JSON** (`JsonModel`, `JsonGrammar`, `JsonReads`, `JsonDerives`, `JsonRoundTrip`, `JsonBounds`, `JsonLayout`,
  `JsonUnicode`, `Json.dfy`): the parser accepts exactly the texts of the grammar of RFC 8259 that nest at most 64 deep, and gives
  the value each stands for; print then parse, for all values without floats; escapes and UTF-8.
* **Backoff** (`Backoff.dfy`) over the reals.

Imperative source is imperative here: classes with the source's fields, methods with its loops, each proved
against a function that says what it computes; the theorems are about those functions.

## Where the code does less than one would expect

* A crash can leave a pending node below a parent that has already ended, and that node never starts in the next
  process. If the parent succeeded, `recover()` begins again with the full in-degree that was stored and the
  parent never reports again; if it failed, the skip of the node was lost and nobody repeats it.
  `StrandedByRestart` proves it for every such node, `ReleasedAfterRestart` that every other pending node waits
  only while a parent is open, `DeadAfterRestartIff` that these are exactly the dead nodes, `FailureReachesAll`
  and `NothingStuck` that nothing else goes wrong. `NodeCanBeStranded` and `FailureCanBeLost` are runs.
* A recovery can find more open jobs than `max_outstanding_jobs`. Whatever is pushed while the queue is full is
  answered Full, and stays QUEUED in no queue until the next restart. `RestartQueuesAllIff` says exactly when the
  recovery itself loses a job that way, `StepQueuesAllIff` when a later operation of the process does.
  `AcceptedCanBeDropped` is a run at capacity one, in which two jobs that were never open together are both open
  after the crash; in `ReleasedCanBeDropped` all that waits after the recovery fits, and a later release does not.
* The label of a workflow is written at once and last, job rows are buffered. After a crash the label can say
  SUCCEEDED while a node runs again and fails (`VerdictCanBeFalse`), or RUNNING although every node has ended, and
  then it stays so until a client cancels the workflow (`EndedCanStayRunning`, `EndedStaysRunning`).
  `RestartLabelIff` gives the exact condition, through the position in the log of the workflow's last ending write.
* The store's flush error is never cleared: after one failed batch every later insert is refused although its
  row is committed (`RefusedIff`, `RefusedThoughDurable`). This contradicts the comment at
  src/engine/engine.cpp:52-54 that a rejected submission never leaves a row behind.
* An update issued before its insert is committed can be lost without any failure: it survives iff it is not taken
  in an earlier batch than the insert (`EarlyUpdateSurvivesIff`, `EarlyUpdateIsLost`). The engine never issues one
  (`EngineUpdatesAreProper`). After a failed commit a read can return a superseded row, for exactly the ids whose
  newest write was lost (`ReadIsCurrent`, `ReadIsStale`, `FailedCommitHidesWrite`).
* A row that has ended can be brought back to life. `release_dependents` reads and writes a row outside the lock, so
  a stale release can undo a cancellation (`CancellationCanBeUndone`). `cancel` reads and writes the row in two
  accesses, and the result of an attempt is written outside the lock, so a stale cancel can undo a result and leave
  the row RUNNING with nobody to run it until a restart (`SuccessCanBeUndone`, `RetryCanBeLost`, `AbandonedIff`,
  `AbandonedForGood`). These are the only two ways (`ResurrectionIff`) for a job that is not both released and below
  an ancestor that ended without success. A job that is both, a clash, exists only below a node that was itself
  brought back to life (`ClashNeedsRevival`), so every revival goes back to those two (`RevivalGoesBack`); in a clash
  a SKIPPED node can start (`SkippedCanStart`) and a result can be recorded under a wrong attempt (`WrongAttempt`).
  This is why the coordinator's theorems take one operation as one step.
* The transition table is documented as what every transition goes through (include/jobengine/job.hpp:14-15), but
  nothing outside the tests calls it, and the code leaves it in one place: an attempt takes a SCHEDULED or RETRYING
  row straight to RUNNING. `StepMovesRows` proves that all other moves are in the table, `TransitionTable` what the
  table holds.
* A header block that ends at `kMaxHeaderBytes - 2` to `kMaxHeaderBytes` is accepted or refused depending on
  where packets end (`IndependentIffClear`).
* A workflow with a repeated edge passes the graph check and then fails in the store, whose primary key for
  dependencies is the edge (src/store/store.cpp:70-75); `SubmitWorkflow` answers StoreError for it.

## Assumptions of the model

* Group commit is on, so `update_job` always answers true (src/store/store.cpp:336-365). Ids and lease tokens are
  fresh; ids are naturals. Plain submits carry no workflow and no dependency count, as in the API.
* Time, randomness, the order in which sets are iterated, how many updates a crash keeps, and which statement
  the database refuses are parameters of the steps.
* SQLite is a map with atomic transactions. That a crash keeps a prefix of the updates is assumed of no one: it is
  the store's theorem (`CrashLeavesPrefix`, `CrashIsReopen`), up to the first failed commit.
* A crash inside an operation comes after any number of its row updates and before its label write; a crash after the
  label write is one between operations. The rows of a new workflow and its label are one transaction.
* Which of the entries that are due is popped is free in the coordinator's machine; the order is the queue's theorem.
  The wall clock of `ready_at` and the steady clock of the queue are one clock.
  The watchdog may expire any running lease, which includes the ones that are due.

## Model

| member | source | states |
|---|---|---|
| `EngineRuns.RunKeepsInv` | src/engine/engine.cpp:102-401 | the invariant over rows, queue, running entries, slots, dependency counts and workflow counters holds in every state of every run, crashes included |
| `EngineRuns.StepKeepsInv` | src/engine/engine.cpp:102-553 | each of the eleven operations keeps that invariant |
| `EngineRuns.NoJobLostOrHeldTwice` | src/engine/engine.cpp:168-401 | in every state of every run an open job is in exactly one place: pending with a positive count, one live queue entry or one popped entry, one running entry with the token of the row, or, if this process's push of it was answered Full, in the set of those |
| `EngineRuns.SlotConservation` | src/engine/engine.cpp:56-73 | `outstanding_` is the number of open jobs; unless this process recovered more than the limit it stays within it and no push was answered Full |
| `EngineCapacity.RestartQueuesAllIff` | src/engine/engine.cpp:1015-1032 | the restart step queues every waiting job iff the rows waiting or running in the surviving table number at most the capacity; otherwise the queue is full and the rest is lost to it |
| `EnginePushes.StepQueuesAllIff` | src/engine/engine.cpp:88-98 | in every run, any other step loses a job to the full queue iff the queued jobs and those the step makes wait are more than the capacity; what it loses is among the latter, and the queue is then full |
| `EnginePushes.QueueFits` | src/queue/queue.cpp:12-16 | in every run the queue holds at most the capacity |
| `EngineCapacity.NothingDroppedWhileFitting` | src/engine/engine.cpp:88-98 | in a process whose recovery fitted, whatever waits is queued or popped |
| `EngineCapacity.DroppedNeverStarts` | src/engine/engine.cpp:1015-1032 | a job answered Full is in no container and never starts before the next restart |
| `QueueExamples.AcceptedCanBeDropped` | src/engine/engine.cpp:1015-1032 | a run at capacity one that leaves an accepted node QUEUED in no queue |
| `FanExamples.ReleasedCanBeDropped` | src/engine/engine.cpp:798-806 | a run whose recovery queues all that waits, and a later release of the same process finds the queue full |
| `EngineRuns.AncestorsSucceeded` | src/engine/engine.cpp:785-807 | in every state, crashes included, a job that has started has only succeeded ancestors |
| `EngineRuns.BeginsAfterParents` | src/engine/engine.cpp:212-308 | an attempt begins only when every parent has succeeded |
| `EngineProgress.FailureReachesAll` | src/engine/engine.cpp:809-850 | in every run, every descendant of a job that ended without success is skipped or cancelled, or lies at or below a dead node; without a crash there is none |
| `EngineProgress.StepKeepsPropagated` | src/engine/engine.cpp:809-850 | an operation keeps failures propagated, whatever happened before |
| `EngineProgress.RestartKeepsPropagatedIff` | src/engine/engine.cpp:984-1041 | after a restart failures are propagated iff the surviving table has no open node under a parent that ended without success |
| `EngineRuns.CountersExact` | src/engine/engine.cpp:755-783 | for every workflow with an open node, in every run, the two counters are the numbers of open and of failed nodes |
| `EngineRuns.FinalisedOnce` | src/engine/engine.cpp:852-864 | without a crash a workflow is finalised exactly once, when its last node ends, as succeeded iff no node failed, unless a client cancelled it |
| `EngineLabels.FinalisedAtTheEnd` | src/engine/engine.cpp:755-783 | in every run, crashes behind it or not, an operation finalises a workflow iff it ends its last open node, then turns RUNNING into FAILED iff some node failed and else into SUCCEEDED, and no other operation touches the label except a client's cancellation |
| `EngineLabels.FinalisedOncePerProcess` | src/engine/engine.cpp:770-783 | between restarts a workflow is finalised once if its last open node ended in between, and else not at all |
| `EngineProgress.NothingStuck` | src/engine/engine.cpp:785-807 | in every run, with no dead node, while a job is open some open job is past pending: queued, in hand, answered Full, or running |
| `EngineProgress.SomethingMoves` | src/engine/engine.cpp:785-807 | with no dead node and no job answered Full, while a job is open some open job is queued, in hand or running |
| `EngineProgress.WaitsForSomething` | src/engine/engine.cpp:785-807 | in every run each open job is at or below an open job that is not pending or a dead node |
| `EngineProgress.StuckBelowDead` | src/engine/engine.cpp:785-850 | conversely, a dead node and everything below it never starts before the next restart |
| `Jobs.TransitionTable` | tests/test_job_state.cpp:54-89 | the check accepts exactly the documented pairs; the terminal states are the five documented ones and exactly those that nothing follows |
| `EngineHistory.StepMovesRows` | src/core/job.cpp:58-84 | every step moves every row along the transition table or not at all, except that a start takes a SCHEDULED or RETRYING row to RUNNING; raises its attempt by one exactly when it starts; and leaves a row alone that waits before and after |
| `EngineTiming.NoAttemptBeforeReady` | src/queue/queue.cpp:56-87 | in every run whose pops and starts follow the clock, no attempt begins before the job's `ready_at` |
| `EngineHistory.TerminalIsFinal` | src/core/job.cpp:43-54 | between restarts a terminal row never changes again |
| `EngineHistory.FinalLabelStays` | src/engine/engine.cpp:734-753 | no final workflow label is ever overwritten, a client's CANCELLED included, restarts included |
| `EngineHistory.StartsAreAttempts` | src/engine/engine.cpp:225-240 | without a crash the number of starts of a job is its attempt number, and at most `max_attempts` |
| `EngineHistory.AttemptBound` | src/engine/engine.cpp:1015-1032 | after k crashes an attempt number is at most `max_attempts` + k |
| `EngineOutcomes.JobsEndRightly` | src/engine/engine.cpp:310-401 | in every run each terminal state has its cause: SUCCEEDED only by an ok report under the current lease, FAILED and TIMED_OUT only with attempts used up, CANCELLED only at a client's wish or a worker's report of it, SKIPPED only below a job that just ended badly |
| `EngineRequests.CancelledMeansAsked` | src/engine/engine.cpp:168-208 | in every state of every run, restarts included, a job that is CANCELLED or marked for it was cancelled by a client, or its remote worker reported that it was |
| `EngineAttempts.StartedOnce` | src/engine/engine.cpp:212-262 | whatever runs was started by one step of the run, since which it has been running |
| `EngineAttempts.LeaseOnRecord` | src/engine/engine.cpp:250-262 | while an attempt runs the record of it has the token, owner and place its start gave, the next attempt number, and as reason a client's cancel since the start, else a passed deadline since, else none |
| `EngineAttempts.HolderIsAccepted` | src/engine/engine.cpp:949-980 | while an attempt runs, a completion is Accepted iff it names the owner, token and attempt of its start, and else StaleLease |
| `EngineAttempts.NobodyElseIsAccepted` | src/engine/engine.cpp:949-963 | a completion for a job that does not run is answered StaleLease and changes nothing |
| `EngineAttempts.ResultSettles` | src/engine/engine.cpp:325-400 | the result of an attempt makes the job CANCELLED if a client cancelled it since the start, else RETRYING or TIMED_OUT if a deadline passed since, by whether attempts are left, else SUCCEEDED, RETRYING or FAILED as reported; all other fields, the lease and the ready time included, are given |
| `EngineEffects.BeginTakesEffect` | src/engine/engine.cpp:212-308 | a popped job that waits becomes RUNNING under the given token and owner with the next attempt number, or CANCELLED if that was asked; any other entry changes nothing |
| `EngineEffects.ExpiryTakesEffect` | src/engine/engine.cpp:507-551 | an expired lease is gone, and the job is QUEUED, pushed and ready now iff attempts are left, else FAILED; an expiry of a job that does not run changes nothing |
| `EngineEffects.CancelTakesEffect` | src/engine/engine.cpp:168-208 | a cancel marks the row; a running attempt stays RUNNING and is told, any other open job is CANCELLED and out of the queue; an unknown or ended job changes nothing |
| `EngineEffects.OthersStay` | src/engine/engine.cpp:785-850 | besides the job it names an operation changes only pending jobs: it releases children of a job it ends with success, SCHEDULED iff not yet due and else QUEUED, and skips jobs below one it ends without; nothing else of their rows |
| `EngineEffects.SubmitTakesEffect` | src/engine/engine.cpp:118-136 | a job taken in has at least one attempt and at least no delay, as asked, is ready at now plus the delay, and is SCHEDULED iff there is a delay |
| `EngineEffects.WorkflowTakesEffect` | src/engine/engine.cpp:663-690 | every node of a new workflow has the attempts, delay and ready time asked for, counts its parents, and is PENDING iff it has any |
| `EngineEffects.SubmitAnswers` | src/engine/engine.cpp:102-144 | the answer to a submit is UnknownType, QueueFull, StoreError or Ok, each exactly by its cause, and Ok iff the job is in the table afterwards |
| `EngineEffects.CancelAnswers` | src/engine/engine.cpp:168-176 | the answer to a cancel is NotFound iff the job is unknown and AlreadyTerminal iff it has ended, and then nothing changes |
| `EngineOutcomes.ReportTakesEffect` | src/engine/engine.cpp:340-400 | a report under the current lease ends the job as reported, or has it retried exactly while attempts are left, pushed for the end of its backoff |
| `EngineCancellation.CancellationSticks` | src/engine/engine.cpp:461-469 | no step of a live engine forgets a client's cancellation of a running attempt, a passed deadline included |
| `EngineCancellation.CancelIsHonoured` | src/engine/engine.cpp:168-208 | a running job that was cancelled stays marked while it runs, and any result of its in-process worker then ends it as CANCELLED |
| `EngineCancellation.CancelledNeverSucceeds` | src/engine/engine.cpp:168-208 | once a cancel is accepted, of a waiting or a running job, in process or remote, the job never starts again and never succeeds before a restart, whatever its worker reports |
| `EngineCancellation.DoomedForGood` | src/engine/engine.cpp:168-401 | a job with the request on its row and, while it runs, on its attempt never starts and never succeeds before the next restart |
| `EngineCancellation.DoomedAfterRestartIff` | src/engine/engine.cpp:1015-1032 | a restart keeps that so iff the surviving row has the request on it or has ended without success |
| `EngineCancellation.CancelSurvivesRestart` | src/engine/engine.cpp:1015-1032 | a request that survives the crash is honoured by the next process: the job neither starts nor succeeds |
| `EngineCancellation.CancelStops` | src/engine/engine.cpp:168-208 | a cancel leaves its job terminal, or running with the request on its row and on its attempt, and keeps this of every other job |
| `EngineOutcomes.SubmitAccepts` | src/engine/engine.cpp:102-144 | a job is taken in iff its type is known, a slot is free and the store agrees, and then waits unstarted in the queue; otherwise nothing changes |
| `EngineOutcomes.RecoveryResumesAll` | src/engine/engine.cpp:1015-1032 | after a restart interrupted jobs are QUEUED, ready now, without a lease and otherwise as they were; all other rows are those of the surviving table, and whatever waits is queued or was answered Full |
| `EngineStranding.SlackIsConstant` | src/engine/engine.cpp:785-807 | between restarts the excess of a pending node's count over its unmet parents never changes, and is zero if it ever starts |
| `EngineStranding.DeadOnlyByRestart` | src/engine/engine.cpp:785-850 | no operation makes a node dead, that is pending with too high a count or under a failed parent |
| `EngineStranding.DeadAfterRestartIff` | src/engine/engine.cpp:1002-1032 | right after a restart a pending node is dead iff a parent of it has ended in the surviving table |
| `EngineStranding.DeadNeverStarts` | src/engine/engine.cpp:785-807 | a dead node never starts before the next restart |
| `EngineProgress.StrandedByRestart` | src/engine/engine.cpp:1002-1032 | a node pending after a restart with an ended parent never starts before the next restart |
| `EngineProgress.ReleasedAfterRestart` | src/engine/engine.cpp:1002-1032 | a node pending after a restart without such a parent stays pending only while some parent is open |
| `EngineExamples.NodeCanBeStranded` | src/engine/engine.cpp:785-807 | a run in which a crash between a success and the release it causes strands the child |
| `EngineExamples.FailureCanBeLost` | src/engine/engine.cpp:809-850 | a run in which a crash between a failure and the skip it causes leaves the child pending, with nothing queued or running |
| `EngineLabels.LabelStaysExact` | src/engine/engine.cpp:852-864 | between restarts the label of a workflow that agrees with its rows keeps agreeing, whatever other labels say |
| `EngineLabels.NewLabelExact` | src/engine/engine.cpp:690-732 | a new workflow starts with such a label |
| `EngineLabels.RestartLabelIff` | src/engine/engine.cpp:984-1041 | after a restart a verdict agrees with the rows iff it was right and the log kept the workflow's last ending write; RUNNING agrees unless all its nodes had ended and that write was kept |
| `EngineLabels.AllEndedIff` | src/store/store.cpp:886-950 | a prefix of the log shows a workflow with every node ended iff all of it does and the prefix reaches the last ending write |
| `EngineLabels.EndedStaysRunning` | src/engine/engine.cpp:852-864 | a workflow labelled RUNNING with every node ended stays so, between restarts, until a client cancels it |
| `EngineExamples.EndedCanStayRunning` | src/engine/engine.cpp:386-398 | a run in which the crash falls between the last row and the label, and the ended workflow is RUNNING after it |
| `EngineExamples.VerdictCanBeFalse` | src/engine/engine.cpp:852-864 | a run that ends with a SUCCEEDED workflow holding a failed node |
| `EngineBooks.RetireKeeps` | src/engine/engine.cpp:755-783 | ending a job, with the release of its children or the skipping of its descendants, keeps the invariant |
| `EngineBooks.FailureRows` | src/engine/engine.cpp:809-850 | a failure skips exactly the open descendants, all of which are pending and in the same workflow; no other row changes |
| `EngineBooks.SuccessUnmet` | src/engine/engine.cpp:785-807 | a success lowers the number of unmet parents by one for its children and for no other node |
| `EngineRetire.MeetDepsEffect` | src/engine/engine.cpp:785-807 | counting off the children lowers each positive count by one and returns exactly those that reach zero |
| `EngineRetire.PushFits` | src/queue/queue.cpp:12-54 | a job that holds a slot and is nowhere placed finds room in the queue |
| `EngineRecovery.RestartKeeps` | src/engine/engine.cpp:984-1041 | recovery from any surviving prefix of the updates re-establishes the invariant |
| `EngineStore.NewProcessMirrors` | src/store/store.cpp:852-855 | a new process over a table starts with that table as its log's base and no update |
| `EngineStore.StepMirrors` | src/store/store.cpp:336-406 | every step of the store that retires no failure acts on the machine's log as it should: a committed or direct insert adds rows, an update adds a write, nothing else changes it |
| `EngineStore.CrashIsReopen` | src/store/store.cpp:886-950 | what a crash leaves in the database is the table a restart of the machine reopens, for the prefix of its updates that is committed |
| `EngineStore.EngineUpdatesAreProper` | src/store/store.cpp:336-365 | the row of every job the engine knows is committed, so the engine never updates a row whose insert is not |
| `EngineAdmission.AddWorkflowKeeps` | src/engine/engine.cpp:592-732 | admitting a workflow keeps the invariant |
| `Engine.JobEngine.constructor` | src/engine/engine.cpp:39-45 | a new engine is the initial state |
| `Engine.JobEngine.ReserveSlot` | src/engine/engine.cpp:56-65 | a slot is given iff one is free |
| `Engine.JobEngine.Enqueue` | src/engine/engine.cpp:88-98 | the push of the state machine; Full iff the queue is at capacity |
| `Engine.JobEngine.CountMetDeps` | src/engine/engine.cpp:785-797 | the counting loop computes the new counts and the children that reached zero |
| `Engine.JobEngine.ReleaseDependents` | src/engine/engine.cpp:785-807 | performs the release of the state machine |
| `Engine.JobEngine.MarkDescendants` | src/engine/engine.cpp:809-840 | the worklist visits and marks exactly the open descendants, each once |
| `Engine.JobEngine.SkipDescendants` | src/engine/engine.cpp:809-850 | returns exactly the open descendants, marks them, changes no other row and gives back one slot for each |
| `Engine.JobEngine.FinalizeWorkflow` | src/engine/engine.cpp:852-864 | writes the verdict only over a running label |
| `Engine.JobEngine.OnTerminal` | src/engine/engine.cpp:755-783 | performs the bookkeeping of the state machine |
| `Engine.JobEngine.Submit` | src/engine/engine.cpp:102-144 | performs the submit step and keeps the invariant; each of the four answers is given exactly by its cause |
| `Engine.JobEngine.Pop` | src/queue/queue.cpp:89-103 | performs the pop step on an entry that is due |
| `Engine.JobEngine.BeginAttempt` | src/engine/engine.cpp:212-308 | performs the begin step; starts iff the job is waiting and not asked to cancel |
| `Engine.JobEngine.Finish` | src/engine/engine.cpp:310-401 | records a result iff the lease is the current one, and otherwise changes nothing |
| `Engine.JobEngine.Complete` | src/engine/engine.cpp:949-980 | performs the completion step; accepts iff token, owner and attempt are those on record |
| `Engine.JobEngine.Cancel` | src/engine/engine.cpp:168-208 | performs the cancel step; NotFound iff the job is unknown, AlreadyTerminal iff it has ended |
| `Engine.JobEngine.CancelWorkflow` | src/engine/engine.cpp:734-753 | cancels iff the label is running; then the label is CANCELLED and every node is terminal, or running with the request on its row and on its attempt; a sequence of steps |
| `Engine.JobEngine.PassDeadline` | src/engine/engine.cpp:452-469 | performs the deadline step |
| `Engine.JobEngine.ExpireLease` | src/engine/engine.cpp:507-551 | performs the expiry step |
| `Engine.JobEngine.ReserveAll` | src/engine/engine.cpp:650-661 | one slot per node, all or none |
| `Engine.JobEngine.SubmitWorkflow` | src/engine/engine.cpp:592-732 | accepts iff nodes and edges are in order, the graph is acyclic, no edge is repeated, the slots fit and the store agrees; then performs the workflow step, and otherwise changes nothing and answers by the first check that fails |
| `Engine.JobEngine.Recount` | src/engine/engine.cpp:984-1011 | rebuilds the counters of exactly the workflows with an open node |
| `Engine.JobEngine.RecoverEngine` | src/engine/engine.cpp:984-1041 | the whole of recover() on the tables a dead process left, between operations or inside one, is the restart step |
| `EngineWorkflow.IndegreeIsInto` | src/engine/engine.cpp:685-688 | the in-degree computed on indexes is the number of edges into the node's job |
| `WorkflowGraph.CheckWorkflow` | src/engine/engine.cpp:597-648 | accepts iff names are distinct, types known, edge ends known and different, and the graph has no cycle; each refusal iff it names the first thing out of order: the first bad node, then the first bad edge, then a cycle |
| `Kahn.BuildGraph` | src/engine/engine.cpp:612-626 | adjacency lists and in-degrees of the edge list, repeated edges counted |
| `Kahn.CountOrderable` | src/engine/engine.cpp:628-648 | the loop visits all nodes iff the graph has no directed cycle, and visits them in topological order |
| `Graphs.CycleFromPredecessors` | src/engine/engine.cpp:628-648 | a set in which every node has a predecessor contains a cycle |
| `Leases.RunKeepsTokens` | src/engine/engine.cpp:212-401 | what is known of tokens holds over every interleaving of sections and store accesses |
| `Leases.RunKeepsInv` | src/engine/engine.cpp:212-401 | in every interleaving the full lease invariant holds of a job that is not in a clash, that is not both released and below an ancestor that ended without success |
| `LeaseGraph.RunKept` | src/engine/engine.cpp:755-850 | over all nodes of a workflow and every interleaving: below nodes never revived the lease invariant holds, the counter is the number of succeeded parents, a released node has only succeeded parents, and a node that was not revived itself ended in one way |
| `LeaseGraph.ClashNeedsRevival` | src/engine/engine.cpp:785-850 | a clash exists only below a node whose terminal row was brought back to life |
| `LeaseGraph.RevivalGoesBack` | src/engine/engine.cpp:168-208 | a step that revives a row is a stale release or an overtaken cancel, or an ancestor was revived before |
| `LeaseGraph.EndsOneWay` | src/engine/engine.cpp:755-783 | while no row was revived, no job ends both with and without success |
| `LeaseGraph.RecordsInWorkflow` | src/store/store.cpp:570-594 | below nodes never revived every attempt record has the attempt its lease was issued for, and its key is unique |
| `LeaseGraph.OneJob` | src/engine/engine.cpp:212-401 | the steps of one node taken out of a workflow's run are a run of one job, so what is proved of those holds in workflows |
| `Leases.RecordedOnceOrReclaimed` | src/engine/engine.cpp:310-367 | in every interleaving a lease is recorded at most once and never both recorded and reclaimed |
| `Leases.RecordedAsIssued` | src/engine/engine.cpp:310-367 | without a clash, recorded attempts are pairwise distinct and those the leases were issued for |
| `Leases.AttemptsAreBounded` | src/engine/engine.cpp:325-401 | without a clash a job starts at most `max_attempts` times, and waits only while attempts are left |
| `Leases.FlaggedIsNotStarted` | src/engine/engine.cpp:212-235 | without a clash, no step but an overtaken cancel makes a waiting job RUNNING that has the request to cancel on its row, and its start makes it CANCELLED |
| `LeaseExamples.WrongAttempt` | src/engine/engine.cpp:785-850 | a run of the workflow 0 -> 1 -> 2: node 1 is cancelled, revived by a stale release and succeeds; node 2 is skipped while it runs and its result recorded under attempt 0 |
| `LeaseExamples.SkippedCanStart` | src/engine/engine.cpp:212-308 | a run of that workflow in which the SKIPPED row of node 2 is made RUNNING by a start |
| `Leases.ReclaimedResultChangesNothing` | src/engine/engine.cpp:310-323 | in every interleaving a result under a reclaimed lease changes nothing |
| `Leases.OnlyCurrentLeaseWrites` | src/engine/engine.cpp:355-401 | without a clash, an attempt record or result is written only under the row's current, unreclaimed lease |
| `Leases.StaleResultChangesNothing` | src/engine/engine.cpp:310-323 | without a clash, a result under a reclaimed or superseded lease changes nothing |
| `Leases.ReclaimedForGood` | src/engine/engine.cpp:507-539 | a reclaimed lease stays reclaimed and is never recorded |
| `Leases.RecordKeysDistinct` | src/store/store.cpp:570-594 | over any number of jobs the (job, attempt) keys of the attempt records of jobs without a clash are pairwise distinct |
| `Leases.ResurrectionIff` | src/engine/engine.cpp:168-208 | without a clash, a step revives a terminal row iff it is the write of a release that read the row before it ended, or the write of a cancel that read it as RUNNING before its finisher ended it |
| `Leases.AbandonedIff` | src/engine/engine.cpp:178-199 | without a clash, a row becomes RUNNING with nobody to run it iff such a cancel writes it |
| `Leases.AbandonedForGood` | src/engine/engine.cpp:178-199 | as long as there is no clash, such a row never starts, ends or is recorded again before a restart |
| `Leases.SuccessCanBeUndone` | src/engine/engine.cpp:178-199 | a run in which a SUCCEEDED row is RUNNING again, and nobody runs it |
| `Leases.RetryCanBeLost` | src/engine/engine.cpp:178-199 | a run in which a cancel swallows a retry and nobody runs the job |
| `Leases.CancellationCanBeUndone` | src/engine/engine.cpp:798-806 | a run of four sections in which a cancelled job is queued again |
| `StoreTheorems.RunKeepsInv` | src/store/store.cpp:868-927 | the store invariant over every interleaving of write, take, commit and retire sections, failing commits included |
| `StoreTheorems.ReadIsCurrent` | src/store/store.cpp:445-463 | get_job returns a row that was newest at some moment between its cache probe and its database read, if it was cached or the newest write of that id was in no failed batch |
| `StoreTheorems.ReadIsStale` | src/store/store.cpp:910-919 | conversely, an uncached id whose table row is not the newest has lost its newest write, and a call during which nobody writes it returns a row newest at no moment of the call |
| `StoreEarly.EarlyUpdateSurvivesIff` | src/store/store.cpp:886-894 | until a commit fails, an update that is the last of its row in its batch is in the table after the commit iff the insert of the row is not still waiting behind the batch |
| `StoreTheorems.CrashLeavesPrefix` | src/store/store.cpp:886-950 | until a failed commit is retired, the tables are a prefix of the inserts past the watermark, with a prefix of the updates replayed in order, and a prefix of the attempt records |
| `StoreTheorems.AcknowledgedIsDurable` | src/store/store.cpp:382-406 | when a single-row insert answers true after its wait, its row is committed, as inserted or as updated since, even if commits can fail |
| `StoreBarrier.InsertIsBarrier` | src/store/store.cpp:886-903 | until a commit fails, and if no batch is cut by its limit, every update asked for before a committed insert is committed: a crash keeps it |
| `StoreTheorems.DurableForGood` | src/store/store.cpp:929-950 | a committed row is never lost |
| `StoreTheorems.RefusedIff` | src/store/store.cpp:401-405 | an insert is refused iff some batch, anybody's, failed before |
| `StoreTheorems.FlushIsBarrier` | src/store/store.cpp:952-963 | when flush returns the cache is empty, every id whose newest write was in no failed batch is in the table as the plain map of all writes has it, and, if no commit failed, the table is that map and every attempt record is stored |
| `StoreTheorems.AttemptsAreStored` | src/store/store.cpp:946-963 | after a flush with no failed commit the last record of every job and attempt is in the table |
| `StoreTheorems.LastRecordIsKept` | src/store/store.cpp:570-594 | of several records of a job and attempt the last is kept |
| `StoreTheorems.BatchIsPrefix` | src/store/store.cpp:886-903 | a batch is the oldest part of each buffer, at most the limit of each, and all of it if that is less |
| `StoreRuns.StepKeepsInv` | src/store/store.cpp:868-927 | every section keeps buffers, versions, cache and tables consistent |
| `StoreRuns.NothingLeftBehind` | src/store/store.cpp:910-917 | when a batch holds the cached version of a row, nothing later for that row is buffered, so its cache entry may go |
| `StoreExamples.RefusedThoughDurable` | src/store/store.cpp:401-405 | a run in which an insert is refused although its row is committed |
| `StoreExamples.FailedCommitHidesWrite` | src/store/store.cpp:910-919 | a run in which, after a failed commit, a read returns a row superseded before the call |
| `StoreExamples.EarlyUpdateIsLost` | src/store/store.cpp:886-894 | an update issued before its insert is committed is lost though no commit fails |
| `StoreExamples.ShutdownAcknowledgesEarly` | src/store/store.cpp:400-401 | during shutdown an insert can be acknowledged before it is committed |
| `Store.JobStore.constructor` | src/store/store.cpp:852-855 | an empty buffer over the given tables |
| `Store.JobStore.InsertJob` | src/store/store.cpp:385-398 | buffers the row under the next sequence number and caches it |
| `Store.JobStore.AwaitInsert` | src/store/store.cpp:399-405 | when it answers true after the wait, the row of that insert is committed, as inserted or as updated since |
| `Store.JobStore.GetJob` | src/store/store.cpp:445-463 | returns the newest row of the id, unless its newest write was lost and it is not cached |
| `Store.JobStore.UpdateJob` | src/store/store.cpp:336-365 | buffers and caches the row under a new version |
| `Store.JobStore.AppendAttempt` | src/store/store.cpp:551-563 | buffers the record |
| `Store.JobStore.InsertWorkflowRows` | src/store/store.cpp:625-675 | all rows or none, past the buffer |
| `Store.JobStore.TakeBatch` | src/store/store.cpp:873-903 | takes a bounded prefix of each buffer |
| `Store.JobStore.CommitBatch` | src/store/store.cpp:929-950 | all of the batch or nothing; succeeds iff no key is taken and no statement is refused |
| `Store.JobStore.RetireBatch` | src/store/store.cpp:908-924 | drops the cache entries still at the written version, moves the watermark, keeps the error |
| `Store.InsertRows` | src/store/store.cpp:939-942 | inserts succeed iff all keys are free and distinct, and then add exactly those rows |
| `Store.UpdateRows` | src/store/store.cpp:943-945 | replays the updates in order, missing rows untouched |
| `Store.InsertAttempts` | src/store/store.cpp:946-948 | stores the records, the last one per (job, attempt) |
| `Store.Evict` | src/store/store.cpp:910-917 | drops exactly the entries whose version was written |
| `Queue.TopExists` | include/jobengine/queue.hpp:71-83 | both comparators have a top in every nonempty heap of distinctly numbered entries |
| `Queue.BestPopsFirst` | include/jobengine/queue.hpp:71-76 | the best entry is due, no due entry has a higher priority, and of equal priority none was pushed earlier |
| `Queue.DrainsInOrder` | src/queue/queue.cpp:123-140 | a batch comes in falling priority, equal ones as they were pushed, without repetition; every due entry left behind has no higher priority than any taken, nor is older at equal priority; and it stops short only when nothing due is left |
| `Queue.PriorityJobQueue.CountersAreExact` | include/jobengine/queue.hpp:89-107 | each counter is the number of live entries in its heap; the index names exactly the live ones |
| `Queue.PriorityJobQueue.constructor` | src/queue/queue.cpp:10-10 | an empty queue |
| `Queue.PriorityJobQueue.Push` | src/queue/queue.cpp:12-54 | Closed; Full at capacity, even for a replacement; or the entry is set in the map under a fresh number, replacing the one queued before; pushed = popped + removed + replaced + live |
| `Queue.PriorityJobQueue.Promote` | src/queue/queue.cpp:56-70 | afterwards only unmatured entries are delayed; the map is unchanged |
| `Queue.PriorityJobQueue.TakeReady` | src/queue/queue.cpp:72-87 | takes out of the map, of the entries that are due, one of highest priority, of these the one pushed first, or there is none; tombstones above it go |
| `Queue.PriorityJobQueue.TryPop` | src/queue/queue.cpp:89-121 | one turn of the loops: of the entries due by now one of highest priority, of these the one pushed first, or none is due |
| `Queue.PriorityJobQueue.TakeMore` | src/queue/queue.cpp:132-139 | the entries due by now in falling priority, then age, up to the limit |
| `Queue.PriorityJobQueue.Remove` | src/queue/queue.cpp:142-153 | true iff the job was queued; it no longer is |
| `Queue.PriorityJobQueue.Count` | src/queue/queue.cpp:168-171 | the number of live entries |
| `Http.IndependentIffClear` | src/http/http_server.cpp:119-142 | a stream is framed the same way under every split iff none of its header blocks ends within the last three offsets up to the limit |
| `Http.ChunkingIrrelevant` | src/http/http_server.cpp:337-414 | any split of such a stream gives the requests, or the first error, of the whole stream |
| `Http.AmbiguityShows` | src/http/http_server.cpp:123-132 | any other stream has a split into two that is refused where the whole is not |
| `Http.AmbiguousStreamsExist` | include/jobengine/http.hpp:58-58 | such streams exist |
| `Http.NothingLost` | include/jobengine/http.hpp:71-74 | the bytes of the delivered requests followed by the rest are the bytes received, under any split |
| `Http.DoneIff` | src/http/http_server.cpp:119-142 | a request is complete iff the bytes are its header block, the first terminator, a body of exactly the announced length, and the rest |
| `Http.PartialIff` | src/http/http_server.cpp:121-138 | more is needed iff within the limit the terminator, or part of the announced body, is missing |
| `Http.RejectIff` | src/http/http_server.cpp:123-134 | the bytes are refused iff the header block is too long, with 431, or is itself refused, with its status |
| `Http.ChunkedDelivers` | src/http/http_server.cpp:337-414 | however the bytes arrive, each request delivered has the body its header block announces, all but a last one keep the connection, and what is left is unfinished or begins with something refused |
| `Http.HttpRequestParser.Feed` | src/http/http_server.cpp:119-142 | the verdict, request and leftover are those of all bytes since the reset taken as one piece; the request has the announced body, more is asked for exactly while something is missing, and a refusal has its cause |
| `Http.HttpRequestParser.Reset` | src/http/http_server.cpp:102-111 | forgets everything received |
| `Http.ServeConnection` | src/http/http_server.cpp:337-414 | the connection loop delivers what feeding the reads one by one, leftovers first, gives, each request with its announced body |
| `Http.FindEnd` | src/http/http_server.cpp:122-122 | the first terminator |
| `JsonDerives.ParseIffDenotes` | src/core/json.cpp:17-229 | a text is parsed to a value iff it is a text of the grammar of RFC 8259 for that value nested at most 64 deep, and fails iff it is such a text for none |
| `JsonReads.DenotedIsParsed` | src/core/json.cpp:49-109 | every text of the grammar is parsed, whatever its white space, escapes and spelling of numbers |
| `JsonDerives.ParsedIsDenoted` | src/core/json.cpp:49-109 | whatever is parsed has a derivation in the grammar |
| `JsonDerives.NumberFound` | src/core/json.cpp:193-229 | what is read as a number is a numeral of the grammar, an integer iff it has neither fraction nor exponent and fits 64 bits |
| `JsonRoundTrip.RoundTripIff` | src/core/json.cpp:393-403 | for every value without floats, print then parse is the identity iff it nests at most 64 deep and its keys are distinct, compact or with any indentation |
| `JsonRoundTrip.ParseDump` | src/core/json.cpp:17-109 | what parsing a printed value gives in every case: failure beyond depth 64, else the value with repeated keys merged |
| `JsonBounds.ParsedIsCanonical` | src/core/json.cpp:49-109 | every text that parses gives a value of bounded depth with distinct keys, and printing and parsing it again gives it back |
| `JsonLayout.ArrayLayout` | src/core/json.cpp:362-373 | a printed array is its items joined by commas, each on a line of its own indented one level deeper, the closing bracket on a line; without indentation no white space at all |
| `JsonLayout.ObjectLayout` | src/core/json.cpp:374-389 | a printed object likewise, with a blank behind the colon iff it is indented |
| `JsonLayout.EscapeIs` | src/core/json.cpp:314-337 | which characters are escaped, and how: seven in two characters, other control characters as four lower-case digits, no other |
| `JsonRoundTrip.SetThenFind` | src/core/json.cpp:272-278 | after set the key has the value, every other key keeps its value, and no key moves |
| `JsonRoundTrip.NumberReads` | src/core/json.cpp:193-229 | every 64-bit integer is read back from its decimal form |
| `JsonRoundTrip.StringReads` | src/core/json.cpp:145-191 | every byte string is read back from its escaped form |
| `JsonUnicode.Utf8Decodes` | src/core/json.cpp:111-128 | every code point is written as its UTF-8 sequence: lead byte, tail bytes, and it reads back |
| `JsonUnicode.EscapeStandsFor` | src/core/json.cpp:166-187 | a single escape stands for its code point iff that is no surrogate, and is refused otherwise |
| `JsonUnicode.PairStandsFor` | src/core/json.cpp:168-181 | a high surrogate and a second escape stand for one code point iff the second is a low surrogate, and are refused otherwise |
| `JsonUnicode.PairsCoverAll` | src/core/json.cpp:168-181 | every code point beyond the first plane has such a pair |
| `JsonText.SetMember` | src/core/json.cpp:272-278 | the loop computes the set function |
| `JsonText.EscapeInto` | src/core/json.cpp:314-337 | appends the quoted string |
| `JsonText.DumpInto` | src/core/json.cpp:339-391 | appends the printed value |
| `JsonText.Parser.SkipWs` | src/core/json.cpp:35-41 | moves to the next character that is not white space |
| `JsonText.Parser.ReadHex4` | src/core/json.cpp:130-143 | the value of four hexadecimal digits, or failure |
| `JsonText.Parser.ReadUnicode` | src/core/json.cpp:166-187 | the UTF-8 of the code point, surrogate pairs joined, unpaired ones refused |
| `JsonText.Parser.ReadString` | src/core/json.cpp:145-191 | reads what the string function reads |
| `JsonText.Parser.ReadNumber` | src/core/json.cpp:193-229 | reads what the number function reads |
| `JsonText.Parser.ReadValue` | src/core/json.cpp:49-66 | reads what the value function reads, for every text, offset and depth |
| `JsonText.Parser.ReadArray` | src/core/json.cpp:93-109 | the loop reads what the recursive array function reads |
| `JsonText.Parser.ReadObject` | src/core/json.cpp:68-91 | the loop reads what the recursive object function reads |
| `JsonText.ParseText` | src/core/json.cpp:17-23 | succeeds iff the text is one of the grammar, nested at most 64 deep, with the value it stands for |
| `Backoff.DelayAfterAttempt` | src/core/job.cpp:86-97 | the loop that stops early gives min(round(base * multiplier^(n-1)), cap) for every accepted policy and attempt, and always stays between 0 and the cap |
| `Backoff.DelayGrows` | src/api/api.cpp:97-104 | the delay never falls from one attempt to a later one |
| `Backoff.RoundIsNearest` | src/core/job.cpp:95-95 | rounding is to the nearest integer, halves away from zero |
| `Backoff.DelayIsGeometric` | src/core/job.cpp:86-97 | the delay after the n-th attempt is the n-th member of the geometric sequence that starts at the base, rounded and capped |
| `Backoff.DrawIsEven` | src/core/job.cpp:98-100 | a jittered delay takes every value from zero to the full delay, all equally often |
| `Backoff.Jittered` | src/core/job.cpp:98-100 | a jittered delay is such a draw and lies between 0 and the full delay |

## Left out

- SQLite, SQL text, statement caches, busy retries and the reader pool: a map with atomic transactions stands for them.
- Multi-row insert_jobs: one row per call, because the watermark may be that of a half-taken group.
- The wait that bounds buffered rows before an update, and the direct path without group commit.
- Condition variables, time-outs of waits, stop and drain: pop and pop_for are modelled up to the point where they would wait.
- Queue.PriorityJobQueue.TryPop: does not model the waiting loop around one turn, because the lock is given up while waiting and other calls interleave there.
- Queue.TopExists: the heaps are sets with a top, not arrays; the array layout of the standard library's priority queue is not part of this model.
- Http.ServeConnection: handlers, responses, time-outs and transport errors are left out; the peer closes after the listed reads.
- Http.HttpRequestParser.Feed: parse_headers is any function of the header block; its line syntax is not modelled. That it never answers 431 is a hypothesis of the lemmas that need it.
- JsonRoundTrip.ParseDump: floating-point numbers are excluded, because their printing and reading is the C library's; the parser keeps their text.
- JSON error messages and offsets: a failure carries no text.
- Backoff.DelayAfterAttempt: over the reals, without the rounding of doubles and the overflow of llround.
- Engine.JobEngine.Cancel and the other operations are steps as a whole; at the grain of lock sections only the lease protocol and the graph are modelled (`Leases`, `LeaseGraph`), because there the placement properties fail (`CancellationCanBeUndone`).
- Leases.RunKeepsInv: says nothing of a job in a clash, because there it is false (`WrongAttempt`); `RunKeepsTokens` holds of every job, and `ClashNeedsRevival` says where clashes are.
- EngineRuns.FinalisedOnce: states nothing after a crash, because there it is false (`VerdictCanBeFalse`, `EndedCanStayRunning`); what holds of every run is `FinalisedAtTheEnd`, and what a restart keeps is `RestartLabelIff`.
- Metrics, worker registry, handlers, REST routing, logging and the remote worker's polling loop: plumbing without invariants of its own.
