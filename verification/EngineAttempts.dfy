/** The life of one attempt, from the events of the run: who holds its lease, why it was told to stop, how it ends. */
module EngineAttempts {
  import opened Jobs
  import opened EngineModel
  import opened EngineInvariant
  import opened EngineRecovery
  import opened EngineRuns
  import opened EngineOutcomes
  import opened EngineCancellation
  import opened EngineEffects

  // ---- one step ----

  predicate Cancels(e: Event, x: JobId) { e.ECancel? && e.id == x }

  predicate Overdue(e: Event, x: JobId) { e.EDeadline? && e.id == x }

  /** A running entry keeps its lease; a client's cancellation is marked, and a deadline if nothing was before. */
  lemma EntryStays(s: State, e: Event, x: JobId)
    requires Inv(s) && Enabled(s, e) && !e.ERestart? && x in s.running && x in Apply(s, e).running
    ensures var a, b := s.running[x], Apply(s, e).running[x];
            && b.token == a.token && b.owner == a.owner && b.attempt == a.attempt && b.remote == a.remote
            && b.reason == if Cancels(e, x) then UserReason
                           else if Overdue(e, x) && a.reason.NoReason? then TimeoutReason else a.reason
  {
    hide Inv, Enabled, Apply;
    match e
    case EFinish(_, _, _, _, _, _) => FinishRunning(s, e, x);
    case EComplete(_, _, _, _, _, _, _, _, _) => FinishRunning(s, e, x);
    case EBegin(_, _, _, _, _, _) => BeginRunning(s, e, x);
    case ECancel(_, _, _) => CancelRunning(s, e, x);
    case EExpire(_, _, _) => ExpireRunning(s, e, x);
    case ESubmit(_, _, _, _, _, _) => AdmissionRunning(s, e);
    case EWorkflow(_, _, _, _, _) => AdmissionRunning(s, e);
    case _ => PlainEntry(s, e, x);
  }

  lemma PlainEntry(s: State, e: Event, x: JobId)
    requires Enabled(s, e) && (e.EPop? || e.EMarkCancelled? || e.EDeadline?) && x in s.running
    ensures x in Apply(s, e).running
    ensures var a, b := s.running[x], Apply(s, e).running[x];
            b == a.(reason := if Overdue(e, x) && a.reason.NoReason? then TimeoutReason else a.reason)
  {
  }

  /** Only a start makes an entry. */
  lemma NewEntry(s: State, e: Event, x: JobId)
    requires Inv(s) && Enabled(s, e) && x !in s.running && x in Apply(s, e).running
    ensures e.EBegin? && e.id == x
  {
    hide Inv, Enabled, Apply;
    match e
    case EFinish(_, _, _, _, _, _) => FinishRunning(s, e, x);
    case EComplete(_, _, _, _, _, _, _, _, _) => FinishRunning(s, e, x);
    case EBegin(_, _, _, _, _, _) => BeginEffect(s, e);
    case ECancel(_, _, _) => CancelNoEntry(s, e, x);
    case EExpire(_, _, _) => ExpireRunning(s, e, x);
    case ESubmit(_, _, _, _, _, _) => AdmissionRunning(s, e);
    case EWorkflow(_, _, _, _, _) => AdmissionRunning(s, e);
    case ERestart(_, _, _, _, _) => RestartRows(s, e);
    case _ => PlainNoEntry(s, e, x);
  }

  lemma PlainNoEntry(s: State, e: Event, x: JobId)
    requires Enabled(s, e) && (e.EPop? || e.EMarkCancelled? || e.EDeadline?) && x !in s.running
    ensures x !in Apply(s, e).running
  {
  }

  lemma CancelNoEntry(s: State, e: Event, x: JobId)
    requires Inv(s) && Enabled(s, e) && e.ECancel? && x !in s.running
    ensures x !in Apply(s, e).running
  {
    hide Inv, Retire;
    if e.id in s.rows && !IsTerminal(s.rows[e.id].state) && !s.rows[e.id].state.Running? {
      OrderInRows(s, e.id, e.order);
      RetireRunning(s.(queue := s.queue - {e.id}), e.id, s.rows[e.id].(cancelRequested := true, state := Cancelled),
                    e.now, e.order);
    }
  }

  // ---- an attempt ----

  /** Step `i` starts an attempt of `x`, which still runs in state `j`. */
  ghost predicate Attempt(run: seq<State>, events: seq<Event>, i: nat, j: nat, x: JobId) {
    && i < j < |run| && j <= |events| && events[i].EBegin? && events[i].id == x && x !in run[i].running
    && forall k :: i < k <= j ==> x in run[k].running
  }

  ghost predicate CancelledIn(events: seq<Event>, i: nat, j: nat, x: JobId) {
    exists k :: i <= k < j <= |events| && Cancels(events[k], x)
  }

  ghost predicate OverdueIn(events: seq<Event>, i: nat, j: nat, x: JobId) {
    exists k :: i <= k < j <= |events| && Overdue(events[k], x)
  }

  /** Whatever runs was started by some step since which it has been running. */
  lemma {:induction false} StartedOnce(run: seq<State>, events: seq<Event>, j: nat, x: JobId) returns (i: nat)
    requires IsRun(run, events) && j < |run| && x in run[j].running
    ensures Attempt(run, events, i, j, x)
    decreases j
  {
    hide Inv, Enabled, Apply;
    RunKeepsInv(run, events, j - 1);
    if x in run[j - 1].running {
      i := StartedOnce(run, events, j - 1, x);
    } else {
      NewEntry(run[j - 1], events[j - 1], x);
      i := j - 1;
    }
  }

  lemma Begun(run: seq<State>, events: seq<Event>, i: nat, x: JobId)
    requires IsRun(run, events) && Attempt(run, events, i, i + 1, x)
    ensures var e := events[i];
            && x in run[i].rows
            && run[i + 1].running[x] == RunningInfo(e.token, e.owner, run[i].rows[x].attempt + 1, NoReason, e.remote)
  {
    hide Enabled, Apply;
    BeginTakesEffect(run, events, i);
  }

  /** The lease on record is the one issued at the start; the reason is what clients and the clock have said since. */
  lemma {:induction false} LeaseOnRecord(run: seq<State>, events: seq<Event>, i: nat, j: nat, x: JobId)
    requires IsRun(run, events) && Attempt(run, events, i, j, x)
    ensures var e, info := events[i], run[j].running[x];
            && x in run[i].rows
            && info.token == e.token && info.owner == e.owner && info.remote == e.remote
            && info.attempt == run[i].rows[x].attempt + 1
            && info.reason == if CancelledIn(events, i, j, x) then UserReason
                              else if OverdueIn(events, i, j, x) then TimeoutReason else NoReason
    decreases j
  {
    hide Inv, Enabled, Apply;
    if j == i + 1 {
      Begun(run, events, i, x);
    } else {
      LeaseOnRecord(run, events, i, j - 1, x);
      RunKeepsInv(run, events, j - 1);
      NotRestarted(run, events, j - 1, x);
      EntryStays(run[j - 1], events[j - 1], x);
      assert CancelledIn(events, i, j, x) <==> CancelledIn(events, i, j - 1, x) || Cancels(events[j - 1], x);
      assert OverdueIn(events, i, j, x) <==> OverdueIn(events, i, j - 1, x) || Overdue(events[j - 1], x);
    }
  }

  lemma NotRestarted(run: seq<State>, events: seq<Event>, k: nat, x: JobId)
    requires IsRun(run, events) && k < |events| && x in run[k + 1].running
    ensures !events[k].ERestart?
  {
    hide Enabled, Apply, Survivors;
    if events[k].ERestart? { RestartRows(run[k], events[k]); }
  }

  /** While an attempt runs, its holder is answered Accepted, and anybody else StaleLease. */
  lemma HolderIsAccepted(run: seq<State>, events: seq<Event>, i: nat, j: nat, x: JobId, worker: string, attempt: nat,
                         token: nat, report: CancelReason, ok: bool, delay: nat, now: int, order: seq<JobId>)
    requires IsRun(run, events) && Attempt(run, events, i, j, x)
    ensures x in run[i].rows
    ensures Complete(run[j], worker, x, attempt, token, report, ok, delay, now, order).1 ==
            if worker == events[i].owner && token == events[i].token && attempt == run[i].rows[x].attempt + 1
            then Accepted else StaleLease
  {
    hide Enabled, Apply, Finish;
    LeaseOnRecord(run, events, i, j, x);
  }

  /** A job that does not run has no holder: whoever reports is answered StaleLease, and nothing changes. */
  lemma NobodyElseIsAccepted(s: State, worker: string, x: JobId, attempt: nat, token: nat, report: CancelReason,
                             ok: bool, delay: nat, now: int, order: seq<JobId>)
    requires Inv(s) && (x in s.rows ==> !s.rows[x].state.Running?)
    ensures Complete(s, worker, x, attempt, token, report, ok, delay, now, order) == (s, StaleLease)
  {
    hide Logged, Room, Books, Finish;
    assert PlacedAt(s, x);
  }

  // ---- how it ends ----

  /** The state a result calls for, once the attempt was cancelled, overdue or neither. */
  function Settled(cancelled: bool, overdue: bool, ok: bool, attemptsLeft: bool): JobState {
    if cancelled then Cancelled
    else if overdue then if attemptsLeft then Retrying else TimedOut
    else if ok then Succeeded
    else if attemptsLeft then Retrying else Failed
  }

  lemma OutcomeSettled(row: Row, reason: CancelReason, ok: bool)
    ensures OutcomeState(row, reason, ok) ==
            Settled(reason.UserReason?, reason.TimeoutReason?, ok, row.attempt < row.maxAttempts)
  {
  }

  /**
   The result of an attempt settles the job by what happened to the attempt: cancelled by a client since it began, or
   else overdue, or else as its worker reports; and the lease is gone. A remote worker's own word, if any, goes before.
   */
  lemma ResultSettles(run: seq<State>, events: seq<Event>, i: nat, j: nat, x: JobId)
    requires IsRun(run, events) && Attempt(run, events, i, j, x) && j < |events| && Reports(run[j], events[j], x)
    ensures var s, e, r := run[j], events[j], run[j + 1];
            && x in s.rows && x in r.rows && x !in r.running
            && var a, b := s.rows[x], r.rows[x];
               var left := a.attempt < a.maxAttempts;
               && b.state == (if e.EComplete? && !e.report.NoReason?
                              then Settled(e.report.UserReason?, e.report.TimeoutReason?, e.ok, left)
                              else Settled(CancelledIn(events, i, j, x), OverdueIn(events, i, j, x), e.ok, left))
               && b == Row(b.state, a.attempt, a.maxAttempts, a.pendingDeps, a.workflow, 0,
                           e.EComplete? && a.cancelRequested,
                           if b.state.Retrying? then e.now + e.backoff else a.readyAt)
               && (b.state.Retrying? ==> x in r.queue || x in r.dropped)
  {
    hide Inv, Enabled, Apply, OutcomeState;
    var s, e := run[j], events[j];
    RunKeepsInv(run, events, j);
    LeaseOnRecord(run, events, i, j, x);
    ReportTakesEffect(run, events, j, x);
    ReportRow(s, e, x);
    OutcomeSettled(s.rows[x], Reason(s, e, x), e.ok);
  }
}
