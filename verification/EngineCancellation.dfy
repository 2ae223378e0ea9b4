/** Cancellation: what an accepted cancel promises, whoever runs the job. */
module EngineCancellation {
  import opened Jobs
  import opened Graphs
  import opened EngineModel
  import opened EngineInvariant
  import opened EngineRetire
  import opened EngineBooks
  import opened EngineSteps
  import opened EngineAdmission
  import opened EngineRecovery
  import opened EngineRuns
  import opened EngineHistory
  import opened EngineOutcomes

  // ---- the running attempt ----

  lemma RetireRunning(t: State, id: JobId, row: Row, now: int, order: seq<JobId>)
    requires id in t.rows && forall x <- order :: x in t.rows
    ensures Retire(t, id, row, now, order).running == t.running
  {
    var u := Persist(t, id, row);
    if row.workflow.Some? {
      if row.state.Succeeded? {
        var (pd, ready) := MeetDeps(u.pendingDeps, Kids(u, id));
        UnblockAllRows(u.(pendingDeps := pd), ready, now);
      } else {
        SkipAllRows(u, order);
      }
    }
  }

  lemma FinishRunning(s: State, e: Event, x: JobId)
    requires Inv(s) && Enabled(s, e) && (e.EFinish? || e.EComplete?)
    ensures x in Apply(s, e).running ==> x in s.running && Apply(s, e).running[x] == s.running[x]
  {
    hide Logged, Placed, PlacedBut, Room, Books, Apply, Enqueue, Retire, OutcomeState;
    var id := e.id;
    if Reports(s, e, id) {
      TakeRunning(s, id);
      ReportIs(s, e, id);
      var t := s.(running := s.running - {id});
      var next := OutcomeState(s.rows[id], Reason(s, e, id), e.ok);
      EnqueueFields(Persist(t, id, FinishedRow(s.rows[id], e.EComplete?, next, e.now + e.backoff)), id);
      RetireRunning(t, id, FinishedRow(s.rows[id], e.EComplete?, next, s.rows[id].readyAt), e.now, e.order);
    } else {
      NoReport(s, e);
    }
  }

  lemma BeginRunning(s: State, e: Event, x: JobId)
    requires Inv(s) && Enabled(s, e) && e.EBegin? && x in s.running
    ensures x in Apply(s, e).running ==> Apply(s, e).running[x] == s.running[x]
  {
    hide Logged, Room, Books, Retire;
    assert PlacedAt(s, x);
    assert PlacedAt(s, e.id);
    if e.id in s.rows && IsWaiting(s.rows[e.id].state) && s.rows[e.id].cancelRequested {
      RetireRunning(s.(inHand := s.inHand - multiset{e.id}), e.id, s.rows[e.id].(state := Cancelled), e.now, e.order);
    }
  }

  lemma CancelRunning(s: State, e: Event, x: JobId)
    requires Inv(s) && Enabled(s, e) && e.ECancel? && x in s.running
    ensures x in Apply(s, e).running
    ensures Apply(s, e).running[x] == if x == e.id then s.running[x].(reason := UserReason) else s.running[x]
  {
    hide Logged, Room, Books, Retire;
    assert PlacedAt(s, x);
    if e.id in s.rows && !IsTerminal(s.rows[e.id].state) && !s.rows[e.id].state.Running? {
      RetireRunning(s.(queue := s.queue - {e.id}), e.id, s.rows[e.id].(cancelRequested := true, state := Cancelled),
                    e.now, e.order);
    }
  }

  lemma ExpireRunning(s: State, e: Event, x: JobId)
    requires Inv(s) && Enabled(s, e) && e.EExpire?
    ensures x in Apply(s, e).running ==> x in s.running && Apply(s, e).running[x] == s.running[x]
  {
    hide Inv, Enqueue, Retire;
    if e.id in s.running && e.id in s.rows && s.rows[e.id].state.Running? {
      var t := s.(running := s.running - {e.id});
      var row := s.rows[e.id].(leaseToken := 0);
      if row.attempt >= row.maxAttempts {
        RetireRunning(t, e.id, row.(state := Failed), e.now, e.order);
      } else {
        EnqueueFields(Persist(t, e.id, row.(state := Queued, readyAt := e.now)), e.id);
      }
    }
  }

  lemma AdmissionRunning(s: State, e: Event)
    requires Enabled(s, e) && Admission(e)
    ensures Apply(s, e).running == s.running
  {
    hide Enqueue, EnqueueAll, NodeRows, Roots;
    match e
    case ESubmit(id, maxAttempts, delay, now, _, _) =>
      EnqueueFields(InsertRow(s.(outstanding := s.outstanding + 1), id,
                              FreshRow(maxAttempts, delay, now, None, 0)), id);
    case EWorkflow(w, ids, specs, edges, now) =>
      var nodes := NodeRows(w, ids, specs, Elems(edges), now);
      EnqueueAllFields(Grown(s, w, ids, nodes, edges), Roots(nodes, ids));
  }

  /** While an attempt runs, a client's cancellation is never forgotten and never overridden by a deadline. */
  lemma CancellationSticks(s: State, e: Event, x: JobId)
    requires Inv(s) && Enabled(s, e) && !e.ERestart? && x in s.running && s.running[x].reason.UserReason?
    ensures x in Apply(s, e).running ==> Apply(s, e).running[x] == s.running[x]
  {
    hide Inv, Enabled, Apply;
    match e
    case EFinish(_, _, _, _, _, _) => FinishRunning(s, e, x);
    case EComplete(_, _, _, _, _, _, _, _, _) => FinishRunning(s, e, x);
    case EBegin(_, _, _, _, _, _) => BeginRunning(s, e, x);
    case ECancel(_, _, _) => CancelRunning(s, e, x);
    case EExpire(_, _, _) => ExpireRunning(s, e, x);
    case ESubmit(_, _, _, _, _, _) => AdmissionRunning(s, e);
    case EWorkflow(_, _, _, _, _) => AdmissionRunning(s, e);
    case _ => QuietRunning(s, e, x);
  }

  lemma QuietRunning(s: State, e: Event, x: JobId)
    requires Enabled(s, e) && (e.EPop? || e.EMarkCancelled? || e.EDeadline?) && x in s.running &&
             s.running[x].reason.UserReason?
    ensures x in Apply(s, e).running ==> Apply(s, e).running[x] == s.running[x]
  {
  }

  /** The attempt of `x` that runs in state i still runs in every state up to j. */
  ghost predicate StillRuns(run: seq<State>, i: nat, j: nat, x: JobId) {
    forall m :: i <= m <= j < |run| ==> x in run[m].running
  }

  /**
   * A cancellation of a running job takes effect when its worker comes back: as long as the attempt runs it stays
   * marked, and the result of an in-process worker, whatever it is, then ends the job as CANCELLED.
   */
  lemma {:induction false} CancelIsHonoured(run: seq<State>, events: seq<Event>, i: nat, j: nat, x: JobId)
    requires IsRun(run, events) && i < j < |run| && NoRestart(events, i, j)
    requires events[i].ECancel? && events[i].id == x && StillRuns(run, i, j, x)
    ensures run[j].running[x].reason.UserReason?
    ensures j < |events| && events[j].EFinish? && Reports(run[j], events[j], x) ==>
              x in run[j + 1].rows && run[j + 1].rows[x].state.Cancelled?
    decreases j
  {
    hide Inv, Enabled, Apply;
    RunKeepsInv(run, events, j - 1);
    if j == i + 1 {
      CancelRunning(run[i], events[i], x);
    } else {
      CancelIsHonoured(run, events, i, j - 1, x);
      CancellationSticks(run[j - 1], events[j - 1], x);
    }
    if j < |events| && events[j].EFinish? && Reports(run[j], events[j], x) { ReportTakesEffect(run, events, j, x); }
  }

  // ---- a job that can no longer succeed ----

  /** The row of a job that a client has cancelled: ended without success, or open with the request on record. */
  predicate Condemned(row: Row) {
    if IsTerminal(row.state) then !row.state.Succeeded? else row.cancelRequested && !row.state.Pending?
  }

  /** ... and, while it runs, the attempt is marked as well. */
  ghost predicate Doomed(s: State, x: JobId) {
    && x in s.rows && Condemned(s.rows[x])
    && (s.rows[x].state.Running? ==> x in s.running && s.running[x].reason.UserReason?)
  }

  /** A step keeps the row condemned and does not start it. */
  ghost predicate StaysDown(a: Row, r: State, x: JobId) {
    x in r.rows && Condemned(r.rows[x]) && (r.rows[x].state.Running? ==> a.state.Running?)
  }

  lemma RetireOthers(t: State, id: JobId, row: Row, now: int, order: seq<JobId>, x: JobId)
    requires Retirable(t, id, row) && Lists(order, OpenDescendants(t, id)) && x in t.rows && !t.rows[x].state.Pending?
    ensures var r := Retire(t, id, row, now, order).rows; x in r && r[x] == if x == id then row else t.rows[x]
  {
    hide Logged, Room, Books;
    if row.workflow.None? {
      RetirePlain(t, id, row, now, order);
    } else if row.state.Succeeded? {
      RetireSuccess(t, id, row, now, order);
      SuccessRows(t, id, row, now);
    } else {
      RetireFailure(t, id, row, now, order);
      FailureRows(t, id, row, order);
    }
  }

  lemma FinishDown(s: State, e: Event, x: JobId)
    requires Inv(s) && Enabled(s, e) && (e.EFinish? || e.EComplete?) && Doomed(s, x)
    ensures StaysDown(s.rows[x], Apply(s, e), x)
  {
    hide Apply, Logged, Placed, PlacedBut, Room, Books, Retirable, OpenDescendants, Enqueue, Retire, Lists;
    var id := e.id;
    if Reports(s, e, id) {
      TakeRunning(s, id);
      ReportIs(s, e, id);
      var t := s.(running := s.running - {id});
      var next := OutcomeState(s.rows[id], Reason(s, e, id), e.ok);
      if next.Retrying? {
        EnqueueFields(Persist(t, id, FinishedRow(s.rows[id], e.EComplete?, next, e.now + e.backoff)), id);
      } else {
        var row := FinishedRow(s.rows[id], e.EComplete?, next, s.rows[id].readyAt);
        RetirementShape(s, t, id, row, e.order);
        RetireOthers(t, id, row, e.now, e.order, x);
      }
    } else {
      NoReport(s, e);
    }
  }

  lemma BeginDown(s: State, e: Event, x: JobId)
    requires Inv(s) && Enabled(s, e) && e.EBegin? && Doomed(s, x)
    ensures StaysDown(s.rows[x], Apply(s, e), x)
  {
    hide Logged, Placed, PlacedBut, Room, Books, Retirable, OpenDescendants, Retire, Lists;
    var id := e.id;
    TakeInHand(s, id);
    if IsWaiting(s.rows[id].state) && s.rows[id].cancelRequested {
      var t := s.(inHand := s.inHand - multiset{id});
      var row := s.rows[id].(state := Cancelled);
      RetirementShape(s, t, id, row, e.order);
      RetireOthers(t, id, row, e.now, e.order, x);
    }
  }

  lemma CancelDown(s: State, e: Event, x: JobId)
    requires Inv(s) && Enabled(s, e) && e.ECancel? && x in s.rows
    requires Doomed(s, x) || (x == e.id && !IsTerminal(s.rows[x].state))
    ensures StaysDown(s.rows[x], Apply(s, e), x)
    ensures s.rows[x].state.Running? ==> Apply(s, e).rows[x].state.Running?
    ensures x == e.id && !s.rows[x].state.Running? ==> IsTerminal(Apply(s, e).rows[x].state)
  {
    hide Logged, Placed, PlacedBut, Room, Books, Retirable, OpenDescendants, Retire, Lists;
    var id := e.id;
    if id in s.rows && !IsTerminal(s.rows[id].state) && !s.rows[id].state.Running? {
      var t := s.(queue := s.queue - {id});
      var row := s.rows[id].(cancelRequested := true, state := Cancelled);
      Dequeue(s, id);
      RetirementShape(s, t, id, row, e.order);
      if x == id {
        RetireEnds(t, id, row, e.now, e.order, id);
      } else {
        RetireOthers(t, id, row, e.now, e.order, x);
      }
    }
  }

  lemma ExpireDown(s: State, e: Event, x: JobId)
    requires Inv(s) && Enabled(s, e) && e.EExpire? && Doomed(s, x)
    ensures StaysDown(s.rows[x], Apply(s, e), x)
  {
    hide Logged, Placed, PlacedBut, Room, Books, Retirable, OpenDescendants, Enqueue, Retire, Lists;
    var id := e.id;
    if id in s.running {
      TakeRunning(s, id);
      var t := s.(running := s.running - {id});
      var row := s.rows[id].(leaseToken := 0);
      if row.attempt >= row.maxAttempts {
        RetirementShape(s, t, id, row.(state := Failed), e.order);
        RetireOthers(t, id, row.(state := Failed), e.now, e.order, x);
      } else {
        EnqueueFields(Persist(t, id, row.(state := Queued, readyAt := e.now)), id);
      }
    }
  }

  lemma StepDown(s: State, e: Event, x: JobId)
    requires Inv(s) && Enabled(s, e) && !e.ERestart? && Doomed(s, x)
    ensures StaysDown(s.rows[x], Apply(s, e), x)
  {
    hide Inv, Enabled, Apply;
    match e
    case EFinish(_, _, _, _, _, _) => FinishDown(s, e, x);
    case EComplete(_, _, _, _, _, _, _, _, _) => FinishDown(s, e, x);
    case EBegin(_, _, _, _, _, _) => BeginDown(s, e, x);
    case ECancel(_, _, _) => CancelDown(s, e, x);
    case EExpire(_, _, _) => ExpireDown(s, e, x);
    case ESubmit(_, _, _, _, _, _) => SubmitRows(s, e);
    case EWorkflow(_, _, _, _, _) => WorkflowRows(s, e);
    case _ => QuietRows(s, e);
  }

  lemma RunningPlace(s: State, x: JobId)
    requires Inv(s) && x in s.rows && s.rows[x].state.Running?
    ensures x in s.running
  {
    hide Logged, Room, Books;
    assert PlacedAt(s, x);
  }

  /** A doomed job stays doomed, and no step starts it. */
  lemma StepKeepsDoomed(s: State, e: Event, x: JobId)
    requires Inv(s) && Enabled(s, e) && !e.ERestart? && Doomed(s, x)
    ensures Doomed(Apply(s, e), x) && StaysDown(s.rows[x], Apply(s, e), x)
  {
    hide Inv, Enabled, Apply, Condemned;
    StepDown(s, e, x);
    if Apply(s, e).rows[x].state.Running? {
      StepKeepsInv(s, e);
      RunningPlace(Apply(s, e), x);
      CancellationSticks(s, e, x);
    }
  }

  /** An accepted cancel dooms the job. */
  lemma CancelDooms(s: State, e: Event, x: JobId)
    requires Inv(s) && Enabled(s, e) && e.ECancel? && e.id == x && x in s.rows && !IsTerminal(s.rows[x].state)
    ensures Doomed(Apply(s, e), x) && StaysDown(s.rows[x], Apply(s, e), x)
  {
    hide Inv, Enabled, Apply, Condemned;
    CancelDown(s, e, x);
    if s.rows[x].state.Running? {
      RunningPlace(s, x);
      CancelRunning(s, e, x);
    }
  }

  /** A job that has ended, or runs with the request marked on its row and on its attempt. */
  ghost predicate Stopped(s: State, x: JobId) {
    && x in s.rows
    && (IsTerminal(s.rows[x].state) ||
        (s.rows[x].state.Running? && s.rows[x].cancelRequested && x in s.running && s.running[x].reason.UserReason?))
  }

  /** A cancel stops its job and leaves stopped jobs stopped. */
  lemma CancelStops(s: State, e: Event, x: JobId)
    requires Inv(s) && Enabled(s, e) && e.ECancel? && x in s.rows && (Stopped(s, x) || x == e.id)
    ensures Stopped(Apply(s, e), x)
  {
    hide Inv, Enabled, Apply;
    StepMovesRows(s, e);
    if !IsTerminal(s.rows[x].state) {
      CancelDown(s, e, x);
      if x == e.id {
        CancelDooms(s, e, x);
      } else {
        StepKeepsDoomed(s, e, x);
      }
    }
  }

  /**
   Once a cancel has been accepted the job never starts again and never succeeds, until a restart: whether it waits or
   runs, in this process or on a remote worker, and whatever that worker reports.
   */
  lemma CancelledNeverSucceeds(run: seq<State>, events: seq<Event>, i: nat, j: nat, x: JobId)
    requires IsRun(run, events) && i < j < |run| && NoRestart(events, i, j)
    requires events[i].ECancel? && events[i].id == x && x in run[i].rows && !IsTerminal(run[i].rows[x].state)
    ensures Doomed(run[j], x) && run[j].rows[x].attempt == run[i].rows[x].attempt && !run[j].rows[x].state.Succeeded?
  {
    hide Inv, Enabled, Apply, Doomed, Condemned;
    RunKeepsInv(run, events, i);
    StepMovesRows(run[i], events[i]);
    CancelDooms(run[i], events[i], x);
    DoomedForGood(run, events, i + 1, j, x);
  }

  /** A doomed job never starts again and never succeeds before the next restart. */
  lemma {:induction false} DoomedForGood(run: seq<State>, events: seq<Event>, i: nat, j: nat, x: JobId)
    requires IsRun(run, events) && i <= j < |run| && NoRestart(events, i, j) && Doomed(run[i], x)
    ensures x in run[i].rows && Doomed(run[j], x)
    ensures run[j].rows[x].attempt == run[i].rows[x].attempt && !run[j].rows[x].state.Succeeded?
    decreases j - i
  {
    hide Inv, Enabled, Apply, Doomed, Condemned;
    DoomedRow(run[i], x);
    if i < j {
      DoomedForGood(run, events, i, j - 1, x);
      RunKeepsInv(run, events, j - 1);
      StepMovesRows(run[j - 1], events[j - 1]);
      assert x in run[j - 1].rows by { DoomedRow(run[j - 1], x); }
      StepKeepsDoomed(run[j - 1], events[j - 1], x);
      DoomedRow(run[j], x);
    }
  }

  lemma DoomedRow(s: State, x: JobId)
    requires Doomed(s, x)
    ensures x in s.rows && !s.rows[x].state.Succeeded?
  {
  }

  /** A restart keeps a job doomed exactly when the surviving row still says so. */
  lemma DoomedAfterRestartIff(run: seq<State>, events: seq<Event>, i: nat, x: JobId)
    requires IsRun(run, events) && i < |events| && events[i].ERestart?
    ensures Doomed(run[i + 1], x) <==> x in Survivors(run[i], events[i]) && Condemned(Survivors(run[i], events[i])[x])
  {
    RestartRows(run[i], events[i]);
    hide Apply, Survivors, Enabled;
    assert run[i + 1] == Apply(run[i], events[i]);
  }

  /** So a request that survives the crash is honoured by the next process: the job does not start, nor succeed. */
  lemma CancelSurvivesRestart(run: seq<State>, events: seq<Event>, i: nat, j: nat, x: JobId)
    requires IsRun(run, events) && i < j < |run| && events[i].ERestart? && NoRestart(events, i + 1, j)
    requires x in Survivors(run[i], events[i]) && Condemned(Survivors(run[i], events[i])[x])
    ensures x in run[j].rows && run[j].rows[x].attempt == Survivors(run[i], events[i])[x].attempt
    ensures !run[j].rows[x].state.Running? && !run[j].rows[x].state.Succeeded?
  {
    DoomedAfterRestartIff(run, events, i, x);
    DoomedForGood(run, events, i + 1, j, x);
    RestartRows(run[i], events[i]);
    hide Apply, Survivors, Enabled;
    assert run[i + 1] == Apply(run[i], events[i]);
    NeverRunning(run, events, i + 1, j, x);
  }

  /** A doomed job that does not run is not started. */
  lemma {:induction false} NeverRunning(run: seq<State>, events: seq<Event>, i: nat, j: nat, x: JobId)
    requires IsRun(run, events) && i <= j < |run| && NoRestart(events, i, j) && Doomed(run[i], x)
    requires !run[i].rows[x].state.Running?
    ensures x in run[j].rows && !run[j].rows[x].state.Running?
    decreases j - i
  {
    hide Inv, Enabled, Apply, Doomed, Condemned;
    if i < j {
      NeverRunning(run, events, i, j - 1, x);
      DoomedForGood(run, events, i, j - 1, x);
      RunKeepsInv(run, events, j - 1);
      StepKeepsDoomed(run[j - 1], events[j - 1], x);
    } else {
      DoomedRow(run[i], x);
    }
  }
}
