/** Why jobs end: each terminal state has the cause its name promises, in every run. */
module EngineOutcomes {
  import opened Jobs
  import opened Graphs
  import opened EngineModel
  import opened EngineInvariant
  import opened EngineRetire
  import opened EngineBooks
  import opened EngineSteps
  import opened EngineRecovery
  import opened EngineRuns
  import opened EngineHistory

  /** `e` hands in a result for `x` under the lease on record. */
  ghost predicate Reports(s: State, e: Event, x: JobId) {
    && x in s.running
    && match e
       case EFinish(id, token, _, _, _, _) => id == x && token == s.running[x].token
       case EComplete(worker, id, attempt, token, _, _, _, _, _) =>
         id == x && token == s.running[x].token && worker == s.running[x].owner && attempt == s.running[x].attempt
       case _ => false
  }

  /** Why the attempt was stopped, if it was: a remote worker's word goes before the engine's. */
  ghost function Reason(s: State, e: Event, x: JobId): CancelReason
    requires Reports(s, e, x)
  {
    if e.EComplete? && !e.report.NoReason? then e.report else s.running[x].reason
  }

  ghost predicate Exhausted(row: Row) { row.attempt >= row.maxAttempts }

  /** The cause of the terminal state that `e` brings job `x` into. */
  ghost predicate EndsRightly(s: State, e: Event, r: State, x: JobId)
    requires x in s.rows && x in r.rows
  {
    match r.rows[x].state
    case Succeeded => Reports(s, e, x) && Reason(s, e, x).NoReason? && e.ok
    case Failed =>
      && Exhausted(s.rows[x])
      && if e.EExpire? then e.id == x && x in s.running else Reports(s, e, x) && Reason(s, e, x).NoReason? && !e.ok
    case TimedOut => Exhausted(s.rows[x]) && Reports(s, e, x) && Reason(s, e, x).TimeoutReason?
    case Cancelled =>
      || (e.ECancel? && e.id == x && !s.rows[x].state.Running?)
      || (e.EBegin? && e.id == x && s.rows[x].cancelRequested)
      || (Reports(s, e, x) && Reason(s, e, x).UserReason?)
    case Skipped => exists a :: EndsBadly(s, r, a) && Reaches(s.deps, a, x)
    case _ => true
  }

  ghost predicate EndsBadly(s: State, r: State, a: JobId) {
    && a in s.rows && !IsTerminal(s.rows[a].state)
    && a in r.rows && IsTerminal(r.rows[a].state) && !r.rows[a].state.Succeeded?
  }

  /** Ending a job writes its row; another job ends with it only by being skipped, below a failure. */
  lemma RetireEnds(t: State, id: JobId, row: Row, now: int, order: seq<JobId>, x: JobId)
    requires Retirable(t, id, row) && Lists(order, OpenDescendants(t, id)) && x in t.rows &&
             !IsTerminal(t.rows[x].state)
    ensures var r := Retire(t, id, row, now, order);
            && id in r.rows && r.rows[id] == row && x in r.rows
            && (x != id && IsTerminal(r.rows[x].state) ==>
                r.rows[x].state.Skipped? && Reaches(t.deps, id, x) && !row.state.Succeeded?)
  {
    hide Logged, Room, Books;
    if row.workflow.None? {
      RetirePlain(t, id, row, now, order);
    } else if row.state.Succeeded? {
      RetireSuccess(t, id, row, now, order);
      SuccessRows(t, id, row, now);
    } else {
      RetireFailure(t, id, row, now, order);
      FailureRows(t, id, row, order);
    }
  }

  /** The shape of a step that retires `id`: everything EndsRightly needs follows from the row it writes. */
  lemma RetirementEnds(s: State, e: Event, t: State, id: JobId, row: Row, now: int, order: seq<JobId>, x: JobId)
    requires Inv(s) && t == s.(queue := t.queue, inHand := t.inHand, running := t.running)
    requires Retirable(t, id, row) && Lists(order, OpenDescendants(t, id)) && x in s.rows &&
             !IsTerminal(s.rows[x].state)
    requires x == id ==> EndsRightly(s, e, s.(rows := s.rows[id := row]), id)
    ensures var r := Retire(t, id, row, now, order);
            x in r.rows && (IsTerminal(r.rows[x].state) ==> EndsRightly(s, e, r, x))
  {
    hide Inv, Logged, Room, Books, Retire, OpenDescendants, Lists;
    RetireEnds(t, id, row, now, order, x);
    var r := Retire(t, id, row, now, order);
    if x != id && IsTerminal(r.rows[x].state) { assert EndsBadly(s, r, id); }
  }

  /** What a report under the current lease does to the state. */
  lemma ReportIs(s: State, e: Event, x: JobId)
    requires Enabled(s, e) && Reports(s, e, x) && x in s.rows
    ensures var t := s.(running := s.running - {x});
            var next := OutcomeState(s.rows[x], Reason(s, e, x), e.ok);
            Apply(s, e) ==
              if next.Retrying?
              then Enqueue(Persist(t, x, FinishedRow(s.rows[x], e.EComplete?, next, e.now + e.backoff)), x)
              else Retire(t, x, FinishedRow(s.rows[x], e.EComplete?, next, s.rows[x].readyAt), e.now, e.order)
  {
    hide Enqueue, Retire, OpenDescendants, Lists;
  }

  lemma NoReport(s: State, e: Event)
    requires Enabled(s, e) && (e.EFinish? || e.EComplete?) && !Reports(s, e, e.id)
    ensures Apply(s, e) == s
  {
    hide Enqueue, Retire, OpenDescendants, Lists, Persist;
  }

  lemma FinishEnds(s: State, e: Event, x: JobId)
    requires Inv(s) && Enabled(s, e) && (e.EFinish? || e.EComplete?) && x in s.rows && !IsTerminal(s.rows[x].state)
    ensures var r := Apply(s, e); x in r.rows && (IsTerminal(r.rows[x].state) ==> EndsRightly(s, e, r, x))
  {
    hide Apply, Logged, Placed, PlacedBut, Room, Books, Retirable, OpenDescendants, Enqueue, Retire, Lists;
    var id := e.id;
    if Reports(s, e, id) {
      TakeRunning(s, id);
      ReportIs(s, e, id);
      var t := s.(running := s.running - {id});
      var next := OutcomeState(s.rows[id], Reason(s, e, id), e.ok);
      if next.Retrying? {
        EnqueueFields(Persist(t, id, FinishedRow(s.rows[id], e.EComplete?, next, e.now + e.backoff)), id);
      } else {
        var row := FinishedRow(s.rows[id], e.EComplete?, next, s.rows[id].readyAt);
        RetirementShape(s, t, id, row, e.order);
        RetirementEnds(s, e, t, id, row, e.now, e.order, x);
      }
    } else {
      NoReport(s, e);
    }
  }

  lemma BeginEnds(s: State, e: Event, x: JobId)
    requires Inv(s) && Enabled(s, e) && e.EBegin? && x in s.rows && !IsTerminal(s.rows[x].state)
    ensures var r := Apply(s, e); x in r.rows && (IsTerminal(r.rows[x].state) ==> EndsRightly(s, e, r, x))
  {
    hide Logged, Placed, PlacedBut, Room, Books, Retirable, OpenDescendants, Retire, Lists;
    var id := e.id;
    TakeInHand(s, id);
    if IsWaiting(s.rows[id].state) && s.rows[id].cancelRequested {
      var t := s.(inHand := s.inHand - multiset{id});
      var row := s.rows[id].(state := Cancelled);
      RetirementShape(s, t, id, row, e.order);
      RetirementEnds(s, e, t, id, row, e.now, e.order, x);
    }
  }

  lemma CancelEnds(s: State, e: Event, x: JobId)
    requires Inv(s) && Enabled(s, e) && e.ECancel? && x in s.rows && !IsTerminal(s.rows[x].state)
    ensures var r := Apply(s, e); x in r.rows && (IsTerminal(r.rows[x].state) ==> EndsRightly(s, e, r, x))
  {
    hide Logged, Placed, PlacedBut, Room, Books, Retirable, OpenDescendants, Retire, Lists;
    var id := e.id;
    if id in s.rows && !IsTerminal(s.rows[id].state) && !s.rows[id].state.Running? {
      var t := s.(queue := s.queue - {id});
      var row := s.rows[id].(cancelRequested := true, state := Cancelled);
      Dequeue(s, id);
      RetirementShape(s, t, id, row, e.order);
      RetirementEnds(s, e, t, id, row, e.now, e.order, x);
    }
  }

  lemma ExpireEnds(s: State, e: Event, x: JobId)
    requires Inv(s) && Enabled(s, e) && e.EExpire? && x in s.rows && !IsTerminal(s.rows[x].state)
    ensures var r := Apply(s, e); x in r.rows && (IsTerminal(r.rows[x].state) ==> EndsRightly(s, e, r, x))
  {
    hide Logged, Placed, PlacedBut, Room, Books, Retirable, OpenDescendants, Enqueue, Retire, Lists;
    var id := e.id;
    if id in s.running {
      TakeRunning(s, id);
      var t := s.(running := s.running - {id});
      var row := s.rows[id].(leaseToken := 0);
      if row.attempt >= row.maxAttempts {
        RetirementShape(s, t, id, row.(state := Failed), e.order);
        RetirementEnds(s, e, t, id, row.(state := Failed), e.now, e.order, x);
      } else {
        EnqueueFields(Persist(t, id, row.(state := Queued, readyAt := e.now)), id);
      }
    }
  }

  /** In every run: whatever step ends a job, it ends it in the state the step's cause calls for. */
  lemma JobsEndRightly(run: seq<State>, events: seq<Event>, i: nat, x: JobId)
    requires IsRun(run, events) && i < |events| && !events[i].ERestart?
    requires x in run[i].rows && !IsTerminal(run[i].rows[x].state)
    ensures x in run[i + 1].rows &&
            (IsTerminal(run[i + 1].rows[x].state) ==> EndsRightly(run[i], events[i], run[i + 1], x))
  {
    hide Inv, Enabled, Apply, EndsRightly;
    var s, e := run[i], events[i];
    RunKeepsInv(run, events, i);
    if e.EFinish? || e.EComplete? {
      FinishEnds(s, e, x);
    } else if e.EBegin? {
      BeginEnds(s, e, x);
    } else if e.ECancel? {
      CancelEnds(s, e, x);
    } else if e.EExpire? {
      ExpireEnds(s, e, x);
    } else if e.ESubmit? {
      SubmitRows(s, e);
    } else if e.EWorkflow? {
      WorkflowRows(s, e);
    } else {
      QuietRows(s, e);
    }
  }

  lemma QuietRows(s: State, e: Event)
    requires Enabled(s, e) && (e.EPop? || e.EMarkCancelled? || e.EDeadline?)
    ensures Apply(s, e).rows == s.rows
  {
  }

  /**
   A result handed in under the lease on record takes effect: the job ends as reported, or is retried while it may
   be.
   */
  lemma ReportTakesEffect(run: seq<State>, events: seq<Event>, i: nat, x: JobId)
    requires IsRun(run, events) && i < |events| && Reports(run[i], events[i], x)
    ensures var s, e, r := run[i], events[i], run[i + 1];
            && x in s.rows && x in r.rows && x !in r.running
            && (r.rows[x].state.Succeeded? <==> Reason(s, e, x).NoReason? && e.ok)
            && (r.rows[x].state.Cancelled? <==> Reason(s, e, x).UserReason?)
            && (r.rows[x].state.Retrying? <==>
                  !Exhausted(s.rows[x]) && (Reason(s, e, x).TimeoutReason? || (Reason(s, e, x).NoReason? && !e.ok)))
            && (r.rows[x].state.TimedOut? <==> Exhausted(s.rows[x]) && Reason(s, e, x).TimeoutReason?)
            && (r.rows[x].state.Failed? <==> Exhausted(s.rows[x]) && Reason(s, e, x).NoReason? && !e.ok)
            && (r.rows[x].state.Retrying? ==>
                r.rows[x].readyAt == e.now + e.backoff && (x in r.queue || x in r.dropped))
  {
    hide Enabled, Apply, Inv;
    RunKeepsInv(run, events, i);
    RunKeepsInv(run, events, i + 1);
    ReportEffect(run[i], events[i], x);
    PlacedNow(run[i + 1], x);
  }

  lemma PlacedNow(s: State, x: JobId)
    requires Inv(s) && x in s.rows && !s.rows[x].state.Running?
    ensures x !in s.running
    ensures s.rows[x].state.Retrying? && x !in s.inHand ==> x in s.queue || x in s.dropped
  {
    hide Logged, Room, Books;
    assert PlacedAt(s, x);
  }

  lemma ReportEffect(s: State, e: Event, x: JobId)
    requires Inv(s) && Enabled(s, e) && Reports(s, e, x)
    ensures x in s.rows && s.rows[x].state.Running? && x in Apply(s, e).rows
    ensures Apply(s, e).rows[x].state == OutcomeState(s.rows[x], Reason(s, e, x), e.ok)
    ensures Apply(s, e).rows[x].state.Retrying? ==>
            Apply(s, e).rows[x].readyAt == e.now + e.backoff && x !in Apply(s, e).inHand
  {
    hide Apply, Logged, Placed, PlacedBut, Room, Books, Retirable, OpenDescendants, Enqueue, Retire, Lists;
    TakeRunning(s, x);
    ReportIs(s, e, x);
    var t := s.(running := s.running - {x});
    var next := OutcomeState(s.rows[x], Reason(s, e, x), e.ok);
    if next.Retrying? {
      EnqueueFields(Persist(t, x, FinishedRow(s.rows[x], e.EComplete?, next, e.now + e.backoff)), x);
    } else {
      var row := FinishedRow(s.rows[x], e.EComplete?, next, s.rows[x].readyAt);
      RetirementShape(s, t, x, row, e.order);
      RetireEnds(t, x, row, e.now, e.order, x);
    }
  }

  // ---- admission and recovery ----

  /**
   A job is taken in exactly when its type is known, a slot is free and the store agrees; it then waits, unstarted,
   in the queue, which always has room for it.
   */
  lemma SubmitAccepts(run: seq<State>, events: seq<Event>, i: nat)
    requires IsRun(run, events) && i < |events| && events[i].ESubmit?
    ensures var s, e, r := run[i], events[i], run[i + 1];
            && (e.id in r.rows <==> e.typeKnown && s.outstanding < s.capacity && e.storeOk)
            && (e.id !in r.rows ==> r == s)
            && (e.id in r.rows ==> IsWaiting(r.rows[e.id].state) && r.rows[e.id].attempt == 0 && e.id in r.queue)
  {
    hide Inv;
    RunKeepsInv(run, events, i);
    SubmitRow(run[i], events[i]);
  }

  lemma SubmitRow(s: State, e: Event)
    requires Inv(s) && Enabled(s, e) && e.ESubmit?
    ensures var r := Apply(s, e);
            && (e.id in r.rows <==> e.typeKnown && s.outstanding < s.capacity && e.storeOk)
            && (e.id !in r.rows ==> r == s)
            && (e.id in r.rows ==> IsWaiting(r.rows[e.id].state) && r.rows[e.id].attempt == 0 && e.id in r.queue)
  {
    hide Logged, Room, CountsOk, Propagated, WorkflowsOk, ChildrenOk;
    assert s.queue <= Live(s.rows) by { forall x <- s.queue ensures x in Live(s.rows) { assert PlacedAt(s, x); } }
    SubsetSize(s.queue, Live(s.rows));
  }

  lemma Waits(s: State, x: JobId)
    requires Inv(s) && x in s.rows && IsWaiting(s.rows[x].state) && x !in s.inHand
    ensures x in s.queue || x in s.dropped
  {
    hide Logged, Room, Books;
    assert PlacedAt(s, x);
  }

  /**
   Recovery resumes every open job of the surviving table and touches no other: an interrupted one is queued
   again under the same attempt number, the rest are as they were, and whatever waits is pushed.
   */
  lemma RecoveryResumesAll(run: seq<State>, events: seq<Event>, i: nat, x: JobId)
    requires IsRun(run, events) && i < |events| && events[i].ERestart?
    ensures var t, r := Survivors(run[i], events[i]), run[i + 1];
            && r.rows.Keys == t.Keys && r.running == map[] && r.inHand == multiset{}
            && (x in t && !t[x].state.Running? ==> r.rows[x] == t[x])
            && (x in t && t[x].state.Running? ==>
                  r.rows[x] == Row(Queued, t[x].attempt, t[x].maxAttempts, t[x].pendingDeps, t[x].workflow, 0,
                                   t[x].cancelRequested, events[i].now))
            && (x in t && IsWaiting(r.rows[x].state) ==> x in r.queue || x in r.dropped)
  {
    hide Inv, Survivors, Apply, Enabled;
    RunKeepsInv(run, events, i + 1);
    RestartRows(run[i], events[i]);
    if x in run[i + 1].rows && IsWaiting(run[i + 1].rows[x].state) { Waits(run[i + 1], x); }
  }
}
