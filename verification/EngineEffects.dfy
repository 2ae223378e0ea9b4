/** What each operation does, field by field, to the job it names and to the others; and what its answer means. */
module EngineEffects {
  import opened Jobs
  import opened Graphs
  import opened EngineModel
  import opened EngineInvariant
  import opened EngineRetire
  import opened EngineBooks
  import opened EngineSteps
  import opened EngineAdmission
  import opened EngineRuns
  import opened EngineHistory
  import opened EngineOutcomes
  import opened EngineCancellation

  // ---- a start ----

  /**
   A popped entry whose job waits starts an attempt, under the token and the owner given, unless the job was cancelled;
   any other entry is dropped.
   */
  ghost predicate BeginDone(s: State, e: Event, r: State)
    requires e.EBegin?
  {
    && e.id in s.rows && e.id in r.rows
    && var a := s.rows[e.id];
       if !IsWaiting(a.state) then r.rows == s.rows && r.running == s.running
       else if a.cancelRequested then
         && r.rows[e.id] == Row(Cancelled, a.attempt, a.maxAttempts, a.pendingDeps, a.workflow, a.leaseToken, true,
                                a.readyAt)
         && r.running == s.running
       else
         && r.rows == s.rows[e.id := Row(Running, a.attempt + 1, a.maxAttempts, a.pendingDeps, a.workflow, e.token,
                                         false, a.readyAt)]
         && r.running == s.running[e.id := RunningInfo(e.token, e.owner, a.attempt + 1, NoReason, e.remote)]
  }

  lemma BeginEffect(s: State, e: Event)
    requires Inv(s) && Enabled(s, e) && e.EBegin?
    ensures BeginDone(s, e, Apply(s, e))
  {
    hide Logged, Placed, PlacedBut, Room, Books, Retirable, OpenDescendants, Retire, Lists;
    var id := e.id;
    TakeInHand(s, id);
    if IsWaiting(s.rows[id].state) && s.rows[id].cancelRequested {
      var t := s.(inHand := s.inHand - multiset{id});
      var row := s.rows[id].(state := Cancelled);
      RetirementShape(s, t, id, row, e.order);
      RetireEnds(t, id, row, e.now, e.order, id);
      OrderInRows(s, id, e.order);
      RetireRunning(t, id, row, e.now, e.order);
    }
  }

  lemma OrderInRows(s: State, id: JobId, order: seq<JobId>)
    requires Lists(order, OpenDescendants(s, id))
    ensures forall x <- order :: x in s.rows
  {
  }

  lemma BeginTakesEffect(run: seq<State>, events: seq<Event>, i: nat)
    requires IsRun(run, events) && i < |events| && events[i].EBegin?
    ensures BeginDone(run[i], events[i], run[i + 1])
  {
    hide Inv, Enabled, Apply, BeginDone;
    RunKeepsInv(run, events, i);
    BeginEffect(run[i], events[i]);
  }

  // ---- an expiry ----

  /** A lease that is taken back: the job waits again, at once, exactly while attempts are left, and fails otherwise. */
  ghost predicate ExpiryDone(s: State, e: Event, r: State)
    requires e.EExpire?
  {
    if e.id !in s.running then r == s
    else
      && e.id in s.rows && e.id in r.rows && e.id !in r.running
      && var a := s.rows[e.id];
         if a.attempt < a.maxAttempts then
           && r.rows[e.id] == Row(Queued, a.attempt, a.maxAttempts, a.pendingDeps, a.workflow, 0, a.cancelRequested,
                                  e.now)
           && (e.id in r.queue || e.id in r.dropped)
         else
           r.rows[e.id] == Row(Failed, a.attempt, a.maxAttempts, a.pendingDeps, a.workflow, 0, a.cancelRequested,
                               a.readyAt)
  }

  lemma ExpireEffect(s: State, e: Event)
    requires Inv(s) && Enabled(s, e) && e.EExpire?
    ensures ExpiryDone(s, e, Apply(s, e))
  {
    hide Logged, Placed, PlacedBut, Room, Books, Retirable, OpenDescendants, Enqueue, Retire, Lists;
    var id := e.id;
    if id in s.running {
      TakeRunning(s, id);
      var t := s.(running := s.running - {id});
      var row := s.rows[id].(leaseToken := 0);
      if row.attempt >= row.maxAttempts {
        RetirementShape(s, t, id, row.(state := Failed), e.order);
        RetireEnds(t, id, row.(state := Failed), e.now, e.order, id);
        OrderInRows(s, id, e.order);
        RetireRunning(t, id, row.(state := Failed), e.now, e.order);
      } else {
        EnqueueFields(Persist(t, id, row.(state := Queued, readyAt := e.now)), id);
        IsPushed(Persist(t, id, row.(state := Queued, readyAt := e.now)), id);
      }
    }
  }

  lemma IsPushed(s: State, id: JobId)
    ensures id in Enqueue(s, id).queue || id in Enqueue(s, id).dropped
  {
  }

  lemma ExpiryTakesEffect(run: seq<State>, events: seq<Event>, i: nat)
    requires IsRun(run, events) && i < |events| && events[i].EExpire?
    ensures ExpiryDone(run[i], events[i], run[i + 1])
  {
    hide Inv, Enabled, Apply, ExpiryDone;
    RunKeepsInv(run, events, i);
    ExpireEffect(run[i], events[i]);
  }

  // ---- a cancel ----

  /** A cancel leaves the request on the row; a running attempt is told, a job that waits ends there and then. */
  ghost predicate CancelDone(s: State, e: Event, r: State)
    requires e.ECancel?
  {
    if e.id !in s.rows || IsTerminal(s.rows[e.id].state) then r == s
    else
      var a := s.rows[e.id];
      && e.id in r.rows
      && r.rows[e.id] == Row(if a.state.Running? then Running else Cancelled, a.attempt, a.maxAttempts, a.pendingDeps,
                             a.workflow, a.leaseToken, true, a.readyAt)
      && (if a.state.Running? then e.id in r.running && r.running[e.id].reason.UserReason? else e.id !in r.queue)
  }

  lemma CancelEffect(s: State, e: Event)
    requires Inv(s) && Enabled(s, e) && e.ECancel?
    ensures CancelDone(s, e, Apply(s, e))
  {
    hide Logged, Placed, PlacedBut, Room, Books, Retirable, OpenDescendants, Retire, Lists;
    var id := e.id;
    if id in s.rows && !IsTerminal(s.rows[id].state) {
      if s.rows[id].state.Running? {
        RunningPlace(s, id);
        CancelRunning(s, e, id);
      } else {
        var t := s.(queue := s.queue - {id});
        var row := s.rows[id].(cancelRequested := true, state := Cancelled);
        Dequeue(s, id);
        RetirementShape(s, t, id, row, e.order);
        RetireEnds(t, id, row, e.now, e.order, id);
        StepKeepsInv(s, e);
        EndedNotQueued(Apply(s, e), id);
      }
    }
  }

  lemma EndedNotQueued(s: State, x: JobId)
    requires Inv(s) && x in s.rows && IsTerminal(s.rows[x].state)
    ensures x !in s.queue
  {
    hide Logged, Room, Books;
    assert PlacedAt(s, x);
  }

  lemma CancelTakesEffect(run: seq<State>, events: seq<Event>, i: nat)
    requires IsRun(run, events) && i < |events| && events[i].ECancel?
    ensures CancelDone(run[i], events[i], run[i + 1])
  {
    hide Inv, Enabled, Apply, CancelDone;
    RunKeepsInv(run, events, i);
    CancelEffect(run[i], events[i]);
  }

  // ---- a report ----

  lemma ReportRow(s: State, e: Event, x: JobId)
    requires Inv(s) && Enabled(s, e) && Reports(s, e, x)
    ensures x in s.rows && x in Apply(s, e).rows &&
            Apply(s, e).rows[x].state == OutcomeState(s.rows[x], Reason(s, e, x), e.ok)
    ensures var a, b := s.rows[x], Apply(s, e).rows[x];
            b == Row(b.state, a.attempt, a.maxAttempts, a.pendingDeps, a.workflow, 0, e.EComplete? && a.cancelRequested,
                     if b.state.Retrying? then e.now + e.backoff else a.readyAt)
  {
    hide Apply, Logged, Placed, PlacedBut, Room, Books, Retirable, OpenDescendants, Enqueue, Retire, Lists,
         OutcomeState;
    TakeRunning(s, x);
    ReportIs(s, e, x);
    var t := s.(running := s.running - {x});
    var next := OutcomeState(s.rows[x], Reason(s, e, x), e.ok);
    OutcomeEnds(s.rows[x], Reason(s, e, x), e.ok);
    if next.Retrying? {
      EnqueueFields(Persist(t, x, FinishedRow(s.rows[x], e.EComplete?, next, e.now + e.backoff)), x);
    } else {
      var row := FinishedRow(s.rows[x], e.EComplete?, next, s.rows[x].readyAt);
      RetirementShape(s, t, x, row, e.order);
      RetireEnds(t, x, row, e.now, e.order, x);
    }
  }

  lemma OutcomeEnds(row: Row, reason: CancelReason, ok: bool)
    ensures var next := OutcomeState(row, reason, ok); next.Retrying? || IsTerminal(next)
    ensures var next := OutcomeState(row, reason, ok);
            row.state.Running? && !next.Retrying? ==> Started(next) || next.Cancelled?
  {
  }

  // ---- all other rows ----

  /** A child of `p` that waits for nothing any more: it is due at its ready_at, or at once. */
  predicate Released(a: Row, b: Row, now: int) {
    && a.state.Pending?
    && b == Row(if a.readyAt > now then Scheduled else Queued, a.attempt, a.maxAttempts, 0, a.workflow, a.leaseToken,
                a.cancelRequested, a.readyAt)
  }

  predicate WasSkipped(a: Row, b: Row) {
    && a.state.Pending?
    && b == Row(Skipped, a.attempt, a.maxAttempts, a.pendingDeps, a.workflow, a.leaseToken, a.cancelRequested,
                a.readyAt)
  }

  lemma RetireBeside(t: State, id: JobId, row: Row, now: int, order: seq<JobId>, x: JobId)
    requires Retirable(t, id, row) && Lists(order, OpenDescendants(t, id)) && x in t.rows && x != id
    ensures var r := Retire(t, id, row, now, order).rows;
            && x in r && id in r && r[id] == row
            && (|| r[x] == t.rows[x]
                || (row.state.Succeeded? && (id, x) in t.deps && Released(t.rows[x], r[x], now))
                || (!row.state.Succeeded? && Reaches(t.deps, id, x) && WasSkipped(t.rows[x], r[x])))
  {
    hide Logged, Room, Books, PlacedBut, RowOk;
    if row.workflow.None? {
      RetirePlain(t, id, row, now, order);
    } else if row.state.Succeeded? {
      RetireSuccess(t, id, row, now, order);
      SuccessRows(t, id, row, now);
      ReadyAreKids(t, id, x);
    } else {
      RetireFailure(t, id, row, now, order);
      FailureRows(t, id, row, order);
    }
  }

  lemma ReadyAreKids(t: State, id: JobId, x: JobId)
    requires Books(t)
    ensures x in MeetDeps(t.pendingDeps, Kids(t, id)).1 ==> (id, x) in t.deps
  {
    hide CountsOk, Propagated, WorkflowsOk;
    MeetDepsEffect(t.pendingDeps, Kids(t, id));
  }

  /** The step leaves `x` alone, or releases it, or skips it, because of how it ends the job it names. */
  ghost predicate Beside(s: State, e: Event, r: State, x: JobId)
    requires x in s.rows
  {
    && x in r.rows
    && (|| r.rows[x] == s.rows[x]
        || ((e.EFinish? || e.EComplete?) && e.id in r.rows && r.rows[e.id].state.Succeeded? && (e.id, x) in s.deps &&
            Released(s.rows[x], r.rows[x], e.now))
        || ((e.EFinish? || e.EComplete? || e.EBegin? || e.ECancel? || e.EExpire?) && e.id in r.rows &&
            IsTerminal(r.rows[e.id].state) && !r.rows[e.id].state.Succeeded? && Reaches(s.deps, e.id, x) &&
            WasSkipped(s.rows[x], r.rows[x])))
  }

  predicate Names(e: Event, x: JobId) {
    (e.EBegin? || e.EFinish? || e.EComplete? || e.ECancel? || e.EExpire?) && e.id == x
  }

  lemma ReportBeside(s: State, e: Event, x: JobId)
    requires Inv(s) && Enabled(s, e) && (e.EFinish? || e.EComplete?) && x in s.rows && x != e.id
    ensures Beside(s, e, Apply(s, e), x)
  {
    hide Apply, Logged, Placed, PlacedBut, Room, Books, Retirable, OpenDescendants, Enqueue, Retire, Lists,
         OutcomeState, Released, WasSkipped;
    var id := e.id;
    if Reports(s, e, id) {
      TakeRunning(s, id);
      ReportIs(s, e, id);
      var t := s.(running := s.running - {id});
      var next := OutcomeState(s.rows[id], Reason(s, e, id), e.ok);
      OutcomeEnds(s.rows[id], Reason(s, e, id), e.ok);
      if next.Retrying? {
        EnqueueFields(Persist(t, id, FinishedRow(s.rows[id], e.EComplete?, next, e.now + e.backoff)), id);
      } else {
        var row := FinishedRow(s.rows[id], e.EComplete?, next, s.rows[id].readyAt);
        RetirementShape(s, t, id, row, e.order);
        RetireBeside(t, id, row, e.now, e.order, x);
      }
    } else {
      NoReport(s, e);
    }
  }

  lemma BeginBeside(s: State, e: Event, x: JobId)
    requires Inv(s) && Enabled(s, e) && e.EBegin? && x in s.rows && x != e.id
    ensures Beside(s, e, Apply(s, e), x)
  {
    hide Logged, Placed, PlacedBut, Room, Books, Retirable, OpenDescendants, Retire, Lists, Released, WasSkipped;
    var id := e.id;
    TakeInHand(s, id);
    if IsWaiting(s.rows[id].state) && s.rows[id].cancelRequested {
      var t := s.(inHand := s.inHand - multiset{id});
      var row := s.rows[id].(state := Cancelled);
      RetirementShape(s, t, id, row, e.order);
      RetireBeside(t, id, row, e.now, e.order, x);
    }
  }

  lemma CancelBeside(s: State, e: Event, x: JobId)
    requires Inv(s) && Enabled(s, e) && e.ECancel? && x in s.rows && x != e.id
    ensures Beside(s, e, Apply(s, e), x)
  {
    hide Logged, Placed, PlacedBut, Room, Books, Retirable, OpenDescendants, Retire, Lists, Released, WasSkipped;
    var id := e.id;
    if id in s.rows && !IsTerminal(s.rows[id].state) && !s.rows[id].state.Running? {
      var t := s.(queue := s.queue - {id});
      var row := s.rows[id].(cancelRequested := true, state := Cancelled);
      Dequeue(s, id);
      RetirementShape(s, t, id, row, e.order);
      RetireBeside(t, id, row, e.now, e.order, x);
    }
  }

  lemma ExpireBeside(s: State, e: Event, x: JobId)
    requires Inv(s) && Enabled(s, e) && e.EExpire? && x in s.rows && x != e.id
    ensures Beside(s, e, Apply(s, e), x)
  {
    hide Logged, Placed, PlacedBut, Room, Books, Retirable, OpenDescendants, Enqueue, Retire, Lists, Released,
         WasSkipped;
    var id := e.id;
    if id in s.running {
      TakeRunning(s, id);
      var t := s.(running := s.running - {id});
      var row := s.rows[id].(leaseToken := 0);
      if row.attempt >= row.maxAttempts {
        RetirementShape(s, t, id, row.(state := Failed), e.order);
        RetireBeside(t, id, row.(state := Failed), e.now, e.order, x);
      } else {
        EnqueueFields(Persist(t, id, row.(state := Queued, readyAt := e.now)), id);
      }
    }
  }

  /**
   In every run an operation changes, besides the job it names, only pending jobs: children of a job it ends with
   success, which it releases, and jobs below one it ends without success, which it skips.
   */
  lemma OthersStay(run: seq<State>, events: seq<Event>, i: nat, x: JobId)
    requires IsRun(run, events) && i < |events| && !events[i].ERestart? && x in run[i].rows && !Names(events[i], x)
    ensures Beside(run[i], events[i], run[i + 1], x)
  {
    hide Inv, Enabled, Apply, Released, WasSkipped;
    var s, e := run[i], events[i];
    RunKeepsInv(run, events, i);
    match e
    case EFinish(_, _, _, _, _, _) => ReportBeside(s, e, x);
    case EComplete(_, _, _, _, _, _, _, _, _) => ReportBeside(s, e, x);
    case EBegin(_, _, _, _, _, _) => BeginBeside(s, e, x);
    case ECancel(_, _, _) => CancelBeside(s, e, x);
    case EExpire(_, _, _) => ExpireBeside(s, e, x);
    case ESubmit(_, _, _, _, _, _) => SubmitRows(s, e);
    case EWorkflow(_, _, _, _, _) => WorkflowRows(s, e);
    case _ => QuietRows(s, e);
  }

  // ---- admission ----

  function AtLeast(a: int, b: int): int { if a < b then b else a }

  /** The row of a job as it was asked for. */
  predicate AsAsked(row: Row, maxAttempts: int, delay: int, now: int, workflow: Option<WfId>, parents: nat) {
    && row.attempt == 0 && row.maxAttempts == AtLeast(maxAttempts, 1) && row.readyAt == now + AtLeast(delay, 0)
    && row.pendingDeps == parents && row.workflow == workflow && row.leaseToken == 0 && !row.cancelRequested
    && row.state == if parents > 0 then Pending else if delay > 0 then Scheduled else Queued
  }

  lemma FreshAsAsked(maxAttempts: int, delay: int, now: int, workflow: Option<WfId>, parents: nat)
    ensures AsAsked(FreshRow(maxAttempts, delay, now, workflow, parents), maxAttempts, delay, now, workflow, parents)
  {
  }

  lemma SubmitEffect(s: State, e: Event)
    requires Enabled(s, e) && e.ESubmit?
    ensures e.id in Apply(s, e).rows ==> AsAsked(Apply(s, e).rows[e.id], e.maxAttempts, e.delay, e.now, None, 0)
  {
    hide Enqueue;
    var row := FreshRow(e.maxAttempts, e.delay, e.now, None, 0);
    FreshAsAsked(e.maxAttempts, e.delay, e.now, None, 0);
    EnqueueFields(InsertRow(s.(outstanding := s.outstanding + 1), e.id, row), e.id);
  }

  /** A job that is taken in has the attempts and the delay asked for, at least one and at least none. */
  lemma SubmitTakesEffect(run: seq<State>, events: seq<Event>, i: nat)
    requires IsRun(run, events) && i < |events| && events[i].ESubmit? && events[i].id in run[i + 1].rows
    ensures var e := events[i]; AsAsked(run[i + 1].rows[e.id], e.maxAttempts, e.delay, e.now, None, 0)
  {
    hide Enabled, Apply, AsAsked;
    SubmitEffect(run[i], events[i]);
  }

  lemma {:induction false} NodeRowAt(w: WfId, ids: seq<JobId>, specs: seq<NodeSpec>, es: set<Edge>, now: int, k: nat)
    requires |ids| == |specs| && Distinct(ids) && k < |ids|
    ensures var nodes := NodeRows(w, ids, specs, es, now);
            ids[k] in nodes &&
            nodes[ids[k]] == FreshRow(specs[k].maxAttempts, specs[k].delay, now, Some(w), |Into(es, ids[k])|)
  {
    var n := |ids| - 1;
    if k < n {
      assert ids[k] != ids[n] && ids[..n][k] == ids[k] && specs[..n][k] == specs[k];
      NodeRowAt(w, ids[..n], specs[..n], es, now, k);
    }
  }

  lemma WorkflowEffect(s: State, e: Event, k: nat)
    requires Enabled(s, e) && e.EWorkflow? && k < |e.ids|
    ensures e.ids[k] in Apply(s, e).rows
    ensures AsAsked(Apply(s, e).rows[e.ids[k]], e.specs[k].maxAttempts, e.specs[k].delay, e.now, Some(e.w),
                    |Into(Elems(e.edges), e.ids[k])|)
  {
    hide NodeRows, Roots, EnqueueAll, AsAsked, FreshRow, Into;
    var es := Elems(e.edges);
    var nodes := NodeRows(e.w, e.ids, e.specs, es, e.now);
    NodeRowAt(e.w, e.ids, e.specs, es, e.now, k);
    FreshAsAsked(e.specs[k].maxAttempts, e.specs[k].delay, e.now, Some(e.w), |Into(es, e.ids[k])|);
    EnqueueAllFields(Grown(s, e.w, e.ids, nodes, e.edges), Roots(nodes, e.ids));
  }

  /** Every node of a new workflow has the attempts and the delay asked for, and waits for its parents, if any. */
  lemma WorkflowTakesEffect(run: seq<State>, events: seq<Event>, i: nat, k: nat)
    requires IsRun(run, events) && i < |events| && events[i].EWorkflow? && k < |events[i].ids|
    ensures var e, rows := events[i], run[i + 1].rows;
            && k < |e.specs| && e.ids[k] in rows
            && AsAsked(rows[e.ids[k]], e.specs[k].maxAttempts, e.specs[k].delay, e.now, Some(e.w),
                       |set d | d in e.edges && d.1 == e.ids[k]|)
  {
    hide Apply, AsAsked;
    assert |events[i].ids| == |events[i].specs|;
    hide Enabled;
    var e := events[i];
    assert (set d | d in e.edges && d.1 == e.ids[k]) == Into(Elems(e.edges), e.ids[k]);
    WorkflowEffect(run[i], e, k);
  }

  // ---- answers ----

  /** What the four answers to a submit mean. */
  lemma SubmitAnswers(s: State, id: JobId, maxAttempts: int, delay: int, now: int, typeKnown: bool, storeOk: bool)
    requires Inv(s) && id !in s.rows
    ensures var (r, status) := Submit(s, id, maxAttempts, delay, now, typeKnown, storeOk);
            && (status.SubmitUnknownType? <==> !typeKnown)
            && (status.SubmitQueueFull? <==> typeKnown && |Live(s.rows)| >= s.capacity)
            && (status.SubmitStoreError? <==> typeKnown && |Live(s.rows)| < s.capacity && !storeOk)
            && (status.SubmitOk? <==> id in r.rows) && (!status.SubmitOk? ==> r == s)
  {
    hide Logged, Placed, Room, CountsOk, Propagated, WorkflowsOk, ChildrenOk, Live;
  }

  /** What the three answers to a cancel mean. */
  lemma CancelAnswers(s: State, id: JobId, now: int, order: seq<JobId>)
    ensures var (r, status) := Cancel(s, id, now, order);
            && (status.CancelNotFound? <==> id !in s.rows)
            && (status.CancelAlreadyTerminal? <==> id in s.rows && IsTerminal(s.rows[id].state))
            && (!status.CancelOk? ==> r == s)
  {
    hide Retire;
  }
}
