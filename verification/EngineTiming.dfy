/** No attempt begins before the time its job is ready for. */
module EngineTiming {
  import opened Jobs
  import opened Graphs
  import opened EngineModel
  import opened EngineInvariant
  import opened EngineRetire
  import opened EngineSteps
  import opened EngineAdmission
  import opened EngineRecovery
  import opened EngineRuns
  import opened EngineHistory
  import opened EngineOutcomes

  /** When the step is made, if it looks at the clock. */
  function Time(e: Event): Option<int> {
    match e
    case EPop(_, now) => Some(now)
    case EBegin(_, _, _, _, now, _) => Some(now)
    case _ => None
  }

  /** Pops and starts are made in the order of their times. */
  ghost predicate Timely(events: seq<Event>) {
    forall i, j :: 0 <= i < j < |events| && Time(events[i]).Some? && Time(events[j]).Some? ==>
      Time(events[i]).value <= Time(events[j]).value
  }

  lemma RetireHands(t: State, id: JobId, row: Row, now: int, order: seq<JobId>)
    requires id in t.rows && forall x <- order :: x in t.rows
    ensures Retire(t, id, row, now, order).inHand == t.inHand
  {
    var u := Persist(t, id, row);
    if row.workflow.Some? {
      if row.state.Succeeded? {
        var (pd, ready) := MeetDeps(u.pendingDeps, Kids(u, id));
        UnblockAllRows(u.(pendingDeps := pd), ready, now);
      } else {
        SkipAllRows(u, order);
      }
    }
  }

  lemma ReportHands(s: State, e: Event)
    requires Inv(s) && Enabled(s, e) && (e.EFinish? || e.EComplete?)
    ensures Apply(s, e).inHand == s.inHand
  {
    hide Logged, Placed, PlacedBut, Room, Books, Apply, Enqueue, Retire, OutcomeState;
    var id := e.id;
    if Reports(s, e, id) {
      TakeRunning(s, id);
      ReportIs(s, e, id);
      var t := s.(running := s.running - {id});
      var next := OutcomeState(s.rows[id], Reason(s, e, id), e.ok);
      EnqueueFields(Persist(t, id, FinishedRow(s.rows[id], e.EComplete?, next, e.now + e.backoff)), id);
      RetireHands(t, id, FinishedRow(s.rows[id], e.EComplete?, next, s.rows[id].readyAt), e.now, e.order);
    } else {
      NoReport(s, e);
    }
  }

  lemma BeginHands(s: State, e: Event)
    requires Inv(s) && Enabled(s, e) && e.EBegin?
    ensures Apply(s, e).inHand <= s.inHand
  {
    hide Inv, Retire;
    if e.id in s.rows {
      var t := s.(inHand := s.inHand - multiset{e.id});
      RetireHands(t, e.id, s.rows[e.id].(state := Cancelled), e.now, e.order);
    }
  }

  lemma CancelHands(s: State, e: Event)
    requires Inv(s) && Enabled(s, e) && e.ECancel?
    ensures Apply(s, e).inHand == s.inHand
  {
    hide Inv, Retire;
    if e.id in s.rows {
      var t := s.(queue := s.queue - {e.id});
      RetireHands(t, e.id, s.rows[e.id].(cancelRequested := true, state := Cancelled), e.now, e.order);
    }
  }

  lemma ExpireHands(s: State, e: Event)
    requires Inv(s) && Enabled(s, e) && e.EExpire?
    ensures Apply(s, e).inHand == s.inHand
  {
    hide Inv, Enqueue, Retire;
    if e.id in s.rows {
      var t := s.(running := s.running - {e.id});
      var row := s.rows[e.id].(leaseToken := 0);
      RetireHands(t, e.id, row.(state := Failed), e.now, e.order);
      EnqueueFields(Persist(t, e.id, row.(state := Queued, readyAt := e.now)), e.id);
    }
  }

  lemma AdmissionHands(s: State, e: Event)
    requires Enabled(s, e) && Admission(e)
    ensures Apply(s, e).inHand == s.inHand
  {
    hide Enqueue, EnqueueAll, NodeRows, Roots;
    match e
    case ESubmit(id, maxAttempts, delay, now, _, _) =>
      var row := FreshRow(maxAttempts, delay, now, None, 0);
      EnqueueFields(InsertRow(s.(outstanding := s.outstanding + 1), id, row), id);
    case EWorkflow(w, ids, specs, edges, now) =>
      var nodes := NodeRows(w, ids, specs, Elems(edges), now);
      EnqueueAllFields(Grown(s, w, ids, nodes, edges), Roots(nodes, ids));
  }

  /** An entry is in a worker's hands only through a pop. */
  lemma NewInHand(s: State, e: Event, x: JobId)
    requires Inv(s) && Enabled(s, e) && x in Apply(s, e).inHand
    ensures x in s.inHand || (e.EPop? && e.id == x)
  {
    hide Inv, Enabled, Apply;
    match e
    case EFinish(_, _, _, _, _, _) => ReportHands(s, e);
    case EComplete(_, _, _, _, _, _, _, _, _) => ReportHands(s, e);
    case EBegin(_, _, _, _, _, _) => BeginHands(s, e);
    case ECancel(_, _, _) => CancelHands(s, e);
    case EExpire(_, _, _) => ExpireHands(s, e);
    case ESubmit(_, _, _, _, _, _) => AdmissionHands(s, e);
    case EWorkflow(_, _, _, _, _) => AdmissionHands(s, e);
    case ERestart(_, _, _, _, _) => RestartRows(s, e);
    case _ => PlainHands(s, e, x);
  }

  lemma PlainHands(s: State, e: Event, x: JobId)
    requires Enabled(s, e) && (e.EPop? || e.EMarkCancelled? || e.EDeadline?) && x in Apply(s, e).inHand
    ensures x in s.inHand || (e.EPop? && e.id == x)
  {
  }

  lemma HandRow(s: State, x: JobId)
    requires Inv(s) && x in s.inHand
    ensures x in s.rows && (IsWaiting(s.rows[x].state) || IsTerminal(s.rows[x].state))
  {
    hide Logged, Room, Books;
    assert PlacedAt(s, x);
  }

  lemma PopIsDue(s: State, e: Event, x: JobId)
    requires Enabled(s, e) && e.EPop? && e.id == x && x in s.rows
    ensures Apply(s, e).rows == s.rows && s.rows[x].readyAt <= e.now
  {
  }

  lemma RestartHands(s: State, e: Event)
    requires Enabled(s, e) && e.ERestart?
    ensures Apply(s, e).inHand == multiset{}
  {
    hide Enabled, Apply, Survivors;
    RestartRows(s, e);
  }

  /** What a worker holds is due by the time of any pop or start so far, and so by any later one. */
  lemma {:induction false} HandsAreDue(run: seq<State>, events: seq<Event>, i: nat, t: int, x: JobId)
    requires IsRun(run, events) && i < |run| && x in run[i].inHand
    requires forall k :: 0 <= k < i && Time(events[k]).Some? ==> Time(events[k]).value <= t
    ensures x in run[i].rows && (IsWaiting(run[i].rows[x].state) ==> run[i].rows[x].readyAt <= t)
    decreases i
  {
    hide Inv, Enabled, Apply;
    RunKeepsInv(run, events, i);
    HandRow(run[i], x);
    if i > 0 {
      var s, e := run[i - 1], events[i - 1];
      RunKeepsInv(run, events, i - 1);
      NewInHand(s, e, x);
      if e.ERestart? {
        RestartHands(s, e);
      } else {
        StepMovesRows(s, e);
        if x in s.inHand {
          HandsAreDue(run, events, i - 1, t, x);
          HandRow(s, x);
        } else {
          PoppedIsKnown(s, e, x);
          PopIsDue(s, e, x);
          assert Time(e) == Some(e.now);
        }
      }
    }
  }

  lemma PoppedIsKnown(s: State, e: Event, x: JobId)
    requires Inv(s) && Enabled(s, e) && e.EPop? && e.id == x
    ensures x in s.rows
  {
    hide Logged, Room, Books;
    assert PlacedAt(s, x);
  }

  /** In every run whose pops and starts follow the clock, no attempt begins before its job's ready_at. */
  lemma NoAttemptBeforeReady(run: seq<State>, events: seq<Event>, i: nat)
    requires IsRun(run, events) && Timely(events) && i < |events| && events[i].EBegin?
    requires events[i].id in run[i].rows && IsWaiting(run[i].rows[events[i].id].state)
    ensures run[i].rows[events[i].id].readyAt <= events[i].now
  {
    assert events[i].id in run[i].inHand;
    hide Enabled, Apply;
    forall k | 0 <= k < i && Time(events[k]).Some? ensures Time(events[k]).value <= events[i].now {
      assert Time(events[i]).Some?;
    }
    HandsAreDue(run, events, i, events[i].now, events[i].id);
  }
}
