/** Capacity: when a waiting job is in no queue, and which recoveries lose jobs to a full queue. */
module EngineCapacity {
  import opened Jobs
  import opened Graphs
  import opened EngineModel
  import opened EngineInvariant
  import opened EngineAdmission
  import opened EngineRecovery
  import opened EngineRuns
  import opened EngineHistory

  /** The rows recovery pushes: those that wait, and those that ran. */
  function Pushed(rows: Rows): set<JobId> {
    set x | x in rows && (IsWaiting(rows[x].state) || rows[x].state.Running?)
  }

  /** What recovery has pushed of `order`. */
  function PushedOf(rows: Rows, order: seq<JobId>): set<JobId> {
    set x | x in order && x in rows && (IsWaiting(rows[x].state) || rows[x].state.Running?)
  }

  lemma RecoverPush(s: State, id: JobId, now: int)
    requires id in s.rows
    ensures var r := Recover(s, id, now);
            if IsWaiting(s.rows[id].state) || s.rows[id].state.Running? then
              && (|s.queue| >= s.capacity ==> r.queue == s.queue && r.dropped == s.dropped + {id})
              && (|s.queue| < s.capacity ==> r.queue == s.queue + {id} && r.dropped == s.dropped)
            else r.queue == s.queue && r.dropped == s.dropped
  {
  }

  /** Recovery fills the queue up to the capacity and drops the rest. */
  ghost predicate Filled(s: State, pushed: set<JobId>) {
    && s.queue !! s.dropped && s.queue + s.dropped == pushed
    && |s.queue| <= s.capacity && (s.dropped != {} ==> |s.queue| == s.capacity)
  }

  lemma FillOne(s: State, pushed: set<JobId>, id: JobId, now: int)
    requires Filled(s, pushed) && id in s.rows && id !in pushed
    ensures Recover(s, id, now).capacity == s.capacity
    ensures Filled(Recover(s, id, now),
                   if IsWaiting(s.rows[id].state) || s.rows[id].state.Running? then pushed + {id} else pushed)
  {
    hide Recover;
    RecoverPush(s, id, now);
    RecoverRows(s, id, now);
  }

  lemma PushedMore(rows: Rows, order: seq<JobId>)
    requires order != [] && Distinct(order) && forall x <- order :: x in rows
    ensures var k := |order| - 1;
            && order[k] !in order[..k] && order[k] !in PushedOf(rows, order[..k])
            && Distinct(order[..k]) && (forall x <- order[..k] :: x in rows)
            && PushedOf(rows, order) ==
                 if IsWaiting(rows[order[k]].state) || rows[order[k]].state.Running?
                 then PushedOf(rows, order[..k]) + {order[k]}
                 else PushedOf(rows, order[..k])
  {
    var k := |order| - 1;
    assert order == order[..k] + [order[k]];
    assert order[k] in order;
  }

  lemma {:induction false} RecoverFills(s: State, order: seq<JobId>, now: int)
    requires Distinct(order) && (forall x <- order :: x in s.rows) && s.queue == {} && s.dropped == {}
    ensures Filled(RecoverAll(s, order, now), PushedOf(s.rows, order))
  {
    if order == [] {
      assert PushedOf(s.rows, order) == {};
    } else {
      hide Recover, Filled, PushedOf, Distinct;
      var k := |order| - 1;
      PushedMore(s.rows, order);
      RecoverFills(s, order[..k], now);
      RecoverAllRows(s, order[..k], now);
      assert order[k] in order;
      FillOne(RecoverAll(s, order[..k], now), PushedOf(s.rows, order[..k]), order[k], now);
    }
  }

  lemma FilledIff(s: State, pushed: set<JobId>)
    requires Filled(s, pushed)
    ensures s.dropped == {} <==> |pushed| <= s.capacity
  {
    assert |pushed| == |s.queue| + |s.dropped|;
  }

  /**
   A restart queues every waiting job exactly when the rows that wait or ran in the surviving table number at most
   the capacity; otherwise it fills the queue and loses the rest.
   */
  lemma RestartQueuesAllIff(run: seq<State>, events: seq<Event>, i: nat)
    requires IsRun(run, events) && i < |events| && events[i].ERestart?
    ensures var t, r := Survivors(run[i], events[i]), run[i + 1];
            && (r.dropped == {} <==> |Pushed(t)| <= r.capacity)
            && r.queue + r.dropped == Pushed(t) && r.queue !! r.dropped
            && (r.dropped != {} ==> |r.queue| == r.capacity)
            && ((forall x <- r.rows :: IsWaiting(r.rows[x].state) ==> x in r.queue) <==> |Pushed(t)| <= r.capacity)
  {
    hide Inv, OpEnabled, Crashed;
    var s, e := run[i], events[i];
    var u := Reopen(Crashed(s, e.during), e.kept, e.edgeOrder);
    RestartRows(s, e);
    RecoverFills(u, e.order, e.now);
    RecoverAllRows(u, e.order, e.now);
    assert PushedOf(u.rows, e.order) == Pushed(u.rows);
    FilledIff(run[i + 1], Pushed(u.rows));
    WaitingIsPushed(Survivors(s, e), run[i + 1], e.now);
  }

  lemma WaitingIsPushed(t: Rows, r: State, now: int)
    requires r.rows.Keys == t.Keys && forall x <- t :: r.rows[x] == RecoveredRow(t[x], now)
    requires r.queue + r.dropped == Pushed(t) && r.queue !! r.dropped
    ensures (forall x <- r.rows :: IsWaiting(r.rows[x].state) ==> x in r.queue) <==> r.dropped == {}
  {
    forall x <- r.rows ensures IsWaiting(r.rows[x].state) <==> x in Pushed(t) {}
    if r.dropped != {} {
      var x :| x in r.dropped;
      assert x in Pushed(t) && x !in r.queue;
    }
  }

  /** A job is lost to a full queue only in a process that recovered more open jobs than the capacity. */
  lemma NothingDroppedWhileFitting(run: seq<State>, events: seq<Event>, i: nat, x: JobId)
    requires IsRun(run, events) && i < |run| && !run[i].oversized && x in run[i].rows && IsWaiting(run[i].rows[x].state)
    ensures x in run[i].queue || x in run[i].inHand
  {
    hide Logged, Books;
    RunKeepsInv(run, events, i);
    assert PlacedAt(run[i], x);
  }

  // ---- a lost job stays lost ----

  lemma {:induction false} UnblockAllDrops(s: State, ready: seq<JobId>, now: int)
    ensures s.dropped <= UnblockAll(s, ready, now).dropped
  {
    if ready != [] { UnblockAllDrops(s, ready[..|ready| - 1], now); }
  }

  lemma {:induction false} EnqueueAllDrops(s: State, ids: seq<JobId>)
    ensures s.dropped <= EnqueueAll(s, ids).dropped
  {
    if ids != [] { EnqueueAllDrops(s, ids[..|ids| - 1]); }
  }

  lemma {:induction false} SkipAllDrops(s: State, order: seq<JobId>)
    ensures SkipAll(s, order).dropped == s.dropped
  {
    if order != [] { SkipAllDrops(s, order[..|order| - 1]); }
  }

  lemma RetireDrops(s: State, id: JobId, row: Row, now: int, order: seq<JobId>)
    requires id in s.rows
    ensures s.dropped <= Retire(s, id, row, now, order).dropped
  {
    hide UnblockAll, SkipAll, MeetDeps, CountNodes;
    var u := Persist(s, id, row);
    if row.workflow.Some? {
      if row.state.Succeeded? {
        var (pd, ready) := MeetDeps(u.pendingDeps, Kids(u, id));
        UnblockAllDrops(u.(pendingDeps := pd), ready, now);
      } else {
        SkipAllDrops(u, order);
      }
    }
  }

  lemma RetiringDrops(s: State, e: Event)
    requires OpEnabled(s, e) && (e.EBegin? || e.ECancel? || e.EExpire?)
    ensures s.dropped <= Perform(s, e).dropped
  {
    hide Retire, OpenDescendants, Lists;
    var id := e.id;
    if id in s.rows {
      var row := s.rows[id];
      match e
      case EBegin(_, _, _, _, now, order) =>
        RetireDrops(s.(inHand := s.inHand - multiset{id}), id, row.(state := Cancelled), now, order);
      case ECancel(_, now, order) =>
        RetireDrops(s.(queue := s.queue - {id}), id, row.(cancelRequested := true, state := Cancelled), now, order);
      case EExpire(_, now, order) =>
        RetireDrops(s.(running := s.running - {id}), id, row.(leaseToken := 0, state := Failed), now, order);
    }
  }

  lemma FinishDrops(s: State, id: JobId, token: nat, fromStore: bool, override: Option<CancelReason>, ok: bool,
                    delay: nat, now: int, order: seq<JobId>)
    ensures s.dropped <= Finish(s, id, token, fromStore, override, ok, delay, now, order).dropped
  {
    hide Retire;
    if id in s.running && s.running[id].token == token && id in s.rows {
      var row := s.rows[id];
      var next := OutcomeState(row, if override.Some? then override.value else s.running[id].reason, ok);
      var copy := row.(leaseToken := 0, cancelRequested := fromStore && row.cancelRequested);
      RetireDrops(s.(running := s.running - {id}), id, copy.(state := next), now, order);
    }
  }

  lemma OpDrops(s: State, e: Event)
    requires OpEnabled(s, e)
    ensures s.dropped <= Perform(s, e).dropped
  {
    hide Finish, EnqueueAll, NodeRows, Roots, AddChildren, Retire, OpenDescendants, Lists;
    match e
    case EFinish(id, token, ok, backoff, now, order) => FinishDrops(s, id, token, false, None, ok, backoff, now, order);
    case EComplete(worker, id, attempt, token, report, ok, backoff, now, order) =>
      FinishDrops(s, id, token, true, if report.NoReason? then None else Some(report), ok, backoff, now, order);
    case EBegin(_, _, _, _, _, _) => RetiringDrops(s, e);
    case ECancel(_, _, _) => RetiringDrops(s, e);
    case EExpire(_, _, _) => RetiringDrops(s, e);
    case EWorkflow(w, ids, specs, edges, now) =>
      var nodes := NodeRows(w, ids, specs, Elems(edges), now);
      EnqueueAllDrops(Grown(s, w, ids, nodes, edges), Roots(nodes, ids));
    case _ =>
  }

  /** A waiting job whose push was answered with Full is in no container, and never starts before the next restart. */
  lemma {:induction false} DroppedNeverStarts(run: seq<State>, events: seq<Event>, i: nat, j: nat, x: JobId)
    requires IsRun(run, events) && i <= j < |run| && NoRestart(events, i, j) && x in run[i].dropped
    ensures x in run[j].dropped && x !in run[j].queue && x !in run[j].inHand && x !in run[j].running
    decreases j
  {
    hide Inv, Enabled, Perform, OpEnabled;
    if i < j {
      DroppedNeverStarts(run, events, i, j - 1, x);
      assert !events[j - 1].ERestart?;
      PlainOp(run[j - 1], events[j - 1]);
      OpDrops(run[j - 1], events[j - 1]);
    }
    RunKeepsInv(run, events, j);
    DroppedPlace(run[j], x);
  }

  lemma PlainOp(s: State, e: Event)
    requires Enabled(s, e) && !e.ERestart?
    ensures OpEnabled(s, e) && Apply(s, e) == Perform(s, e)
  {
  }

  lemma DroppedPlace(s: State, x: JobId)
    requires Inv(s) && x in s.dropped
    ensures x !in s.queue && x !in s.inHand && x !in s.running
  {
    hide Logged, Room, Books;
    assert PlacedAt(s, x);
  }
}
