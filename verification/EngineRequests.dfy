/** A job is CANCELLED, or marked to be, only because a client or the worker that ran it said so. */
module EngineRequests {
  import opened Jobs
  import opened Graphs
  import opened EngineModel
  import opened EngineRetire
  import opened EngineAdmission
  import opened EngineEffects

  /** The job an operation asks to cancel: a client's cancel, or a remote worker's report that it was cancelled. */
  function AskedNow(e: Event): set<JobId> {
    match e
    case ECancel(id, _, _) => {id}
    case EComplete(_, id, _, _, report, _, _, _, _) => if report.UserReason? then {id} else {}
    case _ => {}
  }

  /** ... including an operation that the process died in. */
  function AskedBy(e: Event): set<JobId> {
    if e.ERestart? && e.during.Some? then AskedNow(e.during.value) else AskedNow(e)
  }

  function Asked(events: seq<Event>, i: nat): set<JobId>
    requires i <= |events|
  {
    if i == 0 then {} else Asked(events, i - 1) + AskedBy(events[i - 1])
  }

  predicate Marked(row: Row) { row.cancelRequested || row.state.Cancelled? }

  /** Whatever is marked, in the table, in its log or on a running attempt, is in `asked`. */
  ghost predicate Honest(s: State, asked: set<JobId>) {
    && (forall x <- s.rows :: Marked(s.rows[x]) ==> x in asked)
    && (forall x <- s.base :: Marked(s.base[x]) ==> x in asked)
    && (forall u <- s.updates :: Marked(u.1) ==> u.0 in asked)
    && (forall x <- s.running :: s.running[x].reason.UserReason? ==> x in asked)
  }

  lemma HonestMore(s: State, a: set<JobId>, b: set<JobId>)
    requires Honest(s, a) && a <= b
    ensures Honest(s, b)
  {
  }

  lemma HonestWrite(s: State, id: JobId, row: Row, asked: set<JobId>)
    requires Honest(s, asked) && (Marked(row) ==> id in asked)
    ensures Honest(Persist(s, id, row), asked)
  {
  }

  lemma SameHonest(s: State, r: State, asked: set<JobId>)
    requires Honest(s, asked) && r.rows == s.rows && r.base == s.base && r.updates == s.updates &&
             r.running == s.running
    ensures Honest(r, asked)
  {
  }

  lemma HonestPush(s: State, id: JobId, asked: set<JobId>)
    requires Honest(s, asked)
    ensures Honest(Enqueue(s, id), asked)
  {
    SameHonest(s, Enqueue(s, id), asked);
  }

  lemma {:induction false} HonestUnblock(s: State, ready: seq<JobId>, now: int, asked: set<JobId>)
    requires Honest(s, asked)
    ensures Honest(UnblockAll(s, ready, now), asked)
  {
    if ready != [] {
      hide Honest, Enqueue;
      var k := |ready| - 1;
      HonestUnblock(s, ready[..k], now, asked);
      var u, c := UnblockAll(s, ready[..k], now), ready[k];
      if c in u.rows && u.rows[c].state.Pending? {
        var row := ReleasedRow(u.rows[c], now);
        assert Marked(row) ==> c in asked by { HonestRow(u, c, asked); }
        HonestWrite(u, c, row, asked);
        HonestPush(Persist(u, c, row), c, asked);
      }
    }
  }

  lemma HonestRow(s: State, x: JobId, asked: set<JobId>)
    requires Honest(s, asked) && x in s.rows
    ensures Marked(s.rows[x]) ==> x in asked
  {
  }

  lemma {:induction false} HonestSkip(s: State, order: seq<JobId>, asked: set<JobId>)
    requires Honest(s, asked)
    ensures Honest(SkipAll(s, order), asked)
  {
    if order != [] {
      hide Honest;
      var k := |order| - 1;
      HonestSkip(s, order[..k], asked);
      var u, x := SkipAll(s, order[..k]), order[k];
      if x in u.rows {
        HonestRow(u, x, asked);
        SameHonest(u, u.(queue := u.queue - {x}), asked);
        HonestWrite(u.(queue := u.queue - {x}), x, u.rows[x].(state := Skipped), asked);
      }
    }
  }

  lemma HonestRetire(s: State, id: JobId, row: Row, now: int, order: seq<JobId>, asked: set<JobId>)
    requires Honest(s, asked) && (Marked(row) ==> id in asked)
    ensures Honest(Retire(s, id, row, now, order), asked)
  {
    hide Honest, UnblockAll, SkipAll, MeetDeps, CountNodes;
    var u := Persist(s, id, row);
    HonestWrite(s, id, row, asked);
    var r := Retire(s, id, row, now, order);
    if row.workflow.None? {
      SameHonest(u, r, asked);
    } else if row.state.Succeeded? {
      var (pd, ready) := MeetDeps(u.pendingDeps, Kids(u, id));
      var v := u.(pendingDeps := pd);
      SameHonest(u, v, asked);
      HonestUnblock(v, ready, now, asked);
      SameHonest(UnblockAll(v, ready, now), r, asked);
    } else {
      HonestSkip(u, order, asked);
      SameHonest(SkipAll(u, order), r, asked);
    }
  }

  // ---- the operations ----

  lemma LessRunning(s: State, r: State, asked: set<JobId>)
    requires Honest(s, asked) && r.rows == s.rows && r.base == s.base && r.updates == s.updates
    requires forall x <- r.running :: x in s.running && r.running[x] == s.running[x]
    ensures Honest(r, asked)
  {
  }

  lemma HonestBegin(s: State, e: Event, asked: set<JobId>)
    requires Honest(s, asked) && OpEnabled(s, e) && e.EBegin?
    ensures Honest(Perform(s, e), asked)
  {
    hide Retire, OpenDescendants, Lists;
    var t := s.(inHand := s.inHand - multiset{e.id});
    if e.id in s.rows && IsWaiting(s.rows[e.id].state) && s.rows[e.id].cancelRequested {
      HonestRetire(t, e.id, s.rows[e.id].(state := Cancelled), e.now, e.order, asked);
    }
  }

  lemma HonestFinish(s: State, id: JobId, token: nat, fromStore: bool, override: Option<CancelReason>, ok: bool,
                     delay: nat, now: int, order: seq<JobId>, asked: set<JobId>)
    requires Honest(s, asked) && (override == Some(UserReason) ==> id in asked)
    ensures Honest(Finish(s, id, token, fromStore, override, ok, delay, now, order), asked)
  {
    hide Honest, Enqueue, Retire;
    if id in s.running && s.running[id].token == token && id in s.rows {
      var reason := if override.Some? then override.value else s.running[id].reason;
      var next := OutcomeState(s.rows[id], reason, ok);
      var t := s.(running := s.running - {id});
      var copy := s.rows[id].(leaseToken := 0, cancelRequested := fromStore && s.rows[id].cancelRequested);
      assert reason.UserReason? ==> id in asked by { HonestReason(s, id, asked); }
      HonestRow(s, id, asked);
      LessRunning(s, t, asked);
      if next.Retrying? {
        HonestWrite(t, id, copy.(state := Retrying, readyAt := now + delay), asked);
        HonestPush(Persist(t, id, copy.(state := Retrying, readyAt := now + delay)), id, asked);
      } else {
        HonestRetire(t, id, copy.(state := next), now, order, asked);
      }
    }
  }

  lemma HonestReason(s: State, x: JobId, asked: set<JobId>)
    requires Honest(s, asked) && x in s.running
    ensures s.running[x].reason.UserReason? ==> x in asked
  {
  }

  lemma HonestCancel(s: State, e: Event, asked: set<JobId>)
    requires Honest(s, asked) && OpEnabled(s, e) && e.ECancel? && e.id in asked
    ensures Honest(Perform(s, e), asked)
  {
    hide Retire, OpenDescendants, Lists;
    if e.id in s.rows && !IsTerminal(s.rows[e.id].state) && !s.rows[e.id].state.Running? {
      var t := s.(queue := s.queue - {e.id});
      HonestRetire(t, e.id, s.rows[e.id].(cancelRequested := true, state := Cancelled), e.now, e.order, asked);
    }
  }

  lemma HonestExpire(s: State, e: Event, asked: set<JobId>)
    requires Honest(s, asked) && OpEnabled(s, e) && e.EExpire?
    ensures Honest(Perform(s, e), asked)
  {
    hide Honest, Enqueue, Retire, OpenDescendants, Lists;
    if e.id in s.running {
      var t := s.(running := s.running - {e.id});
      LessRunning(s, t, asked);
      if e.id in s.rows {
        var row := s.rows[e.id].(leaseToken := 0);
        HonestRow(s, e.id, asked);
        HonestRetire(t, e.id, row.(state := Failed), e.now, e.order, asked);
        HonestWrite(t, e.id, row.(state := Queued, readyAt := e.now), asked);
        HonestPush(Persist(t, e.id, row.(state := Queued, readyAt := e.now)), e.id, asked);
      }
    }
  }

  lemma HonestSubmit(s: State, e: Event, asked: set<JobId>)
    requires Honest(s, asked) && OpEnabled(s, e) && e.ESubmit?
    ensures Honest(Perform(s, e), asked)
  {
    hide Enqueue;
    var row := FreshRow(e.maxAttempts, e.delay, e.now, None, 0);
    HonestPush(InsertRow(s.(outstanding := s.outstanding + 1), e.id, row), e.id, asked);
  }

  lemma HonestWorkflow(s: State, e: Event, asked: set<JobId>)
    requires Honest(s, asked) && OpEnabled(s, e) && e.EWorkflow?
    ensures Honest(Perform(s, e), asked)
  {
    hide NodeRows, Roots, EnqueueAll, AddChildren, FreshRow, Into;
    var es := Elems(e.edges);
    var nodes := NodeRows(e.w, e.ids, e.specs, es, e.now);
    NodeRowsFresh(e.w, e.ids, e.specs, es, e.now);
    forall x <- nodes ensures !Marked(nodes[x]) {
      var k :| 0 <= k < |e.ids| && e.ids[k] == x;
      NodeRowAt(e.w, e.ids, e.specs, es, e.now, k);
      FreshAsAsked(e.specs[k].maxAttempts, e.specs[k].delay, e.now, Some(e.w), |Into(es, x)|);
    }
    var t := Grown(s, e.w, e.ids, nodes, e.edges);
    EnqueueAllFields(t, Roots(nodes, e.ids));
    assert Honest(t, asked);
    SameHonest(t, EnqueueAll(t, Roots(nodes, e.ids)), asked);
  }

  lemma HonestPlain(s: State, e: Event, asked: set<JobId>)
    requires Honest(s, asked) && OpEnabled(s, e) && (e.EPop? || e.EMarkCancelled? || e.EDeadline?)
    ensures Honest(Perform(s, e), asked)
  {
  }

  lemma HonestOp(s: State, e: Event, asked: set<JobId>)
    requires Honest(s, asked) && OpEnabled(s, e)
    ensures Honest(Perform(s, e), asked + AskedNow(e))
  {
    hide Honest, Finish, Lists, OpenDescendants;
    HonestMore(s, asked, asked + AskedNow(e));
    match e
    case EFinish(id, token, ok, backoff, now, order) =>
      HonestFinish(s, id, token, false, None, ok, backoff, now, order, asked + AskedNow(e));
    case EComplete(worker, id, attempt, token, report, ok, backoff, now, order) =>
      HonestFinish(s, id, token, true, if report.NoReason? then None else Some(report), ok, backoff, now, order,
                   asked + AskedNow(e));
    case EBegin(_, _, _, _, _, _) => HonestBegin(s, e, asked + AskedNow(e));
    case ECancel(_, _, _) => HonestCancel(s, e, asked + AskedNow(e));
    case EExpire(_, _, _) => HonestExpire(s, e, asked + AskedNow(e));
    case ESubmit(_, _, _, _, _, _) => HonestSubmit(s, e, asked + AskedNow(e));
    case EWorkflow(_, _, _, _, _) => HonestWorkflow(s, e, asked + AskedNow(e));
    case _ => HonestPlain(s, e, asked + AskedNow(e));
  }

  // ---- the restart ----

  lemma {:induction false} ReplayMarked(base: Rows, updates: seq<(JobId, Row)>, asked: set<JobId>)
    requires forall x <- base :: Marked(base[x]) ==> x in asked
    requires forall u <- updates :: Marked(u.1) ==> u.0 in asked
    ensures var t := Replay(base, updates); forall x <- t :: Marked(t[x]) ==> x in asked
  {
    if updates != [] {
      var n := |updates| - 1;
      assert updates[n] in updates;
      ReplayMarked(base, updates[..n], asked);
    }
  }

  lemma {:induction false} HonestRecover(s: State, order: seq<JobId>, now: int, asked: set<JobId>)
    requires Honest(s, asked)
    ensures Honest(RecoverAll(s, order, now), asked)
  {
    if order != [] {
      hide Honest, Enqueue;
      var k := |order| - 1;
      HonestRecover(s, order[..k], now, asked);
      HonestRecoverOne(RecoverAll(s, order[..k], now), order[k], now, asked);
    }
  }

  lemma HonestRecoverOne(s: State, id: JobId, now: int, asked: set<JobId>)
    requires Honest(s, asked)
    ensures Honest(Recover(s, id, now), asked)
  {
    hide Honest, Enqueue;
    if id in s.rows {
      var t := s.(outstanding := s.outstanding + 1);
      var row := s.rows[id].(state := Queued, leaseToken := 0, readyAt := now);
      SameHonest(s, t, asked);
      HonestRow(s, id, asked);
      HonestWrite(t, id, row, asked);
      HonestPush(Persist(t, id, row), id, asked);
      HonestPush(t, id, asked);
    }
  }

  lemma HonestReopen(u: State, kept: nat, edgeOrder: seq<Edge>, asked: set<JobId>)
    requires Honest(u, asked) && kept <= |u.updates|
    ensures Honest(Reopen(u, kept, edgeOrder), asked)
  {
    hide AddChildren, LiveCounts, RecountNodes, Live;
    assert forall x <- u.updates[..kept] :: x in u.updates;
    ReplayMarked(u.base, u.updates[..kept], asked);
  }

  lemma HonestRestart(s: State, e: Event, asked: set<JobId>)
    requires Honest(s, asked) && Enabled(s, e) && e.ERestart?
    ensures Honest(Apply(s, e), asked + AskedBy(e))
  {
    hide Honest, Perform, OpEnabled, RecoverAll, Lists, Live, Reopen, Replay;
    var all := asked + AskedBy(e);
    var u := Crashed(s, e.during);
    if e.during.Some? {
      HonestOp(s, e.during.value, asked);
      HonestMore(Perform(s, e.during.value), asked + AskedNow(e.during.value), all);
      SameHonest(Perform(s, e.during.value), u, all);
    } else {
      HonestMore(s, asked, all);
    }
    HonestReopen(u, e.kept, e.edgeOrder, all);
    HonestRecover(Reopen(u, e.kept, e.edgeOrder), e.order, e.now, all);
  }

  lemma {:induction false} RunIsHonest(run: seq<State>, events: seq<Event>, i: nat)
    requires IsRun(run, events) && i < |run|
    ensures Honest(run[i], Asked(events, i))
  {
    if i > 0 {
      hide Honest, Enabled, Apply;
      RunIsHonest(run, events, i - 1);
      var s, e := run[i - 1], events[i - 1];
      if e.ERestart? {
        HonestRestart(s, e, Asked(events, i - 1));
      } else {
        HonestStep(s, e, Asked(events, i - 1));
      }
    }
  }

  lemma HonestStep(s: State, e: Event, asked: set<JobId>)
    requires Honest(s, asked) && Enabled(s, e) && !e.ERestart?
    ensures Honest(Apply(s, e), asked + AskedBy(e))
  {
    hide Honest, Perform, OpEnabled;
    HonestOp(s, e, asked);
  }

  /**
   In every state of every run, restarts included, a job that is CANCELLED, or asked to cancel, was cancelled by a
   client, or its own remote worker reported that it was.
   */
  lemma CancelledMeansAsked(run: seq<State>, events: seq<Event>, i: nat, x: JobId) returns (k: nat)
    requires IsRun(run, events) && i < |run| && x in run[i].rows
    requires run[i].rows[x].state.Cancelled? || run[i].rows[x].cancelRequested
    ensures k < i && x in AskedBy(events[k])
  {
    hide Enabled, Apply;
    RunIsHonest(run, events, i);
    k := WhoAsked(events, i, x);
  }

  lemma {:induction false} WhoAsked(events: seq<Event>, i: nat, x: JobId) returns (k: nat)
    requires i <= |events| && x in Asked(events, i)
    ensures k < i && x in AskedBy(events[k])
  {
    if x in AskedBy(events[i - 1]) {
      k := i - 1;
    } else {
      k := WhoAsked(events, i - 1, x);
    }
  }
}
