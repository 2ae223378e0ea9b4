/** Every operation on a running engine keeps the invariant. */
module EngineSteps {
  import opened Jobs
  import opened EngineModel
  import opened EngineInvariant
  import opened EngineRetire
  import opened EngineBooks

  // ---- writes that leave the job open ----

  /** An open row is replaced by another open row that is not Pending. */
  ghost predicate StaysOpen(rows: Rows, id: JobId, row: Row) {
    && id in rows && !IsTerminal(rows[id].state) && !IsTerminal(row.state) && !row.state.Pending?
    && row.workflow == rows[id].workflow
  }

  lemma OpenCloses(rows: Rows, id: JobId, row: Row)
    requires StaysOpen(rows, id, row)
    ensures Closes(rows, rows[id := row], {})
  {
  }

  lemma WorkflowsOpen(before: Rows, after: Rows, b: WfBooks, exact: bool)
    requires WorkflowsOk(before, b, exact) && Closes(before, after, {})
    ensures WorkflowsOk(after, b, exact)
  {
    forall x <- after | after[x].workflow.Some? ensures after[x].workflow.value in b.labels { assert x in before; }
    forall v <- b.labels ensures CounterOk(after, b, v) && (exact ==> LabelOk(after, b, v)) {
      ClosesOther(before, after, {}, v);
      assert CounterOk(before, b, v);
    }
  }

  lemma PropagatedOpen(before: Rows, after: Rows, deps: set<Edge>)
    requires Propagated(before, deps) && Closes(before, after, {})
    ensures Propagated(after, deps)
  {
  }

  /** Slots, counts and completion do not notice such a write. */
  lemma BooksOpen(s: State, r: State)
    requires Books(s) && Closes(s.rows, r.rows, {})
    requires forall x <- s.rows :: r.rows[x].state.Pending? ==> s.rows[x].state.Pending?
    requires r.deps == s.deps && r.wf == s.wf && r.outstanding == s.outstanding && r.children == s.children
    requires r.pendingDeps == s.pendingDeps && r.crashes == s.crashes
    ensures Books(r)
  {
    ClosesLive(s.rows, r.rows, {});
    CountsUntouched(s.rows, r.rows, s.deps, s.pendingDeps, s.crashes == 0);
    if s.crashes == 0 { PropagatedOpen(s.rows, r.rows, s.deps); }
    WorkflowsOpen(s.rows, r.rows, s.wf, s.crashes == 0);
  }

  lemma WriteOpenBooks(s: State, id: JobId, row: Row)
    requires Books(s) && StaysOpen(s.rows, id, row)
    ensures Books(Persist(s, id, row))
  {
    hide Books;
    OpenCloses(s.rows, id, row);
    BooksOpen(s, Persist(s, id, row));
  }

  lemma SameBooks(s: State, r: State)
    requires Books(s)
    requires r == s.(queue := r.queue, inHand := r.inHand, running := r.running, dropped := r.dropped)
    ensures Books(r)
  {
  }

  lemma SameLog(s: State, r: State)
    requires Logged(s)
    requires r == s.(queue := r.queue, inHand := r.inHand, running := r.running, dropped := r.dropped)
    ensures Logged(r)
  {
  }

  lemma SameRoom(s: State, r: State)
    requires Room(s)
    requires r == s.(queue := r.queue, inHand := r.inHand, running := r.running)
    ensures Room(r)
  {
  }

  lemma SameDescendants(s: State, r: State, id: JobId)
    requires r.rows == s.rows && r.deps == s.deps
    ensures OpenDescendants(r, id) == OpenDescendants(s, id)
  {
  }

  /** An open job that was in no container gets a waiting row and is pushed. */
  lemma RequeueKeeps(s: State, id: JobId, row: Row)
    requires Logged(s) && Room(s) && Books(s) && PlacedBut(s, id) && id !in s.inHand && id !in s.dropped
    requires StaysOpen(s.rows, id, row) && IsWaiting(row.state)
    requires RowOk(s.deps, id, row, s.crashes) && Started(s.rows[id].state)
    ensures Inv(Enqueue(Persist(s, id, row), id))
  {
    var t := Persist(s, id, row);
    var r := Enqueue(t, id);
    WriteLogged(s, id, row);
    EnqueueLogged(t, id);
    WriteOpenBooks(s, id, row);
    SameBooks(t, r);
    RequeuePlaces(s, id, row);
  }

  lemma RequeuePlaces(s: State, id: JobId, row: Row)
    requires Room(s) && PlacedBut(s, id) && id !in s.inHand && id !in s.dropped
    requires StaysOpen(s.rows, id, row) && IsWaiting(row.state)
    ensures Placed(Enqueue(Persist(s, id, row), id)) && Room(Enqueue(Persist(s, id, row), id))
  {
    WriteOthers(s, id, row);
    WriteOpen(s.rows, id, row);
    EnqueueKeeps(Persist(s, id, row), id);
  }

  // ---- Pop ----

  lemma PopPlaces(s: State, id: JobId)
    requires Placed(s) && id in s.queue
    ensures Placed(Pop(s, id))
  {
    var r := Pop(s, id);
    forall x ensures PlacedAt(r, x) { assert PlacedAt(s, x); }
  }

  lemma PopKeeps(s: State, id: JobId)
    requires Inv(s) && id in s.queue
    ensures Inv(Pop(s, id))
  {
    PopPlaces(s, id);
    SameLog(s, Pop(s, id));
    SameBooks(s, Pop(s, id));
    SameRoom(s, Pop(s, id));
  }

  // ---- Begin ----

  lemma TakeInHand(s: State, id: JobId)
    requires Placed(s) && id in s.inHand
    ensures id in s.rows
    ensures IsTerminal(s.rows[id].state) ==> Placed(s.(inHand := s.inHand - multiset{id}))
    ensures IsWaiting(s.rows[id].state) ==> PlacedBut(s.(inHand := s.inHand - multiset{id}), id)
    ensures id !in s.inHand - multiset{id} && id !in s.dropped
    ensures IsTerminal(s.rows[id].state) || IsWaiting(s.rows[id].state)
  {
    var r := s.(inHand := s.inHand - multiset{id});
    assert PlacedAt(s, id);
    forall x ensures x != id ==> PlacedAt(r, x) { assert PlacedAt(s, x); }
  }

  function StartedRow(row: Row, token: nat): Row {
    row.(attempt := row.attempt + 1, state := Running, leaseToken := token)
  }

  lemma StartPlaces(s: State, id: JobId, token: nat, info: RunningInfo)
    requires PlacedBut(s, id) && id !in s.inHand && id !in s.dropped && token != 0
    requires info.token == token && info.attempt == s.rows[id].attempt + 1
    ensures Placed(Persist(s, id, StartedRow(s.rows[id], token)).(running := s.running[id := info]))
  {
    var r := Persist(s, id, StartedRow(s.rows[id], token)).(running := s.running[id := info]);
    forall x ensures PlacedAt(r, x) { if x != id { assert PlacedAt(s, x); } }
  }

  lemma StartKeeps(s: State, id: JobId, token: nat, info: RunningInfo)
    requires Logged(s) && Room(s) && Books(s) && PlacedBut(s, id) && id !in s.inHand && id !in s.dropped && token != 0
    requires IsWaiting(s.rows[id].state)
    requires info.token == token && info.attempt == s.rows[id].attempt + 1
    ensures Inv(Persist(s, id, StartedRow(s.rows[id], token)).(running := s.running[id := info]))
  {
    hide Books, Logged;
    var row := StartedRow(s.rows[id], token);
    var t := Persist(s, id, row);
    var r := t.(running := s.running[id := info]);
    LoggedRow(s, id);
    WriteLogged(s, id, row);
    SameLog(t, r);
    WriteOpenBooks(s, id, row);
    SameBooks(t, r);
    WriteOpen(s.rows, id, row);
    StartPlaces(s, id, token, info);
  }

  lemma BeginKeeps(s: State, id: JobId, owner: string, remote: bool, token: nat, now: int, order: seq<JobId>)
    requires Inv(s) && id in s.inHand && token != 0 && Lists(order, OpenDescendants(s, id))
    ensures Inv(Begin(s, id, owner, remote, token, now, order))
  {
    hide Logged, Placed, PlacedBut, Room, Books;
    TakeInHand(s, id);
    var s0 := s.(inHand := s.inHand - multiset{id});
    SameLog(s, s0);
    SameBooks(s, s0);
    SameRoom(s, s0);
    if IsWaiting(s.rows[id].state) {
      if s.rows[id].cancelRequested {
        SameDescendants(s, s0, id);
        RetireTo(s0, id, s.rows[id].(state := Cancelled), now, order);
      } else {
        StartKeeps(s0, id, token, RunningInfo(token, owner, s.rows[id].attempt + 1, NoReason, remote));
      }
    }
  }

  /** Retire with its conditions on the row spelled out. */
  lemma RetireTo(s: State, id: JobId, row: Row, now: int, order: seq<JobId>)
    requires Logged(s) && Room(s) && PlacedBut(s, id) && Books(s) && Lists(order, OpenDescendants(s, id))
    requires id in s.rows && !IsTerminal(s.rows[id].state) && IsTerminal(row.state)
    requires row.workflow == s.rows[id].workflow && row.attempt == s.rows[id].attempt &&
             row.maxAttempts == s.rows[id].maxAttempts
    requires Started(row.state) ==> Started(s.rows[id].state)
    ensures Inv(Retire(s, id, row, now, order))
  {
    hide Logged, Room, PlacedBut, Books;
    LoggedRow(s, id);
    RetireKeeps(s, id, row, now, order);
  }

  // ---- Finish, Complete, Expire, Deadline ----

  lemma TakeRunning(s: State, id: JobId)
    requires Placed(s) && id in s.running
    ensures id in s.rows && s.rows[id].state.Running? && id !in s.inHand && id !in s.dropped
    ensures PlacedBut(s.(running := s.running - {id}), id)
  {
    var r := s.(running := s.running - {id});
    assert PlacedAt(s, id);
    forall x | x != id ensures PlacedAt(r, x) { assert PlacedAt(s, x); }
  }

  lemma FinishKeeps(s: State, id: JobId, token: nat, fromStore: bool, override: Option<CancelReason>, ok: bool,
                    delay: nat, now: int, order: seq<JobId>)
    requires Inv(s) && Lists(order, OpenDescendants(s, id))
    ensures Inv(Finish(s, id, token, fromStore, override, ok, delay, now, order))
  {
    hide Logged, Placed, PlacedBut, Room, Books;
    if id in s.running && s.running[id].token == token {
      TakeRunning(s, id);
      var s0 := s.(running := s.running - {id});
      SameLog(s, s0);
      SameBooks(s, s0);
      SameRoom(s, s0);
      var row := s.rows[id];
      var reason := if override.Some? then override.value else s.running[id].reason;
      var next := OutcomeState(row, reason, ok);
      var copy := row.(leaseToken := 0, cancelRequested := fromStore && row.cancelRequested);
      LoggedRow(s, id);
      if next.Retrying? {
        RequeueKeeps(s0, id, copy.(state := Retrying, readyAt := now + delay));
      } else {
        SameDescendants(s, s0, id);
        RetireTo(s0, id, copy.(state := next), now, order);
      }
    }
  }

  lemma CompleteKeeps(s: State, worker: string, id: JobId, attempt: nat, token: nat, report: CancelReason, ok: bool,
                      delay: nat, now: int, order: seq<JobId>)
    requires Inv(s) && Lists(order, OpenDescendants(s, id))
    ensures Inv(Complete(s, worker, id, attempt, token, report, ok, delay, now, order).0)
  {
    hide Inv;
    FinishKeeps(s, id, token, true, if report.NoReason? then None else Some(report), ok, delay, now, order);
  }

  lemma ExpireKeeps(s: State, id: JobId, now: int, order: seq<JobId>)
    requires Inv(s) && Lists(order, OpenDescendants(s, id))
    ensures Inv(Expire(s, id, now, order))
  {
    hide Logged, Placed, PlacedBut, Room, Books;
    if id in s.running {
      TakeRunning(s, id);
      var s0 := s.(running := s.running - {id});
      SameLog(s, s0);
      SameBooks(s, s0);
      SameRoom(s, s0);
      var row := s.rows[id].(leaseToken := 0);
      LoggedRow(s, id);
      if row.attempt >= row.maxAttempts {
        SameDescendants(s, s0, id);
        RetireTo(s0, id, row.(state := Failed), now, order);
      } else {
        RequeueKeeps(s0, id, row.(state := Queued, readyAt := now));
      }
    }
  }

  lemma ReasonPlaces(s: State, id: JobId, reason: CancelReason)
    requires Placed(s) && id in s.running
    ensures Placed(s.(running := s.running[id := s.running[id].(reason := reason)]))
  {
    var r := s.(running := s.running[id := s.running[id].(reason := reason)]);
    forall x ensures PlacedAt(r, x) { assert PlacedAt(s, x); }
  }

  lemma ReasonKeeps(s: State, id: JobId, reason: CancelReason)
    requires Inv(s) && id in s.running
    ensures Inv(s.(running := s.running[id := s.running[id].(reason := reason)]))
  {
    hide Logged, Placed, Room, Books;
    var r := s.(running := s.running[id := s.running[id].(reason := reason)]);
    ReasonPlaces(s, id, reason);
    SameLog(s, r);
    SameBooks(s, r);
    SameRoom(s, r);
  }

  lemma DeadlineKeeps(s: State, id: JobId)
    requires Inv(s)
    ensures Inv(DeadlinePassed(s, id))
  {
    hide Inv;
    if id in s.running && s.running[id].reason.NoReason? { ReasonKeeps(s, id, TimeoutReason); }
  }

  // ---- Cancel ----

  lemma FlagPlaces(s: State, id: JobId)
    requires Placed(s) && id in s.rows && s.rows[id].state.Running?
    ensures Placed(Persist(s, id, s.rows[id].(cancelRequested := true)))
  {
    var r := Persist(s, id, s.rows[id].(cancelRequested := true));
    forall x ensures PlacedAt(r, x) { assert PlacedAt(s, x); }
  }

  lemma FlagKeeps(s: State, id: JobId)
    requires Inv(s) && id in s.rows && s.rows[id].state.Running?
    ensures Inv(Persist(s, id, s.rows[id].(cancelRequested := true)))
  {
    hide Logged, Placed, Books;
    var row := s.rows[id].(cancelRequested := true);
    FlagPlaces(s, id);
    LoggedRow(s, id);
    WriteLogged(s, id, row);
    WriteOpen(s.rows, id, row);
    WriteOpenBooks(s, id, row);
  }

  lemma Dequeue(s: State, id: JobId)
    requires Placed(s) && id in s.rows && !IsTerminal(s.rows[id].state) && !s.rows[id].state.Running?
    ensures PlacedBut(s.(queue := s.queue - {id}), id)
  {
    var r := s.(queue := s.queue - {id});
    assert PlacedAt(s, id);
    forall x | x != id ensures PlacedAt(r, x) { assert PlacedAt(s, x); }
  }

  lemma CancelKeeps(s: State, id: JobId, now: int, order: seq<JobId>)
    requires Inv(s) && Lists(order, OpenDescendants(s, id))
    ensures Inv(Cancel(s, id, now, order).0)
  {
    hide Logged, Placed, PlacedBut, Room, Books;
    if id in s.rows && !IsTerminal(s.rows[id].state) {
      var row := s.rows[id].(cancelRequested := true);
      if row.state.Running? {
        FlagKeeps(s, id);
        if id in s.running { ReasonKeeps(Persist(s, id, row), id, UserReason); }
      } else {
        var s0 := s.(queue := s.queue - {id});
        Dequeue(s, id);
        SameLog(s, s0);
        SameBooks(s, s0);
        SameRoom(s, s0);
        SameDescendants(s, s0, id);
        RetireTo(s0, id, row.(state := Cancelled), now, order);
      }
    }
  }

  lemma MarkWorkflows(rows: Rows, b: WfBooks, exact: bool, w: WfId)
    requires WorkflowsOk(rows, b, exact) && w in b.labels && b.labels[w].WfRunning?
    ensures WorkflowsOk(rows, b.(labels := b.labels[w := WfCancelled]), exact)
  {
    var c := b.(labels := b.labels[w := WfCancelled]);
    forall v <- c.labels ensures CounterOk(rows, c, v) && (exact ==> LabelOk(rows, c, v)) {
      assert v in b.labels && CounterOk(rows, b, v);
    }
  }

  lemma MarkCancelledKeeps(s: State, w: WfId)
    requires Inv(s)
    ensures Inv(MarkCancelled(s, w))
  {
    hide Logged, Placed, Room, WorkflowsOk, CountsOk, Propagated, Live;
    if w in s.wf.labels && s.wf.labels[w].WfRunning? {
      MidKept(s, MarkCancelled(s, w));
      MarkWorkflows(s.rows, s.wf, s.crashes == 0, w);
    }
  }
}
