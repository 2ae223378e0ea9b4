/** Restarting after a crash at any point of the write log re-establishes the invariant. */
module EngineRecovery {
  import opened Jobs
  import opened Graphs
  import opened EngineModel
  import opened EngineInvariant
  import opened EngineRetire
  import opened EngineSteps
  import opened EngineAdmission

  // ---- recovering one job ----

  function RecoveredRow(row: Row, now: int): Row {
    if row.state.Running? then row.(state := Queued, leaseToken := 0, readyAt := now) else row
  }

  lemma WriteOutside(s: State, id: JobId, row: Row, todo: set<JobId>)
    requires PlacedOutside(s, todo) && id in todo
    ensures PlacedOutside(Persist(s, id, row), todo)
  {
    var r := Persist(s, id, row);
    forall x ensures if x in todo then Unplaced(r, x) else PlacedAt(r, x) {
      assert if x in todo then Unplaced(s, x) else PlacedAt(s, x);
    }
  }

  lemma SlotOutside(s: State, n: int, todo: set<JobId>)
    requires PlacedOutside(s, todo)
    ensures PlacedOutside(s.(outstanding := n), todo)
  {
    var r := s.(outstanding := n);
    forall x ensures if x in todo then Unplaced(r, x) else PlacedAt(r, x) {
      assert if x in todo then Unplaced(s, x) else PlacedAt(s, x);
    }
  }

  lemma PendingOutside(s: State, id: JobId, todo: set<JobId>)
    requires PlacedOutside(s, todo) && id in todo && s.rows[id].state.Pending?
    ensures PlacedOutside(s, todo - {id})
  {
    forall x ensures if x in todo - {id} then Unplaced(s, x) else PlacedAt(s, x) {
      assert if x in todo then Unplaced(s, x) else PlacedAt(s, x);
    }
  }

  /** What holds while the recovered jobs are put back one by one. */
  ghost predicate Recovering(s: State, todo: set<JobId>) {
    && Logged(s) && Room(s) && PlacedOutside(s, todo)
    && forall x <- todo ::
         x in s.rows && !IsTerminal(s.rows[x].state) && s.rows[x].attempt < s.rows[x].maxAttempts + s.crashes
  }

  lemma RecoverRows(s: State, id: JobId, now: int)
    requires id in s.rows
    ensures var r := Recover(s, id, now);
            && r == s.(rows := r.rows, updates := r.updates, queue := r.queue, dropped := r.dropped,
                       outstanding := s.outstanding + 1)
            && r.rows == s.rows[id := RecoveredRow(s.rows[id], now)]
  {
    hide Enqueue;
    var s1 := s.(outstanding := s.outstanding + 1);
    var row := RecoveredRow(s.rows[id], now);
    if s.rows[id].state.Running? {
      EnqueueFields(Persist(s1, id, row), id);
    } else {
      assert s.rows[id := row] == s.rows;
      EnqueueFields(s1, id);
    }
  }

  lemma RecoverRunning(s: State, id: JobId, now: int, todo: set<JobId>)
    requires Recovering(s, todo) && id in todo && s.rows[id].state.Running?
    ensures var r := Recover(s, id, now); Logged(r) && Room(r) && PlacedOutside(r, todo - {id})
  {
    hide Logged, Room, PlacedOutside;
    var s1 := s.(outstanding := s.outstanding + 1);
    var row := RecoveredRow(s.rows[id], now);
    LogOf(s, s1);
    SlotOutside(s, s.outstanding + 1, todo);
    RoomOf(s, s1);
    LoggedRow(s, id);
    WriteLogged(s1, id, row);
    WriteOutside(s1, id, row, todo);
    WriteRoom(s1, id, row);
    EnqueueOne(Persist(s1, id, row), id, todo);
    EnqueueLogged(Persist(s1, id, row), id);
  }

  lemma RoomOf(s: State, r: State)
    requires Room(s) && r.rows == s.rows && r.capacity == s.capacity && r.oversized == s.oversized &&
             r.dropped == s.dropped
    ensures Room(r)
  {
  }

  lemma WriteRoom(s: State, id: JobId, row: Row)
    requires Room(s) && id in s.rows && !IsTerminal(s.rows[id].state) && !IsTerminal(row.state)
    ensures Room(Persist(s, id, row))
  {
    WriteOpen(s.rows, id, row);
  }

  lemma RecoverQuiet(s: State, id: JobId, now: int, todo: set<JobId>)
    requires Recovering(s, todo) && id in todo && !s.rows[id].state.Running?
    ensures var r := Recover(s, id, now); Logged(r) && Room(r) && PlacedOutside(r, todo - {id})
  {
    hide Logged, Room, PlacedOutside;
    var s1 := s.(outstanding := s.outstanding + 1);
    LogOf(s, s1);
    SlotOutside(s, s.outstanding + 1, todo);
    RoomOf(s, s1);
    if s.rows[id].state.Pending? {
      PendingOutside(s1, id, todo);
    } else {
      EnqueueOne(s1, id, todo);
      EnqueueLogged(s1, id);
    }
  }

  lemma RecoverOne(s: State, id: JobId, now: int, todo: set<JobId>)
    requires Recovering(s, todo) && id in todo
    ensures Recovering(Recover(s, id, now), todo - {id})
  {
    hide Logged, Room, PlacedOutside, Recover;
    RecoverRows(s, id, now);
    if s.rows[id].state.Running? { RecoverRunning(s, id, now, todo); } else { RecoverQuiet(s, id, now, todo); }
  }

  lemma {:induction false} RecoverAllRows(s: State, order: seq<JobId>, now: int)
    requires Distinct(order) && forall x <- order :: x in s.rows
    ensures var r := RecoverAll(s, order, now);
            && r == s.(rows := r.rows, updates := r.updates, queue := r.queue, dropped := r.dropped,
                       outstanding := s.outstanding + |order|)
            && r.rows.Keys == s.rows.Keys
            && (forall x <- s.rows :: r.rows[x] == if x in order then RecoveredRow(s.rows[x], now) else s.rows[x])
  {
    hide Recover;
    if order != [] {
      var k := |order| - 1;
      assert forall x <- order[..k] :: x in order;
      RecoverAllRows(s, order[..k], now);
      assert order == order[..k] + [order[k]];
      assert order[k] in order && order[k] !in order[..k];
      RecoverRows(RecoverAll(s, order[..k], now), order[k], now);
    }
  }

  lemma {:induction false} RecoverAllKeeps(s: State, order: seq<JobId>, now: int, todo: set<JobId>)
    requires Recovering(s, todo) && Distinct(order) && forall x <- order :: x in todo
    ensures Recovering(RecoverAll(s, order, now), todo - Elems(order))
  {
    hide Recovering, Recover;
    if order == [] {
      assert todo - Elems(order) == todo;
    } else {
      var k := |order| - 1;
      assert forall x <- order[..k] :: x in order;
      RecoverAllKeeps(s, order[..k], now, todo);
      assert order == order[..k] + [order[k]];
      assert order[k] in order && order[k] !in order[..k];
      RecoverOne(RecoverAll(s, order[..k], now), order[k], now, todo - Elems(order[..k]));
      assert todo - Elems(order[..k]) - {order[k]} == todo - Elems(order);
    }
  }

  // ---- the reopened engine ----

  /** What recovery needs of the state a process died in. */
  ghost predicate Restartable(s: State) {
    && Logged(s) && Ranked(s.deps)
    && forall x <- s.rows :: s.rows[x].workflow.Some? ==> s.rows[x].workflow.value in s.wf.labels
  }

  lemma TableLater(rows: Rows, deps: set<Edge>, crashes: nat)
    requires TableSafe(rows, deps, crashes)
    ensures TableSafe(rows, deps, crashes + 1)
  {
    forall x <- rows ensures RowOk(deps, x, rows[x], crashes + 1) { assert RowOk(deps, x, rows[x], crashes); }
  }

  lemma ReopenLogged(s: State, kept: nat, edgeOrder: seq<Edge>)
    requires Logged(s) && kept <= |s.updates|
    ensures Logged(Reopen(s, kept, edgeOrder))
    ensures TableSafe(Reopen(s, kept, edgeOrder).rows, s.deps, s.crashes)
  {
    hide TableSafe;
    TableLater(Replay(s.base, s.updates[..kept]), s.deps, s.crashes);
  }

  lemma ReopenPlaces(s: State, kept: nat, edgeOrder: seq<Edge>)
    requires kept <= |s.updates|
    ensures PlacedOutside(Reopen(s, kept, edgeOrder), Live(Reopen(s, kept, edgeOrder).rows))
  {
    var r := Reopen(s, kept, edgeOrder);
    forall x ensures if x in Live(r.rows) then Unplaced(r, x) else PlacedAt(r, x) {}
  }

  lemma ReopenRecovering(s: State, kept: nat, edgeOrder: seq<Edge>)
    requires Logged(s) && kept <= |s.updates|
    ensures Recovering(Reopen(s, kept, edgeOrder), Live(Reopen(s, kept, edgeOrder).rows))
  {
    var r := Reopen(s, kept, edgeOrder);
    ReopenLogged(s, kept, edgeOrder);
    ReopenPlaces(s, kept, edgeOrder);
    assert Room(r);
    forall x <- Live(r.rows) ensures r.rows[x].attempt < r.rows[x].maxAttempts + r.crashes {
      assert RowOk(s.deps, x, r.rows[x], s.crashes);
    }
  }

  lemma ReopenCounts(rows: Rows, deps: set<Edge>, crashes: nat)
    requires TableSafe(rows, deps, crashes)
    ensures CountsOk(rows, deps, LiveCounts(rows), false, {})
  {
    forall x <- rows | rows[x].state.Pending?
      ensures rows[x].pendingDeps >= |Unmet(rows, deps, x)| && rows[x].pendingDeps != 0
    {
      assert RowOk(deps, x, rows[x], crashes);
      assert Unmet(rows, deps, x) <= Into(deps, x);
      SubsetSize(Unmet(rows, deps, x), Into(deps, x));
    }
  }

  lemma ReopenWorkflows(rows: Rows, b: WfBooks)
    requires forall x <- rows :: rows[x].workflow.Some? ==> rows[x].workflow.value in b.labels
    ensures WorkflowsOk(rows, RecountNodes(b, rows), false)
  {
    var c := RecountNodes(b, rows);
    forall w <- c.labels ensures CounterOk(rows, c, w) {
      OpenIff(rows, w);
    }
    forall w <- c.remaining ensures w in c.labels {
      OpenIff(rows, w);
      var x :| x in OpenNodes(rows, w);
      assert x in rows;
    }
  }

  lemma OpenIff(rows: Rows, w: WfId)
    ensures w in OpenWorkflows(rows) <==> OpenNodes(rows, w) != {}
  {
    if w in OpenWorkflows(rows) {
      var x :| x in Live(rows) && rows[x].workflow.Some? && rows[x].workflow.value == w;
      assert x in OpenNodes(rows, w);
    }
    if OpenNodes(rows, w) != {} {
      var x :| x in OpenNodes(rows, w);
      assert x in Live(rows) && rows[x].workflow.value == w;
    }
  }

  lemma ReopenLabels(s: State, kept: nat)
    requires Restartable(s) && kept <= |s.updates|
    ensures var rows := Replay(s.base, s.updates[..kept]);
            forall x <- rows :: rows[x].workflow.Some? ==> rows[x].workflow.value in s.wf.labels
  {
    hide TableSafe, OpenWrites, FinalIn;
    var rows := Replay(s.base, s.updates[..kept]);
    forall x <- rows | rows[x].workflow.Some? ensures rows[x].workflow.value in s.wf.labels {
      ReplayKeys(s.base, s.updates[..kept]);
      assert forall u <- s.updates[..kept] :: u in s.updates;
      ReplayWorkflow(s.base, s.updates[..kept], x);
      ReplayWorkflow(s.base, s.updates, x);
      assert x in s.rows;
    }
  }

  lemma ReopenBooks(s: State, kept: nat, edgeOrder: seq<Edge>)
    requires Restartable(s) && kept <= |s.updates| && Lists(edgeOrder, s.deps)
    ensures var r := Reopen(s, kept, edgeOrder); Books(r.(outstanding := |Live(r.rows)|))
  {
    hide Logged, TableSafe, CountsOk, Propagated, WorkflowsOk, ChildrenOk;
    var r := Reopen(s, kept, edgeOrder);
    ReopenLogged(s, kept, edgeOrder);
    ReopenCounts(r.rows, s.deps, s.crashes);
    ReopenLabels(s, kept);
    assert r.rows == Replay(s.base, s.updates[..kept]);
    ReopenWorkflows(r.rows, s.wf);
    NoChildren();
    AddChildrenOk(map[], {}, edgeOrder);
    assert {} + Elems(edgeOrder) == s.deps;
  }

  lemma NoChildren()
    ensures ChildrenOk({}, map[])
  {
  }

  lemma RecoveredCloses(before: Rows, after: Rows, order: seq<JobId>, now: int)
    requires after.Keys == before.Keys
    requires forall x <- before :: after[x] == if x in order then RecoveredRow(before[x], now) else before[x]
    ensures Closes(before, after, {})
    ensures forall x <- before :: after[x].state.Pending? ==> before[x].state.Pending?
  {
  }

  lemma RestartKeeps(s: State, kept: nat, order: seq<JobId>, edgeOrder: seq<Edge>, now: int)
    requires Restartable(s) && kept <= |s.updates|
    requires Lists(order, Live(Replay(s.base, s.updates[..kept]))) && Lists(edgeOrder, s.deps)
    ensures Inv(Restart(s, kept, order, edgeOrder, now))
  {
    hide Logged, Placed, Room, Books, PlacedOutside, RecoverAll;
    var t := Reopen(s, kept, edgeOrder);
    var r := Restart(s, kept, order, edgeOrder, now);
    ReopenRecovering(s, kept, edgeOrder);
    RecoverAllKeeps(t, order, now, Live(t.rows));
    RecoverAllRows(t, order, now);
    PlacedOutsideNone(r, Live(t.rows) - Elems(order));
    ListsSize(order, Live(t.rows));
    ReopenBooks(s, kept, edgeOrder);
    RecoveredCloses(t.rows, r.rows, order, now);
    BooksOpen(t.(outstanding := |Live(t.rows)|), r);
  }

  /** Labels that are not yet written do not matter to recovery. */
  lemma CrashedRestartable(s: State, during: Option<Event>)
    requires Inv(s) && (during.Some? ==> OpEnabled(s, during.value) && Inv(Perform(s, during.value)))
    ensures Restartable(Crashed(s, during))
  {
    hide Perform, OpEnabled, Placed, Room, CountsOk, Propagated;
    if during.Some? {
      LogOf(Perform(s, during.value), Crashed(s, during));
    }
  }

  /** The table after recovery: interrupted jobs wait again, all else is as the crash left it. */
  lemma RestartRows(s: State, e: Event)
    requires Enabled(s, e) && e.ERestart?
    ensures var t, r := Survivors(s, e), Apply(s, e);
            && r.rows.Keys == t.Keys && r.running == map[] && r.inHand == multiset{}
            && forall x <- t :: r.rows[x] == RecoveredRow(t[x], e.now)
  {
    hide RecoverAll, Replay, Crashed, OpEnabled;
    RecoverAllRows(Reopen(Crashed(s, e.during), e.kept, e.edgeOrder), e.order, e.now);
  }
}
