/** Retiring a job keeps the whole invariant: counts, propagation and workflow completion. */
module EngineBooks {
  import opened Jobs
  import opened Graphs
  import opened EngineModel
  import opened EngineInvariant
  import opened EngineRetire

  // ---- workflow counters ----

  /** Open nodes of `w` get closed: all with success, or (`failed`) all without. */
  ghost predicate ClosesIn(before: Rows, after: Rows, w: WfId, closed: set<JobId>, failed: bool) {
    && Closes(before, after, closed) && closed != {}
    && (forall x <- closed :: before[x].workflow == Some(w))
    && (forall x <- closed :: after[x].state.Succeeded? == !failed)
  }

  lemma CountOwn(before: Rows, after: Rows, b: WfBooks, w: WfId, closed: set<JobId>, failed: bool)
    requires ClosesIn(before, after, w, closed, failed) && CounterOk(before, b, w)
    ensures w in b.remaining && b.remaining[w] - |closed| == |OpenNodes(after, w)|
    ensures GetOr0(b.failures, w) + (if failed then |closed| else 0) == |FailedNodes(after, w)|
  {
    var x :| x in closed;
    assert x in OpenNodes(before, w);
    ClosesOwn(before, after, closed, w);
  }

  /** Either the counter goes down by the number of closed nodes, or it is dropped at zero. */
  lemma CounterOwn(before: Rows, after: Rows, b: WfBooks, w: WfId, closed: set<JobId>, failed: bool)
    requires ClosesIn(before, after, w, closed, failed) && CounterOk(before, b, w)
    ensures CounterOk(after, CountNodes(b, w, failed, |closed|), w)
  {
    CountOwn(before, after, b, w, closed, failed);
  }

  lemma CounterOther(before: Rows, after: Rows, b: WfBooks, w: WfId, closed: set<JobId>, failed: bool, v: WfId)
    requires ClosesIn(before, after, w, closed, failed) && CounterOk(before, b, v) && v != w
    ensures CounterOk(after, CountNodes(b, w, failed, |closed|), v)
  {
    ClosesOther(before, after, closed, v);
  }

  lemma LabelOwn(before: Rows, after: Rows, b: WfBooks, w: WfId, closed: set<JobId>, failed: bool)
    requires ClosesIn(before, after, w, closed, failed) && CounterOk(before, b, w) && w in b.labels &&
             LabelOk(before, b, w)
    ensures var c := CountNodes(b, w, failed, |closed|); w in c.labels && LabelOk(after, c, w)
  {
    CountOwn(before, after, b, w, closed, failed);
    var x :| x in closed;
    assert x in OpenNodes(before, w);
  }

  lemma LabelOther(before: Rows, after: Rows, b: WfBooks, w: WfId, closed: set<JobId>, failed: bool, v: WfId)
    requires ClosesIn(before, after, w, closed, failed) && v in b.labels && LabelOk(before, b, v) && v != w
    ensures var c := CountNodes(b, w, failed, |closed|); v in c.labels && LabelOk(after, c, v)
  {
    ClosesOther(before, after, closed, v);
  }

  lemma CountNodesKeys(b: WfBooks, w: WfId, failed: bool, n: nat)
    requires w in b.labels
    ensures var c := CountNodes(b, w, failed, n);
            && c.labels.Keys == b.labels.Keys
            && (forall v <- c.remaining :: v in b.remaining)
            && (forall v <- c.finalized :: v == w || v in b.finalized)
  {
  }

  lemma WorkflowsKept(before: Rows, after: Rows, b: WfBooks, exact: bool, w: WfId, closed: set<JobId>, failed: bool)
    requires WorkflowsOk(before, b, exact) && w in b.labels && ClosesIn(before, after, w, closed, failed)
    ensures WorkflowsOk(after, CountNodes(b, w, failed, |closed|), exact)
  {
    var c := CountNodes(b, w, failed, |closed|);
    CountNodesKeys(b, w, failed, |closed|);
    forall x <- after | after[x].workflow.Some? ensures after[x].workflow.value in c.labels {
      assert x in before;
    }
    forall v <- c.labels ensures CounterOk(after, c, v) {
      if v == w {
        CounterOwn(before, after, b, w, closed, failed);
      } else {
        CounterOther(before, after, b, w, closed, failed, v);
      }
    }
    if exact {
      forall v <- c.labels ensures LabelOk(after, c, v) {
        if v == w {
          LabelOwn(before, after, b, w, closed, failed);
        } else {
          LabelOther(before, after, b, w, closed, failed, v);
        }
      }
    }
  }

  /** Closing a job outside any workflow. */
  lemma WorkflowsKeptPlain(before: Rows, after: Rows, b: WfBooks, exact: bool, id: JobId)
    requires WorkflowsOk(before, b, exact) && Closes(before, after, {id}) && before[id].workflow.None?
    ensures WorkflowsOk(after, b, exact)
  {
    forall x <- after | after[x].workflow.Some? ensures after[x].workflow.value in b.labels {
      assert x in before;
    }
    forall v <- b.labels ensures CounterOk(after, b, v) && (exact ==> LabelOk(after, b, v)) {
      ClosesOther(before, after, {id}, v);
      assert CounterOk(before, b, v);
    }
  }

  // ---- dependency counts and propagation ----

  lemma CountsUntouched(before: Rows, after: Rows, deps: set<Edge>, pd: map<JobId, int>, exact: bool)
    requires CountsOk(before, deps, pd, exact, {}) && after.Keys == before.Keys
    requires forall x <- before :: after[x].state.Pending? ==> before[x].state.Pending?
    requires forall e <- deps :: e.0 in before ==> after[e.0].state.Succeeded? == before[e.0].state.Succeeded?
    ensures CountsOk(after, deps, pd, exact, {})
  {
    forall x <- after | after[x].state.Pending?
      ensures x in pd && pd[x] >= |Unmet(after, deps, x)| && (exact ==> pd[x] == |Unmet(after, deps, x)|) && pd[x] != 0
    {
      assert x in before;
      assert Unmet(after, deps, x) == Unmet(before, deps, x);
    }
  }

  /** After the success of `id` the nodes at zero are exactly those reported ready. */
  lemma SuccessCounts(s: State, id: JobId, row: Row)
    requires CountsOk(s.rows, s.deps, s.pendingDeps, s.crashes == 0, {})
    requires ChildrenOk(s.deps, s.children) && Ranked(s.deps)
    requires id in s.rows && !IsTerminal(s.rows[id].state) && row.state.Succeeded?
    ensures var (pd, ready) := MeetDeps(s.pendingDeps, Kids(s, id));
            CountsOk(s.rows[id := row], s.deps, pd, s.crashes == 0, Elems(ready))
  {
    var (pd, ready) := MeetDeps(s.pendingDeps, Kids(s, id));
    MeetDepsEffect(s.pendingDeps, Kids(s, id));
    var rows := s.rows[id := row];
    forall x <- rows | rows[x].state.Pending?
      ensures x in pd && pd[x] >= |Unmet(rows, s.deps, x)| && (s.crashes == 0 ==> pd[x] == |Unmet(rows, s.deps, x)|)
      ensures pd[x] == 0 <==> x in ready
    {
      assert x in s.rows && s.rows[x].state.Pending?;
      SuccessUnmet(s, id, row, x);
    }
  }

  lemma SuccessUnmet(s: State, id: JobId, row: Row, x: JobId)
    requires ChildrenOk(s.deps, s.children)
    requires id in s.rows && !s.rows[id].state.Succeeded? && row.state.Succeeded?
    ensures |Unmet(s.rows[id := row], s.deps, x)| == |Unmet(s.rows, s.deps, x)| - (if x in Kids(s, id) then 1 else 0)
  {
    var rows := s.rows[id := row];
    if x in Kids(s, id) {
      assert (id, x) in s.deps;
      assert Unmet(rows, s.deps, x) == Unmet(s.rows, s.deps, x) - {(id, x)};
      assert (id, x) in Unmet(s.rows, s.deps, x);
    } else {
      assert (id, x) !in s.deps;
      assert Unmet(rows, s.deps, x) == Unmet(s.rows, s.deps, x);
    }
  }

  /** Releasing `todo` leaves no Pending node at zero. */
  lemma ReleasedCounts(before: Rows, after: Rows, deps: set<Edge>, pd: map<JobId, int>, exact: bool, todo: set<JobId>)
    requires CountsOk(before, deps, pd, exact, todo) && after.Keys == before.Keys
    requires forall x <- before :: after[x].state.Pending? ==> before[x].state.Pending? && x !in todo
    requires forall x <- before :: after[x].state.Succeeded? == before[x].state.Succeeded?
    ensures CountsOk(after, deps, pd, exact, {})
  {
    forall x <- after | after[x].state.Pending?
      ensures x in pd && pd[x] >= |Unmet(after, deps, x)| && (exact ==> pd[x] == |Unmet(after, deps, x)|) && pd[x] != 0
    {
      assert x in before;
      UnmetSame(before, after, deps, x);
    }
  }

  /** Nothing new is left open below a job that ended without success. */
  lemma FailurePropagates(s: State, id: JobId, after: Rows)
    requires Propagated(s.rows, s.deps)
    requires Closes(s.rows, after, {id} + OpenDescendants(s, id))
    requires forall x <- OpenDescendants(s, id) :: !after[x].state.Succeeded?
    ensures Propagated(after, s.deps)
  {
    forall e <- s.deps | e.0 in after && e.1 in after && IsTerminal(after[e.0].state) && !after[e.0].state.Succeeded?
      ensures IsTerminal(after[e.1].state)
    {
      if !IsTerminal(s.rows[e.1].state) {
        assert e.0 in {id} + OpenDescendants(s, id);
        if e.0 == id { ReachesByEdge(s.deps, id, e.1); } else { ReachesThenEdge(s.deps, id, e.0, e.1); }
        assert e.1 in OpenDescendants(s, id);
      }
    }
  }

  lemma SuccessPropagates(before: Rows, after: Rows, deps: set<Edge>, id: JobId)
    requires Propagated(before, deps) && Closes(before, after, {id}) && after[id].state.Succeeded?
    ensures Propagated(after, deps)
  {
    forall e <- deps | e.0 in after && e.1 in after && IsTerminal(after[e.0].state) && !after[e.0].state.Succeeded?
      ensures IsTerminal(after[e.1].state)
    {
      assert e.0 != id;
    }
  }

  lemma PlainPropagates(before: Rows, after: Rows, deps: set<Edge>, id: JobId)
    requires Propagated(before, deps) && Closes(before, after, {id})
    requires forall e <- deps :: e.0 != id
    ensures Propagated(after, deps)
  {
    forall e <- deps | e.0 in after && e.1 in after && IsTerminal(after[e.0].state) && !after[e.0].state.Succeeded?
      ensures IsTerminal(after[e.1].state)
    {
      assert e.0 != id;
    }
  }

  // ---- retiring a job ----

  /** What may be written as the terminal row of the open job `id`, which has left queue and running_. */
  ghost predicate Retirable(s: State, id: JobId, row: Row) {
    && Logged(s) && Room(s) && PlacedBut(s, id) && Books(s)
    && !IsTerminal(s.rows[id].state)
    && IsTerminal(row.state) && row.workflow == s.rows[id].workflow
    && RowOk(s.deps, id, row, s.crashes)
    && (Started(row.state) ==> Started(s.rows[id].state))
  }

  lemma ClosesOne(rows: Rows, id: JobId, row: Row)
    requires id in rows && !IsTerminal(rows[id].state) && IsTerminal(row.state) && row.workflow == rows[id].workflow
    ensures Closes(rows, rows[id := row], {id})
  {
  }

  lemma TerminalWrite(s: State, id: JobId, row: Row)
    requires Retirable(s, id, row)
    ensures Mid(Persist(s, id, row))
  {
    WriteLogged(s, id, row);
    TerminalPlaces(s, id, row);
    TerminalRoom(s, id, row);
  }

  /** The workflow books, the slot count and the dependency counts do not matter to Mid. */
  lemma MidKept(s: State, r: State)
    requires Mid(s) && r == s.(wf := r.wf, outstanding := r.outstanding, pendingDeps := r.pendingDeps)
    ensures Mid(r)
  {
    forall x ensures PlacedAt(r, x) { assert PlacedAt(s, x); }
  }

  lemma PlainHasNoEdges(s: State, id: JobId)
    requires Logged(s) && id in s.rows && s.rows[id].workflow.None?
    ensures forall e <- s.deps :: e.0 != id && e.1 != id
  {
    LoggedNow(s);
    forall e <- s.deps ensures e.0 != id && e.1 != id { assert EdgeOk(s.rows, e); }
  }

  lemma RetirePlain(s: State, id: JobId, row: Row, now: int, order: seq<JobId>)
    requires Retirable(s, id, row) && row.workflow.None?
    ensures Inv(Retire(s, id, row, now, order))
    ensures Retire(s, id, row, now, order).rows == s.rows[id := row]
  {
    hide Logged, Placed, Room;
    var t := Persist(s, id, row);
    var r := Retire(s, id, row, now, order);
    TerminalWrite(s, id, row);
    assert r == t.(outstanding := s.outstanding - 1);
    MidKept(t, r);
    PlainHasNoEdges(s, id);
    ClosesOne(s.rows, id, row);
    ClosesLive(s.rows, t.rows, {id});
    CountsUntouched(s.rows, t.rows, s.deps, s.pendingDeps, s.crashes == 0);
    if s.crashes == 0 { PlainPropagates(s.rows, t.rows, s.deps, id); }
    WorkflowsKeptPlain(s.rows, t.rows, s.wf, s.crashes == 0, id);
  }

  /** The rows after a success: `id` ends, and the dependents at zero are released. */
  lemma SuccessRows(s: State, id: JobId, row: Row, now: int)
    requires Retirable(s, id, row) && row.state.Succeeded? && row.workflow.Some?
    ensures var t := Persist(s, id, row);
            var (pd, ready) := MeetDeps(s.pendingDeps, Kids(s, id));
            var r := ReleaseDependents(t, id, now);
            && SameButRows(t.(pendingDeps := pd), r)
            && r.rows.Keys == s.rows.Keys && r.rows[id] == row
            && (forall x <- s.rows :: x != id ==>
                r.rows[x] == if x in ready then UnblockedRow(s.rows[x], now) else s.rows[x])
  {
    hide Logged, Room, Books;
    var t := Persist(s, id, row);
    var (pd, ready) := MeetDeps(s.pendingDeps, Kids(s, id));
    assert Kids(t, id) == Kids(s, id);
    UnblockAllRows(t.(pendingDeps := pd), ready, now);
  }

  lemma SuccessMid(s: State, id: JobId, row: Row, now: int)
    requires Retirable(s, id, row) && row.state.Succeeded? && row.workflow.Some?
    ensures Mid(ReleaseDependents(Persist(s, id, row), id, now))
  {
    hide Logged, Room, WorkflowsOk, Propagated;
    var t := Persist(s, id, row);
    TerminalWrite(s, id, row);
    var (pd, ready) := MeetDeps(s.pendingDeps, Kids(s, id));
    var u := t.(pendingDeps := pd);
    MidKept(t, u);
    SuccessCounts(s, id, row);
    forall c <- ready | c in u.rows && u.rows[c].state.Pending? ensures Unmet(u.rows, u.deps, c) == {} {
      assert pd[c] == 0;
    }
    UnblockAllKeeps(u, ready, now);
    assert Kids(t, id) == Kids(s, id);
  }

  /** The rows of a success, read as a closing of `id` alone. */
  lemma SuccessClosing(before: Rows, after: Rows, id: JobId, row: Row, ready: seq<JobId>, now: int)
    requires id in before && !IsTerminal(before[id].state) && row.state.Succeeded?
    requires row.workflow == before[id].workflow && row.workflow.Some?
    requires after.Keys == before.Keys && after[id] == row
    requires forall x <- before :: x != id ==>
             after[x] == if x in ready then UnblockedRow(before[x], now) else before[x]
    ensures ClosesIn(before, after, row.workflow.value, {id}, false)
  {
  }

  lemma SuccessCloses(s: State, id: JobId, row: Row, now: int)
    requires Retirable(s, id, row) && row.state.Succeeded? && row.workflow.Some?
    ensures var r := ReleaseDependents(Persist(s, id, row), id, now);
            ClosesIn(s.rows, r.rows, row.workflow.value, {id}, false)
  {
    SuccessRows(s, id, row, now);
    var (pd, ready) := MeetDeps(s.pendingDeps, Kids(s, id));
    SuccessClosing(s.rows, ReleaseDependents(Persist(s, id, row), id, now).rows, id, row, ready, now);
  }

  lemma SuccessCountsKept(s: State, id: JobId, row: Row, now: int)
    requires Retirable(s, id, row) && row.state.Succeeded? && row.workflow.Some?
    ensures var r := ReleaseDependents(Persist(s, id, row), id, now);
            CountsOk(r.rows, r.deps, r.pendingDeps, r.crashes == 0, {})
  {
    hide Logged, Placed, Room, WorkflowsOk, Propagated;
    SuccessRows(s, id, row, now);
    SuccessCounts(s, id, row);
    var (pd, ready) := MeetDeps(s.pendingDeps, Kids(s, id));
    var r := ReleaseDependents(Persist(s, id, row), id, now);
    ReleasedCounts(s.rows[id := row], r.rows, s.deps, pd, s.crashes == 0, Elems(ready));
  }

  lemma RetireSuccess(s: State, id: JobId, row: Row, now: int, order: seq<JobId>)
    requires Retirable(s, id, row) && row.state.Succeeded? && row.workflow.Some?
    ensures Inv(Retire(s, id, row, now, order))
    ensures Retire(s, id, row, now, order).rows == ReleaseDependents(Persist(s, id, row), id, now).rows
  {
    var w := row.workflow.value;
    var u := ReleaseDependents(Persist(s, id, row), id, now);
    SuccessRows(s, id, row, now);
    SuccessMid(s, id, row, now);
    SuccessCloses(s, id, row, now);
    SuccessCountsKept(s, id, row, now);
    var r := Retire(s, id, row, now, order);
    assert r == u.(wf := CountNodes(s.wf, w, false, 1), outstanding := s.outstanding - 1);
    MidKept(u, r);
    ClosesLive(s.rows, u.rows, {id});
    assert s.rows[id].workflow.value in s.wf.labels;
    WorkflowsKept(s.rows, u.rows, s.wf, s.crashes == 0, w, {id}, false);
    assert |{id}| == 1;
    if s.crashes == 0 { SuccessPropagates(s.rows, u.rows, s.deps, id); }
  }

  /** The rows after a failure: exactly the open descendants of `id` become Skipped. */
  lemma FailureRows(s: State, id: JobId, row: Row, order: seq<JobId>)
    requires Retirable(s, id, row) && !row.state.Succeeded? && row.workflow.Some?
    requires Lists(order, OpenDescendants(s, id))
    ensures forall x <- OpenDescendants(s, id) ::
              x != id && s.rows[x].state.Pending? && s.rows[x].workflow == row.workflow
    ensures var t := Persist(s, id, row);
            var r := SkipAll(t, order);
            && SameButRows(t, r)
            && r.rows[id] == row
            && (forall x <- s.rows :: x != id ==>
                 r.rows[x] == if x in OpenDescendants(s, id) then s.rows[x].(state := Skipped) else s.rows[x])
  {
    hide Room, CountsOk, Propagated, WorkflowsOk, TableSafe, FinalIn, PlacedAt, OpenWrites;
    LoggedNow(s);
    OpenDescendantsArePending(s, id);
    RankedIsAcyclic(s.deps);
    assert id !in OpenDescendants(s, id);
    SkipAllRows(Persist(s, id, row), order);
    hide SkipAll, Replay, Reaches;
  }

  lemma FailureMid(s: State, id: JobId, row: Row, order: seq<JobId>)
    requires Retirable(s, id, row) && !row.state.Succeeded? && row.workflow.Some?
    requires Lists(order, OpenDescendants(s, id))
    ensures Mid(SkipAll(Persist(s, id, row), order))
  {
    TerminalWrite(s, id, row);
    FailureRows(s, id, row, order);
    SkipAllKeeps(Persist(s, id, row), order);
  }

  /** The rows of a failure, read as a closing of `id` and its open descendants. */
  lemma FailureClosing(before: Rows, after: Rows, id: JobId, row: Row, desc: set<JobId>)
    requires id in before && !IsTerminal(before[id].state) && IsTerminal(row.state) && !row.state.Succeeded?
    requires row.workflow == before[id].workflow && row.workflow.Some?
    requires id !in desc
    requires forall x <- desc :: x in before && before[x].state.Pending? && before[x].workflow == row.workflow
    requires after.Keys == before.Keys && after[id] == row
    requires forall x <- before :: x != id ==> after[x] == if x in desc then before[x].(state := Skipped) else before[x]
    ensures ClosesIn(before, after, row.workflow.value, {id} + desc, true)
    ensures |{id} + desc| == 1 + |desc|
  {
    assert id in {id} + desc;
  }

  lemma FailureCloses(s: State, id: JobId, row: Row, order: seq<JobId>)
    requires Retirable(s, id, row) && !row.state.Succeeded? && row.workflow.Some?
    requires Lists(order, OpenDescendants(s, id))
    ensures var closed := {id} + OpenDescendants(s, id);
            && ClosesIn(s.rows, SkipAll(Persist(s, id, row), order).rows, row.workflow.value, closed, true)
            && |closed| == 1 + |order|
  {
    hide Logged, Placed, Room, Books;
    FailureRows(s, id, row, order);
    FailureClosing(s.rows, SkipAll(Persist(s, id, row), order).rows, id, row, OpenDescendants(s, id));
    ListsSize(order, OpenDescendants(s, id));
  }

  lemma FailureWorkflows(s: State, id: JobId, row: Row, order: seq<JobId>)
    requires Retirable(s, id, row) && !row.state.Succeeded? && row.workflow.Some?
    requires Lists(order, OpenDescendants(s, id))
    ensures var rows := SkipAll(Persist(s, id, row), order).rows;
            && s.outstanding - |order| - 1 == |Live(rows)|
            && WorkflowsOk(rows, CountNodes(s.wf, row.workflow.value, true, 1 + |order|), s.crashes == 0)
  {
    hide Logged, Placed, Room, CountsOk, Propagated;
    var rows := SkipAll(Persist(s, id, row), order).rows;
    var closed := {id} + OpenDescendants(s, id);
    FailureCloses(s, id, row, order);
    ClosesLive(s.rows, rows, closed);
    assert s.rows[id].workflow.value in s.wf.labels;
    WorkflowsKept(s.rows, rows, s.wf, s.crashes == 0, row.workflow.value, closed, true);
  }

  lemma FailureCounts(s: State, id: JobId, row: Row, order: seq<JobId>)
    requires Retirable(s, id, row) && !row.state.Succeeded? && row.workflow.Some?
    requires Lists(order, OpenDescendants(s, id))
    ensures CountsOk(SkipAll(Persist(s, id, row), order).rows, s.deps, s.pendingDeps, s.crashes == 0, {})
  {
    hide Logged, Placed, Room, WorkflowsOk, Propagated;
    FailureRows(s, id, row, order);
    CountsUntouched(s.rows, SkipAll(Persist(s, id, row), order).rows, s.deps, s.pendingDeps, s.crashes == 0);
  }

  lemma FailurePropagated(s: State, id: JobId, row: Row, order: seq<JobId>)
    requires Retirable(s, id, row) && !row.state.Succeeded? && row.workflow.Some?
    requires Lists(order, OpenDescendants(s, id))
    requires s.crashes == 0
    ensures Propagated(SkipAll(Persist(s, id, row), order).rows, s.deps)
  {
    hide Logged, Placed, Room, WorkflowsOk, CountsOk;
    FailureCloses(s, id, row, order);
    FailurePropagates(s, id, SkipAll(Persist(s, id, row), order).rows);
  }

  lemma RetireFailure(s: State, id: JobId, row: Row, now: int, order: seq<JobId>)
    requires Retirable(s, id, row) && !row.state.Succeeded? && row.workflow.Some?
    requires Lists(order, OpenDescendants(s, id))
    ensures Inv(Retire(s, id, row, now, order))
    ensures Retire(s, id, row, now, order).rows == SkipAll(Persist(s, id, row), order).rows
  {
    hide Logged, Placed, Room, WorkflowsOk, CountsOk, Propagated, Live;
    var u := SkipAll(Persist(s, id, row), order);
    SkipAllRows(Persist(s, id, row), order);
    SkipAllFields(s, id, row, order);
    var r := Retire(s, id, row, now, order);
    FailureMid(s, id, row, order);
    MidKept(u, r);
    FailureWorkflows(s, id, row, order);
    FailureCounts(s, id, row, order);
    if s.crashes == 0 { FailurePropagated(s, id, row, order); }
  }

  lemma SkipAllFields(s: State, id: JobId, row: Row, order: seq<JobId>)
    requires id in s.rows && row.workflow.Some? && !row.state.Succeeded? && forall x <- order :: x in s.rows
    ensures forall now ::
              Retire(s, id, row, now, order) ==
              SkipAll(Persist(s, id, row), order).(
                wf := CountNodes(s.wf, row.workflow.value, true, 1 + |order|),
                outstanding := s.outstanding - |order| - 1)
  {
    SkipAllRows(Persist(s, id, row), order);
  }

  lemma RetireKeeps(s: State, id: JobId, row: Row, now: int, order: seq<JobId>)
    requires Retirable(s, id, row) && Lists(order, OpenDescendants(s, id))
    ensures Inv(Retire(s, id, row, now, order))
  {
    if row.workflow.None? {
      RetirePlain(s, id, row, now, order);
    } else if row.state.Succeeded? {
      RetireSuccess(s, id, row, now, order);
    } else {
      RetireFailure(s, id, row, now, order);
    }
  }
}
