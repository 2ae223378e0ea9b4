/**
 Dependency counts after a restart. The count of a Pending node is persisted only when it reaches
 zero, so recovery starts again from the number of parents. The slack of a node is by how much its
 count exceeds its unmet dependencies; it never changes while the engine lives.
 */
module EngineStranding {
  import opened Jobs
  import opened Graphs
  import opened EngineModel
  import opened EngineInvariant
  import opened EngineRetire
  import opened EngineBooks
  import opened EngineAdmission
  import opened EngineRecovery
  import opened EngineRuns
  import opened EngineHistory

  ghost predicate IsPending(s: State, x: JobId) {
    x in s.rows && s.rows[x].state.Pending? && x in s.pendingDeps
  }

  ghost function Slack(s: State, x: JobId): int
    requires x in s.pendingDeps
  {
    s.pendingDeps[x] - |Unmet(s.rows, s.deps, x)|
  }

  /** From `s` to `r` a Pending node keeps its slack, and is released only with slack zero. */
  ghost predicate SlackStep(s: State, r: State, x: JobId)
    requires IsPending(s, x)
  {
    && x in r.rows
    && (r.rows[x].state.Pending? ==> x in r.pendingDeps && Slack(r, x) == Slack(s, x))
    && (Started(r.rows[x].state) ==> Slack(s, x) == 0)
  }

  lemma SuccessSlack(t: State, id: JobId, row: Row, now: int, order: seq<JobId>, x: JobId)
    requires Retirable(t, id, row) && row.state.Succeeded? && row.workflow.Some? && IsPending(t, x)
    ensures SlackStep(t, Retire(t, id, row, now, order), x)
  {
    hide Logged, Room, WorkflowsOk, Propagated, Live;
    var r := Retire(t, id, row, now, order);
    var u := ReleaseDependents(Persist(t, id, row), id, now);
    SuccessRows(t, id, row, now);
    MeetDepsEffect(t.pendingDeps, Kids(t, id));
    SuccessUnmet(t, id, row, x);
    assert r.rows == u.rows && r.deps == u.deps && r.pendingDeps == u.pendingDeps;
    if x != id {
      UnmetSame(t.rows[id := row], u.rows, t.deps, x);
      if x in Kids(t, id) {
        assert (id, x) in Unmet(t.rows, t.deps, x);
      }
    }
  }

  lemma QuietSlack(s: State, r: State, x: JobId)
    requires IsPending(s, x) && r.deps == s.deps && r.pendingDeps == s.pendingDeps && r.rows.Keys == s.rows.Keys
    requires forall e <- s.deps :: e.0 in s.rows ==> r.rows[e.0].state.Succeeded? == s.rows[e.0].state.Succeeded?
    requires !Started(r.rows[x].state)
    ensures SlackStep(s, r, x)
  {
    assert Unmet(r.rows, r.deps, x) == Unmet(s.rows, s.deps, x);
  }

  lemma RetirementSlack(t: State, id: JobId, row: Row, now: int, order: seq<JobId>, x: JobId)
    requires Retirable(t, id, row) && Lists(order, OpenDescendants(t, id)) && IsPending(t, x)
    ensures SlackStep(t, Retire(t, id, row, now, order), x)
  {
    hide Logged, Room, Books, Slack, SlackStep;
    if row.workflow.None? {
      RetirePlain(t, id, row, now, order);
      PlainHasNoEdges(t, id);
      QuietSlack(t, Retire(t, id, row, now, order), x);
    } else if row.state.Succeeded? {
      SuccessSlack(t, id, row, now, order, x);
    } else {
      RetireFailure(t, id, row, now, order);
      FailureRows(t, id, row, order);
      SkipAllRows(Persist(t, id, row), order);
      QuietSlack(t, Retire(t, id, row, now, order), x);
    }
  }

  lemma ShapeSlack(s: State, r: State, k: Shape, x: JobId)
    requires HasShape(s, r, k) && IsPending(s, x)
    ensures SlackStep(s, r, x)
  {
    hide Retirable, Retire, OpenDescendants;
    match k
    case Quiet => QuietSlack(s, r, x);
    case Marking(w) => QuietSlack(s, r, x);
    case Rewrite(id, row) => QuietSlack(s, r, x);
    case Retirement(t, id, row, now, order) =>
      RetirementSlack(t, id, row, now, order, x);
  }

  lemma SubmitSlack(s: State, e: Event, x: JobId)
    requires Inv(s) && e.ESubmit? && Enabled(s, e) && IsPending(s, x)
    ensures SlackStep(s, Apply(s, e), x)
  {
    hide Logged, Placed, Room, Books, Enqueue;
    var r := Apply(s, e);
    SubmitRows(s, e);
    EnqueueFields(InsertRow(s.(outstanding := s.outstanding + 1), e.id,
                            FreshRow(e.maxAttempts, e.delay, e.now, None, 0)), e.id);
    DepsInRows(s);
    assert Unmet(r.rows, r.deps, x) == Unmet(s.rows, s.deps, x);
  }

  lemma WorkflowSlack(s: State, e: Event, x: JobId)
    requires Inv(s) && e.EWorkflow? && Enabled(s, e) && IsPending(s, x)
    ensures SlackStep(s, Apply(s, e), x)
  {
    hide Logged, Placed, Room, Books, EnqueueAll;
    var r := Apply(s, e);
    var nodes := NodeRows(e.w, e.ids, e.specs, Elems(e.edges), e.now);
    NodeRowsFresh(e.w, e.ids, e.specs, Elems(e.edges), e.now);
    EnqueueAllFields(Grown(s, e.w, e.ids, nodes, e.edges), Roots(nodes, e.ids));
    assert r.rows == s.rows + nodes && r.deps == s.deps + Elems(e.edges);
    DepsInRows(s);
    assert Unmet(r.rows, r.deps, x) == Unmet(s.rows, s.deps, x);
  }

  lemma StepKeepsSlack(s: State, e: Event, x: JobId)
    requires Inv(s) && Enabled(s, e) && !e.ERestart? && IsPending(s, x)
    ensures SlackStep(s, Apply(s, e), x)
  {
    hide Inv, Enabled, Apply, HasShape, SlackStep, IsPending;
    if e.ESubmit? {
      SubmitSlack(s, e, x);
    } else if e.EWorkflow? {
      WorkflowSlack(s, e, x);
    } else {
      var k := StepShape(s, e);
      ShapeSlack(s, Apply(s, e), k, x);
    }
  }

  lemma PendingIsCounted(s: State, x: JobId)
    requires Inv(s) && x in s.rows && s.rows[x].state.Pending?
    ensures IsPending(s, x) && s.pendingDeps[x] > 0 && Slack(s, x) >= 0
  {
    hide Mid, WorkflowsOk, Propagated, Live;
  }

  /** Slack from one state to a later one of the same process; a node that left Pending with slack stays unstarted. */
  lemma {:induction false} SlackIsConstant(run: seq<State>, events: seq<Event>, i: nat, j: nat, x: JobId)
    requires IsRun(run, events) && i <= j < |run| && NoRestart(events, i, j) && IsPending(run[i], x)
    ensures x in run[j].rows
    ensures run[j].rows[x].state.Pending? ==> IsPending(run[j], x) && Slack(run[j], x) == Slack(run[i], x)
    ensures Started(run[j].rows[x].state) ==> Slack(run[i], x) == 0
    decreases j - i
  {
    hide Inv, Enabled, Apply, Slack;
    if i < j {
      var s, e := run[j - 1], events[j - 1];
      SlackIsConstant(run, events, i, j - 1, x);
      RunKeepsInv(run, events, j - 1);
      if s.rows[x].state.Pending? {
        StepKeepsSlack(s, e, x);
      } else {
        StepMovesRows(s, e);
      }
    }
  }

  /** Right after a restart the slack of a Pending node is the number of its parents that had succeeded. */
  lemma RestartSlack(s: State, e: Event, x: JobId)
    requires Inv(s) && e.ERestart? && Enabled(s, e)
    requires x in Apply(s, e).rows && Apply(s, e).rows[x].state.Pending?
    ensures var r := Apply(s, e);
            IsPending(r, x) && Slack(r, x) == |Into(r.deps, x) - Unmet(r.rows, r.deps, x)|
  {
    hide RecoverAll, Logged, Placed, Room, Books, TableSafe, OpEnabled, Crashed;
    var u := Crashed(s, e.during);
    var t := Reopen(u, e.kept, e.edgeOrder);
    var r := Apply(s, e);
    RecoverAllRows(t, e.order, e.now);
    CrashedLogged(s, e.during);
    ReopenLogged(u, e.kept, e.edgeOrder);
    LoggedRow(t, x);
    assert Unmet(r.rows, r.deps, x) <= Into(r.deps, x);
  }

  lemma CrashedLogged(s: State, during: Option<Event>)
    requires Inv(s) && (during.Some? ==> OpEnabled(s, during.value))
    ensures Logged(Crashed(s, during))
  {
    hide Logged, Placed, Room, Books, Perform, OpEnabled;
    if during.Some? { OpKeepsInv(s, during.value); }
    CrashedRestartable(s, during);
  }

  // ---- nodes that can never start ----

  /** Some parent of `x` has ended without success. */
  ghost predicate FailedParent(rows: Rows, deps: set<Edge>, x: JobId) {
    exists e <- deps :: e.1 == x && e.0 in rows && IsTerminal(rows[e.0].state) && !rows[e.0].state.Succeeded?
  }

  /** A pending node whose count cannot reach zero, or that nobody is left to skip. */
  ghost predicate Dead(s: State, x: JobId) {
    IsPending(s, x) && (Slack(s, x) != 0 || FailedParent(s.rows, s.deps, x))
  }

  /** A step that ends a node badly ends its children. */
  lemma NewFailureSkips(t: State, id: JobId, row: Row, now: int, order: seq<JobId>, p: JobId, x: JobId)
    requires Retirable(t, id, row) && Lists(order, OpenDescendants(t, id)) && (p, x) in t.deps && x in t.rows
    requires p in t.rows && !IsTerminal(t.rows[p].state)
    requires var r := Retire(t, id, row, now, order);
             p in r.rows && IsTerminal(r.rows[p].state) && !r.rows[p].state.Succeeded?
    ensures var r := Retire(t, id, row, now, order); x in r.rows && IsTerminal(r.rows[x].state)
  {
    hide Logged, Room, Books;
    if row.workflow.None? {
      RetirePlain(t, id, row, now, order);
      PlainHasNoEdges(t, id);
    } else if row.state.Succeeded? {
      RetireSuccess(t, id, row, now, order);
      SuccessRows(t, id, row, now);
    } else {
      RetireFailure(t, id, row, now, order);
      FailureRows(t, id, row, order);
      if p == id { ReachesByEdge(t.deps, id, x); } else { ReachesThenEdge(t.deps, id, p, x); }
    }
  }

  lemma ShapeSkips(s: State, r: State, k: Shape, p: JobId, x: JobId)
    requires HasShape(s, r, k) && (p, x) in s.deps && x in s.rows && p in s.rows && !IsTerminal(s.rows[p].state)
    requires p in r.rows && IsTerminal(r.rows[p].state) && !r.rows[p].state.Succeeded?
    ensures x in r.rows && IsTerminal(r.rows[x].state)
  {
    hide Retirable, Retire, OpenDescendants, Lists;
    if k.Retirement? { NewFailureSkips(k.taken, k.id, k.row, k.now, k.order, p, x); }
  }

  /** A node that waits with no failed parent gets none by a step: the step that fails the parent ends the node too. */
  lemma NoNewFailedParent(s: State, e: Event, x: JobId)
    requires Inv(s) && Enabled(s, e) && !e.ERestart? && x in s.rows && x in Apply(s, e).rows
    requires !IsTerminal(Apply(s, e).rows[x].state) && FailedParent(Apply(s, e).rows, Apply(s, e).deps, x)
    ensures FailedParent(s.rows, s.deps, x)
  {
    hide Inv, Enabled, Apply, HasShape;
    var r := Apply(s, e);
    InvDeps(s);
    if Admission(e) {
      AdmissionParents(s, e, x);
    } else {
      var k := StepShape(s, e);
      ShapeDeps(s, r, k);
      StepMovesRows(s, e);
      var d :| d in r.deps && d.1 == x && d.0 in r.rows && IsTerminal(r.rows[d.0].state) &&
        !r.rows[d.0].state.Succeeded?;
      assert (d.0, x) in s.deps;
      if !IsTerminal(s.rows[d.0].state) { ShapeSkips(s, r, k, d.0, x); }
    }
  }

  lemma ShapeDeps(s: State, r: State, k: Shape)
    requires HasShape(s, r, k)
    ensures r.deps == s.deps
  {
    hide Retire, OpenDescendants, Logged, Room, Books;
    if k.Retirement? {
      ShapeOrder(s, r, k);
      RetirementFields(k.taken, k.id, k.row, k.now, k.order);
    }
  }

  lemma ShapeOrder(s: State, r: State, k: Shape)
    requires HasShape(s, r, k) && k.Retirement?
    ensures k.id in k.taken.rows && forall x <- k.order :: x in k.taken.rows
  {
    hide Retire, Logged, Room, Books;
  }

  /** Admission adds edges between new nodes only. */
  lemma AdmissionParents(s: State, e: Event, x: JobId)
    requires Inv(s) && Enabled(s, e) && Admission(e) && x in s.rows
    ensures FailedParent(Apply(s, e).rows, Apply(s, e).deps, x) ==> FailedParent(s.rows, s.deps, x)
  {
    hide Logged, Placed, Room, Books, EnqueueAll, Enqueue, NodeRows, Roots;
    InvDeps(s);
    if e.ESubmit? {
      SubmitRows(s, e);
      EnqueueFields(InsertRow(s.(outstanding := s.outstanding + 1), e.id,
                              FreshRow(e.maxAttempts, e.delay, e.now, None, 0)), e.id);
    } else {
      WorkflowRows(s, e);
      var nodes := NodeRows(e.w, e.ids, e.specs, Elems(e.edges), e.now);
      EnqueueAllFields(Grown(s, e.w, e.ids, nodes, e.edges), Roots(nodes, e.ids));
      assert Apply(s, e).deps == s.deps + Elems(e.edges);
    }
  }

  lemma InvDeps(s: State)
    requires Inv(s)
    ensures forall e <- s.deps :: e.0 in s.rows && e.1 in s.rows
  {
    hide Logged, Placed, Room, Books;
    DepsInRows(s);
  }

  /** A node that an operation creates is not dead, and none of its parents has failed. */
  lemma NewNodeAlive(s: State, e: Event, x: JobId)
    requires Inv(s) && Enabled(s, e) && !e.ERestart? && x !in s.rows && x in Apply(s, e).rows
    ensures !Dead(Apply(s, e), x) && !FailedParent(Apply(s, e).rows, Apply(s, e).deps, x)
  {
    hide Inv, Enabled, Apply, Dead, FailedParent;
    if e.ESubmit? {
      SubmittedAlive(s, e, x);
    } else if e.EWorkflow? {
      WorkflowNodeAlive(s, e, x);
    } else {
      var k := StepShape(s, e);
      ShapeFields(s, Apply(s, e), k);
    }
  }

  lemma SubmittedAlive(s: State, e: Event, x: JobId)
    requires Inv(s) && Enabled(s, e) && e.ESubmit? && x !in s.rows && x in Apply(s, e).rows
    ensures !Dead(Apply(s, e), x) && !FailedParent(Apply(s, e).rows, Apply(s, e).deps, x)
  {
    hide Logged, Placed, Room, Books, Enqueue;
    SubmitRows(s, e);
    InvDeps(s);
    EnqueueFields(InsertRow(s.(outstanding := s.outstanding + 1), e.id,
                            FreshRow(e.maxAttempts, e.delay, e.now, None, 0)), e.id);
  }

  /** The parents of a new node are new: all its edges are unmet, and no parent has ended. */
  lemma FreshNodeAlive(rows: Rows, deps: set<Edge>, nodes: Rows, w: WfId, es: set<Edge>, x: JobId)
    requires FreshNodes(nodes, w, es) && rows.Keys !! nodes.Keys && x in nodes
    requires forall d <- deps :: d.0 in rows && d.1 in rows
    ensures |Unmet(rows + nodes, deps + es, x)| == nodes[x].pendingDeps
    ensures !FailedParent(rows + nodes, deps + es, x)
  {
    assert forall d <- es :: IsFreshNode(nodes[d.0], w, |Into(es, d.0)|);
    assert Unmet(rows + nodes, deps + es, x) == Into(es, x);
    assert IsFreshNode(nodes[x], w, |Into(es, x)|);
  }

  lemma WorkflowNodeAlive(s: State, e: Event, x: JobId)
    requires Inv(s) && Enabled(s, e) && e.EWorkflow? && x !in s.rows && x in Apply(s, e).rows
    ensures !Dead(Apply(s, e), x) && !FailedParent(Apply(s, e).rows, Apply(s, e).deps, x)
  {
    hide Logged, Placed, Room, Books, EnqueueAll, NodeRows, Roots, FailedParent, Unmet, Into;
    var es := Elems(e.edges);
    var nodes := NodeRows(e.w, e.ids, e.specs, es, e.now);
    NodeRowsFresh(e.w, e.ids, e.specs, es, e.now);
    EnqueueAllFields(Grown(s, e.w, e.ids, nodes, e.edges), Roots(nodes, e.ids));
    InvDeps(s);
    FreshNodeAlive(s.rows, s.deps, nodes, e.w, es, x);
    var r := Apply(s, e);
    assert r.rows == s.rows + nodes && r.deps == s.deps + es && r.pendingDeps == s.pendingDeps + NodeCounts(nodes);
  }

  /** No operation makes a node dead: only a restart does. */
  lemma DeadOnlyByRestart(run: seq<State>, events: seq<Event>, i: nat, x: JobId)
    requires IsRun(run, events) && i < |events| && !events[i].ERestart? && Dead(run[i + 1], x)
    ensures Dead(run[i], x)
  {
    hide Inv, Enabled, Apply, Slack, FailedParent;
    var s, e := run[i], events[i];
    RunKeepsInv(run, events, i);
    if x !in s.rows {
      NewNodeAlive(s, e, x);
    } else {
      StepMovesRows(s, e);
      PendingIsCounted(s, x);
      StepKeepsSlack(s, e, x);
      if FailedParent(run[i + 1].rows, run[i + 1].deps, x) { NoNewFailedParent(s, e, x); }
    }
  }

  /** Without a crash there are no dead nodes. */
  lemma NoneDeadWithoutCrash(run: seq<State>, events: seq<Event>, i: nat, x: JobId)
    requires IsRun(run, events) && i < |run| && run[i].crashes == 0
    ensures !Dead(run[i], x)
  {
    hide Mid, WorkflowsOk, Live, ChildrenOk;
    RunKeepsInv(run, events, i);
  }

  /** Some parent of `x` has ended. */
  ghost predicate EndedParent(rows: Rows, deps: set<Edge>, x: JobId) {
    exists e <- deps :: e.1 == x && e.0 in rows && IsTerminal(rows[e.0].state)
  }

  /** The table a crash leaves, seen from the recovered engine. */
  lemma EndedParentIff(t: Rows, r: State, now: int, x: JobId)
    requires r.rows.Keys == t.Keys && (forall y <- t :: r.rows[y] == RecoveredRow(t[y], now))
    requires (forall d <- r.deps :: d.0 in r.rows) && x in r.pendingDeps
    requires Slack(r, x) == |Into(r.deps, x) - Unmet(r.rows, r.deps, x)|
    ensures EndedParent(t, r.deps, x) <==> Slack(r, x) != 0 || FailedParent(r.rows, r.deps, x)
  {
    hide Slack;
    var done := Into(r.deps, x) - Unmet(r.rows, r.deps, x);
    if Slack(r, x) != 0 {
      var d :| d in done;
      assert d in r.deps && d.1 == x && r.rows[d.0].state.Succeeded? && t[d.0] == r.rows[d.0];
    }
    if FailedParent(r.rows, r.deps, x) {
      var d :| d in r.deps && d.1 == x && d.0 in r.rows && IsTerminal(r.rows[d.0].state) &&
        !r.rows[d.0].state.Succeeded?;
      assert t[d.0] == r.rows[d.0];
    }
    if EndedParent(t, r.deps, x) {
      var d :| d in r.deps && d.1 == x && d.0 in t && IsTerminal(t[d.0].state);
      assert r.rows[d.0] == t[d.0];
      if r.rows[d.0].state.Succeeded? { assert d in done; } else { assert FailedParent(r.rows, r.deps, x); }
    }
  }

  /** Right after a restart a pending node is dead exactly when one of its parents has ended in the surviving table. */
  lemma DeadAfterRestartIff(run: seq<State>, events: seq<Event>, i: nat, x: JobId)
    requires IsRun(run, events) && i < |events| && events[i].ERestart?
    requires x in run[i + 1].rows && run[i + 1].rows[x].state.Pending?
    ensures Dead(run[i + 1], x) <==> EndedParent(Survivors(run[i], events[i]), run[i + 1].deps, x)
  {
    hide Inv, OpEnabled, Crashed, Apply, Survivors, Slack, EndedParent, FailedParent;
    RunKeepsInv(run, events, i);
    RunKeepsInv(run, events, i + 1);
    RestartSlack(run[i], events[i], x);
    RestartRows(run[i], events[i]);
    InvDeps(run[i + 1]);
    EndedParentIff(Survivors(run[i], events[i]), run[i + 1], events[i].now, x);
  }

  /** A dead node never starts before the next restart. */
  lemma DeadNeverStarts(run: seq<State>, events: seq<Event>, i: nat, j: nat, x: JobId)
    requires IsRun(run, events) && i <= j < |run| && NoRestart(events, i, j) && Dead(run[i], x)
    ensures x in run[j].rows && !Started(run[j].rows[x].state)
  {
    hide Inv, Enabled, Apply, Slack;
    SlackIsConstant(run, events, i, j, x);
    if Slack(run[i], x) == 0 {
      var s := run[i];
      var d :| d in s.deps && d.1 == x && d.0 in s.rows && IsTerminal(s.rows[d.0].state) &&
        !s.rows[d.0].state.Succeeded?;
      TerminalIsFinal(run, events, i, j, d.0);
      DepsStay(run, events, i, j, d);
      RunKeepsInv(run, events, j);
      EdgeHolds(run[j], d);
    }
  }

  lemma EdgeHolds(s: State, d: Edge)
    requires Inv(s) && d in s.deps
    ensures EdgeOk(s.rows, d)
  {
    hide Placed, Room, Books;
    LoggedNow(s);
  }

  lemma {:induction false} DepsStay(run: seq<State>, events: seq<Event>, i: nat, j: nat, d: Edge)
    requires IsRun(run, events) && i <= j < |run| && d in run[i].deps
    ensures d in run[j].deps
    decreases j
  {
    hide Inv, Enabled, Apply;
    if i < j {
      DepsStay(run, events, i, j - 1, d);
      RunKeepsInv(run, events, j - 1);
      DepsGrow(run[j - 1], events[j - 1]);
    }
  }

  lemma OpDepsGrow(s: State, e: Event)
    requires Inv(s) && Enabled(s, e) && !e.ERestart?
    ensures s.deps <= Apply(s, e).deps
  {
    hide Inv, Enabled, Apply, HasShape;
    if Admission(e) {
      AdmissionDeps(s, e);
    } else {
      var k := StepShape(s, e);
      ShapeDeps(s, Apply(s, e), k);
    }
  }

  lemma AdmissionDeps(s: State, e: Event)
    requires Enabled(s, e) && Admission(e)
    ensures s.deps <= Apply(s, e).deps
  {
    hide EnqueueAll, Enqueue, NodeRows, Roots;
    if e.ESubmit? {
      EnqueueFields(InsertRow(s.(outstanding := s.outstanding + 1), e.id,
                              FreshRow(e.maxAttempts, e.delay, e.now, None, 0)), e.id);
    } else {
      var nodes := NodeRows(e.w, e.ids, e.specs, Elems(e.edges), e.now);
      EnqueueAllFields(Grown(s, e.w, e.ids, nodes, e.edges), Roots(nodes, e.ids));
    }
  }

  lemma DepsGrow(s: State, e: Event)
    requires Inv(s) && Enabled(s, e)
    ensures s.deps <= Apply(s, e).deps
  {
    hide Inv, Perform, OpEnabled, RecoverAll;
    if e.ERestart? {
      if e.during.Some? {
        NoOp(s, e.during.value);
        OpDepsGrow(s, e.during.value);
      }
      RecoverAllRows(Reopen(Crashed(s, e.during), e.kept, e.edgeOrder), e.order, e.now);
    } else {
      OpDepsGrow(s, e);
    }
  }
}
