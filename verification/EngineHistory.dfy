/** How rows, labels and dependency counts evolve along a run. */
module EngineHistory {
  import opened Jobs
  import opened Graphs
  import opened EngineModel
  import opened EngineInvariant
  import opened EngineRetire
  import opened EngineBooks
  import opened EngineSteps
  import opened EngineAdmission
  import opened EngineRecovery
  import opened EngineRuns

  // ---- one step seen by one row ----

  /** Terminal rows are final; a job that waits on is left alone; the attempt grows exactly on a start. */
  ghost predicate RowStep(a: Row, b: Row) {
    && (IsTerminal(a.state) ==> b == a)
    && (IsWaiting(a.state) && IsWaiting(b.state) ==> b == a)
    && Moves(a.state, b.state)
    && b.maxAttempts == a.maxAttempts && b.workflow == a.workflow
    && b.attempt == a.attempt + (if !a.state.Running? && b.state.Running? then 1 else 0)
  }

  ghost predicate RowsStep(s: State, r: State) {
    forall x <- s.rows :: x in r.rows && RowStep(s.rows[x], r.rows[x])
  }

  /** A workflow label is written at most once after RUNNING. */
  ghost predicate LabelsKept(b: WfBooks, c: WfBooks) {
    forall w <- b.labels :: w in c.labels && (!b.labels[w].WfRunning? ==> c.labels[w] == b.labels[w])
  }

  // ---- the three shapes of a step on existing jobs ----

  datatype Shape =
    | Quiet                                    // no row changes
    | Marking(w: WfId)                         // only a workflow label changes
    | Rewrite(id: JobId, row: Row)             // an open row becomes another open row
    | Retirement(taken: State, id: JobId, row: Row, now: int, order: seq<JobId>)

  ghost predicate HasShape(s: State, r: State, k: Shape) {
    match k
    case Quiet =>
      && r.rows == s.rows && r.deps == s.deps && r.pendingDeps == s.pendingDeps && r.crashes == s.crashes
      && r.wf == s.wf
    case Marking(w) => r == MarkCancelled(s, w)
    case Rewrite(id, row) =>
      && id in s.rows && !s.rows[id].state.Pending? && StaysOpen(s.rows, id, row) && RowStep(s.rows[id], row)
      && r.rows == s.rows[id := row]
      && r.deps == s.deps && r.pendingDeps == s.pendingDeps && r.wf == s.wf && r.crashes == s.crashes
    case Retirement(t, id, row, now, order) =>
      && t == s.(queue := t.queue, inHand := t.inHand, running := t.running)
      && Retirable(t, id, row) && Lists(order, OpenDescendants(t, id)) && RowStep(t.rows[id], row)
      && r == Retire(t, id, row, now, order)
  }

  /** The state `t` in which an operation has taken `id` out of its container, ready to be retired. */
  lemma RetirementShape(s: State, t: State, id: JobId, row: Row, order: seq<JobId>)
    requires Inv(s) && t == s.(queue := t.queue, inHand := t.inHand, running := t.running) && PlacedBut(t, id)
    requires id in s.rows && !IsTerminal(s.rows[id].state) && IsTerminal(row.state)
    requires RowStep(s.rows[id], row) && (Started(row.state) ==> Started(s.rows[id].state))
    requires Lists(order, OpenDescendants(s, id))
    ensures Retirable(t, id, row) && Lists(order, OpenDescendants(t, id))
  {
    hide Logged, Placed, PlacedBut, Room, Books;
    SameLog(s, t);
    SameBooks(s, t);
    SameRoom(s, t);
    SameDescendants(s, t, id);
    LoggedRow(s, id);
  }

  /** The state after pushing a rewritten row. */
  lemma RewriteShape(s: State, t: State, id: JobId, row: Row)
    requires t == s.(queue := t.queue, inHand := t.inHand, running := t.running)
    requires id in s.rows && !s.rows[id].state.Pending? && StaysOpen(s.rows, id, row) && RowStep(s.rows[id], row)
    ensures HasShape(s, Enqueue(Persist(t, id, row), id), Rewrite(id, row))
  {
    hide Enqueue;
    EnqueueFields(Persist(t, id, row), id);
  }

  lemma BeginShape(s: State, id: JobId, owner: string, remote: bool, token: nat, now: int, order: seq<JobId>)
    returns (k: Shape)
    requires Inv(s) && id in s.inHand && Lists(order, OpenDescendants(s, id))
    ensures HasShape(s, Begin(s, id, owner, remote, token, now, order), k) && !k.Marking?
  {
    hide Logged, PlacedBut, Room, Books, Retirable, OpenDescendants;
    TakeInHand(s, id);
    var t := s.(inHand := s.inHand - multiset{id});
    if !IsWaiting(s.rows[id].state) {
      k := Quiet;
    } else if s.rows[id].cancelRequested {
      var row := s.rows[id].(state := Cancelled);
      RetirementShape(s, t, id, row, order);
      k := Retirement(t, id, row, now, order);
    } else {
      k := Rewrite(id, StartedRow(s.rows[id], token));
    }
  }

  function FinishedRow(row: Row, fromStore: bool, next: JobState, readyAt: int): Row {
    row.(leaseToken := 0, cancelRequested := fromStore && row.cancelRequested, state := next, readyAt := readyAt)
  }

  lemma FinishShape(s: State, id: JobId, token: nat, fromStore: bool, override: Option<CancelReason>, ok: bool,
                    delay: nat, now: int, order: seq<JobId>) returns (k: Shape)
    requires Inv(s) && Lists(order, OpenDescendants(s, id))
    ensures HasShape(s, Finish(s, id, token, fromStore, override, ok, delay, now, order), k) && !k.Marking?
  {
    hide Logged, Placed, PlacedBut, Room, Books, Retirable, OpenDescendants, Enqueue, Retire, Lists;
    if id in s.running && s.running[id].token == token {
      TakeRunning(s, id);
      var t := s.(running := s.running - {id});
      var next := OutcomeState(s.rows[id], if override.Some? then override.value else s.running[id].reason, ok);
      if next.Retrying? {
        var row := FinishedRow(s.rows[id], fromStore, next, now + delay);
        RewriteShape(s, t, id, row);
        k := Rewrite(id, row);
      } else {
        var row := FinishedRow(s.rows[id], fromStore, next, s.rows[id].readyAt);
        RetirementShape(s, t, id, row, order);
        k := Retirement(t, id, row, now, order);
      }
    } else {
      k := Quiet;
    }
  }

  lemma ExpireShape(s: State, id: JobId, now: int, order: seq<JobId>) returns (k: Shape)
    requires Inv(s) && Lists(order, OpenDescendants(s, id))
    ensures HasShape(s, Expire(s, id, now, order), k) && !k.Marking?
  {
    hide Logged, Placed, PlacedBut, Room, Books, Retirable, OpenDescendants, Enqueue, Retire, Lists;
    if id in s.running {
      TakeRunning(s, id);
      var t := s.(running := s.running - {id});
      var row := s.rows[id].(leaseToken := 0);
      if row.attempt >= row.maxAttempts {
        RetirementShape(s, t, id, row.(state := Failed), order);
        k := Retirement(t, id, row.(state := Failed), now, order);
      } else {
        RewriteShape(s, t, id, row.(state := Queued, readyAt := now));
        k := Rewrite(id, row.(state := Queued, readyAt := now));
      }
    } else {
      k := Quiet;
    }
  }

  lemma CancelShape(s: State, id: JobId, now: int, order: seq<JobId>) returns (k: Shape)
    requires Inv(s) && Lists(order, OpenDescendants(s, id))
    ensures HasShape(s, Cancel(s, id, now, order).0, k) && !k.Marking?
  {
    hide Logged, Placed, PlacedBut, Room, Books, Retirable, OpenDescendants, Retire, Lists;
    if id in s.rows && !IsTerminal(s.rows[id].state) {
      var row := s.rows[id].(cancelRequested := true);
      if row.state.Running? {
        k := Rewrite(id, row);
      } else {
        var t := s.(queue := s.queue - {id});
        Dequeue(s, id);
        RetirementShape(s, t, id, row.(state := Cancelled), order);
        k := Retirement(t, id, row.(state := Cancelled), now, order);
      }
    } else {
      k := Quiet;
    }
  }

  predicate Admission(e: Event) {
    e.ESubmit? || e.EWorkflow?
  }

  lemma StepShape(s: State, e: Event) returns (k: Shape)
    requires Inv(s) && Enabled(s, e) && !e.ERestart? && !Admission(e)
    ensures HasShape(s, Apply(s, e), k)
    ensures k.Marking? ==> e == EMarkCancelled(k.w)
  {
    hide Inv, HasShape;
    match e
    case EBegin(id, owner, remote, token, now, order) => k := BeginShape(s, id, owner, remote, token, now, order);
    case EFinish(id, token, ok, backoff, now, order) =>
      k := FinishShape(s, id, token, false, None, ok, backoff, now, order);
    case EComplete(worker, id, attempt, token, report, ok, backoff, now, order) =>
      if Apply(s, e) == s {
        k := QuietShape(s, s);
      } else {
        k := FinishShape(s, id, token, true, if report.NoReason? then None else Some(report), ok, backoff, now, order);
      }
    case ECancel(id, now, order) => k := CancelShape(s, id, now, order);
    case EExpire(id, now, order) => k := ExpireShape(s, id, now, order);
    case EPop(id, now) => k := QuietShape(s, Apply(s, e));
    case EMarkCancelled(w) => k := MarkingShape(s, w);
    case EDeadline(id) => k := QuietShape(s, Apply(s, e));
  }

  lemma MarkingShape(s: State, w: WfId) returns (k: Shape)
    ensures HasShape(s, MarkCancelled(s, w), k) && k == Marking(w)
  {
    k := Marking(w);
  }

  lemma QuietShape(s: State, r: State) returns (k: Shape)
    requires r.rows == s.rows && r.deps == s.deps && r.pendingDeps == s.pendingDeps && r.crashes == s.crashes
    requires r.wf == s.wf
    ensures HasShape(s, r, k) && !k.Marking?
  {
    k := Quiet;
  }

  // ---- rows ----

  lemma RetirementRows(t: State, id: JobId, row: Row, now: int, order: seq<JobId>)
    requires Retirable(t, id, row) && Lists(order, OpenDescendants(t, id)) && RowStep(t.rows[id], row)
    ensures RowsStep(t, Retire(t, id, row, now, order))
  {
    hide Retirable, Lists, Retire, OpenDescendants, RowStep;
    if row.workflow.None? {
      RetirePlain(t, id, row, now, order);
      OthersStay(t.rows, id);
    } else if row.state.Succeeded? {
      ReleaseMoves(t, id, row, now, order);
    } else {
      SkipMoves(t, id, row, now, order);
    }
  }

  lemma OthersStay(rows: Rows, id: JobId)
    ensures forall x <- rows :: x != id ==> RowStep(rows[x], rows[x])
  {
  }

  lemma SameMoves(a: Row)
    ensures RowStep(a, a)
  {
  }

  lemma ReleaseMove(a: Row, now: int)
    ensures RowStep(a, UnblockedRow(a, now))
  {
  }

  lemma SkipMove(a: Row)
    requires a.state.Pending?
    ensures RowStep(a, a.(state := Skipped))
  {
  }

  lemma ReleaseMoves(t: State, id: JobId, row: Row, now: int, order: seq<JobId>)
    requires Retirable(t, id, row) && row.workflow.Some? && row.state.Succeeded? && RowStep(t.rows[id], row)
    ensures RowsStep(t, Retire(t, id, row, now, order))
  {
    hide Logged, Room, Books, PlacedBut, RowOk, RowStep, Retire, ReleaseDependents, MeetDeps, UnblockedRow;
    RetireSuccess(t, id, row, now, order);
    SuccessRows(t, id, row, now);
    var r := Retire(t, id, row, now, order);
    forall x <- t.rows ensures x in r.rows && RowStep(t.rows[x], r.rows[x]) {
      SameMoves(t.rows[x]);
      ReleaseMove(t.rows[x], now);
    }
  }

  lemma SkipMoves(t: State, id: JobId, row: Row, now: int, order: seq<JobId>)
    requires Retirable(t, id, row) && row.workflow.Some? && !row.state.Succeeded? && RowStep(t.rows[id], row)
    requires Lists(order, OpenDescendants(t, id))
    ensures RowsStep(t, Retire(t, id, row, now, order))
  {
    hide Logged, Room, Books, PlacedBut, RowOk, RowStep, Retire, SkipAll, OpenDescendants, Lists;
    RetireFailure(t, id, row, now, order);
    FailureRows(t, id, row, order);
    var r := Retire(t, id, row, now, order);
    forall x <- t.rows ensures x in r.rows && RowStep(t.rows[x], r.rows[x]) {
      SameMoves(t.rows[x]);
      if x in OpenDescendants(t, id) { SkipMove(t.rows[x]); }
    }
  }

  lemma ShapeMovesRows(s: State, r: State, k: Shape)
    requires HasShape(s, r, k)
    ensures RowsStep(s, r)
  {
    hide Retirable, Lists, Retire;
    if k.Retirement? {
      RetirementRows(k.taken, k.id, k.row, k.now, k.order);
    }
  }

  lemma SubmitRows(s: State, e: Event)
    requires e.ESubmit? && Enabled(s, e)
    ensures forall x <- s.rows :: x in Apply(s, e).rows && Apply(s, e).rows[x] == s.rows[x]
    ensures forall x <- Apply(s, e).rows :: x !in s.rows ==>
            Apply(s, e).rows[x].attempt == 0 && IsWaiting(Apply(s, e).rows[x].state)
  {
    EnqueueFields(InsertRow(s.(outstanding := s.outstanding + 1), e.id,
                            FreshRow(e.maxAttempts, e.delay, e.now, None, 0)), e.id);
  }

  lemma WorkflowRows(s: State, e: Event)
    requires e.EWorkflow? && Enabled(s, e)
    ensures forall x <- s.rows :: x in Apply(s, e).rows && Apply(s, e).rows[x] == s.rows[x]
    ensures forall x <- Apply(s, e).rows :: x !in s.rows ==>
            Apply(s, e).rows[x].attempt == 0 && !Apply(s, e).rows[x].state.Running?
  {
    hide NodeRows, Roots, EnqueueAll;
    var nodes := NodeRows(e.w, e.ids, e.specs, Elems(e.edges), e.now);
    NodeRowsFresh(e.w, e.ids, e.specs, Elems(e.edges), e.now);
    EnqueueAllFields(Grown(s, e.w, e.ids, nodes, e.edges), Roots(nodes, e.ids));
    assert Apply(s, e).rows == s.rows + nodes;
  }

  /** Every step of a live engine moves every row as RowStep says. */
  lemma StepMovesRows(s: State, e: Event)
    requires Inv(s) && Enabled(s, e) && !e.ERestart?
    ensures RowsStep(s, Apply(s, e))
  {
    hide Inv, Enabled, Apply, HasShape;
    if e.ESubmit? {
      SubmitRows(s, e);
    } else if e.EWorkflow? {
      WorkflowRows(s, e);
    } else {
      var k := StepShape(s, e);
      ShapeMovesRows(s, Apply(s, e), k);
    }
  }

  // ---- the other tables ----

  lemma CountLabels(b: WfBooks, w: WfId, failed: bool, n: nat)
    ensures LabelsKept(b, CountNodes(b, w, failed, n))
  {
  }

  lemma RetirementFields(t: State, id: JobId, row: Row, now: int, order: seq<JobId>)
    requires id in t.rows && forall x <- order :: x in t.rows
    ensures var r := Retire(t, id, row, now, order);
            LabelsKept(t.wf, r.wf) && r.crashes == t.crashes && r.rows.Keys == t.rows.Keys && r.deps == t.deps
  {
    var u := Persist(t, id, row);
    if row.workflow.Some? {
      var w := row.workflow.value;
      if row.state.Succeeded? {
        var (pd, ready) := MeetDeps(u.pendingDeps, Kids(u, id));
        UnblockAllRows(u.(pendingDeps := pd), ready, now);
        CountLabels(t.wf, w, false, 1);
      } else {
        SkipAllRows(u, order);
        CountLabels(t.wf, w, true, 1 + |order|);
      }
    }
  }

  lemma AdmissionFields(s: State, e: Event)
    requires Admission(e) && Enabled(s, e)
    ensures LabelsKept(s.wf, Apply(s, e).wf) && Apply(s, e).crashes == s.crashes
  {
    hide Enqueue, EnqueueAll;
    match e
    case ESubmit(id, maxAttempts, delay, now, _, _) =>
      EnqueueFields(InsertRow(s.(outstanding := s.outstanding + 1), id,
                              FreshRow(maxAttempts, delay, now, None, 0)), id);
    case EWorkflow(w, ids, specs, edges, now) =>
      var nodes := NodeRows(w, ids, specs, Elems(edges), now);
      EnqueueAllFields(Grown(s, w, ids, nodes, edges), Roots(nodes, ids));
  }

  lemma OpFields(s: State, e: Event)
    requires Inv(s) && Enabled(s, e) && !e.ERestart?
    ensures LabelsKept(s.wf, Apply(s, e).wf) && Apply(s, e).crashes == s.crashes
  {
    hide Inv, Apply, Enabled;
    if Admission(e) {
      AdmissionFields(s, e);
    } else {
      var k := StepShape(s, e);
      ShapeFields(s, Apply(s, e), k);
    }
  }

  /** A crash inside an operation changes no label. */
  lemma CrashedFields(s: State, during: Option<Event>)
    requires Inv(s) && (during.Some? ==> OpEnabled(s, during.value))
    ensures var u := Crashed(s, during);
            && (forall w <- s.wf.labels :: w in u.wf.labels && u.wf.labels[w] == s.wf.labels[w])
            && u.crashes == s.crashes
  {
    hide Inv, Perform, OpEnabled;
    if during.Some? {
      var op := during.value;
      assert !op.ERestart? by { NoOp(s, op); }
      OpFields(s, op);
    }
  }

  lemma NoOp(s: State, e: Event)
    requires OpEnabled(s, e)
    ensures !e.ERestart?
  {
  }

  lemma RestartFields(s: State, e: Event)
    requires Inv(s) && e.ERestart? && Enabled(s, e)
    ensures LabelsKept(s.wf, Apply(s, e).wf) && Apply(s, e).crashes == s.crashes + 1
    ensures Apply(s, e).wf.labels == Crashed(s, e.during).wf.labels
  {
    hide RecoverAll, Inv, OpEnabled, Crashed;
    CrashedFields(s, e.during);
    RecoverAllRows(Reopen(Crashed(s, e.during), e.kept, e.edgeOrder), e.order, e.now);
  }

  lemma StepFields(s: State, e: Event)
    requires Inv(s) && Enabled(s, e)
    ensures LabelsKept(s.wf, Apply(s, e).wf)
    ensures Apply(s, e).crashes == s.crashes + if e.ERestart? then 1 else 0
  {
    hide Inv, Apply, Enabled;
    if e.ERestart? {
      RestartFields(s, e);
    } else {
      OpFields(s, e);
    }
  }

  lemma ShapeFields(s: State, r: State, k: Shape)
    requires HasShape(s, r, k)
    ensures LabelsKept(s.wf, r.wf) && r.crashes == s.crashes && r.rows.Keys == s.rows.Keys
    ensures forall x <- s.rows :: x in r.rows
  {
    hide Retire, Logged, Room, Books;
    if k.Retirement? { RetirementFields(k.taken, k.id, k.row, k.now, k.order); }
  }

  lemma NewRowsAreFresh(s: State, e: Event, x: JobId)
    requires Inv(s) && Enabled(s, e) && !e.ERestart? && x !in s.rows
    ensures x in Apply(s, e).rows ==> Apply(s, e).rows[x].attempt == 0 && !Apply(s, e).rows[x].state.Running?
  {
    hide Inv, Apply, Enabled;
    if e.ESubmit? {
      SubmitRows(s, e);
    } else if e.EWorkflow? {
      WorkflowRows(s, e);
    } else {
      var k := StepShape(s, e);
      ShapeFields(s, Apply(s, e), k);
    }
  }

  // ---- theorems over runs ----

  ghost predicate NoRestart(events: seq<Event>, i: nat, j: nat) {
    forall m :: i <= m < j <= |events| ==> !events[m].ERestart?
  }

  /** A terminal row never changes again while the engine lives. */
  lemma {:induction false} TerminalIsFinal(run: seq<State>, events: seq<Event>, i: nat, j: nat, x: JobId)
    requires IsRun(run, events) && i <= j < |run| && NoRestart(events, i, j)
    requires x in run[i].rows && IsTerminal(run[i].rows[x].state)
    ensures x in run[j].rows && run[j].rows[x] == run[i].rows[x]
    decreases j - i
  {
    hide Inv, Apply, Enabled;
    if i < j {
      TerminalIsFinal(run, events, i, j - 1, x);
      RunKeepsInv(run, events, j - 1);
      StepMovesRows(run[j - 1], events[j - 1]);
    }
  }

  /** Neither a client's CANCELLED nor any other final label is overwritten, restarts included. */
  lemma {:induction false} FinalLabelStays(run: seq<State>, events: seq<Event>, i: nat, j: nat, w: WfId)
    requires IsRun(run, events) && i <= j < |run|
    requires w in run[i].wf.labels && !run[i].wf.labels[w].WfRunning?
    ensures w in run[j].wf.labels && run[j].wf.labels[w] == run[i].wf.labels[w]
    decreases j - i
  {
    hide Inv, Apply, Enabled;
    if i < j {
      FinalLabelStays(run, events, i, j - 1, w);
      RunKeepsInv(run, events, j - 1);
      StepFields(run[j - 1], events[j - 1]);
    }
  }

  /** Step m of the run puts job x into RUNNING. */
  ghost predicate StartsAt(run: seq<State>, m: nat, x: JobId)
    requires m + 1 < |run|
  {
    x in run[m].rows && !run[m].rows[x].state.Running? && x in run[m + 1].rows && run[m + 1].rows[x].state.Running?
  }

  ghost function Starts(run: seq<State>, i: nat, x: JobId): nat
    requires i < |run|
  {
    if i == 0 then 0 else Starts(run, i - 1, x) + (if StartsAt(run, i - 1, x) then 1 else 0)
  }

  /** Without a crash the k-th start of a job is its attempt k, and there are at most maxAttempts of them. */
  lemma {:induction false} StartsAreAttempts(run: seq<State>, events: seq<Event>, i: nat, x: JobId)
    requires IsRun(run, events) && i < |run| && run[i].crashes == 0
    ensures x in run[i].rows ==> Starts(run, i, x) == run[i].rows[x].attempt <= run[i].rows[x].maxAttempts
    ensures x !in run[i].rows ==> Starts(run, i, x) == 0
  {
    hide Inv, Apply, Enabled;
    if i > 0 {
      var s, e := run[i - 1], events[i - 1];
      RunKeepsInv(run, events, i - 1);
      StepFields(s, e);
      StartsAreAttempts(run, events, i - 1, x);
      StepMovesRows(s, e);
      if x !in s.rows { NewRowsAreFresh(s, e, x); }
      if x in run[i].rows { AttemptBound(run, events, i, x); }
    }
  }

  /** With k crashes behind it, a job's attempt number is at most maxAttempts + k. */
  lemma AttemptBound(run: seq<State>, events: seq<Event>, i: nat, x: JobId)
    requires IsRun(run, events) && i < |run| && x in run[i].rows
    ensures run[i].rows[x].attempt <= run[i].rows[x].maxAttempts + run[i].crashes
  {
    RunKeepsInv(run, events, i);
    LoggedRow(run[i], x);
  }
}
