/**
 Workflow labels in every run. The verdict of a workflow is written when its last node ends, also after a restart.
 The label is committed at once, the rows it was computed from are buffered, and the label is the last write of an
 operation; so a crash can keep the label and lose the rows, or keep the rows and lose the label.
 */
module EngineLabels {
  import opened Jobs
  import opened Graphs
  import opened EngineModel
  import opened EngineInvariant
  import opened EngineRetire
  import opened EngineBooks
  import opened EngineSteps
  import opened EngineAdmission
  import opened EngineRecovery
  import opened EngineRuns
  import opened EngineHistory
  import opened EngineStranding

  function Verdict(rows: Rows, w: WfId): WfLabel {
    if FailedNodes(rows, w) == {} then WfSucceeded else WfFailed
  }

  // ---- one step ----

  /** The step ends the last open node of `w`. */
  ghost predicate Ends(before: Rows, after: Rows, w: WfId) {
    OpenNodes(before, w) != {} && OpenNodes(after, w) == {}
  }

  /** What a step may do to the label of `w`; `marked` if it is a client's cancellation of that workflow. */
  ghost predicate LabelStep(before: Rows, b: WfBooks, after: Rows, c: WfBooks, w: WfId, marked: bool)
    requires w in b.labels
  {
    && w in c.labels
    && (if Ends(before, after, w)
        then
          && c.finalized[w] == b.finalized[w] + 1
          && c.labels[w] == if b.labels[w].WfRunning? then Verdict(after, w) else b.labels[w]
        else
          && c.finalized[w] == b.finalized[w]
          && c.labels[w] == if marked && b.labels[w].WfRunning? then WfCancelled else b.labels[w])
    && (OpenNodes(before, w) == {} ==> OpenNodes(after, w) == {} && FailedNodes(after, w) == FailedNodes(before, w))
  }

  lemma CountMoves(before: Rows, after: Rows, b: WfBooks, w: WfId, closed: set<JobId>, failed: bool, v: WfId)
    requires ClosesIn(before, after, w, closed, failed) && CounterOk(before, b, w) && w in b.labels && v in b.labels
    ensures LabelStep(before, b, after, CountNodes(b, w, failed, |closed|), v, false)
  {
    if v == w {
      CountOwn(before, after, b, w, closed, failed);
      var x :| x in closed;
      assert x in OpenNodes(before, w);
    } else {
      ClosesOther(before, after, closed, v);
    }
  }

  lemma SameMoves(before: Rows, after: Rows, b: WfBooks, v: WfId)
    requires v in b.labels && OpenNodes(after, v) == OpenNodes(before, v) &&
             FailedNodes(after, v) == FailedNodes(before, v)
    ensures LabelStep(before, b, after, b, v, false)
  {
  }

  lemma OwnLabel(t: State, id: JobId, row: Row)
    requires Retirable(t, id, row) && row.workflow.Some?
    ensures row.workflow.value in t.wf.labels && CounterOk(t.rows, t.wf, row.workflow.value)
  {
    hide Logged, Room, CountsOk, Propagated, CounterOk, LabelOk;
    assert id in t.rows;
  }

  lemma SuccessMoves(t: State, id: JobId, row: Row, now: int, order: seq<JobId>, v: WfId)
    requires Retirable(t, id, row) && row.workflow.Some? && row.state.Succeeded? && v in t.wf.labels
    ensures var r := Retire(t, id, row, now, order); LabelStep(t.rows, t.wf, r.rows, r.wf, v, false)
  {
    hide Logged, Room, Books, PlacedBut, LabelStep, CounterOk, ClosesIn, CountNodes;
    var u := ReleaseDependents(Persist(t, id, row), id, now);
    SuccessRows(t, id, row, now);
    SuccessCloses(t, id, row, now);
    OwnLabel(t, id, row);
    assert |{id}| == 1;
    CountMoves(t.rows, u.rows, t.wf, row.workflow.value, {id}, false, v);
  }

  lemma FailureMoves(t: State, id: JobId, row: Row, now: int, order: seq<JobId>, v: WfId)
    requires Retirable(t, id, row) && row.workflow.Some? && !row.state.Succeeded?
    requires Lists(order, OpenDescendants(t, id)) && v in t.wf.labels
    ensures var r := Retire(t, id, row, now, order); LabelStep(t.rows, t.wf, r.rows, r.wf, v, false)
  {
    hide Logged, Room, Books, LabelStep, CounterOk, ClosesIn, CountNodes, SkipAll;
    var u := SkipAll(Persist(t, id, row), order);
    SkipAllFields(t, id, row, order);
    FailureCloses(t, id, row, order);
    OwnLabel(t, id, row);
    CountMoves(t.rows, u.rows, t.wf, row.workflow.value, {id} + OpenDescendants(t, id), true, v);
  }

  lemma RetirementMoves(t: State, id: JobId, row: Row, now: int, order: seq<JobId>, v: WfId)
    requires Retirable(t, id, row) && Lists(order, OpenDescendants(t, id)) && v in t.wf.labels
    ensures var r := Retire(t, id, row, now, order); LabelStep(t.rows, t.wf, r.rows, r.wf, v, false)
  {
    if row.workflow.None? {
      ClosesOne(t.rows, id, row);
      ClosesOther(t.rows, t.rows[id := row], {id}, v);
      SameMoves(t.rows, t.rows[id := row], t.wf, v);
    } else {
      hide Retirable, Retire, OpenDescendants, LabelStep;
      if row.state.Succeeded? {
        SuccessMoves(t, id, row, now, order, v);
      } else {
        FailureMoves(t, id, row, now, order, v);
      }
    }
  }

  lemma ShapeMoves(s: State, r: State, k: Shape, v: WfId)
    requires HasShape(s, r, k) && v in s.wf.labels
    requires !k.Marking?
    ensures LabelStep(s.rows, s.wf, r.rows, r.wf, v, false)
  {
    hide Retirable, Retire, OpenDescendants, Lists;
    match k
    case Quiet => SameMoves(s.rows, r.rows, s.wf, v);
    case Rewrite(id, row) =>
      OpenCloses(s.rows, id, row);
      ClosesOther(s.rows, r.rows, {}, v);
      SameMoves(s.rows, r.rows, s.wf, v);
    case Retirement(t, id, row, now, order) => RetirementMoves(t, id, row, now, order, v);
  }

  lemma MarkIs(s: State, e: Event)
    requires e.EMarkCancelled?
    ensures Apply(s, e) == MarkCancelled(s, e.w)
  {
  }

  lemma MarkMoves(s: State, w: WfId, v: WfId)
    requires v in s.wf.labels
    ensures LabelStep(s.rows, s.wf, MarkCancelled(s, w).rows, MarkCancelled(s, w).wf, v, v == w)
  {
    hide OpenNodes, FailedNodes;
  }

  lemma SubmitMoves(s: State, e: Event, v: WfId)
    requires e.ESubmit? && Enabled(s, e) && v in s.wf.labels
    ensures LabelStep(s.rows, s.wf, Apply(s, e).rows, Apply(s, e).wf, v, false)
  {
    hide Enqueue;
    var row := FreshRow(e.maxAttempts, e.delay, e.now, None, 0);
    EnqueueFields(InsertRow(s.(outstanding := s.outstanding + 1), e.id, row), e.id);
    assert OpenNodes(s.rows[e.id := row], v) == OpenNodes(s.rows, v);
    assert FailedNodes(s.rows[e.id := row], v) == FailedNodes(s.rows, v);
    SameMoves(s.rows, Apply(s, e).rows, s.wf, v);
  }

  lemma WorkflowMoves(s: State, e: Event, v: WfId)
    requires e.EWorkflow? && Enabled(s, e) && v in s.wf.labels
    ensures LabelStep(s.rows, s.wf, Apply(s, e).rows, Apply(s, e).wf, v, false)
  {
    hide EnqueueAll, NodeRows, Roots, OpenNodes, FailedNodes;
    var nodes := NodeRows(e.w, e.ids, e.specs, Elems(e.edges), e.now);
    NodeRowsFresh(e.w, e.ids, e.specs, Elems(e.edges), e.now);
    EnqueueAllFields(Grown(s, e.w, e.ids, nodes, e.edges), Roots(nodes, e.ids));
    assert FreshNodes(nodes, e.w, Elems(e.edges));
    FreshNodesOpen(nodes, e.w, Elems(e.edges));
    GrownOther(s.rows, nodes, e.w, v);
  }

  /**
   In every run, whatever crashes lie behind: an operation that ends the last open node of a workflow finalises it,
   once, with the verdict its nodes call for; no other operation touches the label, except a client's cancellation.
   */
  lemma FinalisedAtTheEnd(run: seq<State>, events: seq<Event>, i: nat, w: WfId)
    requires IsRun(run, events) && i < |events| && !events[i].ERestart? && w in run[i].wf.labels
    ensures LabelStep(run[i].rows, run[i].wf, run[i + 1].rows, run[i + 1].wf, w, events[i] == EMarkCancelled(w))
  {
    hide Inv, Enabled, Apply;
    RunKeepsInv(run, events, i);
    OpMoves(run[i], events[i], w);
  }

  lemma OpMoves(s: State, e: Event, w: WfId)
    requires Inv(s) && Enabled(s, e) && !e.ERestart? && w in s.wf.labels
    ensures LabelStep(s.rows, s.wf, Apply(s, e).rows, Apply(s, e).wf, w, e == EMarkCancelled(w))
  {
    hide Inv, Enabled, LabelStep, Apply, HasShape;
    if e.ESubmit? {
      SubmitMoves(s, e, w);
    } else if e.EWorkflow? {
      WorkflowMoves(s, e, w);
    } else if e.EMarkCancelled? {
      MarkIs(s, e);
      MarkMoves(s, e.w, w);
    } else {
      var k := StepShape(s, e);
      ShapeMoves(s, Apply(s, e), k, w);
    }
  }

  // ---- labels that agree with the rows ----

  /** A workflow is RUNNING while a node is open; a verdict says how all its nodes ended. */
  ghost predicate ExactLabel(rows: Rows, b: WfBooks, w: WfId)
    requires w in b.labels
  {
    match b.labels[w]
    case WfRunning => OpenNodes(rows, w) != {}
    case WfCancelled => true
    case _ => OpenNodes(rows, w) == {} && b.labels[w] == Verdict(rows, w)
  }

  lemma MoveKeepsExact(before: Rows, b: WfBooks, after: Rows, c: WfBooks, w: WfId, marked: bool)
    requires w in b.labels && LabelStep(before, b, after, c, w, marked) && ExactLabel(before, b, w)
    ensures ExactLabel(after, c, w)
  {
    hide OpenNodes, FailedNodes;
  }

  lemma LabelsStay(s: State, e: Event, w: WfId)
    requires Inv(s) && Enabled(s, e) && w in s.wf.labels
    ensures w in Apply(s, e).wf.labels
  {
    hide Inv, Enabled, Apply;
    StepFields(s, e);
  }

  /** Between restarts an exact label stays exact, whatever happens to other workflows. */
  lemma {:induction false} LabelStaysExact(run: seq<State>, events: seq<Event>, i: nat, j: nat, w: WfId)
    requires IsRun(run, events) && i <= j < |run| && NoRestart(events, i, j)
    requires w in run[i].wf.labels && ExactLabel(run[i].rows, run[i].wf, w)
    ensures w in run[j].wf.labels && ExactLabel(run[j].rows, run[j].wf, w)
    decreases j - i
  {
    hide Inv, Enabled, Apply, ExactLabel, LabelStep;
    if i < j {
      LabelStaysExact(run, events, i, j - 1, w);
      FinalisedAtTheEnd(run, events, j - 1, w);
      RunKeepsInv(run, events, j - 1);
      LabelsStay(run[j - 1], events[j - 1], w);
      MoveKeepsExact(run[j - 1].rows, run[j - 1].wf, run[j].rows, run[j].wf, w, events[j - 1] == EMarkCancelled(w));
    }
  }

  /** Between restarts a workflow is finalised once if its last open node ended in between, and else not at all. */
  lemma {:induction false} FinalisedOncePerProcess(run: seq<State>, events: seq<Event>, i: nat, j: nat, w: WfId)
    requires IsRun(run, events) && i <= j < |run| && NoRestart(events, i, j) && w in run[i].wf.labels
    ensures w in run[j].wf.labels
    ensures run[j].wf.finalized[w] == run[i].wf.finalized[w] + if Ends(run[i].rows, run[j].rows, w) then 1 else 0
    ensures OpenNodes(run[i].rows, w) == {} ==> OpenNodes(run[j].rows, w) == {}
    decreases j - i
  {
    hide Inv, Enabled, Apply, OpenNodes, FailedNodes;
    if i < j {
      FinalisedOncePerProcess(run, events, i, j - 1, w);
      FinalisedAtTheEnd(run, events, j - 1, w);
    }
  }

  /** A new workflow starts with an exact label. */
  lemma NewLabelExact(run: seq<State>, events: seq<Event>, i: nat)
    requires IsRun(run, events) && i < |events| && events[i].EWorkflow?
    ensures events[i].w in run[i + 1].wf.labels && ExactLabel(run[i + 1].rows, run[i + 1].wf, events[i].w)
  {
    hide EnqueueAll, NodeRows, Roots;
    var s, e := run[i], events[i];
    var nodes := NodeRows(e.w, e.ids, e.specs, Elems(e.edges), e.now);
    NodeRowsFresh(e.w, e.ids, e.specs, Elems(e.edges), e.now);
    var t := Grown(s, e.w, e.ids, nodes, e.edges);
    EnqueueAllFields(t, Roots(nodes, e.ids));
    GrownExact(s.rows, nodes, e.w, Elems(e.edges), e.ids[0], t.wf);
  }

  lemma GrownExact(rows: Rows, nodes: Rows, w: WfId, es: set<Edge>, x: JobId, b: WfBooks)
    requires FreshNodes(nodes, w, es) && x in nodes && w in b.labels && b.labels[w].WfRunning?
    ensures ExactLabel(rows + nodes, b, w)
  {
    FreshNodesOpen(nodes, w, es);
    assert x in OpenNodes(rows + nodes, w);
  }

  /** A workflow whose nodes have all ended under the label RUNNING keeps it until a client cancels it. */
  lemma {:induction false} EndedStaysRunning(run: seq<State>, events: seq<Event>, i: nat, j: nat, w: WfId)
    requires IsRun(run, events) && i <= j < |run| && NoRestart(events, i, j)
    requires forall k :: i <= k < j ==> events[k] != EMarkCancelled(w)
    requires w in run[i].wf.labels && run[i].wf.labels[w].WfRunning? && OpenNodes(run[i].rows, w) == {}
    ensures w in run[j].wf.labels && run[j].wf.labels[w].WfRunning? && OpenNodes(run[j].rows, w) == {}
    decreases j - i
  {
    hide Inv, Enabled, Apply, OpenNodes, FailedNodes;
    if i < j {
      EndedStaysRunning(run, events, i, j - 1, w);
      FinalisedAtTheEnd(run, events, j - 1, w);
    }
  }

  // ---- restarts ----

  /** The update ends a node of `w`. */
  predicate EndsNode(base: Rows, u: (JobId, Row), w: WfId) {
    u.0 in base && base[u.0].workflow == Some(w) && IsTerminal(u.1.state)
  }

  /** How much of the log must survive for every end of a node of `w` in it to survive. */
  function LastEnd(base: Rows, updates: seq<(JobId, Row)>, w: WfId): (n: nat)
    ensures n <= |updates|
    ensures n > 0 ==> EndsNode(base, updates[n - 1], w)
    ensures forall k :: n <= k < |updates| ==> !EndsNode(base, updates[k], w)
  {
    if updates == [] then 0
    else if EndsNode(base, updates[|updates| - 1], w) then |updates|
    else LastEnd(base, updates[..|updates| - 1], w)
  }

  lemma ReplayNext(base: Rows, updates: seq<(JobId, Row)>, n: nat)
    requires n < |updates|
    ensures var t, u := Replay(base, updates[..n]), updates[n];
            Replay(base, updates[..n + 1]) == if u.0 in t then t[u.0 := u.1] else t
  {
    var p := updates[..n + 1];
    assert p[..|p| - 1] == updates[..n] && p[|p| - 1] == updates[n];
  }

  /** A row that has ended in the log is not written again. */
  lemma {:induction false} EndedRowStays(base: Rows, updates: seq<(JobId, Row)>, i: nat, j: nat, x: JobId)
    requires OpenWrites(base, updates) && i <= j <= |updates|
    requires x in Replay(base, updates[..i]) && !Open(Replay(base, updates[..i]), x)
    ensures x in Replay(base, updates[..j]) && Replay(base, updates[..j])[x] == Replay(base, updates[..i])[x]
    decreases j - i
  {
    hide Replay;
    if i < j {
      EndedRowStays(base, updates, i, j - 1, x);
      ReplayNext(base, updates, j - 1);
      assert Open(Replay(base, updates[..j - 1]), updates[j - 1].0);
    }
  }

  /** A row that is open and later is not was ended by a write in between. */
  lemma {:induction false} EndedByWrite(base: Rows, updates: seq<(JobId, Row)>, i: nat, j: nat, x: JobId)
    returns (k: nat)
    requires i <= j <= |updates| && Open(Replay(base, updates[..i]), x)
    requires x in Replay(base, updates[..j]) && !Open(Replay(base, updates[..j]), x)
    ensures i <= k < j && updates[k].0 == x && IsTerminal(updates[k].1.state)
    decreases j - i
  {
    hide Replay;
    ReplayNext(base, updates, j - 1);
    if updates[j - 1].0 == x {
      k := j - 1;
    } else {
      k := EndedByWrite(base, updates, i, j - 1, x);
    }
  }

  lemma ReplayedLike(s: State, kept: nat)
    requires Logged(s) && kept <= |s.updates|
    ensures var t := Replay(s.base, s.updates[..kept]);
            && FinalIn(t, s.rows) && t.Keys == s.rows.Keys == s.base.Keys
            && forall x <- t :: t[x].workflow == s.rows[x].workflow == s.base[x].workflow
  {
    hide TableSafe, FinalIn, OpenWrites;
    var t := Replay(s.base, s.updates[..kept]);
    ReplayKeys(s.base, s.updates[..kept]);
    forall x <- t ensures t[x].workflow == s.rows[x].workflow == s.base[x].workflow {
      assert forall u <- s.updates[..kept] :: u in s.updates;
      ReplayWorkflow(s.base, s.updates[..kept], x);
      ReplayWorkflow(s.base, s.updates, x);
    }
  }

  lemma EndedNodesStay(before: Rows, now: Rows, w: WfId)
    requires FinalIn(before, now) && before.Keys == now.Keys
    requires forall x <- before :: before[x].workflow == now[x].workflow
    requires OpenNodes(before, w) == {}
    ensures OpenNodes(now, w) == {} && FailedNodes(before, w) == FailedNodes(now, w)
  {
    forall x <- before | before[x].workflow == Some(w) ensures now[x] == before[x] {
      assert x !in OpenNodes(before, w);
    }
  }

  lemma NoEndAfter(s: State, kept: nat, w: WfId)
    requires Logged(s) && kept <= |s.updates| && OpenNodes(Replay(s.base, s.updates[..kept]), w) == {}
    ensures LastEnd(s.base, s.updates, w) <= kept
  {
    hide Replay, TableSafe, FinalIn, LastEnd;
    var n := LastEnd(s.base, s.updates, w);
    if n > kept {
      var x := s.updates[n - 1].0;
      var t := Replay(s.base, s.updates[..kept]);
      ReplayedLike(s, kept);
      assert !Open(t, x) by { assert x !in OpenNodes(t, w); }
      EndedRowStays(s.base, s.updates, kept, n - 1, x);
    }
  }

  lemma EndsSurvive(s: State, kept: nat, w: WfId)
    requires Logged(s) && LastEnd(s.base, s.updates, w) <= kept <= |s.updates| && OpenNodes(s.rows, w) == {}
    ensures OpenNodes(Replay(s.base, s.updates[..kept]), w) == {}
  {
    hide Replay, TableSafe, FinalIn, LastEnd, OpenWrites;
    var t := Replay(s.base, s.updates[..kept]);
    ReplayedLike(s, kept);
    forall x | x in OpenNodes(t, w) ensures false {
      assert x !in OpenNodes(s.rows, w);
      assert s.updates[..|s.updates|] == s.updates;
      var k := EndedByWrite(s.base, s.updates, kept, |s.updates|, x);
    }
  }

  /** Which prefixes of the log show a workflow with every node ended: those that reach its last ending write. */
  lemma AllEndedIff(s: State, kept: nat, w: WfId)
    requires Logged(s) && kept <= |s.updates|
    ensures var t := Replay(s.base, s.updates[..kept]);
            && (OpenNodes(t, w) == {} <==> OpenNodes(s.rows, w) == {} && LastEnd(s.base, s.updates, w) <= kept)
            && (OpenNodes(t, w) == {} ==> FailedNodes(t, w) == FailedNodes(s.rows, w))
  {
    hide Logged, Replay, LastEnd, OpenNodes, FailedNodes;
    var t := Replay(s.base, s.updates[..kept]);
    if OpenNodes(t, w) == {} {
      ReplayedLike(s, kept);
      EndedNodesStay(t, s.rows, w);
      NoEndAfter(s, kept, w);
    } else if OpenNodes(s.rows, w) == {} && LastEnd(s.base, s.updates, w) <= kept {
      EndsSurvive(s, kept, w);
    }
  }

  lemma RecoveredNodes(t: Rows, r: Rows, now: int, w: WfId)
    requires r.Keys == t.Keys && forall x <- t :: r[x] == RecoveredRow(t[x], now)
    ensures OpenNodes(r, w) == OpenNodes(t, w) && FailedNodes(r, w) == FailedNodes(t, w)
  {
    assert Closes(t, r, {});
    ClosesOther(t, r, {}, w);
  }

  lemma RestartNodes(s: State, e: Event, w: WfId)
    requires Inv(s) && e.ERestart? && Enabled(s, e)
    ensures OpenNodes(Apply(s, e).rows, w) == OpenNodes(Survivors(s, e), w)
    ensures FailedNodes(Apply(s, e).rows, w) == FailedNodes(Survivors(s, e), w)
  {
    hide Inv, Apply, OpEnabled, Crashed, Replay, RecoveredRow, OpenNodes, FailedNodes, Lists, Live;
    RestartRows(s, e);
    RecoveredNodes(Survivors(s, e), Apply(s, e).rows, e.now, w);
  }

  /** Every node of `w` has ended in what the crashed process wrote, and the crash lost none of those writes. */
  ghost predicate EndSurvives(s: State, e: Event, w: WfId)
    requires e.ERestart? && (e.during.Some? ==> OpEnabled(s, e.during.value))
  {
    var u := Crashed(s, e.during);
    OpenNodes(u.rows, w) == {} && LastEnd(u.base, u.updates, w) <= e.kept
  }

  /**
   What a restart does to a label: a verdict is exact afterwards iff it was right and the crash lost none of the
   workflow's ending writes; RUNNING is exact unless all those writes survived while the label was not yet written.
   */
  lemma RestartLabelIff(run: seq<State>, events: seq<Event>, i: nat, w: WfId)
    requires IsRun(run, events) && i < |events| && events[i].ERestart? && w in run[i].wf.labels
    ensures w in run[i + 1].wf.labels && run[i + 1].wf.labels[w] == run[i].wf.labels[w]
    ensures ExactLabel(run[i + 1].rows, run[i + 1].wf, w) <==>
              match run[i].wf.labels[w]
              case WfRunning => !EndSurvives(run[i], events[i], w)
              case WfCancelled => true
              case l => EndSurvives(run[i], events[i], w) && l == Verdict(Crashed(run[i], events[i].during).rows, w)
  {
    hide Inv, Apply, OpEnabled, Crashed, OpenNodes, FailedNodes, Logged, Replay, LastEnd, Lists;
    var s, e := run[i], events[i];
    assert run[i + 1] == Apply(s, e);
    RunKeepsInv(run, events, i);
    CrashedFields(s, e.during);
    RestartFields(s, e);
    RestartNodes(s, e, w);
    CrashedLogged(s, e.during);
    AllEndedIff(Crashed(s, e.during), e.kept, w);
  }
}
