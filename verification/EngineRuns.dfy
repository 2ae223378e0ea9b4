/** What holds in every state, and across every pair of states, of every run of the engine. */
module EngineRuns {
  import opened Jobs
  import opened Graphs
  import opened EngineModel
  import opened EngineInvariant
  import opened EngineSteps
  import opened EngineAdmission
  import opened EngineRecovery

  // ---- the invariant ----

  lemma InitialInv(capacity: nat)
    ensures Inv(Initial(capacity))
  {
    var s := Initial(capacity);
    assert Ranks(s.deps, map[]);
    assert Placed(s) by { forall x ensures PlacedAt(s, x) {} }
    assert Live(s.rows) == {};
  }

  lemma OpKeepsInv(s: State, e: Event)
    requires Inv(s) && OpEnabled(s, e)
    ensures Inv(Perform(s, e))
  {
    hide Inv;
    match e
    case ESubmit(id, maxAttempts, delay, now, typeKnown, storeOk) =>
      SubmitKeeps(s, id, maxAttempts, delay, now, typeKnown, storeOk);
    case EWorkflow(w, ids, specs, edges, now) => AddWorkflowKeeps(s, w, ids, specs, edges, now);
    case EPop(id, now) => PopKeeps(s, id);
    case EBegin(id, owner, remote, token, now, order) => BeginKeeps(s, id, owner, remote, token, now, order);
    case EFinish(id, token, ok, backoff, now, order) => FinishKeeps(s, id, token, false, None, ok, backoff, now, order);
    case EComplete(worker, id, attempt, token, report, ok, backoff, now, order) =>
      CompleteKeeps(s, worker, id, attempt, token, report, ok, backoff, now, order);
    case ECancel(id, now, order) => CancelKeeps(s, id, now, order);
    case EMarkCancelled(w) => MarkCancelledKeeps(s, w);
    case EDeadline(id) => DeadlineKeeps(s, id);
    case EExpire(id, now, order) => ExpireKeeps(s, id, now, order);
  }

  lemma StepKeepsInv(s: State, e: Event)
    requires Inv(s) && Enabled(s, e)
    ensures Inv(Apply(s, e))
  {
    hide Inv, Perform, OpEnabled, Restartable;
    if e.ERestart? {
      if e.during.Some? { OpKeepsInv(s, e.during.value); }
      CrashedRestartable(s, e.during);
      RestartKeeps(Crashed(s, e.during), e.kept, e.order, e.edgeOrder, e.now);
    } else {
      OpKeepsInv(s, e);
    }
  }

  lemma {:induction false} RunKeepsInv(run: seq<State>, events: seq<Event>, i: nat)
    requires IsRun(run, events) && i < |run|
    ensures Inv(run[i])
  {
    hide Inv;
    if i == 0 {
      InitialInv(run[0].capacity);
    } else {
      RunKeepsInv(run, events, i - 1);
      StepKeepsInv(run[i - 1], events[i - 1]);
    }
  }

  // ---- no job is lost or held twice ----

  /** In the queue, in a worker's hand, or lost to a push that was answered with Full: exactly one of the three. */
  ghost predicate WaitsOnce(s: State, x: JobId) {
    && s.inHand[x] <= 1
    && (x in s.queue || x in s.inHand || x in s.dropped)
    && !(x in s.queue && x in s.inHand) && !(x in s.queue && x in s.dropped) && !(x in s.inHand && x in s.dropped)
  }

  /** The one place an open job is in, by its state. */
  ghost predicate HeldOnce(s: State, x: JobId)
    requires x in s.rows
  {
    match s.rows[x].state
    case Pending => x in s.pendingDeps && s.pendingDeps[x] > 0 && x !in s.queue && x !in s.inHand && x !in s.running
    case Running => x in s.running && s.running[x].token == s.rows[x].leaseToken && x !in s.queue && x !in s.inHand
    case Queued => WaitsOnce(s, x) && x !in s.running
    case Scheduled => WaitsOnce(s, x) && x !in s.running
    case Retrying => WaitsOnce(s, x) && x !in s.running
    case _ => x !in s.queue && x !in s.running
  }

  lemma HeldOnceFromInv(s: State, x: JobId)
    requires Inv(s) && x in s.rows
    ensures HeldOnce(s, x)
  {
    hide Logged, Room, WorkflowsOk, Propagated, Live;
    assert PlacedAt(s, x);
  }

  /** In every state of every run, restarts included. */
  lemma NoJobLostOrHeldTwice(run: seq<State>, events: seq<Event>, i: nat, x: JobId)
    requires IsRun(run, events) && i < |run| && x in run[i].rows
    ensures HeldOnce(run[i], x)
  {
    hide Inv;
    RunKeepsInv(run, events, i);
    HeldOnceFromInv(run[i], x);
  }

  // ---- slots ----

  lemma SlotConservation(run: seq<State>, events: seq<Event>, i: nat)
    requires IsRun(run, events) && i < |run|
    ensures run[i].outstanding == |Live(run[i].rows)|
    ensures !run[i].oversized ==> run[i].outstanding <= run[i].capacity && run[i].dropped == {}
  {
    RunKeepsInv(run, events, i);
  }

  // ---- dependency safety ----

  /** In every state, crashes or not: what has started has only succeeded ancestors. */
  lemma AncestorsSucceeded(run: seq<State>, events: seq<Event>, i: nat, a: JobId, x: JobId)
    requires IsRun(run, events) && i < |run| && Reaches(run[i].deps, a, x)
    requires x in run[i].rows && Started(run[i].rows[x].state)
    ensures a in run[i].rows && run[i].rows[a].state.Succeeded?
  {
    var s := run[i];
    RunKeepsInv(run, events, i);
    LoggedNow(s);
    var p :| WalkFromTo(s.deps, p, a, x);
    Descendants(s.rows, s.deps, s.crashes, a, p, x);
  }

  /** A node begins an attempt only when every one of its parents has succeeded. */
  lemma BeginsAfterParents(run: seq<State>, events: seq<Event>, i: nat, p: JobId, x: JobId)
    requires IsRun(run, events) && i < |events| && events[i].EBegin? && events[i].id == x
    requires (p, x) in run[i].deps && x in run[i + 1].rows && run[i + 1].rows[x].state.Running?
    ensures p in run[i].rows && run[i].rows[p].state.Succeeded?
  {
    var s := run[i];
    RunKeepsInv(run, events, i);
    LoggedNow(s);
    assert EdgeOk(s.rows, (p, x));
    TakeInHand(s, x);
  }

  // ---- workflow completion ----

  /** The counters, in every run. */
  lemma CountersExact(run: seq<State>, events: seq<Event>, i: nat, w: WfId)
    requires IsRun(run, events) && i < |run| && w in run[i].wf.labels && OpenNodes(run[i].rows, w) != {}
    ensures w in run[i].wf.remaining && run[i].wf.remaining[w] == |OpenNodes(run[i].rows, w)|
    ensures GetOr0(run[i].wf.failures, w) == |FailedNodes(run[i].rows, w)|
  {
    hide Mid, CountsOk, Propagated, ChildrenOk, Live;
    RunKeepsInv(run, events, i);
    assert CounterOk(run[i].rows, run[i].wf, w);
  }

  /** Without a crash: finalised exactly once, when the last node ended, as succeeded iff no node failed. */
  lemma FinalisedOnce(run: seq<State>, events: seq<Event>, i: nat, w: WfId)
    requires IsRun(run, events) && i < |run| && run[i].crashes == 0 && w in run[i].wf.labels
    ensures run[i].wf.finalized[w] == if OpenNodes(run[i].rows, w) == {} then 1 else 0
    ensures OpenNodes(run[i].rows, w) != {} ==> run[i].wf.labels[w].WfRunning? || run[i].wf.labels[w].WfCancelled?
    ensures OpenNodes(run[i].rows, w) == {} && !run[i].wf.labels[w].WfCancelled? ==>
              run[i].wf.labels[w] == if FailedNodes(run[i].rows, w) == {} then WfSucceeded else WfFailed
  {
    hide Mid, CountsOk, Propagated, ChildrenOk, Live, OpenNodes, FailedNodes;
    RunKeepsInv(run, events, i);
    assert LabelOk(run[i].rows, run[i].wf, w);
  }
}
