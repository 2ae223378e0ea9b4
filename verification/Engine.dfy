/**
 The coordinator itself: its fields, its loops, and its operations, each proved to be the step of the
 state machine it stands for, so that everything proved of runs holds of sequences of calls.
 */
module Engine {
  import opened Jobs
  import opened Graphs
  import M = EngineModel
  import I = EngineInvariant
  import R = EngineRetire
  import B = EngineBooks
  import S = EngineSteps
  import A = EngineAdmission
  import H = EngineHistory
  import C = EngineCancellation
  import Runs = EngineRuns
  import W = EngineWorkflow
  import G = WorkflowGraph
  import Rec = EngineRecovery
  import Kahn

  type JobId = M.JobId
  type WfId = M.WfId
  type Row = M.Row

  class JobEngine {
    const capacity: nat
    // the store's tables
    var rows: M.Rows
    var deps: set<M.Edge>
    var labels: map<WfId, M.WfLabel>
    // memory
    var queue: set<JobId>
    var inHand: multiset<JobId>
    var running: map<JobId, M.RunningInfo>
    var outstanding: int
    var children: map<JobId, seq<JobId>>
    var pendingDeps: map<JobId, int>
    var wfRemaining: map<WfId, int>
    var wfFailures: map<WfId, int>
    // history
    ghost var base: M.Rows
    ghost var updates: seq<(JobId, Row)>
    ghost var crashes: nat
    ghost var oversized: bool
    ghost var dropped: set<JobId>
    ghost var finalized: multiset<WfId>

    ghost function Books(): M.WfBooks
      reads this
    {
      M.WfBooks(labels, wfRemaining, wfFailures, finalized)
    }

    ghost function View(): M.State
      reads this
    {
      M.State(capacity, rows, deps, Books(), queue, inHand, running, outstanding, children, pendingDeps,
              base, updates, crashes, oversized, dropped)
    }

    ghost predicate Valid()
      reads this
    {
      I.Inv(View())
    }

    constructor (max: nat)
      ensures View() == M.Initial(max)
    {
      capacity := max;
      rows, deps, labels := map[], {}, map[];
      queue, inHand, running, outstanding := {}, multiset{}, map[], 0;
      children, pendingDeps, wfRemaining, wfFailures := map[], map[], map[], map[];
      base, updates, crashes, oversized, dropped, finalized := map[], [], 0, false, {}, multiset{};
    }

    // ---- slots, rows, queue ----

    method ReserveSlot() returns (ok: bool)
      modifies this`outstanding
      ensures ok <==> old(outstanding) < capacity
      ensures outstanding == old(outstanding) + if ok then 1 else 0
    {
      ok := outstanding < capacity;
      if ok { outstanding := outstanding + 1; }
    }

    method ReleaseSlot()
      modifies this`outstanding
      ensures outstanding == old(outstanding) - 1
    {
      outstanding := outstanding - 1;
    }

    method Persist(id: JobId, row: Row)
      modifies this`rows, this`updates
      ensures View() == M.Persist(old(View()), id, row)
    {
      rows := rows[id := row];
      updates := updates + [(id, row)];
    }

    method Enqueue(id: JobId) returns (full: bool)
      modifies this`queue, this`dropped
      ensures full <==> |old(queue)| >= capacity
      ensures View() == M.Enqueue(old(View()), id)
    {
      full := |queue| >= capacity;
      if full {
        dropped := dropped + {id};
      } else {
        queue := queue + {id};
      }
    }

    /** Inserts a row that holds a slot and pushes it. */
    method Admit(id: JobId, row: Row)
      modifies this`rows, this`base, this`queue, this`dropped
      ensures View() == M.Enqueue(M.InsertRow(old(View()), id, row), id)
    {
      rows := rows[id := row];
      base := base[id := row];
      var _ := Enqueue(id);
    }

    method Requeue(id: JobId, row: Row)
      modifies this`rows, this`updates, this`queue, this`dropped
      ensures View() == M.Enqueue(M.Persist(old(View()), id, row), id)
    {
      Persist(id, row);
      var _ := Enqueue(id);
    }

    // ---- workflow bookkeeping ----

    /** The first loop of release_dependents, under wf_mutex_. */
    method CountMetDeps(parent: JobId) returns (newlyReady: seq<JobId>)
      modifies this`pendingDeps
      ensures (pendingDeps, newlyReady) == M.MeetDeps(old(pendingDeps), M.Kids(old(View()), parent))
    {
      newlyReady := [];
      if parent in children {
        var kids := children[parent];
        for k := 0 to |kids|
          invariant (pendingDeps, newlyReady) == M.MeetDeps(old(pendingDeps), kids[..k])
        {
          assert kids[..k + 1][..k] == kids[..k];
          var c := kids[k];
          if c in pendingDeps && pendingDeps[c] > 0 {
            if pendingDeps[c] == 1 { newlyReady := newlyReady + [c]; }
            pendingDeps := pendingDeps[c := pendingDeps[c] - 1];
          }
        }
        assert kids[..|kids|] == kids;
      }
    }

    /** The second loop: every node at zero that is still Pending becomes eligible. */
    method UnblockReady(newlyReady: seq<JobId>, now: int)
      modifies this`rows, this`updates, this`queue, this`dropped
      ensures View() == M.UnblockAll(old(View()), newlyReady, now)
    {
      hide M.Enqueue, M.Persist;
      for k := 0 to |newlyReady|
        invariant View() == M.UnblockAll(old(View()), newlyReady[..k], now)
      {
        assert newlyReady[..k + 1][..k] == newlyReady[..k];
        var c := newlyReady[k];
        if c in rows && rows[c].state.Pending? {
          var row := rows[c];
          Requeue(c, row.(state := if row.readyAt > now then Scheduled else Queued, pendingDeps := 0));
        }
      }
      assert newlyReady[..|newlyReady|] == newlyReady;
    }

    method ReleaseDependents(parent: JobId, now: int)
      modifies this`pendingDeps, this`rows, this`updates, this`queue, this`dropped
      ensures View() == M.ReleaseDependents(old(View()), parent, now)
    {
      hide M.UnblockAll, M.MeetDeps;
      var newlyReady := CountMetDeps(parent);
      UnblockReady(newlyReady, now);
    }

    method Skip(id: JobId)
      requires id in rows
      modifies this`rows, this`updates, this`queue
      ensures View() == M.Skip(old(View()), id)
    {
      queue := queue - {id};
      Persist(id, rows[id].(state := Skipped));
    }

    /** The traversal of skip_descendants. */
    method MarkDescendants(failed: JobId) returns (toSkip: seq<JobId>)
      requires I.ChildrenOk(deps, children)
      requires forall e <- deps :: e.0 in rows && e.1 in rows
      modifies this`rows, this`updates, this`queue
      ensures M.Lists(toSkip, M.OpenDescendants(old(View()), failed))
      ensures View() == M.SkipAll(old(View()), toSkip)
    {
      ghost var s0 := View();
      toSkip := [];
      if failed !in children {
        NoDescendants(s0, failed);
        return;
      }
      var frontier := children[failed];
      var seen: set<JobId> := {};
      WorklistStart(s0, failed);
      hide Worklist, I.ChildrenOk, M.SkipAll, M.Skip;
      while frontier != []
        invariant View() == M.SkipAll(s0, toSkip)
        invariant Worklist(s0, failed, frontier, seen, toSkip)
        decreases s0.rows.Keys - seen, |frontier|
      {
        var id := frontier[|frontier| - 1];
        WorklistHead(s0, failed, frontier, seen, toSkip);
        if id in seen {
          WorklistPop(s0, failed, frontier, seen, toSkip);
          frontier := frontier[..|frontier| - 1];
        } else {
          WorklistVisit(s0, failed, frontier, seen, toSkip);
          seen := seen + {id};
          if !IsTerminal(rows[id].state) {
            Skip(id);
            SkipAllSnoc(s0, toSkip, id);
            toSkip := toSkip + [id];
          }
          frontier := frontier[..|frontier| - 1] + if id in children then children[id] else [];
        }
      }
      WorklistDone(s0, failed, seen, toSkip);
    }

    /** Marks exactly the open descendants of `failed`, each once, and gives their slots back. */
    method SkipDescendants(failed: JobId) returns (toSkip: seq<JobId>)
      requires I.ChildrenOk(deps, children)
      requires forall e <- deps :: e.0 in rows && e.1 in rows
      modifies this`rows, this`updates, this`queue, this`outstanding
      ensures M.Lists(toSkip, M.OpenDescendants(old(View()), failed))
      ensures View() == M.ReleaseSlots(M.SkipAll(old(View()), toSkip), |toSkip|)
    {
      toSkip := MarkDescendants(failed);
      ghost var marked := View();
      for k := 0 to |toSkip|
        invariant View() == marked.(outstanding := marked.outstanding - k)
      {
        ReleaseSlot();
      }
    }

    method FinalizeWorkflow(w: WfId, failed: bool)
      modifies this`labels, this`finalized
      ensures Books() == M.Finalize(old(Books()), w, failed)
    {
      finalized := finalized + multiset{w};
      if w in labels && labels[w].WfRunning? {
        labels := labels[w := if failed then M.WfFailed else M.WfSucceeded];
      }
    }

    /** The completion counter: `n` nodes of `w` have just ended. */
    method CountNodes(w: WfId, failed: bool, n: nat)
      modifies this`labels, this`finalized, this`wfRemaining, this`wfFailures
      ensures Books() == M.CountNodes(old(Books()), w, failed, n)
    {
      if failed {
        wfFailures := wfFailures[w := (if w in wfFailures then wfFailures[w] else 0) + n];
      }
      if w in wfRemaining {
        wfRemaining := wfRemaining[w := wfRemaining[w] - n];
        if wfRemaining[w] <= 0 {
          var anyFailed := w in wfFailures && wfFailures[w] > 0;
          wfRemaining := wfRemaining - {w};
          wfFailures := wfFailures - {w};
          assert wfRemaining == old(wfRemaining) - {w};
          FinalizeWorkflow(w, anyFailed);
        }
      }
    }

    method OnTerminal(id: JobId, now: int) returns (ghost order: seq<JobId>)
      requires id in rows && IsTerminal(rows[id].state)
      requires I.ChildrenOk(deps, children)
      requires forall e <- deps :: e.0 in rows && e.1 in rows
      modifies this`rows, this`updates, this`queue, this`dropped, this`outstanding, this`pendingDeps
      modifies this`labels, this`finalized, this`wfRemaining, this`wfFailures
      ensures M.Lists(order, M.OpenDescendants(old(View()), id))
      ensures View() == M.OnTerminal(old(View()), id, now, order)
    {
      hide M.SkipAll, M.ReleaseDependents, M.CountNodes, M.OpenDescendants, I.ChildrenOk;
      order := ListOf(M.OpenDescendants(View(), id));
      var row := rows[id];
      if row.workflow.None? { return; }
      if row.state.Succeeded? {
        ReleaseDependents(id, now);
        CountNodes(row.workflow.value, false, 1);
      } else {
        var skipped := SkipDescendants(id);
        order := skipped;
        CountNodes(row.workflow.value, true, 1 + |skipped|);
      }
    }

    /** The tail shared by every way a job ends: write the row, do the books, give the slot back. */
    method Retire(id: JobId, row: Row, now: int) returns (ghost order: seq<JobId>)
      requires B.Retirable(View(), id, row)
      modifies this`rows, this`updates, this`queue, this`dropped, this`outstanding, this`pendingDeps
      modifies this`labels, this`finalized, this`wfRemaining, this`wfFailures
      ensures M.Lists(order, M.OpenDescendants(old(View()), id))
      ensures View() == M.Retire(old(View()), id, row, now, order)
    {
      hide I.Logged, I.Room, M.OnTerminal, I.CountsOk, I.WorkflowsOk, I.Propagated, M.Live;
      RetirableFacts(View(), id, row);
      Persist(id, row);
      order := OnTerminal(id, now);
      ReleaseSlot();
    }

    // ---- operations ----

    /** `e` is the event this call performed. */
    twostate predicate Performed(e: M.Event)
      reads this
    {
      M.Enabled(old(View()), e) && View() == M.Apply(old(View()), e) && Valid()
    }

    method Submit(id: JobId, maxAttempts: int, delay: int, now: int, typeKnown: bool, storeOk: bool)
      returns (status: M.SubmitStatus, ghost e: M.Event)
      requires Valid() && id !in rows
      modifies this
      ensures e == M.ESubmit(id, maxAttempts, delay, now, typeKnown, storeOk) && Performed(e)
      ensures status == M.Submit(old(View()), id, maxAttempts, delay, now, typeKnown, storeOk).1
      ensures status.SubmitUnknownType? <==> !typeKnown
      ensures status.SubmitQueueFull? <==> typeKnown && old(outstanding) >= capacity
      ensures status.SubmitStoreError? <==> typeKnown && old(outstanding) < capacity && !storeOk
    {
      hide I.Inv, M.Enqueue, M.InsertRow, M.FreshRow, M.Enabled, M.Apply;
      e := SubmitEvent(View(), id, maxAttempts, delay, now, typeKnown, storeOk);
      if !typeKnown { return M.SubmitUnknownType, e; }
      var reserved := ReserveSlot();
      if !reserved { return M.SubmitQueueFull, e; }
      if !storeOk {
        ReleaseSlot();
        return M.SubmitStoreError, e;
      }
      Admit(id, M.FreshRow(maxAttempts, delay, now, None, 0));
      status := M.SubmitOk;
    }

    /** A worker takes an entry that is due; which one is the queue's business. */
    method Pop(now: int) returns (id: JobId, ghost e: M.Event)
      requires Valid() && exists x <- queue :: x in rows && rows[x].readyAt <= now
      modifies this
      ensures e == M.EPop(id, now) && Performed(e)
    {
      hide I.Inv, M.Enabled, M.Apply;
      id :| id in queue && id in rows && rows[id].readyAt <= now;
      e := PopEvent(View(), id, now);
      queue := queue - {id};
      inHand := inHand + multiset{id};
    }

    method Start(id: JobId, row: Row, owner: string, remote: bool)
      modifies this`rows, this`updates, this`running
      ensures View() == M.Persist(old(View()), id, row).(
                          running := old(running)[
                            id := M.RunningInfo(row.leaseToken, owner, row.attempt, M.NoReason, remote)])
    {
      Persist(id, row);
      running := running[id := M.RunningInfo(row.leaseToken, owner, row.attempt, M.NoReason, remote)];
    }

    /** Turns a popped entry into a leased attempt, unless the job is no longer waiting or was cancelled. */
    method BeginAttempt(id: JobId, owner: string, remote: bool, token: nat, now: int)
      returns (started: bool, ghost e: M.Event)
      requires Valid() && id in inHand && token != 0
      modifies this
      ensures e.EBegin? && e == M.EBegin(id, owner, remote, token, now, e.order) && Performed(e)
      ensures started <==> id in old(rows) && IsWaiting(old(rows)[id].state) && !old(rows)[id].cancelRequested
    {
      hide I.Mid, I.Books, I.Inv, M.OpenDescendants, B.Retirable, M.Retire, M.Persist, M.Lists, M.Enabled, M.Apply;
      ghost var s := View();
      ghost var order := ListOf(M.OpenDescendants(s, id));
      BeginRetirable(s, id);
      inHand := inHand - multiset{id};
      started := false;
      if id in rows && IsWaiting(rows[id].state) {
        var row := rows[id];
        if row.cancelRequested {
          S.SameDescendants(s, View(), id);
          order := Retire(id, row.(state := Cancelled), now);
        } else {
          Start(id, row.(attempt := row.attempt + 1, state := Running, leaseToken := token), owner, remote);
          started := true;
        }
      }
      e := BeginEvent(s, id, owner, remote, token, now, order);
    }

    /** Records a result if the caller still holds the lease; discards it otherwise. */
    method Finish(id: JobId, token: nat, fromStore: bool, override: Option<M.CancelReason>, ok: bool, delay: nat,
                  now: int)
      returns (recorded: bool, ghost order: seq<JobId>)
      requires Valid()
      modifies this
      ensures M.Lists(order, M.OpenDescendants(old(View()), id))
      ensures View() == M.Finish(old(View()), id, token, fromStore, override, ok, delay, now, order)
      ensures recorded <==> id in old(running) && old(running)[id].token == token
      ensures !recorded ==> View() == old(View())
    {
      hide I.Mid, I.Books, I.Inv, M.OpenDescendants, B.Retirable, M.Retire, M.Enqueue, M.Persist, M.Lists,
           M.OutcomeState;
      ghost var s := View();
      order := ListOf(M.OpenDescendants(s, id));
      if id !in running || running[id].token != token { return false, order; }
      RunningRow(s, id);
      recorded := true;
      var reason := if override.Some? then override.value else running[id].reason;
      var row := rows[id];
      running := running - {id};
      var next := M.OutcomeState(row, reason, ok);
      OutcomeKinds(row, reason, ok);
      var copy := row.(leaseToken := 0, cancelRequested := fromStore && row.cancelRequested);
      if next.Retrying? {
        Requeue(id, copy.(state := Retrying, readyAt := now + delay));
      } else {
        FinishRetirable(s, id, next, copy.cancelRequested);
        S.SameDescendants(s, View(), id);
        order := Retire(id, copy.(state := next), now);
      }
    }

    /** finish_attempt of an in-process worker. */
    method FinishAttempt(id: JobId, token: nat, ok: bool, delay: nat, now: int)
      returns (recorded: bool, ghost e: M.Event)
      requires Valid()
      modifies this
      ensures e.EFinish? && e == M.EFinish(id, token, ok, delay, now, e.order) && Performed(e)
      ensures recorded <==> id in old(running) && old(running)[id].token == token
    {
      hide I.Inv, M.OpenDescendants, M.Finish, M.Lists, M.Enabled, M.Apply;
      ghost var s := View();
      ghost var order;
      recorded, order := Finish(id, token, false, None, ok, delay, now);
      e := FinishEvent(s, id, token, ok, delay, now, order);
    }

    /** A remote worker reports; accepted only for the lease, owner and attempt on record. */
    method Complete(worker: string, id: JobId, attempt: nat, token: nat, report: M.CancelReason, ok: bool, delay: nat,
                    now: int)
      returns (status: M.CompleteStatus, ghost e: M.Event)
      requires Valid()
      modifies this
      ensures e.EComplete? && e == M.EComplete(worker, id, attempt, token, report, ok, delay, now, e.order) &&
              Performed(e)
      ensures status.Accepted? <==> id in old(running) && old(running)[id].token == token
                                    && old(running)[id].owner == worker && old(running)[id].attempt == attempt
    {
      hide I.Inv, M.OpenDescendants, M.Finish, M.Lists, M.Enabled, M.Apply;
      ghost var s := View();
      ghost var order := ListOf(M.OpenDescendants(s, id));
      if id !in running || running[id].token != token || running[id].owner != worker || running[id].attempt != attempt {
        status := M.StaleLease;
      } else {
        var recorded;
        recorded, order := Finish(id, token, true, if report.NoReason? then None else Some(report), ok, delay, now);
        status := M.Accepted;
      }
      e := CompleteEvent(s, worker, id, attempt, token, report, ok, delay, now, order);
    }

    method Cancel(id: JobId, now: int) returns (status: M.CancelStatus, ghost e: M.Event)
      requires Valid()
      modifies this
      ensures e.ECancel? && e == M.ECancel(id, now, e.order) && Performed(e)
      ensures status == M.Cancel(old(View()), id, now, e.order).1
      ensures status.CancelNotFound? <==> id !in old(rows)
      ensures status.CancelAlreadyTerminal? <==> id in old(rows) && IsTerminal(old(rows)[id].state)
    {
      hide I.Mid, I.Books, I.Inv, M.OpenDescendants, B.Retirable, M.Retire, M.Lists, M.Enabled, M.Apply;
      ghost var s := View();
      ghost var order := ListOf(M.OpenDescendants(s, id));
      if id !in rows {
        status := M.CancelNotFound;
      } else if IsTerminal(rows[id].state) {
        status := M.CancelAlreadyTerminal;
      } else {
        var row := rows[id].(cancelRequested := true);
        if row.state.Running? {
          Persist(id, row);
          if id in running { running := running[id := running[id].(reason := M.UserReason)]; }
        } else {
          CancelRetirable(s, id, row.(state := Cancelled));
          queue := queue - {id};
          S.SameDescendants(s, View(), id);
          order := Retire(id, row.(state := Cancelled), now);
        }
        status := M.CancelOk;
      }
      e := CancelEvent(s, id, now, order);
    }

    /**
     Marks the workflow first, then cancels each of its nodes that is open. `nodes` is what the store lists; afterwards
     every node has ended, or runs with the request on its row and on its attempt.
     */
    method CancelWorkflow(w: WfId, nodes: seq<JobId>, now: int)
      returns (status: M.CancelStatus, ghost events: seq<M.Event>)
      requires Valid() && M.Lists(nodes, NodesOf(rows, w))
      modifies this
      ensures status.CancelNotFound? <==> w !in old(labels)
      ensures status.CancelOk? <==> w in old(labels) && old(labels)[w].WfRunning?
      ensures status.CancelOk? ==> w in labels && labels[w].WfCancelled?
      ensures status.CancelOk? ==> forall x <- NodesOf(old(rows), w) :: C.Stopped(View(), x)
      ensures !status.CancelOk? ==> View() == old(View())
      ensures Valid() && Performs(old(View()), events, View())
    {
      hide I.Inv, M.Enabled, M.Apply, H.LabelsKept, C.Stopped;
      events := [];
      ghost var s := View();
      if w !in labels { return M.CancelNotFound, events; }
      if !labels[w].WfRunning? { return M.CancelAlreadyTerminal, events; }
      MarkEvent(s, w);
      labels := labels[w := M.WfCancelled];
      events := [M.EMarkCancelled(w)];
      PerformOne(s, M.EMarkCancelled(w));
      for k := 0 to |nodes|
        invariant Valid() && w in labels && labels[w].WfCancelled?
        invariant Performs(s, events, View())
        invariant forall x <- nodes :: x in rows
        invariant forall i :: 0 <= i < k ==> C.Stopped(View(), nodes[i])
      {
        if IsTerminal(rows[nodes[k]].state) {
          EndedIsStopped(View(), nodes[k]);
        } else {
          ghost var t := View();
          ghost var e;
          var nodeStatus;
          nodeStatus, e := Cancel(nodes[k], now);
          PerformMore(s, events, t, e);
          LabelStays(t, e, w);
          StoppedAfter(t, e, nodes, k);
          events := events + [e];
        }
      }
      status := M.CancelOk;
    }

    /** The watchdog finds a deadline passed. */
    method PassDeadline(id: JobId) returns (ghost e: M.Event)
      requires Valid()
      modifies this
      ensures e == M.EDeadline(id) && Performed(e)
    {
      hide I.Inv;
      e := M.EDeadline(id);
      Runs.StepKeepsInv(View(), e);
      if id in running && running[id].reason.NoReason? {
        running := running[id := running[id].(reason := M.TimeoutReason)];
      }
    }

    /** The watchdog takes back the lease of one job on its list. */
    method ExpireLease(id: JobId, now: int) returns (ghost e: M.Event)
      requires Valid()
      modifies this
      ensures e.EExpire? && e == M.EExpire(id, now, e.order) && Performed(e)
    {
      hide I.Mid, I.Books, I.Inv, M.OpenDescendants, B.Retirable, M.Retire, M.Enqueue, M.Persist, M.Lists, M.Enabled,
           M.Apply;
      ghost var s := View();
      ghost var order := ListOf(M.OpenDescendants(s, id));
      if id in running {
        RunningRow(s, id);
        running := running - {id};
        var row := rows[id].(leaseToken := 0);
        if row.attempt >= row.maxAttempts {
          FinishRetirable(s, id, Failed, row.cancelRequested);
          S.SameDescendants(s, View(), id);
          order := Retire(id, row.(state := Failed), now);
        } else {
          Requeue(id, row.(state := Queued, readyAt := now));
        }
      }
      e := ExpireEvent(s, id, now, order);
    }

    // ---- workflow submission ----

    /** One slot per node, all or none. */
    method ReserveAll(n: nat) returns (ok: bool)
      requires n > 0
      modifies this`outstanding
      ensures ok <==> old(outstanding) + n <= capacity
      ensures ok ==> View() == old(View()).(outstanding := outstanding) && outstanding == old(outstanding) + n
      ensures !ok ==> View() == old(View())
    {
      var reserved := 0;
      ok := true;
      while reserved < n && ok
        invariant reserved <= n && outstanding == old(outstanding) + reserved
        invariant ok ==> reserved == 0 || outstanding <= capacity
        invariant !ok ==> reserved < n && outstanding >= capacity
        decreases n - reserved, ok
      {
        ok := ReserveSlot();
        if ok { reserved := reserved + 1; }
      }
      if !ok {
        for k := 0 to reserved
          invariant outstanding == old(outstanding) + reserved - k
        {
          ReleaseSlot();
        }
      }
    }

    method ReleaseAll(n: nat)
      modifies this`outstanding
      ensures View() == old(View()).(outstanding := old(outstanding) - n)
    {
      for k := 0 to n
        invariant outstanding == old(outstanding) - k
      {
        ReleaseSlot();
      }
    }

    method LinkChildren(edges: seq<M.Edge>)
      modifies this`children
      ensures children == M.AddChildren(old(children), edges)
    {
      for k := 0 to |edges|
        invariant children == M.AddChildren(old(children), edges[..k])
      {
        assert edges[..k + 1][..k] == edges[..k];
        var (p, c) := edges[k];
        children := children[p := (if p in children then children[p] else []) + [c]];
      }
      assert edges[..|edges|] == edges;
    }

    method RecordCounts(ids: seq<JobId>, nodes: M.Rows)
      requires nodes.Keys == Elems(ids)
      modifies this`pendingDeps
      ensures pendingDeps == old(pendingDeps) + M.NodeCounts(nodes)
    {
      for k := 0 to |ids|
        invariant pendingDeps == old(pendingDeps) + map x | x in nodes && x in ids[..k] :: nodes[x].pendingDeps
      {
        assert ids[k] in nodes;
        assert ids[..k + 1] == ids[..k] + [ids[k]];
        pendingDeps := pendingDeps[ids[k] := nodes[ids[k]].pendingDeps];
      }
      assert ids[..|ids|] == ids;
      assert (map x | x in nodes && x in ids[..|ids|] :: nodes[x].pendingDeps) == M.NodeCounts(nodes);
    }

    method EnqueueRoots(ids: seq<JobId>, nodes: M.Rows)
      requires nodes.Keys == Elems(ids)
      modifies this`queue, this`dropped
      ensures View() == M.EnqueueAll(old(View()), M.Roots(nodes, ids))
    {
      hide M.Enqueue;
      for k := 0 to |ids|
        invariant View() == M.EnqueueAll(old(View()), M.Roots(nodes, ids[..k]))
      {
        assert ids[k] in nodes;
        assert ids[..k + 1][..k] == ids[..k];
        ghost var before := M.Roots(nodes, ids[..k]);
        if !nodes[ids[k]].state.Pending? {
          var _ := Enqueue(ids[k]);
          assert (before + [ids[k]])[..|before|] == before;
        } else {
          assert before + [] == before;
        }
      }
      assert ids[..|ids|] == ids;
    }

    /** insert_workflow: one transaction over three tables. */
    method InsertTables(w: WfId, edges: seq<M.Edge>, nodes: M.Rows)
      modifies this`rows, this`base, this`deps, this`labels
      ensures View() == old(View()).(rows := old(rows) + nodes, base := old(base) + nodes,
                                     deps := old(deps) + Elems(edges),
                                     wf := old(Books()).(labels := old(labels)[w := M.WfRunning]))
    {
      hide Elems;
      rows := rows + nodes;
      base := base + nodes;
      deps := deps + Elems(edges);
      labels := labels[w := M.WfRunning];
    }

    /** The in-memory graph and counters of the new workflow, under wf_mutex_. */
    method StartCounters(w: WfId, ids: seq<JobId>, edges: seq<M.Edge>, nodes: M.Rows)
      requires nodes.Keys == Elems(ids)
      modifies this`children, this`pendingDeps, this`wfRemaining, this`wfFailures
      ensures View() == old(View()).(children := M.AddChildren(old(children), edges),
                                     pendingDeps := old(pendingDeps) + M.NodeCounts(nodes),
                                     wf := old(Books()).(remaining := old(wfRemaining)[w := |ids|],
                                                         failures := old(wfFailures)[w := 0]))
    {
      hide M.AddChildren, M.NodeCounts, Elems;
      LinkChildren(edges);
      RecordCounts(ids, nodes);
      wfRemaining := wfRemaining[w := |ids|];
      wfFailures := wfFailures[w := 0];
    }

    /** The accepted case: tables and counters grow, then the roots are pushed. */
    method Install(w: WfId, ids: seq<JobId>, edges: seq<M.Edge>, nodes: M.Rows)
      requires nodes.Keys == Elems(ids)
      modifies this
      ensures View() ==
              M.EnqueueAll(A.Grown(old(View()).(outstanding := old(outstanding) - |ids|), w, ids, nodes, edges),
                           M.Roots(nodes, ids))
    {
      hide M.AddChildren, M.NodeCounts, M.Roots, M.EnqueueAll, Elems;
      InsertTables(w, edges, nodes);
      StartCounters(w, ids, edges, nodes);
      EnqueueRoots(ids, nodes);
    }

    method Insert(w: WfId, ids: seq<JobId>, specs: seq<M.NodeSpec>, idEdges: seq<M.Edge>, ghost indexed: seq<Kahn.Edge>,
                  indegree: seq<nat>, now: int, ghost s: M.State) returns (ghost e: M.Event)
      requires |ids| == |specs| == |indegree| > 0 && Distinct(ids)
      requires s == View().(outstanding := outstanding - |ids|) && I.Inv(s) && WorkflowFits(s, w, ids)
      requires Kahn.InRange(|ids|, indexed) && idEdges == W.IdEdges(ids, indexed) && Distinct(idEdges)
      requires Ranked<nat>(Kahn.EdgeSet(indexed))
      requires forall m :: 0 <= m < |ids| ==> indegree[m] == Kahn.Unmet(indexed, {}, m)
      modifies this
      ensures e == M.EWorkflow(w, ids, specs, idEdges, now)
      ensures M.Enabled(s, e) && View() == M.Apply(s, e) && I.Inv(View())
    {
      hide I.Inv, M.Apply, M.Enabled, M.AddWorkflow, M.NodeRows, Kahn.Unmet, Distinct, WorkflowFits, Kahn.InRange,
           W.IdEdges, Ranked;
      hide A.Grown, M.Roots, M.EnqueueAll, Elems, View;
      e := WorkflowEvent(s, w, ids, specs, idEdges, indexed, now);
      var nodes := BuildNodes(w, ids, specs, idEdges, indexed, indegree, now);
      AddIsGrow(s, w, ids, specs, idEdges, now);
      Install(w, ids, idEdges, nodes);
    }

    lemma FitsBefore(w: WfId, ids: seq<JobId>)
      requires (forall x <- ids :: x !in rows) && w !in labels
      ensures outstanding + |ids| <= capacity ==> WorkflowFits(View(), w, ids)
      ensures View().outstanding == outstanding
    {
    }

    /**
     Accepts a workflow whole or not at all: exactly when the graph passes the checks, a slot is free
     for every node, and the store takes the rows (a repeated edge violates its primary key).
     */
    method SubmitWorkflow(w: WfId, names: seq<string>, known: seq<bool>, specs: seq<M.NodeSpec>,
                          edges: seq<(string, string)>, ids: seq<JobId>, now: int, storeOk: bool)
      returns (status: G.WorkflowStatus, ghost e: M.Event)
      requires Valid() && |names| == |known| == |specs| == |ids|
      requires Distinct(ids) && (forall x <- ids :: x !in rows) && w !in labels
      modifies this
      ensures status.WfOk? <==>
                && G.NodesOk(names, known) && G.EdgesOk(names, edges) && !HasCycle(Elems(edges))
                && old(outstanding) + |ids| <= capacity && Distinct(edges) && storeOk
      ensures status.WfOk? ==> e == M.EWorkflow(w, ids, specs, W.EdgesByName(names, ids, edges), now) && Performed(e)
      ensures !status.WfOk? ==> View() == old(View())
      ensures status.Empty? <==> names == []
      ensures status.DuplicateNode? <==> exists k :: G.RepeatsAt(names, known, k)
      ensures status.UnknownType? <==> exists k :: G.UnknownAt(names, known, k)
      ensures status.UnknownNodeRef? <==> G.NodesOk(names, known) && exists k :: G.DanglesAt(names, edges, k)
      ensures status.SelfEdge? <==> G.NodesOk(names, known) && exists k :: G.LoopsAt(names, edges, k)
      ensures status.Cycle? <==> G.NodesOk(names, known) && G.EdgesOk(names, edges) && HasCycle(Elems(edges))
      ensures status.QueueFull? <==>
                && G.NodesOk(names, known) && G.EdgesOk(names, edges) && !HasCycle(Elems(edges))
                && old(outstanding) + |ids| > capacity
    {
      hide G.RepeatsAt, G.UnknownAt, G.DanglesAt, G.LoopsAt;
      hide I.Inv, M.Apply, M.Enabled, M.AddWorkflow, M.NodeRows, HasCycle, Kahn.Unmet, WorkflowFits, View, G.EdgesOk,
           Distinct, Kahn.InRange, Elems, Ranked;
      ghost var s := View();
      FitsBefore(w, ids);
      e := M.EMarkCancelled(w);
      var indexed, indegree;
      status, indexed, indegree := G.CheckWorkflow(names, known, edges);
      if !status.WfOk? { return; }
      var reserved := ReserveAll(|names|);
      if !reserved { return G.QueueFull, e; }
      assert forall k :: 0 <= k < |edges| ==> indexed[k] in indexed;
      W.SameDistinctness(names, edges, ids, indexed);
      W.IdEdgesByName(names, edges, ids, indexed);
      var idEdges := W.IdEdges(ids, indexed);
      var repeated := HasRepeats(idEdges);
      if !storeOk || repeated {
        ReleaseAll(|ids|);
        return G.StoreError, e;
      }
      e := Insert(w, ids, specs, idEdges, indexed, indegree, now, s);
    }

    // ---- recovery ----

    /** A new engine over the tables that a dead process, in state `s`, left behind. */
    constructor Over(ghost s: M.State, ghost kept: nat, max: nat, table: M.Rows, edges: set<M.Edge>,
                     wfs: map<WfId, M.WfLabel>)
      requires kept <= |s.updates|
      requires table == M.Replay(s.base, s.updates[..kept])
      requires max == s.capacity && edges == s.deps && wfs == s.wf.labels
      ensures View() == Blank(s, kept)
    {
      capacity := max;
      rows, deps, labels := table, edges, wfs;
      queue, inHand, running, outstanding := {}, multiset{}, map[], 0;
      children, pendingDeps, wfRemaining, wfFailures := map[], map[], map[], map[];
      base, updates, crashes, dropped, finalized := table, [], s.crashes + 1, {}, s.wf.finalized;
      oversized := |M.Live(table)| > s.capacity;
    }

    /** One pass over the nodes of a workflow. */
    method CountWorkflow(w: WfId, nodes: seq<JobId>) returns (open: nat, failed: nat)
      requires M.Lists(nodes, NodesOf(rows, w))
      ensures open == |M.OpenNodes(rows, w)| && failed == |M.FailedNodes(rows, w)|
    {
      ghost var opens, fails := M.OpenNodes(rows, w), M.FailedNodes(rows, w);
      open, failed := 0, 0;
      for k := 0 to |nodes|
        invariant open == |Elems(nodes[..k]) * opens| && failed == |Elems(nodes[..k]) * fails|
      {
        assert nodes[k] in nodes;
        AmongNext(nodes, k, opens);
        AmongNext(nodes, k, fails);
        if !IsTerminal(rows[nodes[k]].state) {
          open := open + 1;
        } else if !rows[nodes[k]].state.Succeeded? {
          failed := failed + 1;
        }
      }
      assert nodes[..|nodes|] == nodes;
      assert Elems(nodes) * opens == opens && Elems(nodes) * fails == fails;
    }

    /** The workflows that have a job to recover. */
    method WorkflowsToRecover(pending: seq<JobId>) returns (ids: set<WfId>)
      requires M.Lists(pending, M.Live(rows))
      ensures ids == M.OpenWorkflows(rows)
    {
      ids := {};
      for k := 0 to |pending|
        invariant ids == WorkflowsAmong(rows, pending[..k])
      {
        assert pending[k] in pending && pending[..k + 1] == pending[..k] + [pending[k]];
        if rows[pending[k]].workflow.Some? { ids := ids + {rows[pending[k]].workflow.value}; }
        assert ids == WorkflowsAmong(rows, pending[..k + 1]);
      }
      assert pending[..|pending|] == pending;
      assert ids == M.OpenWorkflows(rows);
    }

    /** Rebuilds the completion counters of every workflow that has an open node. */
    method Recount(pending: seq<JobId>, nodes: map<WfId, seq<JobId>>)
      requires M.Lists(pending, M.Live(rows)) && wfRemaining == map[] && wfFailures == map[]
      requires forall w <- M.OpenWorkflows(rows) :: w in nodes && M.Lists(nodes[w], NodesOf(rows, w))
      modifies this`wfRemaining, this`wfFailures
      ensures Books() == M.RecountNodes(old(Books()), rows)
    {
      hide M.OpenNodes, M.FailedNodes, NodesOf;
      var todo := WorkflowsToRecover(pending);
      ghost var all := todo;
      assert all - todo == {};
      while todo != {}
        invariant todo <= all
        invariant wfRemaining == M.OpenCounts(rows, all - todo) && wfFailures == M.FailureCounts(rows, all - todo)
        decreases todo
      {
        var w :| w in todo;
        var open, failed := CountWorkflow(w, nodes[w]);
        CountsNext(rows, all - todo, w);
        assert all - (todo - {w}) == all - todo + {w};
        wfRemaining := wfRemaining[w := open];
        if failed > 0 { wfFailures := wfFailures[w := failed]; }
        todo := todo - {w};
      }
      assert all - todo == all;
    }

    method RecoverJobs(pending: seq<JobId>, now: int)
      requires forall x <- pending :: x in rows
      modifies this`rows, this`updates, this`queue, this`dropped, this`outstanding
      ensures View() == M.RecoverAll(old(View()), pending, now)
    {
      hide M.Enqueue, M.Persist;
      for k := 0 to |pending|
        invariant View() == M.RecoverAll(old(View()), pending[..k], now)
        invariant rows.Keys == old(rows).Keys
      {
        assert pending[k] in pending && pending[..k + 1][..k] == pending[..k];
        ghost var before := View();
        RecoverJob(pending[k], now);
        Rec.RecoverRows(before, pending[k], now);
      }
      assert pending[..|pending|] == pending;
    }

    method RecoverJob(id: JobId, now: int)
      requires id in rows
      modifies this`rows, this`updates, this`queue, this`dropped, this`outstanding
      ensures View() == M.Recover(old(View()), id, now)
    {
      hide M.Enqueue;
      outstanding := outstanding + 1;
      if rows[id].state.Running? {
        Persist(id, rows[id].(state := Queued, leaseToken := 0, readyAt := now));
      }
      if IsWaiting(rows[id].state) {
        var _ := Enqueue(id);
      }
    }

    /** The first half of recover(): graph and counters. */
    method Rebuild(pending: seq<JobId>, edgeOrder: seq<M.Edge>, nodes: map<WfId, seq<JobId>>)
      requires M.Lists(pending, M.Live(rows)) && wfRemaining == map[] && wfFailures == map[] && pendingDeps == map[]
      requires forall w <- M.OpenWorkflows(rows) :: w in nodes && M.Lists(nodes[w], NodesOf(rows, w))
      modifies this`wfRemaining, this`wfFailures, this`children, this`pendingDeps
      ensures View() == old(View()).(wf := M.RecountNodes(old(Books()), rows),
                                     children := M.AddChildren(old(children), edgeOrder),
                                     pendingDeps := M.LiveCounts(rows))
    {
      hide M.AddChildren, M.RecountNodes, M.OpenWorkflows, M.Live, M.LiveCounts, NodesOf, M.Lists;
      Recount(pending, nodes);
      LinkChildren(edgeOrder);
      RecoverCounts(pending);
    }

    /**
     recover(): the whole of it is the restart step of the state machine, whether the process in state `s` died
     between two operations or in the operation `during`.
     */
    method RecoverEngine(ghost s: M.State, ghost during: Option<M.Event>, ghost kept: nat, pending: seq<JobId>,
                         edgeOrder: seq<M.Edge>, nodes: map<WfId, seq<JobId>>, now: int) returns (ghost e: M.Event)
      requires I.Inv(s) && (during.Some? ==> M.OpEnabled(s, during.value))
      requires kept <= |M.Crashed(s, during).updates| && View() == Blank(M.Crashed(s, during), kept)
      requires M.Lists(pending, M.Live(rows)) && M.Lists(edgeOrder, deps)
      requires forall w <- M.OpenWorkflows(rows) :: w in nodes && M.Lists(nodes[w], NodesOf(rows, w))
      modifies this
      ensures e == M.ERestart(during, kept, pending, edgeOrder, now)
      ensures M.Enabled(s, e) && View() == M.Apply(s, e) && Valid()
    {
      hide I.Inv, M.AddChildren, M.RecountNodes, M.RecoverAll, M.OpenWorkflows, M.Live, M.LiveCounts, NodesOf,
           M.Enabled, M.Apply, M.Crashed, M.OpEnabled;
      e := RestartEvent(s, during, kept, pending, edgeOrder, now);
      ReopenIsRebuilt(M.Crashed(s, during), kept, edgeOrder);
      assert forall x <- pending :: x in rows by { LiveInRows(rows); }
      Rebuild(pending, edgeOrder, nodes);
      RecoverJobs(pending, now);
    }

    method RecoverCounts(pending: seq<JobId>)
      requires M.Lists(pending, M.Live(rows)) && pendingDeps == map[]
      modifies this`pendingDeps
      ensures pendingDeps == M.LiveCounts(rows)
    {
      for k := 0 to |pending|
        invariant pendingDeps == map x | x in M.Live(rows) && x in pending[..k] :: rows[x].pendingDeps
      {
        assert pending[k] in pending && pending[..k + 1] == pending[..k] + [pending[k]];
        pendingDeps := pendingDeps[pending[k] := rows[pending[k]].pendingDeps];
      }
      assert pending[..|pending|] == pending;
      assert forall x <- M.Live(rows) :: x in pending;
    }
  }

  function NodesOf(rows: M.Rows, w: WfId): set<JobId> {
    set x | x in rows && rows[x].workflow == Some(w)
  }

  ghost function WorkflowsAmong(rows: M.Rows, xs: seq<JobId>): set<WfId> {
    set x | x in xs && x in rows && rows[x].workflow.Some? :: rows[x].workflow.value
  }

  lemma AmongNext(xs: seq<JobId>, k: nat, s: set<JobId>)
    requires Distinct(xs) && k < |xs|
    ensures |Elems(xs[..k + 1]) * s| == |Elems(xs[..k]) * s| + if xs[k] in s then 1 else 0
  {
    assert xs[..k + 1] == xs[..k] + [xs[k]] && xs[k] !in xs[..k];
    if xs[k] in s {
      assert Elems(xs[..k + 1]) * s == Elems(xs[..k]) * s + {xs[k]};
    } else {
      assert Elems(xs[..k + 1]) * s == Elems(xs[..k]) * s;
    }
  }

  lemma CountsNext(rows: M.Rows, done: set<WfId>, w: WfId)
    ensures M.OpenCounts(rows, done + {w}) == M.OpenCounts(rows, done)[w := |M.OpenNodes(rows, w)|]
    ensures M.FailureCounts(rows, done + {w}) ==
            if |M.FailedNodes(rows, w)| > 0 then M.FailureCounts(rows, done)[w := |M.FailedNodes(rows, w)|]
            else M.FailureCounts(rows, done)
  {
    hide M.OpenNodes, M.FailedNodes;
  }

  lemma LiveInRows(rows: M.Rows)
    ensures forall x <- M.Live(rows) :: x in rows
  {
  }

  lemma ReopenIsRebuilt(s: M.State, kept: nat, edgeOrder: seq<M.Edge>)
    requires kept <= |s.updates|
    ensures M.Reopen(s, kept, edgeOrder) ==
            var b := Blank(s, kept);
            b.(wf := M.RecountNodes(b.wf, b.rows), children := M.AddChildren(map[], edgeOrder),
               pendingDeps := M.LiveCounts(b.rows))
  {
    hide M.AddChildren, M.LiveCounts, M.OpenWorkflows, M.OpenCounts, M.FailureCounts, M.Replay, M.Live;
  }

  /** A fresh process over the tables `s` left with `kept` of its updates committed. */
  ghost function Blank(s: M.State, kept: nat): M.State
    requires kept <= |s.updates|
  {
    var rows := M.Replay(s.base, s.updates[..kept]);
    M.State(s.capacity, rows, s.deps, s.wf.(remaining := map[], failures := map[]), {}, multiset{}, map[], 0, map[],
            map[], rows, [], s.crashes + 1, |M.Live(rows)| > s.capacity, {})
  }

  lemma RestartEvent(s: M.State, during: Option<M.Event>, kept: nat, order: seq<JobId>, edgeOrder: seq<M.Edge>,
                     now: int)
    returns (e: M.Event)
    requires I.Inv(s) && (during.Some? ==> M.OpEnabled(s, during.value))
    requires kept <= |M.Crashed(s, during).updates|
    requires var u := M.Crashed(s, during);
             M.Lists(order, M.Live(M.Replay(u.base, u.updates[..kept]))) && M.Lists(edgeOrder, u.deps)
    ensures e == M.ERestart(during, kept, order, edgeOrder, now) && M.Enabled(s, e)
    ensures M.Apply(s, e) == M.RecoverAll(M.Reopen(M.Crashed(s, during), kept, edgeOrder), order, now)
    ensures I.Inv(M.Apply(s, e))
  {
    hide I.Inv, M.Crashed, M.OpEnabled;
    e := M.ERestart(during, kept, order, edgeOrder, now);
    Runs.StepKeepsInv(s, e);
  }

  method HasRepeats(edges: seq<M.Edge>) returns (repeated: bool)
    ensures repeated <==> !Distinct(edges)
  {
    var seen: set<M.Edge> := {};
    for k := 0 to |edges|
      invariant Distinct(edges[..k]) && seen == Elems(edges[..k])
    {
      if edges[k] in seen {
        assert edges[k] in edges[..k];
        return true;
      }
      seen := seen + {edges[k]};
      assert edges[..k + 1] == edges[..k] + [edges[k]];
    }
    assert edges[..|edges|] == edges;
    repeated := false;
  }

  /** The job rows of a workflow, each with its indegree as dependency count. */
  method BuildNodes(w: WfId, ids: seq<JobId>, specs: seq<M.NodeSpec>, ghost edges: seq<M.Edge>,
                    ghost indexed: seq<Kahn.Edge>,
                    indegree: seq<nat>, now: int) returns (nodes: M.Rows)
    requires |ids| == |specs| == |indegree| && Distinct(ids)
    requires Kahn.InRange(|ids|, indexed) && edges == W.IdEdges(ids, indexed) && Distinct(edges)
    requires forall m :: 0 <= m < |ids| ==> indegree[m] == Kahn.Unmet(indexed, {}, m)
    ensures nodes == M.NodeRows(w, ids, specs, Elems(edges), now)
  {
    nodes := map[];
    for k := 0 to |ids|
      invariant nodes == M.NodeRows(w, ids[..k], specs[..k], Elems(edges), now)
    {
      W.IndegreeIsInto(ids, indexed, k);
      assert ids[..k + 1][..k] == ids[..k] && specs[..k + 1][..k] == specs[..k];
      nodes := nodes[ids[k] := M.FreshRow(specs[k].maxAttempts, specs[k].delay, now, Some(w), indegree[k])];
    }
    assert ids[..|ids|] == ids && specs[..|specs|] == specs;
  }

  ghost predicate WorkflowFits(s: M.State, w: WfId, ids: seq<JobId>) {
    (forall x <- ids :: x !in s.rows) && w !in s.wf.labels && s.outstanding + |ids| <= s.capacity
  }

  lemma AddIsGrow(s: M.State, w: WfId, ids: seq<JobId>, specs: seq<M.NodeSpec>, edges: seq<M.Edge>, now: int)
    requires |ids| == |specs|
    ensures var nodes := M.NodeRows(w, ids, specs, Elems(edges), now);
            && nodes.Keys == Elems(ids)
            && M.AddWorkflow(s, w, ids, specs, edges, now) ==
               M.EnqueueAll(A.Grown(s, w, ids, nodes, edges), M.Roots(nodes, ids))
  {
    hide M.NodeRows, M.EnqueueAll, M.Roots, M.NodeCounts, M.AddChildren;
    A.NodeRowsFresh(w, ids, specs, Elems(edges), now);
  }

  lemma WorkflowEvent(s: M.State, w: WfId, ids: seq<JobId>, specs: seq<M.NodeSpec>, edges: seq<M.Edge>,
                      indexed: seq<Kahn.Edge>, now: int)
    returns (e: M.Event)
    requires I.Inv(s) && |ids| == |specs| > 0 && Distinct(ids) && WorkflowFits(s, w, ids)
    requires Kahn.InRange(|ids|, indexed) && edges == W.IdEdges(ids, indexed) && Distinct(edges)
    requires Ranked<nat>(Kahn.EdgeSet(indexed))
    ensures e == M.EWorkflow(w, ids, specs, edges, now) && M.Enabled(s, e)
    ensures M.Apply(s, e) == M.AddWorkflow(s, w, ids, specs, edges, now) && I.Inv(M.Apply(s, e))
  {
    hide I.Inv, M.AddWorkflow;
    e := M.EWorkflow(w, ids, specs, edges, now);
    W.IdEdgesInIds(ids, indexed);
    W.IdEdgesRanked(ids, indexed);
    Runs.StepKeepsInv(s, e);
  }

  // ---- what the operations need of the invariant ----

  lemma RunningRow(s: M.State, id: JobId)
    requires I.Inv(s) && id in s.running
    ensures id in s.rows && s.rows[id].state.Running?
  {
    hide I.Logged, I.Room, I.Books;
    S.TakeRunning(s, id);
  }

  lemma BeginRetirable(s: M.State, id: JobId)
    requires I.Inv(s) && id in s.inHand
    ensures id in s.rows && IsWaiting(s.rows[id].state) ==>
              B.Retirable(s.(inHand := s.inHand - multiset{id}), id, s.rows[id].(state := Cancelled))
  {
    hide I.Logged, I.Room, I.Books, I.Placed, B.Retirable, M.OpenDescendants;
    S.TakeInHand(s, id);
    var order := ListOf(M.OpenDescendants(s, id));
    if IsWaiting(s.rows[id].state) {
      H.RetirementShape(s, s.(inHand := s.inHand - multiset{id}), id, s.rows[id].(state := Cancelled), order);
    }
  }

  lemma OutcomeKinds(row: Row, reason: M.CancelReason, ok: bool)
    ensures var next := M.OutcomeState(row, reason, ok);
            next.Retrying? || next.Succeeded? || next.Failed? || next.TimedOut? || next.Cancelled?
  {
  }

  /** Any outcome but a retry ends the attempt that `id` is running. */
  lemma FinishRetirable(s: M.State, id: JobId, next: JobState, flag: bool)
    requires I.Inv(s) && id in s.running && id in s.rows && s.rows[id].state.Running?
    requires next.Succeeded? || next.Failed? || next.TimedOut? || next.Cancelled?
    ensures B.Retirable(s.(running := s.running - {id}), id,
                        s.rows[id].(leaseToken := 0, cancelRequested := flag, state := next))
  {
    hide I.Logged, I.Room, I.Books, I.Placed, B.Retirable, M.OpenDescendants;
    S.TakeRunning(s, id);
    var order := ListOf(M.OpenDescendants(s, id));
    var row := s.rows[id].(leaseToken := 0, cancelRequested := flag, state := next);
    H.RetirementShape(s, s.(running := s.running - {id}), id, row, order);
  }

  lemma CancelRetirable(s: M.State, id: JobId, row: Row)
    requires I.Inv(s) && id in s.rows && !IsTerminal(s.rows[id].state) && !s.rows[id].state.Running?
    requires row.state.Cancelled? && H.RowStep(s.rows[id], row)
    ensures B.Retirable(s.(queue := s.queue - {id}), id, row)
  {
    hide I.Logged, I.Room, I.Books, I.Placed, B.Retirable, M.OpenDescendants;
    S.Dequeue(s, id);
    var order := ListOf(M.OpenDescendants(s, id));
    H.RetirementShape(s, s.(queue := s.queue - {id}), id, row, order);
  }

  // ---- each operation as an event ----

  lemma SubmitEvent(s: M.State, id: JobId, maxAttempts: int, delay: int, now: int, typeKnown: bool, storeOk: bool)
    returns (e: M.Event)
    requires I.Inv(s) && id !in s.rows
    ensures e == M.ESubmit(id, maxAttempts, delay, now, typeKnown, storeOk) && M.Enabled(s, e)
    ensures M.Apply(s, e) == M.Submit(s, id, maxAttempts, delay, now, typeKnown, storeOk).0 && I.Inv(M.Apply(s, e))
  {
    hide I.Inv;
    e := M.ESubmit(id, maxAttempts, delay, now, typeKnown, storeOk);
    Runs.StepKeepsInv(s, e);
  }

  lemma PopEvent(s: M.State, id: JobId, now: int) returns (e: M.Event)
    requires I.Inv(s) && id in s.queue && id in s.rows && s.rows[id].readyAt <= now
    ensures e == M.EPop(id, now) && M.Enabled(s, e) && M.Apply(s, e) == M.Pop(s, id) && I.Inv(M.Apply(s, e))
  {
    hide I.Inv;
    e := M.EPop(id, now);
    Runs.StepKeepsInv(s, e);
  }

  lemma BeginEvent(s: M.State, id: JobId, owner: string, remote: bool, token: nat, now: int, order: seq<JobId>)
    returns (e: M.Event)
    requires I.Inv(s) && id in s.inHand && token != 0 && M.Lists(order, M.OpenDescendants(s, id))
    ensures e == M.EBegin(id, owner, remote, token, now, order) && M.Enabled(s, e)
    ensures M.Apply(s, e) == M.Begin(s, id, owner, remote, token, now, order) && I.Inv(M.Apply(s, e))
  {
    hide I.Inv;
    e := M.EBegin(id, owner, remote, token, now, order);
    Runs.StepKeepsInv(s, e);
  }

  lemma FinishEvent(s: M.State, id: JobId, token: nat, ok: bool, delay: nat, now: int, order: seq<JobId>)
    returns (e: M.Event)
    requires I.Inv(s) && M.Lists(order, M.OpenDescendants(s, id))
    ensures e == M.EFinish(id, token, ok, delay, now, order) && M.Enabled(s, e)
    ensures M.Apply(s, e) == M.Finish(s, id, token, false, None, ok, delay, now, order) && I.Inv(M.Apply(s, e))
  {
    hide I.Inv;
    e := M.EFinish(id, token, ok, delay, now, order);
    Runs.StepKeepsInv(s, e);
  }

  lemma CompleteEvent(s: M.State, worker: string, id: JobId, attempt: nat, token: nat, report: M.CancelReason, ok: bool,
                      delay: nat, now: int, order: seq<JobId>) returns (e: M.Event)
    requires I.Inv(s) && M.Lists(order, M.OpenDescendants(s, id))
    ensures e == M.EComplete(worker, id, attempt, token, report, ok, delay, now, order) && M.Enabled(s, e)
    ensures M.Apply(s, e) == M.Complete(s, worker, id, attempt, token, report, ok, delay, now, order).0 &&
            I.Inv(M.Apply(s, e))
  {
    hide I.Inv;
    e := M.EComplete(worker, id, attempt, token, report, ok, delay, now, order);
    Runs.StepKeepsInv(s, e);
  }

  lemma CancelEvent(s: M.State, id: JobId, now: int, order: seq<JobId>) returns (e: M.Event)
    requires I.Inv(s) && M.Lists(order, M.OpenDescendants(s, id))
    ensures e == M.ECancel(id, now, order) && M.Enabled(s, e)
    ensures M.Apply(s, e) == M.Cancel(s, id, now, order).0 && I.Inv(M.Apply(s, e))
  {
    hide I.Inv;
    e := M.ECancel(id, now, order);
    Runs.StepKeepsInv(s, e);
  }

  lemma ExpireEvent(s: M.State, id: JobId, now: int, order: seq<JobId>) returns (e: M.Event)
    requires I.Inv(s) && M.Lists(order, M.OpenDescendants(s, id))
    ensures e == M.EExpire(id, now, order) && M.Enabled(s, e)
    ensures M.Apply(s, e) == M.Expire(s, id, now, order) && I.Inv(M.Apply(s, e))
  {
    hide I.Inv;
    e := M.EExpire(id, now, order);
    Runs.StepKeepsInv(s, e);
  }

  // ---- several steps ----

  function Front(events: seq<M.Event>): seq<M.Event>
    requires events != []
  {
    events[..|events| - 1]
  }

  function Last(events: seq<M.Event>): M.Event
    requires events != []
  {
    events[|events| - 1]
  }

  ghost predicate StepTo(s: M.State, e: M.Event, r: M.State) {
    M.Enabled(s, e) && r == M.Apply(s, e)
  }

  /** Performing `events` in turn leads from `s` to `r`. */
  ghost predicate Performs(s: M.State, events: seq<M.Event>, r: M.State) {
    if events == [] then r == s
    else
      exists t :: Performs(s, Front(events), t) && StepTo(t, Last(events), r)
  }

  lemma PerformOne(s: M.State, e: M.Event)
    requires M.Enabled(s, e)
    ensures Performs(s, [e], M.Apply(s, e))
  {
    hide M.Enabled, M.Apply;
    assert Front([e]) == [] && Last([e]) == e;
    assert Performs(s, [], s) && StepTo(s, e, M.Apply(s, e));
  }

  lemma PerformMore(s: M.State, events: seq<M.Event>, t: M.State, e: M.Event)
    requires Performs(s, events, t) && M.Enabled(t, e)
    ensures Performs(s, events + [e], M.Apply(t, e))
  {
    hide M.Enabled, M.Apply;
    assert Front(events + [e]) == events && Last(events + [e]) == e;
    assert StepTo(t, e, M.Apply(t, e));
  }

  lemma MarkEvent(s: M.State, w: WfId)
    requires I.Inv(s) && w in s.wf.labels && s.wf.labels[w].WfRunning?
    ensures M.Enabled(s, M.EMarkCancelled(w))
    ensures M.Apply(s, M.EMarkCancelled(w)) == s.(wf := s.wf.(labels := s.wf.labels[w := M.WfCancelled]))
    ensures I.Inv(M.Apply(s, M.EMarkCancelled(w)))
  {
    hide I.Inv;
    Runs.StepKeepsInv(s, M.EMarkCancelled(w));
  }

  lemma LabelStays(s: M.State, e: M.Event, w: WfId)
    requires I.Inv(s) && M.Enabled(s, e) && w in s.wf.labels && s.wf.labels[w].WfCancelled?
    ensures w in M.Apply(s, e).wf.labels && M.Apply(s, e).wf.labels[w].WfCancelled?
  {
    hide I.Inv, M.Enabled, M.Apply;
    H.StepFields(s, e);
  }

  lemma EndedIsStopped(s: M.State, x: JobId)
    requires x in s.rows && IsTerminal(s.rows[x].state)
    ensures C.Stopped(s, x)
  {
  }

  lemma StoppedAfter(s: M.State, e: M.Event, nodes: seq<JobId>, k: nat)
    requires I.Inv(s) && M.Enabled(s, e) && e.ECancel? && k < |nodes| && e.id == nodes[k]
    requires (forall x <- nodes :: x in s.rows) && forall i :: 0 <= i < k ==> C.Stopped(s, nodes[i])
    ensures forall i :: 0 <= i <= k ==> C.Stopped(M.Apply(s, e), nodes[i])
    ensures forall x <- nodes :: x in M.Apply(s, e).rows
  {
    hide I.Inv, M.Enabled, M.Apply, C.Stopped, H.RowStep;
    H.StepMovesRows(s, e);
    forall i | 0 <= i <= k ensures C.Stopped(M.Apply(s, e), nodes[i]) {
      C.CancelStops(s, e, nodes[i]);
    }
  }

  lemma RetirableFacts(s: M.State, id: JobId, row: Row)
    requires B.Retirable(s, id, row)
    ensures forall e <- s.deps :: e.0 in s.rows && e.1 in s.rows
    ensures M.OpenDescendants(M.Persist(s, id, row), id) == M.OpenDescendants(s, id)
  {
    hide I.Logged, I.Room, I.CountsOk, I.WorkflowsOk, I.Propagated, M.Live;
    A.DepsInRows(s);
    RankedIsAcyclic(s.deps);
    assert !Reaches(s.deps, id, id);
  }

  lemma ListOf<T>(all: set<T>) returns (order: seq<T>)
    ensures M.Lists(order, all)
  {
    if all == {} {
      order := [];
    } else {
      var x :| x in all;
      var rest := ListOf(all - {x});
      order := rest + [x];
      assert x !in rest;
    }
  }

  // ---- the traversal of skip_descendants ----

  /** `seen` has been visited and `skipped` marked; what is left to visit hangs below `frontier`. */
  ghost predicate Worklist(s: M.State, failed: JobId, frontier: seq<JobId>, seen: set<JobId>, skipped: seq<JobId>) {
    && I.ChildrenOk(s.deps, s.children) && (forall e <- s.deps :: e.0 in s.rows && e.1 in s.rows)
    && (forall x <- seen :: x in s.rows && Reaches(s.deps, failed, x))
    && (forall x <- frontier :: x in s.rows && Reaches(s.deps, failed, x))
    && (forall e <- s.deps :: e.0 == failed || e.0 in seen ==> e.1 in seen || e.1 in frontier)
    && Distinct(skipped)
    && (forall x :: x in skipped <==> x in seen && !IsTerminal(s.rows[x].state))
  }

  lemma WorklistStart(s: M.State, failed: JobId)
    requires I.ChildrenOk(s.deps, s.children) && failed in s.children
    requires forall e <- s.deps :: e.0 in s.rows && e.1 in s.rows
    ensures Worklist(s, failed, s.children[failed], {}, [])
  {
    forall x <- s.children[failed] ensures x in s.rows && Reaches(s.deps, failed, x) {
      assert (failed, x) in s.deps;
      ReachesByEdge(s.deps, failed, x);
    }
  }

  lemma WorklistHead(s: M.State, failed: JobId, frontier: seq<JobId>, seen: set<JobId>, skipped: seq<JobId>)
    requires Worklist(s, failed, frontier, seen, skipped) && frontier != []
    ensures var id := frontier[|frontier| - 1];
            && id in s.rows
            && M.SkipAll(s, skipped).children == s.children
            && (id !in seen ==> id in M.SkipAll(s, skipped).rows && M.SkipAll(s, skipped).rows[id] == s.rows[id])
  {
    R.SkipAllRows(s, skipped);
  }

  lemma WorklistPop(s: M.State, failed: JobId, frontier: seq<JobId>, seen: set<JobId>, skipped: seq<JobId>)
    requires Worklist(s, failed, frontier, seen, skipped) && frontier != [] && frontier[|frontier| - 1] in seen
    ensures Worklist(s, failed, frontier[..|frontier| - 1], seen, skipped)
  {
    var rest := frontier[..|frontier| - 1];
    assert frontier == rest + [frontier[|frontier| - 1]];
  }

  lemma WorklistVisit(s: M.State, failed: JobId, frontier: seq<JobId>, seen: set<JobId>, skipped: seq<JobId>)
    requires Worklist(s, failed, frontier, seen, skipped) && frontier != [] && frontier[|frontier| - 1] !in seen
    ensures var id := frontier[|frontier| - 1];
            id in s.rows && Worklist(s, failed, frontier[..|frontier| - 1] + M.Kids(s, id), seen + {id},
                                     if IsTerminal(s.rows[id].state) then skipped else skipped + [id])
  {
    var id := frontier[|frontier| - 1];
    var rest := frontier[..|frontier| - 1];
    assert frontier == rest + [id];
    assert id in frontier;
    forall x <- M.Kids(s, id) ensures x in s.rows && Reaches(s.deps, failed, x) {
      assert (id, x) in s.deps;
      ReachesThenEdge(s.deps, failed, id, x);
    }
    assert forall e <- s.deps :: e.0 == id ==> e.1 in M.Kids(s, id);
  }

  lemma WorklistDone(s: M.State, failed: JobId, seen: set<JobId>, skipped: seq<JobId>)
    requires Worklist(s, failed, [], seen, skipped)
    ensures M.Lists(skipped, M.OpenDescendants(s, failed))
  {
    forall x | Reaches(s.deps, failed, x) ensures x in seen {
      var p :| WalkFromTo(s.deps, p, failed, x);
      ClosedHoldsReached(s.deps, failed, seen, p, x);
    }
  }

  lemma NoDescendants(s: M.State, failed: JobId)
    requires I.ChildrenOk(s.deps, s.children) && failed !in s.children
    ensures M.OpenDescendants(s, failed) == {}
  {
    forall x ensures !Reaches(s.deps, failed, x) {
      if Reaches(s.deps, failed, x) {
        var p :| WalkFromTo(s.deps, p, failed, x);
        ClosedHoldsReached(s.deps, failed, {}, p, x);
      }
    }
  }

  lemma SkipAllSnoc(s: M.State, order: seq<JobId>, id: JobId)
    ensures M.SkipAll(s, order + [id]) == M.Skip(M.SkipAll(s, order), id)
  {
    assert (order + [id])[..|order|] == order;
  }
}
