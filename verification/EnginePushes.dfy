/** Every push of a live engine: which steps push, what, and exactly when the queue answers Full. */
module EnginePushes {
  import opened Jobs
  import opened Graphs
  import opened EngineModel
  import opened EngineInvariant
  import opened EngineRetire
  import opened EngineBooks
  import opened EngineSteps
  import opened EngineAdmission
  import opened EngineRuns
  import opened EngineHistory
  import opened EngineOutcomes
  import opened EngineCapacity

  predicate WaitsIn(rows: Rows, x: JobId) {
    x in rows && IsWaiting(rows[x].state)
  }

  /** The jobs that a step makes wait. */
  function NewlyWaiting(before: Rows, after: Rows): set<JobId> {
    set x | x in after && WaitsIn(after, x) && !WaitsIn(before, x)
  }

  /** Each of `pushed` went into the queue or out of it. */
  ghost predicate Split(q: set<JobId>, d: set<JobId>, q': set<JobId>, d': set<JobId>, pushed: set<JobId>) {
    && pushed !! q && pushed !! d && q <= q' && d <= d'
    && (q' - q) + (d' - d) == pushed && (q' - q) !! (d' - d)
  }

  lemma SplitOne(q: set<JobId>, d: set<JobId>, q': set<JobId>, d': set<JobId>, pushed: set<JobId>, id: JobId)
    requires Split(q, d, q', d', pushed) && id !in pushed && id !in q && id !in d
    ensures Split(q, d, q' + {id}, d', pushed + {id}) && Split(q, d, q', d' + {id}, pushed + {id})
    ensures id !in q'
  {
    assert (q' + {id}) - q == (q' - q) + {id};
    assert (d' + {id}) - d == (d' - d) + {id};
  }

  /** The jobs of `pushed` were pushed: the queue takes them while it has room. */
  ghost predicate Takes(s: State, r: State, pushed: set<JobId>) {
    && Split(s.queue, s.dropped, r.queue, r.dropped, pushed) && r.capacity == s.capacity
    && (r.dropped != s.dropped ==> |r.queue| >= r.capacity)
    && (|s.queue| <= s.capacity ==> |r.queue| <= r.capacity)
  }

  /** Nothing was pushed. */
  ghost predicate TakesNone(s: State, r: State) {
    r.queue <= s.queue && r.dropped == s.dropped && r.capacity == s.capacity
  }

  lemma TakesNothing(s: State, r: State)
    requires r.queue == s.queue && r.dropped == s.dropped && r.capacity == s.capacity
    ensures Takes(s, r, {})
  {
  }

  lemma TakesOne(s: State, u: State, pushed: set<JobId>, id: JobId)
    requires Takes(s, u, pushed) && id !in pushed && id !in s.queue && id !in s.dropped
    ensures Takes(s, Enqueue(u, id), pushed + {id})
  {
    SplitOne(s.queue, s.dropped, u.queue, u.dropped, pushed, id);
    hide Split;
  }

  lemma {:induction false} EnqueueAllTakes(s: State, ids: seq<JobId>)
    requires Distinct(ids) && forall x <- ids :: x !in s.queue && x !in s.dropped
    ensures Takes(s, EnqueueAll(s, ids), Elems(ids))
  {
    if ids == [] {
      TakesNothing(s, s);
    } else {
      hide Takes, Enqueue;
      var k := |ids| - 1;
      assert ids == ids[..k] + [ids[k]] && ids[k] in ids && ids[k] !in ids[..k];
      EnqueueAllTakes(s, ids[..k]);
      TakesOne(s, EnqueueAll(s, ids[..k]), Elems(ids[..k]), ids[k]);
      assert Elems(ids) == Elems(ids[..k]) + {ids[k]};
    }
  }

  /** The children among `ready` that are still Pending. */
  function Released(rows: Rows, ready: seq<JobId>): set<JobId> {
    set x | x in ready && x in rows && rows[x].state.Pending?
  }

  lemma ReleasedNext(rows: Rows, ready: seq<JobId>)
    requires ready != [] && Distinct(ready)
    ensures var k := |ready| - 1;
            && ready[k] !in Released(rows, ready[..k])
            && Released(rows, ready) ==
                 if ready[k] in rows && rows[ready[k]].state.Pending? then Released(rows, ready[..k]) + {ready[k]}
                 else Released(rows, ready[..k])
  {
    var k := |ready| - 1;
    assert ready == ready[..k] + [ready[k]];
    assert ready[k] !in ready[..k];
  }

  lemma {:induction false} UnblockAllTakes(s: State, ready: seq<JobId>, now: int)
    requires Distinct(ready)
    requires forall x <- ready :: x in s.rows && s.rows[x].state.Pending? ==> x !in s.queue && x !in s.dropped
    ensures Takes(s, UnblockAll(s, ready, now), Released(s.rows, ready))
  {
    if ready == [] {
      TakesNothing(s, s);
      assert Released(s.rows, ready) == {};
    } else {
      hide Takes, Enqueue, Released;
      var k := |ready| - 1;
      var u := UnblockAll(s, ready[..k], now);
      assert ready == ready[..k] + [ready[k]] && ready[k] !in ready[..k];
      ReleasedNext(s.rows, ready);
      UnblockAllTakes(s, ready[..k], now);
      UnblockAllRows(s, ready[..k], now);
      var c := ready[k];
      assert c in ready;
      if c in u.rows && u.rows[c].state.Pending? {
        var v := Persist(u, c, ReleasedRow(u.rows[c], now));
        SameTakes(s, u, v, Released(s.rows, ready[..k]));
        TakesOne(s, v, Released(s.rows, ready[..k]), c);
      }
    }
  }

  lemma SameTakes(s: State, u: State, v: State, pushed: set<JobId>)
    requires Takes(s, u, pushed) && v.queue == u.queue && v.dropped == u.dropped && v.capacity == u.capacity
    ensures Takes(s, v, pushed)
  {
  }

  // ---- the end of a job ----

  lemma {:induction false} ReadyDistinct(pd: map<JobId, int>, kids: seq<JobId>)
    requires Distinct(kids)
    ensures Distinct(MeetDeps(pd, kids).1) && forall x <- MeetDeps(pd, kids).1 :: x in kids
  {
    if kids != [] {
      var k := |kids| - 1;
      ReadyDistinct(pd, kids[..k]);
      assert kids[k] !in kids[..k];
    }
  }

  lemma {:induction false} SkipAllTakesNone(s: State, order: seq<JobId>)
    ensures TakesNone(s, SkipAll(s, order))
  {
    if order != [] { SkipAllTakesNone(s, order[..|order| - 1]); }
  }

  /** The step either pushed what it made wait, or pushed nothing and made nothing wait. */
  ghost predicate Pushes(s: State, r: State) {
    || Takes(s, r, NewlyWaiting(s.rows, r.rows))
    || (TakesNone(s, r) && NewlyWaiting(s.rows, r.rows) == {})
  }

  lemma ReleasedIsNew(before: Rows, after: Rows, id: JobId, row: Row, ready: seq<JobId>, now: int)
    requires id in before && IsTerminal(row.state) && !IsTerminal(before[id].state)
    requires after.Keys == before.Keys && after[id] == row
    requires forall x <- before :: x != id ==>
               after[x] == if x in ready then UnblockedRow(before[x], now) else before[x]
    ensures NewlyWaiting(before, after) == Released(before[id := row], ready)
  {
  }

  lemma SuccessTakes(t: State, id: JobId, row: Row, now: int)
    requires Retirable(t, id, row) && row.state.Succeeded? && row.workflow.Some?
    ensures var u := ReleaseDependents(Persist(t, id, row), id, now); Takes(t, u, NewlyWaiting(t.rows, u.rows))
  {
    hide Logged, Room, Takes, MeetDeps, UnblockAll, NewlyWaiting, Released, Books;
    var v := Persist(t, id, row);
    var (pd, ready) := MeetDeps(t.pendingDeps, Kids(t, id));
    assert Kids(v, id) == Kids(t, id);
    KidsDistinct(t, id);
    ReadyDistinct(t.pendingDeps, Kids(t, id));
    var w := v.(pendingDeps := pd);
    forall x <- ready | x in w.rows && w.rows[x].state.Pending? ensures x !in w.queue && x !in w.dropped {
      assert PlacedAt(t, x);
    }
    UnblockAllTakes(w, ready, now);
    SuccessRows(t, id, row, now);
    var u := UnblockAll(w, ready, now);
    ReleasedIsNew(t.rows, u.rows, id, row, ready, now);
    AfterTakes(t, w, u, Released(w.rows, ready));
  }

  lemma KidsDistinct(t: State, id: JobId)
    requires Books(t)
    ensures Distinct(Kids(t, id))
  {
    hide CountsOk, Propagated, WorkflowsOk;
  }

  lemma AfterTakes(s: State, t: State, r: State, pushed: set<JobId>)
    requires Takes(t, r, pushed) && t.queue == s.queue && t.dropped == s.dropped && t.capacity == s.capacity
    ensures Takes(s, r, pushed)
  {
  }

  lemma FailurePushes(t: State, id: JobId, row: Row, order: seq<JobId>)
    requires Retirable(t, id, row) && !row.state.Succeeded? && row.workflow.Some?
    requires Lists(order, OpenDescendants(t, id))
    ensures var u := SkipAll(Persist(t, id, row), order); TakesNone(t, u) && NewlyWaiting(t.rows, u.rows) == {}
  {
    hide Logged, Room, Books;
    SkipAllTakesNone(Persist(t, id, row), order);
    FailureRows(t, id, row, order);
  }

  lemma RetirePushes(t: State, id: JobId, row: Row, now: int, order: seq<JobId>)
    requires Retirable(t, id, row) && Lists(order, OpenDescendants(t, id))
    ensures Pushes(t, Retire(t, id, row, now, order))
    ensures !row.state.Succeeded? ==>
              var r := Retire(t, id, row, now, order); TakesNone(t, r) && NewlyWaiting(t.rows, r.rows) == {}
  {
    hide Retirable, OpenDescendants, Lists, Takes, SkipAll, ReleaseDependents, CountNodes;
    var r := Retire(t, id, row, now, order);
    if row.workflow.None? {
      assert r.rows == t.rows[id := row];
      assert IsTerminal(row.state) by { RetiresRow(t, id, row); }
      assert NewlyWaiting(t.rows, r.rows) == {};
    } else if row.state.Succeeded? {
      SuccessTakes(t, id, row, now);
      var u := ReleaseDependents(Persist(t, id, row), id, now);
      SameTakes(t, u, r, NewlyWaiting(t.rows, u.rows));
    } else {
      FailurePushes(t, id, row, order);
    }
  }

  lemma RetiresRow(t: State, id: JobId, row: Row)
    requires Retirable(t, id, row)
    ensures IsTerminal(row.state) && id in t.rows
  {
  }

  /** An operation that takes `id` out of its container and ends it without success. */
  lemma TakenPushes(s: State, t: State, id: JobId, row: Row, now: int, order: seq<JobId>)
    requires t == s.(queue := t.queue, inHand := t.inHand, running := t.running) && t.queue <= s.queue
    requires Retirable(t, id, row) && Lists(order, OpenDescendants(t, id))
    requires t.queue == s.queue || !row.state.Succeeded?
    ensures Pushes(s, Retire(t, id, row, now, order))
  {
    hide Retirable, OpenDescendants, Lists, Takes, Retire, NewlyWaiting;
    RetirePushes(t, id, row, now, order);
    var r := Retire(t, id, row, now, order);
    if Takes(t, r, NewlyWaiting(t.rows, r.rows)) && t.queue == s.queue {
      AfterTakes(s, t, r, NewlyWaiting(t.rows, r.rows));
    }
  }

  /** An operation that takes `id` out of running_ and pushes it again. */
  lemma RequeuedPushes(s: State, t: State, id: JobId, row: Row)
    requires Inv(s) && t == s.(running := s.running - {id}) && id in s.rows && s.rows[id].state.Running?
    requires IsWaiting(row.state)
    ensures Pushes(s, Enqueue(Persist(t, id, row), id))
  {
    hide Logged, Room, Books, Takes, Enqueue;
    var u := Persist(t, id, row);
    assert PlacedAt(s, id);
    TakesNothing(s, u);
    TakesOne(s, u, {}, id);
    EnqueueFields(u, id);
    assert NewlyWaiting(s.rows, u.rows) == {} + {id};
  }

  // ---- every operation ----

  lemma SubmitPushes(s: State, e: Event)
    requires Inv(s) && Enabled(s, e) && e.ESubmit?
    ensures Pushes(s, Apply(s, e))
  {
    hide Logged, Room, Books, Takes, Enqueue;
    var r := Apply(s, e);
    if r == s {
      NothingPushed(s, r);
    } else {
      var u := InsertRow(s.(outstanding := s.outstanding + 1), e.id, FreshRow(e.maxAttempts, e.delay, e.now, None, 0));
      assert PlacedAt(s, e.id);
      TakesNothing(s, u);
      TakesOne(s, u, {}, e.id);
      EnqueueFields(u, e.id);
      assert NewlyWaiting(s.rows, u.rows) == {} + {e.id};
    }
  }

  lemma NothingPushed(s: State, r: State)
    requires r.queue <= s.queue && r.dropped == s.dropped && r.capacity == s.capacity && r.rows == s.rows
    ensures Pushes(s, r)
  {
    hide Takes;
    assert NewlyWaiting(s.rows, r.rows) == {};
  }

  lemma FreshWaits(nodes: Rows, w: WfId, es: set<Edge>)
    requires FreshNodes(nodes, w, es)
    ensures forall x <- nodes :: !nodes[x].state.Pending? <==> WaitsIn(nodes, x)
  {
    forall x <- nodes ensures !nodes[x].state.Pending? <==> WaitsIn(nodes, x) {
      assert IsFreshNode(nodes[x], w, |Into(es, x)|);
    }
  }

  lemma AddedWait(rows: Rows, nodes: Rows)
    requires rows.Keys !! nodes.Keys
    ensures forall x :: x in NewlyWaiting(rows, rows + nodes) <==> WaitsIn(nodes, x)
  {
  }

  lemma RootsAreNew(rows: Rows, nodes: Rows, w: WfId, ids: seq<JobId>, es: set<Edge>)
    requires FreshNodes(nodes, w, es) && nodes.Keys == Elems(ids) && Distinct(ids) && rows.Keys !! nodes.Keys
    ensures Distinct(Roots(nodes, ids)) && NewlyWaiting(rows, rows + nodes) == Elems(Roots(nodes, ids))
    ensures forall x <- Roots(nodes, ids) :: x in nodes
  {
    FreshWaits(nodes, w, es);
    AddedWait(rows, nodes);
    assert forall x :: x in ids <==> x in nodes by { assert forall x :: x in ids <==> x in Elems(ids); }
    RootsListed(nodes, ids);
    hide FreshNodes, Roots, NewlyWaiting;
    var roots := Roots(nodes, ids);
    assert forall x :: x in NewlyWaiting(rows, rows + nodes) <==> x in roots;
  }

  lemma WorkflowPushes(s: State, e: Event)
    requires Inv(s) && Enabled(s, e) && e.EWorkflow?
    ensures Pushes(s, Apply(s, e))
  {
    hide Logged, Room, Books, Takes, EnqueueAll, NodeRows, Roots, NewlyWaiting;
    var nodes := NodeRows(e.w, e.ids, e.specs, Elems(e.edges), e.now);
    NodeRowsFresh(e.w, e.ids, e.specs, Elems(e.edges), e.now);
    var t := Grown(s, e.w, e.ids, nodes, e.edges);
    var roots := Roots(nodes, e.ids);
    assert FreshNodes(nodes, e.w, Elems(e.edges));
    RootsAreNew(s.rows, nodes, e.w, e.ids, Elems(e.edges));
    forall x <- roots ensures x !in t.queue && x !in t.dropped { assert PlacedAt(s, x); }
    EnqueueAllTakes(t, roots);
    EnqueueAllFields(t, roots);
    AfterTakes(s, t, EnqueueAll(t, roots), Elems(roots));
  }

  lemma ReportPushes(s: State, e: Event)
    requires Inv(s) && Enabled(s, e) && (e.EFinish? || e.EComplete?)
    ensures Pushes(s, Apply(s, e))
  {
    hide Apply, Logged, Placed, PlacedBut, Room, Books, Retirable, OpenDescendants, Enqueue, Retire, Lists, Pushes;
    var id := e.id;
    if Reports(s, e, id) {
      TakeRunning(s, id);
      ReportIs(s, e, id);
      var t := s.(running := s.running - {id});
      var next := OutcomeState(s.rows[id], Reason(s, e, id), e.ok);
      if next.Retrying? {
        RequeuedPushes(s, t, id, FinishedRow(s.rows[id], e.EComplete?, next, e.now + e.backoff));
      } else {
        var row := FinishedRow(s.rows[id], e.EComplete?, next, s.rows[id].readyAt);
        RetirementShape(s, t, id, row, e.order);
        TakenPushes(s, t, id, row, e.now, e.order);
      }
    } else {
      NoReport(s, e);
      NothingPushed(s, s);
    }
  }

  lemma BeginPushes(s: State, e: Event)
    requires Inv(s) && Enabled(s, e) && e.EBegin?
    ensures Pushes(s, Apply(s, e))
  {
    hide Logged, Placed, PlacedBut, Room, Books, Retirable, OpenDescendants, Retire, Lists, Takes;
    var id := e.id;
    TakeInHand(s, id);
    if IsWaiting(s.rows[id].state) && s.rows[id].cancelRequested {
      var t := s.(inHand := s.inHand - multiset{id});
      var row := s.rows[id].(state := Cancelled);
      RetirementShape(s, t, id, row, e.order);
      TakenPushes(s, t, id, row, e.now, e.order);
    } else {
      assert NewlyWaiting(s.rows, Apply(s, e).rows) == {};
    }
  }

  lemma CancelPushes(s: State, e: Event)
    requires Inv(s) && Enabled(s, e) && e.ECancel?
    ensures Pushes(s, Apply(s, e))
  {
    hide Logged, Placed, PlacedBut, Room, Books, Retirable, OpenDescendants, Retire, Lists, Takes;
    var id := e.id;
    if id in s.rows && !IsTerminal(s.rows[id].state) && !s.rows[id].state.Running? {
      var t := s.(queue := s.queue - {id});
      var row := s.rows[id].(cancelRequested := true, state := Cancelled);
      Dequeue(s, id);
      RetirementShape(s, t, id, row, e.order);
      TakenPushes(s, t, id, row, e.now, e.order);
    } else {
      assert NewlyWaiting(s.rows, Apply(s, e).rows) == {};
    }
  }

  lemma ExpirePushes(s: State, e: Event)
    requires Inv(s) && Enabled(s, e) && e.EExpire?
    ensures Pushes(s, Apply(s, e))
  {
    hide Logged, Placed, PlacedBut, Room, Books, Retirable, OpenDescendants, Enqueue, Retire, Lists, Pushes;
    var id := e.id;
    if id in s.running {
      TakeRunning(s, id);
      var t := s.(running := s.running - {id});
      var row := s.rows[id].(leaseToken := 0);
      if row.attempt >= row.maxAttempts {
        RetirementShape(s, t, id, row.(state := Failed), e.order);
        TakenPushes(s, t, id, row.(state := Failed), e.now, e.order);
      } else {
        RequeuedPushes(s, t, id, row.(state := Queued, readyAt := e.now));
      }
    } else {
      NothingPushed(s, s);
    }
  }

  lemma OtherPushes(s: State, e: Event)
    requires Enabled(s, e) && (e.EPop? || e.EMarkCancelled? || e.EDeadline?)
    ensures Pushes(s, Apply(s, e))
  {
    hide Pushes;
    NothingPushed(s, Apply(s, e));
  }

  lemma StepPushes(s: State, e: Event)
    requires Inv(s) && Enabled(s, e) && !e.ERestart?
    ensures Pushes(s, Apply(s, e))
  {
    hide Inv, Enabled, Apply, Pushes;
    match e
    case ESubmit(_, _, _, _, _, _) => SubmitPushes(s, e);
    case EWorkflow(_, _, _, _, _) => WorkflowPushes(s, e);
    case EFinish(_, _, _, _, _, _) => ReportPushes(s, e);
    case EComplete(_, _, _, _, _, _, _, _, _) => ReportPushes(s, e);
    case EBegin(_, _, _, _, _, _) => BeginPushes(s, e);
    case ECancel(_, _, _) => CancelPushes(s, e);
    case EExpire(_, _, _) => ExpirePushes(s, e);
    case _ => OtherPushes(s, e);
  }

  // ---- when the queue answers Full ----

  /** The queue never holds more than the capacity. */
  lemma {:induction false} QueueFits(run: seq<State>, events: seq<Event>, i: nat)
    requires IsRun(run, events) && i < |run|
    ensures |run[i].queue| <= run[i].capacity
  {
    hide Inv, Enabled, Apply, NewlyWaiting;
    if i > 0 {
      QueueFits(run, events, i - 1);
      RunKeepsInv(run, events, i - 1);
      if events[i - 1].ERestart? {
        RestartFits(run, events, i - 1);
      } else {
        StepPushes(run[i - 1], events[i - 1]);
        if !Takes(run[i - 1], run[i], NewlyWaiting(run[i - 1].rows, run[i].rows)) {
          SubsetSize(run[i].queue, run[i - 1].queue);
        }
      }
    }
  }

  lemma RestartFits(run: seq<State>, events: seq<Event>, i: nat)
    requires IsRun(run, events) && i < |events| && events[i].ERestart?
    ensures |run[i + 1].queue| <= run[i + 1].capacity
  {
    RestartQueuesAllIff(run, events, i);
    hide Apply, Survivors, Enabled, Pushed;
    SubsetSize(run[i + 1].queue, Pushed(Survivors(run[i], events[i])));
  }

  lemma Sizes<T>(a: set<T>, b: set<T>)
    requires a <= b
    ensures |b| == |a| + |b - a|
  {
    assert b == a + (b - a);
  }

  lemma TakesAllIff(s: State, r: State, pushed: set<JobId>)
    requires Takes(s, r, pushed) && |s.queue| <= s.capacity
    ensures r.dropped == s.dropped <==> |s.queue| + |pushed| <= s.capacity
  {
    var out := r.dropped - s.dropped;
    Sizes(s.queue, r.queue);
    Sizes(s.dropped, r.dropped);
    assert |pushed| == |r.queue - s.queue| + |out|;
    assert out == {} <==> r.dropped == s.dropped;
  }

  /**
   In every run, an operation loses a job to the full queue exactly when the queue has no room for all the jobs that the
   operation makes wait; what it loses is among those, and the queue is then full.
   */
  lemma StepQueuesAllIff(run: seq<State>, events: seq<Event>, i: nat)
    requires IsRun(run, events) && i < |events| && !events[i].ERestart?
    ensures var s, r := run[i], run[i + 1];
            var added := NewlyWaiting(s.rows, r.rows);
            && (r.dropped == s.dropped <==> |s.queue| + |added| <= s.capacity)
            && s.dropped <= r.dropped && r.dropped - s.dropped <= added && added <= r.queue + r.dropped
            && (r.dropped != s.dropped ==> |r.queue| == r.capacity)
  {
    hide Inv, Enabled, Apply, NewlyWaiting;
    var s, r := run[i], run[i + 1];
    RunKeepsInv(run, events, i);
    QueueFits(run, events, i);
    StepPushes(s, events[i]);
    var added := NewlyWaiting(s.rows, r.rows);
    if Takes(s, r, added) {
      TakesAllIff(s, r, added);
      assert added <= r.queue + r.dropped;
    }
  }
}
