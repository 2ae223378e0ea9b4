/** The engine's global invariant, and how its parts follow a change of the job table. */
module EngineInvariant {
  import opened Jobs
  import opened Graphs
  import opened EngineModel

  // ---- what holds of the job table alone, in every committed prefix of the write log ----

  /** An attempt of the node has begun, or may begin. */
  predicate Started(s: JobState) {
    !(s.Pending? || s.Cancelled? || s.Skipped?)
  }

  ghost predicate RowOk(deps: set<Edge>, id: JobId, row: Row, crashes: nat) {
    && row.maxAttempts >= 1
    && (row.state.Pending? ==> row.pendingDeps == |Into(deps, id)| > 0)
    && row.attempt <= row.maxAttempts + crashes
    && (row.state.Pending? || IsWaiting(row.state) ==> row.attempt < row.maxAttempts + crashes)
  }

  ghost predicate EdgeOk(rows: Rows, e: Edge) {
    && e.0 in rows && e.1 in rows
    && rows[e.0].workflow.Some? && rows[e.1].workflow == rows[e.0].workflow
    && (Started(rows[e.1].state) ==> rows[e.0].state.Succeeded?)
  }

  ghost predicate TableSafe(rows: Rows, deps: set<Edge>, crashes: nat) {
    && (forall x <- rows :: RowOk(deps, x, rows[x], crashes))
    && (forall e <- deps :: EdgeOk(rows, e))
  }

  /** The terminal rows of the earlier table `before` are the same now. */
  ghost predicate FinalIn(before: Rows, now: Rows) {
    forall x <- before :: IsTerminal(before[x].state) ==> x in now && now[x] == before[x]
  }

  /** The table is the replayed log, and no crash can leave an unsafe table. */
  ghost predicate Logged(s: State) {
    && s.rows == Replay(s.base, s.updates)
    && s.base.Keys == s.rows.Keys
    && (forall u <- s.updates :: u.0 in s.base && u.1.workflow == s.base[u.0].workflow)
    && (forall n :: 0 <= n <= |s.updates| ==> TableSafe(Replay(s.base, s.updates[..n]), s.deps, s.crashes))
    && (forall n :: 0 <= n <= |s.updates| ==> FinalIn(Replay(s.base, s.updates[..n]), s.rows))
    && OpenWrites(s.base, s.updates)
  }

  /** Only open rows are updated. */
  ghost predicate OpenWrites(base: Rows, updates: seq<(JobId, Row)>) {
    forall k :: 0 <= k < |updates| ==> Open(Replay(base, updates[..k]), updates[k].0)
  }

  predicate Open(rows: Rows, x: JobId) {
    x in rows && !IsTerminal(rows[x].state)
  }

  // ---- placement ----

  ghost predicate PlacedAt(s: State, x: JobId) {
    && (x in s.queue ==> x in s.rows && IsWaiting(s.rows[x].state) && x !in s.inHand)
    && (x in s.inHand ==>
          x in s.rows && s.inHand[x] == 1 && (IsWaiting(s.rows[x].state) || IsTerminal(s.rows[x].state)))
    && (x in s.dropped ==> x in s.rows && (IsWaiting(s.rows[x].state) || IsTerminal(s.rows[x].state)))
    && (x in s.dropped ==> x !in s.queue && x !in s.inHand)
    && (x in s.rows && IsWaiting(s.rows[x].state) ==> x in s.queue || x in s.inHand || x in s.dropped)
    && (x in s.running <==> x in s.rows && s.rows[x].state.Running?)
    && (x in s.running ==>
          && s.running[x].token == s.rows[x].leaseToken != 0
          && s.running[x].attempt == s.rows[x].attempt)
  }

  ghost predicate Placed(s: State) {
    forall x :: PlacedAt(s, x)
  }

  /** `x` is in no container. */
  ghost predicate Unplaced(s: State, x: JobId) {
    x in s.rows && x !in s.queue && x !in s.inHand && x !in s.running && x !in s.dropped
  }

  ghost predicate PlacedOutside(s: State, todo: set<JobId>) {
    forall x :: if x in todo then Unplaced(s, x) else PlacedAt(s, x)
  }

  /** Everything but `id` is placed; `id` has left the queue and running_. */
  ghost predicate PlacedBut(s: State, id: JobId) {
    && (forall x :: x != id ==> PlacedAt(s, x))
    && id in s.rows && id !in s.queue && id !in s.running && s.inHand[id] <= 1
    && !(id in s.dropped && id in s.inHand)
  }

  ghost predicate Room(s: State) {
    !s.oversized ==> |Live(s.rows)| <= s.capacity && s.dropped == {}
  }

  // ---- workflows ----

  /** Edges into `x` whose parent has not succeeded. */
  ghost function Unmet(rows: Rows, deps: set<Edge>, x: JobId): set<Edge> {
    set e | e in deps && e.1 == x && e.0 in rows && !rows[e.0].state.Succeeded?
  }

  /** Dependency counts of the nodes still Pending; `todo` are those about to be released. */
  ghost predicate CountsOk(rows: Rows, deps: set<Edge>, pd: map<JobId, int>, exact: bool, todo: set<JobId>) {
    forall x <- rows :: rows[x].state.Pending? ==>
                          && x in pd
                          && pd[x] >= |Unmet(rows, deps, x)|
                          && (exact ==> pd[x] == |Unmet(rows, deps, x)|)
                          && (pd[x] == 0 <==> x in todo)
  }

  ghost predicate ChildrenOk(deps: set<Edge>, children: map<JobId, seq<JobId>>) {
    && (forall p <- children :: Distinct(children[p]) && forall c <- children[p] :: (p, c) in deps)
    && (forall e <- deps :: e.0 in children && e.1 in children[e.0])
  }

  /** Below a node that ended without success nothing is open. */
  ghost predicate Propagated(rows: Rows, deps: set<Edge>) {
    forall e <- deps :: e.0 in rows && e.1 in rows && IsTerminal(rows[e.0].state) && !rows[e.0].state.Succeeded?
                        ==> IsTerminal(rows[e.1].state)
  }

  ghost predicate CounterOk(rows: Rows, b: WfBooks, w: WfId) {
    if OpenNodes(rows, w) == {} then w !in b.remaining
    else
      && w in b.remaining && b.remaining[w] == |OpenNodes(rows, w)|
      && GetOr0(b.failures, w) == |FailedNodes(rows, w)|
  }

  /** In a run without a crash: finalised once, at the end, with the right label. */
  ghost predicate LabelOk(rows: Rows, b: WfBooks, w: WfId)
    requires w in b.labels
  {
    if OpenNodes(rows, w) == {} then
      && b.finalized[w] == 1
      && !b.labels[w].WfRunning?
      && (b.labels[w].WfSucceeded? ==> FailedNodes(rows, w) == {})
      && (b.labels[w].WfFailed? ==> FailedNodes(rows, w) != {})
    else
      && b.finalized[w] == 0
      && (b.labels[w].WfRunning? || b.labels[w].WfCancelled?)
  }

  ghost predicate WorkflowsOk(rows: Rows, b: WfBooks, exact: bool) {
    && (forall x <- rows :: rows[x].workflow.Some? ==> rows[x].workflow.value in b.labels)
    && (forall w <- b.remaining :: w in b.labels)
    && (forall w <- b.labels :: CounterOk(rows, b, w))
    && (exact ==> forall w <- b.finalized :: w in b.labels)
    && (exact ==> forall w <- b.labels :: LabelOk(rows, b, w))
  }

  /** Holds also between the row writes of one operation. */
  ghost predicate Mid(s: State) {
    Logged(s) && Placed(s) && Room(s)
  }

  /** Slots, dependency counts, propagation and completion. */
  ghost predicate Books(s: State) {
    && s.outstanding == |Live(s.rows)|
    && ChildrenOk(s.deps, s.children)
    && Ranked(s.deps)
    && CountsOk(s.rows, s.deps, s.pendingDeps, s.crashes == 0, {})
    && (s.crashes == 0 ==> Propagated(s.rows, s.deps))
    && WorkflowsOk(s.rows, s.wf, s.crashes == 0)
  }

  ghost predicate Inv(s: State) {
    Mid(s) && Books(s)
  }

  // ---- the log ----

  lemma {:induction false} ReplayKeys(base: Rows, updates: seq<(JobId, Row)>)
    ensures Replay(base, updates).Keys == base.Keys
  {
    if updates != [] {
      ReplayKeys(base, updates[..|updates| - 1]);
    }
  }

  lemma {:induction false} ReplayWorkflow(base: Rows, updates: seq<(JobId, Row)>, x: JobId)
    requires forall u <- updates :: u.0 in base && u.1.workflow == base[u.0].workflow
    requires x in base
    ensures x in Replay(base, updates) && Replay(base, updates)[x].workflow == base[x].workflow
  {
    if updates != [] {
      assert forall u <- updates[..|updates| - 1] :: u in updates;
      ReplayWorkflow(base, updates[..|updates| - 1], x);
      assert updates[|updates| - 1] in updates;
    }
  }

  lemma LoggedNow(s: State)
    requires Logged(s)
    ensures TableSafe(s.rows, s.deps, s.crashes)
  {
    assert s.updates[..|s.updates|] == s.updates;
  }

  /** The row writes that keep the table safe. */
  lemma SafeWrite(rows: Rows, deps: set<Edge>, crashes: nat, id: JobId, row: Row)
    requires TableSafe(rows, deps, crashes)
    requires id in rows && RowOk(deps, id, row, crashes) && row.workflow == rows[id].workflow
    requires rows[id].state.Succeeded? ==> row.state.Succeeded?
    requires Started(row.state) ==> Started(rows[id].state) || Unmet(rows, deps, id) == {}
    ensures TableSafe(rows[id := row], deps, crashes)
  {
    forall e <- deps ensures EdgeOk(rows[id := row], e) {
      assert EdgeOk(rows, e);
      if e.1 == id && !rows[e.0].state.Succeeded? {
        assert e in Unmet(rows, deps, id);
      }
    }
  }

  lemma PersistLogged(s: State, id: JobId, row: Row)
    requires Logged(s) && id in s.rows && TableSafe(s.rows[id := row], s.deps, s.crashes)
    requires row.workflow == s.rows[id].workflow && !IsTerminal(s.rows[id].state)
    ensures Logged(Persist(s, id, row))
  {
    hide TableSafe, OpenWrites, FinalIn;
    var us := s.updates + [(id, row)];
    assert us[..|us| - 1] == s.updates;
    ReplayWorkflow(s.base, s.updates, id);
    forall n | 0 <= n <= |us|
      ensures TableSafe(Replay(s.base, us[..n]), s.deps, s.crashes) &&
              FinalIn(Replay(s.base, us[..n]), s.rows[id := row])
    {
      PersistPrefix(s, id, row, n);
    }
    OpenWritesNext(s.base, s.updates, id, row);
  }

  lemma PersistPrefix(s: State, id: JobId, row: Row, n: nat)
    requires Logged(s) && id in s.rows && TableSafe(s.rows[id := row], s.deps, s.crashes)
    requires !IsTerminal(s.rows[id].state) && n <= |s.updates| + 1
    ensures var t := Replay(s.base, (s.updates + [(id, row)])[..n]);
            TableSafe(t, s.deps, s.crashes) && FinalIn(t, s.rows[id := row])
  {
    hide TableSafe, OpenWrites;
    var us := s.updates + [(id, row)];
    if n < |us| {
      assert us[..n] == s.updates[..n];
      assert FinalIn(Replay(s.base, s.updates[..n]), s.rows);
    } else {
      assert us[..n] == us && us[..|us| - 1] == s.updates;
    }
  }

  lemma OpenWritesNext(base: Rows, updates: seq<(JobId, Row)>, id: JobId, row: Row)
    requires OpenWrites(base, updates) && Open(Replay(base, updates), id)
    ensures OpenWrites(base, updates + [(id, row)])
  {
    var us := updates + [(id, row)];
    forall k | 0 <= k < |us| ensures Open(Replay(base, us[..k]), us[k].0) {
      assert us[..k] == updates[..k];
      if k == |updates| { assert updates[..k] == updates; }
    }
  }

  // ---- sets of rows ----

  /** `after` is `before` with the open rows in `xs` closed; the rest keeps its standing. */
  ghost predicate Closes(before: Rows, after: Rows, xs: set<JobId>) {
    && after.Keys == before.Keys
    && xs <= Live(before)
    && (forall x <- before :: after[x].workflow == before[x].workflow)
    && (forall x <- before :: if x in xs then IsTerminal(after[x].state)
                              else IsTerminal(after[x].state) == IsTerminal(before[x].state)
                                   && after[x].state.Succeeded? == before[x].state.Succeeded?)
  }

  lemma ClosesLive(before: Rows, after: Rows, xs: set<JobId>)
    requires Closes(before, after, xs)
    ensures Live(after) == Live(before) - xs && |Live(after)| == |Live(before)| - |xs|
  {
    assert Live(after) == Live(before) - xs;
  }

  /** Closing nodes of one workflow `w`. */
  lemma ClosesOwn(before: Rows, after: Rows, xs: set<JobId>, w: WfId)
    requires Closes(before, after, xs)
    requires forall x <- xs :: before[x].workflow == Some(w)
    ensures |OpenNodes(after, w)| == |OpenNodes(before, w)| - |xs|
    ensures (forall x <- xs :: after[x].state.Succeeded?) ==> FailedNodes(after, w) == FailedNodes(before, w)
    ensures (forall x <- xs :: !after[x].state.Succeeded?) ==>
              FailedNodes(after, w) == FailedNodes(before, w) + xs &&
                |FailedNodes(after, w)| == |FailedNodes(before, w)| + |xs|
  {
    assert OpenNodes(after, w) == OpenNodes(before, w) - xs;
    assert xs <= OpenNodes(before, w);
    if forall x <- xs :: !after[x].state.Succeeded? {
      assert FailedNodes(after, w) == FailedNodes(before, w) + xs;
      assert FailedNodes(before, w) !! xs;
    }
  }

  /** ... leaves any other workflow as it was. */
  lemma ClosesOther(before: Rows, after: Rows, xs: set<JobId>, w: WfId)
    requires Closes(before, after, xs)
    requires forall x <- xs :: before[x].workflow != Some(w)
    ensures OpenNodes(after, w) == OpenNodes(before, w) && FailedNodes(after, w) == FailedNodes(before, w)
  {
  }

  lemma {:induction false} ListsSize<T>(order: seq<T>, all: set<T>)
    requires Lists(order, all)
    ensures |order| == |all|
  {
    if order == [] {
      assert all == {};
    } else {
      var k := |order| - 1;
      assert forall x <- order[..k] :: x in all - {order[k]} by {
        forall i | 0 <= i < k ensures order[..k][i] in all - {order[k]} { assert order[i] in all; }
      }
      assert order == order[..k] + [order[k]];
      assert forall x <- all - {order[k]} :: x in order[..k];
      ListsSize(order[..k], all - {order[k]});
    }
  }

  // ---- the graph ----

  /** Below a node that has not succeeded nothing has started, and all is in its workflow. */
  lemma {:induction false} Descendants(rows: Rows, deps: set<Edge>, crashes: nat, id: JobId, p: seq<JobId>, x: JobId)
    requires TableSafe(rows, deps, crashes) && WalkFromTo(deps, p, id, x)
    ensures id in rows && x in rows && rows[id].workflow.Some? && rows[x].workflow == rows[id].workflow
    ensures Started(rows[x].state) ==> rows[id].state.Succeeded?
    decreases |p|
  {
    var e := (p[|p| - 2], p[|p| - 1]);
    assert e in deps;
    assert EdgeOk(rows, e);
    if |p| > 2 {
      assert WalkFromTo(deps, p[..|p| - 1], id, e.0);
      Descendants(rows, deps, crashes, id, p[..|p| - 1], e.0);
    }
  }

  lemma OpenDescendantsArePending(s: State, id: JobId)
    requires TableSafe(s.rows, s.deps, s.crashes) && id in s.rows && !s.rows[id].state.Succeeded?
    ensures forall x <- OpenDescendants(s, id) :: s.rows[x].state.Pending? && s.rows[x].workflow == s.rows[id].workflow
    ensures id !in OpenDescendants(s, id) || s.rows[id].state.Pending?
  {
    forall x <- OpenDescendants(s, id)
      ensures s.rows[x].state.Pending? && s.rows[x].workflow == s.rows[id].workflow
    {
      var p :| WalkFromTo(s.deps, p, id, x);
      Descendants(s.rows, s.deps, s.crashes, id, p, x);
    }
  }
}
