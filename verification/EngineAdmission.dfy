/** Admitting jobs and workflows keeps the invariant. */
module EngineAdmission {
  import opened Jobs
  import opened Graphs
  import opened EngineModel
  import opened EngineInvariant
  import opened EngineRetire
  import opened EngineSteps

  // ---- inserting rows under the write log ----

  lemma {:induction false} ReplayUnion(base: Rows, added: Rows, updates: seq<(JobId, Row)>)
    requires base.Keys !! added.Keys
    requires forall u <- updates :: u.0 in base
    ensures Replay(base + added, updates) == Replay(base, updates) + added
  {
    if updates != [] {
      var k := |updates| - 1;
      assert forall u <- updates[..k] :: u in updates;
      ReplayUnion(base, added, updates[..k]);
      ReplayKeys(base, updates[..k]);
      assert updates[k] in updates;
    }
  }

  lemma TableUnion(rows: Rows, deps: set<Edge>, added: Rows, es: set<Edge>, crashes: nat)
    requires TableSafe(rows, deps, crashes) && TableSafe(added, es, crashes) && rows.Keys !! added.Keys
    ensures TableSafe(rows + added, deps + es, crashes)
  {
    forall x <- rows + added ensures RowOk(deps + es, x, (rows + added)[x], crashes) {
      IntoUnion(rows, deps, added, es, crashes, x);
    }
    forall e <- deps + es ensures EdgeOk(rows + added, e) {
      assert if e in es then EdgeOk(added, e) else EdgeOk(rows, e);
    }
  }

  lemma IntoUnion(rows: Rows, deps: set<Edge>, added: Rows, es: set<Edge>, crashes: nat, x: JobId)
    requires TableSafe(rows, deps, crashes) && TableSafe(added, es, crashes) && rows.Keys !! added.Keys
    ensures x in rows ==> Into(deps + es, x) == Into(deps, x)
    ensures x in added ==> Into(deps + es, x) == Into(es, x)
  {
    assert forall e <- deps :: EdgeOk(rows, e);
    assert forall e <- es :: EdgeOk(added, e);
  }

  lemma GrowLogged(s: State, added: Rows, es: set<Edge>)
    requires Logged(s) && TableSafe(added, es, s.crashes) && s.rows.Keys !! added.Keys
    ensures Logged(s.(rows := s.rows + added, base := s.base + added, deps := s.deps + es))
  {
    hide TableSafe, FinalIn, Replay, OpenWrites;
    var base := s.base + added;
    ReplayUnion(s.base, added, s.updates);
    forall n | 0 <= n <= |s.updates|
      ensures TableSafe(Replay(base, s.updates[..n]), s.deps + es, s.crashes) &&
              FinalIn(Replay(base, s.updates[..n]), s.rows + added)
    {
      GrowPrefix(s, added, es, n);
    }
    GrowOpenWrites(s, added);
  }

  lemma GrowOpenWrites(s: State, added: Rows)
    requires Logged(s) && s.rows.Keys !! added.Keys
    ensures OpenWrites(s.base + added, s.updates)
  {
    hide TableSafe, FinalIn, Replay;
    forall k | 0 <= k < |s.updates| ensures Open(Replay(s.base + added, s.updates[..k]), s.updates[k].0) {
      assert forall u <- s.updates[..k] :: u in s.updates;
      ReplayUnion(s.base, added, s.updates[..k]);
      ReplayKeys(s.base, s.updates[..k]);
      assert Open(Replay(s.base, s.updates[..k]), s.updates[k].0);
    }
  }

  lemma GrowPrefix(s: State, added: Rows, es: set<Edge>, n: nat)
    requires Logged(s) && TableSafe(added, es, s.crashes) && s.rows.Keys !! added.Keys && n <= |s.updates|
    ensures var t := Replay(s.base + added, s.updates[..n]);
            TableSafe(t, s.deps + es, s.crashes) && FinalIn(t, s.rows + added)
  {
    hide TableSafe, Replay, OpenWrites;
    assert forall u <- s.updates[..n] :: u in s.updates;
    ReplayUnion(s.base, added, s.updates[..n]);
    ReplayKeys(s.base, s.updates[..n]);
    TableUnion(Replay(s.base, s.updates[..n]), s.deps, added, es, s.crashes);
    assert FinalIn(Replay(s.base, s.updates[..n]), s.rows);
  }

  lemma LogOf(s: State, r: State)
    requires Logged(s) && r.rows == s.rows && r.base == s.base && r.updates == s.updates && r.deps == s.deps &&
             r.crashes == s.crashes
    ensures Logged(r)
  {
  }

  // ---- a plain job ----

  lemma DepsInRows(s: State)
    requires Logged(s)
    ensures forall e <- s.deps :: e.0 in s.rows && e.1 in s.rows
  {
    LoggedNow(s);
    assert forall e <- s.deps :: EdgeOk(s.rows, e);
  }

  lemma PlainCounts(s: State, id: JobId, row: Row)
    requires Logged(s) && CountsOk(s.rows, s.deps, s.pendingDeps, s.crashes == 0, {}) && id !in s.rows &&
             !row.state.Pending?
    ensures CountsOk(s.rows[id := row], s.deps, s.pendingDeps, s.crashes == 0, {})
  {
    hide Logged;
    DepsInRows(s);
    forall x <- s.rows ensures Unmet(s.rows[id := row], s.deps, x) == Unmet(s.rows, s.deps, x) {}
  }

  lemma PlainLive(rows: Rows, id: JobId, row: Row)
    requires id !in rows && !IsTerminal(row.state)
    ensures |Live(rows[id := row])| == |Live(rows)| + 1
  {
    assert Live(rows[id := row]) == Live(rows) + {id};
  }

  lemma PlainBooks(s: State, id: JobId, row: Row)
    requires Books(s) && Logged(s) && id !in s.rows && row.workflow.None? && IsWaiting(row.state)
    ensures Books(InsertRow(s.(outstanding := s.outstanding + 1), id, row))
  {
    hide Logged, WorkflowsOk, CountsOk, Propagated, ChildrenOk, Ranked, Live;
    PlainLive(s.rows, id, row);
    PlainCounts(s, id, row);
    PlainWorkflows(s.rows, s.wf, s.crashes == 0, id, row);
    if s.crashes == 0 { PlainPropagated(s, id, row); }
  }

  lemma PlainPropagated(s: State, id: JobId, row: Row)
    requires Logged(s) && Propagated(s.rows, s.deps) && id !in s.rows
    ensures Propagated(s.rows[id := row], s.deps)
  {
    LoggedNow(s);
    assert forall e <- s.deps :: EdgeOk(s.rows, e);
  }

  lemma PlainWorkflows(rows: Rows, b: WfBooks, exact: bool, id: JobId, row: Row)
    requires WorkflowsOk(rows, b, exact) && id !in rows && row.workflow.None?
    ensures WorkflowsOk(rows[id := row], b, exact)
  {
    var after := rows[id := row];
    forall v <- b.labels ensures CounterOk(after, b, v) && (exact ==> LabelOk(after, b, v)) {
      assert OpenNodes(after, v) == OpenNodes(rows, v);
      assert FailedNodes(after, v) == FailedNodes(rows, v);
      assert CounterOk(rows, b, v);
    }
  }

  lemma InsertPlaces(s: State, id: JobId, row: Row)
    requires Placed(s) && id !in s.rows
    ensures PlacedBut(InsertRow(s.(outstanding := s.outstanding + 1), id, row), id) && id !in s.inHand &&
            id !in s.dropped
  {
    var r := InsertRow(s.(outstanding := s.outstanding + 1), id, row);
    assert PlacedAt(s, id);
    forall x | x != id ensures PlacedAt(r, x) { assert PlacedAt(s, x); }
  }

  lemma PlainSafe(id: JobId, row: Row, crashes: nat)
    requires IsWaiting(row.state) && row.attempt == 0 && row.maxAttempts >= 1
    ensures TableSafe(map[id := row], {}, crashes)
  {
  }

  lemma AddOne(rows: Rows, id: JobId, row: Row)
    ensures rows + map[id := row] == rows[id := row]
  {
  }

  lemma PlainLogged(s: State, id: JobId, row: Row)
    requires Logged(s) && id !in s.rows && row.workflow.None? && IsWaiting(row.state)
    requires row.attempt == 0 && row.maxAttempts >= 1
    ensures Logged(InsertRow(s.(outstanding := s.outstanding + 1), id, row))
  {
    var added: Rows := map[id := row];
    hide Logged, TableSafe;
    PlainSafe(id, row, s.crashes);
    GrowLogged(s, added, {});
    AddOne(s.rows, id, row);
    AddOne(s.base, id, row);
    assert s.deps + {} == s.deps;
    LogOf(s.(rows := s.rows + added, base := s.base + added, deps := s.deps + {}),
          InsertRow(s.(outstanding := s.outstanding + 1), id, row));
  }

  lemma SubmitKeeps(s: State, id: JobId, maxAttempts: int, delay: int, now: int, typeKnown: bool, storeOk: bool)
    requires Inv(s) && id !in s.rows
    ensures Inv(Submit(s, id, maxAttempts, delay, now, typeKnown, storeOk).0)
  {
    if typeKnown && s.outstanding < s.capacity && storeOk {
      AdmitKeeps(s, id, FreshRow(maxAttempts, delay, now, None, 0));
    }
  }

  lemma AdmitKeeps(s: State, id: JobId, row: Row)
    requires Inv(s) && id !in s.rows && s.outstanding < s.capacity && row.workflow.None? && IsWaiting(row.state)
    requires row.attempt == 0 && row.maxAttempts >= 1
    ensures Inv(Enqueue(InsertRow(s.(outstanding := s.outstanding + 1), id, row), id))
  {
    hide Logged, Placed, PlacedBut, WorkflowsOk, CountsOk, Propagated, ChildrenOk, Live;
    var t := InsertRow(s.(outstanding := s.outstanding + 1), id, row);
    PlainLogged(s, id, row);
    PlainBooks(s, id, row);
    InsertPlaces(s, id, row);
    PlainLive(s.rows, id, row);
    assert Room(t);
    EnqueueKeeps(t, id);
    EnqueueLogged(t, id);
    SameBooks(t, Enqueue(t, id));
  }

  // ---- a workflow ----

  /** The row of a node just inserted, with `indegree` parents. */
  predicate IsFreshNode(row: Row, w: WfId, indegree: nat) {
    && row.workflow == Some(w) && row.attempt == 0 && row.maxAttempts >= 1 && row.pendingDeps == indegree
    && (if indegree > 0 then row.state.Pending? else IsWaiting(row.state))
  }

  ghost predicate FreshNodes(nodes: Rows, w: WfId, es: set<Edge>) {
    && (forall x <- nodes :: IsFreshNode(nodes[x], w, |Into(es, x)|))
    && (forall e <- es :: e.0 in nodes && e.1 in nodes)
  }

  lemma {:induction false} NodeRowsFresh(w: WfId, ids: seq<JobId>, specs: seq<NodeSpec>, es: set<Edge>, now: int)
    requires |ids| == |specs|
    ensures var nodes := NodeRows(w, ids, specs, es, now);
            && nodes.Keys == Elems(ids)
            && forall x <- nodes :: IsFreshNode(nodes[x], w, |Into(es, x)|)
  {
    if ids != [] {
      var k := |ids| - 1;
      NodeRowsFresh(w, ids[..k], specs[..k], es, now);
      assert ids == ids[..k] + [ids[k]];
    }
  }

  lemma FreshNodesSafe(nodes: Rows, w: WfId, es: set<Edge>, crashes: nat)
    requires FreshNodes(nodes, w, es)
    ensures TableSafe(nodes, es, crashes)
  {
    forall e <- es ensures EdgeOk(nodes, e) {
      assert e in Into(es, e.1);
      assert IsFreshNode(nodes[e.1], w, |Into(es, e.1)|) && IsFreshNode(nodes[e.0], w, |Into(es, e.0)|);
    }
  }

  lemma {:induction false} AddChildrenOk(children: map<JobId, seq<JobId>>, deps: set<Edge>, edges: seq<Edge>)
    requires ChildrenOk(deps, children) && Distinct(edges) && forall e <- edges :: e !in deps
    ensures ChildrenOk(deps + Elems(edges), AddChildren(children, edges))
  {
    if edges == [] {
      assert deps + Elems(edges) == deps;
    } else {
      var k := |edges| - 1;
      var e := edges[k];
      assert forall f <- edges[..k] :: f in edges;
      AddChildrenOk(children, deps, edges[..k]);
      assert edges == edges[..k] + [e];
      var es := deps + Elems(edges[..k]);
      assert e !in es by { assert e in edges && e !in edges[..k]; }
      AddChildOk(AddChildren(children, edges[..k]), es, e);
      assert es + {e} == deps + Elems(edges);
    }
  }

  lemma AddChildOk(children: map<JobId, seq<JobId>>, deps: set<Edge>, e: Edge)
    requires ChildrenOk(deps, children) && e !in deps
    ensures ChildrenOk(deps + {e}, children[e.0 := (if e.0 in children then children[e.0] else []) + [e.1]])
  {
  }

  lemma RankedUnion(rows: Rows, deps: set<Edge>, nodes: Rows, es: set<Edge>)
    requires Ranked(deps) && Ranked(es) && rows.Keys !! nodes.Keys
    requires forall e <- deps :: e.0 in rows && e.1 in rows
    requires forall e <- es :: e.0 in nodes && e.1 in nodes
    ensures Ranked(deps + es)
  {
    var r1 :| Ranks(deps, r1);
    var r2 :| Ranks(es, r2);
    var r := r1 + map x: JobId | x in r2 && x in nodes :: r2[x];
    assert Ranks(deps + es, r);
  }

  lemma GrownCounts(rows: Rows, deps: set<Edge>, pd: map<JobId, int>, exact: bool, nodes: Rows, w: WfId, es: set<Edge>)
    requires CountsOk(rows, deps, pd, exact, {}) && FreshNodes(nodes, w, es) && rows.Keys !! nodes.Keys
    requires forall e <- deps :: e.0 in rows && e.1 in rows
    ensures CountsOk(rows + nodes, deps + es, pd + NodeCounts(nodes), exact, {})
  {
    var all := rows + nodes;
    var pd' := pd + NodeCounts(nodes);
    forall x <- all | all[x].state.Pending?
      ensures x in pd' && pd'[x] >= |Unmet(all, deps + es, x)| && (exact ==> pd'[x] == |Unmet(all, deps + es, x)|) &&
              pd'[x] != 0
    {
      if x in nodes {
        assert Unmet(all, deps + es, x) == Into(es, x) by {
          assert forall e <- es :: IsFreshNode(nodes[e.0], w, |Into(es, e.0)|);
        }
        assert IsFreshNode(nodes[x], w, |Into(es, x)|);
      } else {
        assert Unmet(all, deps + es, x) == Unmet(rows, deps, x);
      }
    }
  }

  lemma GrownPropagated(rows: Rows, deps: set<Edge>, nodes: Rows, w: WfId, es: set<Edge>)
    requires Propagated(rows, deps) && FreshNodes(nodes, w, es) && rows.Keys !! nodes.Keys
    requires forall e <- deps :: e.0 in rows && e.1 in rows
    ensures Propagated(rows + nodes, deps + es)
  {
    forall e <- es ensures !IsTerminal((rows + nodes)[e.0].state) {
      assert IsFreshNode(nodes[e.0], w, |Into(es, e.0)|);
    }
  }

  ghost predicate AllOpen(nodes: Rows, w: WfId) {
    forall x <- nodes :: nodes[x].workflow == Some(w) && !IsTerminal(nodes[x].state)
  }

  lemma FreshNodesOpen(nodes: Rows, w: WfId, es: set<Edge>)
    requires FreshNodes(nodes, w, es)
    ensures AllOpen(nodes, w)
    ensures forall x <- nodes :: nodes[x].workflow == Some(w) && (nodes[x].state.Pending? || IsWaiting(nodes[x].state))
  {
    forall x <- nodes ensures nodes[x].workflow == Some(w) && (nodes[x].state.Pending? || IsWaiting(nodes[x].state)) {
      assert IsFreshNode(nodes[x], w, |Into(es, x)|);
    }
  }

  lemma LiveUnion(rows: Rows, nodes: Rows)
    requires forall x <- nodes :: !IsTerminal(nodes[x].state)
    requires rows.Keys !! nodes.Keys
    ensures Live(rows + nodes) == Live(rows) + nodes.Keys && Live(rows) !! nodes.Keys
  {
  }

  lemma GrownLive(rows: Rows, nodes: Rows, ids: seq<JobId>)
    requires forall x <- nodes :: !IsTerminal(nodes[x].state)
    requires rows.Keys !! nodes.Keys && Distinct(ids) && nodes.Keys == Elems(ids)
    ensures |Live(rows + nodes)| == |Live(rows)| + |ids|
    ensures |nodes.Keys| == |ids|
  {
    hide Live;
    ListsSize(ids, Elems(ids));
    LiveUnion(rows, nodes);
  }

  function NewBooks(b: WfBooks, w: WfId, n: nat): WfBooks {
    b.(labels := b.labels[w := WfRunning], remaining := b.remaining[w := n], failures := b.failures[w := 0])
  }

  lemma GrownOwn(rows: Rows, nodes: Rows, w: WfId)
    requires AllOpen(nodes, w)
    requires rows.Keys !! nodes.Keys && forall x <- rows :: rows[x].workflow != Some(w)
    ensures OpenNodes(rows + nodes, w) == nodes.Keys && FailedNodes(rows + nodes, w) == {}
  {
  }

  lemma GrownOther(rows: Rows, nodes: Rows, w: WfId, v: WfId)
    requires AllOpen(nodes, w)
    requires rows.Keys !! nodes.Keys && v != w
    ensures OpenNodes(rows + nodes, v) == OpenNodes(rows, v) && FailedNodes(rows + nodes, v) == FailedNodes(rows, v)
  {
  }

  lemma GrownBook(rows: Rows, b: WfBooks, exact: bool, nodes: Rows, w: WfId, v: WfId)
    requires WorkflowsOk(rows, b, exact) && rows.Keys !! nodes.Keys && w !in b.labels && nodes.Keys != {}
    requires AllOpen(nodes, w)
    requires v == w || v in b.labels
    ensures CounterOk(rows + nodes, NewBooks(b, w, |nodes.Keys|), v)
    ensures exact ==> LabelOk(rows + nodes, NewBooks(b, w, |nodes.Keys|), v)
  {
    hide OpenNodes, FailedNodes;
    if v == w {
      GrownOwn(rows, nodes, w);
    } else {
      GrownOther(rows, nodes, w, v);
      assert CounterOk(rows, b, v);
    }
  }

  lemma GrownWorkflows(rows: Rows, b: WfBooks, exact: bool, nodes: Rows, w: WfId)
    requires WorkflowsOk(rows, b, exact) && rows.Keys !! nodes.Keys && w !in b.labels && nodes.Keys != {}
    requires AllOpen(nodes, w)
    ensures WorkflowsOk(rows + nodes, NewBooks(b, w, |nodes.Keys|), exact)
  {
    hide CounterOk, LabelOk;
    var all := rows + nodes;
    var c := NewBooks(b, w, |nodes.Keys|);
    forall x <- all | all[x].workflow.Some? ensures all[x].workflow.value in c.labels {
      if x !in nodes { assert x in rows; }
    }
    forall v <- c.labels ensures CounterOk(all, c, v) && (exact ==> LabelOk(all, c, v)) {
      GrownBook(rows, b, exact, nodes, w, v);
    }
  }

  // ---- pushing the roots ----

  lemma {:induction false} RootsListed(rows: Rows, ids: seq<JobId>)
    requires Distinct(ids) && forall x <- ids :: x in rows
    ensures Distinct(Roots(rows, ids)) && forall x :: x in Roots(rows, ids) <==> x in ids && !rows[x].state.Pending?
  {
    if ids != [] {
      var k := |ids| - 1;
      assert forall x <- ids[..k] :: x in ids;
      RootsListed(rows, ids[..k]);
      assert ids == ids[..k] + [ids[k]];
      assert ids[k] in ids && ids[k] !in ids[..k];
    }
  }

  lemma {:induction false} EnqueueAllFields(s: State, ids: seq<JobId>)
    ensures EnqueueAll(s, ids) == s.(queue := EnqueueAll(s, ids).queue, dropped := EnqueueAll(s, ids).dropped)
  {
    if ids != [] {
      EnqueueAllFields(s, ids[..|ids| - 1]);
      EnqueueFields(EnqueueAll(s, ids[..|ids| - 1]), ids[|ids| - 1]);
    }
  }

  lemma {:induction false} EnqueueAllPlaces(s: State, ids: seq<JobId>, todo: set<JobId>)
    requires PlacedOutside(s, todo) && Room(s) && Distinct(ids)
    requires forall x <- ids :: x in todo && IsWaiting(s.rows[x].state)
    ensures PlacedOutside(EnqueueAll(s, ids), todo - Elems(ids)) && Room(EnqueueAll(s, ids))
  {
    hide PlacedOutside, Room, Enqueue, Distinct, Elems;
    if ids == [] {
      assert todo - Elems(ids) == todo by { NoElems(ids, todo); }
    } else {
      var k := |ids| - 1;
      LastApart(ids, todo);
      EnqueueAllPlaces(s, ids[..k], todo);
      EnqueueAllFields(s, ids[..k]);
      EnqueueOne(EnqueueAll(s, ids[..k]), ids[k], todo - Elems(ids[..k]));
    }
  }

  lemma NoElems(ids: seq<JobId>, todo: set<JobId>)
    requires ids == []
    ensures todo - Elems(ids) == todo
  {
  }

  lemma LastApart(ids: seq<JobId>, todo: set<JobId>)
    requires ids != [] && Distinct(ids)
    ensures var k := |ids| - 1;
            && Distinct(ids[..k]) && (forall x <- ids[..k] :: x in ids) && ids[k] in ids
            && ids[k] !in Elems(ids[..k]) && todo - Elems(ids[..k]) - {ids[k]} == todo - Elems(ids)
  {
    var k := |ids| - 1;
    assert ids == ids[..k] + [ids[k]];
  }

  lemma GrownPlaces(s: State, r: State, nodes: Rows, w: WfId, es: set<Edge>, roots: set<JobId>)
    requires Placed(s) && FreshNodes(nodes, w, es) && s.rows.Keys !! nodes.Keys
    requires r.rows == s.rows + nodes && r.queue == s.queue && r.inHand == s.inHand && r.running == s.running
    requires r.dropped == s.dropped
    requires forall x :: x in roots <==> x in nodes && !nodes[x].state.Pending?
    ensures PlacedOutside(r, roots)
  {
    forall x ensures if x in roots then Unplaced(r, x) else PlacedAt(r, x) {
      assert PlacedAt(s, x);
      if x in nodes { assert IsFreshNode(nodes[x], w, |Into(es, x)|); }
    }
  }

  // ---- the whole admission ----

  function Grown(s: State, w: WfId, ids: seq<JobId>, nodes: Rows, edges: seq<Edge>): State {
    s.(outstanding := s.outstanding + |ids|,
       rows := s.rows + nodes,
       base := s.base + nodes,
       deps := s.deps + Elems(edges),
       wf := NewBooks(s.wf, w, |ids|),
       children := AddChildren(s.children, edges),
       pendingDeps := s.pendingDeps + NodeCounts(nodes))
  }

  ghost predicate Admits(s: State, w: WfId, ids: seq<JobId>, nodes: Rows, edges: seq<Edge>) {
    && Distinct(ids) && ids != [] && nodes.Keys == Elems(ids)
    && s.rows.Keys !! nodes.Keys && w !in s.wf.labels
    && Distinct(edges) && FreshNodes(nodes, w, Elems(edges)) && Ranked(Elems(edges))
    && s.outstanding + |ids| <= s.capacity
  }

  lemma GrownChildren(s: State, w: WfId, ids: seq<JobId>, nodes: Rows, edges: seq<Edge>)
    requires Inv(s) && Admits(s, w, ids, nodes, edges)
    ensures ChildrenOk(s.deps + Elems(edges), AddChildren(s.children, edges)) && Ranked(s.deps + Elems(edges))
  {
    hide Logged, Placed, Room, ChildrenOk, Ranked, CountsOk, Propagated, WorkflowsOk, Live, FreshNodes, Distinct;
    DepsInRows(s);
    FreshEdges(nodes, w, Elems(edges));
    assert forall e <- edges :: e in Elems(edges) && e !in s.deps;
    AddChildrenOk(s.children, s.deps, edges);
    RankedUnion(s.rows, s.deps, nodes, Elems(edges));
  }

  lemma GrownSlots(s: State, w: WfId, ids: seq<JobId>, nodes: Rows, edges: seq<Edge>)
    requires Inv(s) && Admits(s, w, ids, nodes, edges)
    ensures |nodes.Keys| == |ids| && nodes.Keys != {} && s.outstanding + |ids| == |Live(s.rows + nodes)|
    ensures Room(Grown(s, w, ids, nodes, edges))
  {
    hide Logged, Placed, ChildrenOk, Ranked, CountsOk, Propagated, WorkflowsOk, Live, FreshNodes, Distinct;
    FreshNodesOpen(nodes, w, Elems(edges));
    GrownLive(s.rows, nodes, ids);
    assert ids[0] in nodes;
  }

  lemma GrownGraph(s: State, w: WfId, ids: seq<JobId>, nodes: Rows, edges: seq<Edge>)
    requires Inv(s) && Admits(s, w, ids, nodes, edges)
    ensures CountsOk(s.rows + nodes, s.deps + Elems(edges), s.pendingDeps + NodeCounts(nodes), s.crashes == 0, {})
    ensures s.crashes == 0 ==> Propagated(s.rows + nodes, s.deps + Elems(edges))
  {
    hide Logged, Placed, Room, ChildrenOk, Ranked, CountsOk, Propagated, WorkflowsOk, Live, FreshNodes, Distinct;
    DepsInRows(s);
    GrownCounts(s.rows, s.deps, s.pendingDeps, s.crashes == 0, nodes, w, Elems(edges));
    if s.crashes == 0 { GrownPropagated(s.rows, s.deps, nodes, w, Elems(edges)); }
  }

  lemma GrownLabels(s: State, w: WfId, ids: seq<JobId>, nodes: Rows, edges: seq<Edge>)
    requires Inv(s) && Admits(s, w, ids, nodes, edges)
    ensures WorkflowsOk(s.rows + nodes, NewBooks(s.wf, w, |ids|), s.crashes == 0)
  {
    hide Logged, Placed, Room, ChildrenOk, Ranked, CountsOk, Propagated, WorkflowsOk, Live, FreshNodes, Distinct;
    assert AllOpen(nodes, w) by { FreshNodesOpen(nodes, w, Elems(edges)); }
    hide AllOpen;
    GrownSlots(s, w, ids, nodes, edges);
    GrownWorkflows(s.rows, s.wf, s.crashes == 0, nodes, w);
  }

  lemma GrownBooks(s: State, w: WfId, ids: seq<JobId>, nodes: Rows, edges: seq<Edge>)
    requires Inv(s) && Admits(s, w, ids, nodes, edges)
    ensures Books(Grown(s, w, ids, nodes, edges))
  {
    hide Inv, Admits, ChildrenOk, Ranked, CountsOk, Propagated, WorkflowsOk, Live, NewBooks, NodeCounts, AddChildren,
         Elems;
    GrownSlots(s, w, ids, nodes, edges);
    GrownChildren(s, w, ids, nodes, edges);
    GrownGraph(s, w, ids, nodes, edges);
    GrownLabels(s, w, ids, nodes, edges);
  }

  lemma FreshEdges(nodes: Rows, w: WfId, es: set<Edge>)
    requires FreshNodes(nodes, w, es)
    ensures forall e <- es :: e.0 in nodes && e.1 in nodes
  {
  }

  lemma GrownLogged(s: State, w: WfId, ids: seq<JobId>, nodes: Rows, edges: seq<Edge>)
    requires Inv(s) && Admits(s, w, ids, nodes, edges)
    ensures Logged(Grown(s, w, ids, nodes, edges))
  {
    hide Logged, Placed, Room, Books, TableSafe;
    var es := Elems(edges);
    FreshNodesSafe(nodes, w, es, s.crashes);
    GrowLogged(s, nodes, es);
    LogOf(s.(rows := s.rows + nodes, base := s.base + nodes, deps := s.deps + es), Grown(s, w, ids, nodes, edges));
  }

  lemma PushRootsKeeps(s: State, w: WfId, ids: seq<JobId>, nodes: Rows, edges: seq<Edge>)
    requires Inv(s) && Admits(s, w, ids, nodes, edges)
    ensures Inv(EnqueueAll(Grown(s, w, ids, nodes, edges), Roots(nodes, ids)))
  {
    hide Logged, Placed, Room, Books, FreshNodes, PlacedOutside;
    var es := Elems(edges);
    var t := Grown(s, w, ids, nodes, edges);
    GrownBooks(s, w, ids, nodes, edges);
    GrownSlots(s, w, ids, nodes, edges);
    GrownLogged(s, w, ids, nodes, edges);
    assert forall x <- ids :: x in nodes;
    RootsListed(nodes, ids);
    var roots := Roots(nodes, ids);
    var todo := Elems(roots);
    GrownPlaces(s, t, nodes, w, es, todo);
    FreshNodesOpen(nodes, w, es);
    EnqueueAllPlaces(t, roots, todo);
    EnqueueAllFields(t, roots);
    var r := EnqueueAll(t, roots);
    SameLog(t, r);
    SameBooks(t, r);
    PlacedOutsideNone(r, todo - todo);
  }

  lemma PlacedOutsideNone(s: State, todo: set<JobId>)
    requires PlacedOutside(s, todo) && todo == {}
    ensures Placed(s)
  {
    forall x ensures PlacedAt(s, x) { assert x !in todo; }
  }

  lemma AddWorkflowKeeps(s: State, w: WfId, ids: seq<JobId>, specs: seq<NodeSpec>, edges: seq<Edge>, now: int)
    requires Inv(s) && WorkflowEnabled(s, w, ids, specs, edges)
    ensures Inv(AddWorkflow(s, w, ids, specs, edges, now))
  {
    hide Inv;
    var es := Elems(edges);
    var nodes := NodeRows(w, ids, specs, es, now);
    NodeRowsFresh(w, ids, specs, es, now);
    PushRootsKeeps(s, w, ids, nodes, edges);
  }
}
