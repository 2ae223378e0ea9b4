/** The recursive functions of the engine model on short lists, for the concrete runs. */
module EngineUnroll {
  import opened Jobs
  import opened EngineModel

  lemma NodeRowsNext(w: WfId, ids: seq<JobId>, x: JobId, specs: seq<NodeSpec>, spec: NodeSpec, es: set<Edge>, now: int)
    requires |ids| == |specs|
    ensures NodeRows(w, ids + [x], specs + [spec], es, now) ==
            NodeRows(w, ids, specs, es, now)[x := FreshRow(spec.maxAttempts, spec.delay, now, Some(w), |Into(es, x)|)]
  {
    assert (ids + [x])[..|ids|] == ids && (specs + [spec])[..|specs|] == specs;
  }

  lemma RootsNext(rows: Rows, ids: seq<JobId>, x: JobId)
    requires x in rows
    ensures Roots(rows, ids + [x]) == Roots(rows, ids) + if rows[x].state.Pending? then [] else [x]
  {
    assert (ids + [x])[..|ids|] == ids;
  }

  lemma ChildrenNext(children: map<JobId, seq<JobId>>, edges: seq<Edge>, p: JobId, c: JobId)
    ensures var before := AddChildren(children, edges);
            AddChildren(children, edges + [(p, c)]) == before[p := (if p in before then before[p] else []) + [c]]
  {
    assert (edges + [(p, c)])[..|edges|] == edges;
  }

  lemma EnqueueNext(s: State, ids: seq<JobId>, x: JobId)
    ensures EnqueueAll(s, ids + [x]) == Enqueue(EnqueueAll(s, ids), x)
  {
    assert (ids + [x])[..|ids|] == ids;
  }

  lemma SkipNext(s: State, order: seq<JobId>, x: JobId)
    ensures SkipAll(s, order + [x]) == Skip(SkipAll(s, order), x)
  {
    assert (order + [x])[..|order|] == order;
  }

  lemma RecoverNext(s: State, order: seq<JobId>, x: JobId, now: int)
    ensures RecoverAll(s, order + [x], now) == Recover(RecoverAll(s, order, now), x, now)
  {
    assert (order + [x])[..|order|] == order;
  }

  lemma UnblockNext(s: State, ready: seq<JobId>, c: JobId, now: int)
    ensures UnblockAll(s, ready + [c], now) == Unblock(UnblockAll(s, ready, now), c, now)
  {
    assert (ready + [c])[..|ready|] == ready;
  }

  lemma MeetOne(pd: map<JobId, int>, c: JobId)
    requires c in pd && pd[c] == 1
    ensures MeetDeps(pd, [c]) == (pd[c := 0], [c])
  {
    assert [c][..0] == [];
    assert MeetDeps(pd, []) == (pd, []);
    assert [] + [c] == [c];
    assert MeetDeps(pd, [c]) == (pd[c := pd[c] - 1], [] + [c]);
  }

  lemma MeetTwo(pd: map<JobId, int>, b: JobId, c: JobId)
    requires b in pd && c in pd && b != c && pd[b] == 1 && pd[c] == 1
    ensures MeetDeps(pd, [b, c]).0 == pd[b := 0][c := 0] && MeetDeps(pd, [b, c]).1 == [b, c]
  {
    MeetOne(pd, b);
    assert [b, c][..1] == [b];
    assert [b] + [c] == [b, c];
  }

  /** A success with one child, which waits for nothing else. */
  lemma ReleaseOne(t: State, p: JobId, c: JobId, now: int)
    requires Kids(t, p) == [c] && c in t.pendingDeps && t.pendingDeps[c] == 1
    ensures ReleaseDependents(t, p, now) == Unblock(t.(pendingDeps := t.pendingDeps[c := 0]), c, now)
  {
    hide Unblock;
    MeetOne(t.pendingDeps, c);
    hide MeetDeps;
    var u := t.(pendingDeps := t.pendingDeps[c := 0]);
    assert [c][..0] == [];
    assert UnblockAll(u, [], now) == u;
    assert UnblockAll(u, [c], now) == Unblock(u, c, now);
  }

  lemma PushTwo(t: State, x: JobId, y: JobId)
    requires t.queue == {} && t.capacity > 1
    ensures EnqueueAll(t, [x, y]) == t.(queue := {x, y}) && EnqueueAll(t, [x]) == t.(queue := {x})
  {
    assert EnqueueAll(t, []) == t;
    EnqueueNext(t, [], x);
    EnqueueNext(t, [x], y);
    assert [] + [x] == [x] && [x] + [y] == [x, y];
    assert {} + {x} == {x} && {x} + {y} == {x, y};
  }

  lemma SkipOne(t: State, x: JobId)
    requires x in t.rows && x !in t.queue
    ensures var row := t.rows[x].(state := Skipped);
            Skip(t, x) == t.(rows := t.rows[x := row], updates := t.updates + [(x, row)])
  {
    assert t.queue - {x} == t.queue;
  }

  lemma SkipTwo(t: State, b: JobId, c: JobId)
    requires b in t.rows && c in t.rows && b != c && b !in t.queue && c !in t.queue
    ensures SkipAll(t, [b, c]) == Skip(Skip(t, b), c)
    ensures var r := Skip(Skip(t, b), c);
            var x, y := t.rows[b].(state := Skipped), t.rows[c].(state := Skipped);
            r == t.(rows := t.rows[b := x][c := y], updates := t.updates + [(b, x)] + [(c, y)])
  {
    assert SkipAll(t, [b, c]) == Skip(Skip(t, b), c) by { SkipBoth(t, b, c); }
    hide SkipAll, Skip;
    SkipOne(t, b);
    SkipOne(Skip(t, b), c);
  }

  lemma SkipBoth(t: State, b: JobId, c: JobId)
    ensures SkipAll(t, [b, c]) == Skip(Skip(t, b), c)
  {
    var none: seq<JobId> := [];
    SkipNext(t, none, b);
    SkipNext(t, [b], c);
    assert none + [b] == [b] && [b] + [c] == [b, c];
    hide Skip;
  }

  /** A node that waits is cancelled: its row, its descendants, its workflow's counters, their slots. */
  lemma CancelsWaiting(s: State, id: JobId, row: Row, order: seq<JobId>)
    requires id in s.rows && IsWaiting(s.rows[id].state) &&
             row == s.rows[id].(state := Cancelled, cancelRequested := true)
    requires row.workflow.Some?
    ensures var u := SkipAll(Persist(s.(queue := s.queue - {id}), id, row), order);
            Cancel(s, id, 0, order).0 ==
            u.(wf := CountNodes(u.wf, row.workflow.value, true, 1 + |order|),
               outstanding := u.outstanding - |order| - 1)
  {
    hide SkipAll, CountNodes, ReleaseDependents;
  }

  lemma RecoverReady(t: State, x: JobId)
    requires x in t.rows && t.rows[x].state.Queued? && |t.queue| < t.capacity
    ensures Recover(t, x, 0) == t.(outstanding := t.outstanding + 1, queue := t.queue + {x})
  {
  }

  lemma RecoverBlocked(t: State, x: JobId)
    requires x in t.rows && t.rows[x].state.Pending?
    ensures Recover(t, x, 0) == t.(outstanding := t.outstanding + 1)
  {
  }

  /** The success of a node, with its bookkeeping. */
  lemma SucceedsNow(s: State, id: JobId, token: nat, row: Row, order: seq<JobId>)
    requires id in s.running && id in s.rows && s.running[id].token == token && s.running[id].reason.NoReason?
    requires row == s.rows[id].(state := Succeeded, leaseToken := 0, cancelRequested := false) && row.workflow.Some?
    ensures var u := ReleaseDependents(Persist(s.(running := s.running - {id}), id, row), id, 0);
            var r := Finish(s, id, token, false, None, true, 0, 0, order);
            r == u.(wf := r.wf, outstanding := r.outstanding)
  {
    hide ReleaseDependents, CountNodes, SkipAll;
  }

  // ---- runs, piece by piece ----

  /** The events lead from state to state. */
  ghost predicate Leads(run: seq<State>, events: seq<Event>) {
    && |run| == |events| + 1
    && forall i :: 0 <= i < |events| ==> Enabled(run[i], events[i]) && run[i + 1] == Apply(run[i], events[i])
  }

  lemma LeadsOne(s: State, e: Event, r: State)
    requires Enabled(s, e) && Apply(s, e) == r
    ensures Leads([s, r], [e])
  {
    hide Enabled, Apply;
  }

  lemma LeadsOn(run: seq<State>, events: seq<Event>, e: Event, r: State)
    requires Leads(run, events) && Enabled(run[|events|], e) && Apply(run[|events|], e) == r
    ensures Leads(run + [r], events + [e]) && (run + [r])[|events| + 1] == r
  {
    hide Enabled, Apply;
  }

  lemma LeadsFrom(run: seq<State>, events: seq<Event>, capacity: nat)
    requires Leads(run, events) && run[0] == Initial(capacity)
    ensures IsRun(run, events)
  {
    hide Enabled, Apply;
  }
}
