/** A concrete run: a recovery that fits, and a later release of the same process that does not. */
module FanExamples {
  import opened Jobs
  import opened Graphs
  import opened EngineModel
  import opened EngineUnroll
  import opened EngineExamples

  // ---- the jobs ----

  const C: JobId := 3
  const P: JobId := 4
  const Q: JobId := 5
  const V: WfId := 8
  const Fan: seq<Edge> := [(A, B), (A, C)]
  const FanDeps: set<Edge> := {(A, B), (A, C)}
  const Spec := NodeSpec(1, 0)
  const PFresh := Row(Queued, 0, 1, 0, Some(V), 0, false, 0)
  const Tree: Rows := map[A := Fresh, B := BPending, C := BPending]
  const TreeCounts: map<JobId, int> := map[A := 0, B := 1, C := 1]
  const Extra: Rows := map[P := PFresh, Q := PFresh]
  const ExtraCounts: map<JobId, int> := map[P := 0, Q := 0]

  lemma FanGraph()
    ensures AddChildren(map[], Fan) == map[A := [B, C]] && Elems(Fan) == FanDeps && Ranked(FanDeps) && Distinct(Fan)
  {
    assert AddChildren(map[], []) == map[];
    ChildrenNext(map[], [], A, B);
    ChildrenNext(map[], [(A, B)], A, C);
    assert [] + [(A, B)] == [(A, B)] && [(A, B)] + [(A, C)] == Fan;
    assert [] + [B] == [B] && [B] + [C] == [B, C];
    var rank: map<JobId, int> := map[A := 0, B := 1, C := 1];
    assert Ranks(FanDeps, rank);
  }

  lemma FanInto()
    ensures |Into(FanDeps, A)| == 0 && |Into(FanDeps, B)| == 1 && |Into(FanDeps, C)| == 1
  {
    assert Into(FanDeps, A) == {} && Into(FanDeps, B) == {(A, B)} && Into(FanDeps, C) == {(A, C)};
  }

  lemma TreeNodes()
    ensures NodeRows(W, [A, B, C], [Spec, Spec, Spec], FanDeps, 0) == Tree
  {
    FanInto();
    assert NodeRows(W, [], [], FanDeps, 0) == map[];
    NodeRowsNext(W, [], A, [], Spec, FanDeps, 0);
    NodeRowsNext(W, [A], B, [Spec], Spec, FanDeps, 0);
    NodeRowsNext(W, [A, B], C, [Spec, Spec], Spec, FanDeps, 0);
    hide NodeRows, Into;
    assert [] + [A] == [A] && [A] + [B] == [A, B] && [A, B] + [C] == [A, B, C];
    assert [] + [Spec] == [Spec] && [Spec] + [Spec] == [Spec, Spec] && [Spec, Spec] + [Spec] == [Spec, Spec, Spec];
  }

  lemma TreeRoots()
    ensures Roots(Tree, [A, B, C]) == [A] && NodeCounts(Tree) == TreeCounts
  {
    assert Roots(Tree, []) == [];
    RootsNext(Tree, [], A);
    RootsNext(Tree, [A], B);
    RootsNext(Tree, [A, B], C);
    assert [] + [A] == [A] && [A] + [B] == [A, B] && [A, B] + [C] == [A, B, C];
  }

  lemma ExtraNodes()
    ensures NodeRows(V, [P, Q], [Spec, Spec], Elems(NoEdges), 0) == Extra
    ensures Roots(Extra, [P, Q]) == [P, Q] && NodeCounts(Extra) == ExtraCounts
  {
    assert Into(Elems(NoEdges), P) == {} && Into(Elems(NoEdges), Q) == {};
    assert NodeRows(V, [], [], Elems(NoEdges), 0) == map[];
    NodeRowsNext(V, [], P, [], Spec, Elems(NoEdges), 0);
    NodeRowsNext(V, [P], Q, [Spec], Spec, Elems(NoEdges), 0);
    assert [] + [P] == [P] && [P] + [Q] == [P, Q] && [] + [Spec] == [Spec] && [Spec] + [Spec] == [Spec, Spec];
    assert Roots(Extra, []) == [];
    RootsNext(Extra, [], P);
    RootsNext(Extra, [P], Q);
  }

  // ---- the first process ----

  const ACancelled := Row(Cancelled, 0, 1, 0, Some(W), 0, true, 0)
  const Stopped: Rows := map[A := ACancelled, B := BPending, C := BPending]
  const Cut: Rows := map[A := ACancelled, B := BSkipped, C := BSkipped]
  const CutLog: seq<(JobId, Row)> := [(A, ACancelled), (B, BSkipped), (C, BSkipped)]
  const TreeBooks := Labelled(WfRunning, map[W := 3], map[W := 0], multiset{})
  const MoreBooks := WfBooks(map[W := WfFailed, V := WfRunning], map[V := 2], map[V := 0], multiset{W})
  const All: Rows := Tree + Extra
  const CutAll: Rows := Cut + Extra

  /** The states of the process that takes both workflows. */
  function First(rows: Rows, wf: WfBooks, queue: set<JobId>, outstanding: int, pd: map<JobId, int>, base: Rows,
                 updates: seq<(JobId, Row)>): State
  {
    State(3, rows, FanDeps, wf, queue, multiset{}, map[], outstanding, map[A := [B, C]], pd, base, updates, 0,
          false, {})
  }

  lemma BelowFan(s: State)
    requires s.deps == FanDeps && B in s.rows && !IsTerminal(s.rows[B].state) && C in s.rows &&
             !IsTerminal(s.rows[C].state)
    ensures Lists([B, C], OpenDescendants(s, A))
  {
    ReachesByEdge(s.deps, A, B);
    ReachesByEdge(s.deps, A, C);
    forall y | Reaches(s.deps, A, y) ensures y == B || y == C { var z := ReachesLastEdge(s.deps, A, y); }
  }

  lemma TreeAdmitted()
    ensures var e := EWorkflow(W, [A, B, C], [Spec, Spec, Spec], Fan, 0);
            Enabled(Initial(3), e) && Apply(Initial(3), e) == First(Tree, TreeBooks, {A}, 3, TreeCounts, Tree, [])
  {
    FanGraph();
    TreeNodes();
    TreeRoots();
    hide NodeRows, Roots, NodeCounts, EnqueueAll, AddChildren, Ranked;
    assert {} + FanDeps == FanDeps && map[] + Tree == Tree && map[] + TreeCounts == TreeCounts;
    PushTwo(First(Tree, TreeBooks, {}, 3, TreeCounts, Tree, []), A, B);
  }

  lemma TreeSkips(pd: map<JobId, int>, base: Rows)
    ensures var t := First(Stopped, TreeBooks, {}, 3, pd, base, [(A, ACancelled)]);
            SkipAll(t, [B, C]) == First(Cut, TreeBooks, {}, 3, pd, base, CutLog)
  {
    hide SkipAll, Skip;
    SkipTwo(First(Stopped, TreeBooks, {}, 3, pd, base, [(A, ACancelled)]), B, C);
    assert Stopped[B := BSkipped][C := BSkipped] == Cut;
  }

  lemma TreeBooksClose()
    ensures CountNodes(TreeBooks, W, true, 3) == Lost
  {
  }

  lemma TreeCancelled(pd: map<JobId, int>, base: Rows)
    ensures var s := First(Tree, TreeBooks, {A}, 3, pd, base, []);
            Enabled(s, ECancel(A, 0, [B, C])) &&
            Apply(s, ECancel(A, 0, [B, C])) == First(Cut, Lost, {}, 0, pd, base, CutLog)
  {
    var s := First(Tree, TreeBooks, {A}, 3, pd, base, []);
    TreeSkips(pd, base);
    TreeBooksClose();
    BelowFan(s);
    CancelsWaiting(s, A, ACancelled, [B, C]);
    hide SkipAll, CountNodes, OpenDescendants, Lists, Cancel;
    assert {A} - {A} == {};
    assert Tree[A := ACancelled] == Stopped;
    hide Stopped, Cut;
    assert Persist(s.(queue := {}), A, ACancelled) == First(Stopped, TreeBooks, {}, 3, pd, base, [(A, ACancelled)]);
  }

  lemma ExtraEnabled(pd: map<JobId, int>)
    ensures WorkflowEnabled(First(Cut, Lost, {}, 0, pd, Tree, CutLog), V, [P, Q], [Spec, Spec], NoEdges)
  {
    assert Ranks(Elems(NoEdges), map[]);
  }

  lemma ExtraBooks()
    ensures WfBooks(Lost.labels[V := WfRunning], Lost.remaining[V := 2], Lost.failures[V := 0], Lost.finalized) ==
            MoreBooks
  {
  }

  lemma ExtraGrown(pd: map<JobId, int>)
    ensures AddWorkflow(First(Cut, Lost, {}, 0, pd, Tree, CutLog), V, [P, Q], [Spec, Spec], NoEdges, 0) ==
            First(CutAll, MoreBooks, {P, Q}, 2, pd + ExtraCounts, All, CutLog)
  {
    hide NodeRows, Roots, NodeCounts, EnqueueAll, Cut, Extra, Tree, ExtraCounts, MoreBooks, CutLog;
    ExtraNodes();
    ExtraBooks();
    PushTwo(First(CutAll, MoreBooks, {}, 2, pd + ExtraCounts, All, CutLog), P, Q);
    assert FanDeps + Elems(NoEdges) == FanDeps;
  }

  lemma ExtraAdmitted(pd: map<JobId, int>)
    ensures var s := First(Cut, Lost, {}, 0, pd, Tree, CutLog);
            var e := EWorkflow(V, [P, Q], [Spec, Spec], NoEdges, 0);
            Enabled(s, e) && Apply(s, e) == First(CutAll, MoreBooks, {P, Q}, 2, pd + ExtraCounts, All, CutLog)
  {
    ExtraEnabled(pd);
    ExtraGrown(pd);
    hide AddWorkflow, WorkflowEnabled, First;
  }

  // ---- the second process, over any table that holds the same five rows ----

  ghost predicate Five(rows: Rows) {
    && rows.Keys == {A, B, C, P, Q}
    && rows[A] == Fresh && rows[B] == BPending && rows[C] == BPending && rows[P] == PFresh && rows[Q] == PFresh
  }

  lemma AllIsFive()
    ensures Five(All)
  {
  }

  function Second(rows: Rows, wf: WfBooks, pd: map<JobId, int>, base: Rows, queue: set<JobId>, inHand: multiset<JobId>,
                  running: map<JobId, RunningInfo>, outstanding: int, updates: seq<(JobId, Row)>): State
  {
    State(3, rows, FanDeps, wf, queue, inHand, running, outstanding, map[A := [B, C]], pd, base, updates, 1, true, {})
  }

  lemma FiveOpen(rows: Rows)
    requires Five(rows)
    ensures Live(rows) == {A, B, C, P, Q} && |Live(rows)| == 5
    ensures B in LiveCounts(rows) && C in LiveCounts(rows) && LiveCounts(rows)[B] == LiveCounts(rows)[C] == 1
  {
    forall x <- rows ensures !IsTerminal(rows[x].state) {}
    assert Live(rows) == rows.Keys;
  }

  lemma RecoverFive(t: State)
    ensures RecoverAll(t, [A, B, C, P, Q], 0) ==
            Recover(Recover(Recover(Recover(Recover(t, A, 0), B, 0), C, 0), P, 0), Q, 0)
  {
    assert RecoverAll(t, [], 0) == t;
    RecoverNext(t, [], A, 0);
    RecoverNext(t, [A], B, 0);
    RecoverNext(t, [A, B], C, 0);
    RecoverNext(t, [A, B, C], P, 0);
    RecoverNext(t, [A, B, C, P], Q, 0);
    hide RecoverAll, Recover;
    assert [] + [A] == [A] && [A] + [B] == [A, B] && [A, B] + [C] == [A, B, C];
    assert [A, B, C] + [P] == [A, B, C, P] && [A, B, C, P] + [Q] == [A, B, C, P, Q];
  }

  lemma FiveRecovered(t: State)
    requires Five(t.rows) && t.queue == {} && t.capacity == 3
    ensures RecoverAll(t, [A, B, C, P, Q], 0) == t.(outstanding := t.outstanding + 5, queue := {A, P, Q})
  {
    RecoverFive(t);
    hide RecoverAll, Recover;
    RecoverReady(t, A);
    var t1 := t.(outstanding := t.outstanding + 1, queue := {A});
    assert {} + {A} == {A};
    RecoverBlocked(t1, B);
    var t2 := t1.(outstanding := t1.outstanding + 1);
    RecoverBlocked(t2, C);
    var t3 := t2.(outstanding := t2.outstanding + 1);
    RecoverReady(t3, P);
    var t4 := t3.(outstanding := t3.outstanding + 1, queue := {A, P});
    assert {A} + {P} == {A, P};
    RecoverReady(t4, Q);
    assert {A, P} + {Q} == {A, P, Q};
  }

  lemma FiveListed(rows: Rows)
    requires Five(rows)
    ensures Lists([A, B, C, P, Q], Live(rows)) && Lists(Fan, FanDeps) && |Live(rows)| > 3
  {
    FiveOpen(rows);
    hide Live, Five;
  }

  lemma KeepsNone(base: Rows, updates: seq<(JobId, Row)>)
    ensures Replay(base, updates[..0]) == base
  {
    assert updates[..0] == [];
  }

  lemma FiveReopened(rows: Rows, wf: WfBooks, pd: map<JobId, int>, base: Rows, updates: seq<(JobId, Row)>)
    requires Five(base)
    ensures Reopen(First(rows, wf, {P, Q}, 2, pd, base, updates), 0, Fan) ==
            Second(base, RecountNodes(wf, base), LiveCounts(base), base, {}, multiset{}, map[], 0, [])
  {
    FanGraph();
    FiveListed(base);
    KeepsNone(base, updates);
    hide Replay, Live, LiveCounts, RecountNodes, AddChildren, Lists, Five, Ranked, Distinct;
  }

  /** The crash loses the cancellation and all it caused; what waits afterwards fits into the queue. */
  lemma FiveRestarted(rows: Rows, wf: WfBooks, pd: map<JobId, int>, base: Rows, updates: seq<(JobId, Row)>)
    requires Five(base)
    ensures var s := First(rows, wf, {P, Q}, 2, pd, base, updates);
            var e := ERestart(None, 0, [A, B, C, P, Q], Fan, 0);
            && Enabled(s, e)
            && Apply(s, e) ==
               Second(base, RecountNodes(wf, base), LiveCounts(base), base, {A, P, Q}, multiset{}, map[], 5, [])
  {
    FiveReopened(rows, wf, pd, base, updates);
    FiveListed(base);
    KeepsNone(base, updates);
    FiveRecovered(Second(base, RecountNodes(wf, base), LiveCounts(base), base, {}, multiset{}, map[], 0, []));
    hide Replay, Live, LiveCounts, RecountNodes, RecoverAll, AddChildren, Lists, Five, Reopen;
  }

  lemma APops(rows: Rows, wf: WfBooks, pd: map<JobId, int>, base: Rows)
    requires Five(rows)
    ensures var s4 := Second(rows, wf, pd, base, {A, P, Q}, multiset{}, map[], 5, []);
            var s5 := Second(rows, wf, pd, base, {P, Q}, multiset{A}, map[], 5, []);
            Enabled(s4, EPop(A, 0)) && Apply(s4, EPop(A, 0)) == s5
  {
    assert {A, P, Q} - {A} == {P, Q};
  }

  lemma ABegins(rows: Rows, wf: WfBooks, pd: map<JobId, int>, base: Rows)
    requires Five(rows)
    ensures var s5 := Second(rows, wf, pd, base, {P, Q}, multiset{A}, map[], 5, []);
            var s6 := Second(rows[A := Run1], wf, pd, base, {P, Q}, multiset{}, map[A := Info1], 5, [(A, Run1)]);
            Enabled(s5, EBegin(A, "", false, 5, 0, [B, C])) && Apply(s5, EBegin(A, "", false, 5, 0, [B, C])) == s6
  {
    hide OpenDescendants, Lists, Retire;
    BelowFan(Second(rows, wf, pd, base, {P, Q}, multiset{A}, map[], 5, []));
  }

  /** A pending child is released into the queue, or, if that is full, out of it. */
  lemma UnblocksOne(t: State, c: JobId)
    requires c in t.rows && t.rows[c] == BPending
    ensures var r := Unblock(t, c, 0);
            && r.rows == t.rows[c := BReady] && r.capacity == t.capacity
            && r.inHand == t.inHand && r.running == t.running
            && (|t.queue| < t.capacity ==> r.queue == t.queue + {c} && r.dropped == t.dropped)
            && (|t.queue| >= t.capacity ==> r.queue == t.queue && r.dropped == t.dropped + {c})
  {
  }

  lemma UnblocksTwo(u: State)
    requires B in u.rows && u.rows[B] == BPending && C in u.rows && u.rows[C] == BPending
    requires u.queue == {P, Q} && u.capacity == 3 && u.dropped == {}
    ensures var r := UnblockAll(u, [B, C], 0);
            && r.rows == u.rows[B := BReady][C := BReady] && r.queue == {P, Q, B} && r.dropped == {C}
            && r.inHand == u.inHand && r.running == u.running
  {
    assert UnblockAll(u, [], 0) == u;
    UnblockNext(u, [], B, 0);
    UnblockNext(u, [B], C, 0);
    assert [] + [B] == [B] && [B] + [C] == [B, C];
    hide UnblockAll, Unblock;
    UnblocksOne(u, B);
    assert {P, Q} + {B} == {P, Q, B};
    UnblocksOne(Unblock(u, B, 0), C);
  }

  lemma FanReleases(t: State)
    requires B in t.rows && t.rows[B] == BPending && C in t.rows && t.rows[C] == BPending
    requires t.queue == {P, Q} && t.capacity == 3 && t.dropped == {} && t.children == map[A := [B, C]]
    requires B in t.pendingDeps && C in t.pendingDeps && t.pendingDeps[B] == t.pendingDeps[C] == 1
    ensures var r := ReleaseDependents(t, A, 0);
            && r.rows == t.rows[B := BReady][C := BReady] && r.queue == {P, Q, B} && r.dropped == {C}
            && r.inHand == t.inHand && r.running == t.running
  {
    MeetTwo(t.pendingDeps, B, C);
    hide MeetDeps, UnblockAll;
    UnblocksTwo(t.(pendingDeps := t.pendingDeps[B := 0][C := 0]));
  }

  lemma AReleases(rows: Rows, wf: WfBooks, pd: map<JobId, int>, base: Rows)
    requires Five(rows) && B in pd && C in pd && pd[B] == pd[C] == 1
    ensures var s6 := Second(rows[A := Run1], wf, pd, base, {P, Q}, multiset{}, map[A := Info1], 5, [(A, Run1)]);
            var e := EFinish(A, 5, true, 0, 0, [B, C]);
            && Enabled(s6, e)
            && var r := Apply(s6, e);
               && r.rows == rows[A := End1][B := BReady][C := BReady] && r.queue == {P, Q, B} && r.dropped == {C}
               && r.inHand == multiset{} && r.running == map[]
  {
    var s6 := Second(rows[A := Run1], wf, pd, base, {P, Q}, multiset{}, map[A := Info1], 5, [(A, Run1)]);
    BelowFan(s6);
    SucceedsNow(s6, A, 5, End1, [B, C]);
    hide Finish, ReleaseDependents, OpenDescendants, Lists;
    assert s6.running - {A} == map[];
    assert rows[A := Run1][A := End1] == rows[A := End1];
    FanReleases(Persist(s6.(running := map[]), A, End1));
  }

  // ---- the run ----

  lemma FirstProcess() returns (run: seq<State>, events: seq<Event>)
    ensures Leads(run, events) && |events| == 3 && run[0] == Initial(3)
    ensures run[3] == First(CutAll, MoreBooks, {P, Q}, 2, TreeCounts + ExtraCounts, All, CutLog)
  {
    TreeAdmitted();
    TreeCancelled(TreeCounts, Tree);
    ExtraAdmitted(TreeCounts);
    hide Enabled, Apply, Leads, First, All, CutAll, Tree, Cut, MoreBooks, TreeCounts, ExtraCounts, TreeBooks, CutLog;
    var e0, e1 := EWorkflow(W, [A, B, C], [Spec, Spec, Spec], Fan, 0), ECancel(A, 0, [B, C]);
    var e2 := EWorkflow(V, [P, Q], [Spec, Spec], NoEdges, 0);
    var s1 := First(Tree, TreeBooks, {A}, 3, TreeCounts, Tree, []);
    var s2 := First(Cut, Lost, {}, 0, TreeCounts, Tree, CutLog);
    var s3 := First(CutAll, MoreBooks, {P, Q}, 2, TreeCounts + ExtraCounts, All, CutLog);
    LeadsOne(Initial(3), e0, s1);
    LeadsOn([Initial(3), s1], [e0], e1, s2);
    LeadsOn([Initial(3), s1] + [s2], [e0] + [e1], e2, s3);
    run, events := [Initial(3), s1] + [s2] + [s3], [e0] + [e1] + [e2];
  }

  lemma Recovered() returns (run: seq<State>, events: seq<Event>)
    ensures Leads(run, events) && |events| == 4 && run[0] == Initial(3) && events[3].ERestart?
    ensures run[4] ==
            Second(All, RecountNodes(MoreBooks, All), LiveCounts(All), All, {A, P, Q}, multiset{}, map[], 5, [])
  {
    var run3, events3 := FirstProcess();
    AllIsFive();
    FiveRestarted(CutAll, MoreBooks, TreeCounts + ExtraCounts, All, CutLog);
    hide Enabled, Apply, Leads, First, Second, All, CutAll, MoreBooks, TreeCounts, ExtraCounts, CutLog, RecountNodes,
         LiveCounts, Five;
    var e := ERestart(None, 0, [A, B, C, P, Q], Fan, 0);
    var s4 := Second(All, RecountNodes(MoreBooks, All), LiveCounts(All), All, {A, P, Q}, multiset{}, map[], 5, []);
    LeadsOn(run3, events3, e, s4);
    run, events := run3 + [s4], events3 + [e];
    LeadsSizes(run3, events3);
  }

  lemma LeadsSizes(run: seq<State>, events: seq<Event>)
    requires Leads(run, events)
    ensures |run| == |events| + 1
  {
  }

  lemma FiveQueued(rows: Rows, wf: WfBooks, pd: map<JobId, int>)
    requires Five(rows)
    ensures var s := Second(rows, wf, pd, rows, {A, P, Q}, multiset{}, map[], 5, []);
            s.dropped == {} && forall x <- s.rows :: IsWaiting(s.rows[x].state) ==> x in s.queue
  {
  }

  /** The child that found no room. */
  ghost predicate Adrift(s: State, x: JobId) {
    && x in s.rows && s.rows[x].state.Queued? && s.dropped == {x}
    && x !in s.queue && x !in s.inHand && x !in s.running
  }

  lemma Continued(run: seq<State>, events: seq<Event>, rows: Rows, wf: WfBooks, pd: map<JobId, int>)
    returns (run': seq<State>, events': seq<Event>)
    requires Leads(run, events) && |events| == 4 && Five(rows) && B in pd && C in pd && pd[B] == pd[C] == 1
    requires run[4] == Second(rows, wf, pd, rows, {A, P, Q}, multiset{}, map[], 5, [])
    ensures Leads(run', events') && |events'| == 7 && run'[..5] == run && events'[..4] == events && Adrift(run'[7], C)
  {
    APops(rows, wf, pd, rows);
    ABegins(rows, wf, pd, rows);
    AReleases(rows, wf, pd, rows);
    LeadsSizes(run, events);
    hide Enabled, Apply, Leads, Second, Five;
    var e4, e5 := EPop(A, 0), EBegin(A, "", false, 5, 0, [B, C]);
    var e6 := EFinish(A, 5, true, 0, 0, [B, C]);
    var s5 := Second(rows, wf, pd, rows, {P, Q}, multiset{A}, map[], 5, []);
    var s6 := Second(rows[A := Run1], wf, pd, rows, {P, Q}, multiset{}, map[A := Info1], 5, [(A, Run1)]);
    LeadsOn(run, events, e4, s5);
    LeadsOn(run + [s5], events + [e4], e5, s6);
    LeadsOn(run + [s5] + [s6], events + [e4] + [e5], e6, Apply(s6, e6));
    run', events' := run + [s5] + [s6] + [Apply(s6, e6)], events + [e4] + [e5] + [e6];
  }

  /**
   A recovery can queue all that waits, and a release of the same process still find the queue full: the released node
   is QUEUED in no queue.
   */
  lemma ReleasedCanBeDropped() returns (run: seq<State>, events: seq<Event>)
    ensures IsRun(run, events) && |events| == 7 && events[3].ERestart? && run[4].dropped == {}
    ensures forall x <- run[4].rows :: IsWaiting(run[4].rows[x].state) ==> x in run[4].queue
    ensures Adrift(run[7], C)
  {
    var run4, events4 := Recovered();
    AllIsFive();
    FiveOpen(All);
    FiveQueued(All, RecountNodes(MoreBooks, All), LiveCounts(All));
    run, events := Continued(run4, events4, All, RecountNodes(MoreBooks, All), LiveCounts(All));
    hide Enabled, Apply, RecountNodes, LiveCounts, All, Second, Five, MoreBooks, Adrift, Leads;
    assert run[..5][0] == run[0] && run[..5][4] == run[4] && events[..4][3] == events[3];
    LeadsFrom(run, events, 3);
  }
}
