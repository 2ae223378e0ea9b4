/** Concrete runs: what a crash at the wrong moment does to a workflow. */
module EngineExamples {
  import opened Jobs
  import opened Graphs
  import opened EngineModel
  import opened EngineUnroll
  import opened EngineInvariant

  // ---- a verdict that outlives the rows it was computed from ----

  const W: WfId := 7
  const A: JobId := 1
  const B: JobId := 2

  function NodeRow(state: JobState, attempt: nat, token: nat, deps: nat): Row {
    Row(state, attempt, 1, deps, Some(W), token, false, 0)
  }

  function Labelled(verdict: WfLabel, remaining: map<WfId, int>, failures: map<WfId, int>,
                    finalized: multiset<WfId>): WfBooks {
    WfBooks(map[W := verdict], remaining, failures, finalized)
  }

  /** The states of a one-node workflow that succeeds, is lost in a crash, and fails when run again. */
  function Solo(row: Row, wf: WfBooks, queue: set<JobId>, inHand: multiset<JobId>, running: map<JobId, RunningInfo>,
                outstanding: int, base: Row, updates: seq<(JobId, Row)>, crashes: nat): State
  {
    State(1, map[A := row], {}, wf, queue, inHand, running, outstanding, map[], map[A := 0], map[A := base], updates,
          crashes, false, {})
  }

  const Open := Labelled(WfRunning, map[W := 1], map[W := 0], multiset{})
  const Done := Labelled(WfSucceeded, map[], map[], multiset{W})
  const Again := Labelled(WfSucceeded, map[W := 1], map[], multiset{W})
  const Fresh := NodeRow(Queued, 0, 0, 0)
  const Run1 := NodeRow(Running, 1, 5, 0)
  const Info1 := RunningInfo(5, "", 1, NoReason, false)
  const End1 := NodeRow(Succeeded, 1, 0, 0)
  const Back := NodeRow(Queued, 1, 0, 0)
  const Run2 := NodeRow(Running, 2, 6, 0)
  const Info2 := RunningInfo(6, "", 2, NoReason, false)
  const End2 := NodeRow(Failed, 2, 0, 0)

  lemma NoDescendants(s: State, x: JobId)
    requires s.deps == {}
    ensures OpenDescendants(s, x) == {} && Lists([], OpenDescendants(s, x))
  {
    forall y ensures !Reaches(s.deps, x, y) {
      if Reaches(s.deps, x, y) { var z := ReachesLastEdge(s.deps, x, y); }
    }
  }

  const NoEdges: seq<Edge> := []

  lemma SoloNodes()
    ensures var nodes := NodeRows(W, [A], [NodeSpec(1, 0)], Elems(NoEdges), 0);
            nodes == map[A := Fresh] && Roots(nodes, [A]) == [A] && NodeCounts(nodes) == map[A := 0]
  {
    assert Into(Elems(NoEdges), A) == {};
    assert FreshRow(1, 0, 0, Some(W), 0) == Fresh;
    assert NodeRows(W, [], [], Elems(NoEdges), 0) == map[];
    assert [A][..0] == [] && [NodeSpec(1, 0)][..0] == [];
    var nodes := NodeRows(W, [A], [NodeSpec(1, 0)], Elems(NoEdges), 0);
    assert Roots(nodes, []) == [];
  }

  lemma SoloPushed()
    ensures var t := Solo(Fresh, Open, {}, multiset{}, map[], 1, Fresh, [], 0);
            EnqueueAll(t, [A]) == t.(queue := {A})
  {
    var t := Solo(Fresh, Open, {}, multiset{}, map[], 1, Fresh, [], 0);
    assert [A][..0] == [];
    assert EnqueueAll(t, []) == t;
    assert {} + {A} == {A};
  }

  lemma SoloSubmitted()
    ensures var e := EWorkflow(W, [A], [NodeSpec(1, 0)], NoEdges, 0);
            Enabled(Initial(1), e) && Apply(Initial(1), e) == Solo(Fresh, Open, {A}, multiset{}, map[], 1, Fresh, [], 0)
  {
    SoloNodes();
    SoloPushed();
    hide NodeRows, Roots, NodeCounts, EnqueueAll;
    assert Ranks(Elems(NoEdges), map[]);
    assert {} + Elems(NoEdges) == {};
    var nodes := NodeRows(W, [A], [NodeSpec(1, 0)], Elems(NoEdges), 0);
    assert map[] + nodes == nodes;
    assert map[] + NodeCounts(nodes) == NodeCounts(nodes);
  }

  lemma SoloRuns()
    ensures var s1 := Solo(Fresh, Open, {A}, multiset{}, map[], 1, Fresh, [], 0);
            var s2 := Solo(Fresh, Open, {}, multiset{A}, map[], 1, Fresh, [], 0);
            var s3 := Solo(Run1, Open, {}, multiset{}, map[A := Info1], 1, Fresh, [(A, Run1)], 0);
            && Enabled(s1, EPop(A, 0)) && Apply(s1, EPop(A, 0)) == s2
            && Enabled(s2, EBegin(A, "", false, 5, 0, [])) && Apply(s2, EBegin(A, "", false, 5, 0, [])) == s3
  {
    NoDescendants(Solo(Fresh, Open, {}, multiset{A}, map[], 1, Fresh, [], 0), A);
  }

  lemma SoloSucceeds()
    ensures var s3 := Solo(Run1, Open, {}, multiset{}, map[A := Info1], 1, Fresh, [(A, Run1)], 0);
            var s4 := Solo(End1, Done, {}, multiset{}, map[], 0, Fresh, [(A, Run1), (A, End1)], 0);
            Enabled(s3, EFinish(A, 5, true, 0, 0, [])) && Apply(s3, EFinish(A, 5, true, 0, 0, [])) == s4
  {
    var s3 := Solo(Run1, Open, {}, multiset{}, map[A := Info1], 1, Fresh, [(A, Run1)], 0);
    NoDescendants(s3, A);
    var t := Persist(s3.(running := map[]), A, End1);
    assert s3.running - {A} == map[];
    assert Kids(t, A) == [];
    assert ReleaseDependents(t, A, 0) == t;
    assert CountNodes(Open, W, false, 1) == Done;
  }

  lemma SoloTable()
    ensures var updates := [(A, Run1), (A, End1)];
            var rows := map[A := Run1];
            && Replay(map[A := Fresh], updates[..1]) == rows
            && Live(rows) == {A} && LiveCounts(rows) == map[A := 0]
            && OpenWorkflows(rows) == {W} && OpenCounts(rows, {W}) == map[W := 1] && FailureCounts(rows, {W}) == map[]
  {
    var updates := [(A, Run1), (A, End1)];
    var rows: Rows := map[A := Run1];
    assert updates[..1] == [(A, Run1)] && [(A, Run1)][..0] == [];
    assert Replay(map[A := Fresh], []) == map[A := Fresh];
    assert OpenNodes(rows, W) == {A} && FailedNodes(rows, W) == {};
    assert OpenWorkflows(rows) == {W} by { assert rows[A].workflow.value in OpenWorkflows(rows); }
  }

  lemma SoloRecovered()
    ensures var t := Solo(Run1, Again, {}, multiset{}, map[], 0, Run1, [], 1);
            RecoverAll(t, [A], 0) == Solo(Back, Again, {A}, multiset{}, map[], 1, Run1, [(A, Back)], 1)
  {
    var t := Solo(Run1, Again, {}, multiset{}, map[], 0, Run1, [], 1);
    assert [A][..0] == [];
    assert RecoverAll(t, [], 0) == t;
    assert RecoverAll(t, [A], 0) == Recover(t, A, 0);
    assert {} + {A} == {A};
  }

  /** The crash keeps the label and the start of the attempt, and loses its end. */
  lemma SoloRestarts()
    ensures var s4 := Solo(End1, Done, {}, multiset{}, map[], 0, Fresh, [(A, Run1), (A, End1)], 0);
            var s5 := Solo(Back, Again, {A}, multiset{}, map[], 1, Run1, [(A, Back)], 1);
            Enabled(s4, ERestart(None, 1, [A], NoEdges, 0)) && Apply(s4, ERestart(None, 1, [A], NoEdges, 0)) == s5
  {
    SoloTable();
    SoloRecovered();
    hide Replay, Live, LiveCounts, OpenWorkflows, OpenCounts, FailureCounts, RecoverAll;
    var s4 := Solo(End1, Done, {}, multiset{}, map[], 0, Fresh, [(A, Run1), (A, End1)], 0);
    var t := Reopen(s4, 1, NoEdges);
    assert t == Solo(Run1, Again, {}, multiset{}, map[], 0, Run1, [], 1);
  }

  lemma SoloFails()
    ensures var s5 := Solo(Back, Again, {A}, multiset{}, map[], 1, Run1, [(A, Back)], 1);
            var s6 := Solo(Back, Again, {}, multiset{A}, map[], 1, Run1, [(A, Back)], 1);
            var s7 := Solo(Run2, Again, {}, multiset{}, map[A := Info2], 1, Run1, [(A, Back), (A, Run2)], 1);
            && Enabled(s5, EPop(A, 0)) && Apply(s5, EPop(A, 0)) == s6
            && Enabled(s6, EBegin(A, "", false, 6, 0, [])) && Apply(s6, EBegin(A, "", false, 6, 0, [])) == s7
            && Enabled(s7, EFinish(A, 6, false, 0, 0, []))
            && Apply(s7, EFinish(A, 6, false, 0, 0, [])).rows == map[A := End2]
            && Apply(s7, EFinish(A, 6, false, 0, 0, [])).wf.labels == map[W := WfSucceeded]
  {
    NoDescendants(Solo(Back, Again, {}, multiset{A}, map[], 1, Run1, [(A, Back)], 1), A);
    var s7 := Solo(Run2, Again, {}, multiset{}, map[A := Info2], 1, Run1, [(A, Back), (A, Run2)], 1);
    NoDescendants(s7, A);
    assert SkipAll(Persist(s7.(running := s7.running - {A}), A, End2), []) ==
           Persist(s7.(running := s7.running - {A}), A, End2);
  }

  /** After a crash a workflow can be labelled SUCCEEDED while its only node FAILED. */
  lemma VerdictCanBeFalse() returns (run: seq<State>, events: seq<Event>)
    ensures IsRun(run, events)
    ensures var s := run[|events|]; W in s.wf.labels && s.wf.labels[W].WfSucceeded? && A in FailedNodes(s.rows, W)
  {
    SoloSubmitted();
    SoloRuns();
    SoloSucceeds();
    SoloRestarts();
    SoloFails();
    hide Enabled, Apply;
    events := [EWorkflow(W, [A], [NodeSpec(1, 0)], NoEdges, 0), EPop(A, 0), EBegin(A, "", false, 5, 0, []),
               EFinish(A, 5, true, 0, 0, []),
               ERestart(None, 1, [A], NoEdges, 0), EPop(A, 0), EBegin(A, "", false, 6, 0, []),
               EFinish(A, 6, false, 0, 0, [])];
    var s7 := Solo(Run2, Again, {}, multiset{}, map[A := Info2], 1, Run1, [(A, Back), (A, Run2)], 1);
    run := [Initial(1),
            Solo(Fresh, Open, {A}, multiset{}, map[], 1, Fresh, [], 0),
            Solo(Fresh, Open, {}, multiset{A}, map[], 1, Fresh, [], 0),
            Solo(Run1, Open, {}, multiset{}, map[A := Info1], 1, Fresh, [(A, Run1)], 0),
            Solo(End1, Done, {}, multiset{}, map[], 0, Fresh, [(A, Run1), (A, End1)], 0),
            Solo(Back, Again, {A}, multiset{}, map[], 1, Run1, [(A, Back)], 1),
            Solo(Back, Again, {}, multiset{A}, map[], 1, Run1, [(A, Back)], 1),
            s7,
            Apply(s7, events[7])];
  }

  // ---- a node stranded by a restart ----

  const AB: Edge := (A, B)
  const AToB: seq<Edge> := [AB]
  const BPending := NodeRow(Pending, 0, 0, 1)
  const BReady := NodeRow(Queued, 0, 0, 0)
  const TwoSpecs: seq<NodeSpec> := [NodeSpec(1, 0), NodeSpec(1, 0)]

  /** The states of a workflow A -> B. */
  function Pair(a: Row, b: Row, wf: WfBooks, queue: set<JobId>, inHand: multiset<JobId>,
                running: map<JobId, RunningInfo>, outstanding: int, pd: map<JobId, int>, base: Rows,
                updates: seq<(JobId, Row)>, crashes: nat): State
  {
    State(2, map[A := a, B := b], {AB}, wf, queue, inHand, running, outstanding, map[A := [B]], pd, base, updates,
          crashes, false, {})
  }

  const Two := Labelled(WfRunning, map[W := 2], map[W := 0], multiset{})
  const One := Labelled(WfRunning, map[W := 1], map[W := 0], multiset{})
  const Rebuilt := Labelled(WfRunning, map[W := 1], map[], multiset{})
  const Start: Rows := map[A := Fresh, B := BPending]

  lemma PairNodes()
    ensures var nodes := NodeRows(W, [A, B], TwoSpecs, Elems(AToB), 0);
            nodes == Start && Roots(nodes, [A, B]) == [A] && NodeCounts(nodes) == map[A := 0, B := 1]
  {
    var es := Elems(AToB);
    assert Into(es, A) == {} && Into(es, B) == {AB};
    assert FreshRow(1, 0, 0, Some(W), 0) == Fresh && FreshRow(1, 0, 0, Some(W), 1) == BPending;
    assert [A, B][..1] == [A] && [A][..0] == [] && TwoSpecs[..1] == [NodeSpec(1, 0)] && [NodeSpec(1, 0)][..0] == [];
    assert NodeRows(W, [], [], es, 0) == map[];
    assert NodeRows(W, [A], [NodeSpec(1, 0)], es, 0) == map[A := Fresh];
    var nodes := NodeRows(W, [A, B], TwoSpecs, es, 0);
    assert nodes == Start;
    assert Roots(nodes, []) == [] && Roots(nodes, [A]) == [A];
  }

  lemma PairGraph()
    ensures AddChildren(map[], AToB) == map[A := [B]] && {} + Elems(AToB) == {AB} && Ranked(Elems(AToB)) &&
            Lists(AToB, {AB})
  {
    assert AToB[..0] == [];
    assert AddChildren(map[], []) == map[];
    assert [] + [B] == [B];
    var rank: map<JobId, int> := map[A := 0, B := 1];
    assert Ranks(Elems(AToB), rank);
  }

  lemma PairPushed()
    ensures var t := Pair(Fresh, BPending, Two, {}, multiset{}, map[], 2, map[A := 0, B := 1], Start, [], 0);
            EnqueueAll(t, [A]) == t.(queue := {A})
  {
    var t := Pair(Fresh, BPending, Two, {}, multiset{}, map[], 2, map[A := 0, B := 1], Start, [], 0);
    assert [A][..0] == [];
    assert EnqueueAll(t, []) == t;
    assert {} + {A} == {A};
  }

  lemma PairSubmitted()
    ensures var e := EWorkflow(W, [A, B], TwoSpecs, AToB, 0);
            Enabled(Initial(2), e) &&
            Apply(Initial(2), e) == Pair(Fresh, BPending, Two, {A}, multiset{}, map[], 2, map[A := 0, B := 1], Start,
                                         [], 0)
  {
    PairNodes();
    PairGraph();
    PairPushed();
    hide NodeRows, Roots, NodeCounts, EnqueueAll, AddChildren, Ranked;
    var nodes := NodeRows(W, [A, B], TwoSpecs, Elems(AToB), 0);
    assert map[] + nodes == nodes;
    assert map[] + NodeCounts(nodes) == NodeCounts(nodes);
  }

  lemma BelowA(s: State)
    requires s.deps == {AB} && B in s.rows && !IsTerminal(s.rows[B].state)
    ensures Lists([B], OpenDescendants(s, A))
  {
    ReachesByEdge(s.deps, A, B);
    forall y | Reaches(s.deps, A, y) ensures y == B { var z := ReachesLastEdge(s.deps, A, y); }
  }

  lemma PairRuns()
    ensures var pd := map[A := 0, B := 1];
            var s1 := Pair(Fresh, BPending, Two, {A}, multiset{}, map[], 2, pd, Start, [], 0);
            var s2 := Pair(Fresh, BPending, Two, {}, multiset{A}, map[], 2, pd, Start, [], 0);
            var s3 := Pair(Run1, BPending, Two, {}, multiset{}, map[A := Info1], 2, pd, Start, [(A, Run1)], 0);
            && Enabled(s1, EPop(A, 0)) && Apply(s1, EPop(A, 0)) == s2
            && Enabled(s2, EBegin(A, "", false, 5, 0, [B])) && Apply(s2, EBegin(A, "", false, 5, 0, [B])) == s3
  {
    hide OpenDescendants, Lists, Retire;
    BelowA(Pair(Fresh, BPending, Two, {}, multiset{A}, map[], 2, map[A := 0, B := 1], Start, [], 0));
  }

  const Blocked: map<JobId, int> := map[A := 0, B := 1]
  const Unblocked: map<JobId, int> := map[A := 0, B := 0]

  lemma PairReleases()
    ensures var t := Pair(End1, BPending, Two, {}, multiset{}, map[], 2, Blocked, Start, [(A, Run1), (A, End1)], 0);
            ReleaseDependents(t, A, 0) ==
            Pair(End1, BReady, Two, {B}, multiset{}, map[], 2, Unblocked, Start,
                 [(A, Run1), (A, End1), (B, BReady)], 0)
  {
    hide ReleaseDependents;
    var t := Pair(End1, BPending, Two, {}, multiset{}, map[], 2, Blocked, Start, [(A, Run1), (A, End1)], 0);
    ReleaseOne(t, A, B, 0);
    assert t.pendingDeps[B := 0] == Unblocked;
    assert {} + {B} == {B};
  }

  lemma PairCounts()
    ensures CountNodes(Two, W, false, 1) == One
  {
  }

  lemma PairSucceeds()
    ensures var s3 := Pair(Run1, BPending, Two, {}, multiset{}, map[A := Info1], 2, Blocked, Start, [(A, Run1)], 0);
            var s4 := Pair(End1, BReady, One, {B}, multiset{}, map[], 1, Unblocked, Start,
                           [(A, Run1), (A, End1), (B, BReady)], 0);
            Enabled(s3, EFinish(A, 5, true, 0, 0, [B])) && Apply(s3, EFinish(A, 5, true, 0, 0, [B])) == s4
  {
    PairReleases();
    PairCounts();
    hide ReleaseDependents, OpenDescendants, Lists, CountNodes, SkipAll;
    var s3 := Pair(Run1, BPending, Two, {}, multiset{}, map[A := Info1], 2, Blocked, Start, [(A, Run1)], 0);
    BelowA(s3);
    assert Persist(s3.(running := s3.running - {A}), A, End1) ==
           Pair(End1, BPending, Two, {}, multiset{}, map[], 2, Blocked, Start, [(A, Run1), (A, End1)], 0);
  }

  /** The crash loses the release of B. */
  lemma PairTable()
    ensures var updates := [(A, Run1), (A, End1), (B, BReady)];
            var rows := map[A := End1, B := BPending];
            && Replay(Start, updates[..2]) == rows
            && Live(rows) == {B} && LiveCounts(rows) == map[B := 1]
            && OpenWorkflows(rows) == {W} && OpenCounts(rows, {W}) == map[W := 1] && FailureCounts(rows, {W}) == map[]
  {
    var updates := [(A, Run1), (A, End1), (B, BReady)];
    var rows: Rows := map[A := End1, B := BPending];
    assert updates[..2] == [(A, Run1), (A, End1)];
    assert [(A, Run1), (A, End1)][..1] == [(A, Run1)] && [(A, Run1)][..0] == [];
    assert Replay(Start, []) == Start;
    assert Replay(Start, [(A, Run1)]) == map[A := Run1, B := BPending];
    assert OpenNodes(rows, W) == {B} && FailedNodes(rows, W) == {};
    assert OpenWorkflows(rows) == {W} by { assert rows[B].workflow.value in OpenWorkflows(rows); }
  }

  lemma PairRestarts()
    ensures var s4 := Pair(End1, BReady, One, {B}, multiset{}, map[], 1, map[A := 0, B := 0], Start,
                           [(A, Run1), (A, End1), (B, BReady)], 0);
            var rows := map[A := End1, B := BPending];
            var s5 := Pair(End1, BPending, Rebuilt, {}, multiset{}, map[], 1, map[B := 1], rows, [], 1);
            Enabled(s4, ERestart(None, 2, [B], AToB, 0)) && Apply(s4, ERestart(None, 2, [B], AToB, 0)) == s5
  {
    PairTable();
    PairGraph();
    hide Replay, Live, LiveCounts, OpenWorkflows, OpenCounts, FailureCounts, AddChildren;
    var s4 := Pair(End1, BReady, One, {B}, multiset{}, map[], 1, map[A := 0, B := 0], Start,
                   [(A, Run1), (A, End1), (B, BReady)], 0);
    var t := Reopen(s4, 2, AToB);
    var rows := map[A := End1, B := BPending];
    assert t == Pair(End1, BPending, Rebuilt, {}, multiset{}, map[], 0, map[B := 1], rows, [], 1);
    assert [B][..0] == [];
    assert RecoverAll(t, [], 0) == t;
    assert RecoverAll(t, [B], 0) == Recover(t, B, 0);
  }

  /**
   After a crash the only open job can be Pending with every parent succeeded: nothing is left that could
   release it.
   */
  lemma NodeCanBeStranded() returns (run: seq<State>, events: seq<Event>)
    ensures IsRun(run, events)
    ensures var s := run[|events|];
            && Live(s.rows) == {B} && s.rows[B].state.Pending? && Unmet(s.rows, s.deps, B) == {}
            && s.queue == {} && s.inHand == multiset{} && s.running == map[]
  {
    PairSubmitted();
    PairRuns();
    PairSucceeds();
    PairRestarts();
    PairTable();
    hide Enabled, Apply;
    events := [EWorkflow(W, [A, B], TwoSpecs, AToB, 0), EPop(A, 0), EBegin(A, "", false, 5, 0, [B]),
               EFinish(A, 5, true, 0, 0, [B]),
               ERestart(None, 2, [B], AToB, 0)];
    var pd := map[A := 0, B := 1];
    run := [Initial(2),
            Pair(Fresh, BPending, Two, {A}, multiset{}, map[], 2, pd, Start, [], 0),
            Pair(Fresh, BPending, Two, {}, multiset{A}, map[], 2, pd, Start, [], 0),
            Pair(Run1, BPending, Two, {}, multiset{}, map[A := Info1], 2, pd, Start, [(A, Run1)], 0),
            Pair(End1, BReady, One, {B}, multiset{}, map[], 1, map[A := 0, B := 0], Start,
                 [(A, Run1), (A, End1), (B, BReady)], 0),
            Pair(End1, BPending, Rebuilt, {}, multiset{}, map[], 1, map[B := 1], map[A := End1, B := BPending], [], 1)];
    assert Unmet(run[5].rows, run[5].deps, B) == {};
  }

  // ---- a failure whose propagation is lost ----

  const AFailed := NodeRow(Failed, 1, 0, 0)
  const BSkipped := NodeRow(Skipped, 0, 0, 1)
  const Lost := Labelled(WfFailed, map[], map[], multiset{W})
  const Reopened := Labelled(WfFailed, map[W := 1], map[W := 1], multiset{W})
  const FailureLog: seq<(JobId, Row)> := [(A, Run1), (A, AFailed), (B, BSkipped)]

  const FailedPair := Pair(AFailed, BPending, Two, {}, multiset{}, map[], 2, map[A := 0, B := 1], Start,
                           [(A, Run1), (A, AFailed)], 0)

  lemma PairSkips()
    ensures SkipAll(FailedPair, [B]) ==
            Pair(AFailed, BSkipped, Two, {}, multiset{}, map[], 2, map[A := 0, B := 1], Start, FailureLog, 0)
    ensures CountNodes(Two, W, true, 2) == Lost
  {
    assert [B][..0] == [];
    assert SkipAll(FailedPair, []) == FailedPair;
    assert SkipAll(FailedPair, [B]) == Skip(FailedPair, B);
  }

  lemma PairFails()
    ensures var pd := map[A := 0, B := 1];
            var s3 := Pair(Run1, BPending, Two, {}, multiset{}, map[A := Info1], 2, pd, Start, [(A, Run1)], 0);
            var s4 := Pair(AFailed, BSkipped, Lost, {}, multiset{}, map[], 0, pd, Start, FailureLog, 0);
            Enabled(s3, EFinish(A, 5, false, 0, 0, [B])) && Apply(s3, EFinish(A, 5, false, 0, 0, [B])) == s4
  {
    PairSkips();
    hide OpenDescendants, Lists, SkipAll, CountNodes;
    var s3 := Pair(Run1, BPending, Two, {}, multiset{}, map[A := Info1], 2, map[A := 0, B := 1], Start, [(A, Run1)], 0);
    BelowA(s3);
    assert Persist(s3.(running := s3.running - {A}), A, AFailed) == FailedPair;
  }

  /** The crash loses the skip of B. */
  lemma FailedTable()
    ensures var rows := map[A := AFailed, B := BPending];
            && Replay(Start, FailureLog[..2]) == rows
            && Live(rows) == {B} && LiveCounts(rows) == map[B := 1]
            && OpenWorkflows(rows) == {W} && OpenCounts(rows, {W}) == map[W := 1]
            && FailureCounts(rows, {W}) == map[W := 1]
  {
    var rows: Rows := map[A := AFailed, B := BPending];
    assert FailureLog[..2] == [(A, Run1), (A, AFailed)];
    assert [(A, Run1), (A, AFailed)][..1] == [(A, Run1)] && [(A, Run1)][..0] == [];
    assert Replay(Start, []) == Start;
    assert Replay(Start, [(A, Run1)]) == map[A := Run1, B := BPending];
    assert OpenNodes(rows, W) == {B} && FailedNodes(rows, W) == {A};
    assert OpenWorkflows(rows) == {W} by { assert rows[B].workflow.value in OpenWorkflows(rows); }
  }

  lemma FailedRestarts()
    ensures var pd := map[A := 0, B := 1];
            var s4 := Pair(AFailed, BSkipped, Lost, {}, multiset{}, map[], 0, pd, Start, FailureLog, 0);
            var rows := map[A := AFailed, B := BPending];
            var s5 := Pair(AFailed, BPending, Reopened, {}, multiset{}, map[], 1, map[B := 1], rows, [], 1);
            Enabled(s4, ERestart(None, 2, [B], AToB, 0)) && Apply(s4, ERestart(None, 2, [B], AToB, 0)) == s5
  {
    FailedTable();
    PairGraph();
    hide Replay, Live, LiveCounts, OpenWorkflows, OpenCounts, FailureCounts, AddChildren;
    var s4 := Pair(AFailed, BSkipped, Lost, {}, multiset{}, map[], 0, map[A := 0, B := 1], Start, FailureLog, 0);
    var t := Reopen(s4, 2, AToB);
    var rows := map[A := AFailed, B := BPending];
    assert t == Pair(AFailed, BPending, Reopened, {}, multiset{}, map[], 0, map[B := 1], rows, [], 1);
    assert [B][..0] == [];
    assert RecoverAll(t, [], 0) == t;
    assert RecoverAll(t, [B], 0) == Recover(t, B, 0);
  }

  /** After a crash a node can be Pending below a FAILED parent, with nothing left that would skip or release it. */
  lemma FailureCanBeLost() returns (run: seq<State>, events: seq<Event>)
    ensures IsRun(run, events)
    ensures var s := run[|events|];
            && Live(s.rows) == {B} && s.rows[B].state.Pending? && AB in s.deps
            && A in s.rows && s.rows[A].state.Failed?
            && s.queue == {} && s.inHand == multiset{} && s.running == map[]
  {
    PairSubmitted();
    PairRuns();
    PairFails();
    FailedRestarts();
    FailedTable();
    hide Enabled, Apply;
    events := [EWorkflow(W, [A, B], TwoSpecs, AToB, 0), EPop(A, 0), EBegin(A, "", false, 5, 0, [B]),
               EFinish(A, 5, false, 0, 0, [B]), ERestart(None, 2, [B], AToB, 0)];
    var pd := map[A := 0, B := 1];
    run := [Initial(2),
            Pair(Fresh, BPending, Two, {A}, multiset{}, map[], 2, pd, Start, [], 0),
            Pair(Fresh, BPending, Two, {}, multiset{A}, map[], 2, pd, Start, [], 0),
            Pair(Run1, BPending, Two, {}, multiset{}, map[A := Info1], 2, pd, Start, [(A, Run1)], 0),
            Pair(AFailed, BSkipped, Lost, {}, multiset{}, map[], 0, pd, Start, FailureLog, 0),
            Pair(AFailed, BPending, Reopened, {}, multiset{}, map[], 1, map[B := 1],
                 map[A := AFailed, B := BPending], [], 1)];
  }

  // ---- a workflow that has ended and stays RUNNING ----

  lemma SoloEnded()
    ensures var rows := map[A := End1];
            && Replay(map[A := Fresh], [(A, Run1), (A, End1)][..2]) == rows
            && Live(rows) == {} && LiveCounts(rows) == map[] && OpenNodes(rows, W) == {}
            && OpenWorkflows(rows) == {} && OpenCounts(rows, {}) == map[] && FailureCounts(rows, {}) == map[]
  {
    var updates := [(A, Run1), (A, End1)];
    var rows: Rows := map[A := End1];
    assert updates[..2] == updates && updates[..1] == [(A, Run1)] && [(A, Run1)][..0] == [];
    assert Replay(map[A := Fresh], []) == map[A := Fresh];
    assert Replay(map[A := Fresh], [(A, Run1)]) == map[A := Run1];
    assert Live(rows) == {} && OpenNodes(rows, W) == {};
  }

  /** The crash comes after the row of the last node and before the label. */
  lemma SoloUnlabelled()
    ensures var s3 := Solo(Run1, Open, {}, multiset{}, map[A := Info1], 1, Fresh, [(A, Run1)], 0);
            var e := ERestart(Some(EFinish(A, 5, true, 0, 0, [])), 2, [], NoEdges, 0);
            && Enabled(s3, e) && Apply(s3, e).rows == map[A := End1]
            && Apply(s3, e).wf.labels == map[W := WfRunning]
  {
    SoloSucceeds();
    SoloEnded();
    hide Replay, Live, LiveCounts, OpenWorkflows, OpenCounts, FailureCounts, OpEnabled, Perform;
    var s3 := Solo(Run1, Open, {}, multiset{}, map[A := Info1], 1, Fresh, [(A, Run1)], 0);
    var s4 := Solo(End1, Done, {}, multiset{}, map[], 0, Fresh, [(A, Run1), (A, End1)], 0);
    var u := Crashed(s3, Some(EFinish(A, 5, true, 0, 0, [])));
    assert u == s4.(wf := u.wf) && u.wf.labels == map[W := WfRunning];
  }

  /** After a crash a workflow whose only node has SUCCEEDED can be labelled RUNNING. */
  lemma EndedCanStayRunning() returns (run: seq<State>, events: seq<Event>)
    ensures IsRun(run, events)
    ensures var s := run[|events|];
            && W in s.wf.labels && s.wf.labels[W].WfRunning? && s.rows == map[A := End1] && OpenNodes(s.rows, W) == {}
  {
    SoloSubmitted();
    SoloRuns();
    SoloUnlabelled();
    SoloEnded();
    hide Enabled, Apply;
    events := [EWorkflow(W, [A], [NodeSpec(1, 0)], NoEdges, 0), EPop(A, 0), EBegin(A, "", false, 5, 0, []),
               ERestart(Some(EFinish(A, 5, true, 0, 0, [])), 2, [], NoEdges, 0)];
    var s3 := Solo(Run1, Open, {}, multiset{}, map[A := Info1], 1, Fresh, [(A, Run1)], 0);
    run := [Initial(1),
            Solo(Fresh, Open, {A}, multiset{}, map[], 1, Fresh, [], 0),
            Solo(Fresh, Open, {}, multiset{A}, map[], 1, Fresh, [], 0),
            s3,
            Apply(s3, events[3])];
  }
}
