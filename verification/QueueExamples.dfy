/** Concrete runs: accepted jobs that the queue of the next process has no room for. */
module QueueExamples {
  import opened Jobs
  import opened Graphs
  import opened EngineModel
  import opened EngineExamples

  // ---- no room at recovery ----

  function Plain(state: JobState, attempt: nat, token: nat): Row {
    Row(state, attempt, 1, 0, None, token, false, 0)
  }

  const Wait := Plain(Queued, 0, 0)
  const PlainRun := Plain(Running, 1, 5)
  const PlainEnd := Plain(Succeeded, 1, 0)
  const PlainLog: seq<(JobId, Row)> := [(A, PlainRun), (A, PlainEnd)]
  const AWaits: Rows := map[A := Wait]
  const ARuns: Rows := map[A := PlainRun]
  const AEnded: Rows := map[A := PlainEnd]
  const BWaits: Rows := map[A := PlainEnd, B := Fresh]
  const BothWait: Rows := map[A := Wait, B := Fresh]
  const NoBooks := WfBooks(map[], map[], map[], multiset{})
  const BCount: map<JobId, int> := map[B := 0]

  /** The states of an engine of capacity one that runs the job A, then accepts the workflow of the one node B. */
  function Small(rows: Rows, wf: WfBooks, queue: set<JobId>, inHand: multiset<JobId>, running: map<JobId, RunningInfo>,
                 outstanding: int, pd: map<JobId, int>, base: Rows, updates: seq<(JobId, Row)>): State
  {
    State(1, rows, {}, wf, queue, inHand, running, outstanding, map[], pd, base, updates, 0, false, {})
  }

  /** The states of its successor, which finds both jobs waiting. */
  function Cramped(queue: set<JobId>, outstanding: int, dropped: set<JobId>): State {
    State(1, BothWait, {}, Rebuilt, queue, multiset{}, map[], outstanding, map[], map[A := 0, B := 0], BothWait, [], 1,
          true, dropped)
  }

  lemma SmallSubmits()
    ensures var s1 := Small(AWaits, NoBooks, {A}, multiset{}, map[], 1, map[], AWaits, []);
            var e := ESubmit(A, 1, 0, 0, true, true);
            Enabled(Initial(1), e) && Apply(Initial(1), e) == s1
  {
    assert FreshRow(1, 0, 0, None, 0) == Wait;
    assert {} + {A} == {A};
  }

  lemma SmallRuns()
    ensures var s1 := Small(AWaits, NoBooks, {A}, multiset{}, map[], 1, map[], AWaits, []);
            var s2 := Small(AWaits, NoBooks, {}, multiset{A}, map[], 1, map[], AWaits, []);
            var s3 := Small(ARuns, NoBooks, {}, multiset{}, map[A := Info1], 1, map[], AWaits, [(A, PlainRun)]);
            && Enabled(s1, EPop(A, 0)) && Apply(s1, EPop(A, 0)) == s2
            && Enabled(s2, EBegin(A, "", false, 5, 0, [])) && Apply(s2, EBegin(A, "", false, 5, 0, [])) == s3
  {
    NoDescendants(Small(AWaits, NoBooks, {}, multiset{A}, map[], 1, map[], AWaits, []), A);
  }

  lemma SmallEnds()
    ensures var s3 := Small(ARuns, NoBooks, {}, multiset{}, map[A := Info1], 1, map[], AWaits, [(A, PlainRun)]);
            var s4 := Small(AEnded, NoBooks, {}, multiset{}, map[], 0, map[], AWaits, PlainLog);
            Enabled(s3, EFinish(A, 5, true, 0, 0, [])) && Apply(s3, EFinish(A, 5, true, 0, 0, [])) == s4
  {
    var s3 := Small(ARuns, NoBooks, {}, multiset{}, map[A := Info1], 1, map[], AWaits, [(A, PlainRun)]);
    NoDescendants(s3, A);
    assert s3.running - {A} == map[];
  }

  const OneSpec: seq<NodeSpec> := [NodeSpec(1, 0)]

  lemma SmallNodes()
    ensures var nodes := NodeRows(W, [B], OneSpec, Elems(NoEdges), 0);
            nodes == map[B := Fresh] && Roots(nodes, [B]) == [B] && NodeCounts(nodes) == BCount
  {
    assert Into(Elems(NoEdges), B) == {};
    assert FreshRow(1, 0, 0, Some(W), 0) == Fresh;
    assert NodeRows(W, [], [], Elems(NoEdges), 0) == map[];
    assert [B][..0] == [] && OneSpec[..0] == [];
    var nodes := NodeRows(W, [B], OneSpec, Elems(NoEdges), 0);
    assert Roots(nodes, []) == [];
  }

  lemma PushOne(t: State, x: JobId)
    requires t.queue == {} && t.capacity > 0
    ensures EnqueueAll(t, [x]) == t.(queue := {x})
  {
    assert [x][..0] == [];
    assert EnqueueAll(t, []) == t;
    assert {} + {x} == {x};
  }

  lemma SmallAdmits()
    ensures var s4 := Small(AEnded, NoBooks, {}, multiset{}, map[], 0, map[], AWaits, PlainLog);
            var s5 := Small(BWaits, Open, {B}, multiset{}, map[], 1, BCount, BothWait, PlainLog);
            var e := EWorkflow(W, [B], OneSpec, NoEdges, 0);
            Enabled(s4, e) && Apply(s4, e) == s5
  {
    SmallNodes();
    hide NodeRows, Roots, NodeCounts, EnqueueAll;
    var s4 := Small(AEnded, NoBooks, {}, multiset{}, map[], 0, map[], AWaits, PlainLog);
    assert Ranks(Elems(NoEdges), map[]);
    assert {} + Elems(NoEdges) == {};
    var nodes: Rows := map[B := Fresh];
    assert AEnded + nodes == BWaits && AWaits + nodes == BothWait && map[] + BCount == BCount;
    PushOne(Small(BWaits, Open, {}, multiset{}, map[], 1, BCount, BothWait, PlainLog), B);
  }

  lemma SmallTable()
    ensures Replay(BothWait, PlainLog[..0]) == BothWait && Live(BothWait) == {A, B} && |Live(BothWait)| == 2
    ensures LiveCounts(BothWait) == map[A := 0, B := 0] && RecountNodes(Open, BothWait) == Rebuilt
  {
    assert Live(BothWait) == {A, B};
    assert OpenNodes(BothWait, W) == {B} && FailedNodes(BothWait, W) == {};
    assert OpenWorkflows(BothWait) == {W} by { assert BothWait[B].workflow.value in OpenWorkflows(BothWait); }
    assert OpenCounts(BothWait, {W}) == map[W := 1] && FailureCounts(BothWait, {W}) == map[];
  }

  lemma SmallRecovers()
    ensures RecoverAll(Cramped({}, 0, {}), [A, B], 0) == Cramped({A}, 2, {B})
  {
    var t, u := Cramped({}, 0, {}), Cramped({A}, 1, {});
    assert [A, B][..1] == [A] && [A][..0] == [];
    assert RecoverAll(t, [], 0) == t;
    assert {} + {A} == {A} && {} + {B} == {B};
    assert Recover(t, A, 0) == u;
    assert RecoverAll(t, [A], 0) == u;
    assert Recover(u, B, 0) == Cramped({A}, 2, {B});
  }

  /** The crash loses A's whole attempt; both jobs wait again and the queue holds one. */
  lemma SmallRestarts()
    ensures var s5 := Small(BWaits, Open, {B}, multiset{}, map[], 1, BCount, BothWait, PlainLog);
            var e := ERestart(None, 0, [A, B], NoEdges, 0);
            Enabled(s5, e) && Apply(s5, e) == Cramped({A}, 2, {B})
  {
    SmallTable();
    SmallRecovers();
    hide Replay, Live, LiveCounts, RecountNodes, RecoverAll;
    var s5 := Small(BWaits, Open, {B}, multiset{}, map[], 1, BCount, BothWait, PlainLog);
    assert Reopen(s5, 0, NoEdges) == Cramped({}, 0, {});
  }

  /** After a crash an accepted job can be QUEUED in no queue. */
  lemma AcceptedCanBeDropped() returns (run: seq<State>, events: seq<Event>)
    ensures IsRun(run, events) && run[0].capacity == 1
    ensures var s := run[|events|];
            && B in s.rows && s.rows[B].state.Queued? && s.dropped == {B}
            && B !in s.queue && B !in s.inHand && B !in s.running
  {
    SmallSubmits();
    SmallRuns();
    SmallEnds();
    SmallAdmits();
    SmallRestarts();
    hide Enabled, Apply;
    events := [ESubmit(A, 1, 0, 0, true, true), EPop(A, 0), EBegin(A, "", false, 5, 0, []),
               EFinish(A, 5, true, 0, 0, []),
               EWorkflow(W, [B], OneSpec, NoEdges, 0), ERestart(None, 0, [A, B], NoEdges, 0)];
    run := [Initial(1),
            Small(AWaits, NoBooks, {A}, multiset{}, map[], 1, map[], AWaits, []),
            Small(AWaits, NoBooks, {}, multiset{A}, map[], 1, map[], AWaits, []),
            Small(ARuns, NoBooks, {}, multiset{}, map[A := Info1], 1, map[], AWaits, [(A, PlainRun)]),
            Small(AEnded, NoBooks, {}, multiset{}, map[], 0, map[], AWaits, PlainLog),
            Small(BWaits, Open, {B}, multiset{}, map[], 1, BCount, BothWait, PlainLog),
            Cramped({A}, 2, {B})];
  }
}
