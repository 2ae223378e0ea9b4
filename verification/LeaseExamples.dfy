/** A run of the workflow 0 -> 1 -> 2 in which a revived node releases a child that is about to be skipped. */
module LeaseExamples {
  import opened Jobs
  import opened Graphs
  import opened Leases
  import opened LeaseGraph

  type Steps = seq<(Id, Event)>

  /** The steps lead from one state of the net to another. */
  ghost predicate Leads(deps: Deps, n: Net, steps: Steps, m: Net)
    decreases |steps|
  {
    if steps == [] then m == n
    else
      && NetEnabled(deps, n, steps[0].0, steps[0].1)
      && Leads(deps, NetApply(deps, n, steps[0].0, steps[0].1), steps[1..], m)
  }

  lemma {:induction false} LeadsOn(deps: Deps, n: Net, a: Steps, m: Net, b: Steps, k: Net)
    requires Leads(deps, n, a, m) && Leads(deps, m, b, k)
    ensures Leads(deps, n, a + b, k)
    decreases |a|
  {
    if a == [] {
      assert a + b == b;
    } else {
      assert (a + b)[1..] == a[1..] + b;
      LeadsOn(deps, NetApply(deps, n, a[0].0, a[0].1), a[1..], m, b, k);
    }
  }

  lemma {:induction false} StatesOf(deps: Deps, n: Net, steps: Steps, m: Net) returns (run: seq<Net>)
    requires Leads(deps, n, steps, m)
    ensures |run| == |steps| + 1 && run[0] == n && run[|steps|] == m
    ensures forall i :: 0 <= i < |steps| ==>
              && NetEnabled(deps, run[i], steps[i].0, steps[i].1)
              && run[i + 1] == NetApply(deps, run[i], steps[i].0, steps[i].1)
    decreases |steps|
  {
    hide Apply, Enabled, NetApply;
    if steps == [] {
      run := [n];
    } else {
      var rest := StatesOf(deps, NetApply(deps, n, steps[0].0, steps[0].1), steps[1..], m);
      run := [n] + rest;
    }
  }

  /** A step that ends nothing and revives nothing changes its job alone. */
  lemma Quietly(deps: Deps, n: Net, id: Id, e: Event, r: Job)
    requires id in n.jobs && Enabled(n.jobs[id], e) && Apply(n.jobs[id], e) == r && !e.ReleaseRead? && !e.Fail?
    requires !IsTerminal(n.jobs[id].row.state) && !IsTerminal(r.row.state)
    ensures Leads(deps, n, [(id, e)], n.(jobs := n.jobs[id := r]))
  {
    hide Apply, Enabled;
  }

  function Steps1(id: Id, events: seq<Event>): Steps {
    seq(|events|, k requires 0 <= k < |events| => (id, events[k]))
  }

  /** Steps of one job during which it is open, released and not failed by others. */
  lemma {:induction false} Stretch(deps: Deps, n: Net, id: Id, events: seq<Event>, run: seq<Job>)
    requires id in n.jobs && |run| == |events| + 1 && run[0] == n.jobs[id]
    requires forall i :: 0 <= i < |events| ==> Enabled(run[i], events[i]) && Apply(run[i], events[i]) == run[i + 1]
    requires forall e <- events :: !e.ReleaseRead? && !e.Fail?
    requires forall j <- run :: !IsTerminal(j.row.state)
    ensures Leads(deps, n, Steps1(id, events), n.(jobs := n.jobs[id := run[|events|]]))
    decreases |events|
  {
    hide Apply, Enabled, NetEnabled, NetApply;
    if events == [] {
      assert n.jobs[id := run[0]] == n.jobs;
    } else {
      var m := n.(jobs := n.jobs[id := run[1]]);
      assert run[0] in run && run[1] in run && events[0] in events;
      Quietly(deps, n, id, events[0], run[1]);
      Stretch(deps, m, id, events[1..], run[1..]);
      LeadsOn(deps, n, [(id, events[0])], m, Steps1(id, events[1..]), m.(jobs := m.jobs[id := run[|events|]]));
      assert [(id, events[0])] + Steps1(id, events[1..]) == Steps1(id, events);
      assert m.jobs[id := run[|events|]] == n.jobs[id := run[|events|]];
    }
  }

  // ---- the nodes ----

  const Chain: Deps := {(0, 1), (1, 2)}

  function Plain(state: JobState, attempt: nat, token: nat): Row {
    Row(state, attempt, 1, token, false)
  }

  const Waiting := Plain(Pending, 0, 0)
  const Idle := Job(Plain(Queued, 0, 0), None, Free, map[], true, false, map[], [], {})

  /** An idle job, run once: about to write its result, and done. */
  function Reporting(token: nat): Job {
    Job(Plain(Running, 1, token), None, Free, map[0 := Appended(token, Plain(Running, 1, token))], true, false,
        map[token := 1], [Record(1, token)], {})
  }

  function Done(token: nat): Job {
    Job(Plain(Succeeded, 1, 0), None, Free, map[], true, false, map[token := 1], [Record(1, token)], {})
  }

  function Begun(token: nat): Job {
    Idle.(section := Starting(Idle.row, token, ""))
  }

  function Attempting(token: nat, running: Option<Info>, call: Call): Job {
    Job(Plain(Running, 1, token), running, Free, map[0 := call], true, false, map[token := 1], [], {})
  }

  lemma Attempts(token: nat)
    requires token != 0
    ensures var copy := Plain(Running, 1, token);
            var s2 := Attempting(token, Some(Info(token, "", 1)), Holding(token, copy));
            var s3 := Attempting(token, None, Claimed(token, copy));
            && Enabled(Idle, BeginRead(token, "")) && Apply(Idle, BeginRead(token, "")) == Begun(token)
            && Enabled(Begun(token), BeginWrite(Some(0))) && Apply(Begun(token), BeginWrite(Some(0))) == s2
            && Enabled(s2, Claim(0)) && Apply(s2, Claim(0)) == s3
            && Enabled(s3, Append(0)) && Apply(s3, Append(0)) == Reporting(token)
  {
  }

  lemma Runs(token: nat) returns (run: seq<Job>, events: seq<Event>)
    requires token != 0
    ensures |run| == 5 && |events| == 4 && run[0] == Idle && run[4] == Reporting(token)
    ensures forall i :: 0 <= i < 4 ==> Enabled(run[i], events[i]) && Apply(run[i], events[i]) == run[i + 1]
    ensures (forall e <- events :: !e.ReleaseRead? && !e.Fail?) && forall j <- run :: !IsTerminal(j.row.state)
  {
    Attempts(token);
    hide Enabled, Apply;
    events := [BeginRead(token, ""), BeginWrite(Some(0)), Claim(0), Append(0)];
    var copy := Plain(Running, 1, token);
    run := [Idle, Begun(token), Attempting(token, Some(Info(token, "", 1)), Holding(token, copy)),
            Attempting(token, None, Claimed(token, copy)), Reporting(token)];
  }

  const Ok := Write(0, false, false, true)

  lemma Reports(token: nat)
    ensures Enabled(Reporting(token), Ok) && Apply(Reporting(token), Ok) == Done(token)
  {
    var calls: map<CallId, Call> := map[];
    assert Reporting(token).calls - {0} == calls;
  }

  function Counting(deps: Deps, met: map<Id, nat>, id: Id): map<Id, nat> {
    map c <- met :: met[c] + (if (id, c) in deps then 1 else 0)
  }

  /** An idle node runs, succeeds, and counts itself off its children. */
  lemma Succeeds(deps: Deps, n: Net, id: Id, token: nat) returns (steps: Steps)
    requires id in n.jobs && n.jobs[id] == Idle && token != 0
    ensures Leads(deps, n, steps,
                  n.(jobs := n.jobs[id := Done(token)], met := Counting(deps, n.met, id), won := n.won + {id}))
  {
    var run, events := Runs(token);
    Stretch(deps, n, id, events, run);
    Reports(token);
    var m := n.(jobs := n.jobs[id := Reporting(token)]);
    hide Apply, Enabled;
    assert m.jobs[id := Done(token)] == n.jobs[id := Done(token)];
    var k := n.(jobs := n.jobs[id := Done(token)], met := Counting(deps, n.met, id), won := n.won + {id});
    assert NetApply(deps, m, id, Ok) == k;
    assert Leads(deps, m, [(id, Ok)], k);
    steps := Steps1(id, events) + [(id, Ok)];
    LeadsOn(deps, n, Steps1(id, events), m, [(id, Ok)], k);
  }

  // ---- the run ----

  const Node := Job(Waiting, None, Free, map[], false, false, map[], [], {})
  const Released := Node.(released := true, calls := map[0 := Releasing(Waiting)])
  const Ended := Released.(row := Row(Cancelled, 0, 1, 0, true))
  const Doomed := Node.(doomed := true, calls := map[1 := Skipping(Waiting)])
  const Both := Doomed.(row := Plain(Queued, 0, 0), released := true)

  /** A node is cancelled between the read and the write of its release. */
  lemma CancelledInRelease()
    ensures Enabled(Node, ReleaseRead(0)) && Apply(Node, ReleaseRead(0)) == Released
    ensures var cancelling := Released.(section := Cancelling(Waiting));
            && Enabled(Released, CancelRead) && Apply(Released, CancelRead) == cancelling
            && Enabled(cancelling, CancelWrite) && Apply(cancelling, CancelWrite) == Ended
    ensures Enabled(Ended, ReleaseWrite(0, false)) && Apply(Ended, ReleaseWrite(0, false)) == Idle
  {
    var none: map<CallId, Call> := map[];
    assert Ended.calls - {0} == none;
  }

  /** Its child is about to be skipped, and is then released all the same. */
  lemma ReleasedInSkip()
    ensures Enabled(Node, Fail) && Apply(Node, Fail) == Node.(doomed := true)
    ensures Enabled(Node.(doomed := true), SkipRead(1)) && Apply(Node.(doomed := true), SkipRead(1)) == Doomed
    ensures var releasing := Doomed.(released := true, calls := map[1 := Skipping(Waiting), 2 := Releasing(Waiting)]);
            && Enabled(Doomed, ReleaseRead(2)) && Apply(Doomed, ReleaseRead(2)) == releasing
            && Enabled(releasing, ReleaseWrite(2, false)) && Apply(releasing, ReleaseWrite(2, false)) == Both
  {
    var both: map<CallId, Call> := map[1 := Skipping(Waiting), 2 := Releasing(Waiting)];
    assert both - {2} == Doomed.calls;
  }

  function Trio(p: Job, c: Job, counted: nat, won: set<Id>, lost: set<Id>, revived: set<Id>): Net {
    Net(map[0 := Done(7), 1 := p, 2 := c], map[0 := 0, 1 := 1, 2 := counted], won, lost, revived)
  }

  const Start := Net(map[0 := Idle, 1 := Node, 2 := Node], map[0 := 0, 1 := 0, 2 := 0], {}, {}, {})

  lemma ChainGraph()
    ensures Ranked(Chain) && Parents(Chain, 0) == {} && Parents(Chain, 1) == {0} && Parents(Chain, 2) == {1}
    ensures Reaches(Chain, 1, 2)
  {
    var rank: map<Id, int> := map[0 := 0, 1 := 1, 2 := 2];
    assert Ranks(Chain, rank);
    assert (0, 1) in Chain && (1, 2) in Chain;
    ReachesByEdge(Chain, 1, 2);
  }

  lemma StartIsStart()
    ensures Starts(Chain, Start)
  {
    ChainGraph();
    hide Parents;
  }

  lemma CountsOff(met: map<Id, nat>, id: Id, after: map<Id, nat>)
    requires met.Keys == after.Keys == {0, 1, 2}
    requires forall c <- met :: after[c] == met[c] + if c == id + 1 then 1 else 0
    requires id < 2
    ensures Counting(Chain, met, id) == after
  {
    forall c <- met ensures (id, c) in Chain <==> c == id + 1 {}
  }

  lemma FirstSucceeds() returns (steps: Steps)
    ensures Leads(Chain, Start, steps, Trio(Node, Node, 0, {0}, {}, {}))
  {
    hide Leads, Counting;
    var m := Trio(Node, Node, 0, {0}, {}, {});
    CountsOff(Start.met, 0, m.met);
    steps := Succeeds(Chain, Start, 0, 7);
    assert Start.jobs[0 := Done(7)] == m.jobs;
    assert {} + {0} == m.won;
  }

  lemma SecondSucceeds() returns (steps: Steps)
    ensures Leads(Chain, Trio(Idle, Doomed, 0, {0}, {1}, {1}), steps, Trio(Done(8), Doomed, 1, {0, 1}, {1}, {1}))
  {
    hide Leads, Counting;
    var n, m := Trio(Idle, Doomed, 0, {0}, {1}, {1}), Trio(Done(8), Doomed, 1, {0, 1}, {1}, {1});
    CountsOff(n.met, 1, m.met);
    steps := Succeeds(Chain, n, 1, 8);
    assert n.jobs[1 := Done(8)] == m.jobs;
    assert n.won + {1} == m.won;
  }

  lemma Step(n: Net, id: Id, e: Event, m: Net)
    requires NetEnabled(Chain, n, id, e) && NetApply(Chain, n, id, e) == m
    ensures Leads(Chain, n, [(id, e)], m)
  {
    hide NetEnabled, NetApply;
    var steps: Steps := [(id, e)];
    assert steps[1..] == [];
  }

  /** Job 1 is released, cancelled, and makes its child skippable. */
  lemma SecondCancelled() returns (steps: Steps)
    ensures Leads(Chain, Trio(Node, Node, 0, {0}, {}, {}), steps, Trio(Ended, Node, 0, {0}, {1}, {}))
  {
    CancelledInRelease();
    ChainGraph();
    hide Apply, Enabled, Leads, Parents;
    var n0 := Trio(Node, Node, 0, {0}, {}, {});
    var n1 := Trio(Released, Node, 0, {0}, {}, {});
    var n2 := Trio(Released.(section := Cancelling(Waiting)), Node, 0, {0}, {}, {});
    var n3 := Trio(Ended, Node, 0, {0}, {1}, {});
    assert NetApply(Chain, n0, 1, ReleaseRead(0)) == n1;
    Step(n0, 1, ReleaseRead(0), n1);
    assert NetApply(Chain, n1, 1, CancelRead) == n2;
    Step(n1, 1, CancelRead, n2);
    assert NetApply(Chain, n2, 1, CancelWrite) == n3;
    Step(n2, 1, CancelWrite, n3);
    steps := [(1, ReleaseRead(0))] + [(1, CancelRead)] + [(1, CancelWrite)];
    LeadsOn(Chain, n0, [(1, ReleaseRead(0))], n1, [(1, CancelRead)], n2);
    LeadsOn(Chain, n0, [(1, ReleaseRead(0))] + [(1, CancelRead)], n2, [(1, CancelWrite)], n3);
  }

  /** The skip of job 2 has read its row; the stale release brings job 1 back. */
  lemma SecondRevived() returns (steps: Steps)
    ensures Leads(Chain, Trio(Ended, Node, 0, {0}, {1}, {}), steps, Trio(Idle, Doomed, 0, {0}, {1}, {1}))
  {
    CancelledInRelease();
    ReleasedInSkip();
    ChainGraph();
    hide Apply, Enabled, Leads, Parents, Reaches;
    var n0 := Trio(Ended, Node, 0, {0}, {1}, {});
    var n1 := Trio(Ended, Node.(doomed := true), 0, {0}, {1}, {});
    var n2 := Trio(Ended, Doomed, 0, {0}, {1}, {});
    var n3 := Trio(Idle, Doomed, 0, {0}, {1}, {1});
    assert NetApply(Chain, n0, 2, Fail) == n1;
    Step(n0, 2, Fail, n1);
    assert NetApply(Chain, n1, 2, SkipRead(1)) == n2;
    Step(n1, 2, SkipRead(1), n2);
    assert NetApply(Chain, n2, 1, ReleaseWrite(0, false)) == n3;
    Step(n2, 1, ReleaseWrite(0, false), n3);
    steps := [(2, Fail)] + [(2, SkipRead(1))] + [(1, ReleaseWrite(0, false))];
    LeadsOn(Chain, n0, [(2, Fail)], n1, [(2, SkipRead(1))], n2);
    LeadsOn(Chain, n0, [(2, Fail)] + [(2, SkipRead(1))], n2, [(1, ReleaseWrite(0, false))], n3);
  }

  lemma ThirdReleased() returns (steps: Steps)
    ensures Leads(Chain, Trio(Done(8), Doomed, 1, {0, 1}, {1}, {1}), steps, Trio(Done(8), Both, 1, {0, 1}, {1}, {1}))
  {
    ReleasedInSkip();
    ChainGraph();
    hide Apply, Enabled, Leads, Parents, Reaches;
    var releasing := Doomed.(released := true, calls := map[1 := Skipping(Waiting), 2 := Releasing(Waiting)]);
    var n0 := Trio(Done(8), Doomed, 1, {0, 1}, {1}, {1});
    var n1 := Trio(Done(8), releasing, 1, {0, 1}, {1}, {1});
    var n2 := Trio(Done(8), Both, 1, {0, 1}, {1}, {1});
    assert NetApply(Chain, n0, 2, ReleaseRead(2)) == n1;
    Step(n0, 2, ReleaseRead(2), n1);
    assert NetApply(Chain, n1, 2, ReleaseWrite(2, false)) == n2;
    Step(n1, 2, ReleaseWrite(2, false), n2);
    steps := [(2, ReleaseRead(2))] + [(2, ReleaseWrite(2, false))];
    LeadsOn(Chain, n0, [(2, ReleaseRead(2))], n1, [(2, ReleaseWrite(2, false))], n2);
  }

  /** A clash: job 2 is queued although the skip of it is under way. */
  lemma ClashArises() returns (steps: Steps)
    ensures Leads(Chain, Start, steps, Trio(Done(8), Both, 1, {0, 1}, {1}, {1}))
  {
    hide Leads;
    var a := FirstSucceeds();
    var b := SecondCancelled();
    var c := SecondRevived();
    var d := SecondSucceeds();
    var e := ThirdReleased();
    var n1, n2 := Trio(Node, Node, 0, {0}, {}, {}), Trio(Ended, Node, 0, {0}, {1}, {});
    var n3, n4 := Trio(Idle, Doomed, 0, {0}, {1}, {1}), Trio(Done(8), Doomed, 1, {0, 1}, {1}, {1});
    LeadsOn(Chain, Start, a, n1, b, n2);
    LeadsOn(Chain, Start, a + b, n2, c, n3);
    LeadsOn(Chain, Start, a + b + c, n3, d, n4);
    LeadsOn(Chain, Start, a + b + c + d, n4, e, Trio(Done(8), Both, 1, {0, 1}, {1}, {1}));
    steps := a + b + c + d + e;
  }

  /** Steps of one job that need nothing of the others, inside the net. */
  lemma {:induction false} Lift(deps: Deps, n: Net, id: Id, events: seq<Event>, run: seq<Job>) returns (m: Net)
    requires id in n.jobs && |run| == |events| + 1 && run[0] == n.jobs[id]
    requires forall i :: 0 <= i < |events| ==> Enabled(run[i], events[i]) && Apply(run[i], events[i]) == run[i + 1]
    requires forall e <- events :: !e.ReleaseRead? && !e.Fail?
    ensures Leads(deps, n, Steps1(id, events), m) && id in m.jobs && m.jobs[id] == run[|events|]
    decreases |events|
  {
    hide Apply, Enabled, Wins, Loses, Revives;
    if events == [] {
      m := n;
    } else {
      assert events[0] in events;
      m := Lift(deps, NetApply(deps, n, id, events[0]), id, events[1..], run[1..]);
      assert Steps1(id, events)[1..] == Steps1(id, events[1..]);
    }
  }

  const Taken := Both.(section := Starting(Both.row, 9, "w"))
  const Leased := Both.(row := Plain(Running, 1, 9), running := Some(Info(9, "w", 1)), issued := map[9 := 1])
  const Gone := Plain(Skipped, 0, 0)
  const Lapsed := Leased.(row := Gone, calls := map[])

  lemma BeginsThenSkipped()
    ensures Enabled(Both, BeginRead(9, "w")) && Apply(Both, BeginRead(9, "w")) == Taken
    ensures Enabled(Taken, BeginWrite(None)) && Apply(Taken, BeginWrite(None)) == Leased
    ensures Enabled(Leased, SkipWrite(1)) && Apply(Leased, SkipWrite(1)) == Lapsed
  {
    var none: map<CallId, Call> := map[];
    assert Leased.calls - {1} == none;
  }

  lemma ReportsLapsed() returns (run: seq<Job>)
    ensures |run| == 5 && run[0] == Lapsed && run[4].recorded == [Record(0, 9)] && run[4].issued == map[9 := 1]
    ensures var events := [Check(3, "w", 1, 9), Read(3), Claim(3), Append(3)];
            forall i :: 0 <= i < 4 ==> Enabled(run[i], events[i]) && Apply(run[i], events[i]) == run[i + 1]
  {
    var s4 := Lapsed.(calls := map[3 := Checked(9)]);
    assert s4 == Apply(Lapsed, Check(3, "w", 1, 9));
    var s5 := Lapsed.(calls := map[3 := Holding(9, Gone)]);
    assert s5 == Apply(s4, Read(3));
    var s6 := Lapsed.(calls := map[3 := Claimed(9, Gone)], running := None);
    assert s6 == Apply(s5, Claim(3));
    run := [Lapsed, s4, s5, s6, Apply(s6, Append(3))];
  }

  /**
   A run of the workflow in which the skip of a node lands while its attempt runs, and the result of that attempt, the
   first, is recorded under attempt 0.
   */
  lemma WrongAttempt() returns (run: seq<Net>, events: seq<(Id, Event)>)
    ensures IsNetRun(Chain, run, events) && 2 in run[|events|].jobs
    ensures run[|events|].jobs[2].recorded == [Record(0, 9)] && run[|events|].jobs[2].issued == map[9 := 1]
  {
    var steps := ClashArises();
    StartIsStart();
    BeginsThenSkipped();
    var tail := ReportsLapsed();
    hide Apply, Enabled, Leads, Starts, NetEnabled, NetApply;
    var es := [BeginRead(9, "w"), BeginWrite(None), SkipWrite(1), Check(3, "w", 1, 9), Read(3), Claim(3), Append(3)];
    var n := Trio(Done(8), Both, 1, {0, 1}, {1}, {1});
    var m := Lift(Chain, n, 2, es, [Both, Taken, Leased] + tail);
    LeadsOn(Chain, Start, steps, n, Steps1(2, es), m);
    events := steps + Steps1(2, es);
    run := StatesOf(Chain, Start, events, m);
  }

  const Unbegun := Taken.(row := Gone, calls := map[])

  lemma SkippedThenBegins()
    ensures Enabled(Both, BeginRead(9, "w")) && Apply(Both, BeginRead(9, "w")) == Taken
    ensures Enabled(Taken, SkipWrite(1)) && Apply(Taken, SkipWrite(1)) == Unbegun
    ensures Enabled(Unbegun, BeginWrite(None)) && Apply(Unbegun, BeginWrite(None)).row.state.Running?
  {
    var none: map<CallId, Call> := map[];
    assert Taken.calls - {1} == none;
  }

  /** A run in which a SKIPPED row below a revived node is brought back to life by the start of an attempt. */
  lemma SkippedCanStart() returns (run: seq<Net>, events: seq<(Id, Event)>)
    ensures IsNetRun(Chain, run, events) && |events| > 0
    ensures var i := |events| - 1;
            && 2 in run[i].jobs && run[i].jobs[2].row.state.Skipped? && events[i] == (2, BeginWrite(None))
            && 2 in run[i + 1].jobs && run[i + 1].jobs[2].row.state.Running?
  {
    var steps := ClashArises();
    StartIsStart();
    SkippedThenBegins();
    hide Apply, Enabled, Leads, Starts, NetEnabled, NetApply;
    var es := [BeginRead(9, "w"), SkipWrite(1)];
    var n := Trio(Done(8), Both, 1, {0, 1}, {1}, {1});
    var m := Lift(Chain, n, 2, es, [Both, Taken, Unbegun]);
    var k := Lift(Chain, m, 2, [BeginWrite(None)], [Unbegun, Apply(Unbegun, BeginWrite(None))]);
    LeadsOn(Chain, Start, steps, n, Steps1(2, es), m);
    var run0 := StatesOf(Chain, Start, steps + Steps1(2, es), m);
    var run1 := StatesOf(Chain, m, Steps1(2, [BeginWrite(None)]), k);
    run, events := run0 + [k], steps + Steps1(2, es) + [(2, BeginWrite(None))];
  }
}
