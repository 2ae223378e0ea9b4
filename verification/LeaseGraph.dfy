/**
 The lease machines of all nodes of a workflow, tied together by its graph: a node is released when the counter of
 succeeded parents is full, and skipped below a job that ended without success. Here it is shown where a clash, a node
 that is both, can come from.
 */
module LeaseGraph {
  import opened Jobs
  import opened Graphs
  import opened Leases

  type Id = nat
  type Deps = set<(Id, Id)>

  datatype Net = Net(
    jobs: map<Id, Job>,
    met: map<Id, nat>,                  // how many successes of parents each node has counted
    // history
    won: set<Id>,                       // jobs that have ended with success at some time
    lost: set<Id>,                      // jobs that have ended without success at some time
    revived: set<Id>)                   // jobs whose terminal row was brought back to life

  function Parents(deps: Deps, c: Id): set<Id> {
    set d <- deps | d.1 == c :: d.0
  }

  /** The step ends the job with success, and its on_terminal counts it off its children. */
  predicate Wins(j: Job, e: Event)
    requires Enabled(j, e)
  {
    e.Write? && Apply(j, e).row.state.Succeeded?
  }

  /** The step ends the job without success, and its on_terminal starts to skip what is below. */
  predicate Loses(j: Job, e: Event)
    requires Enabled(j, e)
  {
    && (e.BeginWrite? || e.Write? || e.ReclaimWrite? || e.CancelWrite?)
    && IsTerminal(Apply(j, e).row.state) && !Apply(j, e).row.state.Succeeded?
  }

  ghost predicate NetEnabled(deps: Deps, n: Net, id: Id, e: Event) {
    && id in n.jobs && Enabled(n.jobs[id], e)
    && (e.ReleaseRead? ==> id in n.met && n.met[id] >= |Parents(deps, id)|)
    && (e.Fail? ==> exists a :: a in n.lost && Reaches(deps, a, id))
  }

  function NetApply(deps: Deps, n: Net, id: Id, e: Event): Net
    requires id in n.jobs && Enabled(n.jobs[id], e)
  {
    var j := n.jobs[id];
    Net(n.jobs[id := Apply(j, e)],
        if Wins(j, e) then map c <- n.met :: n.met[c] + (if (id, c) in deps then 1 else 0) else n.met,
        if Wins(j, e) then n.won + {id} else n.won,
        if Loses(j, e) then n.lost + {id} else n.lost,
        if Revives(j, e) then n.revived + {id} else n.revived)
  }

  ghost predicate Starts(deps: Deps, n: Net) {
    && Ranked(deps) && (forall d <- deps :: d.0 in n.jobs && d.1 in n.jobs)
    && (forall c <- n.jobs :: n.jobs[c] == Initial(n.jobs[c].row.maxAttempts, Parents(deps, c) != {}))
    && n.met == (map c <- n.jobs :: 0) && n.won == {} && n.lost == {} && n.revived == {}
  }

  ghost predicate IsNetRun(deps: Deps, run: seq<Net>, events: seq<(Id, Event)>) {
    && |run| == |events| + 1 && Starts(deps, run[0])
    && forall i :: 0 <= i < |events| ==>
         && NetEnabled(deps, run[i], events[i].0, events[i].1)
         && run[i + 1] == NetApply(deps, run[i], events[i].0, events[i].1)
  }

  // ---- one job ----

  lemma WinnerStep(j: Job, e: Event)
    requires Inv(j) && Enabled(j, e) && Wins(j, e)
    ensures !IsTerminal(j.row.state)
    ensures var r := Apply(j, e); r.row.state.Succeeded? && r.row.attempt >= 1 && r.released
  {
    hide Tokens, HistoryOk, SectionOk;
    assert CallOk(j, j.calls[e.call]);
  }

  lemma SuccessStays(j: Job, e: Event)
    requires Inv(j) && Enabled(j, e) && j.row.state.Succeeded? && j.row.attempt >= 1 && j.released && !Revives(j, e)
    ensures var r := Apply(j, e); r.row.state.Succeeded? && r.row.attempt >= 1 && r.released && !Loses(j, e)
  {
    hide Tokens, HistoryOk;
    if e.Write? || e.SkipWrite? || e.ReleaseWrite? { assert CallOk(j, j.calls[e.call]); }
  }

  lemma FailureStays(j: Job, e: Event)
    requires Inv(j) && Enabled(j, e) && IsTerminal(j.row.state) && !j.row.state.Succeeded? && !Revives(j, e)
    ensures var r := Apply(j, e); IsTerminal(r.row.state) && !r.row.state.Succeeded?
  {
    hide Tokens, HistoryOk;
    if e.Write? { assert CallOk(j, j.calls[e.call]); }
  }

  // ---- the invariant of the net ----

  /** No ancestor was ever brought back to life. */
  ghost predicate Calm(deps: Deps, n: Net, c: Id) {
    forall a :: Reaches(deps, a, c) ==> a !in n.revived
  }

  /** A job that was never revived ended once, if at all. */
  ghost predicate Book(n: Net, c: Id)
    requires c in n.jobs
  {
    var j := n.jobs[c];
    && (c in n.won ==> j.row.state.Succeeded? && j.row.attempt >= 1 && j.released)
    && (c in n.lost ==> IsTerminal(j.row.state) && !j.row.state.Succeeded?)
  }

  ghost predicate Counted(deps: Deps, n: Net, c: Id)
    requires c in n.jobs && c in n.met
  {
    && n.met[c] == |Parents(deps, c) * n.won|
    && (n.jobs[c].released ==> Parents(deps, c) <= n.won)
  }

  ghost predicate Sentenced(deps: Deps, n: Net, c: Id)
    requires c in n.jobs
  {
    n.jobs[c].doomed ==> exists a :: a in n.lost && Reaches(deps, a, c)
  }

  ghost predicate JobKept(deps: Deps, n: Net, c: Id)
    requires c in n.jobs && c in n.met
  {
    && (Calm(deps, n, c) ==> Inv(n.jobs[c]) && Counted(deps, n, c))
    && (Calm(deps, n, c) && c !in n.revived ==> Book(n, c))
    && Sentenced(deps, n, c)
  }

  ghost predicate Kept(deps: Deps, n: Net) {
    && Ranked(deps) && (forall d <- deps :: d.0 in n.jobs && d.1 in n.jobs)
    && n.met.Keys == n.jobs.Keys
    && forall c <- n.jobs :: JobKept(deps, n, c)
  }

  lemma StartsKept(deps: Deps, n: Net)
    requires Starts(deps, n)
    ensures Kept(deps, n)
  {
    forall c <- n.jobs ensures JobKept(deps, n, c) {
      InitialInv(n.jobs[c].row.maxAttempts, Parents(deps, c) != {});
      assert Parents(deps, c) * n.won == {};
    }
  }

  lemma ParentReaches(deps: Deps, p: Id, c: Id)
    requires p in Parents(deps, c)
    ensures (p, c) in deps && Reaches(deps, p, c)
  {
    ReachesByEdge(deps, p, c);
  }

  /** What is above a parent of a calm job is above the job. */
  lemma CalmAbove(deps: Deps, n: Net, p: Id, c: Id)
    requires Calm(deps, n, c) && (p, c) in deps
    ensures Calm(deps, n, p) && p !in n.revived
  {
    ReachesByEdge(deps, p, c);
    forall a | Reaches(deps, a, p) ensures a !in n.revived { ReachesThenEdge(deps, a, p, c); }
  }

  /** If the parents of a calm job have succeeded, so have all its ancestors. */
  lemma {:induction false} AncestorsWon(deps: Deps, n: Net, w: seq<Id>, a: Id, c: Id)
    requires Kept(deps, n) && c in n.jobs && Calm(deps, n, c) && Parents(deps, c) <= n.won && WalkFromTo(deps, w, a, c)
    ensures a in n.won && a in n.jobs && Book(n, a)
    decreases |w|
  {
    hide Inv, Calm, Sentenced;
    var p := w[|w| - 2];
    assert (p, c) in deps && p in Parents(deps, c);
    CalmAbove(deps, n, p, c);
    assert JobKept(deps, n, p);
    if |w| > 2 {
      assert WalkFromTo(deps, w[..|w| - 1], a, p);
      AncestorsWon(deps, n, w[..|w| - 1], a, p);
    }
  }

  lemma CalmEarlier(deps: Deps, n: Net, id: Id, e: Event, c: Id)
    requires id in n.jobs && Enabled(n.jobs[id], e) && Calm(deps, NetApply(deps, n, id, e), c)
    ensures Calm(deps, n, c)
  {
    hide Apply, Enabled;
  }

  lemma CountMore(deps: Deps, won: set<Id>, id: Id, c: Id)
    requires id !in won
    ensures |Parents(deps, c) * (won + {id})| == |Parents(deps, c) * won| + if (id, c) in deps then 1 else 0
  {
    var ps := Parents(deps, c);
    if (id, c) in deps {
      assert id in ps;
      assert ps * (won + {id}) == ps * won + {id};
    } else {
      assert id !in ps;
      assert ps * (won + {id}) == ps * won;
    }
  }

  /** A job that a step does not touch keeps its part, its count of succeeded parents included. */
  lemma OtherKept(deps: Deps, n: Net, id: Id, e: Event, c: Id)
    requires Kept(deps, n) && NetEnabled(deps, n, id, e) && c in n.jobs && c != id
    ensures JobKept(deps, NetApply(deps, n, id, e), c)
  {
    hide Inv, Apply, Enabled;
    var m := NetApply(deps, n, id, e);
    assert JobKept(deps, n, c);
    if Calm(deps, m, c) {
      CalmEarlier(deps, n, id, e, c);
      assert Counted(deps, m, c) by { OtherCounted(deps, n, id, e, c); }
    }
  }

  lemma OtherCounted(deps: Deps, n: Net, id: Id, e: Event, c: Id)
    requires Kept(deps, n) && NetEnabled(deps, n, id, e) && c in n.jobs && c != id
    requires Calm(deps, NetApply(deps, n, id, e), c)
    ensures Counted(deps, NetApply(deps, n, id, e), c)
  {
    hide Inv, Apply, Enabled, Parents;
    CalmEarlier(deps, n, id, e, c);
    assert JobKept(deps, n, c);
    if Wins(n.jobs[id], e) {
      if (id, c) in deps {
        CalmAbove(deps, n, id, c);
        assert JobKept(deps, n, id);
        WinnerStep(n.jobs[id], e);
        CountMore(deps, n.won, id, c);
      } else {
        assert Parents(deps, c) * (n.won + {id}) == Parents(deps, c) * n.won by { NoParent(deps, id, c); }
      }
    }
  }

  lemma NoParent(deps: Deps, p: Id, c: Id)
    requires (p, c) !in deps
    ensures p !in Parents(deps, c)
  {
  }

  lemma NotAboveItself(deps: Deps, c: Id)
    requires Ranked(deps)
    ensures !Reaches(deps, c, c) && c !in Parents(deps, c)
  {
    RankedIsAcyclic(deps);
    if c in Parents(deps, c) { ParentReaches(deps, c, c); }
  }

  /** A released job has only succeeded parents, still after the step. */
  lemma OwnReleased(deps: Deps, n: Net, id: Id, e: Event)
    requires Kept(deps, n) && NetEnabled(deps, n, id, e) && Calm(deps, n, id)
    ensures Apply(n.jobs[id], e).released ==> Parents(deps, id) <= n.won
  {
    hide Inv, Calm;
    assert JobKept(deps, n, id);
    if e.ReleaseRead? {
      var ps := Parents(deps, id);
      assert |ps * n.won| >= |ps|;
      SubsetSize(ps - n.won, ps);
      assert |ps| == |ps * n.won| + |ps - n.won| by { assert ps == ps * n.won + (ps - n.won); }
      assert ps - n.won == {};
    }
  }

  /** Below a node that nobody revived there is no clash: its ancestors cannot have ended both ways. */
  lemma NoClash(deps: Deps, n: Net, id: Id, e: Event)
    requires Kept(deps, n) && NetEnabled(deps, n, id, e) && Calm(deps, n, id)
    ensures !Clash(Apply(n.jobs[id], e))
  {
    hide Inv, Calm, Apply, Enabled, Parents;
    if Clash(Apply(n.jobs[id], e)) {
      OwnReleased(deps, n, id, e);
      var a := Sentence(deps, n, id, e);
      var w :| WalkFromTo(deps, w, a, id);
      AncestorsWon(deps, n, w, a, id);
    }
  }

  lemma Sentence(deps: Deps, n: Net, id: Id, e: Event) returns (a: Id)
    requires Kept(deps, n) && NetEnabled(deps, n, id, e) && Apply(n.jobs[id], e).doomed
    ensures a in n.lost && Reaches(deps, a, id)
  {
    hide Inv, Calm, Counted, Book;
    assert JobKept(deps, n, id);
    a :| a in n.lost && Reaches(deps, a, id);
  }

  lemma OwnBook(deps: Deps, n: Net, id: Id, e: Event)
    requires id in n.jobs && Enabled(n.jobs[id], e) && Inv(n.jobs[id]) && Book(n, id) && !Revives(n.jobs[id], e)
    ensures Book(NetApply(deps, n, id, e), id)
  {
    var j := n.jobs[id];
    if Wins(j, e) { WinnerStep(j, e); }
    if id in n.won { SuccessStays(j, e); }
    if id in n.lost { FailureStays(j, e); }
    hide Inv, Apply, Enabled, Revives;
  }

  /** The job that makes the step. */
  lemma OwnKept(deps: Deps, n: Net, id: Id, e: Event)
    requires Kept(deps, n) && NetEnabled(deps, n, id, e)
    ensures JobKept(deps, NetApply(deps, n, id, e), id)
  {
    hide Inv, Apply, Enabled, Book, Clash, Parents, Wins, Loses, Revives;
    var m := NetApply(deps, n, id, e);
    assert JobKept(deps, n, id);
    if m.jobs[id].doomed { var a := Sentence(deps, n, id, e); }
    if Calm(deps, m, id) {
      CalmEarlier(deps, n, id, e, id);
      NoClash(deps, n, id, e);
      StepKeepsInv(n.jobs[id], e);
      OwnReleased(deps, n, id, e);
      NotAboveItself(deps, id);
      assert Parents(deps, id) * (n.won + {id}) == Parents(deps, id) * n.won;
      assert (id, id) !in deps by { if (id, id) in deps { ReachesByEdge(deps, id, id); } }
      if id !in m.revived { OwnBook(deps, n, id, e); }
    }
  }

  lemma StepKept(deps: Deps, n: Net, id: Id, e: Event)
    requires Kept(deps, n) && NetEnabled(deps, n, id, e)
    ensures Kept(deps, NetApply(deps, n, id, e))
  {
    hide Inv, Apply, Enabled, JobKept, Parents, Wins, Loses, Revives;
    var m := NetApply(deps, n, id, e);
    forall c <- m.jobs ensures JobKept(deps, m, c) {
      if c == id {
        OwnKept(deps, n, id, e);
      } else {
        OtherKept(deps, n, id, e, c);
      }
    }
  }

  lemma {:induction false} RunKept(deps: Deps, run: seq<Net>, events: seq<(Id, Event)>, i: nat)
    requires IsNetRun(deps, run, events) && i < |run|
    ensures Kept(deps, run[i])
  {
    hide Kept, NetEnabled, NetApply, Starts;
    if i == 0 {
      StartsKept(deps, run[0]);
    } else {
      RunKept(deps, run, events, i - 1);
      StepKept(deps, run[i - 1], events[i - 1].0, events[i - 1].1);
    }
  }

  // ---- what follows for every node of every workflow ----

  /** A node is released although an ancestor ended without success only below a node that was brought back to life. */
  lemma ClashNeedsRevival(deps: Deps, run: seq<Net>, events: seq<(Id, Event)>, i: nat, c: Id)
    requires IsNetRun(deps, run, events) && i < |run| && c in run[i].jobs && Clash(run[i].jobs[c])
    ensures exists a :: Reaches(deps, a, c) && a in run[i].revived
  {
    hide Counted, Book, Sentenced, Tokens, SectionOk, HistoryOk, CallsOk;
    RunKept(deps, run, events, i);
    assert JobKept(deps, run[i], c);
  }

  /**
   So every revival goes back to the two stale writes: a step that revives a row is one of them, or an ancestor of the
   job was revived before.
   */
  lemma RevivalGoesBack(deps: Deps, run: seq<Net>, events: seq<(Id, Event)>, i: nat)
    requires IsNetRun(deps, run, events) && i < |events| && Revives(run[i].jobs[events[i].0], events[i].1)
    ensures || events[i].1.ReleaseWrite?
            || (events[i].1.CancelWrite? && Overtaken(run[i].jobs[events[i].0]))
            || exists a :: Reaches(deps, a, events[i].0) && a in run[i].revived
  {
    hide Counted, Book, Sentenced, Inv, Revives, Apply;
    RunKept(deps, run, events, i);
    var id := events[i].0;
    assert JobKept(deps, run[i], id);
    if Calm(deps, run[i], id) { RevivesIff(run[i].jobs[id], events[i].1); }
  }

  /** In a workflow in which no row was ever revived a job ends once: never with and without success. */
  lemma EndsOneWay(deps: Deps, run: seq<Net>, events: seq<(Id, Event)>, i: nat, c: Id)
    requires IsNetRun(deps, run, events) && i < |run| && run[i].revived == {} && c in run[i].jobs
    ensures !(c in run[i].won && c in run[i].lost)
    ensures run[i].jobs[c].released ==> Parents(deps, c) <= run[i].won
  {
    hide Inv, Sentenced;
    RunKept(deps, run, events, i);
    assert JobKept(deps, run[i], c);
  }

  /** The steps of one job, taken out of a run of the workflow: what is proved of runs of one job holds in workflows. */
  lemma {:induction false} OneJob(deps: Deps, run: seq<Net>, events: seq<(Id, Event)>, i: nat, c: Id)
    returns (jobRun: seq<Job>, jobEvents: seq<Event>)
    requires IsNetRun(deps, run, events) && i < |run| && c in run[0].jobs
    ensures c in run[i].jobs && IsRun(jobRun, jobEvents) && jobRun[|jobEvents|] == run[i].jobs[c]
  {
    hide Apply, Enabled, Parents;
    if i == 0 {
      jobRun, jobEvents := [run[0].jobs[c]], [];
    } else {
      jobRun, jobEvents := OneJob(deps, run, events, i - 1, c);
      assert NetEnabled(deps, run[i - 1], events[i - 1].0, events[i - 1].1);
      if events[i - 1].0 == c {
        jobRun, jobEvents := jobRun + [run[i].jobs[c]], jobEvents + [events[i - 1].1];
      }
    }
  }

  /**
   Attempt records of a workflow: below nodes that were never revived each says the attempt its lease was issued for,
   and no two have the same key.
   */
  lemma RecordsInWorkflow(deps: Deps, run: seq<Net>, events: seq<(Id, Event)>, i: nat, x: Id, a: nat, y: Id, b: nat)
    requires IsNetRun(deps, run, events) && i < |run| && x in run[i].jobs && y in run[i].jobs && Calm(deps, run[i], x)
    requires a < |run[i].jobs[x].recorded| && b < |run[i].jobs[y].recorded|
    ensures var j := run[i].jobs[x];
            j.recorded[a].token in j.issued && j.issued[j.recorded[a].token] == j.recorded[a].attempt
    ensures (x, run[i].jobs[x].recorded[a].attempt) == (y, run[i].jobs[y].recorded[b].attempt) ==> x == y && a == b
  {
    hide RowOk, SectionOk, CallsOk, TokenOk, Calm, Counted, Book, Sentenced;
    RunKept(deps, run, events, i);
    assert JobKept(deps, run[i], x);
    var j := run[i].jobs[x];
    assert j.recorded[a] in j.recorded;
    if x == y { assert j.recorded[b] in j.recorded; }
  }
}
