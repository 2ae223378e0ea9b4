/** Failure propagation and progress of workflows in every run, and what restarts do to them. */
module EngineProgress {
  import opened Jobs
  import opened Graphs
  import opened EngineModel
  import opened EngineInvariant
  import opened EngineRecovery
  import opened EngineRuns
  import opened EngineHistory
  import opened EngineStranding

  // ---- propagation ----

  lemma PropagatedIff(s: State)
    requires Inv(s)
    ensures Propagated(s.rows, s.deps) <==>
            forall x <- s.rows :: !IsTerminal(s.rows[x].state) ==> !FailedParent(s.rows, s.deps, x)
  {
    hide Inv;
    InvDeps(s);
  }

  /** An operation keeps failures propagated, whatever happened before. */
  lemma StepKeepsPropagated(run: seq<State>, events: seq<Event>, i: nat)
    requires IsRun(run, events) && i < |events| && !events[i].ERestart? && Propagated(run[i].rows, run[i].deps)
    ensures Propagated(run[i + 1].rows, run[i + 1].deps)
  {
    hide Inv, Enabled, Apply, Propagated, FailedParent;
    var s, e, r := run[i], events[i], run[i + 1];
    RunKeepsInv(run, events, i);
    RunKeepsInv(run, events, i + 1);
    PropagatedIff(s);
    PropagatedIff(r);
    StepMovesRows(s, e);
    forall x <- r.rows | !IsTerminal(r.rows[x].state) ensures !FailedParent(r.rows, r.deps, x) {
      if x !in s.rows {
        NewNodeAlive(s, e, x);
      } else if FailedParent(r.rows, r.deps, x) {
        NoNewFailedParent(s, e, x);
      }
    }
  }

  /** A restart leaves failures propagated exactly when the surviving table has no open node below a failed one. */
  lemma RestartKeepsPropagatedIff(run: seq<State>, events: seq<Event>, i: nat)
    requires IsRun(run, events) && i < |events| && events[i].ERestart?
    ensures Propagated(run[i + 1].rows, run[i + 1].deps) <==> Propagated(Survivors(run[i], events[i]), run[i + 1].deps)
  {
    hide OpEnabled, Crashed, Apply, Survivors;
    RestartRows(run[i], events[i]);
  }

  // ---- failures reach everything, or meet a dead node ----

  /** `y` is `x` or above it. */
  ghost predicate AtOrAbove(deps: set<Edge>, y: JobId, x: JobId) {
    y == x || Reaches(deps, y, x)
  }

  lemma {:induction false} BelowFailure(s: State, a: JobId, p: seq<JobId>, x: JobId)
    requires TableSafe(s.rows, s.deps, s.crashes) && WalkFromTo(s.deps, p, a, x)
    requires a in s.rows && IsTerminal(s.rows[a].state) && !s.rows[a].state.Succeeded?
    ensures x in s.rows
    ensures s.rows[x].state.Skipped? || s.rows[x].state.Cancelled? ||
            exists y :: y in s.rows && s.rows[y].state.Pending? && FailedParent(s.rows, s.deps, y) &&
              AtOrAbove(s.deps, y, x)
    decreases |p|
  {
    var e := (p[|p| - 2], p[|p| - 1]);
    assert e in s.deps;
    assert EdgeOk(s.rows, e);
    if |p| == 2 {
      if s.rows[x].state.Pending? { assert FailedParent(s.rows, s.deps, x) && AtOrAbove(s.deps, x, x); }
    } else {
      assert WalkFromTo(s.deps, p[..|p| - 1], a, e.0);
      BelowFailure(s, a, p[..|p| - 1], e.0);
      if s.rows[e.0].state.Skipped? || s.rows[e.0].state.Cancelled? {
        if s.rows[x].state.Pending? { assert FailedParent(s.rows, s.deps, x) && AtOrAbove(s.deps, x, x); }
      } else {
        var y :| y in s.rows && s.rows[y].state.Pending? && FailedParent(s.rows, s.deps, y) &&
          AtOrAbove(s.deps, y, e.0);
        if y == e.0 { ReachesByEdge(s.deps, y, x); } else { ReachesThenEdge(s.deps, y, e.0, x); }
        assert AtOrAbove(s.deps, y, x);
      }
    }
  }

  /**
   In every run: whatever lies below a job that ended without success has ended, skipped or cancelled, or lies at
   or below a dead node. Without a crash there are no dead nodes.
   */
  lemma FailureReachesAll(run: seq<State>, events: seq<Event>, i: nat, a: JobId, x: JobId)
    requires IsRun(run, events) && i < |run| && Reaches(run[i].deps, a, x)
    requires a in run[i].rows && IsTerminal(run[i].rows[a].state) && !run[i].rows[a].state.Succeeded?
    ensures x in run[i].rows
    ensures run[i].rows[x].state.Skipped? || run[i].rows[x].state.Cancelled? ||
            exists y :: Dead(run[i], y) && AtOrAbove(run[i].deps, y, x)
    ensures run[i].crashes == 0 ==> run[i].rows[x].state.Skipped? || run[i].rows[x].state.Cancelled?
  {
    hide Inv, AtOrAbove, Slack, FailedParent;
    var s := run[i];
    RunKeepsInv(run, events, i);
    SafeNow(s);
    var p :| WalkFromTo(s.deps, p, a, x);
    BelowFailure(s, a, p, x);
    if !s.rows[x].state.Skipped? && !s.rows[x].state.Cancelled? {
      var y :| y in s.rows && s.rows[y].state.Pending? && FailedParent(s.rows, s.deps, y) && AtOrAbove(s.deps, y, x);
      PendingIsCounted(s, y);
      assert Dead(s, y);
      if s.crashes == 0 { NoneDeadWithoutCrash(run, events, i, y); }
    }
  }

  lemma SafeNow(s: State)
    requires Inv(s)
    ensures TableSafe(s.rows, s.deps, s.crashes) && Ranked(s.deps)
  {
    hide Placed, Room, CountsOk, Propagated, WorkflowsOk, ChildrenOk;
    LoggedNow(s);
  }

  // ---- progress ----

  /** An open node that does not wait for others, or a dead one, at or above `x`. */
  ghost predicate Root(s: State, y: JobId) {
    (y in Live(s.rows) && !s.rows[y].state.Pending?) || Dead(s, y)
  }

  lemma OpenParent(s: State, y: JobId) returns (p: JobId)
    requires Inv(s) && y in s.rows && s.rows[y].state.Pending? && !Dead(s, y)
    ensures (p, y) in s.deps && p in Live(s.rows)
  {
    hide Logged, Placed, Room, WorkflowsOk, ChildrenOk, Propagated;
    PendingIsCounted(s, y);
    InvDeps(s);
    assert Unmet(s.rows, s.deps, y) != {};
    var e :| e in Unmet(s.rows, s.deps, y);
    p := e.0;
    assert (p, y) in s.deps && e == (p, y);
    assert IsTerminal(s.rows[p].state) ==> FailedParent(s.rows, s.deps, y);
  }

  lemma {:induction false} ClimbToRoot(s: State, rank: map<JobId, int>, y: JobId, below: set<JobId>) returns (x: JobId)
    requires Inv(s) && Ranks(s.deps, rank) && y in below && y in Live(s.rows)
    requires forall z <- Live(s.rows) :: z in rank && y in rank && rank[z] < rank[y] ==> z in below - {y}
    ensures Root(s, x) && AtOrAbove(s.deps, x, y)
    decreases below
  {
    hide Inv, Dead;
    if !s.rows[y].state.Pending? || Dead(s, y) { return y; }
    var p := OpenParent(s, y);
    x := ClimbToRoot(s, rank, p, below - {y});
    if x == p { ReachesByEdge(s.deps, p, y); } else { ReachesThenEdge(s.deps, x, p, y); }
  }

  /** In every run an open job waits, if at all, for a job that is queued, in hand or running, or for a dead node. */
  lemma WaitsForSomething(run: seq<State>, events: seq<Event>, i: nat, y: JobId) returns (x: JobId)
    requires IsRun(run, events) && i < |run| && y in Live(run[i].rows)
    ensures Root(run[i], x) && AtOrAbove(run[i].deps, x, y)
  {
    hide Inv, Dead, Root, AtOrAbove;
    var s := run[i];
    RunKeepsInv(run, events, i);
    SafeNow(s);
    var rank :| Ranks(s.deps, rank);
    x := ClimbToRoot(s, rank, y, Live(s.rows));
  }

  /** So with no dead node, while a job is open some open job is queued, in hand, lost to a full queue, or running. */
  lemma NothingStuck(run: seq<State>, events: seq<Event>, i: nat) returns (x: JobId)
    requires IsRun(run, events) && i < |run| && Live(run[i].rows) != {}
    requires forall y <- run[i].rows :: !Dead(run[i], y)
    ensures x in Live(run[i].rows) && !run[i].rows[x].state.Pending?
  {
    hide Inv, AtOrAbove;
    var y :| y in Live(run[i].rows);
    x := WaitsForSomething(run, events, i, y);
  }

  /** And with no job lost to a full queue that job is queued, in hand or running. */
  lemma SomethingMoves(run: seq<State>, events: seq<Event>, i: nat) returns (x: JobId)
    requires IsRun(run, events) && i < |run| && Live(run[i].rows) != {} && run[i].dropped == {}
    requires forall y <- run[i].rows :: !Dead(run[i], y)
    ensures x in Live(run[i].rows) && (x in run[i].queue || x in run[i].inHand || x in run[i].running)
  {
    hide Logged, Room, Books, Dead;
    x := NothingStuck(run, events, i);
    RunKeepsInv(run, events, i);
    assert PlacedAt(run[i], x);
  }

  /** Conversely: a dead node, and everything below it, never starts before the next restart. */
  lemma StuckBelowDead(run: seq<State>, events: seq<Event>, i: nat, j: nat, y: JobId, x: JobId)
    requires IsRun(run, events) && i <= j < |run| && NoRestart(events, i, j) && Dead(run[i], y)
    requires AtOrAbove(run[i].deps, y, x)
    ensures x in run[j].rows && !Started(run[j].rows[x].state)
  {
    hide Inv, Dead;
    DeadNeverStarts(run, events, i, j, y);
    if y != x {
      var p :| WalkFromTo(run[i].deps, p, y, x);
      WalkStays(run, events, i, j, p, y, x);
      RunKeepsInv(run, events, j);
      SafeNow(run[j]);
      Descendants(run[j].rows, run[j].deps, run[j].crashes, y, p, x);
    }
  }

  lemma WalkStays(run: seq<State>, events: seq<Event>, i: nat, j: nat, p: seq<JobId>, a: JobId, b: JobId)
    requires IsRun(run, events) && i <= j < |run| && WalkFromTo(run[i].deps, p, a, b)
    ensures WalkFromTo(run[j].deps, p, a, b)
  {
    hide Enabled, Apply;
    forall k | 0 <= k < |p| - 1 ensures (p[k], p[k + 1]) in run[j].deps {
      DepsStay(run, events, i, j, (p[k], p[k + 1]));
    }
  }

  // ---- after a restart ----

  /**
   A node still pending after a restart, one of whose parents had already ended, is never started by that process:
   if the parent succeeded its count stays too high, and if it failed nobody is left to skip the node.
   */
  lemma StrandedByRestart(run: seq<State>, events: seq<Event>, i: nat, j: nat, x: JobId)
    requires IsRun(run, events) && i < j < |run| && events[i].ERestart? && NoRestart(events, i + 1, j)
    requires x in run[i + 1].rows && run[i + 1].rows[x].state.Pending?
    requires EndedParent(Survivors(run[i], events[i]), run[i + 1].deps, x)
    ensures x in run[j].rows && !Started(run[j].rows[x].state)
  {
    hide Inv, Apply, OpEnabled, Crashed, Survivors, Dead;
    DeadAfterRestartIff(run, events, i, x);
    DeadNeverStarts(run, events, i + 1, j, x);
  }

  lemma {:induction false} StaysAlive(run: seq<State>, events: seq<Event>, i: nat, j: nat, x: JobId)
    requires IsRun(run, events) && i <= j < |run| && NoRestart(events, i, j) && !Dead(run[i], x)
    ensures !Dead(run[j], x)
    decreases j
  {
    hide Enabled, Apply, Dead;
    if i < j {
      StaysAlive(run, events, i, j - 1, x);
      if Dead(run[j], x) { DeadOnlyByRestart(run, events, j - 1, x); }
    }
  }

  /** Every other pending node stays pending only while one of its parents is open. */
  lemma ReleasedAfterRestart(run: seq<State>, events: seq<Event>, i: nat, j: nat, x: JobId)
    requires IsRun(run, events) && i < j < |run| && events[i].ERestart? && NoRestart(events, i + 1, j)
    requires x in run[i + 1].rows && run[i + 1].rows[x].state.Pending?
    requires !EndedParent(Survivors(run[i], events[i]), run[i + 1].deps, x)
    ensures x in run[j].rows && run[j].rows[x].state.Pending? ==>
              exists p :: (p, x) in run[j].deps && p in Live(run[j].rows)
  {
    hide Inv, Apply, OpEnabled, Crashed, Survivors, Dead;
    DeadAfterRestartIff(run, events, i, x);
    StaysAlive(run, events, i + 1, j, x);
    RunKeepsInv(run, events, j);
    if x in run[j].rows && run[j].rows[x].state.Pending? {
      var p := OpenParent(run[j], x);
    }
  }
}
