/** An acknowledged insert is a barrier: what was asked for before it is committed with it, if no batch is cut. */
module StoreBarrier {
  import opened StoreModel
  import opened StoreRuns
  import opened StoreTheorems

  /** Every batch takes all the updates that are pending, as it does while fewer than the limit are. */
  ghost predicate Uncut(run: seq<State>, events: seq<Event>)
    requires |run| == |events| + 1
  {
    forall i :: 0 <= i < |events| && events[i].Take? ==> |run[i].pendingUpdates| <= events[i].limit
  }

  /** The first `a` inserts were all asked for before any update but the first `b`. */
  ghost predicate Precede(s: State, a: int, b: int) {
    forall k, l :: 0 <= k < a && k < |s.log.inserts| && 0 <= b <= l < |s.log.updates| ==>
      s.log.inserts[k].version < s.log.updates[l].version
  }

  function TakenInserts(s: State): int { |s.log.inserts| - |s.pendingInserts| }

  function TakenUpdates(s: State): int { |s.log.updates| - |s.pendingUpdates| }

  /** No update left behind, by a batch taken or by a batch committed, is older than an insert in it. */
  ghost predicate Barrier(s: State) {
    && 0 <= TakenUpdates(s) && 0 <= DoneUpdates(s)
    && Precede(s, TakenInserts(s), TakenUpdates(s)) && Precede(s, DoneInserts(s), DoneUpdates(s))
  }

  lemma BuffersBounded(s: State)
    requires Ordered(s)
    ensures 0 <= TakenUpdates(s) && 0 <= TakenInserts(s) && 0 <= DoneInserts(s) && 0 <= DoneUpdates(s)
  {
  }

  lemma WriteKeepsBarrier(s: State, e: Event)
    requires Ordered(s) && Versioned(s) && Barrier(s) && (e.Insert? || e.Update?)
    ensures Barrier(Apply(s, e))
  {
    hide Ordered;
    var t := Apply(s, e);
    if e.Insert? {
      assert forall k :: 0 <= k < TakenInserts(s) ==> t.log.inserts[k] == s.log.inserts[k] by { BuffersBounded(s); }
    } else {
      assert forall k :: 0 <= k < |s.log.inserts| ==> s.log.inserts[k] in s.log.inserts;
      assert t.log.updates[|s.log.updates|].version == s.version + 1;
    }
  }

  lemma StepKeepsBarrier(s: State, e: Event)
    requires Ordered(s) && Versioned(s) && Enabled(s, e) && Barrier(s) && !Apply(s, e).failed
    requires e.Take? ==> |s.pendingUpdates| <= e.limit
    ensures Barrier(Apply(s, e))
  {
    hide Versioned, Rows, Replay, Recorded, Insertable, Retired;
    BuffersBounded(s);
    if e.Insert? || e.Update? {
      WriteKeepsBarrier(s, e);
    } else {
      hide Ordered;
    }
  }

  lemma {:induction false} RunKeepsBarrier(run: seq<State>, events: seq<Event>, i: nat)
    requires IsRun(run, events) && Uncut(run, events) && i < |run| && !run[i].failed
    ensures Barrier(run[i])
  {
    hide Barrier, Enabled, Apply, Ordered, Versioned, Keyed, Cached, ReadThrough, Prefix, Clean, Proper;
    if i == 0 {
      StartBarrier(run[0]);
    } else {
      RunKeepsInv(run, events, i - 1);
      FailedStays(run[i - 1], events[i - 1]);
      RunKeepsBarrier(run, events, i - 1);
      StepKeepsBarrier(run[i - 1], events[i - 1]);
    }
  }

  lemma StartBarrier(s: State)
    requires Starts(s)
    ensures Barrier(s)
  {
  }

  lemma FailedStays(s: State, e: Event)
    requires Enabled(s, e)
    ensures s.failed ==> Apply(s, e).failed
  {
  }

  /**
   As long as no commit has failed and no batch was cut by its limit: every update asked for before an insert that is
   committed is committed too. So a crash keeps all updates older than the newest committed insert.
   */
  lemma InsertIsBarrier(run: seq<State>, events: seq<Event>, j: nat, k: nat, l: nat)
    requires IsRun(run, events) && Uncut(run, events) && j < |run| && !run[j].failed
    requires k < DoneInserts(run[j]) && k < |run[j].log.inserts| && l < |run[j].log.updates|
    requires run[j].log.updates[l].version < run[j].log.inserts[k].version
    ensures l < DoneUpdates(run[j])
  {
    RunKeepsBarrier(run, events, j);
  }
}
