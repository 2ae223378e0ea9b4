/** Concrete runs of the store at the edges of what it promises. */
module StoreExamples {
  import opened Jobs
  import E = EngineModel
  import opened StoreModel
  import opened StoreRuns
  import opened StoreTheorems
  import opened StoreEarly

  const New: Row := E.Row(Queued, 0, 3, 0, None, 0, false, 0)
  const Newer: Row := E.Row(Running, 1, 3, 0, None, 9, false, 0)
  const Lost := Record(7, 1, Failed)

  /** A failed batch leaves its error behind. */
  lemma FailedBatch() returns (run: seq<State>, events: seq<Event>)
    ensures IsRun(run, events) && |events| == 4
    ensures run[4] == Initial(map[], map[]).(version := 1, failed := true,
                                             log := Log(map[], map[], [], [], [Lost], map[], {}))
  {
    events := [Append(Lost), Take(64), Commit(false), Retire];
    var s0 := Initial(map[], map[]);
    var s1 := Apply(s0, events[0]);
    var s2 := Apply(s1, events[1]);
    var s3 := Apply(s2, events[2]);
    var s4 := Apply(s3, events[3]);
    assert Retired(map[], []) == map[];
    run := [s0, s1, s2, s3, s4];
  }

  /** An insert can be refused although its row is committed: somebody else's batch had failed before. */
  lemma RefusedThoughDurable() returns (run: seq<State>, events: seq<Event>)
    ensures IsRun(run, events) && |events| == 8
    ensures var s := run[8]; |s.log.inserts| == 1 && s.log.inserts[0].id in s.db && Awaited(s, s.log.inserts[0].order)
    ensures !InsertAnswer(run[8])
  {
    hide Rows, Replay, Recorded, Retired, Apply, Enabled, Proper;
    var run0, events0 := FailedBatch();
    var run1, events1 := LoneInsert(run0[4], 1, New);
    run, events := run0 + run1, events0 + events1;
  }

  /** An insert that meets an idle flusher and an empty buffer is committed as a batch of its own. */
  lemma LoneInsert(s: State, id: Id, row: Row) returns (run: seq<State>, events: seq<Event>)
    requires s.flusher.Idle? && !HasPending(s) && id !in s.log.newest && id !in s.db && s.committedSeq == s.insertSeq
    ensures |run| == |events| == 4
    ensures Enabled(s, events[0]) && Proper(s, events[0]) && run[0] == Apply(s, events[0])
    ensures forall i :: 1 <= i < 4 ==>
            Enabled(run[i - 1], events[i]) && Proper(run[i - 1], events[i]) && run[i] == Apply(run[i - 1], events[i])
    ensures run[3].log.inserts == s.log.inserts + [Write(s.version + 1, s.insertSeq + 1, id, row)]
    ensures id in run[3].db && run[3].committedSeq == s.insertSeq + 1 && run[3].failed == s.failed
  {
    hide Rows, Replay, Recorded, Retired;
    events := [Insert(id, row), Take(64), Commit(true), Retire];
    var w := Write(s.version + 1, s.insertSeq + 1, id, row);
    var s1 := Apply(s, events[0]);
    var s2 := Apply(s1, events[1]);
    assert s2.flusher == Taken([w], [], []);
    CommittedKeys(s2);
    var s3 := Apply(s2, events[2]);
    run := [s1, s2, s3, Apply(s3, events[3])];
  }

  /** After a failed commit a read can return a row that was superseded before the call began. */
  lemma FailedCommitHidesWrite() returns (run: seq<State>, events: seq<Event>)
    ensures IsRun(run, events) && |events| == 4
    ensures !(exists k :: 4 <= k <= 4 && Get(run[k].log.newest, 1) == ReadJob(run, 4, 4, 1))
  {
    events := [Update(1, Newer), Take(64), Commit(false), Retire];
    var s0 := Initial(map[1 := New], map[]);
    var s1 := Apply(s0, events[0]);
    var w := Write(1, 0, 1, Newer);
    var s2 := Apply(s1, events[1]);
    assert s2.flusher == Taken([], [w], []);
    var s3 := Apply(s2, events[2]);
    var s4 := Apply(s3, events[3]);
    assert 1 !in s4.cache by { assert w in [] + [w]; }
    run := [s0, s1, s2, s3, s4];
  }

  /** The run up to the batch that takes an update ahead of its insert. */
  lemma EarlyUpdateTaken() returns (run: seq<State>, events: seq<Event>)
    ensures IsLooseRun(run, events) && |events| == 4
    ensures var s := run[4];
            && s.flusher == Taken([Write(1, 1, 1, New)], [Write(3, 0, 2, Newer)], [])
            && s.pendingInserts == [Write(2, 2, 2, New)] && s.pendingUpdates == [] && s.db == map[] && !s.failed
            && s.log.newest == map[1 := New, 2 := Newer]
  {
    events := [Insert(1, New), Insert(2, New), Update(2, Newer), Take(1)];
    var s0 := Initial(map[], map[]);
    var s1 := Apply(s0, events[0]);
    var s2 := Apply(s1, events[1]);
    var s3 := Apply(s2, events[2]);
    run := [s0, s1, s2, s3, Apply(s3, events[3])];
  }

  /**
   * An update issued before its insert is committed can be committed first. No commit fails, yet the update is gone:
   * what is still to be written under its id is the row as first inserted.
   */
  lemma EarlyUpdateIsLost() returns (run: seq<State>, events: seq<Event>)
    ensures IsLooseRun(run, events) && |events| == 6
    ensures Clean(run[6]) && Updates(run[6]) == [] && Inserts(run[6]) == [Write(2, 2, 2, New)]
    ensures 2 !in run[6].db && Get(run[6].log.newest, 2) == Some(Newer)
  {
    var run0, events0 := EarlyUpdateTaken();
    var s4 := run0[4];
    CommittedKeys(s4);
    var s5 := Apply(s4, Commit(true));
    run, events := run0 + [s5, Apply(s5, Retire)], events0 + [Commit(true), Retire];
  }

  /** During shutdown the wait ends early: an insert can be acknowledged before its batch is even taken. */
  lemma ShutdownAcknowledgesEarly() returns (run: seq<State>, events: seq<Event>)
    ensures IsRun(run, events) && |events| == 2
    ensures var s := run[2];
            s.stop && InsertAnswer(s) && |s.log.inserts| == 1 && s.log.inserts[0].id !in s.db && s.flusher.Idle?
  {
    events := [Insert(1, New), Stop];
    var s0 := Initial(map[], map[]);
    var s1 := Apply(s0, events[0]);
    run := [s0, s1, Apply(s1, events[1])];
  }
}
