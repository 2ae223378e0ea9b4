/** Updates that overtake the insert of their row: what becomes of them, in runs that do not exclude them. */
module StoreEarly {
  import opened Jobs
  import opened StoreModel
  import opened StoreRuns
  import opened StoreTheorems

  /** Ids are still fresh, but a row may be updated as soon as its insert was issued. */
  predicate Loose(s: State, e: Event) {
    e.Update? || Proper(s, e)
  }

  ghost predicate IsLooseRun(run: seq<State>, events: seq<Event>) {
    && |run| == |events| + 1
    && Starts(run[0])
    && forall i :: 0 <= i < |events| ==>
         Enabled(run[i], events[i]) && Loose(run[i], events[i]) && run[i + 1] == Apply(run[i], events[i])
  }

  /** The insert waits in the buffer, or is in a batch that is not committed. */
  ghost predicate Waits(s: State, w: Write) {
    w in s.pendingInserts || (Uncommitted(s.flusher) && w in s.flusher.inserts)
  }

  /** Inserted ids are distinct; before a commit none is in the table, and if no commit failed, after it all are. */
  ghost predicate Fresh(s: State) {
    && (forall i, j :: 0 <= i < j < |s.log.inserts| ==> s.log.inserts[i].id != s.log.inserts[j].id)
    && (forall w <- s.log.inserts :: w.id in s.log.newest)
    && s.db.Keys <= s.log.newest.Keys
    && (forall w <- s.log.inserts :: Waits(s, w) ==> w.id !in s.db)
    && (Clean(s) ==> forall w <- s.log.inserts :: Waits(s, w) || w.id in s.db)
  }

  lemma BatchAndRest(s: State, w: Write)
    requires Ordered(s) && Fresh(s) && !s.flusher.Idle? && w in s.flusher.inserts
    ensures w in s.log.inserts && forall v <- s.pendingInserts :: v.id != w.id
  {
    BufferedIsLogged(s);
    forall v <- s.pendingInserts ensures v.id != w.id {
      var i :| 0 <= i < |s.flusher.inserts| && s.flusher.inserts[i] == w;
      var j :| 0 <= j < |s.pendingInserts| && s.pendingInserts[j] == v;
      TailAt(Inserts(s), s.log.inserts, i);
      TailAt(Inserts(s), s.log.inserts, |s.flusher.inserts| + j);
    }
  }

  lemma CommitKeepsFresh(s: State, ok: bool)
    requires Ordered(s) && Fresh(s) && Enabled(s, Commit(ok))
    ensures Fresh(Apply(s, Commit(ok)))
  {
    hide Ordered, Rows, Replay, Recorded, Retired;
    var t := Apply(s, Commit(ok));
    CommittedKeys(s);
    BufferedIsLogged(s);
    if ok {
      forall w <- t.log.inserts ensures (Waits(t, w) ==> w.id !in t.db) && (Clean(t) ==> Waits(t, w) || w.id in t.db) {
        if w in s.pendingInserts {
          forall v <- s.flusher.inserts ensures v.id != w.id { BatchAndRest(s, v); }
        }
      }
    }
  }

  lemma RetireKeepsFresh(s: State)
    requires Ordered(s) && Fresh(s) && s.flusher.Written?
    ensures Fresh(Apply(s, Retire))
  {
    hide Ordered, Retired;
  }

  lemma OtherKeepsFresh(s: State, e: Event)
    requires Ordered(s) && Fresh(s) && Enabled(s, e) && Loose(s, e) && !e.Commit? && !e.Retire?
    ensures Fresh(Apply(s, e))
  {
    hide Ordered, Rows, Replay, Recorded, Retired;
    BufferedIsLogged(s);
    var t := Apply(s, e);
    forall w <- t.log.inserts ensures (Waits(t, w) ==> w.id !in t.db) && (Clean(t) ==> Waits(t, w) || w.id in t.db) {
      if w in s.log.inserts {
        assert Waits(t, w) <==> Waits(s, w) by { WaitsStays(s, e, w); }
      }
    }
  }

  lemma WaitsStays(s: State, e: Event, w: Write)
    requires Ordered(s) && Fresh(s) && Enabled(s, e) && Loose(s, e) && !e.Commit? && !e.Retire? && w in s.log.inserts
    ensures Waits(Apply(s, e), w) <==> Waits(s, w)
  {
    hide Ordered, Rows, Replay, Recorded, Retired;
    if e.Insert? { assert w.id != e.id; }
    if e.Take? {
      var a := Min(|s.pendingInserts|, e.limit);
      assert s.pendingInserts == s.pendingInserts[..a] + s.pendingInserts[a..];
    }
  }

  lemma {:induction false} LooseRunKeeps(run: seq<State>, events: seq<Event>, i: nat)
    requires IsLooseRun(run, events) && i < |run|
    ensures Ordered(run[i]) && Fresh(run[i])
  {
    if i > 0 {
      hide Ordered, Fresh, Enabled, Loose, Apply;
      LooseRunKeeps(run, events, i - 1);
      var s, e := run[i - 1], events[i - 1];
      OrderedKeeps(s, e);
      match e
      case Commit(ok) => CommitKeepsFresh(s, ok);
      case Retire => RetireKeepsFresh(s);
      case _ => OtherKeepsFresh(s, e);
    }
  }

  /** The k-th update of the batch is the last one of its row. */
  ghost predicate LastOfItsRow(updates: seq<Write>, k: nat) {
    k < |updates| && forall j :: k < j < |updates| ==> updates[j].id != updates[k].id
  }

  /**
   * As long as no commit has failed: an update that a batch commits last for its row is in the table afterwards
   * exactly when the insert of that row is not still waiting behind the batch. So an update issued before its
   * insert is committed survives iff it is not taken in an earlier batch than the insert.
   */
  lemma EarlyUpdateSurvivesIff(run: seq<State>, events: seq<Event>, c: nat, k: nat, w: Write)
    requires IsLooseRun(run, events) && c < |events| && events[c] == Commit(true) && Clean(run[c])
    requires LastOfItsRow(run[c].flusher.updates, k)
    requires w in run[c].log.inserts && w.id == run[c].flusher.updates[k].id
    ensures var u := run[c].flusher.updates[k];
            Get(run[c + 1].db, u.id) == Some(u.row) <==> w !in run[c].pendingInserts
  {
    hide Ordered, Rows, Replay, Recorded, Retired;
    var s := run[c];
    LooseRunKeeps(run, events, c);
    CommittedKeys(s);
    BufferedIsLogged(s);
    if w in s.pendingInserts {
      forall v <- s.flusher.inserts ensures v.id != w.id { BatchAndRest(s, v); }
    } else {
      assert w.id in s.db || w in s.flusher.inserts;
      RowsKeys(s.flusher.inserts, w.id);
      ReplayLast(s.db + Rows(s.flusher.inserts), s.flusher.updates, k);
    }
  }
}
