/** What callers of the group-commit store can rely on, over every run. */
module StoreTheorems {
  import opened Jobs
  import opened StoreModel
  import opened StoreRuns

  lemma {:induction false} RunKeepsInv(run: seq<State>, events: seq<Event>, i: nat)
    requires IsRun(run, events) && i < |run|
    ensures Inv(run[i], run[0].attempts)
  {
    if i == 0 {
      var s := run[0];
      assert s.log.direct + Rows([]) == s.log.direct;
    } else {
      hide Inv, Enabled, Proper, Apply;
      RunKeepsInv(run, events, i - 1);
      StepKeepsInv(run[i - 1], events[i - 1], run[0].attempts);
    }
  }

  // ---- reads ----

  function Get(rows: map<Id, Row>, id: Id): Option<Row> { if id in rows then Some(rows[id]) else None }

  /** get_job: the cache is probed in state i; on a miss the database is read in state j. */
  function ReadJob(run: seq<State>, i: nat, j: nat, id: Id): Option<Row>
    requires i <= j < |run|
  {
    if id in run[i].cache then Some(run[i].cache[id].row) else Get(run[j].db, id)
  }

  /** `row` was what the plain map held under `id` at some moment from i to j. */
  ghost predicate WasNewest(run: seq<State>, i: nat, j: nat, id: Id, row: Option<Row>)
    requires i <= j < |run|
  {
    exists k :: i <= k <= j && Get(run[k].log.newest, id) == row
  }

  /** All that a read of `id` can meet in state j was current at some moment since i. */
  ghost predicate AllWereNewest(run: seq<State>, i: nat, j: nat, id: Id)
    requires i <= j < |run|
  {
    && WasNewest(run, i, j, id, Get(run[j].db, id))
    && forall w | w in Inserts(run[j]) || w in Updates(run[j]) :: w.id == id ==> WasNewest(run, i, j, id, Some(w.row))
  }

  lemma WasNewestLater(run: seq<State>, i: nat, j: nat, id: Id, row: Option<Row>)
    requires i <= j && j + 1 < |run| && (WasNewest(run, i, j, id, row) || Get(run[j + 1].log.newest, id) == row)
    ensures WasNewest(run, i, j + 1, id, row)
  {
    if WasNewest(run, i, j, id, row) {
      var k :| i <= k <= j && Get(run[k].log.newest, id) == row;
    } else {
      assert Get(run[j + 1].log.newest, id) == row;
    }
  }

  /** A step puts into the table, under one id, what it held, what a buffered write holds, or what is newest. */
  lemma StepTable(s: State, e: Event, id: Id)
    requires Enabled(s, e) && Proper(s, e) && Keyed(s)
    ensures var t := Apply(s, e);
            || Get(t.db, id) == Get(s.db, id)
            || Get(t.db, id) == Get(t.log.newest, id)
            || exists w | w in Inserts(s) || w in Updates(s) :: w.id == id && Get(t.db, id) == Some(w.row)
  {
    hide Keyed, Recorded, Retired, Insertable;
    if e == Commit(true) {
      var f := s.flusher;
      var db := s.db + Rows(f.inserts);
      ReplayKeys(db, f.updates);
      RowsKeys(f.inserts, id);
      if id in db {
        ReplayRow(db, f.updates, id);
        forall w <- f.updates ensures w in Updates(s) {}
        forall w <- f.inserts ensures w in Inserts(s) {}
      }
    }
  }

  lemma {:induction false} AllWereNewestHolds(run: seq<State>, events: seq<Event>, i: nat, j: nat, id: Id)
    requires IsRun(run, events) && i <= j < |run| && id !in run[i].cache && !NewestLost(run[i], id)
    ensures AllWereNewest(run, i, j, id)
    decreases j
  {
    hide Enabled, Apply, Proper, WasNewest, Ordered, Versioned, Keyed, Cached, ReadThrough, Prefix, Clean, Inserts,
         Updates;
    RunKeepsInv(run, events, i);
    if i == j {
      NothingBuffered(run[i], id, run[0].attempts);
      assert WasNewest(run, i, i, id, Get(run[i].log.newest, id)) by { Now(run, i, id); }
    } else {
      AllWereNewestHolds(run, events, i, j - 1, id);
      RunKeepsInv(run, events, j - 1);
      AllWereNewestStep(run, events[j - 1], i, j - 1, id);
    }
  }

  lemma Now(run: seq<State>, i: nat, id: Id)
    requires i < |run|
    ensures WasNewest(run, i, i, id, Get(run[i].log.newest, id))
  {
    assert Get(run[i].log.newest, id) == Get(run[i].log.newest, id);
  }

  lemma NothingBuffered(s: State, id: Id, attempts: map<(Id, nat), Record>)
    requires Inv(s, attempts) && !NewestLost(s, id) && id !in s.cache
    ensures forall w | w in Inserts(s) || w in Updates(s) :: w.id != id
    ensures Get(s.db, id) == Get(s.log.newest, id)
  {
    hide Ordered, Versioned, Keyed, Prefix, Inserts, Updates;
  }

  lemma AllWereNewestStep(run: seq<State>, e: Event, i: nat, j: nat, id: Id)
    requires i <= j && j + 1 < |run| && Keyed(run[j])
    requires Enabled(run[j], e) && Proper(run[j], e) && run[j + 1] == Apply(run[j], e) && AllWereNewest(run, i, j, id)
    ensures AllWereNewest(run, i, j + 1, id)
  {
    hide Keyed, Rows, Replay, Recorded, Retired, Insertable, WasNewest;
    var s, t := run[j], run[j + 1];
    assert WasNewest(run, i, j + 1, id, Get(t.db, id)) by {
      hide Apply, Enabled, Proper;
      StepTable(s, e, id);
      WasNewestLater(run, i, j, id, Get(t.db, id));
    }
    forall w | (w in Inserts(t) || w in Updates(t)) && w.id == id ensures WasNewest(run, i, j + 1, id, Some(w.row)) {
      BufferGrows(s, e, w);
      WasNewestLater(run, i, j, id, Some(w.row));
    }
  }

  lemma BufferGrows(s: State, e: Event, w: Write)
    requires Enabled(s, e) && (w in Inserts(Apply(s, e)) || w in Updates(Apply(s, e)))
    ensures w in Inserts(s) || w in Updates(s) || Get(Apply(s, e).log.newest, w.id) == Some(w.row)
  {
    hide Rows, Replay, Recorded, Retired, Insertable;
    if e.Retire? {
      BuffersRetired(s);
    } else {
      BuffersKept(s, e);
    }
  }

  /**
   * get_job returns a row that was the newest write under its id at some moment during the call, if the row was
   * cached or the newest write of that id was not lost in a failed transaction.
   */
  lemma ReadIsCurrent(run: seq<State>, events: seq<Event>, i: nat, j: nat, id: Id)
    requires IsRun(run, events) && i <= j < |run| && (id in run[i].cache || !NewestLost(run[i], id))
    ensures exists k :: i <= k <= j && Get(run[k].log.newest, id) == ReadJob(run, i, j, id)
  {
    RunKeepsInv(run, events, i);
    if id in run[i].cache {
      assert Get(run[i].log.newest, id) == ReadJob(run, i, j, id);
    } else {
      AllWereNewestHolds(run, events, i, j, id);
    }
  }

  /** Nothing is written under the id from state i to state j. */
  ghost predicate Untouched(events: seq<Event>, i: nat, j: nat, id: Id) {
    forall m :: i <= m < j <= |events| ==> !Writes(events[m], id)
  }

  predicate Writes(e: Event, id: Id) {
    match e
    case Insert(x, _) => x == id
    case Update(x, _) => x == id
    case Direct(rows) => id in rows
    case _ => false
  }

  /** Without a write of the id, an uncached id keeps its table row and its newest row. */
  lemma {:induction false} UntouchedStays(run: seq<State>, events: seq<Event>, i: nat, j: nat, id: Id)
    requires IsRun(run, events) && i <= j < |run| && id !in run[i].cache && Untouched(events, i, j, id)
    ensures id !in run[j].cache
    ensures SameRow(run[j].db, run[i].db, id) && Get(run[j].log.newest, id) == Get(run[i].log.newest, id)
    decreases j
  {
    hide Enabled, Apply, Proper, Inv;
    if i < j {
      UntouchedStays(run, events, i, j - 1, id);
      RunKeepsInv(run, events, j - 1);
      UntouchedStep(run[j - 1], events[j - 1], id, run[0].attempts);
    }
  }

  lemma UntouchedStep(s: State, e: Event, id: Id, attempts: map<(Id, nat), Record>)
    requires Inv(s, attempts) && Enabled(s, e) && id !in s.cache && !Writes(e, id)
    ensures var t := Apply(s, e);
            id !in t.cache && SameRow(t.db, s.db, id) && Get(t.log.newest, id) == Get(s.log.newest, id)
  {
    hide Rows, Replay, Recorded, Versioned, Keyed, Prefix, ReadThrough, Insertable;
    if e == Commit(true) {
      BufferedIsLogged(s);
      CommitMisses(s, id);
    }
  }

  /**
   * The other half: when the newest write of an uncached id was lost and the table row differs from it, a call
   * during which nobody writes the id returns a row that is newest at no moment of the call.
   */
  lemma ReadIsStale(run: seq<State>, events: seq<Event>, i: nat, j: nat, id: Id)
    requires IsRun(run, events) && i <= j < |run| && id !in run[i].cache && Untouched(events, i, j, id)
    requires !SameRow(run[i].db, run[i].log.newest, id)
    ensures NewestLost(run[i], id)
    ensures forall k :: i <= k <= j ==> Get(run[k].log.newest, id) != ReadJob(run, i, j, id)
  {
    RunKeepsInv(run, events, i);
    UntouchedStays(run, events, i, j, id);
    forall k | i <= k <= j ensures Get(run[k].log.newest, id) != ReadJob(run, i, j, id) {
      UntouchedStays(run, events, i, k, id);
    }
  }

  // ---- durability ----

  /**
   * Wherever the process stops, as long as no failed commit has been retired, the job table is the committed
   * inserts, a prefix of all inserts past the watermark, with a prefix of the update sequence replayed in order.
   */
  lemma CrashLeavesPrefix(run: seq<State>, events: seq<Event>, j: nat) returns (i: nat, u: nat, r: nat)
    requires IsRun(run, events) && j < |run| && !run[j].failed
    ensures var s := run[j];
            && s.committedSeq <= i <= |s.log.inserts| && u <= |s.log.updates| && r <= |s.log.records|
            && s.db == Replay(s.log.direct + Rows(s.log.inserts[..i]), s.log.updates[..u])
            && s.attempts == Recorded(run[0].attempts, s.log.records[..r])
  {
    hide Rows, Replay, Recorded;
    RunKeepsInv(run, events, j);
    i, u, r := DoneInserts(run[j]), DoneUpdates(run[j]), DoneRecords(run[j]);
  }

  /** What insert_job answers once its wait is over. */
  function InsertAnswer(s: State): bool { !s.failed }

  /** The wait of the insert with sequence number `order` is over because its batch was retired, not by shutdown. */
  predicate Awaited(s: State, order: nat) { s.committedSeq >= order }

  lemma AcknowledgedNow(s: State, attempts: map<(Id, nat), Record>, k: nat)
    requires Inv(s, attempts) && k < s.insertSeq
    ensures |s.log.inserts| == s.insertSeq && s.log.inserts[k].order == k + 1
    ensures Awaited(s, k + 1) && InsertAnswer(s) ==>
              var w := s.log.inserts[k];
              && w.id in s.db
              && (s.db[w.id] == w.row || exists u <- s.log.updates :: u.id == w.id && u.row == s.db[w.id])
  {
    hide Rows, Replay, Recorded, Cached, ReadThrough, Versioned, Clean;
    if Awaited(s, k + 1) && InsertAnswer(s) {
      var w := s.log.inserts[k];
      var i, u := s.log.inserts[..DoneInserts(s)], s.log.updates[..DoneUpdates(s)];
      assert i[k] == w;
      RowsAt(i, w);
      ReplayRow(s.log.direct + Rows(i), u, w.id);
    }
  }

  /**
   * An insert acknowledged is an insert committed, also when commits can fail: its row is there, as inserted or
   * as updated since.
   */
  lemma AcknowledgedIsDurable(run: seq<State>, events: seq<Event>, j: nat, k: nat)
    requires IsRun(run, events) && j < |run| && k < |run[j].log.inserts|
    requires Awaited(run[j], run[j].log.inserts[k].order) && InsertAnswer(run[j])
    ensures var s, w := run[j], run[j].log.inserts[k];
            && w.id in s.db
            && (s.db[w.id] == w.row || exists u <- s.log.updates :: u.id == w.id && u.row == s.db[w.id])
  {
    hide Rows, Replay, Recorded, Cached, ReadThrough, Versioned, Clean;
    RunKeepsInv(run, events, j);
    AcknowledgedNow(run[j], run[0].attempts, k);
  }

  /** A row once in the database stays: what was acknowledged is never taken back. */
  lemma {:induction false} DurableForGood(run: seq<State>, events: seq<Event>, i: nat, j: nat, id: Id)
    requires IsRun(run, events) && i <= j < |run| && id in run[i].db
    ensures id in run[j].db
    decreases j
  {
    if i < j {
      DurableForGood(run, events, i, j - 1, id);
      KeysStay(run[j - 1], events[j - 1], id);
    }
  }

  lemma KeysStay(s: State, e: Event, id: Id)
    requires Enabled(s, e) && id in s.db
    ensures id in Apply(s, e).db
  {
    hide Rows, Replay, Recorded, Retired;
    if e == Commit(true) { ReplayKeys(s.db + Rows(s.flusher.inserts), s.flusher.updates); }
  }

  /** The answer is false exactly when some batch, whosever it was, had failed: the error is never cleared. */
  lemma {:induction false} RefusedIff(run: seq<State>, events: seq<Event>, j: nat)
    requires IsRun(run, events) && j < |run|
    ensures !InsertAnswer(run[j]) <==> exists c :: 0 <= c < j && events[c].Retire? && !run[c].flusher.ok
  {
    hide Apply;
    if j > 0 {
      RefusedIff(run, events, j - 1);
      FailureSticks(run[j - 1], events[j - 1]);
    }
  }

  lemma FailureSticks(s: State, e: Event)
    requires Enabled(s, e)
    ensures Apply(s, e).failed <==> s.failed || (e.Retire? && !s.flusher.ok)
  {
    hide Rows, Replay, Recorded, Retired, Insertable;
  }

  // ---- the flush barrier ----

  /** The test with which flush() returns. */
  predicate Flushed(s: State) { !HasPending(s) && s.inFlight == 0 }

  /**
   * When flush() returns the cache is empty, every id whose newest write was not lost is in the table as the plain
   * map has it, and, if no commit failed, the table is the plain map and every attempt record so far is stored.
   */
  lemma FlushIsBarrier(run: seq<State>, events: seq<Event>, j: nat)
    requires IsRun(run, events) && j < |run| && Flushed(run[j])
    ensures run[j].cache == map[]
    ensures forall id: Id :: NewestLost(run[j], id) || SameRow(run[j].db, run[j].log.newest, id)
    ensures Clean(run[j]) ==> run[j].db == run[j].log.newest
    ensures Clean(run[j]) ==> run[j].attempts == Recorded(run[0].attempts, run[j].log.records)
  {
    hide Rows, Replay, Recorded, Versioned, Keyed;
    RunKeepsInv(run, events, j);
    var s := run[j];
    assert Inserts(s) == [] && Updates(s) == [];
    assert s.cache == map[];
    if Clean(s) {
      assert s.log.records[..DoneRecords(s)] == s.log.records;
      forall id ensures SameRow(s.db, s.log.newest, id) { assert !NewestLost(s, id); }
    }
  }

  // ---- batches and attempt records ----

  /** A batch takes the oldest of each buffer, up to the limit, and leaves the others in their order. */
  lemma BatchIsPrefix(run: seq<State>, events: seq<Event>, i: nat)
    requires IsRun(run, events) && i < |events| && events[i].Take?
    ensures var s, t, n := run[i], run[i + 1], events[i].limit;
            && t.flusher.Taken?
            && var f := t.flusher;
               && f.inserts + t.pendingInserts == s.pendingInserts && f.updates + t.pendingUpdates == s.pendingUpdates
               && f.records + t.pendingRecords == s.pendingRecords
               && |f.inserts| <= n && |f.updates| <= n && |f.records| <= n
               && (|f.inserts| < n ==> t.pendingInserts == []) && (|f.updates| < n ==> t.pendingUpdates == [])
               && (|f.records| < n ==> t.pendingRecords == [])
               && t.inFlight == |f.inserts| + |f.updates| + |f.records|
  {
  }

  /** No later record has the same job and attempt. */
  predicate LastOfItsKey(records: seq<Record>, k: nat) {
    k < |records| &&
    forall j :: k < j < |records| ==> (records[j].id, records[j].attempt) != (records[k].id, records[k].attempt)
  }

  lemma RecordedNext(attempts: map<(Id, nat), Record>, records: seq<Record>, r: Record)
    ensures Recorded(attempts, records + [r]) == Recorded(attempts, records)[(r.id, r.attempt) := r]
  {
    assert (records + [r])[..|records|] == records;
  }

  lemma {:induction false} OthersAreKept(attempts: map<(Id, nat), Record>, records: seq<Record>, more: seq<Record>,
                                         key: (Id, nat))
    requires forall r <- more :: (r.id, r.attempt) != key
    ensures var s, t := Recorded(attempts, records), Recorded(attempts, records + more);
            (key in t <==> key in s) && (key in t ==> t[key] == s[key])
    decreases |more|
  {
    if more == [] {
      assert records + more == records;
    } else {
      hide Recorded;
      var n := |more| - 1;
      assert forall r <- more[..n] :: r in more;
      assert more[n] in more;
      OthersAreKept(attempts, records, more[..n], key);
      RecordedNext(attempts, records + more[..n], more[n]);
      assert records + more == records + more[..n] + [more[n]];
    }
  }

  /** INSERT OR REPLACE: of each job and attempt the last record is kept. */
  lemma LastRecordIsKept(attempts: map<(Id, nat), Record>, records: seq<Record>, k: nat)
    requires LastOfItsKey(records, k)
    ensures var t, key := Recorded(attempts, records), (records[k].id, records[k].attempt);
            key in t && t[key] == records[k]
  {
    hide Recorded;
    RecordedNext(attempts, records[..k], records[k]);
    OthersAreKept(attempts, records[..k] + [records[k]], records[k + 1..], (records[k].id, records[k].attempt));
    assert records == records[..k] + [records[k]] + records[k + 1..];
  }

  /** After a flush, with no commit failed, the last record of every attempt is in the table. */
  lemma AttemptsAreStored(run: seq<State>, events: seq<Event>, j: nat, k: nat)
    requires IsRun(run, events) && j < |run| && Flushed(run[j]) && Clean(run[j])
    requires LastOfItsKey(run[j].log.records, k)
    ensures var r := run[j].log.records[k];
            (r.id, r.attempt) in run[j].attempts && run[j].attempts[(r.id, r.attempt)] == r
  {
    hide Recorded, Rows, Replay, Enabled, Apply, Proper, Clean, Flushed;
    FlushIsBarrier(run, events, j);
    var r := run[j].log.records[k];
    LastRecordIsKept(run[0].attempts, run[j].log.records, k);
  }
}
