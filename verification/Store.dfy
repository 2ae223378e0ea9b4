/**
 * The group-commit store as an object. A method is one section of the write-buffer lock or of the writer
 * connection; which section runs next is up to the callers and the flusher thread. Each method performs
 * exactly one step of the state machine, so the theorems about its runs are about this class.
 */
module Store {
  import opened Jobs
  import opened StoreModel
  import opened StoreRuns
  import opened StoreTheorems

  // ---- transactions ----

  lemma InsertableNext(table: map<Id, Row>, rows: seq<Write>, k: nat)
    requires k < |rows| && Insertable(table, rows[..k])
    ensures Insertable(table, rows[..k + 1]) <==> rows[k].id !in table + Rows(rows[..k])
    ensures table + Rows(rows[..k + 1]) == (table + Rows(rows[..k]))[rows[k].id := rows[k].row]
  {
    RowsKeys(rows[..k], rows[k].id);
    assert rows[..k + 1] == rows[..k] + [rows[k]] && (rows[..k + 1])[..k] == rows[..k];
    if Insertable(table, rows[..k + 1]) {
      forall j | 0 <= j < k ensures rows[..k][j].id != rows[k].id { assert rows[..k + 1][j].id != rows[..k + 1][k].id; }
    }
  }

  /** A batch that holds a bad prefix is bad. */
  lemma InsertablePrefix(table: map<Id, Row>, rows: seq<Write>, k: nat)
    requires k <= |rows| && Insertable(table, rows)
    ensures Insertable(table, rows[..k])
  {
  }

  /** INSERT one row after the other; a taken primary key, or the statement `failAt`, ends the transaction. */
  method InsertRows(table: map<Id, Row>, rows: seq<Write>, failAt: nat) returns (ok: bool, txn: map<Id, Row>)
    ensures ok <==> Insertable(table, rows) && failAt >= |rows|
    ensures ok ==> txn == table + Rows(rows)
  {
    hide Insertable, Rows;
    txn := table;
    NoRows(table, rows);
    for k := 0 to |rows|
      invariant k <= failAt && Insertable(table, rows[..k]) && txn == table + Rows(rows[..k])
    {
      if k == failAt { return false, txn; }
      InsertableNext(table, rows, k);
      if rows[k].id in txn {
        if Insertable(table, rows) { InsertablePrefix(table, rows, k + 1); }
        return false, txn;
      }
      txn := txn[rows[k].id := rows[k].row];
    }
    assert rows[..|rows|] == rows;
    return true, txn;
  }

  lemma NoRows(table: map<Id, Row>, rows: seq<Write>)
    ensures Insertable(table, rows[..0]) && table == table + Rows(rows[..0])
  {
  }

  method UpdateRows(table: map<Id, Row>, updates: seq<Write>, failAt: nat) returns (ok: bool, txn: map<Id, Row>)
    ensures ok <==> failAt >= |updates|
    ensures ok ==> txn == Replay(table, updates)
  {
    txn := table;
    for k := 0 to |updates|
      invariant k <= failAt && txn == Replay(table, updates[..k])
    {
      if k == failAt { return false, txn; }
      if updates[k].id in txn { txn := txn[updates[k].id := updates[k].row]; }
      assert (updates[..k + 1])[..k] == updates[..k];
    }
    assert updates[..|updates|] == updates;
    return true, txn;
  }

  method InsertAttempts(table: map<(Id, nat), Record>, records: seq<Record>, failAt: nat)
    returns (ok: bool, txn: map<(Id, nat), Record>)
    ensures ok <==> failAt >= |records|
    ensures ok ==> txn == Recorded(table, records)
  {
    txn := table;
    for k := 0 to |records|
      invariant k <= failAt && txn == Recorded(table, records[..k])
    {
      if k == failAt { return false, txn; }
      txn := txn[(records[k].id, records[k].attempt) := records[k]];
      assert (records[..k + 1])[..k] == records[..k];
    }
    assert records[..|records|] == records;
    return true, txn;
  }

  // ---- the cache ----

  lemma RetiredSplit(cache: map<Id, Write>, a: seq<Write>, b: seq<Write>)
    ensures Retired(Retired(cache, a), b) == Retired(cache, a + b)
  {
  }

  /** Drop each entry that is still the version written; a newer one stays. */
  method Evict(cache: map<Id, Write>, written: seq<Write>) returns (left: map<Id, Write>)
    ensures left == Retired(cache, written)
  {
    left := cache;
    assert Retired(cache, []) == cache;
    for k := 0 to |written|
      invariant left == Retired(cache, written[..k])
    {
      var w := written[k];
      RetiredSplit(cache, written[..k], [w]);
      assert written[..k + 1] == written[..k] + [w];
      if w.id in left && left[w.id].version == w.version {
        left := left - {w.id};
      }
    }
    assert written[..|written|] == written;
  }

  class JobStore {
    var pendingInserts: seq<Write>
    var pendingUpdates: seq<Write>
    var pendingRecords: seq<Record>
    var cache: map<Id, Write>
    var version: nat
    var insertSeq: nat
    var committedSeq: nat
    var inFlight: nat
    var failed: bool
    var stop: bool
    var flusher: Flusher
    var db: map<Id, Row>
    var attempts: map<(Id, nat), Record>
    ghost var log: Log

    ghost function View(): State
      reads this
    {
      State(pendingInserts, pendingUpdates, pendingRecords, cache, version, insertSeq, committedSeq, inFlight,
            failed, stop, flusher, db, attempts, log)
    }

    constructor (rows: map<Id, Row>, records: map<(Id, nat), Record>)
      ensures View() == Initial(rows, records)
    {
      pendingInserts, pendingUpdates, pendingRecords := [], [], [];
      cache, version, insertSeq, committedSeq, inFlight := map[], 0, 0, 0, 0;
      failed, stop, flusher := false, false, Idle;
      db, attempts, log := rows, records, Log(rows, rows, [], [], [], map[], {});
    }

    // ---- callers ----

    /** The first section of insert_jobs for one row: buffer it and make it readable at once. */
    method InsertJob(id: Id, row: Row) returns (order: nat)
      modifies this
      ensures View() == Apply(old(View()), Insert(id, row))
      ensures order == insertSeq
    {
      insertSeq := insertSeq + 1;
      version := version + 1;
      order := insertSeq;
      var w := Write(version, order, id, row);
      pendingInserts := pendingInserts + [w];
      cache := cache[id := w];
      log := log.(newest := log.newest[id := row], inserts := log.inserts + [w],
                  versions := log.versions[id := w.version]);
    }

    /**
     * The second section of insert_jobs, once its wait is over. Acknowledged after its batch was retired, the row
     * is committed; refused, some batch failed.
     */
    method AwaitInsert(order: nat, ghost initial: map<(Id, nat), Record>) returns (ok: bool)
      requires Inv(View(), initial) && 1 <= order <= insertSeq
      requires committedSeq >= order || stop
      ensures |log.inserts| == insertSeq
      ensures ok && committedSeq >= order ==>
                var w := log.inserts[order - 1];
                && w.order == order && w.id in db
                && (db[w.id] == w.row || exists u <- log.updates :: u.id == w.id && u.row == db[w.id])
      ensures !ok ==> failed
    {
      AcknowledgedNow(View(), initial, order - 1);
      if failed { return false; }
      return true;
    }

    method UpdateJob(id: Id, row: Row) returns (ok: bool)
      modifies this
      ensures ok && View() == Apply(old(View()), Update(id, row))
    {
      version := version + 1;
      var w := Write(version, 0, id, row);
      pendingUpdates := pendingUpdates + [w];
      cache := cache[id := w];
      log := log.(newest := log.newest[id := row], updates := log.updates + [w],
                  versions := log.versions[id := w.version]);
      return true;
    }

    method AppendAttempt(record: Record) returns (ok: bool)
      modifies this
      ensures ok && View() == Apply(old(View()), Append(record))
    {
      pendingRecords := pendingRecords + [record];
      version := version + 1;
      log := log.(records := log.records + [record]);
      return true;
    }

    /** get_job without interruption: the newest row of the id, unless that row was lost in a failed transaction. */
    method GetJob(id: Id, ghost initial: map<(Id, nat), Record>) returns (row: Option<Row>)
      requires Inv(View(), initial)
      ensures row == ReadJob([View()], 0, 0, id)
      ensures id in cache || !NewestLost(View(), id) ==> row == Get(log.newest, id)
    {
      if id !in cache && !NewestLost(View(), id) { NothingBuffered(View(), id, initial); }
      if id in cache { return Some(cache[id].row); }
      if id in db { return Some(db[id]); }
      return None;
    }

    /** The node rows of insert_workflow: one transaction of its own, past the buffer. */
    method InsertWorkflowRows(nodes: seq<Write>, failAt: nat) returns (ok: bool)
      modifies this
      ensures ok <==> Insertable(old(db), nodes) && failAt >= |nodes|
      ensures View() == if ok then Apply(old(View()), Direct(Rows(nodes))) else old(View())
    {
      var done, txn := InsertRows(db, nodes, failAt);
      if done {
        db := txn;
        log := log.(newest := log.newest + Rows(nodes), direct := log.direct + Rows(nodes));
      }
      return done;
    }

    // ---- the flusher ----

    method TakeBatch(maxBatch: nat)
      requires Enabled(View(), Take(maxBatch))
      modifies this
      ensures View() == Apply(old(View()), Take(maxBatch))
    {
      var a, b, c := Min(|pendingInserts|, maxBatch), Min(|pendingUpdates|, maxBatch), Min(|pendingRecords|, maxBatch);
      flusher := Taken(pendingInserts[..a], pendingUpdates[..b], pendingRecords[..c]);
      pendingInserts, pendingUpdates, pendingRecords := pendingInserts[a..], pendingUpdates[b..], pendingRecords[c..];
      inFlight := a + b + c;
    }

    /**
     * commit_batch. `failAt` numbers the statements: 0 is BEGIN, then the inserts, the updates and the attempts,
     * and COMMIT last; the statement it numbers is refused, and with it the whole transaction.
     */
    method CommitBatch(failAt: nat) returns (ok: bool)
      requires flusher.Taken?
      modifies this
      ensures var f := old(flusher);
              var n := |f.inserts| + |f.updates| + |f.records|;
              ok <==> n == 0 || (Insertable(old(db), f.inserts) && failAt > n + 1)
      ensures Enabled(old(View()), Commit(ok)) && View() == Apply(old(View()), Commit(ok))
    {
      var f := flusher;
      var table, records := db, attempts;
      if f.inserts == [] && f.updates == [] && f.records == [] {
        ok := true;
      } else if failAt == 0 {
        ok := false;
      } else {
        ok, table, records := RunBatch(f.inserts, f.updates, f.records, failAt - 1);
      }
      if ok {
        db, attempts := table, records;
      }
      log := log.(lost := if ok then log.lost else log.lost + Versions(f.inserts + f.updates));
      flusher := Written(f.inserts, f.updates, f.records, ok);
    }

    /** The statements between BEGIN and the end of the transaction. */
    method RunBatch(inserts: seq<Write>, updates: seq<Write>, records: seq<Record>, failAt: nat)
      returns (ok: bool, table: map<Id, Row>, kept: map<(Id, nat), Record>)
      ensures ok <==> Insertable(db, inserts) && failAt > |inserts| + |updates| + |records|
      ensures ok ==> table == Replay(db + Rows(inserts), updates) && kept == Recorded(attempts, records)
    {
      kept := attempts;
      ok, table := InsertRows(db, inserts, failAt);
      if ok { ok, table := UpdateRows(table, updates, failAt - |inserts|); }
      if ok { ok, kept := InsertAttempts(attempts, records, failAt - |inserts| - |updates|); }
      if ok { ok := failAt > |inserts| + |updates| + |records|; }
    }

    method RetireBatch()
      requires flusher.Written?
      modifies this
      ensures View() == Apply(old(View()), Retire)
    {
      var f := flusher;
      RetiredSplit(cache, f.inserts, f.updates);
      cache := Evict(cache, f.inserts);
      cache := Evict(cache, f.updates);
      inFlight := 0;
      if !f.ok { failed := true; }
      var batchSeq := if f.inserts == [] then 0 else f.inserts[|f.inserts| - 1].order;
      if batchSeq > committedSeq { committedSeq := batchSeq; }
      flusher := Idle;
    }

    /** The test with which flush() returns. */
    method IsFlushed() returns (done: bool)
      ensures done <==> (!HasPending(View()) && inFlight == 0) || stop
    {
      done := (pendingInserts == [] && pendingUpdates == [] && pendingRecords == [] && inFlight == 0) || stop;
    }

    method StopFlusher()
      modifies this
      ensures View() == Apply(old(View()), StoreModel.Stop)
    {
      stop := true;
    }
  }
}
