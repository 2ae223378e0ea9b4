/** What every run of the group-commit store keeps, and what its callers can rely on. */
module StoreRuns {
  import opened StoreModel

  // ---- tables ----

  lemma {:induction false} RowsKeys(inserts: seq<Write>, id: Id)
    ensures id in Rows(inserts) <==> exists w <- inserts :: w.id == id
    ensures id in Rows(inserts) ==> exists w <- inserts :: w.id == id && w.row == Rows(inserts)[id]
  {
    if inserts != [] {
      var n := |inserts| - 1;
      RowsKeys(inserts[..n], id);
      assert inserts == inserts[..n] + [inserts[n]];
    }
  }

  lemma {:induction false} RowsSplit(a: seq<Write>, b: seq<Write>)
    ensures Rows(a + b) == Rows(a) + Rows(b)
  {
    if b == [] {
      assert a + b == a;
    } else {
      var n := |b| - 1;
      assert (a + b)[..|a| + n] == a + b[..n];
      RowsSplit(a, b[..n]);
    }
  }

  lemma {:induction false} ReplaySplit(db: map<Id, Row>, a: seq<Write>, b: seq<Write>)
    ensures Replay(db, a + b) == Replay(Replay(db, a), b)
  {
    if b == [] {
      assert a + b == a;
    } else {
      var n := |b| - 1;
      assert (a + b)[..|a| + n] == a + b[..n];
      ReplaySplit(db, a, b[..n]);
    }
  }

  lemma {:induction false} RecordedSplit(attempts: map<(Id, nat), Record>, a: seq<Record>, b: seq<Record>)
    ensures Recorded(attempts, a + b) == Recorded(Recorded(attempts, a), b)
  {
    if b == [] {
      assert a + b == a;
    } else {
      var n := |b| - 1;
      assert (a + b)[..|a| + n] == a + b[..n];
      RecordedSplit(attempts, a, b[..n]);
    }
  }

  /** Updates neither see nor touch rows added under other names. */
  lemma {:induction false} ReplayAdds(db: map<Id, Row>, rows: map<Id, Row>, updates: seq<Write>)
    requires forall w <- updates :: w.id !in rows
    ensures Replay(db + rows, updates) == Replay(db, updates) + rows
  {
    if updates != [] {
      ReplayAdds(db, rows, updates[..|updates| - 1]);
    }
  }

  lemma {:induction false} ReplayKeys(db: map<Id, Row>, updates: seq<Write>)
    ensures Replay(db, updates).Keys == db.Keys
  {
    if updates != [] { ReplayKeys(db, updates[..|updates| - 1]); }
  }

  /** A replayed row is the old one, or one that an update wrote; untouched when no update names it. */
  lemma {:induction false} ReplayRow(db: map<Id, Row>, updates: seq<Write>, id: Id)
    requires id in db
    ensures id in Replay(db, updates)
    ensures (forall w <- updates :: w.id != id) ==> Replay(db, updates)[id] == db[id]
    ensures Replay(db, updates)[id] == db[id] || exists w <- updates :: w.id == id && w.row == Replay(db, updates)[id]
  {
    if updates != [] {
      var n := |updates| - 1;
      ReplayRow(db, updates[..n], id);
      assert updates == updates[..n] + [updates[n]];
    }
  }

  /** The last update of a row decides it. */
  lemma {:induction false} ReplayLast(db: map<Id, Row>, updates: seq<Write>, k: nat)
    requires k < |updates| && updates[k].id in db
    requires forall j :: k < j < |updates| ==> updates[j].id != updates[k].id
    ensures updates[k].id in Replay(db, updates) && Replay(db, updates)[updates[k].id] == updates[k].row
  {
    var n := |updates| - 1;
    ReplayKeys(db, updates[..n]);
    if k < n { ReplayLast(db, updates[..n], k); }
  }

  // ---- the invariant ----

  function Inserts(s: State): seq<Write> { (if s.flusher.Idle? then [] else s.flusher.inserts) + s.pendingInserts }

  function Updates(s: State): seq<Write> { (if s.flusher.Idle? then [] else s.flusher.updates) + s.pendingUpdates }

  function Records(s: State): seq<Record> { (if s.flusher.Idle? then [] else s.flusher.records) + s.pendingRecords }

  ghost predicate Tail<T>(buffer: seq<T>, log: seq<T>) {
    |buffer| <= |log| && buffer == log[|log| - |buffer|..]
  }

  lemma TailAt<T>(buffer: seq<T>, log: seq<T>, i: nat)
    requires Tail(buffer, log) && i < |buffer|
    ensures |log| - |buffer| + i < |log| && buffer[i] == log[|log| - |buffer| + i]
    ensures buffer[i] in log
  {
  }

  lemma TailGrows<T>(buffer: seq<T>, log: seq<T>, x: T)
    requires Tail(buffer, log)
    ensures Tail(buffer + [x], log + [x])
  {
  }

  lemma TailDrops<T>(buffer: seq<T>, log: seq<T>, n: nat)
    requires Tail(buffer, log) && n <= |buffer|
    ensures Tail(buffer[n..], log)
  {
  }

  /** The buffered writes are the ends of the write histories, in order; the watermark is where they start. */
  ghost predicate Ordered(s: State) {
    && s.insertSeq == |s.log.inserts|
    && s.committedSeq + |Inserts(s)| == |s.log.inserts| && Tail(Inserts(s), s.log.inserts)
    && (forall k :: 0 <= k < |s.log.inserts| ==> s.log.inserts[k].order == k + 1)
    && Tail(Updates(s), s.log.updates)
    && Tail(Records(s), s.log.records)
    && s.inFlight == (if s.flusher.Idle? then 0 else |s.flusher.inserts| + |s.flusher.updates| + |s.flusher.records|)
  }

  ghost predicate Versioned(s: State) {
    && (forall w <- s.log.inserts :: w.version <= s.version)
    && (forall v <- s.log.lost :: v <= s.version)
    && (forall w <- s.log.updates :: w.version <= s.version)
    && (forall i, j :: 0 <= i < j < |s.log.updates| ==> s.log.updates[i].version < s.log.updates[j].version)
    && (forall a, b :: a in s.log.inserts && b in s.log.updates && a.id == b.id ==> a.version < b.version)
  }

  /** Inserted ids are distinct, and none is in the table before its batch; updated rows are. */
  ghost predicate Keyed(s: State) {
    && (forall i, j :: 0 <= i < j < |s.log.inserts| ==> s.log.inserts[i].id != s.log.inserts[j].id)
    && (forall w <- s.log.inserts :: w.id in s.log.newest && w.id !in s.log.direct)
    && (forall w <- s.log.updates :: w.id in s.db)
    && (forall w <- s.pendingInserts :: w.id !in s.db)
    && (s.flusher.Taken? ==> forall w <- s.flusher.inserts :: w.id !in s.db)
    && s.db.Keys <= s.log.newest.Keys && s.log.direct.Keys <= s.log.newest.Keys
  }

  /** A cached row is the newest, and is buffered; every buffered write is cached or superseded. */
  ghost predicate Cached(s: State) {
    && (forall id <- s.cache :: s.cache[id].id == id && id in s.log.newest && s.log.newest[id] == s.cache[id].row)
    && (forall id <- s.cache :: s.cache[id] in Inserts(s) || s.cache[id] in Updates(s))
    && (forall id <- s.cache :: s.cache[id].version <= s.version)
    && (forall id <- s.cache :: id in s.log.versions && s.log.versions[id] == s.cache[id].version)
    && (forall id <- s.log.versions :: id in s.log.newest)
    && (forall w <- Inserts(s) :: w.id in s.cache && Behind(w, s.cache[w.id]))
    && (forall w <- Updates(s) :: w.id in s.cache && Behind(w, s.cache[w.id]))
  }

  ghost predicate Behind(w: Write, c: Write) { w.version <= c.version && (w.version == c.version ==> w == c) }

  /** No commit has failed so far. */
  ghost predicate Clean(s: State) { !s.failed && !(s.flusher.Written? && !s.flusher.ok) }

  ghost predicate SameRow(a: map<Id, Row>, b: map<Id, Row>, id: Id) {
    (id in a <==> id in b) && (id in a ==> a[id] == b[id])
  }

  /** The newest write of the id was in a transaction that failed. */
  ghost predicate NewestLost(s: State, id: Id) {
    id in s.log.versions && s.log.versions[id] in s.log.lost
  }

  /** An id that is not cached is as the plain map has it, unless its newest write was lost. */
  ghost predicate ReadThrough(s: State) {
    && (forall id: Id :: id !in s.cache ==> NewestLost(s, id) || SameRow(s.db, s.log.newest, id))
    && (s.flusher.Written? ==> forall w <- s.flusher.inserts + s.flusher.updates ::
          w.id in s.cache && s.cache[w.id] == w ==>
            if s.flusher.ok then w.id in s.db && s.db[w.id] == w.row else w.version in s.log.lost)
  }

  /** The flusher holds a batch that is not committed. */
  predicate Uncommitted(f: Flusher) { f.Taken? || (f.Written? && !f.ok) }

  /** How much of each history is committed. */
  function DoneInserts(s: State): int {
    |s.log.inserts| - |s.pendingInserts| - (if Uncommitted(s.flusher) then |s.flusher.inserts| else 0)
  }

  function DoneUpdates(s: State): int {
    |s.log.updates| - |s.pendingUpdates| - (if Uncommitted(s.flusher) then |s.flusher.updates| else 0)
  }

  function DoneRecords(s: State): int {
    |s.log.records| - |s.pendingRecords| - (if Uncommitted(s.flusher) then |s.flusher.records| else 0)
  }

  ghost predicate Prefix(s: State, attempts: map<(Id, nat), Record>) {
    && 0 <= DoneInserts(s) <= |s.log.inserts|
    && 0 <= DoneUpdates(s) <= |s.log.updates|
    && 0 <= DoneRecords(s) <= |s.log.records|
    && s.db == Replay(s.log.direct + Rows(s.log.inserts[..DoneInserts(s)]), s.log.updates[..DoneUpdates(s)])
    && s.attempts == Recorded(attempts, s.log.records[..DoneRecords(s)])
  }

  ghost predicate Inv(s: State, attempts: map<(Id, nat), Record>) {
    && Ordered(s) && Versioned(s) && Keyed(s) && Cached(s)
    && ReadThrough(s)
    && (Clean(s) ==> s.log.lost == {})
    && (!s.failed ==> Prefix(s, attempts))
  }

  // ---- what each step keeps ----

  lemma BuffersKept(s: State, e: Event)
    requires Enabled(s, e) && !e.Retire?
    ensures var t := Apply(s, e);
            && Inserts(t) == (if e.Insert? then Inserts(s) + [Write(s.version + 1, s.insertSeq + 1, e.id, e.row)]
                              else Inserts(s))
            && Updates(t) == (if e.Update? then Updates(s) + [Write(s.version + 1, 0, e.id, e.row)] else Updates(s))
            && Records(t) == (if e.Append? then Records(s) + [e.record] else Records(s))
  {
    hide Rows, Replay, Recorded, Retired, Insertable;
  }

  lemma BuffersRetired(s: State)
    requires s.flusher.Written?
    ensures var t := Apply(s, Retire);
            && Inserts(t) == Inserts(s)[|s.flusher.inserts|..]
            && Updates(t) == Updates(s)[|s.flusher.updates|..]
            && Records(t) == Records(s)[|s.flusher.records|..]
  {
    hide Retired;
  }

  lemma RetireKeepsOrder(s: State)
    requires Ordered(s) && s.flusher.Written?
    ensures Ordered(Apply(s, Retire))
  {
    hide Tail, Retired;
    var f := s.flusher;
    BuffersRetired(s);
    TailDrops(Inserts(s), s.log.inserts, |f.inserts|);
    TailDrops(Updates(s), s.log.updates, |f.updates|);
    TailDrops(Records(s), s.log.records, |f.records|);
    if f.inserts != [] { TailAt(Inserts(s), s.log.inserts, |f.inserts| - 1); }
  }

  lemma OrderedKeeps(s: State, e: Event)
    requires Ordered(s) && Enabled(s, e)
    ensures Ordered(Apply(s, e))
  {
    hide Rows, Replay, Recorded, Retired, Insertable, Tail, Inserts, Updates, Records;
    if e.Retire? { RetireKeepsOrder(s); return; }
    BuffersKept(s, e);
    match e
    case Insert(id, row) => TailGrows(Inserts(s), s.log.inserts, Write(s.version + 1, s.insertSeq + 1, id, row));
    case Update(id, row) => TailGrows(Updates(s), s.log.updates, Write(s.version + 1, 0, id, row));
    case Append(r) => TailGrows(Records(s), s.log.records, r);
    case _ =>
  }

  lemma VersionedKeeps(s: State, e: Event)
    requires Ordered(s) && Versioned(s) && Keyed(s) && Enabled(s, e) && Proper(s, e)
    ensures Versioned(Apply(s, e))
  {
    hide Ordered, Rows, Replay, Recorded, Retired, Insertable, Inserts, Updates;
    BufferedIsLogged(s);
  }

  lemma CommittedKeys(s: State)
    requires s.flusher.Taken?
    ensures Apply(s, Commit(false)).db == s.db
    ensures Insertable(s.db, s.flusher.inserts) ==>
              forall id :: id in Apply(s, Commit(true)).db <==>
                id in s.db || exists w <- s.flusher.inserts :: w.id == id
  {
    if Insertable(s.db, s.flusher.inserts) {
      ReplayKeys(s.db + Rows(s.flusher.inserts), s.flusher.updates);
      forall id ensures id in Apply(s, Commit(true)).db <==> id in s.db || exists w <- s.flusher.inserts :: w.id == id {
        RowsKeys(s.flusher.inserts, id);
      }
    }
  }

  lemma BufferedIsLogged(s: State)
    requires Ordered(s)
    ensures forall w <- Inserts(s) :: w in s.log.inserts
    ensures forall w <- Updates(s) :: w in s.log.updates
    ensures !s.flusher.Idle? ==> forall w <- s.flusher.inserts :: w in Inserts(s)
    ensures !s.flusher.Idle? ==> forall w <- s.flusher.updates :: w in Updates(s)
    ensures forall w <- s.pendingInserts :: w in Inserts(s)
  {
    forall w <- Inserts(s) ensures w in s.log.inserts {
      var i :| 0 <= i < |Inserts(s)| && Inserts(s)[i] == w;
      TailAt(Inserts(s), s.log.inserts, i);
    }
    forall w <- Updates(s) ensures w in s.log.updates {
      var i :| 0 <= i < |Updates(s)| && Updates(s)[i] == w;
      TailAt(Updates(s), s.log.updates, i);
    }
  }

  /** A batch of inserts and the inserts behind it name different rows. */
  lemma BatchApart(s: State, w: Write, v: Write)
    requires Ordered(s) && Keyed(s) && !s.flusher.Idle? && w in s.flusher.inserts && v in s.pendingInserts
    ensures w.id != v.id
  {
    var f := s.flusher;
    var i :| 0 <= i < |f.inserts| && f.inserts[i] == w;
    var j :| 0 <= j < |s.pendingInserts| && s.pendingInserts[j] == v;
    TailAt(Inserts(s), s.log.inserts, i);
    TailAt(Inserts(s), s.log.inserts, |f.inserts| + j);
  }

  lemma KeyedKeeps(s: State, e: Event)
    requires Ordered(s) && Keyed(s) && Enabled(s, e) && Proper(s, e)
    ensures Keyed(Apply(s, e))
  {
    hide Rows, Replay, Recorded, Retired, Ordered;
    match e
    case Commit(ok) =>
      CommittedKeys(s);
      BufferedIsLogged(s);
      forall w, v | w in s.flusher.inserts && v in s.pendingInserts ensures w.id != v.id { BatchApart(s, w, v); }
    case Direct(_) => BufferedIsLogged(s);
    case _ =>
  }

  lemma InsertIsCached(s: State, e: Event)
    requires Cached(s) && e.Insert?
    ensures Cached(Apply(s, e))
  {
    hide Rows, Replay, Recorded, Retired, Inserts, Updates, Records;
    BuffersKept(s, e);
    var t := Apply(s, e);
    assert t.cache[e.id] in Inserts(t);
  }

  lemma UpdateIsCached(s: State, e: Event)
    requires Cached(s) && e.Update?
    ensures Cached(Apply(s, e))
  {
    hide Rows, Replay, Recorded, Retired, Inserts, Updates, Records;
    BuffersKept(s, e);
    var t := Apply(s, e);
    assert t.cache[e.id] in Updates(t);
  }

  lemma UpdatesApart(s: State, v: Write, w: Write)
    requires Ordered(s) && Versioned(s) && !s.flusher.Idle? && v in s.flusher.updates && w in s.pendingUpdates
    ensures v.version < w.version
  {
    hide Inserts, Records;
    var f := s.flusher;
    var i :| 0 <= i < |f.updates| && f.updates[i] == v;
    var j :| 0 <= j < |s.pendingUpdates| && s.pendingUpdates[j] == w;
    TailAt(Updates(s), s.log.updates, i);
    TailAt(Updates(s), s.log.updates, |f.updates| + j);
  }

  /** Nothing left in the buffer was superseded by what the batch wrote last. */
  lemma NothingLeftBehind(s: State, v: Write, w: Write)
    requires Ordered(s) && Versioned(s) && Keyed(s) && Cached(s) && s.flusher.Written?
    requires v in s.flusher.inserts + s.flusher.updates && w in s.pendingInserts + s.pendingUpdates && v.id == w.id
    ensures v.version != s.cache[w.id].version
  {
    hide Ordered;
    var f := s.flusher;
    BufferedIsLogged(s);
    assert w in Inserts(s) || w in Updates(s);
    if v in f.inserts {
      if w in s.pendingInserts {
        BatchApart(s, v, w);
      }
    } else if w in s.pendingUpdates {
      UpdatesApart(s, v, w);
    }
  }

  lemma RetireKeepsCache(s: State)
    requires Ordered(s) && Versioned(s) && Keyed(s) && Cached(s) && s.flusher.Written?
    ensures Cached(Apply(s, Retire))
  {
    hide Ordered, Versioned, Keyed, Records;
    var f, t := s.flusher, Apply(s, Retire);
    var batch := f.inserts + f.updates;
    forall w | w in s.pendingInserts || w in s.pendingUpdates ensures w.id in t.cache && Behind(w, t.cache[w.id]) {
      assert w in Inserts(s) || w in Updates(s);
      assert w in s.pendingInserts + s.pendingUpdates;
      forall v <- batch | v.id == w.id ensures v.version != s.cache[w.id].version { NothingLeftBehind(s, v, w); }
    }
    forall id <- t.cache ensures t.cache[id] in s.pendingInserts || t.cache[id] in s.pendingUpdates {
      assert t.cache[id] !in batch;
    }
  }

  lemma CachedKeeps(s: State, e: Event)
    requires Ordered(s) && Versioned(s) && Keyed(s) && Cached(s) && Enabled(s, e) && Proper(s, e)
    ensures Cached(Apply(s, e))
  {
    hide Ordered, Versioned, Keyed, Rows, Replay, Recorded, Retired, Inserts, Updates, Records, Insertable;
    if e.Insert? {
      InsertIsCached(s, e);
    } else if e.Update? {
      UpdateIsCached(s, e);
    } else if e.Retire? {
      RetireKeepsCache(s);
    } else {
      BuffersKept(s, e);
    }
  }

  // ---- reads ----

  /** What a committed batch leaves under an id it does not name, and under one whose newest write it holds. */
  lemma CommitMisses(s: State, id: Id)
    requires s.flusher.Taken? && Insertable(s.db, s.flusher.inserts)
    requires forall w <- s.flusher.inserts + s.flusher.updates :: w.id != id
    ensures SameRow(Apply(s, Commit(true)).db, s.db, id)
  {
    var f := s.flusher;
    var db := s.db + Rows(f.inserts);
    RowsKeys(f.inserts, id);
    ReplayKeys(db, f.updates);
    forall w <- f.updates ensures w.id != id { assert w in f.inserts + f.updates; }
    forall w <- f.inserts ensures w.id != id { assert w in f.inserts + f.updates; }
    if id in db { ReplayRow(db, f.updates, id); }
  }

  lemma {:induction false} RowsAt(inserts: seq<Write>, w: Write)
    requires w in inserts && forall i, j :: 0 <= i < j < |inserts| ==> inserts[i].id != inserts[j].id
    ensures w.id in Rows(inserts) && Rows(inserts)[w.id] == w.row
  {
    var n := |inserts| - 1;
    if w != inserts[n] {
      assert w in inserts[..n];
      RowsAt(inserts[..n], w);
    }
  }

  lemma CommitInserts(s: State, w: Write)
    requires Ordered(s) && Keyed(s) && s.flusher.Taken? && Insertable(s.db, s.flusher.inserts) && w in s.flusher.inserts
    ensures var db := Apply(s, Commit(true)).db; w.id in db && db[w.id] == w.row
  {
    hide Retired, Recorded;
    var f := s.flusher;
    BufferedIsLogged(s);
    RowsAt(f.inserts, w);
    assert forall u <- f.updates :: u.id != w.id;
    ReplayRow(s.db + Rows(f.inserts), f.updates, w.id);
  }

  lemma CommitUpdates(s: State, w: Write)
    requires Ordered(s) && Versioned(s) && Keyed(s) && Cached(s) && s.flusher.Taken? &&
             Insertable(s.db, s.flusher.inserts)
    requires w in s.flusher.updates && w.id in s.cache && s.cache[w.id] == w
    ensures var db := Apply(s, Commit(true)).db; w.id in db && db[w.id] == w.row
  {
    hide Retired, Recorded, Rows, Replay, Ordered, Versioned, Cached, Inserts, Updates, Insertable;
    var f := s.flusher;
    BufferedIsLogged(s);
    var k :| 0 <= k < |f.updates| && f.updates[k] == w;
    forall j | k < j < |f.updates| ensures f.updates[j].id != w.id { LaterIsNewer(s, k, j); }
    ReplayLast(s.db + Rows(f.inserts), f.updates, k);
  }

  lemma LaterIsNewer(s: State, k: nat, j: nat)
    requires Ordered(s) && Versioned(s) && Cached(s) && s.flusher.Taken? && k < j < |s.flusher.updates|
    requires s.flusher.updates[k].id in s.cache && s.cache[s.flusher.updates[k].id] == s.flusher.updates[k]
    ensures s.flusher.updates[j].id != s.flusher.updates[k].id
  {
    var u := s.flusher.updates;
    TailAt(Updates(s), s.log.updates, k);
    TailAt(Updates(s), s.log.updates, j);
    assert u[j] in Updates(s);
  }

  lemma CommitKeepsReads(s: State)
    requires Ordered(s) && Versioned(s) && Keyed(s) && Cached(s) && ReadThrough(s)
    requires s.flusher.Taken? && Insertable(s.db, s.flusher.inserts)
    ensures ReadThrough(Apply(s, Commit(true)))
  {
    hide Ordered, Versioned, Keyed, Insertable, Rows, Replay, Retired, Recorded;
    var f, t := s.flusher, Apply(s, Commit(true));
    BufferedIsLogged(s);
    forall id | id !in t.cache ensures NewestLost(t, id) || SameRow(t.db, t.log.newest, id) { CommitMisses(s, id); }
    forall w <- f.inserts + f.updates | w.id in t.cache && t.cache[w.id] == w
      ensures w.id in t.db && t.db[w.id] == w.row
    {
      if w in f.inserts {
        CommitInserts(s, w);
      } else {
        CommitUpdates(s, w);
      }
    }
  }

  lemma FailureKeepsReads(s: State)
    requires ReadThrough(s) && s.flusher.Taken?
    ensures ReadThrough(Apply(s, Commit(false)))
  {
    hide Rows, Replay, Retired, Recorded;
    var f := s.flusher;
    forall w <- f.inserts + f.updates ensures w.version in Versions(f.inserts + f.updates) {}
  }

  lemma RetireKeepsReads(s: State)
    requires Ordered(s) && Cached(s) && ReadThrough(s) && s.flusher.Written?
    ensures ReadThrough(Apply(s, Retire))
  {
    hide Ordered, Inserts, Updates;
    BufferedIsLogged(s);
    var f, t := s.flusher, Apply(s, Retire);
    forall id | id !in t.cache ensures NewestLost(t, id) || SameRow(t.db, t.log.newest, id) {
      if id in s.cache {
        var w :| w in f.inserts + f.updates && w.id == id && w.version == s.cache[id].version;
        assert w in Inserts(s) || w in Updates(s);
      }
    }
  }

  lemma WriteKeepsReads(s: State, e: Event)
    requires Cached(s) && ReadThrough(s) && (e.Insert? || e.Update?)
    ensures ReadThrough(Apply(s, e))
  {
    hide Rows, Replay, Recorded, Retired;
  }

  lemma ReadThroughKeeps(s: State, e: Event)
    requires Ordered(s) && Versioned(s) && Keyed(s) && Cached(s) && ReadThrough(s)
    requires Enabled(s, e) && Proper(s, e)
    ensures ReadThrough(Apply(s, e))
  {
    hide Ordered, Versioned, Insertable, Rows, Replay, Retired, Recorded, Inserts, Updates;
    match e
    case Commit(ok) => if ok { CommitKeepsReads(s); } else { FailureKeepsReads(s); }
    case Retire => RetireKeepsReads(s);
    case Insert(_, _) => WriteKeepsReads(s, e);
    case Update(_, _) => WriteKeepsReads(s, e);
    case _ =>
  }

  lemma CleanKeeps(s: State, e: Event)
    requires Enabled(s, e) && (Clean(s) ==> s.log.lost == {})
    ensures Clean(Apply(s, e)) ==> Apply(s, e).log.lost == {}
  {
    hide Rows, Replay, Retired, Recorded, Insertable;
  }

  // ---- what is committed ----

  lemma CommitKeepsPrefix(s: State, attempts: map<(Id, nat), Record>)
    requires Ordered(s) && Keyed(s) && Prefix(s, attempts) && s.flusher.Taken? && Insertable(s.db, s.flusher.inserts)
    ensures Prefix(Apply(s, Commit(true)), attempts)
  {
    hide Rows, Replay, Recorded, Insertable;
    var f, t := s.flusher, Apply(s, Commit(true));
    var i, u, r := DoneInserts(s), DoneUpdates(s), DoneRecords(s);
    BufferedIsLogged(s);
    assert t.log.inserts[..DoneInserts(t)] == s.log.inserts[..i] + f.inserts;
    assert t.log.updates[..DoneUpdates(t)] == s.log.updates[..u] + f.updates;
    assert t.log.records[..DoneRecords(t)] == s.log.records[..r] + f.records;
    RecordedSplit(attempts, s.log.records[..r], f.records);
    CommitAdds(s.log.direct, s.log.inserts[..i], f.inserts, s.log.updates[..u], f.updates, s.db);
  }

  /** A later batch of inserts could as well have come before the updates already made. */
  lemma CommitAdds(direct: map<Id, Row>, i0: seq<Write>, i1: seq<Write>, u0: seq<Write>, u1: seq<Write>,
                   db: map<Id, Row>)
    requires db == Replay(direct + Rows(i0), u0)
    requires forall w <- u0 :: w.id in db
    requires forall w <- i1 :: w.id !in db
    ensures Replay(db + Rows(i1), u1) == Replay(direct + Rows(i0 + i1), u0 + u1)
  {
    hide Rows, Replay;
    forall w <- u0 ensures w.id !in Rows(i1) { RowsKeys(i1, w.id); }
    RowsSplit(i0, i1);
    assert direct + Rows(i0 + i1) == direct + Rows(i0) + Rows(i1);
    ReplayAdds(direct + Rows(i0), Rows(i1), u0);
    ReplaySplit(direct + Rows(i0 + i1), u0, u1);
  }

  lemma DirectKeepsPrefix(s: State, rows: map<Id, Row>, attempts: map<(Id, nat), Record>)
    requires Keyed(s) && Prefix(s, attempts) && Proper(s, Direct(rows))
    ensures Prefix(Apply(s, Direct(rows)), attempts)
  {
    hide Rows, Replay, Recorded;
    var i, u := s.log.inserts[..DoneInserts(s)], s.log.updates[..DoneUpdates(s)];
    forall id <- rows ensures id !in Rows(i) { RowsKeys(i, id); }
    assert s.log.direct + rows + Rows(i) == s.log.direct + Rows(i) + rows;
    ReplayAdds(s.log.direct + Rows(i), rows, u);
  }

  lemma PrefixKeeps(s: State, e: Event, attempts: map<(Id, nat), Record>)
    requires Ordered(s) && Keyed(s) && Enabled(s, e) && Proper(s, e) && (!s.failed ==> Prefix(s, attempts))
    ensures !Apply(s, e).failed ==> Prefix(Apply(s, e), attempts)
  {
    hide Ordered, Keyed, Rows, Replay, Recorded, Insertable, Retired;
    if !Apply(s, e).failed {
      match e
      case Direct(rows) => DirectKeepsPrefix(s, rows, attempts);
      case Commit(ok) => if ok { CommitKeepsPrefix(s, attempts); }
      case Insert(_, _) => assert Apply(s, e).log.inserts[..DoneInserts(s)] == s.log.inserts[..DoneInserts(s)];
      case Update(_, _) => assert Apply(s, e).log.updates[..DoneUpdates(s)] == s.log.updates[..DoneUpdates(s)];
      case Append(_) => assert Apply(s, e).log.records[..DoneRecords(s)] == s.log.records[..DoneRecords(s)];
      case _ =>
    }
  }

  lemma StepKeepsInv(s: State, e: Event, attempts: map<(Id, nat), Record>)
    requires Inv(s, attempts) && Enabled(s, e) && Proper(s, e)
    ensures Inv(Apply(s, e), attempts)
  {
    hide Ordered, Versioned, Keyed, Cached, ReadThrough, Clean, Prefix, Enabled, Proper, Apply;
    CleanKeeps(s, e);
    OrderedKeeps(s, e);
    VersionedKeeps(s, e);
    KeyedKeeps(s, e);
    CachedKeeps(s, e);
    ReadThroughKeeps(s, e);
    PrefixKeeps(s, e, attempts);
  }
}
