/**
 * The group-commit path of the job store as a state machine. Each step is one
 * critical section of the write-buffer lock, or one committed transaction. The
 * database is a map with atomic transactions; whatever a crash leaves is `db`
 * and `attempts` of the current state.
 */
module StoreModel {
  import opened Jobs
  import E = EngineModel

  // The store never looks inside a row.
  type Id = E.JobId
  type Row = E.Row

  datatype Write = Write(version: nat, order: nat, id: Id, row: Row)

  datatype Record = Record(id: Id, attempt: nat, status: JobState)

  // The flusher thread between its sections, with the batch it holds.
  datatype Flusher =
    | Idle
    | Taken(inserts: seq<Write>, updates: seq<Write>, records: seq<Record>)
    | Written(inserts: seq<Write>, updates: seq<Write>, records: seq<Record>, ok: bool)

  // What has been asked of the store so far. `newest` is the plain map that applies every write at once, `versions`
  // the version of the newest buffered write of each id, `lost` the versions that were in a failed transaction.
  datatype Log = Log(newest: map<Id, Row>, direct: map<Id, Row>,
                     inserts: seq<Write>, updates: seq<Write>, records: seq<Record>,
                     versions: map<Id, nat>, lost: set<nat>)

  datatype State = State(
    pendingInserts: seq<Write>,
    pendingUpdates: seq<Write>,
    pendingRecords: seq<Record>,
    cache: map<Id, Write>,
    version: nat,
    insertSeq: nat,
    committedSeq: nat,
    inFlight: nat,
    failed: bool,
    stop: bool,
    flusher: Flusher,
    db: map<Id, Row>,
    attempts: map<(Id, nat), Record>,
    log: Log)

  datatype Event =
    | Insert(id: Id, row: Row)
    | Direct(rows: map<Id, Row>)
    | Update(id: Id, row: Row)
    | Append(record: Record)
    | Take(limit: nat)
    | Commit(ok: bool)
    | Retire
    | Stop

  // ---- transactions ----

  /** The rows a list of inserts creates. */
  function Rows(inserts: seq<Write>): map<Id, Row> {
    if inserts == [] then map[] else
      var w := inserts[|inserts| - 1];
      Rows(inserts[..|inserts| - 1])[w.id := w.row]
  }

  /** UPDATE ... WHERE job_id: a missing row stays missing. */
  function Updated(db: map<Id, Row>, w: Write): map<Id, Row> {
    if w.id in db then db[w.id := w.row] else db
  }

  function Replay(db: map<Id, Row>, updates: seq<Write>): map<Id, Row> {
    if updates == [] then db else Updated(Replay(db, updates[..|updates| - 1]), updates[|updates| - 1])
  }

  /** INSERT OR REPLACE under the key (job, attempt). */
  function Recorded(attempts: map<(Id, nat), Record>, records: seq<Record>): map<(Id, nat), Record> {
    if records == [] then attempts else
      var r := records[|records| - 1];
      Recorded(attempts, records[..|records| - 1])[(r.id, r.attempt) := r]
  }

  /** The inserts of a transaction succeed: no primary key is taken, in the table or in the batch. */
  predicate Insertable(db: map<Id, Row>, inserts: seq<Write>) {
    && (forall w <- inserts :: w.id !in db)
    && forall i, j :: 0 <= i < j < |inserts| ==> inserts[i].id != inserts[j].id
  }

  function Versions(writes: seq<Write>): set<nat> { set w <- writes :: w.version }

  // ---- steps ----

  function Min(a: nat, b: nat): nat { if a < b then a else b }

  function Last(w: seq<Write>): nat { if w == [] then 0 else w[|w| - 1].order }

  predicate HasPending(s: State) {
    s.pendingInserts != [] || s.pendingUpdates != [] || s.pendingRecords != []
  }

  predicate Enabled(s: State, e: Event) {
    match e
    case Take(_) => s.flusher.Idle? && HasPending(s)
    case Commit(ok) => s.flusher.Taken? && (ok ==> Insertable(s.db, s.flusher.inserts))
    case Retire => s.flusher.Written?
    case _ => true
  }

  /** What callers promise: ids are fresh, and only a committed row is updated. */
  predicate Proper(s: State, e: Event) {
    match e
    case Insert(id, _) => id !in s.log.newest
    case Direct(rows) => rows.Keys !! s.log.newest.Keys
    case Update(id, _) => id in s.db
    case _ => true
  }

  /** The cache once every entry that is still the version just written is dropped. */
  function Retired(cache: map<Id, Write>, written: seq<Write>): map<Id, Write> {
    map id <- cache | !(exists w <- written :: w.id == id && w.version == cache[id].version) :: cache[id]
  }

  function Apply(s: State, e: Event): State
    requires Enabled(s, e)
  {
    match e
    case Insert(id, row) =>
      var w := Write(s.version + 1, s.insertSeq + 1, id, row);
      s.(version := s.version + 1, insertSeq := s.insertSeq + 1,
         pendingInserts := s.pendingInserts + [w], cache := s.cache[id := w],
         log := s.log.(newest := s.log.newest[id := row], inserts := s.log.inserts + [w],
                       versions := s.log.versions[id := w.version]))
    case Direct(rows) =>
      s.(db := s.db + rows, log := s.log.(newest := s.log.newest + rows, direct := s.log.direct + rows))
    case Update(id, row) =>
      var w := Write(s.version + 1, 0, id, row);
      s.(version := s.version + 1, pendingUpdates := s.pendingUpdates + [w], cache := s.cache[id := w],
         log := s.log.(newest := s.log.newest[id := row], updates := s.log.updates + [w],
                       versions := s.log.versions[id := w.version]))
    case Append(record) =>
      s.(version := s.version + 1, pendingRecords := s.pendingRecords + [record],
         log := s.log.(records := s.log.records + [record]))
    case Take(limit) =>
      var a, b, c := Min(|s.pendingInserts|, limit), Min(|s.pendingUpdates|, limit), Min(|s.pendingRecords|, limit);
      s.(flusher := Taken(s.pendingInserts[..a], s.pendingUpdates[..b], s.pendingRecords[..c]),
         pendingInserts := s.pendingInserts[a..], pendingUpdates := s.pendingUpdates[b..],
         pendingRecords := s.pendingRecords[c..], inFlight := a + b + c)
    case Commit(ok) =>
      var f := s.flusher;
      s.(flusher := Written(f.inserts, f.updates, f.records, ok),
         db := if ok then Replay(s.db + Rows(f.inserts), f.updates) else s.db,
         attempts := if ok then Recorded(s.attempts, f.records) else s.attempts,
         log := s.log.(lost := if ok then s.log.lost else s.log.lost + Versions(f.inserts + f.updates)))
    case Retire =>
      var f := s.flusher;
      s.(flusher := Idle, cache := Retired(s.cache, f.inserts + f.updates), inFlight := 0,
         failed := s.failed || !f.ok,
         committedSeq := if Last(f.inserts) > s.committedSeq then Last(f.inserts) else s.committedSeq)
    case Stop => s.(stop := true)
  }

  /** An empty buffer over a table that already holds `rows` and `attempts`. */
  function Initial(rows: map<Id, Row>, attempts: map<(Id, nat), Record>): State {
    State([], [], [], map[], 0, 0, 0, 0, false, false, Idle, rows, attempts, 
          Log(rows, rows, [], [], [], map[], {}))
  }

  ghost predicate Starts(s: State) {
    s == Initial(s.db, s.attempts)
  }

  ghost predicate IsRun(run: seq<State>, events: seq<Event>) {
    && |run| == |events| + 1
    && Starts(run[0])
    && forall i :: 0 <= i < |events| ==>
         Enabled(run[i], events[i]) && Proper(run[i], events[i]) && run[i + 1] == Apply(run[i], events[i])
  }
}
