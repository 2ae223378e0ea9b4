/**
 The job table of the engine model is the table of the store. The engine model keeps the rows inserted so far and the
 updates since then, and lets a crash keep any prefix of the updates; here that log is tied, write by write, to the
 write buffer of the store, and what a crash leaves of the buffer is shown to be such a prefix.
 */
module EngineStore {
  import E = EngineModel
  import I = EngineInvariant
  import opened StoreModel
  import opened StoreRuns
  import T = StoreTheorems

  type UpdateLog = seq<(Id, Row)>

  /** The same updates in the same order. */
  ghost predicate SameUpdates(writes: seq<Write>, updates: UpdateLog) {
    |writes| == |updates| && forall k :: 0 <= k < |writes| ==> updates[k] == (writes[k].id, writes[k].row)
  }

  /** `base` holds the rows whose insert is committed, `updates` all the updates asked for. */
  ghost predicate Mirrors(s: State, base: E.Rows, updates: UpdateLog) {
    && 0 <= DoneInserts(s) <= |s.log.inserts|
    && base == s.log.direct + Rows(s.log.inserts[..DoneInserts(s)])
    && SameUpdates(s.log.updates, updates)
  }

  /**
   A step of the store as the engine model sees it: a direct or committed insert adds rows, an update adds a
   write.
   */
  function BaseAfter(s: State, e: Event, base: E.Rows): E.Rows {
    if e.Direct? then base + e.rows
    else if e == Commit(true) && s.flusher.Taken? then base + Rows(s.flusher.inserts)
    else base
  }

  function UpdatesAfter(e: Event, updates: UpdateLog): UpdateLog {
    if e.Update? then updates + [(e.id, e.row)] else updates
  }

  /** A new process over the table the last one left. */
  lemma NewProcessMirrors(rows: E.Rows, attempts: map<(Id, nat), Record>)
    ensures Mirrors(Initial(rows, attempts), rows, [])
  {
    assert rows + Rows([]) == rows;
  }

  lemma CommitMirrors(s: State, base: E.Rows, updates: UpdateLog)
    requires Ordered(s) && s.flusher.Taken? && Insertable(s.db, s.flusher.inserts) && Mirrors(s, base, updates)
    ensures Mirrors(Apply(s, Commit(true)), base + Rows(s.flusher.inserts), updates)
  {
    hide Rows, Replay, Recorded, Insertable;
    var t := Apply(s, Commit(true));
    assert t.log.inserts[..DoneInserts(t)] == s.log.inserts[..DoneInserts(s)] + s.flusher.inserts;
    RowsSplit(s.log.inserts[..DoneInserts(s)], s.flusher.inserts);
    assert t.log.direct + Rows(t.log.inserts[..DoneInserts(t)]) == base + Rows(s.flusher.inserts);
  }

  lemma DirectMirrors(s: State, rows: E.Rows, base: E.Rows, updates: UpdateLog)
    requires Keyed(s) && Proper(s, Direct(rows)) && Mirrors(s, base, updates)
    ensures Mirrors(Apply(s, Direct(rows)), base + rows, updates)
  {
    hide Rows;
    var i := s.log.inserts[..DoneInserts(s)];
    forall id <- rows ensures id !in Rows(i) { RowsKeys(i, id); }
    assert s.log.direct + rows + Rows(i) == s.log.direct + Rows(i) + rows;
  }

  /** Every step of the store, short of a retired failure, keeps the two logs together. */
  lemma StepMirrors(s: State, e: Event, base: E.Rows, updates: UpdateLog)
    requires Ordered(s) && Keyed(s) && Enabled(s, e) && Proper(s, e) && Mirrors(s, base, updates)
    ensures !Apply(s, e).failed ==> Mirrors(Apply(s, e), BaseAfter(s, e, base), UpdatesAfter(e, updates))
  {
    hide Ordered, Keyed, Rows, Replay, Recorded, Insertable, Retired;
    if !Apply(s, e).failed {
      match e
      case Direct(rows) => DirectMirrors(s, rows, base, updates);
      case Commit(ok) => if ok { CommitMirrors(s, base, updates); }
      case Insert(_, _) => assert Apply(s, e).log.inserts[..DoneInserts(s)] == s.log.inserts[..DoneInserts(s)];
      case _ =>
    }
  }

  lemma {:induction false} SameReplay(base: E.Rows, writes: seq<Write>, updates: UpdateLog)
    requires SameUpdates(writes, updates)
    ensures Replay(base, writes) == E.Replay(base, updates)
  {
    if writes != [] {
      var n := |writes| - 1;
      SameReplay(base, writes[..n], updates[..n]);
    }
  }

  /**
   Wherever the process stops, the table it leaves is one that a restart of the engine model reopens: the tables of the
   mirrored state with some prefix of its updates replayed.
   */
  lemma CrashIsReopen(run: seq<State>, events: seq<Event>, j: nat, t: E.State, edgeOrder: seq<E.Edge>)
    returns (kept: nat)
    requires IsRun(run, events) && j < |run| && !run[j].failed && Mirrors(run[j], t.base, t.updates)
    ensures kept <= |t.updates| && E.Reopen(t, kept, edgeOrder).rows == run[j].db && kept == DoneUpdates(run[j])
  {
    hide Rows, Replay, Recorded;
    var s := run[j];
    T.RunKeepsInv(run, events, j);
    kept := DoneUpdates(s);
    SameReplay(t.base, s.log.updates[..kept], t.updates[..kept]);
  }

  /** The engine never asks for an update before the insert: the row of a job it knows is committed. */
  lemma EngineUpdatesAreProper(run: seq<State>, events: seq<Event>, j: nat, t: E.State, id: Id, row: Row)
    requires IsRun(run, events) && j < |run| && !run[j].failed && Mirrors(run[j], t.base, t.updates)
    requires I.Inv(t) && id in t.rows
    ensures Proper(run[j], Update(id, row))
    ensures var r := E.Persist(t, id, row);
            r.base == BaseAfter(run[j], Update(id, row), t.base) &&
              r.updates == UpdatesAfter(Update(id, row), t.updates)
  {
    hide Rows, Replay, Recorded;
    var s := run[j];
    T.RunKeepsInv(run, events, j);
    ReplayKeys(t.base, s.log.updates[..DoneUpdates(s)]);
    assert id in t.base by { KnownIsInserted(t, id); }
  }

  lemma KnownIsInserted(t: E.State, id: Id)
    requires I.Inv(t) && id in t.rows
    ensures id in t.base
  {
    hide I.Placed, I.Room, I.Books, I.TableSafe, I.OpenWrites;
  }
}
