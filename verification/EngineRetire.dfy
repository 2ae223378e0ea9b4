/** Releasing dependents, skipping descendants, and the rows that retiring a job leaves. */
module EngineRetire {
  import opened Jobs
  import opened Graphs
  import opened EngineModel
  import opened EngineInvariant

  // ---- pushing ----

  lemma PushPlaces(s: State, id: JobId, todo: set<JobId>)
    requires PlacedOutside(s, todo) && id in todo && IsWaiting(s.rows[id].state)
    ensures PlacedOutside(s.(queue := s.queue + {id}), todo - {id})
  {
    var r := s.(queue := s.queue + {id});
    forall x ensures if x in todo - {id} then Unplaced(r, x) else PlacedAt(r, x) {
      assert if x in todo then Unplaced(s, x) else PlacedAt(s, x);
    }
  }

  lemma DropPlaces(s: State, id: JobId, todo: set<JobId>)
    requires PlacedOutside(s, todo) && id in todo && IsWaiting(s.rows[id].state)
    ensures PlacedOutside(s.(dropped := s.dropped + {id}), todo - {id})
  {
    var r := s.(dropped := s.dropped + {id});
    forall x ensures if x in todo - {id} then Unplaced(r, x) else PlacedAt(r, x) {
      assert if x in todo then Unplaced(s, x) else PlacedAt(s, x);
    }
  }

  /** While all open jobs fit the capacity, a push is never answered Full. */
  lemma PushFits(s: State, id: JobId, todo: set<JobId>)
    requires PlacedOutside(s, todo) && id in todo && !IsTerminal(s.rows[id].state) && Room(s) && !s.oversized
    ensures |s.queue| < s.capacity
  {
    assert Unplaced(s, id);
    assert s.queue <= Live(s.rows) - {id} by {
      forall x <- s.queue ensures x in Live(s.rows) - {id} {
        assert if x in todo then Unplaced(s, x) else PlacedAt(s, x);
      }
    }
    SubsetSize(s.queue, Live(s.rows) - {id});
  }

  lemma EnqueueOne(s: State, id: JobId, todo: set<JobId>)
    requires PlacedOutside(s, todo) && id in todo && IsWaiting(s.rows[id].state) && Room(s)
    ensures PlacedOutside(Enqueue(s, id), todo - {id}) && Room(Enqueue(s, id))
  {
    if s.oversized && |s.queue| >= s.capacity {
      DropPlaces(s, id, todo);
    } else {
      if !s.oversized { PushFits(s, id, todo); }
      PushPlaces(s, id, todo);
    }
  }

  lemma EnqueueKeeps(s: State, id: JobId)
    requires PlacedBut(s, id) && id !in s.inHand && id !in s.dropped && IsWaiting(s.rows[id].state) && Room(s)
    ensures Placed(Enqueue(s, id)) && Room(Enqueue(s, id))
  {
    assert PlacedOutside(s, {id});
    EnqueueOne(s, id, {id});
    var r := Enqueue(s, id);
    forall x ensures PlacedAt(r, x) { assert x !in {id} - {id}; }
  }

  // ---- one row write ----

  lemma WriteOthers(s: State, id: JobId, row: Row)
    requires forall x :: x != id ==> PlacedAt(s, x)
    ensures forall x :: x != id ==> PlacedAt(Persist(s, id, row), x)
  {
    var r := Persist(s, id, row);
    forall x | x != id ensures PlacedAt(r, x) { assert PlacedAt(s, x); }
  }

  lemma WriteOpen(rows: Rows, id: JobId, row: Row)
    requires id in rows && !IsTerminal(rows[id].state) && !IsTerminal(row.state)
    ensures Live(rows[id := row]) == Live(rows)
  {
  }

  lemma WriteTerminal(rows: Rows, id: JobId, row: Row)
    requires id in rows && !IsTerminal(rows[id].state) && IsTerminal(row.state)
    ensures Live(rows[id := row]) == Live(rows) - {id}
  {
  }

  /** A terminal row keeps its place wherever it is, except in the queue or in running_. */
  lemma TerminalPlaces(s: State, id: JobId, row: Row)
    requires PlacedBut(s, id) && IsTerminal(row.state)
    ensures Placed(Persist(s, id, row))
  {
    WriteOthers(s, id, row);
    assert PlacedAt(Persist(s, id, row), id);
  }

  lemma TerminalRoom(s: State, id: JobId, row: Row)
    requires id in s.rows && !IsTerminal(s.rows[id].state) && IsTerminal(row.state) && Room(s)
    ensures Room(Persist(s, id, row))
  {
    WriteTerminal(s.rows, id, row);
  }

  lemma WriteLogged(s: State, id: JobId, row: Row)
    requires Logged(s) && id in s.rows && !IsTerminal(s.rows[id].state)
    requires RowOk(s.deps, id, row, s.crashes) && row.workflow == s.rows[id].workflow
    requires Started(row.state) ==> Started(s.rows[id].state) || Unmet(s.rows, s.deps, id) == {}
    ensures Logged(Persist(s, id, row))
  {
    LoggedNow(s);
    SafeWrite(s.rows, s.deps, s.crashes, id, row);
    PersistLogged(s, id, row);
  }

  lemma LoggedRow(s: State, id: JobId)
    requires Logged(s) && id in s.rows
    ensures RowOk(s.deps, id, s.rows[id], s.crashes)
  {
    LoggedNow(s);
  }

  // ---- releasing dependents ----

  /** The fields that the bookkeeping loops may change. */
  ghost predicate SameButRows(s: State, r: State) {
    && r == s.(rows := r.rows, updates := r.updates, queue := r.queue, dropped := r.dropped)
    && r.rows.Keys == s.rows.Keys
  }

  function ReleasedRow(row: Row, now: int): Row {
    row.(state := if row.readyAt > now then Scheduled else Queued, pendingDeps := 0)
  }

  lemma UnblockLogged(s: State, c: JobId, now: int)
    requires Logged(s) && c in s.rows && s.rows[c].state.Pending? && Unmet(s.rows, s.deps, c) == {}
    ensures Logged(Persist(s, c, ReleasedRow(s.rows[c], now)))
  {
    LoggedRow(s, c);
    WriteLogged(s, c, ReleasedRow(s.rows[c], now));
  }

  lemma UnblockPlaced(s: State, c: JobId, now: int)
    requires Placed(s) && Room(s) && c in s.rows && s.rows[c].state.Pending?
    ensures Placed(Unblock(s, c, now)) && Room(Unblock(s, c, now))
  {
    var row := ReleasedRow(s.rows[c], now);
    var t := Persist(s, c, row);
    assert PlacedAt(s, c);
    WriteOthers(s, c, row);
    WriteOpen(s.rows, c, row);
    EnqueueKeeps(t, c);
  }

  lemma EnqueueFields(s: State, id: JobId)
    ensures Enqueue(s, id) == s.(queue := Enqueue(s, id).queue, dropped := Enqueue(s, id).dropped)
  {
  }

  lemma EnqueueLogged(s: State, id: JobId)
    requires Logged(s)
    ensures Logged(Enqueue(s, id))
  {
    EnqueueFields(s, id);
  }

  lemma UnblockKeeps(s: State, c: JobId, now: int)
    requires Mid(s) && c in s.rows && s.rows[c].state.Pending? && Unmet(s.rows, s.deps, c) == {}
    ensures Mid(Unblock(s, c, now))
  {
    UnblockLogged(s, c, now);
    EnqueueLogged(Persist(s, c, ReleasedRow(s.rows[c], now)), c);
    UnblockPlaced(s, c, now);
  }

  lemma UnblockRows(s: State, c: JobId, now: int)
    requires c in s.rows && s.rows[c].state.Pending?
    ensures SameButRows(s, Unblock(s, c, now))
    ensures Unblock(s, c, now).rows == s.rows[c := ReleasedRow(s.rows[c], now)]
  {
    EnqueueFields(Persist(s, c, ReleasedRow(s.rows[c], now)), c);
  }

  function UnblockedRow(row: Row, now: int): Row {
    if row.state.Pending? then ReleasedRow(row, now) else row
  }

  lemma {:induction false} UnblockAllRows(s: State, ready: seq<JobId>, now: int)
    ensures SameButRows(s, UnblockAll(s, ready, now))
    ensures forall x <- s.rows :: UnblockAll(s, ready, now).rows[x] ==
              if x in ready then UnblockedRow(s.rows[x], now) else s.rows[x]
  {
    if ready != [] {
      var k := |ready| - 1;
      var t := UnblockAll(s, ready[..k], now);
      UnblockAllRows(s, ready[..k], now);
      assert ready == ready[..k] + [ready[k]];
      if ready[k] in t.rows && t.rows[ready[k]].state.Pending? {
        UnblockRows(t, ready[k], now);
      }
    }
  }

  lemma {:induction false} UnblockAllKeeps(s: State, ready: seq<JobId>, now: int)
    requires Mid(s)
    requires forall c <- ready :: c in s.rows ==> s.rows[c].state.Pending? ==> Unmet(s.rows, s.deps, c) == {}
    ensures Mid(UnblockAll(s, ready, now))
  {
    if ready != [] {
      var k := |ready| - 1;
      var t := UnblockAll(s, ready[..k], now);
      assert forall c <- ready[..k] :: c in ready;
      UnblockAllKeeps(s, ready[..k], now);
      UnblockAllRows(s, ready[..k], now);
      var c := ready[k];
      if c in t.rows && t.rows[c].state.Pending? {
        assert c in ready;
        UnmetSame(s.rows, t.rows, s.deps, c);
        UnblockKeeps(t, c, now);
      }
    }
  }

  lemma UnmetSame(before: Rows, after: Rows, deps: set<Edge>, x: JobId)
    requires after.Keys == before.Keys
    requires forall y <- before :: after[y].state.Succeeded? == before[y].state.Succeeded?
    ensures Unmet(after, deps, x) == Unmet(before, deps, x)
  {
  }

  /** One met dependency is counted off each child, and those at zero are reported. */
  lemma {:induction false} MeetDepsEffect(pd: map<JobId, int>, kids: seq<JobId>)
    requires Distinct(kids)
    ensures var (pd', ready) := MeetDeps(pd, kids);
            && pd'.Keys == pd.Keys
            && (forall x <- pd :: pd'[x] == if x in kids && pd[x] > 0 then pd[x] - 1 else pd[x])
            && (forall x :: x in ready <==> x in kids && x in pd && pd[x] == 1)
  {
    if kids != [] {
      var k := |kids| - 1;
      MeetDepsEffect(pd, kids[..k]);
      assert kids == kids[..k] + [kids[k]];
      assert kids[k] !in kids[..k];
    }
  }

  // ---- skipping descendants ----

  lemma SkipKeeps(s: State, x: JobId)
    requires Mid(s) && x in s.rows && s.rows[x].state.Pending?
    ensures Mid(Skip(s, x))
  {
    var row := s.rows[x].(state := Skipped);
    assert PlacedAt(s, x);
    assert s.queue - {x} == s.queue;
    var t := s.(queue := s.queue - {x});
    LoggedRow(s, x);
    WriteLogged(t, x, row);
    TerminalPlaces(t, x, row);
    TerminalRoom(t, x, row);
  }

  lemma SkipRows(s: State, x: JobId)
    requires x in s.rows
    ensures SameButRows(s, Skip(s, x)) && Skip(s, x).rows == s.rows[x := s.rows[x].(state := Skipped)]
  {
  }

  lemma {:induction false} SkipAllRows(s: State, order: seq<JobId>)
    requires forall x <- order :: x in s.rows
    ensures SameButRows(s, SkipAll(s, order))
    ensures forall x <- s.rows :: SkipAll(s, order).rows[x] ==
              if x in order then s.rows[x].(state := Skipped) else s.rows[x]
  {
    if order != [] {
      var k := |order| - 1;
      assert forall x <- order[..k] :: x in order;
      SkipAllRows(s, order[..k]);
      assert order == order[..k] + [order[k]];
      assert order[k] in order;
      SkipRows(SkipAll(s, order[..k]), order[k]);
    }
  }

  lemma {:induction false} SkipAllKeeps(s: State, order: seq<JobId>)
    requires Mid(s) && Distinct(order)
    requires forall x <- order :: x in s.rows && s.rows[x].state.Pending?
    ensures Mid(SkipAll(s, order))
  {
    if order != [] {
      var k := |order| - 1;
      assert forall x <- order[..k] :: x in order;
      SkipAllKeeps(s, order[..k]);
      SkipAllRows(s, order[..k]);
      assert order[k] in order && order[k] !in order[..k];
      SkipKeeps(SkipAll(s, order[..k]), order[k]);
    }
  }
}
