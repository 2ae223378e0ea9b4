/**
 * The bounded priority queue: a ready heap, a delayed heap, sequence-keyed tombstones, a location index and
 * live counters. All of it stands for one map, `live`, from job id to the entry that is queued for it.
 * A heap is a set of entries whose top is the first under the heap's comparator; time is a parameter.
 */
module Queue {
  import opened Jobs

  type Id = nat

  datatype Entry = Entry(id: Id, priority: int, order: nat, readyAt: int, eligibleAt: int)

  datatype Loc = Loc(order: nat, delayed: bool)

  datatype PushStatus = Ok | Full | Closed

  // ---- orders ----

  /** ReadyOrder: higher priority first, then first come first served. */
  predicate ReadyBefore(a: Entry, b: Entry) {
    if a.priority != b.priority then a.priority > b.priority else a.order < b.order
  }

  /** DelayedOrder: earliest first, ties as in the ready heap. */
  predicate DelayedBefore(a: Entry, b: Entry) {
    if a.readyAt != b.readyAt then a.readyAt < b.readyAt else ReadyBefore(a, b)
  }

  predicate Before(delayed: bool, a: Entry, b: Entry) { if delayed then DelayedBefore(a, b) else ReadyBefore(a, b) }

  predicate IsTop(heap: set<Entry>, delayed: bool, top: Entry) {
    top in heap && forall e <- heap :: e == top || Before(delayed, top, e)
  }

  ghost predicate Numbered(heap: set<Entry>) {
    forall a, b :: a in heap && b in heap && a.order == b.order ==> a == b
  }

  lemma {:induction false} TopExists(heap: set<Entry>, delayed: bool)
    requires heap != {} && Numbered(heap)
    ensures exists top :: IsTop(heap, delayed, top)
  {
    var e :| e in heap;
    if heap == {e} {
      assert IsTop(heap, delayed, e);
    } else {
      var rest := heap - {e};
      assert heap == rest + {e};
      TopExists(rest, delayed);
      var top :| IsTop(rest, delayed, top);
      if Before(delayed, top, e) {
        assert IsTop(heap, delayed, top);
      } else {
        assert IsTop(heap, delayed, e);
      }
    }
  }

  /** The contract of the standard library's priority queue. */
  method Top(heap: set<Entry>, delayed: bool) returns (top: Entry)
    requires heap != {} && Numbered(heap)
    ensures IsTop(heap, delayed, top)
  {
    TopExists(heap, delayed);
    top :| top in heap && IsTop(heap, delayed, top);
  }

  // ---- the map the queue stands for ----

  predicate Matured(live: map<Id, Entry>, now: int, id: Id) { id in live && live[id].readyAt <= now }

  /** `e` is the matured entry of highest priority, and of these the one pushed first. */
  ghost predicate IsBest(live: map<Id, Entry>, now: int, e: Entry) {
    && Matured(live, now, e.id) && live[e.id] == e
    && forall id | Matured(live, now, id) && id != e.id :: ReadyBefore(e, live[id])
  }

  /** What a pop takes: of the entries that are due one of highest priority, of these the one pushed first. */
  ghost predicate PopsFirst(live: map<Id, Entry>, now: int, e: Entry) {
    && e.id in live && live[e.id] == e && e.readyAt <= now
    && forall x <- live :: live[x].readyAt <= now ==>
         live[x].priority <= e.priority && (live[x].priority == e.priority ==> e.order <= live[x].order)
  }

  lemma BestPopsFirst(live: map<Id, Entry>, now: int, e: Entry)
    requires IsBest(live, now, e)
    ensures PopsFirst(live, now, e)
  {
    assert forall x <- live :: live[x].readyAt <= now ==> Matured(live, now, x);
  }

  /** Taking the best matured entry again and again, at most `n` times, gives `out` and leaves `rest`. */
  ghost predicate Drains(live: map<Id, Entry>, now: int, n: nat, out: seq<Entry>, rest: map<Id, Entry>)
    decreases n
  {
    if out == [] then
      rest == live && (n == 0 || forall id :: !Matured(live, now, id))
    else
      n > 0 && IsBest(live, now, out[0]) && Drains(live - {out[0].id}, now, n - 1, out[1..], rest)
  }

  lemma {:induction false} DrainsTakes(live: map<Id, Entry>, now: int, n: nat, out: seq<Entry>, rest: map<Id, Entry>)
    requires Drains(live, now, n, out, rest)
    ensures |out| <= n && (|out| < n ==> forall id :: !Matured(rest, now, id))
    ensures forall e <- out :: e.id in live && live[e.id] == e && e.readyAt <= now && e.id !in rest
    ensures forall id :: id in rest ==> id in live && rest[id] == live[id]
    ensures forall id :: id in live && id !in rest ==> exists e <- out :: e.id == id
    decreases n
  {
    if out != [] {
      DrainsTakes(live - {out[0].id}, now, n - 1, out[1..], rest);
      assert out == [out[0]] + out[1..];
    }
  }

  /** A batch comes in falling priority, equal ones as they were pushed. */
  lemma {:induction false} DrainsSorted(live: map<Id, Entry>, now: int, n: nat, out: seq<Entry>, rest: map<Id, Entry>)
    requires Drains(live, now, n, out, rest)
    ensures forall i, j :: 0 <= i < j < |out| ==>
              && out[i].id != out[j].id && out[i].priority >= out[j].priority
              && (out[i].priority == out[j].priority ==> out[i].order <= out[j].order)
    decreases n
  {
    if out != [] {
      var left := live - {out[0].id};
      DrainsSorted(left, now, n - 1, out[1..], rest);
      DrainsTakes(left, now, n - 1, out[1..], rest);
      BestPopsFirst(live, now, out[0]);
      forall i, j | 0 <= i < j < |out|
        ensures && out[i].id != out[j].id && out[i].priority >= out[j].priority
                && (out[i].priority == out[j].priority ==> out[i].order <= out[j].order)
      {
        assert out[j] == out[1..][j - 1] && out[j] in out[1..];
        if i > 0 { assert out[i] == out[1..][i - 1]; }
      }
    }
  }

  /** Every matured entry left behind comes after all of it. */
  lemma {:induction false} DrainsBefore(live: map<Id, Entry>, now: int, n: nat, out: seq<Entry>, rest: map<Id, Entry>)
    requires Drains(live, now, n, out, rest)
    ensures forall e, x | e in out && x in rest && rest[x].readyAt <= now ::
              rest[x].priority <= e.priority && (rest[x].priority == e.priority ==> e.order <= rest[x].order)
    decreases n
  {
    if out != [] {
      var left := live - {out[0].id};
      DrainsBefore(left, now, n - 1, out[1..], rest);
      DrainsTakes(left, now, n - 1, out[1..], rest);
      BestPopsFirst(live, now, out[0]);
      assert out == [out[0]] + out[1..];
    }
  }

  /** So a batch takes the entries that are due in falling priority, then age, and leaves the others as they are. */
  lemma DrainsInOrder(live: map<Id, Entry>, now: int, n: nat, out: seq<Entry>, rest: map<Id, Entry>)
    requires Drains(live, now, n, out, rest)
    ensures InOrder(live, now, n, out, rest)
  {
    hide Drains;
    assert forall x <- rest :: !Matured(rest, now, x) ==> rest[x].readyAt > now;
    DrainsTakes(live, now, n, out, rest);
    DrainsSorted(live, now, n, out, rest);
    DrainsBefore(live, now, n, out, rest);
  }

  ghost predicate InOrder(live: map<Id, Entry>, now: int, n: nat, out: seq<Entry>, rest: map<Id, Entry>) {
    && |out| <= n && (|out| < n ==> forall x <- rest :: rest[x].readyAt > now)
    && (forall e <- out :: e.id in live && live[e.id] == e && e.readyAt <= now && e.id !in rest)
    && (forall x <- rest :: x in live && rest[x] == live[x])
    && (forall x <- live :: x in rest || exists e <- out :: e.id == x)
    && (forall i, j :: 0 <= i < j < |out| ==>
          && out[i].id != out[j].id && out[i].priority >= out[j].priority
          && (out[i].priority == out[j].priority ==> out[i].order <= out[j].order))
    && (forall e, x | e in out && x in rest && rest[x].readyAt <= now ::
          rest[x].priority <= e.priority && (rest[x].priority == e.priority ==> e.order <= rest[x].order))
  }

  // ---- the representation ----

  function In(index: map<Id, Loc>, delayed: bool): set<Id> { set id <- index | index[id].delayed == delayed }

  /** Every heap entry is the indexed live one or tombstoned, never both; the index finds every live entry. */
  ghost predicate Represents(ready: set<Entry>, delayed: set<Entry>, index: map<Id, Loc>, tombstones: set<nat>,
                             live: map<Id, Entry>, nextOrder: nat)
  {
    && Numbered(ready + delayed) && ready !! delayed
    && (forall e <- ready + delayed :: e.order < nextOrder)
    && (forall e <- ready + delayed :: e.order in tombstones <==> !(e.id in live && live[e.id] == e))
    && (forall t <- tombstones :: exists e <- ready + delayed :: e.order == t)
    && index.Keys == live.Keys
    && (forall id <- live :: live[id].id == id && index[id].order == live[id].order)
    && (forall id <- live :: live[id] in if index[id].delayed then delayed else ready)
  }

  /** The counters are the numbers of indexed entries of each heap. */
  ghost predicate Counted(index: map<Id, Loc>, liveReady: int, liveDelayed: int) {
    liveReady == |In(index, false)| && liveDelayed == |In(index, true)|
  }

  function One(b: bool): nat { if b then 1 else 0 }

  /** Ready entries are due and eligible; a delayed entry becomes eligible when it is due. */
  ghost predicate Timed(ready: set<Entry>, delayed: set<Entry>, clock: int) {
    && (forall e <- ready :: e.readyAt <= clock && e.eligibleAt <= clock)
    && (forall e <- delayed :: e.eligibleAt == e.readyAt)
  }

  lemma TimedLater(ready: set<Entry>, delayed: set<Entry>, clock: int, now: int, e: Entry)
    requires Timed(ready, delayed, clock) && clock <= now
    ensures Timed(ready, delayed, now)
    ensures e.readyAt <= now && e.eligibleAt <= now ==> Timed(ready + {e}, delayed, now)
    ensures e.eligibleAt == e.readyAt ==> Timed(ready, delayed + {e}, now)
  {
  }

  lemma TimedLess(ready: set<Entry>, delayed: set<Entry>, clock: int, e: Entry)
    requires Timed(ready, delayed, clock)
    ensures Timed(ready - {e}, delayed, clock) && Timed(ready - {e}, delayed - {e}, clock)
    ensures e in delayed && e.readyAt <= clock ==> Timed(ready + {e}, delayed - {e}, clock)
  {
  }

  lemma InWithout(index: map<Id, Loc>, id: Id, delayed: bool)
    ensures In(index - {id}, delayed) == In(index, delayed) - {id}
  {
  }

  lemma InWith(index: map<Id, Loc>, id: Id, loc: Loc, delayed: bool)
    requires id !in index
    ensures In(index[id := loc], delayed) == if loc.delayed == delayed then In(index, delayed) + {id}
                                             else In(index, delayed)
  {
    forall x
      ensures x in In(index[id := loc], delayed) <==> x in In(index, delayed) || (x == id && loc.delayed == delayed) {}
  }

  lemma CountedWithout(index: map<Id, Loc>, liveReady: int, liveDelayed: int, id: Id)
    requires Counted(index, liveReady, liveDelayed) && id in index
    ensures var d := index[id].delayed; Counted(index - {id}, liveReady - One(!d), liveDelayed - One(d))
    ensures if index[id].delayed then liveDelayed > 0 else liveReady > 0
  {
    var d := index[id].delayed;
    assert id in In(index, d) && id !in In(index, !d);
    InWithout(index, id, d);
    InWithout(index, id, !d);
    assert In(index, !d) - {id} == In(index, !d);
  }

  lemma CountedWith(index: map<Id, Loc>, liveReady: int, liveDelayed: int, id: Id, loc: Loc)
    requires Counted(index, liveReady, liveDelayed) && id !in index
    ensures Counted(index[id := loc], liveReady + One(!loc.delayed), liveDelayed + One(loc.delayed))
  {
    assert id !in In(index, false) && id !in In(index, true);
    InWith(index, id, loc, false);
    InWith(index, id, loc, true);
  }

  lemma CountedMoved(index: map<Id, Loc>, liveReady: int, liveDelayed: int, id: Id, loc: Loc)
    requires Counted(index, liveReady, liveDelayed) && id in index && index[id].delayed && !loc.delayed
    ensures Counted(index[id := loc], liveReady + 1, liveDelayed - 1) && liveDelayed > 0
  {
    CountedWithout(index, liveReady, liveDelayed, id);
    CountedWith(index - {id}, liveReady, liveDelayed - 1, id, loc);
    assert (index - {id})[id := loc] == index[id := loc];
  }

  lemma IndexIsExact(ready: set<Entry>, delayed: set<Entry>, index: map<Id, Loc>, tombstones: set<nat>,
                     live: map<Id, Entry>, next: nat, liveReady: int, liveDelayed: int)
    requires Represents(ready, delayed, index, tombstones, live, next) && Counted(index, liveReady, liveDelayed)
    ensures index.Keys == live.Keys && |live| == liveReady + liveDelayed
    ensures liveReady == |set id <- live | live[id] in ready| && liveDelayed == |set id <- live | live[id] in delayed|
  {
    assert In(index, false) == set id <- live | live[id] in ready;
    assert In(index, true) == set id <- live | live[id] in delayed;
    assert live.Keys == In(index, false) + In(index, true);
    assert |live.Keys| == |live|;
  }

  lemma HeapsAreNumbered(ready: set<Entry>, delayed: set<Entry>, index: map<Id, Loc>, tombstones: set<nat>,
                         live: map<Id, Entry>, next: nat)
    requires Represents(ready, delayed, index, tombstones, live, next)
    ensures index.Keys == live.Keys && Numbered(ready) && Numbered(delayed)
  {
    assert forall e :: e in ready || e in delayed ==> e in ready + delayed;
  }

  lemma Size(live: map<Id, Entry>, e: Entry)
    ensures e.id !in live ==> |live[e.id := e]| == |live| + 1
    ensures e.id in live ==> |live - {e.id}| == |live| - 1
  {
    if e.id in live {
      assert (live - {e.id}).Keys == live.Keys - {e.id};
      assert |(live - {e.id}).Keys| == |live - {e.id}| && |live.Keys| == |live|;
    } else {
      assert live[e.id := e].Keys == live.Keys + {e.id};
      assert |live[e.id := e].Keys| == |live[e.id := e]| && |live.Keys| == |live|;
    }
  }

  lemma Replacing(live: map<Id, Entry>, e: Entry)
    ensures (live - {e.id})[e.id := e] == live[e.id := e]
  {
  }

  lemma DiscardKeeps(ready: set<Entry>, delayed: set<Entry>, index: map<Id, Loc>, tombstones: set<nat>,
                     live: map<Id, Entry>, next: nat, id: Id)
    requires Represents(ready, delayed, index, tombstones, live, next) && id in index
    ensures Represents(ready, delayed, index - {id}, tombstones + {index[id].order}, live - {id}, next)
  {
    assert live[id] in ready + delayed;
  }

  lemma AddKeeps(ready: set<Entry>, delayed: set<Entry>, index: map<Id, Loc>, tombstones: set<nat>,
                 live: map<Id, Entry>, next: nat, e: Entry)
    requires Represents(ready, delayed, index, tombstones, live, next) && e.id !in index && e.order == next
    ensures Represents(ready + {e}, delayed, index[e.id := Loc(next, false)], tombstones, live[e.id := e], next + 1)
    ensures Represents(ready, delayed + {e}, index[e.id := Loc(next, true)], tombstones, live[e.id := e], next + 1)
  {
    AddAny(ready + {e}, delayed, ready, delayed, index, tombstones, live, next, e, false);
    AddAny(ready, delayed + {e}, ready, delayed, index, tombstones, live, next, e, true);
  }

  lemma AddAny(ready: set<Entry>, delayed: set<Entry>, ready0: set<Entry>, delayed0: set<Entry>, index: map<Id, Loc>,
               tombstones: set<nat>, live: map<Id, Entry>, next: nat, e: Entry, late: bool)
    requires Represents(ready0, delayed0, index, tombstones, live, next) && e.id !in index && e.order == next
    requires ready == (if late then ready0 else ready0 + {e}) && delayed == if late then delayed0 + {e} else delayed0
    ensures Represents(ready, delayed, index[e.id := Loc(next, late)], tombstones, live[e.id := e], next + 1)
  {
    assert forall x :: x in ready + delayed <==> x in ready0 + delayed0 || x == e;
  }

  /** A tombstoned entry that surfaces goes together with its tombstone. */
  lemma SweepKeeps(ready: set<Entry>, delayed: set<Entry>, index: map<Id, Loc>, tombstones: set<nat>,
                   live: map<Id, Entry>, next: nat, e: Entry)
    requires Represents(ready, delayed, index, tombstones, live, next) && e in ready + delayed && e.order in tombstones
    ensures Represents(ready - {e}, delayed - {e}, index, tombstones - {e.order}, live, next)
    ensures e in ready ==> delayed - {e} == delayed
  {
    assert forall x :: x in (ready - {e}) + (delayed - {e}) <==> x in ready + delayed && x != e;
    forall t <- tombstones - {e.order} ensures exists x <- (ready - {e}) + (delayed - {e}) :: x.order == t {
      var x :| x in ready + delayed && x.order == t;
      assert x in (ready - {e}) + (delayed - {e});
    }
  }

  lemma PromoteKeeps(ready: set<Entry>, delayed: set<Entry>, index: map<Id, Loc>, tombstones: set<nat>,
                     live: map<Id, Entry>, next: nat, e: Entry)
    requires Represents(ready, delayed, index, tombstones, live, next) && e in delayed && e.order !in tombstones
    ensures e.id in index && index[e.id] == Loc(e.order, true)
    ensures Represents(ready + {e}, delayed - {e}, index[e.id := Loc(e.order, false)], tombstones, live, next)
  {
    assert e in ready + delayed;
    assert ready + {e} + (delayed - {e}) == ready + delayed;
  }

  lemma TakeKeeps(ready: set<Entry>, delayed: set<Entry>, index: map<Id, Loc>, tombstones: set<nat>,
                  live: map<Id, Entry>, next: nat, e: Entry)
    requires Represents(ready, delayed, index, tombstones, live, next) && e in ready && e.order !in tombstones
    ensures e.id in index && index[e.id] == Loc(e.order, false) && e.id in live && live[e.id] == e
    ensures Represents(ready - {e}, delayed, index - {e.id}, tombstones, live - {e.id}, next)
  {
    assert e in ready + delayed;
    assert forall x :: x in (ready - {e}) + delayed <==> x in ready + delayed && x != e;
    forall t <- tombstones ensures exists x <- (ready - {e}) + delayed :: x.order == t {
      var x :| x in ready + delayed && x.order == t;
      assert x in (ready - {e}) + delayed;
    }
  }

  class PriorityJobQueue {
    const capacity: nat
    var ready: set<Entry>
    var delayed: set<Entry>
    var index: map<Id, Loc>
    var tombstones: set<nat>
    var liveReady: nat
    var liveDelayed: nat
    var nextOrder: nat
    var pushed: nat
    var popped: nat
    var closed: bool
    ghost var live: map<Id, Entry>
    ghost var removed: nat
    ghost var replaced: nat
    ghost var clock: int      // the latest reading of the clock

    ghost predicate Valid()
      reads this
    {
      && Represents(ready, delayed, index, tombstones, live, nextOrder)
      && Counted(index, liveReady, liveDelayed)
      && pushed == popped + removed + replaced + |live|
      && |live| <= capacity
      && Timed(ready, delayed, clock)
    }

    /** The counters are exact. */
    lemma CountersAreExact()
      requires Valid()
      ensures liveReady + liveDelayed == |live| && index.Keys == live.Keys
      ensures liveReady == |set id <- live | live[id] in ready| && liveDelayed == |set id <- live | live[id] in delayed|
    {
      IndexIsExact(ready, delayed, index, tombstones, live, nextOrder, liveReady, liveDelayed);
    }

    constructor (limit: nat, now: int)
      ensures Valid() && live == map[] && !closed && capacity == limit && clock == now
    {
      capacity, ready, delayed, index, tombstones := limit, {}, {}, map[], {};
      liveReady, liveDelayed, nextOrder, pushed, popped, closed := 0, 0, 1, 0, 0, false;
      live, removed, replaced, clock := map[], 0, 0, now;
      new;
      assert In(index, false) == {} && In(index, true) == {};
    }

    /** Tombstone the entry of a queued job; the counters drop at once. */
    method Discard(id: Id)
      requires Valid() && id in index
      modifies `tombstones, `liveReady, `liveDelayed, `index, `live
      ensures Represents(ready, delayed, index, tombstones, live, nextOrder)
      ensures Counted(index, liveReady, liveDelayed)
      ensures index == old(index) - {id} && live == old(live) - {id} && |live| == |old(live)| - 1
    {
      hide Represents, Counted, Timed;
      HeapsAreNumbered(ready, delayed, index, tombstones, live, nextOrder);
      Size(live, live[id]);
      DiscardKeeps(ready, delayed, index, tombstones, live, nextOrder, id);
      CountedWithout(index, liveReady, liveDelayed, id);
      tombstones := tombstones + {index[id].order};
      if index[id].delayed {
        if liveDelayed > 0 { liveDelayed := liveDelayed - 1; }
      } else {
        if liveReady > 0 { liveReady := liveReady - 1; }
      }
      index := index - {id};
      live := live - {id};
    }

    /** A re-push replaces the queued entry, but only below capacity. */
    method Push(id: Id, priority: int, readyAt: int, now: int) returns (status: PushStatus, order: nat)
      requires Valid() && clock <= now
      modifies this
      ensures Valid() && clock == now && closed == old(closed) && popped == old(popped)
      ensures status == if closed then Closed else if |old(live)| >= capacity then Full else Ok
      ensures status.Ok? ==>
                && order == old(nextOrder) && nextOrder == order + 1 && pushed == old(pushed) + 1
                && live == old(live)[id := Entry(id, priority, order, readyAt, if readyAt > now then readyAt else now)]
                && removed == old(removed) && replaced == old(replaced) + if id in old(live) then 1 else 0
      ensures !status.Ok? ==> live == old(live) && nextOrder == old(nextOrder) && pushed == old(pushed)
      ensures !status.Ok? ==> removed == old(removed) && replaced == old(replaced)
    {
      hide Represents, Counted, Timed;
      CountersAreExact();
      var isDelayed := readyAt > now;
      var e := Entry(id, priority, nextOrder, readyAt, if isDelayed then readyAt else now);
      TimedLater(ready, delayed, clock, now, e);
      clock := now;
      if closed { return Closed, 0; }
      if liveReady + liveDelayed >= capacity { return Full, 0; }
      Admit(e, isDelayed);
      return Ok, e.order;
    }

    /** A push that is not refused: drop the entry queued before, if any, and queue the new one. */
    method Admit(e: Entry, isDelayed: bool)
      requires Valid() && e.order == nextOrder && |live| < capacity
      requires if isDelayed then e.eligibleAt == e.readyAt else e.readyAt <= clock && e.eligibleAt <= clock
      modifies `ready, `delayed, `index, `tombstones, `liveReady, `liveDelayed, `nextOrder, `pushed, `replaced, `live
      ensures Valid()
      ensures live == old(live)[e.id := e] && nextOrder == old(nextOrder) + 1 && pushed == old(pushed) + 1
      ensures replaced == old(replaced) + if e.id in old(live) then 1 else 0
    {
      hide Represents, Counted, Timed, Numbered;
      TimedLater(ready, delayed, clock, clock, e);
      HeapsAreNumbered(ready, delayed, index, tombstones, live, nextOrder);
      if e.id in index {
        Replacing(live, e);
        Discard(e.id);
        replaced := replaced + 1;
      }
      Place(e, isDelayed);
      assert Timed(ready, delayed, clock);
    }

    /** The second half of a push: number the entry, index it and put it into its heap. */
    method Place(e: Entry, isDelayed: bool)
      requires Represents(ready, delayed, index, tombstones, live, nextOrder)
      requires Counted(index, liveReady, liveDelayed)
      requires e.id !in index && e.order == nextOrder
      modifies `ready, `delayed, `index, `liveReady, `liveDelayed, `nextOrder, `pushed, `live
      ensures Represents(ready, delayed, index, tombstones, live, nextOrder)
      ensures Counted(index, liveReady, liveDelayed)
      ensures live == old(live)[e.id := e] && |live| == |old(live)| + 1
      ensures nextOrder == old(nextOrder) + 1 && pushed == old(pushed) + 1
      ensures ready == if isDelayed then old(ready) else old(ready) + {e}
      ensures delayed == if isDelayed then old(delayed) + {e} else old(delayed)
    {
      hide Represents, Counted, Timed;
      AddKeeps(ready, delayed, index, tombstones, live, nextOrder, e);
      HeapsAreNumbered(ready, delayed, index, tombstones, live, nextOrder);
      Size(live, e);
      CountedWith(index, liveReady, liveDelayed, e.id, Loc(e.order, isDelayed));
      nextOrder := nextOrder + 1;
      pushed := pushed + 1;
      index := index[e.id := Loc(e.order, isDelayed)];
      live := live[e.id := e];
      if !isDelayed {
        ready := ready + {e};
        liveReady := liveReady + 1;
      } else {
        delayed := delayed + {e};
        liveDelayed := liveDelayed + 1;
      }
    }

    /** Every matured delayed entry moves to the ready heap; nothing is gained or lost. */
    method Promote(now: int)
      requires Valid() && clock <= now
      modifies `ready, `delayed, `index, `tombstones, `liveReady, `liveDelayed, `clock
      ensures Valid() && clock == now
      ensures forall e <- delayed :: e.readyAt > now
    {
      hide Represents, Counted, Timed;
      TimedLater(ready, delayed, clock, now, Entry(0, 0, 0, 0, 0));
      clock := now;
      while delayed != {}
        invariant Valid() && clock == now
        decreases delayed
      {
        HeapsAreNumbered(ready, delayed, index, tombstones, live, nextOrder);
        var e := Top(delayed, true);
        if e.readyAt > now { break; }
        if e.order in tombstones {
          Sweep(e);
        } else {
          PromoteOne(e);
        }
      }
    }

    method Sweep(e: Entry)
      requires Valid() && e in ready + delayed && e.order in tombstones
      modifies `ready, `delayed, `tombstones
      ensures Valid() && ready == old(ready) - {e} && delayed == old(delayed) - {e}
      ensures e in old(ready) ==> delayed == old(delayed)
    {
      hide Represents, Counted, Timed;
      SweepKeeps(ready, delayed, index, tombstones, live, nextOrder, e);
      TimedLess(ready, delayed, clock, e);
      ready, delayed := ready - {e}, delayed - {e};
      tombstones := tombstones - {e.order};
    }

    method PromoteOne(e: Entry)
      requires Valid() && e in delayed && e.order !in tombstones && e.readyAt <= clock
      modifies `ready, `delayed, `index, `liveReady, `liveDelayed
      ensures Valid() && ready == old(ready) + {e} && delayed == old(delayed) - {e}
    {
      hide Represents, Counted, Timed;
      PromoteKeeps(ready, delayed, index, tombstones, live, nextOrder, e);
      CountedMoved(index, liveReady, liveDelayed, e.id, Loc(e.order, false));
      TimedLess(ready, delayed, clock, e);
      delayed := delayed - {e};
      if liveDelayed > 0 { liveDelayed := liveDelayed - 1; }
      liveReady := liveReady + 1;
      if e.id in index && index[e.id].order == e.order {
        index := index[e.id := Loc(e.order, false)];
      }
      ready := ready + {e};
    }

    /** The first live entry of the ready heap; tombstoned ones above it are swept. */
    method TakeReady() returns (r: Option<Entry>)
      requires Valid() && forall e <- delayed :: e.readyAt > clock
      modifies `ready, `delayed, `index, `tombstones, `liveReady, `popped, `live
      ensures Valid() && delayed == old(delayed)
      ensures r.Some? ==>
                IsBest(old(live), clock, r.value) && live == old(live) - {r.value.id} && popped == old(popped) + 1
      ensures r.Some? ==> PopsFirst(old(live), clock, r.value)
      ensures r.None? ==> live == old(live) && popped == old(popped) && forall id :: !Matured(live, clock, id)
    {
      hide Represents, Counted, Timed;
      while ready != {}
        invariant Valid() && delayed == old(delayed) && live == old(live) && popped == old(popped)
        decreases ready
      {
        HeapsAreNumbered(ready, delayed, index, tombstones, live, nextOrder);
        var e := Top(ready, false);
        if e.order in tombstones {
          Sweep(e);
        } else {
          TopIsBest(e);
          BestPopsFirst(live, clock, e);
          TakeOne(e);
          return Some(e);
        }
      }
      NoneMatured();
      return None;
    }

    lemma NoneMatured()
      requires Valid() && ready == {} && forall x <- delayed :: x.readyAt > clock
      ensures forall id :: !Matured(live, clock, id)
    {
    }

    lemma TopIsBest(e: Entry)
      requires Valid() && IsTop(ready, false, e) && e.order !in tombstones && forall x <- delayed :: x.readyAt > clock
      ensures IsBest(live, clock, e)
    {
      assert e in ready + delayed;
    }

    method TakeOne(e: Entry)
      requires Valid() && e in ready && e.order !in tombstones
      modifies `ready, `index, `liveReady, `popped, `live
      ensures Valid() && ready == old(ready) - {e} && live == old(live) - {e.id} && popped == old(popped) + 1
    {
      hide Represents, Counted, Timed;
      Size(live, e);
      TakeKeeps(ready, delayed, index, tombstones, live, nextOrder, e);
      CountedWithout(index, liveReady, liveDelayed, e.id);
      TimedLess(ready, delayed, clock, e);
      ready := ready - {e};
      if liveReady > 0 { liveReady := liveReady - 1; }
      if e.id in index && index[e.id].order == e.order { index := index - {e.id}; }
      popped := popped + 1;
      live := live - {e.id};
      assert Represents(ready, delayed, index, tombstones, live, nextOrder);
      assert Counted(index, liveReady, liveDelayed);
      assert Timed(ready, delayed, clock);
    }

    /** One turn of the loops of pop and pop_for: what they return without waiting. */
    method TryPop(now: int) returns (r: Option<Entry>)
      requires Valid() && clock <= now
      modifies this
      ensures Valid() && clock == now
      ensures r.Some? ==> PopsFirst(old(live), now, r.value) && live == old(live) - {r.value.id}
      ensures r.None? ==> live == old(live) && forall x <- live :: live[x].readyAt > now
      ensures pushed == old(pushed) && popped == old(popped) + (if r.Some? then 1 else 0)
      ensures removed == old(removed) && replaced == old(replaced) && closed == old(closed)
    {
      hide Represents, Counted, Timed, PopsFirst;
      Promote(now);
      r := TakeReady();
      assert r.None? ==> forall x <- live :: !Matured(live, now, x);
    }

    /** The second section of pop_batch: up to `max` entries more, without waiting. */
    method TakeMore(max: nat, now: int) returns (out: seq<Entry>)
      requires Valid() && clock <= now
      modifies this
      ensures Valid() && clock == now
      ensures InOrder(old(live), now, max, out, live)
      ensures pushed == old(pushed) && popped == old(popped) + |out|
      ensures removed == old(removed) && replaced == old(replaced) && closed == old(closed)
    {
      hide Represents, Counted, Timed, IsBest, Drains, Extends, Matured, PopsFirst, InOrder;
      Promote(now);
      out := [];
      assert Extends(live, live, now, max, []) by { DrainsFirst(live, now, max); }
      var open := true;
      while open && |out| < max
        invariant Valid() && clock == now && |out| <= max && forall e <- delayed :: e.readyAt > clock
        invariant pushed == old(pushed) && popped == old(popped) + |out|
        invariant removed == old(removed) && replaced == old(replaced) && closed == old(closed)
        invariant Extends(old(live), live, now, max, out)
        invariant !open ==> forall id :: !Matured(live, now, id)
        decreases open, max - |out|
      {
        ghost var before := live;
        var r := TakeReady();
        if r.None? {
          open := false;
        } else {
          DrainsNext(old(live), before, now, max, out, r.value);
          out := out + [r.value];
        }
      }
      DrainsLast(old(live), live, now, max, out);
      DrainsInOrder(old(live), now, max, out, live);
    }

    method Remove(id: Id) returns (found: bool)
      requires Valid()
      modifies this
      ensures Valid() && clock == old(clock) && closed == old(closed)
      ensures found == (id in old(live)) && live == old(live) - {id}
      ensures removed == old(removed) + (if found then 1 else 0) && replaced == old(replaced)
      ensures pushed == old(pushed) && popped == old(popped)
    {
      hide Represents, Counted, Timed;
      CountersAreExact();
      if id !in index {
        assert live - {id} == live;
        return false;
      }
      Discard(id);
      removed := removed + 1;
      return true;
    }

    method Close()
      requires Valid()
      modifies `closed
      ensures Valid() && closed
    {
      closed := true;
    }

    method Count() returns (n: nat)
      requires Valid()
      ensures n == |live|
    {
      hide Represents, Counted, Timed;
      CountersAreExact();
      n := liveReady + liveDelayed;
    }
  }

  ghost predicate Extends(first: map<Id, Entry>, live: map<Id, Entry>, now: int, max: nat, out: seq<Entry>)
    requires |out| <= max
  {
    forall more, rest :: Drains(live, now, max - |out|, more, rest) ==> Drains(first, now, max, out + more, rest)
  }

  lemma DrainsFirst(live: map<Id, Entry>, now: int, max: nat)
    ensures Extends(live, live, now, max, [])
  {
    assert forall more: seq<Entry> :: [] + more == more;
  }

  lemma DrainsLast(first: map<Id, Entry>, live: map<Id, Entry>, now: int, max: nat, out: seq<Entry>)
    requires |out| <= max && Extends(first, live, now, max, out)
    requires |out| == max || forall id :: !Matured(live, now, id)
    ensures Drains(first, now, max, out, live)
  {
    assert Drains(live, now, max - |out|, [], live);
    assert out + [] == out;
  }

  lemma DrainsNext(first: map<Id, Entry>, live: map<Id, Entry>, now: int, max: nat, out: seq<Entry>, e: Entry)
    requires |out| < max && Extends(first, live, now, max, out) && IsBest(live, now, e)
    ensures Extends(first, live - {e.id}, now, max, out + [e])
  {
    forall more, rest | Drains(live - {e.id}, now, max - |out| - 1, more, rest)
      ensures Drains(first, now, max, out + [e] + more, rest) {
      assert ([e] + more)[1..] == more;
      assert Drains(live, now, max - |out|, [e] + more, rest);
      assert out + ([e] + more) == out + [e] + more;
    }
  }
}
