/**
 The coordinator as a state machine. One engine operation is one step; a handler runs between
 Begin and Finish. What a step cannot decide itself (clock readings, fresh ids and tokens, the order
 in which descendants are visited, how much of the write log survives a crash) is in the event.
 */
module EngineModel {
  import opened Jobs
  import opened Graphs

  type JobId = nat
  type WfId = nat
  type Edge = (JobId, JobId)

  datatype Row = Row(
    state: JobState,
    attempt: nat,
    maxAttempts: nat,
    pendingDeps: nat,
    workflow: Option<WfId>,
    leaseToken: nat,        // 0 means "no lease"
    cancelRequested: bool,
    readyAt: int)

  type Rows = map<JobId, Row>

  datatype CancelReason = NoReason | TimeoutReason | UserReason

  datatype RunningInfo = RunningInfo(token: nat, owner: string, attempt: nat, reason: CancelReason, remote: bool)

  datatype WfLabel = WfRunning | WfSucceeded | WfFailed | WfCancelled

  datatype WfBooks = WfBooks(
    labels: map<WfId, WfLabel>,          // the workflows table
    remaining: map<WfId, int>,           // wf_remaining_
    failures: map<WfId, int>,            // wf_failures_
    finalized: multiset<WfId>)           // history: finalize_workflow calls

  datatype State = State(
    capacity: nat,
    // persistent tables
    rows: Rows,
    deps: set<Edge>,
    wf: WfBooks,
    // in memory
    queue: set<JobId>,                   // job ids with a live queue entry
    inHand: multiset<JobId>,             // entries popped, begin_attempt not yet called
    running: map<JobId, RunningInfo>,
    outstanding: int,
    children: map<JobId, seq<JobId>>,
    pendingDeps: map<JobId, int>,
    // history
    base: Rows,                          // rows at process start, plus the inserts since
    updates: seq<(JobId, Row)>,          // the update_job calls since process start
    crashes: nat,
    oversized: bool,                     // this process recovered more open jobs than the capacity
    dropped: set<JobId>)                 // jobs whose push this process's queue answered with Full

  // ---- the job table and its write log ----

  function Live(rows: Rows): set<JobId> {
    set x | x in rows && !IsTerminal(rows[x].state)
  }

  /** The table after replaying updates over the inserted rows (an UPDATE of a missing row does nothing). */
  function Replay(base: Rows, updates: seq<(JobId, Row)>): Rows {
    if updates == [] then base
    else
      var before := Replay(base, updates[..|updates| - 1]);
      var u := updates[|updates| - 1];
      if u.0 in before then before[u.0 := u.1] else before
  }

  function Persist(s: State, id: JobId, row: Row): State {
    s.(rows := s.rows[id := row], updates := s.updates + [(id, row)])
  }

  // ---- queue and slots ----

  function Enqueue(s: State, id: JobId): State {
    var full := |s.queue| >= s.capacity;
    s.(queue := if full then s.queue else s.queue + {id}, dropped := if full then s.dropped + {id} else s.dropped)
  }

  function EnqueueAll(s: State, ids: seq<JobId>): State {
    if ids == [] then s else Enqueue(EnqueueAll(s, ids[..|ids| - 1]), ids[|ids| - 1])
  }

  function ReleaseSlots(s: State, n: nat): State {
    s.(outstanding := s.outstanding - n)
  }

  // ---- workflow bookkeeping when a job becomes terminal ----

  function Kids(s: State, id: JobId): seq<JobId> {
    if id in s.children then s.children[id] else []
  }

  /** Counts one met dependency off every child; also returns the children whose count reached zero. */
  function MeetDeps(pd: map<JobId, int>, kids: seq<JobId>): (map<JobId, int>, seq<JobId>) {
    if kids == [] then (pd, [])
    else
      var (pd', ready) := MeetDeps(pd, kids[..|kids| - 1]);
      var c := kids[|kids| - 1];
      if c in pd' && pd'[c] > 0
      then (pd'[c := pd'[c] - 1], if pd'[c] == 1 then ready + [c] else ready)
      else (pd', ready)
  }

  function Unblock(s: State, c: JobId, now: int): State {
    if c in s.rows && s.rows[c].state.Pending?
    then
      var row := s.rows[c];
      Enqueue(Persist(s, c, row.(state := if row.readyAt > now then Scheduled else Queued, pendingDeps := 0)), c)
    else s
  }

  function UnblockAll(s: State, ready: seq<JobId>, now: int): State {
    if ready == [] then s else Unblock(UnblockAll(s, ready[..|ready| - 1], now), ready[|ready| - 1], now)
  }

  function ReleaseDependents(s: State, id: JobId, now: int): State {
    var (pd, ready) := MeetDeps(s.pendingDeps, Kids(s, id));
    UnblockAll(s.(pendingDeps := pd), ready, now)
  }

  /** The open descendants of `id`: what skip_descendants must mark. */
  ghost function OpenDescendants(s: State, id: JobId): set<JobId> {
    set x | x in s.rows && !IsTerminal(s.rows[x].state) && Reaches(s.deps, id, x)
  }

  /** `order` lists every element of `all` once. */
  ghost predicate Lists<T>(order: seq<T>, all: set<T>) {
    Distinct(order) && (forall x <- order :: x in all) && (forall x <- all :: x in order)
  }

  function Skip(s: State, x: JobId): State {
    if x in s.rows then Persist(s.(queue := s.queue - {x}), x, s.rows[x].(state := Skipped)) else s
  }

  function SkipAll(s: State, order: seq<JobId>): State {
    if order == [] then s else Skip(SkipAll(s, order[..|order| - 1]), order[|order| - 1])
  }

  function GetOr0(m: map<WfId, int>, w: WfId): int {
    if w in m then m[w] else 0
  }

  function Finalize(b: WfBooks, w: WfId, failed: bool): WfBooks {
    b.(finalized := b.finalized + multiset{w},
       labels := if w in b.labels && b.labels[w].WfRunning?
                 then b.labels[w := if failed then WfFailed else WfSucceeded]
                 else b.labels)
  }

  /** `n` nodes of `w` became terminal; finalise when none is left. */
  function CountNodes(b: WfBooks, w: WfId, failed: bool, n: nat): WfBooks {
    var failures := if failed then b.failures[w := GetOr0(b.failures, w) + n] else b.failures;
    if w !in b.remaining then b.(failures := failures)
    else if b.remaining[w] - n <= 0 then
      Finalize(b.(remaining := b.remaining - {w}, failures := failures - {w}), w, GetOr0(failures, w) > 0)
    else b.(remaining := b.remaining[w := b.remaining[w] - n], failures := failures)
  }

  function CountTerminal(s: State, w: WfId, failed: bool, n: nat): State {
    s.(wf := CountNodes(s.wf, w, failed, n))
  }

  function OnTerminal(s: State, id: JobId, now: int, order: seq<JobId>): State
    requires id in s.rows
  {
    var row := s.rows[id];
    if row.workflow.None? then s
    else if row.state.Succeeded? then
      CountTerminal(ReleaseDependents(s, id, now), row.workflow.value, false, 1)
    else
      CountTerminal(ReleaseSlots(SkipAll(s, order), |order|), row.workflow.value, true, 1 + |order|)
  }

  /** Writes a terminal row, then does the workflow bookkeeping and gives the slot back. */
  function Retire(s: State, id: JobId, row: Row, now: int, order: seq<JobId>): State {
    ReleaseSlots(OnTerminal(Persist(s, id, row), id, now, order), 1)
  }

  // ---- operations ----

  function Max(a: int, b: int): int { if a > b then a else b }

  datatype SubmitStatus = SubmitOk | SubmitUnknownType | SubmitQueueFull | SubmitStoreError

  function InsertRow(s: State, id: JobId, row: Row): State {
    s.(rows := s.rows[id := row], base := s.base[id := row])
  }

  function FreshRow(maxAttempts: int, delay: int, now: int, workflow: Option<WfId>, indegree: nat): Row {
    Row(if indegree > 0 then Pending else if delay > 0 then Scheduled else Queued,
        0, Max(maxAttempts, 1), indegree, workflow, 0, false, now + Max(0, delay))
  }

  function Submit(s: State, id: JobId, maxAttempts: int, delay: int, now: int, typeKnown: bool, storeOk: bool)
    : (State, SubmitStatus)
  {
    if !typeKnown then (s, SubmitUnknownType)
    else if s.outstanding >= s.capacity then (s, SubmitQueueFull)
    else if !storeOk then (s, SubmitStoreError)
    else
      var s1 := InsertRow(s.(outstanding := s.outstanding + 1), id, FreshRow(maxAttempts, delay, now, None, 0));
      (Enqueue(s1, id), SubmitOk)
  }

  function Pop(s: State, id: JobId): State {
    s.(queue := s.queue - {id}, inHand := s.inHand + multiset{id})
  }

  function Begin(s: State, id: JobId, owner: string, remote: bool, token: nat, now: int, order: seq<JobId>): State {
    var s0 := s.(inHand := s.inHand - multiset{id});
    if id !in s.rows || !IsWaiting(s.rows[id].state) then s0
    else
      var row := s.rows[id];
      if row.cancelRequested then Retire(s0, id, row.(state := Cancelled), now, order)
      else
        var started := row.(attempt := row.attempt + 1, state := Running, leaseToken := token);
        Persist(s0, id, started).(
          running := s.running[id := RunningInfo(token, owner, started.attempt, NoReason, remote)])
  }

  function OutcomeState(row: Row, reason: CancelReason, ok: bool): JobState {
    match reason
    case UserReason => Cancelled
    case TimeoutReason => if row.attempt < row.maxAttempts then Retrying else TimedOut
    case NoReason => if ok then Succeeded else if row.attempt < row.maxAttempts then Retrying else Failed
  }

  /**
   A worker hands in the result of the attempt it holds `token` for. An in-process worker writes back
   the copy made when the attempt began, a remote one the row as stored (`fromStore`): they differ in
   the cancel flag only.
   */
  function Finish(s: State, id: JobId, token: nat, fromStore: bool, override: Option<CancelReason>, ok: bool,
                  delay: nat, now: int, order: seq<JobId>): State
  {
    if id !in s.running || s.running[id].token != token || id !in s.rows then s
    else
      var row := s.rows[id];
      var reason := if override.Some? then override.value else s.running[id].reason;
      var next := OutcomeState(row, reason, ok);
      var s0 := s.(running := s.running - {id});
      var copy := row.(leaseToken := 0, cancelRequested := fromStore && row.cancelRequested);
      if next.Retrying?
      then Enqueue(Persist(s0, id, copy.(state := Retrying, readyAt := now + delay)), id)
      else Retire(s0, id, copy.(state := next), now, order)
  }

  datatype CompleteStatus = Accepted | StaleLease

  function Complete(s: State, worker: string, id: JobId, attempt: nat, token: nat, report: CancelReason, ok: bool,
                    delay: nat, now: int, order: seq<JobId>): (State, CompleteStatus)
  {
    if id !in s.running || s.running[id].token != token || s.running[id].owner != worker ||
      s.running[id].attempt != attempt
    then (s, StaleLease)
    else
      (Finish(s, id, token, true, if report.NoReason? then None else Some(report), ok, delay, now, order), Accepted)
  }

  datatype CancelStatus = CancelOk | CancelNotFound | CancelAlreadyTerminal

  function Cancel(s: State, id: JobId, now: int, order: seq<JobId>): (State, CancelStatus) {
    if id !in s.rows then (s, CancelNotFound)
    else if IsTerminal(s.rows[id].state) then (s, CancelAlreadyTerminal)
    else
      var row := s.rows[id].(cancelRequested := true);
      if row.state.Running? then
        var s1 := Persist(s, id, row);
        (if id in s.running then s1.(running := s.running[id := s.running[id].(reason := UserReason)])
         else s1, CancelOk)
      else
        (Retire(s.(queue := s.queue - {id}), id, row.(state := Cancelled), now, order), CancelOk)
  }

  /** The first half of cancel_workflow; its second half is a Cancel of every open node. */
  function MarkCancelled(s: State, w: WfId): State {
    if w in s.wf.labels && s.wf.labels[w].WfRunning?
    then s.(wf := s.wf.(labels := s.wf.labels[w := WfCancelled]))
    else s
  }

  function DeadlinePassed(s: State, id: JobId): State {
    if id in s.running && s.running[id].reason.NoReason?
    then s.(running := s.running[id := s.running[id].(reason := TimeoutReason)])
    else s
  }

  /** The watchdog takes back a lease. */
  function Expire(s: State, id: JobId, now: int, order: seq<JobId>): State {
    if id !in s.running then s
    else
      var s0 := s.(running := s.running - {id});
      if id !in s.rows || !s.rows[id].state.Running? then s0
      else
        var row := s.rows[id].(leaseToken := 0);
        if row.attempt >= row.maxAttempts then Retire(s0, id, row.(state := Failed), now, order)
        else Enqueue(Persist(s0, id, row.(state := Queued, readyAt := now)), id)
  }

  // ---- workflow submission ----

  datatype NodeSpec = NodeSpec(maxAttempts: int, delay: int)

  function Into(edges: set<Edge>, x: JobId): set<Edge> {
    set e | e in edges && e.1 == x
  }

  function NodeRows(w: WfId, ids: seq<JobId>, specs: seq<NodeSpec>, edges: set<Edge>, now: int): Rows
    requires |ids| == |specs|
  {
    if ids == [] then map[]
    else
      var k := |ids| - 1;
      NodeRows(w, ids[..k], specs[..k], edges, now)
        [ids[k] := FreshRow(specs[k].maxAttempts, specs[k].delay, now, Some(w), |Into(edges, ids[k])|)]
  }

  function NodeCounts(nodes: Rows): map<JobId, int> {
    map x | x in nodes :: nodes[x].pendingDeps
  }

  /** children_[parent].push_back(child) for every edge in turn. */
  function AddChildren(children: map<JobId, seq<JobId>>, edges: seq<Edge>): map<JobId, seq<JobId>> {
    if edges == [] then children
    else
      var before := AddChildren(children, edges[..|edges| - 1]);
      var (p, c) := edges[|edges| - 1];
      before[p := (if p in before then before[p] else []) + [c]]
  }

  function Roots(rows: Rows, ids: seq<JobId>): seq<JobId> {
    if ids == [] then []
    else
      var x := ids[|ids| - 1];
      Roots(rows, ids[..|ids| - 1]) + (if x in rows && !rows[x].state.Pending? then [x] else [])
  }

  /** The accepted case: every node got a slot and the whole workflow was inserted in one transaction. */
  function AddWorkflow(s: State, w: WfId, ids: seq<JobId>, specs: seq<NodeSpec>, edges: seq<Edge>, now: int): State
    requires |ids| == |specs|
  {
    var es := Elems(edges);
    var nodes := NodeRows(w, ids, specs, es, now);
    var s1 := s.(
      outstanding := s.outstanding + |ids|,
      rows := s.rows + nodes,
      base := s.base + nodes,
      deps := s.deps + es,
      wf := s.wf.(labels := s.wf.labels[w := WfRunning],
                  remaining := s.wf.remaining[w := |ids|],
                  failures := s.wf.failures[w := 0]),
      children := AddChildren(s.children, edges),
      pendingDeps := s.pendingDeps + NodeCounts(nodes));
    EnqueueAll(s1, Roots(nodes, ids))
  }

  // ---- crash and recovery ----

  function OpenNodes(rows: Rows, w: WfId): set<JobId> {
    set x | x in rows && rows[x].workflow == Some(w) && !IsTerminal(rows[x].state)
  }

  function FailedNodes(rows: Rows, w: WfId): set<JobId> {
    set x | x in rows && rows[x].workflow == Some(w) && IsTerminal(rows[x].state) && !rows[x].state.Succeeded?
  }

  function OpenWorkflows(rows: Rows): set<WfId> {
    set x | x in Live(rows) && rows[x].workflow.Some? :: rows[x].workflow.value
  }

  function Recover(s: State, id: JobId, now: int): State {
    if id !in s.rows then s
    else
      var s1 := s.(outstanding := s.outstanding + 1);
      var s2 := if s.rows[id].state.Running?
                then Persist(s1, id, s.rows[id].(state := Queued, leaseToken := 0, readyAt := now))
                else s1;
      if IsWaiting(s2.rows[id].state) then Enqueue(s2, id) else s2
  }

  function RecoverAll(s: State, order: seq<JobId>, now: int): State {
    if order == [] then s else Recover(RecoverAll(s, order[..|order| - 1], now), order[|order| - 1], now)
  }

  /** The completion counters rebuilt from the table, for the workflows that still have an open node. */
  function RecountNodes(b: WfBooks, rows: Rows): WfBooks {
    b.(remaining := OpenCounts(rows, OpenWorkflows(rows)), failures := FailureCounts(rows, OpenWorkflows(rows)))
  }

  function OpenCounts(rows: Rows, ws: set<WfId>): map<WfId, int> {
    map w | w in ws :: |OpenNodes(rows, w)|
  }

  function FailureCounts(rows: Rows, ws: set<WfId>): map<WfId, int> {
    map w | w in ws && FailedNodes(rows, w) != {} :: |FailedNodes(rows, w)|
  }

  function LiveCounts(rows: Rows): map<JobId, int> {
    map x | x in Live(rows) :: rows[x].pendingDeps
  }

  /** A fresh engine over the tables the dead process left: `kept` of its updates had been committed. */
  function Reopen(s: State, kept: nat, edgeOrder: seq<Edge>): State
    requires kept <= |s.updates|
  {
    var rows := Replay(s.base, s.updates[..kept]);
    State(s.capacity, rows, s.deps, RecountNodes(s.wf, rows),
          {}, multiset{}, map[], 0,
          AddChildren(map[], edgeOrder),
          LiveCounts(rows),
          rows, [], s.crashes + 1, |Live(rows)| > s.capacity, {})
  }

  ghost function Restart(s: State, kept: nat, order: seq<JobId>, edgeOrder: seq<Edge>, now: int): State
    requires kept <= |s.updates| && Lists(order, Live(Replay(s.base, s.updates[..kept])))
  {
    RecoverAll(Reopen(s, kept, edgeOrder), order, now)
  }

  // ---- events and runs ----

  datatype Event =
    | ESubmit(id: JobId, maxAttempts: int, delay: int, now: int, typeKnown: bool, storeOk: bool)
    | EWorkflow(w: WfId, ids: seq<JobId>, specs: seq<NodeSpec>, edges: seq<Edge>, now: int)
    | EPop(id: JobId, now: int)
    | EBegin(id: JobId, owner: string, remote: bool, token: nat, now: int, order: seq<JobId>)
    | EFinish(id: JobId, token: nat, ok: bool, backoff: nat, now: int, order: seq<JobId>)
    | EComplete(worker: string, id: JobId, attempt: nat, token: nat, report: CancelReason, ok: bool, backoff: nat,
                now: int, order: seq<JobId>)
    | ECancel(id: JobId, now: int, order: seq<JobId>)
    | EMarkCancelled(w: WfId)
    | EDeadline(id: JobId)
    | EExpire(id: JobId, now: int, order: seq<JobId>)
    | ERestart(during: Option<Event>, kept: nat, order: seq<JobId>, edgeOrder: seq<Edge>, now: int)

  /** What the callers of the operations guarantee: fresh ids and tokens, a graph that passed the checks. */
  ghost predicate WorkflowEnabled(s: State, w: WfId, ids: seq<JobId>, specs: seq<NodeSpec>, edges: seq<Edge>) {
    && |ids| == |specs| > 0 && Distinct(ids) && (forall x <- ids :: x !in s.rows) && w !in s.wf.labels
    && Distinct(edges) && (forall e <- edges :: e.0 in ids && e.1 in ids)
    && Ranked(Elems(edges))
    && s.outstanding + |ids| <= s.capacity
  }

  /** The operations of a live engine. */
  ghost predicate OpEnabled(s: State, e: Event) {
    match e
    case ESubmit(id, _, _, _, _, _) => id !in s.rows
    case EWorkflow(w, ids, specs, edges, _) => WorkflowEnabled(s, w, ids, specs, edges)
    case EPop(id, now) => id in s.queue && (id in s.rows ==> s.rows[id].readyAt <= now)
    case EBegin(id, _, _, token, _, order) => id in s.inHand && token != 0 && Lists(order, OpenDescendants(s, id))
    case EFinish(id, _, _, _, _, order) => Lists(order, OpenDescendants(s, id))
    case EComplete(_, id, _, _, _, _, _, _, order) => Lists(order, OpenDescendants(s, id))
    case ECancel(id, _, order) => Lists(order, OpenDescendants(s, id))
    case EMarkCancelled(w) => true
    case EDeadline(id) => true
    case EExpire(id, _, order) => Lists(order, OpenDescendants(s, id))
    case ERestart(_, _, _, _, _) => false
  }

  ghost function Perform(s: State, e: Event): State
    requires OpEnabled(s, e)
  {
    match e
    case ESubmit(id, maxAttempts, delay, now, typeKnown, storeOk) =>
      Submit(s, id, maxAttempts, delay, now, typeKnown, storeOk).0
    case EWorkflow(w, ids, specs, edges, now) => AddWorkflow(s, w, ids, specs, edges, now)
    case EPop(id, now) => Pop(s, id)
    case EBegin(id, owner, remote, token, now, order) => Begin(s, id, owner, remote, token, now, order)
    case EFinish(id, token, ok, backoff, now, order) => Finish(s, id, token, false, None, ok, backoff, now, order)
    case EComplete(worker, id, attempt, token, report, ok, backoff, now, order) =>
      Complete(s, worker, id, attempt, token, report, ok, backoff, now, order).0
    case ECancel(id, now, order) => Cancel(s, id, now, order).0
    case EMarkCancelled(w) => MarkCancelled(s, w)
    case EDeadline(id) => DeadlinePassed(s, id)
    case EExpire(id, now, order) => Expire(s, id, now, order)
  }

  /** Labels as they were before an operation; a workflow it created has its first label. */
  function EarlierLabels(before: map<WfId, WfLabel>, after: map<WfId, WfLabel>): map<WfId, WfLabel> {
    map w <- after :: if w in before then before[w] else after[w]
  }

  /**
   What a process that dies leaves to recovery. Between two operations that is its state. Inside an operation the
   rows of that operation may have been written and the workflow label, its last write, not yet.
   */
  ghost function Crashed(s: State, during: Option<Event>): State
    requires during.Some? ==> OpEnabled(s, during.value)
  {
    if during.None? then s
    else
      var r := Perform(s, during.value);
      r.(wf := r.wf.(labels := EarlierLabels(s.wf.labels, r.wf.labels), finalized := s.wf.finalized))
  }

  /** The job table that a crash leaves: `kept` of the updates had been committed. */
  ghost function Survivors(s: State, e: Event): Rows
    requires e.ERestart? && (e.during.Some? ==> OpEnabled(s, e.during.value)) &&
             e.kept <= |Crashed(s, e.during).updates|
  {
    Replay(Crashed(s, e.during).base, Crashed(s, e.during).updates[..e.kept])
  }

  ghost predicate Enabled(s: State, e: Event) {
    if e.ERestart? then
      && (e.during.Some? ==> OpEnabled(s, e.during.value))
      && e.kept <= |Crashed(s, e.during).updates|
      && Lists(e.order, Live(Survivors(s, e))) && Lists(e.edgeOrder, Crashed(s, e.during).deps)
    else OpEnabled(s, e)
  }

  ghost function Apply(s: State, e: Event): State
    requires Enabled(s, e)
  {
    if e.ERestart? then Restart(Crashed(s, e.during), e.kept, e.order, e.edgeOrder, e.now) else Perform(s, e)
  }

  function Initial(capacity: nat): State {
    State(capacity, map[], {}, WfBooks(map[], map[], map[], multiset{}), {}, multiset{}, map[], 0, map[], map[],
          map[], [], 0, false, {})
  }

  /** `run` lists the states of an execution, `events` the steps between them. */
  ghost predicate IsRun(run: seq<State>, events: seq<Event>) {
    && |run| == |events| + 1
    && run[0] == Initial(run[0].capacity)
    && forall i :: 0 <= i < |events| ==> Enabled(run[i], events[i]) && run[i + 1] == Apply(run[i], events[i])
  }
}
