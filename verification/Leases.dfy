/**
 Leases at the grain of single store accesses. A section of run_mutex_ that reads a job row and writes it
 back is two steps, its read and its write: the lock keeps other sections of run_mutex_ out in between,
 and nothing else. Every store access made outside the lock is a step of its own. Calls of several
 workers, the watchdog and clients interleave freely. Sections of different jobs touch different rows and
 different running_ entries, so the machine is given for one job; a fleet of jobs is a product of such
 machines, and LeaseGraph ties the machines of a workflow together.
 */
module Leases {
  import opened Jobs

  type CallId = nat

  datatype Row = Row(state: JobState, attempt: nat, maxAttempts: nat, token: nat, flag: bool)

  datatype Info = Info(token: nat, owner: string, attempt: nat)

  /** Where a call that works outside the lock stands. */
  datatype Call =
    | Checked(token: nat)               // complete() has matched the lease and not yet read the row
    | Holding(token: nat, copy: Row)    // about to call finish_attempt with this copy of the row
    | Claimed(token: nat, copy: Row)    // finish_attempt has erased the running entry
    | Appended(token: nat, copy: Row)   // ... and appended the attempt record
    | Releasing(copy: Row)              // release_dependents has read the row as Pending
    | Skipping(copy: Row)               // skip_descendants has read the row as open

  /** The holder of run_mutex_ between its read of the row and its write. */
  datatype Section =
    | Free
    | Starting(copy: Row, token: nat, owner: string)  // begin_attempt
    | Reclaiming(copy: Row)                           // the watchdog
    | Cancelling(copy: Row)                           // cancel

  datatype Record = Record(attempt: nat, token: nat)

  datatype Job = Job(
    row: Row,
    running: Option<Info>,
    section: Section,
    calls: map<CallId, Call>,
    released: bool,                     // the dependency count reached zero: happens once
    doomed: bool,                       // an ancestor has ended without success
    // history
    issued: map<nat, nat>,              // lease token -> attempt it was issued for
    recorded: seq<Record>,
    reclaimed: set<nat>)

  datatype Event =
    | BeginRead(token: nat, owner: string)
    | BeginWrite(keep: Option<CallId>)  // an in-process worker keeps its copy
    | Check(call: CallId, owner: string, attempt: nat, token: nat)
    | Read(call: CallId)
    | Claim(call: CallId)
    | Append(call: CallId)
    | Write(call: CallId, cancelled: bool, timedOut: bool, ok: bool)
    | ReclaimRead
    | ReclaimWrite
    | CancelRead
    | CancelWrite
    | ReleaseRead(call: CallId)
    | ReleaseWrite(call: CallId, later: bool)
    | Fail                              // an ancestor ends without success
    | SkipRead(call: CallId)
    | SkipWrite(call: CallId)

  function Outcome(copy: Row, cancelled: bool, timedOut: bool, ok: bool): JobState {
    if cancelled then Cancelled
    else if timedOut then if copy.attempt < copy.maxAttempts then Retrying else TimedOut
    else if ok then Succeeded
    else if copy.attempt < copy.maxAttempts then Retrying else Failed
  }

  /** Tokens are fresh, call ids are unused, the calls named exist, and only one section holds the lock. */
  predicate Enabled(j: Job, e: Event) {
    match e
    case BeginRead(token, _) => j.section.Free? && IsWaiting(j.row.state) && token != 0 && token !in j.issued
    case BeginWrite(keep) => j.section.Starting? && (keep.Some? ==> keep.value !in j.calls)
    case Check(call, _, _, _) => j.section.Free? && call !in j.calls
    case Read(call) => call in j.calls && j.calls[call].Checked?
    case Claim(call) => j.section.Free? && call in j.calls && j.calls[call].Holding?
    case Append(call) => call in j.calls && j.calls[call].Claimed?
    case Write(call, _, _, _) => call in j.calls && j.calls[call].Appended?
    case ReclaimRead => j.section.Free? && j.running.Some?
    case ReclaimWrite => j.section.Reclaiming?
    case CancelRead => j.section.Free? && !IsTerminal(j.row.state)
    case CancelWrite => j.section.Cancelling?
    case ReleaseRead(call) => j.row.state.Pending? && !j.released && call !in j.calls
    case ReleaseWrite(call, _) => call in j.calls && j.calls[call].Releasing?
    case Fail => true
    case SkipRead(call) => j.doomed && !IsTerminal(j.row.state) && call !in j.calls
    case SkipWrite(call) => call in j.calls && j.calls[call].Skipping?
  }

  function Apply(j: Job, e: Event): Job
    requires Enabled(j, e)
  {
    match e
    case BeginRead(token, owner) => j.(section := Starting(j.row, token, owner))
    case BeginWrite(keep) =>
      var c := j.section;
      if c.copy.flag then j.(row := c.copy.(state := Cancelled), section := Free)
      else
        var row := c.copy.(state := Running, attempt := c.copy.attempt + 1, token := c.token);
        j.(row := row, section := Free, running := Some(Info(c.token, c.owner, row.attempt)),
           issued := j.issued[c.token := row.attempt],
           calls := if keep.Some? then j.calls[keep.value := Holding(c.token, row)] else j.calls)
    case Check(call, owner, attempt, token) =>
      if j.running == Some(Info(token, owner, attempt)) then j.(calls := j.calls[call := Checked(token)]) else j
    case Read(call) => j.(calls := j.calls[call := Holding(j.calls[call].token, j.row)])
    case Claim(call) =>
      if j.running.Some? && j.running.value.token == j.calls[call].token
      then j.(running := None, calls := j.calls[call := Claimed(j.calls[call].token, j.calls[call].copy)])
      else j.(calls := j.calls - {call})
    case Append(call) =>
      var c := j.calls[call];
      j.(recorded := j.recorded + [Record(c.copy.attempt, c.token)],
         calls := j.calls[call := Appended(c.token, c.copy)])
    case Write(call, cancelled, timedOut, ok) =>
      var copy := j.calls[call].copy;
      j.(row := copy.(state := Outcome(copy, cancelled, timedOut, ok), token := 0), calls := j.calls - {call})
    case ReclaimRead =>
      j.(running := None, reclaimed := j.reclaimed + {j.running.value.token},
         section := if j.row.state.Running? then Reclaiming(j.row) else Free)
    case ReclaimWrite =>
      var copy := j.section.copy;
      j.(row := copy.(token := 0, state := if copy.attempt >= copy.maxAttempts then Failed else Queued),
         section := Free)
    case CancelRead => j.(section := Cancelling(j.row))
    case CancelWrite =>
      var copy := j.section.copy;
      j.(row := copy.(flag := true, state := if copy.state.Running? then Running else Cancelled), section := Free)
    case ReleaseRead(call) => j.(released := true, calls := j.calls[call := Releasing(j.row)])
    case ReleaseWrite(call, later) =>
      j.(row := j.calls[call].copy.(state := if later then Scheduled else Queued), calls := j.calls - {call})
    case Fail => j.(doomed := true)
    case SkipRead(call) => j.(calls := j.calls[call := Skipping(j.row)])
    case SkipWrite(call) => j.(row := j.calls[call].copy.(state := Skipped), calls := j.calls - {call})
  }

  /** A plain job starts waiting, a node with parents starts Pending. */
  function Initial(maxAttempts: nat, node: bool): Job {
    Job(Row(if node then Pending else Queued, 0, maxAttempts, 0, false), None, Free, map[], !node, false, map[], [], {})
  }

  ghost predicate IsRun(run: seq<Job>, events: seq<Event>) {
    && |run| == |events| + 1
    && (exists maxAttempts, node :: run[0] == Initial(maxAttempts, node))
    && forall i :: 0 <= i < |events| ==> Enabled(run[i], events[i]) && run[i + 1] == Apply(run[i], events[i])
  }

  /**
   The node was released although an ancestor has ended without success. LeaseGraph shows when that can be: below an
   ancestor that was brought back to life.
   */
  predicate Clash(j: Job) {
    j.released && j.doomed
  }

  // ---- tokens: what holds whatever happens to the row ----

  /** A call that has claimed the lease and still owes the row write. */
  predicate Finishing(c: Call) {
    c.Claimed? || c.Appended?
  }

  /** Two calls finish the same lease. */
  predicate SameLease(c: Call, d: Call) {
    Finishing(c) && Finishing(d) && c.token == d.token
  }

  ghost predicate Current(j: Job, token: nat) {
    j.running.Some? && j.running.value.token == token
  }

  ghost predicate Unrecorded(j: Job, token: nat) {
    forall r <- j.recorded :: r.token != token
  }

  ghost predicate TokenOk(j: Job, c: Call) {
    match c
    case Checked(token) => token in j.issued
    case Holding(token, _) => token in j.issued
    case Claimed(token, _) => token in j.issued && token !in j.reclaimed && !Current(j, token) && Unrecorded(j, token)
    case Appended(token, _) => token in j.issued && token !in j.reclaimed && !Current(j, token)
    case _ => true
  }

  ghost predicate Tokens(j: Job) {
    && (forall k <- j.calls :: TokenOk(j, j.calls[k]))
    && (forall k, l :: k in j.calls && l in j.calls && SameLease(j.calls[k], j.calls[l]) ==> k == l)
    && (j.running.Some? ==> var t := j.running.value.token; t in j.issued && t !in j.reclaimed && Unrecorded(j, t))
    && (j.section.Starting? ==> j.section.token != 0 && j.section.token !in j.issued)
    && (forall r <- j.recorded :: r.token in j.issued && r.token !in j.reclaimed)
    && (forall a, b :: 0 <= a < b < |j.recorded| ==> j.recorded[a].token != j.recorded[b].token)
    && j.reclaimed <= j.issued.Keys
  }

  lemma StartTokens(j: Job, e: Event)
    requires Tokens(j) && Enabled(j, e) && e.BeginWrite?
    ensures Tokens(Apply(j, e))
  {
    var r := Apply(j, e);
    if !j.section.copy.flag {
      forall k <- r.calls ensures TokenOk(r, r.calls[k]) { if k in j.calls { assert TokenOk(j, j.calls[k]); } }
      forall k, l | k in r.calls && l in r.calls && SameLease(r.calls[k], r.calls[l]) ensures k == l {
        assert k in j.calls && l in j.calls && SameLease(j.calls[k], j.calls[l]);
      }
    }
  }

  lemma CallTokens(j: Job, e: Event)
    requires Tokens(j) && Enabled(j, e) && (e.Check? || e.Read? || e.Claim?)
    ensures Tokens(Apply(j, e))
  {
    var r := Apply(j, e);
    if e.call in j.calls { assert TokenOk(j, j.calls[e.call]); }
    forall k <- r.calls ensures TokenOk(r, r.calls[k]) { if k in j.calls { assert TokenOk(j, j.calls[k]); } }
  }

  lemma RecordTokens(j: Job, e: Event)
    requires Tokens(j) && Enabled(j, e) && (e.Append? || e.Write?)
    ensures Tokens(Apply(j, e))
  {
    var r := Apply(j, e);
    assert TokenOk(j, j.calls[e.call]) && Finishing(j.calls[e.call]);
    forall k <- r.calls ensures TokenOk(r, r.calls[k]) { assert k in j.calls && TokenOk(j, j.calls[k]); }
  }

  predicate GraphEvent(e: Event) {
    e.ReleaseRead? || e.ReleaseWrite? || e.Fail? || e.SkipRead? || e.SkipWrite?
  }

  lemma OtherTokens(j: Job, e: Event)
    requires Tokens(j) && Enabled(j, e)
    requires e.BeginRead? || e.ReclaimRead? || e.ReclaimWrite? || e.CancelRead? || e.CancelWrite? || GraphEvent(e)
    ensures Tokens(Apply(j, e))
  {
    var r := Apply(j, e);
    forall k <- r.calls ensures TokenOk(r, r.calls[k]) { if k in j.calls { assert TokenOk(j, j.calls[k]); } }
  }

  lemma StepKeepsTokens(j: Job, e: Event)
    requires Tokens(j) && Enabled(j, e)
    ensures Tokens(Apply(j, e))
  {
    hide Tokens, Apply, Enabled;
    if e.Append? || e.Write? {
      RecordTokens(j, e);
    } else if e.Check? || e.Read? || e.Claim? {
      CallTokens(j, e);
    } else if e.BeginWrite? {
      StartTokens(j, e);
    } else {
      OtherTokens(j, e);
    }
  }

  lemma {:induction false} RunKeepsTokens(run: seq<Job>, events: seq<Event>, i: nat)
    requires IsRun(run, events) && i < |run|
    ensures Tokens(run[i])
  {
    if i > 0 {
      hide Tokens, Enabled, Apply;
      RunKeepsTokens(run, events, i - 1);
      StepKeepsTokens(run[i - 1], events[i - 1]);
    }
  }

  /**
   For every lease ever issued: recorded at most once, and never both recorded and reclaimed. No assumption at
   all.
   */
  lemma RecordedOnceOrReclaimed(run: seq<Job>, events: seq<Event>, i: nat, a: nat, b: nat)
    requires IsRun(run, events) && i < |run| && a < |run[i].recorded| && b < |run[i].recorded|
    ensures run[i].recorded[a].token in run[i].issued && run[i].recorded[a].token !in run[i].reclaimed
    ensures run[i].recorded[a].token == run[i].recorded[b].token ==> a == b
  {
    RunKeepsTokens(run, events, i);
    var j := run[i];
    assert j.recorded[a] in j.recorded && j.recorded[b] in j.recorded;
  }

  /** finish_attempt with a lease that was reclaimed changes nothing but the call itself. */
  lemma ReclaimedResultChangesNothing(run: seq<Job>, events: seq<Event>, i: nat)
    requires IsRun(run, events) && i < |events| && events[i].Claim?
    requires run[i].calls[events[i].call].token in run[i].reclaimed
    ensures run[i + 1] == run[i].(calls := run[i].calls - {events[i].call})
  {
    RunKeepsTokens(run, events, i);
  }

  /** A lease once reclaimed stays so: together with the above, its result is lost for good. */
  lemma {:induction false} ReclaimedForGood(run: seq<Job>, events: seq<Event>, i: nat, k: nat, token: nat)
    requires IsRun(run, events) && i <= k < |run| && token in run[i].reclaimed
    ensures token in run[k].reclaimed && forall r <- run[k].recorded :: r.token != token
    decreases k - i
  {
    hide Enabled, Apply, TokenOk;
    RunKeepsTokens(run, events, k);
    if i < k {
      ReclaimedForGood(run, events, i, k - 1, token);
      ReclaimedNext(run[k - 1], events[k - 1], token);
    }
  }

  lemma ReclaimedNext(j: Job, e: Event, token: nat)
    requires Enabled(j, e) && token in j.reclaimed
    ensures token in Apply(j, e).reclaimed
  {
  }

  // ---- rows and attempts, as long as there is no clash ----

  /** Not yet released: no attempt has begun, none can. */
  predicate NeverRan(j: Job) {
    j.row.attempt == 0 && (j.row.state.Pending? || IsTerminal(j.row.state)) && j.running.None?
  }

  ghost predicate CallOk(j: Job, c: Call) {
    match c
    case Checked(token) => true
    case Holding(token, copy) =>
      Current(j, token) ==> copy.state.Running? && copy.token == token && copy.attempt == j.row.attempt
    case Claimed(token, copy) => FinishingOk(j, token, copy)
    case Appended(token, copy) => FinishingOk(j, token, copy)
    case Releasing(copy) => copy.state.Pending? && copy.attempt == 0 && NeverRan(j) && j.released
    case Skipping(copy) => copy.state.Pending? && copy.attempt == 0 && NeverRan(j) && j.doomed
  }

  /** The row still belongs to the lease that is being finished. */
  ghost predicate FinishingOk(j: Job, token: nat, copy: Row) {
    && token in j.issued && j.issued[token] == copy.attempt == j.row.attempt
    && j.row.state.Running? && j.row.token == token && j.running.None?
  }

  ghost predicate Leased(j: Job, row: Row) {
    row.token in j.issued && j.issued[row.token] == row.attempt >= 1
  }

  ghost predicate RowOk(j: Job) {
    && (j.row.state.Running? ==> Leased(j, j.row))
    && (j.running.Some? ==>
          j.row.state.Running? && j.running.value.token == j.row.token && j.running.value.attempt == j.row.attempt)
    && (j.row.state.Pending? || !j.released ==> NeverRan(j))
    && !Clash(j)
  }

  /** What the holder of the lock has read is still there, except that cancel may be overtaken. */
  ghost predicate SectionOk(j: Job) {
    match j.section
    case Free => true
    case Starting(copy, _, _) => copy == j.row && IsWaiting(j.row.state)
    case Reclaiming(copy) => copy == j.row && j.row.state.Running? && j.running.None? && j.row.token in j.reclaimed
    case Cancelling(copy) =>
      && !IsTerminal(copy.state) && copy.attempt == j.row.attempt
      && (IsWaiting(copy.state) ==> copy == j.row)
      && (copy.state.Pending? ==> copy.attempt == 0 && !j.row.state.Running?)
      && (copy.state.Running? ==> j.released && Leased(j, copy))
      && (copy.state.Running? && j.row.state.Running? ==> j.row.token == copy.token)
  }

  ghost predicate HistoryOk(j: Job) {
    && (forall t <- j.issued :: t != 0 && j.issued[t] <= j.row.attempt)
    && (forall t, u :: t in j.issued && u in j.issued && j.issued[t] == j.issued[u] ==> t == u)
    && (forall r <- j.recorded :: r.token in j.issued && j.issued[r.token] == r.attempt)
  }

  ghost predicate CallsOk(j: Job) {
    && (forall k <- j.calls :: CallOk(j, j.calls[k]))
    && (forall k, l :: k in j.calls && l in j.calls && j.calls[k].Releasing? && j.calls[l].Releasing? ==> k == l)
  }

  ghost predicate Inv(j: Job) {
    Tokens(j) && RowOk(j) && SectionOk(j) && HistoryOk(j) && CallsOk(j)
  }

  lemma InitialInv(maxAttempts: nat, node: bool)
    ensures Inv(Initial(maxAttempts, node))
  {
  }

  // Tokens is kept by StepKeepsTokens; what is left of a step is the rest of the invariant.
  ghost predicate Rest(j: Job) {
    RowOk(j) && SectionOk(j) && HistoryOk(j) && CallsOk(j)
  }

  lemma BeginKeeps(j: Job, e: Event)
    requires Inv(j) && Enabled(j, e) && (e.BeginRead? || e.BeginWrite?)
    ensures Rest(Apply(j, e))
  {
    hide Tokens, TokenOk;
    var r := Apply(j, e);
    if e.BeginWrite? { Fresh(j); }
    forall k <- r.calls ensures CallOk(r, r.calls[k]) {
      if k in j.calls {
        assert CallOk(j, j.calls[k]);
        StillIssued(j, k);
      }
    }
  }

  lemma Fresh(j: Job)
    requires Tokens(j) && j.section.Starting?
    ensures j.section.token != 0 && j.section.token !in j.issued
    ensures forall r <- j.recorded :: r.token != j.section.token
  {
  }

  lemma StillIssued(j: Job, k: CallId)
    requires Tokens(j) && k in j.calls
    ensures TokenOk(j, j.calls[k])
  {
  }

  lemma ReportKeeps(j: Job, e: Event)
    requires Inv(j) && Enabled(j, e) && (e.Check? || e.Read? || e.Claim?)
    ensures Rest(Apply(j, e))
  {
    hide Tokens, TokenOk;
    var r := Apply(j, e);
    if e.call in j.calls { assert CallOk(j, j.calls[e.call]); }
    forall k <- r.calls ensures CallOk(r, r.calls[k]) { if k in j.calls { assert CallOk(j, j.calls[k]); } }
  }

  lemma RecordKeeps(j: Job, e: Event)
    requires Inv(j) && Enabled(j, e) && (e.Append? || e.Write?)
    ensures Rest(Apply(j, e))
  {
    var r := Apply(j, e);
    assert TokenOk(j, j.calls[e.call]);
    assert CallOk(j, j.calls[e.call]) && Finishing(j.calls[e.call]);
    forall k <- r.calls ensures CallOk(r, r.calls[k]) {
      assert k in j.calls && CallOk(j, j.calls[k]);
      assert SameLease(j.calls[k], j.calls[e.call]) ==> k == e.call;
    }
  }

  lemma ReclaimKeeps(j: Job, e: Event)
    requires Inv(j) && Enabled(j, e) && (e.ReclaimRead? || e.ReclaimWrite?)
    ensures Rest(Apply(j, e))
  {
    var r := Apply(j, e);
    forall k <- r.calls ensures CallOk(r, r.calls[k]) { assert CallOk(j, j.calls[k]) && TokenOk(j, j.calls[k]); }
  }

  lemma CancelKeeps(j: Job, e: Event)
    requires Inv(j) && Enabled(j, e) && (e.CancelRead? || e.CancelWrite?)
    ensures Rest(Apply(j, e))
  {
    hide Tokens, TokenOk;
    var r := Apply(j, e);
    forall k <- r.calls ensures CallOk(r, r.calls[k]) { assert CallOk(j, j.calls[k]); }
  }

  lemma GraphKeeps(j: Job, e: Event)
    requires Inv(j) && Enabled(j, e) && !Clash(Apply(j, e)) && GraphEvent(e)
    ensures Rest(Apply(j, e))
  {
    hide Tokens, TokenOk;
    var r := Apply(j, e);
    if !e.Fail? && e.call in j.calls { assert CallOk(j, j.calls[e.call]); }
    forall k <- r.calls ensures CallOk(r, r.calls[k]) { if k in j.calls { assert CallOk(j, j.calls[k]); } }
  }

  lemma StepKeepsInv(j: Job, e: Event)
    requires Inv(j) && Enabled(j, e) && !Clash(Apply(j, e))
    ensures Inv(Apply(j, e))
  {
    hide Tokens, RowOk, SectionOk, HistoryOk, CallsOk, Apply, Enabled, Clash;
    StepKeepsTokens(j, e);
    if e.BeginRead? || e.BeginWrite? {
      BeginKeeps(j, e);
    } else if e.Check? || e.Read? || e.Claim? {
      ReportKeeps(j, e);
    } else if e.Append? || e.Write? {
      RecordKeeps(j, e);
    } else if e.ReclaimRead? || e.ReclaimWrite? {
      ReclaimKeeps(j, e);
    } else if e.CancelRead? || e.CancelWrite? {
      CancelKeeps(j, e);
    } else {
      GraphKeeps(j, e);
    }
  }

  /** A clash is for good. */
  lemma ClashStays(j: Job, e: Event)
    requires Enabled(j, e) && Clash(j)
    ensures Clash(Apply(j, e))
  {
  }

  lemma {:induction false} RunKeepsInv(run: seq<Job>, events: seq<Event>, i: nat)
    requires IsRun(run, events) && i < |run| && !Clash(run[i])
    ensures Inv(run[i])
  {
    hide Inv, Enabled, Apply, Clash;
    if i == 0 {
      var maxAttempts, node :| run[0] == Initial(maxAttempts, node);
      InitialInv(maxAttempts, node);
    } else {
      if Clash(run[i - 1]) { ClashStays(run[i - 1], events[i - 1]); }
      RunKeepsInv(run, events, i - 1);
      StepKeepsInv(run[i - 1], events[i - 1]);
    }
  }

  /** What is recorded is the attempt the lease was issued for; recorded attempts are pairwise distinct. */
  lemma RecordedAsIssued(run: seq<Job>, events: seq<Event>, i: nat, a: nat, b: nat)
    requires IsRun(run, events) && i < |run| && !Clash(run[i]) && a < |run[i].recorded| && b < |run[i].recorded|
    ensures run[i].recorded[a].token in run[i].issued
    ensures run[i].issued[run[i].recorded[a].token] == run[i].recorded[a].attempt
    ensures run[i].recorded[a].attempt == run[i].recorded[b].attempt ==> a == b
  {
    hide RowOk, SectionOk, CallsOk, TokenOk;
    RunKeepsInv(run, events, i);
    var j := run[i];
    assert j.recorded[a] in j.recorded && j.recorded[b] in j.recorded;
  }

  /** Only the current lease records an attempt or writes its result: not a reclaimed one, not a superseded one. */
  lemma OnlyCurrentLeaseWrites(run: seq<Job>, events: seq<Event>, i: nat)
    requires IsRun(run, events) && i < |events| && !Clash(run[i]) && (events[i].Append? || events[i].Write?)
    ensures var j := run[i];
            var token := j.calls[events[i].call].token;
            && token !in j.reclaimed && token in j.issued && j.issued[token] == j.row.attempt
            && j.row.state.Running? && j.row.token == token && j.running.None?
            && j.calls[events[i].call].copy.attempt == j.row.attempt
  {
    hide RowOk, SectionOk, HistoryOk;
    RunKeepsInv(run, events, i);
    var c := run[i].calls[events[i].call];
    assert CallOk(run[i], c) && TokenOk(run[i], c);
  }

  /** finish_attempt with a lease that was reclaimed or superseded changes nothing but the call itself. */
  lemma StaleResultChangesNothing(run: seq<Job>, events: seq<Event>, i: nat)
    requires IsRun(run, events) && i < |events| && !Clash(run[i]) && events[i].Claim?
    requires var token := run[i].calls[events[i].call].token;
             token in run[i].reclaimed || (token in run[i].issued && run[i].issued[token] < run[i].row.attempt)
    ensures run[i + 1] == run[i].(calls := run[i].calls - {events[i].call})
  {
    hide SectionOk, HistoryOk, CallsOk, TokenOk;
    RunKeepsInv(run, events, i);
  }

  // ---- attempts are bounded ----

  predicate RowBounded(row: Row, max: nat) {
    && row.maxAttempts == max && row.attempt <= max
    && (IsWaiting(row.state) || row.state.Pending? ==> row.attempt < max)
  }

  predicate CallBounded(c: Call, max: nat) { !c.Checked? ==> c.copy.maxAttempts == max }

  ghost predicate Bounded(j: Job, max: nat) {
    && RowBounded(j.row, max) && (!j.section.Free? ==> j.section.copy.maxAttempts == max)
    && forall k <- j.calls :: CallBounded(j.calls[k], max)
  }

  lemma StepKeepsBound(j: Job, e: Event, max: nat)
    requires Inv(j) && Enabled(j, e) && Bounded(j, max) && max >= 1
    ensures Bounded(Apply(j, e), max)
  {
    hide Tokens, HistoryOk, RowOk;
    var r := Apply(j, e);
    if e.Write? || e.ReleaseWrite? || e.SkipWrite? {
      assert CallOk(j, j.calls[e.call]) && CallBounded(j.calls[e.call], max);
    }
    if e.Claim? || e.Append? { assert CallBounded(j.calls[e.call], max); }
    assert RowBounded(r.row, max);
    forall k <- r.calls ensures CallBounded(r.calls[k], max) {
      if k in j.calls { assert CallBounded(j.calls[k], max); }
    }
  }

  /** Without a clash a job starts at most as often as its attempts allow, and waits only while attempts are left. */
  lemma {:induction false} AttemptsAreBounded(run: seq<Job>, events: seq<Event>, i: nat)
    requires IsRun(run, events) && i < |run| && !Clash(run[i]) && run[0].row.maxAttempts >= 1
    ensures Bounded(run[i], run[0].row.maxAttempts)
  {
    hide Inv, Enabled, Apply, Clash;
    if i == 0 {
      var maxAttempts, node :| run[0] == Initial(maxAttempts, node);
    } else {
      if Clash(run[i - 1]) { ClashStays(run[i - 1], events[i - 1]); }
      AttemptsAreBounded(run, events, i - 1);
      RunKeepsInv(run, events, i - 1);
      StepKeepsBound(run[i - 1], events[i - 1], run[0].row.maxAttempts);
    }
  }

  /** A job that waits with the request to cancel on its row is not started by any step, but by an overtaken cancel. */
  lemma FlaggedIsNotStarted(run: seq<Job>, events: seq<Event>, i: nat)
    requires IsRun(run, events) && i < |events| && !Clash(run[i]) && IsWaiting(run[i].row.state) && run[i].row.flag
    ensures run[i + 1].row.state.Running? ==> events[i].CancelWrite?
    ensures events[i].BeginWrite? ==> run[i + 1].row.state.Cancelled?
  {
    hide Tokens, HistoryOk;
    RunKeepsInv(run, events, i);
    var j, e := run[i], events[i];
    if e.Write? || e.ReleaseWrite? || e.SkipWrite? { assert CallOk(j, j.calls[e.call]); }
  }

  // ---- several jobs ----

  type Fleet = map<nat, Job>

  ghost predicate FleetStep(f: Fleet, g: Fleet) {
    exists id, e :: id in f && Enabled(f[id], e) && g == f[id := Apply(f[id], e)]
  }

  ghost predicate IsFleetRun(run: seq<Fleet>) {
    && |run| > 0
    && (forall id <- run[0] :: exists maxAttempts, node :: run[0][id] == Initial(maxAttempts, node))
    && forall i :: 0 <= i < |run| - 1 ==> FleetStep(run[i], run[i + 1])
  }

  lemma {:induction false} FleetKeepsInv(run: seq<Fleet>, i: nat)
    requires IsFleetRun(run) && i < |run|
    ensures forall id <- run[i] :: !Clash(run[i][id]) ==> Inv(run[i][id])
  {
    hide Inv, Enabled, Apply, Clash;
    if i == 0 {
      forall id <- run[0] ensures Inv(run[0][id]) {
        var maxAttempts, node :| run[0][id] == Initial(maxAttempts, node);
        InitialInv(maxAttempts, node);
      }
    } else {
      FleetKeepsInv(run, i - 1);
      assert FleetStep(run[i - 1], run[i]);
      var f := run[i - 1];
      var id, e :| id in f && Enabled(f[id], e) && run[i] == f[id := Apply(f[id], e)];
      if Clash(f[id]) {
        ClashStays(f[id], e);
      } else if !Clash(run[i][id]) {
        StepKeepsInv(f[id], e);
      }
    }
  }

  /**
   The (job, attempt) keys of the attempt records of jobs without a clash are distinct: no record replaces
   another.
   */
  lemma RecordKeysDistinct(run: seq<Fleet>, i: nat, x: nat, y: nat, a: nat, b: nat)
    requires IsFleetRun(run) && i < |run| && x in run[i] && y in run[i] && !Clash(run[i][x])
    requires a < |run[i][x].recorded| && b < |run[i][y].recorded|
    requires (x, run[i][x].recorded[a].attempt) == (y, run[i][y].recorded[b].attempt)
    ensures x == y && a == b
  {
    hide RowOk, SectionOk, CallsOk, TokenOk;
    FleetKeepsInv(run, i);
    var j := run[i][x];
    assert j.recorded[a] in j.recorded && j.recorded[b] in j.recorded;
  }

  // ---- what the grain shows: two writes can overtake the end of a job ----

  /** cancel is about to write back, as RUNNING, a row that its finisher has meanwhile moved on. */
  ghost predicate Overtaken(j: Job) {
    j.section.Cancelling? && j.section.copy.state.Running? && !j.row.state.Running?
  }

  /** A row that had ended is open again. */
  predicate Revives(j: Job, e: Event)
    requires Enabled(j, e)
  {
    IsTerminal(j.row.state) && !IsTerminal(Apply(j, e).row.state)
  }

  lemma RevivesIff(j: Job, e: Event)
    requires Inv(j) && Enabled(j, e)
    ensures Revives(j, e) <==> IsTerminal(j.row.state) && (e.ReleaseWrite? || (e.CancelWrite? && Overtaken(j)))
  {
    hide Tokens, HistoryOk;
    if e.Write? || e.ReleaseWrite? { assert CallOk(j, j.calls[e.call]); }
  }

  /**
   As long as there is no clash, a step brings a terminal row back to life exactly when it is the write of a release
   that read the row before it ended, or the write of a cancel that read the row as RUNNING before its finisher ended
   it.
   */
  lemma ResurrectionIff(run: seq<Job>, events: seq<Event>, i: nat)
    requires IsRun(run, events) && i < |events| && !Clash(run[i])
    ensures Revives(run[i], events[i]) <==>
            IsTerminal(run[i].row.state) && (events[i].ReleaseWrite? || (events[i].CancelWrite? && Overtaken(run[i])))
  {
    hide Inv, Enabled, Apply, Revives;
    RunKeepsInv(run, events, i);
    RevivesIff(run[i], events[i]);
  }

  /** The row says RUNNING, but nobody holds the lease, finishes the attempt or takes it back. */
  ghost predicate Abandoned(j: Job) {
    && j.row.state.Running? && j.running.None? && !j.section.Reclaiming?
    && forall k <- j.calls :: !Finishing(j.calls[k])
  }

  /** A running row is abandoned by exactly one kind of step: the write of an overtaken cancel. */
  lemma AbandonedIff(run: seq<Job>, events: seq<Event>, i: nat)
    requires IsRun(run, events) && i < |events| && !Clash(run[i]) && !Abandoned(run[i])
    ensures Abandoned(run[i + 1]) <==> events[i].CancelWrite? && Overtaken(run[i])
  {
    hide Inv, Enabled, Apply, Abandoned;
    RunKeepsInv(run, events, i);
    AbandonsIff(run[i], events[i]);
  }

  lemma AbandonsIff(j: Job, e: Event)
    requires Inv(j) && Enabled(j, e) && !Abandoned(j)
    ensures Abandoned(Apply(j, e)) <==> e.CancelWrite? && Overtaken(j)
  {
    hide Tokens, HistoryOk;
    var r := Apply(j, e);
    if e.CancelWrite? {
      if Overtaken(j) {
        OvertakenHasNoFinisher(j);
      } else if j.section.copy.state.Running? && j.running.None? {
        var k :| k in j.calls && Finishing(j.calls[k]);
        assert k in r.calls && Finishing(r.calls[k]);
      }
    } else if e.Write? || e.ReleaseWrite? || e.SkipWrite? {
      assert CallOk(j, j.calls[e.call]);
    } else if r.row.state.Running? && r.running.None? && !r.section.Reclaiming? {
      StillFinished(j, e);
    }
  }

  lemma OvertakenHasNoFinisher(j: Job)
    requires Inv(j) && Overtaken(j)
    ensures j.running.None? && forall k <- j.calls :: !Finishing(j.calls[k])
  {
    hide Tokens, HistoryOk;
    forall k <- j.calls ensures !Finishing(j.calls[k]) { assert CallOk(j, j.calls[k]); }
  }

  lemma StillFinished(j: Job, e: Event)
    requires Inv(j) && Enabled(j, e) && !Abandoned(j)
    requires !e.CancelWrite? && !e.Write? && !e.ReleaseWrite? && !e.SkipWrite?
    requires var r := Apply(j, e); r.row.state.Running? && r.running.None? && !r.section.Reclaiming?
    ensures exists k :: k in Apply(j, e).calls && Finishing(Apply(j, e).calls[k])
  {
    hide Tokens, HistoryOk, CallsOk;
    var r := Apply(j, e);
    if j.running.Some? {
      assert e.Claim? && Finishing(r.calls[e.call]);
    } else {
      var k :| k in j.calls && Finishing(j.calls[k]);
      assert k in r.calls && Finishing(r.calls[k]);
    }
  }

  /** An abandoned job stays so: no attempt begins, no result is written, until the process restarts. */
  lemma {:induction false} AbandonedForGood(run: seq<Job>, events: seq<Event>, i: nat, k: nat)
    requires IsRun(run, events) && i <= k < |run| && !Clash(run[k]) && Abandoned(run[i])
    ensures Abandoned(run[k]) && run[k].row.attempt == run[i].row.attempt && run[k].recorded == run[i].recorded
    decreases k - i
  {
    hide Inv, Enabled, Apply, Clash, Abandoned;
    if i < k {
      if Clash(run[k - 1]) { ClashStays(run[k - 1], events[k - 1]); }
      AbandonedForGood(run, events, i, k - 1);
      RunKeepsInv(run, events, k - 1);
      AbandonedStays(run[k - 1], events[k - 1]);
    }
  }

  lemma AbandonedStays(j: Job, e: Event)
    requires Inv(j) && Enabled(j, e) && Abandoned(j)
    ensures Abandoned(Apply(j, e)) && Apply(j, e).row.attempt == j.row.attempt && Apply(j, e).recorded == j.recorded
  {
    hide Tokens, HistoryOk;
    assert forall k <- j.calls :: CallOk(j, j.calls[k]);
  }

  // ---- runs that show it ----

  const Blocked := Row(Pending, 0, 1, 0, false)
  const Releasing1 := Job(Blocked, None, Free, map[0 := Releasing(Blocked)], true, false, map[], [], {})
  const Ended1 := Releasing1.(row := Row(Cancelled, 0, 1, 0, true))

  lemma ReleaseMeetsCancel()
    ensures Enabled(Initial(1, true), ReleaseRead(0)) && Apply(Initial(1, true), ReleaseRead(0)) == Releasing1
    ensures var cancelling := Releasing1.(section := Cancelling(Blocked));
            && Enabled(Releasing1, CancelRead) && Apply(Releasing1, CancelRead) == cancelling
            && Enabled(cancelling, CancelWrite) && Apply(cancelling, CancelWrite) == Ended1
    ensures Enabled(Ended1, ReleaseWrite(0, false)) && Apply(Ended1, ReleaseWrite(0, false)).row.state.Queued?
  {
  }

  /** A stale release undoes a cancellation. */
  lemma CancellationCanBeUndone() returns (run: seq<Job>, events: seq<Event>)
    ensures IsRun(run, events) && |events| == 4
    ensures run[3].row.state.Cancelled? && run[4].row.state.Queued?
  {
    ReleaseMeetsCancel();
    hide Enabled, Apply;
    events := [ReleaseRead(0), CancelRead, CancelWrite, ReleaseWrite(0, false)];
    run := [Initial(1, true), Releasing1, Releasing1.(section := Cancelling(Blocked)), Ended1, Apply(Ended1, events[3])];
  }

  /** An attempt in process, from its start to its record. */
  lemma InProcess(maxAttempts: nat) returns (run: seq<Job>, events: seq<Event>)
    ensures IsRun(run, events) && |events| == 4
    ensures var copy := Row(Running, 1, maxAttempts, 9, false);
            run[4] == Job(copy, None, Free, map[0 := Appended(9, copy)], true, false, map[9 := 1], [Record(1, 9)], {})
  {
    events := [BeginRead(9, ""), BeginWrite(Some(0)), Claim(0), Append(0)];
    var s0 := Initial(maxAttempts, false);
    var copy := Row(Running, 1, maxAttempts, 9, false);
    var s1 := s0.(section := Starting(s0.row, 9, ""));
    assert s1 == Apply(s0, events[0]);
    var s2 := Job(copy, Some(Info(9, "", 1)), Free, map[0 := Holding(9, copy)], true, false, map[9 := 1], [], {});
    assert s2 == Apply(s1, events[1]);
    var s3 := Job(copy, None, Free, map[0 := Claimed(9, copy)], true, false, map[9 := 1], [], {});
    assert s3 == Apply(s2, events[2]);
    run := [s0, s1, s2, s3, Apply(s3, events[3])];
  }

  /** ... and a cancel that has read the row as RUNNING. */
  lemma CancelMeetsFinish(maxAttempts: nat) returns (run: seq<Job>, events: seq<Event>)
    ensures IsRun(run, events) && |events| == 5
    ensures var copy := Row(Running, 1, maxAttempts, 9, false);
            run[5] == Job(copy, None, Cancelling(copy), map[0 := Appended(9, copy)], true, false, map[9 := 1],
                          [Record(1, 9)], {})
  {
    var run0, events0 := InProcess(maxAttempts);
    run, events := run0 + [Apply(run0[4], CancelRead)], events0 + [CancelRead];
  }

  /** A stale cancel undoes a success: the row is SUCCEEDED, then RUNNING again, and nobody runs it. */
  lemma SuccessCanBeUndone() returns (run: seq<Job>, events: seq<Event>)
    ensures IsRun(run, events) && |events| == 7
    ensures run[6].row.state.Succeeded? && run[7].row.state.Running? && Abandoned(run[7])
  {
    var run0, events0 := CancelMeetsFinish(1);
    var s6 := Apply(run0[5], Write(0, false, false, true));
    run, events := run0 + [s6, Apply(s6, CancelWrite)], events0 + [Write(0, false, false, true), CancelWrite];
  }

  /** A stale cancel swallows a retry: the row was queued to run again, and is RUNNING with nobody to run it. */
  lemma RetryCanBeLost() returns (run: seq<Job>, events: seq<Event>)
    ensures IsRun(run, events) && |events| == 7
    ensures run[6].row.state.Retrying? && Abandoned(run[7])
  {
    var run0, events0 := CancelMeetsFinish(2);
    var s6 := Apply(run0[5], Write(0, false, false, false));
    run, events := run0 + [s6, Apply(s6, CancelWrite)], events0 + [Write(0, false, false, false), CancelWrite];
  }
}
