/** The job lifecycle: ten states, the terminal ones, and the transition table. */
module Jobs {

  datatype Option<+T> = None | Some(value: T)

  datatype JobState =
    | Pending
    | Queued
    | Scheduled
    | Running
    | Retrying
    | Succeeded
    | Failed
    | TimedOut
    | Cancelled
    | Skipped

  predicate IsTerminal(s: JobState) {
    s.Succeeded? || s.Failed? || s.TimedOut? || s.Cancelled? || s.Skipped?
  }

  /** Waiting in the queue (or popped from it and not yet begun). */
  predicate IsWaiting(s: JobState) {
    s.Queued? || s.Scheduled? || s.Retrying?
  }

  predicate IsValidTransition(from: JobState, to: JobState) {
    if from == to || IsTerminal(from) then false
    else
      match from
      case Pending => to.Queued? || to.Scheduled? || to.Cancelled? || to.Skipped?
      case Scheduled => to.Queued? || to.Cancelled? || to.Skipped?
      case Queued => to.Running? || to.Cancelled? || to.Skipped?
      case Running => to.Succeeded? || to.Retrying? || to.Failed? || to.TimedOut? || to.Cancelled? || to.Queued?
      case Retrying => to.Queued? || to.Cancelled? || to.Failed? || to.TimedOut? || to.Skipped?
  }

  /** The table written out. */
  const TABLE: set<(JobState, JobState)> := {
    (Pending, Queued), (Pending, Scheduled), (Pending, Cancelled), (Pending, Skipped),
    (Scheduled, Queued), (Scheduled, Cancelled), (Scheduled, Skipped),
    (Queued, Running), (Queued, Cancelled), (Queued, Skipped),
    (Running, Succeeded), (Running, Retrying), (Running, Failed), (Running, TimedOut), (Running, Cancelled),
    (Running, Queued),
    (Retrying, Queued), (Retrying, Cancelled), (Retrying, Failed), (Retrying, TimedOut), (Retrying, Skipped) }

  /** The check accepts exactly the table; no state follows itself, and none follows one of the five terminal states. */
  lemma TransitionTable(from: JobState, to: JobState)
    ensures IsValidTransition(from, to) <==> (from, to) in TABLE
    ensures IsValidTransition(from, to) ==> from != to
    ensures IsTerminal(from) <==> forall s :: !IsValidTransition(from, s)
    ensures IsTerminal(from) <==> from in {Succeeded, Failed, TimedOut, Cancelled, Skipped}
  {
    if !IsTerminal(from) {
      assert IsValidTransition(from, if from.Running? then Succeeded else Cancelled);
    }
  }

  /** `to` is `from`, or follows it in the table, or is the start of an attempt of a job that waits. */
  predicate Moves(from: JobState, to: JobState) {
    || from == to
    || IsValidTransition(from, to)
    || ((from.Scheduled? || from.Retrying?) && to.Running?)
  }
}
