/** Job statuses and ordering modes (lifecycle/state.go, job.go). */
module Lifecycle {

  datatype Status =
    | Blocked
    | Pending
    | Processing
    | Retrying
    | Completed
    | Failed
    | CancelRequested
    | Cancelled
    | TimedOut
    | Expired
    | DeadLettered

  /** The source keeps the mode as a string; `Unset` is the empty string and
      `Unknown` any string that is none of the three published constants. */
  datatype OrderingMode =
    | Unset
    | Strict
    | SkipOnFailure
    | DeadLetterAndContinue
    | Unknown(name: string)

  predicate CanBeClaimed(s: Status) {
    s.Pending? || s.Retrying?
  }

  /** A failed job of such a mode does not hold back its successor. */
  predicate Continues(m: OrderingMode) {
    m.SkipOnFailure? || m.DeadLetterAndContinue?
  }

  predicate InDeadLetterQueue(s: Status) {
    s.Failed? || s.DeadLettered?
  }

  /** Statuses that a replay or a skip accepts. */
  predicate Stopped(s: Status) {
    s.Failed? || s.Cancelled? || s.DeadLettered?
  }

  /** The test that initial status and claim eligibility apply to a predecessor. */
  predicate Finished(s: Status, m: OrderingMode) {
    s.Completed? || (InDeadLetterQueue(s) && Continues(m))
  }

  /** Statuses that only a job that has been claimed at least once can have,
      provided finishing calls present a claimed token. */
  predicate Touched(s: Status) {
    s.Processing? || s.Retrying? || s.Completed? || Stopped(s)
  }

  /** Statuses in which the current token of a job can still be outstanding. */
  predicate InFlight(s: Status) {
    s.Processing? || s.Retrying? || s.CancelRequested?
  }
}
