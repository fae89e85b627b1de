/** internal/core/job.go and the status values of internal/core/dispatcher.go. */
module Jobs {
  type Id = string
  type Name = string

  /** Instants and durations are nanoseconds; instant 0 is Go's zero time. */
  datatype Job = Job(id: Id, name: Name, payload: seq<bv8>, createdAt: int, runAt: int,
                     maxRetries: int, retryDelay: int, timeout: int, attempt: nat)

  datatype Status = Queued | Delayed | Running | Succeeded | Failed | Cancelled

  /** The job is submitted to the ready queue rather than the delay heap. */
  predicate RunsNow(j: Job, now: int) {
    j.runAt == 0 || j.runAt <= now
  }
}
