/** The job and queue-configuration records and the two predicates the life cycle branches on. */
module Jobs {

  datatype Option<+T> = None | Some(value: T)

  datatype Status = Pending | Running | Success | Failed | Retrying | Cancelled | Expired

  /** A job record.  Times are nanoseconds on one clock.  Payload, result, metadata, type and the
      execution timeout are opaque to the queue and are left out. */
  datatype Job = Job(
    id: string, queue: string, priority: int, status: Status,
    maxRetries: int, retryCount: int, scheduledAt: int,
    error: string, progress: int,
    startedAt: Option<int>, completedAt: Option<int>)
  {
    predicate IsTerminal() {
      status == Success || status == Failed || status == Cancelled || status == Expired
    }

    predicate CanRetry() {
      retryCount < maxRetries && !IsTerminal()
    }
  }

  datatype RetryStrategy = Unset | Fixed | Linear | Exponential | Unknown

  /** Delays are in seconds; `deadLetterQueue` is "" when there is none. */
  datatype QueueConfig = QueueConfig(
    name: string, maxRetries: int, strategy: RetryStrategy,
    retryDelay: int, maxRetryDelay: int,
    priority: int, weight: int, deadLetterQueue: string)

  const PRIORITY_LOW := 0
  const PRIORITY_NORMAL := 5
}
