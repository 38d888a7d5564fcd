/** The `ticket-tasks` queue as the producer and the worker see it: jobs are records
    of a name, a payload and the options given when they were added. Redelivery,
    backoff and attempt counting belong to the queue engine and are not modelled. */
module Jobs {
  import opened Common

  const QueueName: string := "ticket-tasks"

  /** The job name the producer adds and the worker handles (spelled as in the code). */
  const ClassifyJobName: string := "ai-clasify-ticket"

  /** `backoff.delay` is `REDIS_JOB_FAILED_DELAY * 1000`; with the variable unset the
      product is NaN, shown here as None. */
  datatype Backoff = Backoff(kind: string, delayMs: Option<int>)

  datatype JobOptions = JobOptions(attempts: int, backoff: Backoff, removeOnComplete: bool, removeOnFailAge: int)

  /** A job: its name, the payload `{ticketId}`, its options and the time (ms) it was
      added, `job.timestamp`. */
  datatype Job = Job(name: string, ticketId: int, options: JobOptions, timestamp: int)

  /** The default job options the producer gives the queue: 999 attempts, exponential
      backoff from the configured delay in seconds, completed jobs removed, failed
      jobs kept for 10 seconds. */
  function ClassifyJobOptions(delaySeconds: Option<int>): (o: JobOptions)
    ensures o.attempts == 999
    ensures o.backoff.kind == "exponential"
    ensures delaySeconds.Some? ==> o.backoff.delayMs == Some(delaySeconds.value * 1000)
    ensures delaySeconds.None? ==> o.backoff.delayMs.None?
    ensures o.removeOnComplete && o.removeOnFailAge == 10
  {
    var delay := if delaySeconds.Some? then Some(delaySeconds.value * 1000) else None;
    JobOptions(999, Backoff("exponential", delay), true, 10)
  }

  /** The queue's waiting jobs, oldest first. */
  class JobQueue {
    var jobs: seq<Job>

    constructor ()
      ensures jobs == []
    {
      jobs := [];
    }

    /** `queue.add(name, {ticketId}, options)` at time `now`. */
    method Add(name: string, ticketId: int, options: JobOptions, now: int)
      modifies this
      ensures jobs == old(jobs) + [Job(name, ticketId, options, now)]
    {
      jobs := jobs + [Job(name, ticketId, options, now)];
    }
  }
}
