/**
 * The background job queue (Sidekiq). `perform_async` pushes a job for
 * immediate execution and `perform_in(5.minutes, ...)` pushes one tagged with
 * its delay; both push through Redis and raise when it is unreachable. Retries
 * are modelled as a bounded count per worker class; timing and backoff are not.
 */
module Jobs {
  import opened Common

  datatype Job =
    | UpdateChatCount(applicationId: int, delaySeconds: nat)
    | UpdateMessageCount(chatId: int, delaySeconds: nat)
    | IndexMessage(messageId: int)
    | CounterSync

  /** How a worker's `perform` ended: normally, by a logged skip, or by a raised exception (Failed). */
  datatype Outcome = Completed | Skipped | Failed

  /** What Sidekiq does with a job after one run. */
  datatype Fate = Done | Retry | Dead

  /**
   * The `retry:` option of each worker class. CounterSyncWorker sets none, so it
   * has Sidekiq's default of 25.
   */
  function RetryLimit(j: Job): nat {
    match j
    case UpdateChatCount(_, _) => 3
    case UpdateMessageCount(_, _) => 3
    case IndexMessage(_) => 5
    case CounterSync => 25
  }

  /** A run that raised is retried while fewer than `limit` retries have been made. */
  function AfterRun(o: Outcome, retriesSoFar: nat, limit: nat): (f: Fate)
    ensures f == Retry <==> o == Failed && retriesSoFar < limit
    ensures f == Done <==> o != Failed
  {
    if o != Failed then Done else if retriesSoFar < limit then Retry else Dead
  }

  /** The runs a job gets, from its `retriesSoFar`-th retry on, when every run raises. */
  function RunsWhileRaising(retriesSoFar: nat, limit: nat): nat
    decreases limit - retriesSoFar
  {
    match AfterRun(Failed, retriesSoFar, limit)
    case Retry => 1 + RunsWhileRaising(retriesSoFar + 1, limit)
    case _ => 1
  }

  /** A job that always raises runs once and is then retried `limit` times before it is dead. */
  lemma {:induction false} AlwaysRaisingJobRuns(retriesSoFar: nat, limit: nat)
    requires retriesSoFar <= limit
    ensures RunsWhileRaising(retriesSoFar, limit) == limit - retriesSoFar + 1
    decreases limit - retriesSoFar
  {
    if retriesSoFar < limit {
      AlwaysRaisingJobRuns(retriesSoFar + 1, limit);
    }
  }

  class Queue {
    var jobs: seq<Job>
    var up: bool

    constructor (up0: bool)
      ensures jobs == [] && up == up0
    {
      jobs := [];
      up := up0;
    }

    /** `perform_async` or `perform_in`: push one job, or raise when the queue is unreachable. */
    method Push(j: Job) returns (ok: bool)
      modifies this`jobs
      ensures ok == up
      ensures jobs == if ok then old(jobs) + [j] else old(jobs)
    {
      ok := up;
      if ok {
        jobs := jobs + [j];
      }
    }
  }
}
