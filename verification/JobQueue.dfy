/** The leased job queue and the runner that drains it: backoff, dead letters and progress. */
module JobQueue {
  import opened Wrappers
  import Text

  datatype Status = Queued | Leased | Completed | DeadLetter

  datatype Job = Job(
    kind: string, payload: string, status: Status, attempts: nat, maxAttempts: int, notBefore: real,
    leaseUntil: Option<real>, lastError: Option<string>)

  type Jobs = map<string, Job>

  /** What a handler did with a job. */
  datatype Outcome = Succeeds | Raises(error: string)

  type Handlers = map<string, Job -> Outcome>

  /** The runner reports a job without a handler as failed, whether it was requeued or dead-lettered. */
  datatype Report = Idle | Done | Retrying | Dead | Failing

  const NO_HANDLER := "KeyError: no handler registered for job kind "

  function OutcomeOf(handlers: Handlers, j: Job): Outcome {
    if j.kind in handlers then handlers[j.kind](j) else Raises(NO_HANDLER + j.kind)
  }

  function Pow2(n: nat): nat {
    if n == 0 then 1 else 2 * Pow2(n - 1)
  }

  predicate Claimable(j: Job, now: real) {
    && j.notBefore <= now
    && (j.status.Queued? || (j.status.Leased? && (j.leaseUntil.None? || j.leaseUntil.value <= now)))
  }

  predicate Terminal(j: Job) {
    j.status.Completed? || j.status.DeadLetter?
  }

  predicate Before(jobs: Jobs, a: string, b: string)
    requires a in jobs && b in jobs
  {
    jobs[a].notBefore < jobs[b].notBefore || (jobs[a].notBefore == jobs[b].notBefore && Text.AtMost(a, b))
  }

  ghost predicate IsNext(jobs: Jobs, id: string, now: real) {
    && id in jobs && Claimable(jobs[id], now)
    && forall other :: other in jobs && Claimable(jobs[other], now) ==> Before(jobs, id, other)
  }

  function NewJob(kind: string, payload: string, maxAttempts: int, notBefore: real): Job {
    Job(kind, payload, Queued, 0, maxAttempts, notBefore, None, None)
  }

  /** A known id is ignored. */
  function Enqueued(jobs: Jobs, id: string, j: Job): Jobs {
    if id in jobs then jobs else jobs[id := j]
  }

  function Claimed(j: Job, now: real, lease: real): Job {
    j.(status := Leased, attempts := j.attempts + 1, leaseUntil := Some(now + lease))
  }

  function Finished(j: Job): Job {
    j.(status := Completed, leaseUntil := None, lastError := None)
  }

  /** The wait after a failed attempt doubles with every attempt before it. */
  function Backoff(base: real, attempts: nat): real {
    base * (Pow2(if attempts >= 1 then attempts - 1 else 0) as real)
  }

  /** The first wait is the base; every further one is twice the one before. */
  lemma BackoffDoubles(base: real, attempts: nat)
    ensures Backoff(base, 0) == base && Backoff(base, 1) == base
    ensures attempts >= 1 ==> Backoff(base, attempts + 1) == 2.0 * Backoff(base, attempts)
  {
  }

  function Failed(j: Job, error: string, base: real, now: real): Job {
    if j.attempts >= j.maxAttempts
    then j.(status := DeadLetter, notBefore := now, leaseUntil := None, lastError := Some(error))
    else
      j.(status := Queued, notBefore := now + Backoff(base, j.attempts), leaseUntil := None, lastError := Some(error))
  }

  function AfterRun(j: Job, now: real, lease: real, base: real, outcome: Outcome): Job {
    match outcome
    case Succeeds => Finished(Claimed(j, now, lease))
    case Raises(error) => Failed(Claimed(j, now, lease), error, base, now)
  }

  /** The queue is ordered by due time, then by id. */
  lemma BeforeDecides(jobs: Jobs, a: string, b: string)
    requires a in jobs && b in jobs
    ensures jobs[a].notBefore != jobs[b].notBefore ==> (Before(jobs, a, b) <==> jobs[a].notBefore < jobs[b].notBefore)
    ensures jobs[a].notBefore == jobs[b].notBefore && a != b ==> (Before(jobs, a, b) <==> Text.Less(a, b))
  {
  }

  lemma BeforeIsTotal(jobs: Jobs, a: string, b: string)
    requires a in jobs && b in jobs
    ensures Before(jobs, a, b) || Before(jobs, b, a)
  {
    Text.Total(a, b);
  }

  lemma BeforeIsTransitive(jobs: Jobs, a: string, b: string, c: string)
    requires a in jobs && b in jobs && c in jobs && Before(jobs, a, b) && Before(jobs, b, c)
    ensures Before(jobs, a, c)
  {
    if Text.AtMost(a, b) && Text.AtMost(b, c) { Text.Transitive(a, b, c); }
  }

  class SqliteJobQueue {
    var jobs: Jobs

    constructor ()
      ensures jobs == map[]
    {
      jobs := map[];
    }

    method Enqueue(id: string, kind: string, payload: string, maxAttempts: int, notBefore: real) returns (inserted: bool)
      modifies this
      ensures inserted <==> id !in old(jobs)
      ensures jobs == Enqueued(old(jobs), id, NewJob(kind, payload, maxAttempts, notBefore))
    {
      if id in jobs { return false; }
      jobs := jobs[id := Job(kind, payload, Queued, 0, maxAttempts, notBefore, None, None)];
      return true;
    }

    method Claim(now: real, lease: real) returns (id: Option<string>)
      modifies this
      ensures id.None? ==> jobs == old(jobs) && forall other :: other in jobs ==> !Claimable(jobs[other], now)
      ensures id.Some? ==> IsNext(old(jobs), id.value, now)
                           && jobs == old(jobs)[id.value := Claimed(old(jobs)[id.value], now, lease)]
    {
      id := None;
      var todo := jobs.Keys;
      while todo != {}
        invariant todo <= jobs.Keys && jobs == old(jobs)
        invariant id.None? ==> forall k :: k in jobs.Keys - todo ==> !Claimable(jobs[k], now)
        invariant id.Some? ==> id.value in jobs && Claimable(jobs[id.value], now)
        invariant id.Some? ==> forall k :: k in jobs.Keys - todo && Claimable(jobs[k], now) ==> Before(jobs, id.value, k)
        decreases |todo|
      {
        var k :| k in todo;
        BeforeIsTotal(jobs, k, k);
        if Claimable(jobs[k], now) {
          if id.None? {
            id := Some(k);
          } else {
            BeforeIsTotal(jobs, id.value, k);
            if !Before(jobs, id.value, k) {
              forall l | l in jobs.Keys - todo && Claimable(jobs[l], now) ensures Before(jobs, k, l) {
                BeforeIsTransitive(jobs, k, id.value, l);
              }
              id := Some(k);
            }
          }
        }
        todo := todo - {k};
      }
      if id.Some? {
        jobs := jobs[id.value := jobs[id.value].(status := Leased, attempts := jobs[id.value].attempts + 1,
                                                 leaseUntil := Some(now + lease))];
      }
    }

    method Complete(id: string)
      modifies this
      ensures jobs == if id in old(jobs) then old(jobs)[id := Finished(old(jobs)[id])] else old(jobs)
    {
      if id in jobs {
        jobs := jobs[id := jobs[id].(status := Completed, leaseUntil := None, lastError := None)];
      }
    }

    /** Requeue with exponential backoff, or dead-letter once the attempts are used up. */
    method Fail(id: string, error: string, base: real, now: real) returns (updated: Option<Job>)
      modifies this
      ensures id !in old(jobs) ==> updated.None? && jobs == old(jobs)
      ensures id in old(jobs) ==> updated == Some(Failed(old(jobs)[id], error, base, now))
                                  && jobs == old(jobs)[id := updated.value]
    {
      if id !in jobs { return None; }
      var job := jobs[id];
      var status, notBefore := DeadLetter, now;
      if job.attempts < job.maxAttempts {
        status := Queued;
        notBefore := now + Backoff(base, job.attempts);
      }
      jobs := jobs[id := job.(status := status, notBefore := notBefore, leaseUntil := None, lastError := Some(error))];
      updated := Some(jobs[id]);
    }
  }

  class DurableRunner {
    const queue: SqliteJobQueue
    const lease: real
    const base: real

    constructor (queue: SqliteJobQueue, lease: real, base: real)
      ensures this.queue == queue && this.lease == lease && this.base == base
    {
      this.queue, this.lease, this.base := queue, lease, base;
    }

    /** Claim one job, let its handler decide, and complete or fail it. */
    method RunOnce(now: real, handlers: Handlers) returns (report: Report)
      modifies queue
      ensures report.Idle? ==> queue.jobs == old(queue.jobs)
                               && forall id :: id in queue.jobs ==> !Claimable(queue.jobs[id], now)
      ensures !report.Idle? ==> Handled(old(queue.jobs), queue.jobs, now, lease, base, handlers, report)
    {
      var id := queue.Claim(now, lease);
      if id.None? { return Idle; }
      var j := queue.jobs[id.value];
      if j.kind !in handlers {
        var updated := queue.Fail(id.value, NO_HANDLER + j.kind, base, now);
        report := Failing;
      } else {
        match handlers[j.kind](j) {
          case Succeeds =>
            queue.Complete(id.value);
            report := Done;
          case Raises(error) =>
            var updated := queue.Fail(id.value, error, base, now);
            report := if updated.value.status.DeadLetter? then Dead else Retrying;
        }
      }
      assert IsNext(old(queue.jobs), id.value, now);
    }
  }

  /** What the runner says about a job it ran: completed, waiting to be retried, or given up. */
  predicate Reports(report: Report, handlers: Handlers, j: Job) {
    match report
    case Idle => false
    case Failing => j.kind !in handlers && !j.status.Completed?
    case Done => j.kind in handlers && j.status.Completed?
    case Retrying => j.kind in handlers && j.status.Queued?
    case Dead => j.kind in handlers && j.status.DeadLetter?
  }

  /** The next job was claimed, its handler's outcome recorded, and the report tells what became of it. */
  ghost predicate Handled(jobs: Jobs, jobs': Jobs, now: real, lease: real, base: real, handlers: Handlers, report: Report) {
    exists id ::
      (IsNext(jobs, id, now)
       && jobs' == jobs[id := AfterRun(jobs[id], now, lease, base, OutcomeOf(handlers, Claimed(jobs[id], now, lease)))]
       && Reports(report, handlers, jobs'[id]))
  }

  lemma HandledIsATurn(jobs: Jobs, jobs': Jobs, now: real, lease: real, base: real, handlers: Handlers, report: Report)
    requires Handled(jobs, jobs', now, lease, base, handlers, report)
    ensures Ran(jobs, jobs', now, lease, base)
  {
    var id :| IsNext(jobs, id, now)
      && jobs' == jobs[id := AfterRun(jobs[id], now, lease, base, OutcomeOf(handlers, Claimed(jobs[id], now, lease)))]
      && Reports(report, handlers, jobs'[id]);
    var outcome := OutcomeOf(handlers, Claimed(jobs[id], now, lease));
    assert jobs' == jobs[id := AfterRun(jobs[id], now, lease, base, outcome)];
  }

  /** One non-idle turn of the runner, whatever the handler does. */
  ghost predicate Ran(jobs: Jobs, jobs': Jobs, now: real, lease: real, base: real) {
    exists id, outcome :: IsNext(jobs, id, now) && jobs' == jobs[id := AfterRun(jobs[id], now, lease, base, outcome)]
  }
}
