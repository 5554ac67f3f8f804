/**
 The Redis keys behind the job queue, and the single commands the queue issues against them.
 Each command is atomic; everything between two commands can interleave.
 */
module RedisStore {
  import opened Wrappers
  import opened Jobs

  datatype StatusRecord = StatusRecord(status: JobStatus, typ: JobType, shortCode: string, urlId: string, error: Option<string>)

  datatype Metric = Enqueued | Dequeued | CompletedCount | Retried | DeadLettered

  datatype Metrics = Metrics(enqueued: nat, dequeued: nat, completed: nat, retried: nat, deadLettered: nat)

  /**
   `ready` is the union of the per-type sorted sets: a member is always stored under the key of
   the type it carries. `dead` is the dead-letter list, newest first.
   */
  datatype Store = Store(
    ready: map<Job, real>,
    delayed: map<Job, real>,
    dead: seq<Job>,
    status: map<nat, StatusRecord>,
    metrics: Metrics
  )

  const EMPTY := Store(map[], map[], [], map[], Metrics(0, 0, 0, 0, 0))

  datatype Cmd =
    | Nop
    | SetStatus(job: Job, status: JobStatus, error: Option<string>)
    | AddReady(job: Job, score: real)
    | AddDelayed(job: Job, score: real)
    | PopReady(job: Job)
    | RemDelayed(job: Job)
    | PushDead(job: Job)
    | Incr(metric: Metric)

  /** HSET overwrites the listed fields; an error written earlier stays unless a new one is given. */
  function WriteStatus(m: map<nat, StatusRecord>, job: Job, status: JobStatus, error: Option<string>): map<nat, StatusRecord> {
    var kept := if error.None? && job.id in m then m[job.id].error else error;
    m[job.id := StatusRecord(status, job.typ, job.payload.shortCode, job.payload.urlId, kept)]
  }

  function Bump(m: Metrics, field: Metric): Metrics {
    match field
    case Enqueued => m.(enqueued := m.enqueued + 1)
    case Dequeued => m.(dequeued := m.dequeued + 1)
    case CompletedCount => m.(completed := m.completed + 1)
    case Retried => m.(retried := m.retried + 1)
    case DeadLettered => m.(deadLettered := m.deadLettered + 1)
  }

  /** The effect of one command. Adding a present member only moves its score; removing an absent one does nothing. */
  function Apply(c: Cmd, s: Store): Store {
    match c
    case Nop => s
    case SetStatus(job, status, error) => s.(status := WriteStatus(s.status, job, status, error))
    case AddReady(job, score) => s.(ready := s.ready[job := score])
    case AddDelayed(job, score) => s.(delayed := s.delayed[job := score])
    case PopReady(job) => s.(ready := s.ready - {job})
    case RemDelayed(job) => s.(delayed := s.delayed - {job})
    case PushDead(job) => s.(dead := [job] + s.dead)
    case Incr(field) => s.(metrics := Bump(s.metrics, field))
  }

  /** Lower score is served first: the priority's rank, then the time of adding in units of 10^-12. */
  function ReadyScore(p: JobPriority, now: real): real {
    p.Rank() as real + now / 1000000000000.0
  }

  /** Exponential backoff in seconds: min(300, 2^attempts * 5). */
  function Backoff(attempts: nat): nat {
    var d := Pow2(attempts) * 5;
    if d < 300 then d else 300
  }

  function Pow2(n: nat): nat {
    if n == 0 then 1 else 2 * Pow2(n - 1)
  }

  /** The job as `fail` leaves it: one more attempt, and the error cut to 500 characters. */
  function AfterFailure(job: Job, error: string): Job {
    job.(attempts := job.attempts + 1, lastError := if |error| <= 500 then error else error[..500])
  }

  /** An empty error text is not written to the status. */
  function ErrorField(error: string): Option<string> {
    if error == "" then None else Some(error)
  }

  function NewJob(id: nat, spec: Spec): Job {
    Job(id, spec.typ, spec.payload, 0, spec.priority, "")
  }

  /** ZPOPMIN's choice among the members of one type's sorted set. */
  ghost predicate FirstReady(s: Store, job: Job) {
    && job in s.ready
    && forall k :: k in s.ready && k.typ == job.typ ==> s.ready[job] <= s.ready[k]
  }

  /** ZRANGEBYSCORE -inf now LIMIT 0 1 on the delayed set. */
  ghost predicate FirstDue(s: Store, job: Job, now: real) {
    && job in s.delayed
    && s.delayed[job] <= now
    && forall k :: k in s.delayed ==> s.delayed[job] <= s.delayed[k]
  }
}
