/**
 The job-event-job cascade. Every job carries a budget of handler runs (its own retries, the copies
 that k promoters can make of each retry, and for every run the jobs its handler can spawn) and a
 budget of steps.
 */
module Cascade {
  import opened Wrappers
  import opened Jobs
  import opened RedisStore
  import opened Protocol

  // ----- jobs stay retryable and served

  predicate SoundJob(job: Job) {
    job.attempts < MAX_ATTEMPTS && HasWorker(job.typ)
  }

  predicate SoundParent(parent: Option<Job>) {
    parent.Some? ==> SoundJob(parent.value)
  }

  predicate SoundTodo(todo: seq<Spec>) {
    forall spec :: spec in todo ==> HasWorker(spec.typ)
  }

  /** What a coroutine can still put back into a queue is retryable and has a worker. */
  predicate SoundPc(pc: Pc) {
    match pc
    case Publishing(parent, todo) => SoundParent(parent) && SoundTodo(todo)
    case EnqAdd(parent, todo, child, _) => SoundParent(parent) && SoundTodo(todo) && SoundJob(child)
    case EnqLate(parent, todo, _) => SoundParent(parent) && SoundTodo(todo)
    case EnqCount(parent, todo) => SoundParent(parent) && SoundTodo(todo)
    case DeqStatus(job) => SoundJob(job)
    case DeqCount(job) => SoundJob(job)
    case Dispatch(job) => SoundJob(job)
    case PromRem(job) => SoundJob(job)
    case PromAdd(job) => SoundJob(job)
    case DoneCount(_) => true
    case RetryStatus(_) => true
    case RetryCount(_) => true
    case DeadStatus(_) => true
    case DeadCount(_) => true
  }

  predicate SoundCmd(c: Cmd) {
    c.AddReady? || c.AddDelayed? ==> SoundJob(c.job)
  }

  ghost predicate SoundQueues(s: Store) {
    forall j :: j in s.ready || j in s.delayed ==> SoundJob(j)
  }

  ghost predicate SoundThreads(threads: map<nat, Pc>) {
    forall t :: t in threads ==> SoundPc(threads[t])
  }

  ghost predicate Sound(s: Sys) {
    SoundQueues(s.store) && SoundThreads(s.threads)
  }

  predicate SoundMove(m: Move) {
    SoundCmd(m.cmd) && (m.next.Some? ==> SoundPc(m.next.value))
  }

  lemma GoSound(pc: Pc, now: real, id: nat)
    requires !pc.Dispatch? && SoundPc(pc)
    ensures SoundMove(GoMove(pc, now, id))
  {
    if pc.Publishing? && pc.todo != [] {
      assert pc.todo[0] in pc.todo;
    }
  }

  lemma FailSound(job: Job, error: string, now: real)
    requires SoundJob(job)
    ensures SoundMove(FailMove(job, error, now))
  {
  }

  lemma StepMoveSound(c: Config, s: Sys, a: Action)
    requires Sound(s) && Enabled(c, s, a) && !a.Tick?
    ensures SoundMove(MoveOf(s, a))
  {
    match a
    case Go(t, id) => GoSound(s.threads[t], s.clock, id);
    case Raise(t, error) => FailSound(s.threads[t].parent.value, error, s.clock);
    case Start(_, events) => PublishedJobsHaveWorkers(events);
    case _ =>
  }

  lemma CmdKeepsSound(s: Store, c: Cmd)
    requires SoundQueues(s) && SoundCmd(c)
    ensures SoundQueues(Apply(c, s))
  {
    var s' := Apply(c, s);
    assert forall j :: j in s'.ready ==> j in s.ready || (c.AddReady? && j == c.job);
    assert forall j :: j in s'.delayed ==> j in s.delayed || (c.AddDelayed? && j == c.job);
  }

  lemma PutKeepsSound(threads: map<nat, Pc>, t: nat, next: Option<Pc>)
    requires SoundThreads(threads) && (next.Some? ==> SoundPc(next.value))
    ensures SoundThreads(Put(threads, t, next))
  {
  }

  lemma StepKeepsSound(c: Config, s: Sys, a: Action)
    requires Sound(s) && Enabled(c, s, a)
    ensures Sound(Next(c, s, a))
  {
    if !a.Tick? {
      StepMoveSound(c, s, a);
      NextState(c, s, a);
      CmdKeepsSound(s.store, MoveOf(s, a).cmd);
      PutKeepsSound(s.threads, a.t, MoveOf(s, a).next);
    }
  }

  // ----- what one job can still cause, with k promoters

  function Copies(k: nat, x: nat): nat {
    k * x
  }

  /** Handler runs of a job that spawns nothing: its own, and those of each of the k copies of its retry. */
  function LeafRuns(attempts: nat, k: nat): nat
    decreases MAX_ATTEMPTS - attempts
  {
    if attempts >= MAX_ATTEMPTS then 0 else 1 + Copies(k, LeafRuns(attempts + 1, k))
  }

  /** Handler runs one run of this type can cause further down: HEALTH_CHECK, or INVALIDATE_CACHE per expired row. */
  function SpawnedRuns(t: JobType, n: nat, k: nat): nat {
    if t.InitHealth? then LeafRuns(0, k) else if t.ExpiredCleanup? then Copies(n, LeafRuns(0, k)) else 0
  }

  /** Handler runs a queued job can still cause, its retries' copies and what they spawn included. */
  function RunsLeft(t: JobType, attempts: nat, n: nat, k: nat): nat
    decreases MAX_ATTEMPTS - attempts
  {
    if attempts >= MAX_ATTEMPTS then 0 else 1 + SpawnedRuns(t, n, k) + Copies(k, RunsLeft(t, attempts + 1, n, k))
  }

  /** Steps of a ready job that spawns nothing; three more for each promotion of its retry. */
  function LeafWork(attempts: nat, k: nat): nat
    decreases MAX_ATTEMPTS - attempts
  {
    if attempts + 1 >= MAX_ATTEMPTS then 7 else 7 + Copies(k, LeafWork(attempts + 1, k) + 3)
  }

  /** Three steps to enqueue a job beside its own. */
  function SpawnedWork(t: JobType, n: nat, k: nat): nat {
    if t.InitHealth? then 3 + LeafWork(0, k) else if t.ExpiredCleanup? then Copies(n, 3 + LeafWork(0, k)) else 0
  }

  function WorkLeft(t: JobType, attempts: nat, n: nat, k: nat): nat
    decreases MAX_ATTEMPTS - attempts
  {
    if attempts + 1 >= MAX_ATTEMPTS then 7 + SpawnedWork(t, n, k)
    else 7 + SpawnedWork(t, n, k) + Copies(k, WorkLeft(t, attempts + 1, n, k) + 3)
  }

  /** A delayed enqueue reaches the ready set in up to k copies. */
  function SpecRuns(spec: Spec, n: nat, k: nat): nat {
    if spec.delay > 0 then Copies(k, RunsLeft(spec.typ, 0, n, k)) else RunsLeft(spec.typ, 0, n, k)
  }

  function SpecWork(spec: Spec, n: nat, k: nat): nat {
    if spec.delay > 0 then 4 + Copies(k, WorkLeft(spec.typ, 0, n, k) + 3) else 3 + WorkLeft(spec.typ, 0, n, k)
  }

  function TodoRuns(todo: seq<Spec>, n: nat, k: nat): nat {
    if todo == [] then 0 else SpecRuns(todo[0], n, k) + TodoRuns(todo[1..], n, k)
  }

  function TodoWork(todo: seq<Spec>, n: nat, k: nat): nat {
    if todo == [] then 0 else SpecWork(todo[0], n, k) + TodoWork(todo[1..], n, k)
  }

  lemma {:induction false} TodoConcat(a: seq<Spec>, b: seq<Spec>, n: nat, k: nat)
    ensures TodoRuns(a + b, n, k) == TodoRuns(a, n, k) + TodoRuns(b, n, k)
    ensures TodoWork(a + b, n, k) == TodoWork(a, n, k) + TodoWork(b, n, k)
  {
    if a == [] {
      assert a + b == b;
    } else {
      assert (a + b)[1..] == a[1..] + b;
      TodoConcat(a[1..], b, n, k);
    }
  }

  /** Spawning multiplies every run of the job itself. */
  lemma {:induction false} RunsFactor(t: JobType, attempts: nat, n: nat, k: nat)
    ensures RunsLeft(t, attempts, n, k) == (1 + SpawnedRuns(t, n, k)) * LeafRuns(attempts, k)
    decreases MAX_ATTEMPTS - attempts
  {
    if attempts < MAX_ATTEMPTS {
      RunsFactor(t, attempts + 1, n, k);
      Distribute(1 + SpawnedRuns(t, n, k), k, LeafRuns(attempts + 1, k));
    }
  }

  lemma Distribute(f: nat, k: nat, l: nat)
    ensures f + Copies(k, f * l) == f * (1 + Copies(k, l))
  {
  }

  lemma {:induction false} LeafWorkLeft(t: JobType, attempts: nat, n: nat, k: nat)
    requires SpawnedWork(t, n, k) == 0
    ensures WorkLeft(t, attempts, n, k) == LeafWork(attempts, k)
    decreases MAX_ATTEMPTS - attempts
  {
    if attempts + 1 < MAX_ATTEMPTS { LeafWorkLeft(t, attempts + 1, n, k); }
  }

  predicate IsLeaf(t: JobType) {
    !t.InitHealth? && !t.ExpiredCleanup?
  }

  lemma SingleSpec(t: JobType, p: JobPriority, payload: Payload, n: nat, k: nat)
    requires IsLeaf(t)
    ensures TodoRuns(SpecsFor([(t, p)], payload), n, k) == LeafRuns(0, k)
    ensures TodoWork(SpecsFor([(t, p)], payload), n, k) == 3 + LeafWork(0, k)
  {
    var specs := SpecsFor([(t, p)], payload);
    assert specs[1..] == [];
    RunsFactor(t, 0, n, k);
    LeafWorkLeft(t, 0, n, k);
  }

  lemma {:induction false} ExpiredEvents(events: seq<Event>, n: nat, k: nat)
    requires forall e :: e in events ==> e.typ == LinkExpired
    ensures TodoRuns(Published(events), n, k) == Copies(|events|, LeafRuns(0, k))
    ensures TodoWork(Published(events), n, k) == Copies(|events|, 3 + LeafWork(0, k))
  {
    if events != [] {
      assert events[0] in events;
      ExpiredEvents(events[1..], n, k);
      PublishedExpired(events);
      OneExpired(Published(events), n, k);
      OneCopyMore(|events| - 1, LeafRuns(0, k));
      OneCopyMore(|events| - 1, 3 + LeafWork(0, k));
    }
  }

  lemma PublishedExpired(events: seq<Event>)
    requires events != [] && events[0].typ == LinkExpired
    ensures Published(events) != [] && Published(events)[1..] == Published(events[1..])
    ensures Published(events)[0] == Spec(InvalidateCache, High, 0, events[0].payload)
  {
  }

  lemma OneExpired(todo: seq<Spec>, n: nat, k: nat)
    requires todo != [] && todo[0].typ == InvalidateCache && todo[0].delay == 0
    ensures TodoRuns(todo, n, k) == LeafRuns(0, k) + TodoRuns(todo[1..], n, k)
    ensures TodoWork(todo, n, k) == 3 + LeafWork(0, k) + TodoWork(todo[1..], n, k)
  {
    RunsFactor(InvalidateCache, 0, n, k);
    LeafWorkLeft(InvalidateCache, 0, n, k);
  }

  lemma OneCopyMore(m: nat, x: nat)
    ensures Copies(m + 1, x) == Copies(m, x) + x
  {
  }

  /** Events that fire nothing publish nothing. */
  lemma {:induction false} SilentEvents(events: seq<Event>)
    requires forall e :: e in events ==> EventJobs(e.typ) == []
    ensures Published(events) == []
  {
    if events != [] {
      assert events[0] in events;
      SilentEvents(events[1..]);
    }
  }

  lemma {:induction false} TypesAt(events: seq<Event>)
    ensures forall i :: 0 <= i < |events| ==> Types(events)[i] == events[i].typ
  {
    if events != [] {
      TypesAt(events[1..]);
    }
  }

  /** Handlers other than INIT_HEALTH and EXPIRED_CLEANUP publish only events that fire no job. */
  lemma QuietHandlers(t: JobType, events: seq<Event>, n: nat)
    requires HandlerPublishes(t, events, n) && !t.InitHealth? && !t.ExpiredCleanup?
    ensures Published(events) == []
  {
    TypesAt(events);
    forall e | e in events ensures EventJobs(e.typ) == [] {
      var i :| 0 <= i < |events| && events[i] == e;
      assert e.typ == Types(events)[i];
    }
    SilentEvents(events);
  }

  lemma Within(x: nat, m: nat, n: nat, l: nat)
    requires x == Copies(m, l) && m <= n
    ensures x <= Copies(n, l)
  {
  }

  /** What one handler run publishes stays within what its type's budget sets aside for spawning. */
  lemma HandlerWithinBudget(t: JobType, events: seq<Event>, n: nat, k: nat)
    requires HandlerPublishes(t, events, n)
    ensures TodoRuns(Published(events), n, k) <= SpawnedRuns(t, n, k)
    ensures TodoWork(Published(events), n, k) <= SpawnedWork(t, n, k)
  {
    if t.ExpiredCleanup? {
      ExpiredEvents(events, n, k);
      CleanupWithinBudget(events, n, k, LeafRuns(0, k), 3 + LeafWork(0, k));
    } else if t.InitHealth? {
      StartedEvent(events, n, k);
    } else {
      QuietHandlers(t, events, n);
    }
  }

  lemma CleanupWithinBudget(events: seq<Event>, n: nat, k: nat, l: nat, w: nat)
    requires |events| <= n && TodoRuns(Published(events), n, k) == Copies(|events|, l) && TodoWork(Published(events), n, k) == Copies(|events|, w)
    ensures TodoRuns(Published(events), n, k) <= Copies(n, l)
    ensures TodoWork(Published(events), n, k) <= Copies(n, w)
  {
    Within(TodoRuns(Published(events), n, k), |events|, n, l);
    Within(TodoWork(Published(events), n, k), |events|, n, w);
  }

  lemma StartedEvent(events: seq<Event>, n: nat, k: nat)
    requires Types(events) == [HealthCheckStarted]
    ensures TodoRuns(Published(events), n, k) == LeafRuns(0, k)
    ensures TodoWork(Published(events), n, k) == 3 + LeafWork(0, k)
  {
    TypesAt(events);
    SingleSpec(HealthCheck, High, events[0].payload, n, k);
    assert events[1..] == [] && Published(events[1..]) == [];
    assert Published(events) == SpecsFor([(HealthCheck, High)], events[0].payload) + [];
  }
}
