/**
 The job protocol as a state machine. Coroutines (request handlers, consumers, promoters) hold
 jobs "in hand" between Redis commands; one step of one coroutine issues one command. Coroutines
 interleave freely between steps.
 */
module Protocol {
  import opened Wrappers
  import opened Jobs
  import opened RedisStore

  /**
   Where a coroutine stands. `parent` is the job whose handler is publishing, or None for a
   publisher outside the workers; `todo` are the enqueue calls still to make.
   */
  datatype Pc =
    | Publishing(parent: Option<Job>, todo: seq<Spec>)
    | EnqAdd(parent: Option<Job>, todo: seq<Spec>, child: Job, delay: nat)
    | EnqLate(parent: Option<Job>, todo: seq<Spec>, child: Job)
    | EnqCount(parent: Option<Job>, todo: seq<Spec>)
    | DeqStatus(job: Job)
    | DeqCount(job: Job)
    | Dispatch(job: Job)
    | DoneCount(job: Job)
    | RetryStatus(job: Job)
    | RetryCount(job: Job)
    | DeadStatus(job: Job)
    | DeadCount(job: Job)
    | PromRem(job: Job)
    | PromAdd(job: Job)

  /** What a step does: one command, where the coroutine stands next (None: it ends), and jobs finished by it. */
  datatype Move = Move(cmd: Cmd, next: Option<Pc>, finished: seq<Job>)

  /**
   The whole system. `issued`, `completed`, `runs`, `firstFail`, `lastFail` and `addedAt` are
   history: which ids were handed out, which jobs completed, how many handler runs were started,
   when each id first and last failed, and when each ready member was added.
   */
  datatype Sys = Sys(
    store: Store,
    threads: map<nat, Pc>,
    clock: real,
    issued: set<nat>,
    completed: seq<Job>,
    runs: nat,
    firstFail: map<nat, real>,
    lastFail: map<nat, real>,
    addedAt: map<Job, real>
  )

  /** `solo`: a single promoter coroutine. `maxExpired`: bound on the rows one cleanup run finds. */
  datatype Config = Config(solo: bool, maxExpired: nat)

  datatype Action =
    | Client(t: nat, todo: seq<Spec>)
    | Pop(t: nat, job: Job)
    | Read(t: nat, job: Job)
    | Start(t: nat, events: seq<Event>)
    | Raise(t: nat, error: string)
    | Go(t: nat, id: nat)
    | Tick(now: real)

  ghost predicate Init(s: Sys) {
    && s.store == EMPTY && s.threads == map[] && s.clock >= 0.0 && s.issued == {} && s.completed == []
    && s.runs == 0 && s.firstFail == map[] && s.lastFail == map[] && s.addedAt == map[]
  }

  predicate Promoting(pc: Pc) {
    pc.PromRem? || pc.PromAdd?
  }

  ghost predicate Enabled(c: Config, s: Sys, a: Action) {
    match a
    case Client(t, todo) => t !in s.threads && forall spec :: spec in todo ==> HasWorker(spec.typ)
    case Pop(t, job) => t !in s.threads && FirstReady(s.store, job) && HasWorker(job.typ)
    case Read(t, job) =>
      && t !in s.threads && FirstDue(s.store, job, s.clock)
      && (c.solo ==> forall u :: u in s.threads ==> !Promoting(s.threads[u]))
    case Start(t, events) =>
      t in s.threads && s.threads[t].Dispatch? && HandlerPublishes(s.threads[t].job.typ, events, c.maxExpired)
    case Raise(t, _) =>
      && t in s.threads && s.threads[t].Publishing? && s.threads[t].parent.Some?
      && HasHandler(s.threads[t].parent.value.typ)
    case Go(t, id) =>
      && t in s.threads && !s.threads[t].Dispatch?
      && (s.threads[t].Publishing? && s.threads[t].todo != [] ==> id !in s.issued)
    case Tick(now) => now >= s.clock
  }

  /** `enqueue` one command at a time: status, add, (second status when delayed), metric. */
  function PublishMove(pc: Pc, now: real, id: nat): Move
    requires pc.Publishing? || pc.EnqAdd? || pc.EnqLate? || pc.EnqCount?
  {
    match pc
    case Publishing(parent, todo) =>
      if todo != [] then
        var child := NewJob(id, todo[0]);
        Move(SetStatus(child, Pending, None), Some(EnqAdd(parent, todo[1..], child, todo[0].delay)), [])
      else if parent.None? then Move(Nop, None, [])
      else Move(SetStatus(parent.value, Completed, None), Some(DoneCount(parent.value)), [])
    case EnqAdd(parent, todo, child, delay) =>
      if delay > 0 then Move(AddDelayed(child, now + delay as real), Some(EnqLate(parent, todo, child)), [])
      else Move(AddReady(child, ReadyScore(child.priority, now)), Some(EnqCount(parent, todo)), [])
    case EnqLate(parent, todo, child) =>
      Move(SetStatus(child, Retrying, None), Some(EnqCount(parent, todo)), [])
    case EnqCount(parent, todo) =>
      Move(Incr(Enqueued), Some(Publishing(parent, todo)), [])
  }

  /** The command a coroutine issues next when nothing goes wrong. */
  function GoMove(pc: Pc, now: real, id: nat): Move
    requires !pc.Dispatch?
  {
    match pc
    case DeqStatus(job) => Move(SetStatus(job, Running, None), Some(DeqCount(job)), [])
    case DeqCount(job) => Move(Incr(Dequeued), Some(Dispatch(job)), [])
    case DoneCount(job) => Move(Incr(CompletedCount), None, [job])
    case RetryStatus(job) => Move(SetStatus(job, Retrying, ErrorField(job.lastError)), Some(RetryCount(job)), [])
    case RetryCount(job) => Move(Incr(Retried), None, [])
    case DeadStatus(job) => Move(SetStatus(job, Failed, ErrorField(job.lastError)), Some(DeadCount(job)), [])
    case DeadCount(job) => Move(Incr(DeadLettered), None, [])
    case PromRem(job) => Move(RemDelayed(job), Some(PromAdd(job)), [])
    case PromAdd(job) => Move(AddReady(job, ReadyScore(job.priority, now)), None, [])
    case Publishing(_, _) => PublishMove(pc, now, id)
    case EnqAdd(_, _, _, _) => PublishMove(pc, now, id)
    case EnqLate(_, _, _) => PublishMove(pc, now, id)
    case EnqCount(_, _) => PublishMove(pc, now, id)
  }

  /** `fail`: dead-letter on the fifth failure, otherwise delay by the backoff. */
  function FailMove(job: Job, error: string, now: real): Move {
    var failed := AfterFailure(job, error);
    if failed.attempts >= MAX_ATTEMPTS then Move(PushDead(failed), Some(DeadStatus(failed)), [])
    else Move(AddDelayed(failed, now + Backoff(failed.attempts) as real), Some(RetryStatus(failed)), [])
  }

  function MoveOf(s: Sys, a: Action): Move
    requires !a.Tick?
    requires a.Start? ==> a.t in s.threads && s.threads[a.t].Dispatch?
    requires a.Raise? ==> a.t in s.threads && s.threads[a.t].Publishing? && s.threads[a.t].parent.Some?
    requires a.Go? ==> a.t in s.threads && !s.threads[a.t].Dispatch?
  {
    match a
    case Client(_, todo) => Move(Nop, Some(Publishing(None, todo)), [])
    case Pop(_, job) => Move(PopReady(job), Some(DeqStatus(job)), [])
    case Read(_, job) => Move(Nop, Some(PromRem(job)), [])
    case Start(t, events) => Move(Nop, Some(Publishing(Some(s.threads[t].job), Published(events))), [])
    case Raise(t, error) => FailMove(s.threads[t].parent.value, error, s.clock)
    case Go(t, id) => GoMove(s.threads[t], s.clock, id)
  }

  function Put(threads: map<nat, Pc>, t: nat, next: Option<Pc>): map<nat, Pc> {
    match next
    case None => threads - {t}
    case Some(pc) => threads[t := pc]
  }

  function Take(s: Sys, t: nat, m: Move): Sys {
    s.(store := Apply(m.cmd, s.store), threads := Put(s.threads, t, m.next), completed := s.completed + m.finished)
  }

  /** The history kept beside the real state. */
  function Note(s: Sys, a: Action, m: Move): Sys
    requires a.Raise? ==> a.t in s.threads && s.threads[a.t].Publishing? && s.threads[a.t].parent.Some?
  {
    var s := if m.cmd.AddReady? then s.(addedAt := s.addedAt[m.cmd.job := s.clock]) else s;
    match a
    case Start(_, _) => s.(runs := s.runs + 1)
    case Go(_, id) => if m.next.Some? && m.next.value.EnqAdd? then s.(issued := s.issued + {id}) else s
    case Raise(t, _) =>
      var id := s.threads[t].parent.value.id;
      s.(lastFail := s.lastFail[id := s.clock],
         firstFail := if id in s.firstFail then s.firstFail else s.firstFail[id := s.clock])
    case _ => s
  }

  function Next(c: Config, s: Sys, a: Action): Sys
    requires Enabled(c, s, a)
  {
    if a.Tick? then s.(clock := a.now)
    else var m := MoveOf(s, a); Take(Note(s, a, m), a.t, m)
  }

  /** The real state after a step; history aside. */
  lemma NextState(c: Config, s: Sys, a: Action)
    requires Enabled(c, s, a) && !a.Tick?
    ensures var m, s' := MoveOf(s, a), Next(c, s, a);
            && s'.store == Apply(m.cmd, s.store)
            && s'.threads == Put(s.threads, a.t, m.next)
            && s'.completed == s.completed + m.finished
            && s'.clock == s.clock
  {
  }

  /** What left a queue is in the coroutine's hand. */
  ghost predicate HandsOn(m: Move) {
    && (m.cmd.PopReady? ==> m.next == Some(DeqStatus(m.cmd.job)))
    && (m.cmd.RemDelayed? ==> m.next == Some(PromAdd(m.cmd.job)))
  }

  lemma MoveShape(c: Config, s: Sys, a: Action)
    requires Enabled(c, s, a) && !a.Tick?
    ensures HandsOn(MoveOf(s, a)) && |MoveOf(s, a).finished| <= 1
  {
  }

  /** A run: the actions are enabled one after the other, `End` is where they lead. */
  ghost predicate Runs(c: Config, s: Sys, acts: seq<Action>)
    decreases |acts|
  {
    acts == [] || (Enabled(c, s, acts[0]) && Runs(c, Next(c, s, acts[0]), acts[1..]))
  }

  ghost function End(c: Config, s: Sys, acts: seq<Action>): Sys
    requires Runs(c, s, acts)
    decreases |acts|
  {
    if acts == [] then s else End(c, Next(c, s, acts[0]), acts[1..])
  }

  /** No enqueue from outside: only what is already in the system moves. */
  ghost predicate Closed(acts: seq<Action>) {
    forall a :: a in acts ==> !a.Client?
  }

  /** The number of steps that issue a command. */
  function Steps(acts: seq<Action>): nat {
    if acts == [] then 0 else (if acts[0].Tick? then 0 else 1) + Steps(acts[1..])
  }
}
