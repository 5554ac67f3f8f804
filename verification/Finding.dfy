/**
 Runs of any number of promoters in which every removal finds its member. A promoter may still have
 read a job that another one has promoted since; what it read is then behind the job's real copy.
 */
module Finding {
  import opened Wrappers
  import opened Jobs
  import opened RedisStore
  import opened Protocol
  import opened Conservation
  import opened NoLoss
  import opened Gauges

  ghost predicate FindsRun(c: Config, s: Sys, acts: seq<Action>)
    requires Runs(c, s, acts)
    decreases |acts|
  {
    acts == [] || (Finds(c, s, acts[0]) && FindsRun(c, Next(c, s, acts[0]), acts[1..]))
  }

  /** What is held of this id has had at least as many attempts, and was not enqueued just now. */
  predicate BeyondParent(parent: Option<Job>, job: Job) {
    parent.Some? && parent.value.id == job.id ==> parent.value.attempts >= job.attempts
  }

  predicate BeyondJob(held: Job, job: Job) {
    held.id == job.id ==> held.attempts >= job.attempts
  }

  predicate Beyond(pc: Pc, job: Job) {
    match pc
    case Publishing(parent, _) => BeyondParent(parent, job)
    case EnqAdd(parent, _, child, _) => BeyondParent(parent, job) && child.id != job.id
    case EnqLate(parent, _, _) => BeyondParent(parent, job)
    case EnqCount(parent, _) => BeyondParent(parent, job)
    case DeqStatus(held) => BeyondJob(held, job)
    case DeqCount(held) => BeyondJob(held, job)
    case Dispatch(held) => BeyondJob(held, job)
    case PromAdd(held) => BeyondJob(held, job)
    case DoneCount(_) => true
    case RetryStatus(_) => true
    case RetryCount(_) => true
    case DeadStatus(_) => true
    case DeadCount(_) => true
    case PromRem(_) => true
  }

  /** The job left the delayed set as it was read, and has come back, if at all, with more attempts. */
  ghost predicate Overtaken(s: Sys, job: Job) {
    && job.id in s.issued
    && (forall r :: r in s.store.ready && r.id == job.id ==> r.attempts >= job.attempts)
    && (forall d :: d in s.store.delayed && d.id == job.id ==> d.attempts > job.attempts)
    && (forall u :: u in s.threads ==> Beyond(s.threads[u], job))
  }

  /** What a promoter has read is still there, or is overtaken. */
  ghost predicate Behind(s: Sys) {
    forall t :: t in s.threads && s.threads[t].PromRem? ==>
      s.threads[t].job in s.store.delayed || Overtaken(s, s.threads[t].job)
  }

  ghost predicate Found(s: Sys) {
    Accounted(s) && Behind(s)
  }

  /** The step that takes the job out leaves it in its promoter's hand, and nowhere else. */
  lemma RemovedIsOvertaken(c: Config, s: Sys, a: Action, job: Job)
    requires Accounted(s) && Enabled(c, s, a) && !a.Tick? && job in s.store.delayed && MoveOf(s, a).cmd == RemDelayed(job)
    ensures Overtaken(Next(c, s, a), job)
  {
    DelayedAlone(s, job);
    NextState(c, s, a);
    MoveShape(c, s, a);
    IssuedGrows(c, s, a);
    var s' := Next(c, s, a);
    forall u | u in s'.threads ensures Beyond(s'.threads[u], job) {
      if u != a.t { NotHeldIsBeyond(s.threads[u], job); }
    }
  }

  lemma NotHeldIsBeyond(pc: Pc, job: Job)
    requires Held(job.id, pc) == 0
    ensures Beyond(pc, job)
  {
  }

  lemma IssuedGrows(c: Config, s: Sys, a: Action)
    requires Enabled(c, s, a)
    ensures s.issued <= Next(c, s, a).issued
  {
  }

  /** How a move treats what is beyond a job read earlier. */
  predicate MovesBeyond(m: Move, job: Job) {
    && (m.cmd.AddReady? ==> BeyondJob(m.cmd.job, job))
    && (m.cmd.AddDelayed? && m.cmd.job.id == job.id ==> m.cmd.job.attempts > job.attempts)
    && (m.next.Some? ==> Beyond(m.next.value, job))
  }

  lemma GoMovesBeyond(pc: Pc, now: real, id: nat, job: Job)
    requires !pc.Dispatch? && Beyond(pc, job)
    requires pc.Publishing? && pc.todo != [] ==> id != job.id
    requires pc.PromRem? ==> BeyondJob(pc.job, job)
    ensures MovesBeyond(GoMove(pc, now, id), job)
  {
  }

  lemma FailMovesBeyond(held: Job, error: string, now: real, job: Job)
    requires BeyondJob(held, job)
    ensures MovesBeyond(FailMove(held, error, now), job)
  {
  }

  lemma StepMovesBeyond(c: Config, s: Sys, a: Action, job: Job)
    requires Enabled(c, s, a) && !a.Tick? && Finds(c, s, a) && Overtaken(s, job)
    ensures MovesBeyond(MoveOf(s, a), job)
  {
    match a
    case Go(t, id) =>
      assert Beyond(s.threads[t], job);
      GoMovesBeyond(s.threads[t], s.clock, id, job);
    case Raise(t, error) =>
      assert Beyond(s.threads[t], job);
      FailMovesBeyond(s.threads[t].parent.value, error, s.clock, job);
    case Start(t, _) => assert Beyond(s.threads[t], job);
    case Pop(_, popped) =>
    case Read(_, _) =>
    case Client(_, _) =>
  }

  lemma StoreStaysBeyond(s: Store, cmd: Cmd, job: Job)
    requires cmd.AddReady? ==> BeyondJob(cmd.job, job)
    requires cmd.AddDelayed? && cmd.job.id == job.id ==> cmd.job.attempts > job.attempts
    requires forall r :: r in s.ready && r.id == job.id ==> r.attempts >= job.attempts
    requires forall d :: d in s.delayed && d.id == job.id ==> d.attempts > job.attempts
    ensures forall r :: r in Apply(cmd, s).ready && r.id == job.id ==> r.attempts >= job.attempts
    ensures forall d :: d in Apply(cmd, s).delayed && d.id == job.id ==> d.attempts > job.attempts
  {
  }

  lemma OvertakenStays(c: Config, s: Sys, a: Action, job: Job)
    requires Enabled(c, s, a) && !a.Tick? && Finds(c, s, a) && Overtaken(s, job)
    ensures Overtaken(Next(c, s, a), job)
  {
    NextState(c, s, a);
    IssuedGrows(c, s, a);
    StepMovesBeyond(c, s, a, job);
    StoreStaysBeyond(s.store, MoveOf(s, a).cmd, job);
    var s' := Next(c, s, a);
    forall u | u in s'.threads ensures Beyond(s'.threads[u], job) {
      if u != a.t { assert s'.threads[u] == s.threads[u]; }
    }
  }

  /** A promoter that has read keeps waiting, or it is the one that moves. */
  lemma StillReading(c: Config, s: Sys, a: Action, u: nat)
    requires Enabled(c, s, a) && !a.Tick? && u in Next(c, s, a).threads && Next(c, s, a).threads[u].PromRem?
    ensures (u in s.threads && s.threads[u] == Next(c, s, a).threads[u])
            || (a == Read(u, Next(c, s, a).threads[u].job) && Next(c, s, a).store == s.store && a.job in s.store.delayed)
  {
    NextState(c, s, a);
    PromotionMoves(c, s, a);
  }

  lemma DelayedLeaves(s: Store, cmd: Cmd, job: Job)
    requires job in s.delayed && job !in Apply(cmd, s).delayed
    ensures cmd == RemDelayed(job)
  {
  }

  lemma StepKeepsBehind(c: Config, s: Sys, a: Action)
    requires Found(s) && Enabled(c, s, a) && Finds(c, s, a)
    ensures Behind(Next(c, s, a))
  {
    var s' := Next(c, s, a);
    if a.Tick? {
      TickKeepsBehind(c, s, a);
    } else {
      forall u | u in s'.threads && s'.threads[u].PromRem?
        ensures s'.threads[u].job in s'.store.delayed || Overtaken(s', s'.threads[u].job)
      {
        ReaderStaysBehind(c, s, a, u);
      }
    }
  }

  lemma TickKeepsBehind(c: Config, s: Sys, a: Action)
    requires Behind(s) && a.Tick? && Enabled(c, s, a)
    ensures Behind(Next(c, s, a))
  {
    var s' := Next(c, s, a);
    assert s'.threads == s.threads && s'.store == s.store && s'.issued == s.issued;
    forall u | u in s'.threads && s'.threads[u].PromRem?
      ensures s'.threads[u].job in s'.store.delayed || Overtaken(s', s'.threads[u].job)
    {
      assert s.threads[u].job in s.store.delayed || Overtaken(s, s.threads[u].job);
    }
  }

  lemma ReaderStaysBehind(c: Config, s: Sys, a: Action, u: nat)
    requires Found(s) && Enabled(c, s, a) && !a.Tick? && Finds(c, s, a)
    requires u in Next(c, s, a).threads && Next(c, s, a).threads[u].PromRem?
    ensures var s' := Next(c, s, a);
            s'.threads[u].job in s'.store.delayed || Overtaken(s', s'.threads[u].job)
  {
    var s' := Next(c, s, a);
    var job := s'.threads[u].job;
    StillReading(c, s, a, u);
    NextState(c, s, a);
    if job in s.store.delayed {
      if job !in s'.store.delayed {
        DelayedLeaves(s.store, MoveOf(s, a).cmd, job);
        RemovedIsOvertaken(c, s, a, job);
      }
    } else {
      OvertakenStays(c, s, a, job);
    }
  }

  lemma StepKeepsFound(c: Config, s: Sys, a: Action)
    requires Found(s) && Enabled(c, s, a) && Finds(c, s, a)
    ensures Found(Next(c, s, a))
  {
    StepKeepsAccounts(c, s, a);
    StepKeepsBehind(c, s, a);
  }

  lemma SoloIsFound(s: Sys)
    requires Inv(s)
    ensures Found(s)
  {
  }

  /** With one promoter every run finds. */
  lemma {:induction false} SoloRunsFind(c: Config, s: Sys, acts: seq<Action>)
    requires c.solo && Inv(s) && Runs(c, s, acts)
    ensures FindsRun(c, s, acts)
    decreases |acts|
  {
    if acts != [] {
      SoloFinds(c, s, acts[0]);
      StepKeepsInv(c, s, acts[0]);
      SoloRunsFind(c, Next(c, s, acts[0]), acts[1..]);
    }
  }

  lemma {:induction false} RunKeepsFound(c: Config, s: Sys, acts: seq<Action>)
    requires Found(s) && Runs(c, s, acts) && FindsRun(c, s, acts)
    ensures Found(End(c, s, acts))
    decreases |acts|
  {
    if acts != [] {
      StepKeepsFound(c, s, acts[0]);
      RunKeepsFound(c, Next(c, s, acts[0]), acts[1..]);
    }
  }

  /** As long as every removal finds its member, any number of promoters keeps every id in exactly one place. */
  lemma FindingKeepsOnePlace(c: Config, s: Sys, acts: seq<Action>, id: nat)
    requires Init(s) && Runs(c, s, acts) && FindsRun(c, s, acts)
    ensures var e := End(c, s, acts);
            Kinds(e, id) == One(id in e.issued) && Total(Places(id), e) == One(id in e.issued)
  {
    InitHolds(s);
    SoloIsFound(s);
    RunKeepsFound(c, s, acts);
    KindsFromTotal(End(c, s, acts), id);
  }
}
