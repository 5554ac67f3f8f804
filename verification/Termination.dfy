/**
 Cascade termination, for any number k of promoters: with no enqueue from outside, handler runs and
 steps are bounded by budgets computed from the state, in every interleaving and however often
 handlers fail.
 */
module Termination {
  import opened Wrappers
  import opened Sums
  import opened Jobs
  import opened RedisStore
  import opened Protocol
  import opened Gauges
  import opened Cascade
  import opened Budgets

  // ----- handler runs

  function RunsOf(job: Job, n: nat, k: nat): int {
    RunsLeft(job.typ, job.attempts, n, k)
  }

  /** The runs left to the publisher's own job should it fail now. */
  function ParentRuns(parent: Option<Job>, n: nat, k: nat): int {
    if parent.Some? then Copies(k, RunsLeft(parent.value.typ, parent.value.attempts + 1, n, k)) else 0
  }

  function ChildRuns(child: Job, delay: nat, n: nat, k: nat): int {
    if delay > 0 then Copies(k, RunsLeft(child.typ, child.attempts, n, k)) else RunsOf(child, n, k)
  }

  function RunsHeld(pc: Pc, n: nat, k: nat): int {
    match pc
    case Publishing(parent, todo) => ParentRuns(parent, n, k) + TodoRuns(todo, n, k)
    case EnqAdd(parent, todo, child, delay) => ParentRuns(parent, n, k) + TodoRuns(todo, n, k) + ChildRuns(child, delay, n, k)
    case EnqLate(parent, todo, _) => ParentRuns(parent, n, k) + TodoRuns(todo, n, k)
    case EnqCount(parent, todo) => ParentRuns(parent, n, k) + TodoRuns(todo, n, k)
    case DeqStatus(job) => RunsOf(job, n, k)
    case DeqCount(job) => RunsOf(job, n, k)
    case Dispatch(job) => RunsOf(job, n, k)
    case PromRem(job) => RunsOf(job, n, k)
    case PromAdd(job) => RunsOf(job, n, k)
    case DoneCount(_) => 0
    case RetryStatus(_) => 0
    case RetryCount(_) => 0
    case DeadStatus(_) => 0
    case DeadCount(_) => 0
  }

  function RunWeights(n: nat, k: nat): Weights {
    var runs := (j: Job) => RunsOf(j, n, k);
    Weights(runs, runs, (pc: Pc) => RunsHeld(pc, n, k))
  }

  function RunsHeldBy(pc: Option<Pc>, n: nat, k: nat): int {
    if pc.None? then 0 else RunsHeld(pc.value, n, k)
  }

  function RunsStored(c: Cmd, n: nat, k: nat): int {
    match c
    case AddReady(job, _) => RunsOf(job, n, k)
    case AddDelayed(job, _) => Copies(k, RunsLeft(job.typ, job.attempts, n, k))
    case PopReady(job) => -RunsOf(job, n, k)
    case _ => 0
  }

  function RunsChange(from: Option<Pc>, m: Move, n: nat, k: nat): int {
    RunsStored(m.cmd, n, k) + RunsHeldBy(m.next, n, k) - RunsHeldBy(from, n, k)
  }

  lemma GoSpendsNoRun(pc: Pc, now: real, id: nat, n: nat, k: nat)
    requires !pc.Dispatch?
    ensures RunsChange(Some(pc), GoMove(pc, now, id), n, k) <= 0
  {
  }

  lemma FailSpendsNoRun(job: Job, todo: seq<Spec>, error: string, now: real, n: nat, k: nat)
    ensures RunsChange(Some(Publishing(Some(job), todo)), FailMove(job, error, now), n, k) <= 0
  {
  }

  lemma StartSpendsARun(job: Job, todo: seq<Spec>, n: nat, k: nat)
    requires job.attempts < MAX_ATTEMPTS && TodoRuns(todo, n, k) <= SpawnedRuns(job.typ, n, k)
    ensures RunsChange(Some(Dispatch(job)), Move(Nop, Some(Publishing(Some(job), todo)), []), n, k) <= -1
  {
  }

  lemma PopSpendsNoRun(job: Job, n: nat, k: nat)
    ensures RunsChange(None, Move(PopReady(job), Some(DeqStatus(job)), []), n, k) == 0
  {
  }

  lemma ReadTakesACopy(job: Job, n: nat, k: nat)
    ensures RunsChange(None, Move(Nop, Some(PromRem(job)), []), n, k) == RunsOf(job, n, k)
  {
  }

  lemma StepRuns(c: Config, s: Sys, a: Action, k: nat)
    requires Sound(s) && Enabled(c, s, a) && !a.Tick? && !a.Client?
    ensures RunsChange(Standing(s, a.t), MoveOf(s, a), c.maxExpired, k) + (if a.Start? then 1 else 0)
            <= (if a.Read? then RunsOf(a.job, c.maxExpired, k) else 0)
  {
    match a
    case Go(t, id) => GoSpendsNoRun(s.threads[t], s.clock, id, c.maxExpired, k);
    case Raise(t, error) => FailSpendsNoRun(s.threads[t].parent.value, s.threads[t].todo, error, s.clock, c.maxExpired, k);
    case Start(t, events) =>
      var job := s.threads[t].job;
      assert SoundPc(s.threads[t]);
      HandlerWithinBudget(job.typ, events, c.maxExpired, k);
      StartSpendsARun(job, Published(events), c.maxExpired, k);
    case Pop(_, job) => PopSpendsNoRun(job, c.maxExpired, k);
    case Read(_, job) => ReadTakesACopy(job, c.maxExpired, k);
  }

  lemma RunsCounted(c: Config, s: Sys, a: Action)
    requires Enabled(c, s, a)
    ensures Next(c, s, a).runs == s.runs + if a.Start? then 1 else 0
  {
  }

  lemma RunWeightsNonNegative(n: nat, k: nat)
    ensures NonNegative(RunWeights(n, k))
  {
  }

  lemma RunCosts(m: Move, from: Option<Pc>, n: nat, k: nat)
    ensures var w := RunWeights(n, k);
            Cost(w, k, m.cmd) + Hand(w, m.next) - Hand(w, from) == RunsChange(from, m, n, k)
  {
  }

  ghost function RunBudget(c: Config, k: nat, s: Sys): int {
    Budget(RunWeights(c.maxExpired, k), k, s)
  }

  /** A handler run is paid for out of the budget; no other step raises it. */
  lemma StepSpendsRuns(c: Config, k: nat, s: Sys, a: Action)
    requires Sound(s) && Enabled(c, s, a) && !a.Client? && !a.Tick? && |Promoters(s.threads)| <= k
    ensures Next(c, s, a).runs + RunBudget(c, k, Next(c, s, a)) <= s.runs + RunBudget(c, k, s)
  {
    var w := RunWeights(c.maxExpired, k);
    RunWeightsNonNegative(c.maxExpired, k);
    StepCost(w, k, c, s, a);
    RunCosts(MoveOf(s, a), Standing(s, a.t), c.maxExpired, k);
    StepRuns(c, s, a, k);
    RunsCounted(c, s, a);
  }

  /** A closed run starts at most as many handlers as the state's run budget. */
  lemma {:induction false} RunsWithinBudget(c: Config, k: nat, s: Sys, acts: seq<Action>)
    requires Sound(s) && Runs(c, s, acts) && CrewedRun(c, k, s, acts) && Closed(acts)
    ensures End(c, s, acts).runs <= s.runs + RunBudget(c, k, s)
    decreases |acts|
  {
    if acts == [] {
      RunWeightsNonNegative(c.maxExpired, k);
      BudgetNonNegative(RunWeights(c.maxExpired, k), k, s);
    } else {
      var a := acts[0];
      assert a in acts && Closed(acts[1..]);
      StepKeepsSound(c, s, a);
      if a.Tick? { TickKeepsBudget(RunWeights(c.maxExpired, k), k, c, s, a); } else { StepSpendsRuns(c, k, s, a); }
      RunsWithinBudget(c, k, Next(c, s, a), acts[1..]);
    }
  }

  ghost predicate Idle(s: Sys) {
    s.threads == map[] && s.store.ready == map[] && s.store.delayed == map[]
  }

  // ----- what one event can cause

  /** The handler runs one event can cause with k promoters, all retries of all descendants included. */
  function EventRuns(e: EventType, k: nat): nat {
    var leaf := LeafRuns(0, k);
    match e
    case LinkCreated => 5 * leaf + leaf * leaf
    case LinkDeleted => 2 * leaf
    case LinkUpdated => 2 * leaf
    case _ => if EventJobs(e) == [] then 0 else leaf
  }

  /** One promoter: 50 for LinkCreated. Two, as deployed: 1116. */
  lemma LinkCreatedRuns()
    ensures EventRuns(LinkCreated, 1) == 50 && EventRuns(LinkCreated, 2) == 1116
  {
    LeafRunsOneTwo();
  }

  lemma LeafRunsOneTwo()
    ensures LeafRuns(0, 1) == 5 && LeafRuns(0, 2) == 31
  {
    assert LeafRuns(4, 1) == 1 && LeafRuns(4, 2) == 1;
    assert LeafRuns(3, 1) == 2 && LeafRuns(3, 2) == 3;
    assert LeafRuns(2, 1) == 3 && LeafRuns(2, 2) == 7;
    assert LeafRuns(1, 1) == 4 && LeafRuns(1, 2) == 15;
  }

  function JobRuns(jobs: seq<(JobType, JobPriority)>, n: nat, k: nat): nat {
    if jobs == [] then 0 else RunsLeft(jobs[0].0, 0, n, k) + JobRuns(jobs[1..], n, k)
  }

  lemma {:induction false} TodoRunsByType(jobs: seq<(JobType, JobPriority)>, p: Payload, n: nat, k: nat)
    ensures TodoRuns(SpecsFor(jobs, p), n, k) == JobRuns(jobs, n, k)
  {
    if jobs != [] {
      var specs := SpecsFor(jobs, p);
      assert specs[1..] == SpecsFor(jobs[1..], p);
      TodoRunsByType(jobs[1..], p, n, k);
    }
  }

  function InitJobs(jobs: seq<(JobType, JobPriority)>): nat {
    if jobs == [] then 0 else (if jobs[0].0.InitHealth? then 1 else 0) + InitJobs(jobs[1..])
  }

  /** A list of jobs without EXPIRED_CLEANUP costs a leaf each, and a leaf's leaves more for INIT_HEALTH. */
  lemma {:induction false} JobRunsByCount(jobs: seq<(JobType, JobPriority)>, n: nat, k: nat)
    requires forall i :: 0 <= i < |jobs| ==> !jobs[i].0.ExpiredCleanup?
    ensures var leaf := LeafRuns(0, k);
            JobRuns(jobs, n, k) == |jobs| * leaf + InitJobs(jobs) * (leaf * leaf)
  {
    if jobs != [] {
      JobRunsByCount(jobs[1..], n, k);
      RunsFactor(jobs[0].0, 0, n, k);
      var leaf := LeafRuns(0, k);
      Regroup(|jobs| - 1, InitJobs(jobs[1..]), leaf);
    }
  }

  lemma Regroup(m: nat, i: nat, leaf: nat)
    ensures (m + 1) * leaf == m * leaf + leaf
    ensures (i + 1) * (leaf * leaf) == i * (leaf * leaf) + leaf * leaf
    ensures (1 + leaf) * leaf == leaf + leaf * leaf
  {
  }

  lemma EventBudget(e: Event, n: nat, k: nat)
    ensures TodoRuns(Published([e]), n, k) == EventRuns(e.typ, k)
  {
    var jobs := EventJobs(e.typ);
    var specs := SpecsFor(jobs, e.payload);
    assert [e][1..] == [] && Published([e][1..]) == [];
    assert Published([e]) == specs + [] == specs;
    TodoRunsByType(jobs, e.payload, n, k);
    JobRunsByCount(jobs, n, k);
    RegistryShape(e.typ);
  }

  lemma RegistryShape(e: EventType)
    ensures var jobs := EventJobs(e);
            && |jobs| == (if e.LinkCreated? then 5 else if e.LinkDeleted? || e.LinkUpdated? then 2 else if jobs == [] then 0 else 1)
            && InitJobs(jobs) == if e.LinkCreated? then 1 else 0
  {
    var jobs := EventJobs(e);
    if |jobs| > 1 { assert InitJobs(jobs) == InitOf(jobs[0]) + InitOf(jobs[1]) + InitJobs(jobs[1..][1..]); }
    if e.LinkCreated? {
      var rest := jobs[1..][1..];
      assert |rest| == 3 && InitJobs(rest) == InitOf(rest[0]) + InitOf(rest[1]) + InitJobs(rest[1..][1..]);
      assert rest[1..][1..] == [(OptimizeQr, Low)];
    }
  }

  function InitOf(job: (JobType, JobPriority)): nat {
    if job.0.InitHealth? then 1 else 0
  }

  lemma PublisherBudget(c: Config, k: nat, s: Sys, t: nat, e: Event)
    requires s.threads == map[t := Publishing(None, Published([e]))] && s.store.ready == map[] && s.store.delayed == map[]
    ensures RunBudget(c, k, s) == EventRuns(e.typ, k)
  {
    SumMapRemove(s.threads, t, RunWeights(c.maxExpired, k).hand);
    assert s.threads - {t} == map[];
    EventBudget(e, c.maxExpired, k);
  }

  /**
   Published into an idle system with at most k promoters at work, one event causes at most EventRuns
   handler runs, in every interleaving and however often handlers fail.
   */
  lemma OneEventRunsBounded(c: Config, k: nat, s: Sys, t: nat, e: Event, acts: seq<Action>)
    requires Idle(s) && Enabled(c, s, Client(t, Published([e])))
    requires var s' := Next(c, s, Client(t, Published([e]))); Runs(c, s', acts) && CrewedRun(c, k, s', acts)
    requires Closed(acts)
    ensures End(c, Next(c, s, Client(t, Published([e]))), acts).runs <= s.runs + EventRuns(e.typ, k)
  {
    var a := Client(t, Published([e]));
    var s' := Next(c, s, a);
    NextState(c, s, a);
    StepKeepsSound(c, s, a);
    RunsCounted(c, s, a);
    RunsWithinBudget(c, k, s', acts);
    PublisherBudget(c, k, s', t, e);
  }

  // ----- steps

  function WorkOf(job: Job, n: nat, k: nat): int {
    WorkLeft(job.typ, job.attempts, n, k)
  }

  /** Enough to complete the publisher's own job, or to let it fail and go through the copies of its retry. */
  function ParentWork(parent: Option<Job>, n: nat, k: nat): int {
    if parent.None? then 1
    else if parent.value.attempts + 1 >= MAX_ATTEMPTS then 3
    else 3 + Copies(k, WorkLeft(parent.value.typ, parent.value.attempts + 1, n, k) + 3)
  }

  function ChildWork(child: Job, delay: nat, n: nat, k: nat): int {
    if delay > 0 then 3 + Copies(k, WorkLeft(child.typ, child.attempts, n, k) + 3) else 2 + WorkOf(child, n, k)
  }

  function WorkHeld(pc: Pc, n: nat, k: nat): int {
    match pc
    case Publishing(parent, todo) => ParentWork(parent, n, k) + TodoWork(todo, n, k)
    case EnqAdd(parent, todo, child, delay) => ParentWork(parent, n, k) + TodoWork(todo, n, k) + ChildWork(child, delay, n, k)
    case EnqLate(parent, todo, _) => ParentWork(parent, n, k) + TodoWork(todo, n, k) + 2
    case EnqCount(parent, todo) => ParentWork(parent, n, k) + TodoWork(todo, n, k) + 1
    case DeqStatus(job) => WorkOf(job, n, k) - 1
    case DeqCount(job) => WorkOf(job, n, k) - 2
    case Dispatch(job) => WorkOf(job, n, k) - 3
    case PromRem(job) => WorkOf(job, n, k) + 2
    case PromAdd(job) => WorkOf(job, n, k) + 1
    case DoneCount(_) => 1
    case RetryStatus(_) => 2
    case RetryCount(_) => 1
    case DeadStatus(_) => 2
    case DeadCount(_) => 1
  }

  /** Three more steps bring a delayed job back: read, remove, add. */
  function WorkWeights(n: nat, k: nat): Weights {
    Weights((j: Job) => WorkOf(j, n, k), (j: Job) => WorkOf(j, n, k) + 3, (pc: Pc) => WorkHeld(pc, n, k))
  }

  function WorkHeldBy(pc: Option<Pc>, n: nat, k: nat): int {
    if pc.None? then 0 else WorkHeld(pc.value, n, k)
  }

  function WorkStored(c: Cmd, n: nat, k: nat): int {
    match c
    case AddReady(job, _) => WorkOf(job, n, k)
    case AddDelayed(job, _) => Copies(k, WorkLeft(job.typ, job.attempts, n, k) + 3)
    case PopReady(job) => -WorkOf(job, n, k)
    case _ => 0
  }

  function WorkChange(from: Option<Pc>, m: Move, n: nat, k: nat): int {
    WorkStored(m.cmd, n, k) + WorkHeldBy(m.next, n, k) - WorkHeldBy(from, n, k)
  }

  lemma GoSpends(pc: Pc, now: real, id: nat, n: nat, k: nat)
    requires !pc.Dispatch?
    ensures WorkChange(Some(pc), GoMove(pc, now, id), n, k) <= -1
  {
    if pc.Publishing? || pc.EnqAdd? || pc.EnqLate? || pc.EnqCount? { PublishSpends(pc, now, id, n, k); }
  }

  lemma PublishSpends(pc: Pc, now: real, id: nat, n: nat, k: nat)
    requires pc.Publishing? || pc.EnqAdd? || pc.EnqLate? || pc.EnqCount?
    ensures WorkChange(Some(pc), PublishMove(pc, now, id), n, k) <= -1
  {
  }

  lemma FailSpends(job: Job, todo: seq<Spec>, error: string, now: real, n: nat, k: nat)
    ensures WorkChange(Some(Publishing(Some(job), todo)), FailMove(job, error, now), n, k) <= -1
  {
  }

  lemma StartSpends(job: Job, todo: seq<Spec>, n: nat, k: nat)
    requires TodoWork(todo, n, k) <= SpawnedWork(job.typ, n, k)
    ensures WorkChange(Some(Dispatch(job)), Move(Nop, Some(Publishing(Some(job), todo)), []), n, k) <= -1
  {
    assert WorkOf(job, n, k) == 4 + SpawnedWork(job.typ, n, k) + ParentWork(Some(job), n, k) by { WorkUnfolds(job, n, k); }
  }

  lemma WorkUnfolds(job: Job, n: nat, k: nat)
    ensures WorkOf(job, n, k) == 4 + SpawnedWork(job.typ, n, k) + ParentWork(Some(job), n, k)
  {
    var later := Copies(k, WorkLeft(job.typ, job.attempts + 1, n, k) + 3);
    if job.attempts + 1 >= MAX_ATTEMPTS {
      assert ParentWork(Some(job), n, k) == 3;
    } else {
      assert WorkLeft(job.typ, job.attempts, n, k) == 7 + SpawnedWork(job.typ, n, k) + later;
      assert ParentWork(Some(job), n, k) == 3 + later;
    }
  }

  lemma PopSpends(job: Job, n: nat, k: nat)
    ensures WorkChange(None, Move(PopReady(job), Some(DeqStatus(job)), []), n, k) == -1
  {
  }

  lemma ReadSpends(job: Job, n: nat, k: nat)
    ensures WorkChange(None, Move(Nop, Some(PromRem(job)), []), n, k) == WorkOf(job, n, k) + 2
  {
  }

  lemma StepWork(c: Config, s: Sys, a: Action, k: nat)
    requires Enabled(c, s, a) && !a.Tick? && !a.Client?
    ensures WorkChange(Standing(s, a.t), MoveOf(s, a), c.maxExpired, k)
            <= (if a.Read? then WorkOf(a.job, c.maxExpired, k) + 3 else 0) - 1
  {
    match a
    case Go(t, id) => GoSpends(s.threads[t], s.clock, id, c.maxExpired, k);
    case Raise(t, error) => FailSpends(s.threads[t].parent.value, s.threads[t].todo, error, s.clock, c.maxExpired, k);
    case Start(t, events) =>
      HandlerWithinBudget(s.threads[t].job.typ, events, c.maxExpired, k);
      StartSpends(s.threads[t].job, Published(events), c.maxExpired, k);
    case Pop(_, job) => PopSpends(job, c.maxExpired, k);
    case Read(_, job) => ReadSpends(job, c.maxExpired, k);
  }

  lemma WorkPositive(t: JobType, attempts: nat, n: nat, k: nat)
    ensures WorkLeft(t, attempts, n, k) >= 7
    decreases MAX_ATTEMPTS - attempts
  {
  }

  lemma HeldNonNegative(pc: Pc, n: nat, k: nat)
    ensures WorkHeld(pc, n, k) >= 0
  {
    match pc
    case DeqStatus(job) => WorkPositive(job.typ, job.attempts, n, k);
    case DeqCount(job) => WorkPositive(job.typ, job.attempts, n, k);
    case Dispatch(job) => WorkPositive(job.typ, job.attempts, n, k);
    case _ =>
  }

  lemma WorkWeightsNonNegative(n: nat, k: nat)
    ensures NonNegative(WorkWeights(n, k))
  {
    forall pc ensures WorkWeights(n, k).hand(pc) >= 0 { HeldNonNegative(pc, n, k); }
  }

  lemma WorkCosts(m: Move, from: Option<Pc>, n: nat, k: nat)
    ensures var w := WorkWeights(n, k);
            Cost(w, k, m.cmd) + Hand(w, m.next) - Hand(w, from) == WorkChange(from, m, n, k)
  {
  }

  ghost function StepBudget(c: Config, k: nat, s: Sys): int {
    Budget(WorkWeights(c.maxExpired, k), k, s)
  }

  /** Every closed step spends at least one unit of the step budget. */
  lemma StepSpendsWork(c: Config, k: nat, s: Sys, a: Action)
    requires Enabled(c, s, a) && !a.Client? && !a.Tick? && |Promoters(s.threads)| <= k
    ensures StepBudget(c, k, Next(c, s, a)) < StepBudget(c, k, s)
  {
    WorkWeightsNonNegative(c.maxExpired, k);
    StepCost(WorkWeights(c.maxExpired, k), k, c, s, a);
    WorkCosts(MoveOf(s, a), Standing(s, a.t), c.maxExpired, k);
    StepWork(c, s, a, k);
  }

  lemma StepBudgetNonNegative(c: Config, k: nat, s: Sys)
    requires |Promoters(s.threads)| <= k
    ensures StepBudget(c, k, s) >= 0
  {
    WorkWeightsNonNegative(c.maxExpired, k);
    BudgetNonNegative(WorkWeights(c.maxExpired, k), k, s);
  }

  /** Cascade termination: a closed run with at most k promoters has at most StepBudget steps. */
  lemma {:induction false} ClosedRunsEnd(c: Config, k: nat, s: Sys, acts: seq<Action>)
    requires Runs(c, s, acts) && CrewedRun(c, k, s, acts) && Closed(acts)
    ensures Steps(acts) <= StepBudget(c, k, s)
    decreases |acts|
  {
    if acts == [] {
      StepBudgetNonNegative(c, k, s);
    } else {
      var a := acts[0];
      assert a in acts && Closed(acts[1..]);
      if a.Tick? { TickKeepsBudget(WorkWeights(c.maxExpired, k), k, c, s, a); } else { StepSpendsWork(c, k, s, a); }
      ClosedRunsEnd(c, k, Next(c, s, a), acts[1..]);
    }
  }
}
