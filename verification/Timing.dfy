/**
 Times and order: exponential backoff spaces a job's failures out, and a worker's pop serves the
 best priority first and the earliest added within it. Both hold for any number of promoters.
 */
module Timing {
  import opened Wrappers
  import opened Jobs
  import opened RedisStore
  import opened Protocol

  /** The least time from a job's first failure to its retry number `attempts`. */
  function Gap(attempts: nat): nat {
    if attempts == 0 then 0 else Gap(attempts - 1) + Backoff(attempts)
  }

  lemma GapAtFour()
    ensures Gap(1) == 10 && Gap(2) == 30 && Gap(3) == 70 && Gap(4) == 150
  {
    assert Pow2(1) == 2;
    assert Pow2(2) == 4;
    assert Pow2(3) == 8;
    assert Pow2(4) == 16;
  }

  lemma {:induction false} GapFromFour(attempts: nat)
    requires attempts >= 4
    ensures Gap(attempts) >= 150
  {
    GapAtFour();
    if attempts > 4 { GapFromFour(attempts - 1); }
  }

  /** By `now`, the backoffs of the failures behind this job have passed. */
  predicate Waited(job: Job, now: real, firstFail: map<nat, real>) {
    job.attempts >= 1 ==> job.id in firstFail && now >= firstFail[job.id] + Gap(job.attempts) as real
  }

  predicate WaitedParent(parent: Option<Job>, now: real, firstFail: map<nat, real>) {
    parent.Some? ==> Waited(parent.value, now, firstFail)
  }

  predicate WaitedPc(pc: Pc, now: real, firstFail: map<nat, real>) {
    match pc
    case Publishing(parent, _) => WaitedParent(parent, now, firstFail)
    case EnqAdd(parent, _, child, _) => WaitedParent(parent, now, firstFail) && child.attempts == 0
    case EnqLate(parent, _, _) => WaitedParent(parent, now, firstFail)
    case EnqCount(parent, _) => WaitedParent(parent, now, firstFail)
    case DeqStatus(job) => Waited(job, now, firstFail)
    case DeqCount(job) => Waited(job, now, firstFail)
    case Dispatch(job) => Waited(job, now, firstFail)
    case PromRem(job) => Waited(job, now, firstFail)
    case PromAdd(job) => Waited(job, now, firstFail)
    case DoneCount(_) => true
    case RetryStatus(_) => true
    case RetryCount(_) => true
    case DeadStatus(_) => true
    case DeadCount(_) => true
  }

  ghost predicate WaitedStore(s: Store, now: real, firstFail: map<nat, real>) {
    && (forall j :: j in s.delayed ==> Waited(j, s.delayed[j], firstFail))
    && (forall j :: j in s.ready ==> Waited(j, now, firstFail))
  }

  ghost predicate WaitedThreads(threads: map<nat, Pc>, now: real, firstFail: map<nat, real>) {
    forall t :: t in threads ==> WaitedPc(threads[t], now, firstFail)
  }

  ghost predicate FailTimes(s: Sys) {
    forall id :: id in s.firstFail ==> id in s.lastFail && s.firstFail[id] <= s.lastFail[id] <= s.clock
  }

  ghost predicate DeadApart(s: Sys) {
    forall j :: j in s.store.dead ==>
      j.id in s.firstFail && j.id in s.lastFail && s.lastFail[j.id] - s.firstFail[j.id] >= 150.0
  }

  ghost predicate Timely(s: Sys) {
    && WaitedStore(s.store, s.clock, s.firstFail)
    && WaitedThreads(s.threads, s.clock, s.firstFail)
    && FailTimes(s) && DeadApart(s)
  }

  predicate WaitedMove(m: Move, now: real, firstFail: map<nat, real>) {
    && (m.cmd.AddReady? ==> Waited(m.cmd.job, now, firstFail))
    && (m.cmd.AddDelayed? ==> Waited(m.cmd.job, m.cmd.score, firstFail))
    && (m.next.Some? ==> WaitedPc(m.next.value, now, firstFail))
  }

  lemma GoWaited(pc: Pc, now: real, id: nat, firstFail: map<nat, real>)
    requires !pc.Dispatch? && WaitedPc(pc, now, firstFail)
    ensures WaitedMove(GoMove(pc, now, id), now, firstFail)
  {
  }

  /** After a failure, whatever is scheduled is scheduled late enough. */
  lemma FailWaited(job: Job, error: string, now: real, firstFail: map<nat, real>)
    requires job.id in firstFail && firstFail[job.id] <= now && Waited(job, now, firstFail)
    ensures WaitedMove(FailMove(job, error, now), now, firstFail)
  {
  }

  lemma StoreKeepsWaited(s: Store, c: Cmd, now: real, firstFail: map<nat, real>)
    requires WaitedStore(s, now, firstFail)
    requires c.AddReady? ==> Waited(c.job, now, firstFail)
    requires c.AddDelayed? ==> Waited(c.job, c.score, firstFail)
    ensures WaitedStore(Apply(c, s), now, firstFail)
  {
  }

  lemma ThreadsKeepWaited(threads: map<nat, Pc>, t: nat, next: Option<Pc>, now: real, firstFail: map<nat, real>)
    requires WaitedThreads(threads, now, firstFail)
    requires next.Some? ==> WaitedPc(next.value, now, firstFail)
    ensures WaitedThreads(Put(threads, t, next), now, firstFail)
  {
  }

  /** Later clocks and further first failures of other ids change nothing for those who waited. */
  lemma WaitedGrows(s: Sys, now: real, firstFail: map<nat, real>)
    requires Timely(s) && now >= s.clock
    requires forall id :: id in s.firstFail ==> id in firstFail && firstFail[id] == s.firstFail[id]
    ensures WaitedStore(s.store, now, firstFail) && WaitedThreads(s.threads, now, firstFail)
  {
    forall t | t in s.threads ensures WaitedPc(s.threads[t], now, firstFail) {
      assert WaitedPc(s.threads[t], s.clock, s.firstFail);
    }
  }

  lemma MovesWaited(c: Config, s: Sys, a: Action)
    requires Timely(s) && Enabled(c, s, a) && !a.Tick?
    ensures WaitedMove(MoveOf(s, a), s.clock, Next(c, s, a).firstFail)
    ensures forall id :: id in s.firstFail ==> id in Next(c, s, a).firstFail && Next(c, s, a).firstFail[id] == s.firstFail[id]
  {
    match a
    case Go(t, id) =>
      assert WaitedPc(s.threads[t], s.clock, s.firstFail);
      GoWaited(s.threads[t], s.clock, id, s.firstFail);
    case Raise(t, error) => RaiseWaited(c, s, a);
    case Start(t, _) => assert WaitedPc(s.threads[t], s.clock, s.firstFail);
    case _ =>
  }

  lemma RaiseWaited(c: Config, s: Sys, a: Action)
    requires Timely(s) && Enabled(c, s, a) && a.Raise?
    ensures WaitedMove(MoveOf(s, a), s.clock, Next(c, s, a).firstFail)
    ensures forall id :: id in s.firstFail ==> id in Next(c, s, a).firstFail && Next(c, s, a).firstFail[id] == s.firstFail[id]
  {
    var job := s.threads[a.t].parent.value;
    assert WaitedPc(s.threads[a.t], s.clock, s.firstFail);
    FailWaited(job, a.error, s.clock, Next(c, s, a).firstFail);
  }

  lemma StepKeepsTimely(c: Config, s: Sys, a: Action)
    requires Timely(s) && Enabled(c, s, a)
    ensures Timely(Next(c, s, a))
  {
    var s' := Next(c, s, a);
    if a.Tick? {
      WaitedGrows(s, a.now, s.firstFail);
    } else {
      MovesWaited(c, s, a);
      NextState(c, s, a);
      WaitedGrows(s, s.clock, s'.firstFail);
      StoreKeepsWaited(s.store, MoveOf(s, a).cmd, s.clock, s'.firstFail);
      ThreadsKeepWaited(s.threads, a.t, MoveOf(s, a).next, s.clock, s'.firstFail);
      StepKeepsFailTimes(c, s, a);
    }
  }

  lemma DeadLetters(c: Config, s: Sys, a: Action)
    requires Enabled(c, s, a) && !a.Tick? && MoveOf(s, a).cmd.PushDead?
    ensures a.Raise? && MoveOf(s, a).cmd.job == AfterFailure(s.threads[a.t].parent.value, a.error)
    ensures s.threads[a.t].parent.value.attempts >= 4
  {
  }

  lemma StepKeepsFailTimes(c: Config, s: Sys, a: Action)
    requires Timely(s) && Enabled(c, s, a) && !a.Tick?
    ensures FailTimes(Next(c, s, a)) && DeadApart(Next(c, s, a))
  {
    var s' := Next(c, s, a);
    NextState(c, s, a);
    var m := MoveOf(s, a);
    FailureNoted(c, s, a);
    if m.cmd.PushDead? {
      var job := s.threads[a.t].parent.value;
      LastFailureIsLate(c, s, a);
      assert s'.store.dead == [m.cmd.job] + s.store.dead;
    } else {
      assert s'.store.dead == s.store.dead;
    }
  }

  /** What a step notes about failures. */
  lemma FailureNoted(c: Config, s: Sys, a: Action)
    requires Enabled(c, s, a) && !a.Tick?
    ensures var s' := Next(c, s, a);
            if a.Raise? then
              var id := s.threads[a.t].parent.value.id;
              s'.lastFail == s.lastFail[id := s.clock]
              && s'.firstFail == if id in s.firstFail then s.firstFail else s.firstFail[id := s.clock]
            else s'.lastFail == s.lastFail && s'.firstFail == s.firstFail
  {
  }

  lemma LastFailureIsLate(c: Config, s: Sys, a: Action)
    requires Timely(s) && Enabled(c, s, a) && !a.Tick? && MoveOf(s, a).cmd.PushDead?
    ensures a.Raise?
    ensures var id := s.threads[a.t].parent.value.id;
            MoveOf(s, a).cmd.job.id == id && id in s.firstFail && s.clock - s.firstFail[id] >= 150.0
  {
    DeadLetters(c, s, a);
    assert WaitedPc(s.threads[a.t], s.clock, s.firstFail);
    GapFromFour(s.threads[a.t].parent.value.attempts);
  }

  lemma {:induction false} RunKeepsTimely(c: Config, s: Sys, acts: seq<Action>)
    requires Timely(s) && Runs(c, s, acts)
    ensures Timely(End(c, s, acts))
    decreases |acts|
  {
    if acts != [] {
      StepKeepsTimely(c, s, acts[0]);
      RunKeepsTimely(c, Next(c, s, acts[0]), acts[1..]);
    }
  }

  /** The first and the last failure of a dead-lettered job are at least 10+20+40+80 seconds apart. */
  lemma DeadLetterSpacing(c: Config, s: Sys, acts: seq<Action>, job: Job)
    requires Init(s) && Runs(c, s, acts) && job in End(c, s, acts).store.dead
    ensures var e := End(c, s, acts);
            job.id in e.firstFail && job.id in e.lastFail && e.lastFail[job.id] - e.firstFail[job.id] >= 150.0
  {
    RunKeepsTimely(c, s, acts);
  }

  /** A retry is never started before the backoffs of 10, 20, 40 and 80 seconds so far have passed. */
  lemma RetriesWait(c: Config, s: Sys, acts: seq<Action>, t: nat)
    requires Init(s) && Runs(c, s, acts) && t in End(c, s, acts).threads && End(c, s, acts).threads[t].Dispatch?
    ensures var e := End(c, s, acts);
            var job := e.threads[t].job;
            job.attempts >= 1 ==>
              && job.id in e.firstFail
              && e.clock >= e.firstFail[job.id] + (if job.attempts == 1 then 10.0 else if job.attempts == 2 then 30.0
                                                   else if job.attempts == 3 then 70.0 else 150.0)
  {
    GapAtFour();
    if End(c, s, acts).threads[t].job.attempts >= 4 { GapFromFour(End(c, s, acts).threads[t].job.attempts); }
    RunKeepsTimely(c, s, acts);
    assert WaitedPc(End(c, s, acts).threads[t], End(c, s, acts).clock, End(c, s, acts).firstFail);
  }

  // ----- priority order

  ghost predicate Scored(s: Sys) {
    && s.clock >= 0.0
    && forall j :: j in s.store.ready ==>
        j in s.addedAt && 0.0 <= s.addedAt[j] <= s.clock && s.store.ready[j] == ReadyScore(j.priority, s.addedAt[j])
  }

  lemma AddsScored(c: Config, s: Sys, a: Action)
    requires Enabled(c, s, a) && !a.Tick? && MoveOf(s, a).cmd.AddReady?
    ensures var cmd := MoveOf(s, a).cmd;
            cmd.score == ReadyScore(cmd.job.priority, s.clock) && Next(c, s, a).addedAt == s.addedAt[cmd.job := s.clock]
  {
  }

  lemma AddedAtElse(c: Config, s: Sys, a: Action)
    requires Enabled(c, s, a) && !a.Tick? && !MoveOf(s, a).cmd.AddReady?
    ensures Next(c, s, a).addedAt == s.addedAt
    ensures forall j :: j in Next(c, s, a).store.ready ==> j in s.store.ready && Next(c, s, a).store.ready[j] == s.store.ready[j]
  {
    NextState(c, s, a);
  }

  lemma StepKeepsScored(c: Config, s: Sys, a: Action)
    requires Scored(s) && Enabled(c, s, a)
    ensures Scored(Next(c, s, a))
  {
    if !a.Tick? {
      NextState(c, s, a);
      if MoveOf(s, a).cmd.AddReady? { AddsScored(c, s, a); } else { AddedAtElse(c, s, a); }
    }
  }

  lemma {:induction false} RunKeepsScored(c: Config, s: Sys, acts: seq<Action>)
    requires Scored(s) && Runs(c, s, acts)
    ensures Scored(End(c, s, acts))
    decreases |acts|
  {
    if acts != [] {
      StepKeepsScored(c, s, acts[0]);
      RunKeepsScored(c, Next(c, s, acts[0]), acts[1..]);
    }
  }

  /**
   In every reachable state with a clock below 4 * 10^12 seconds: while a HIGH job of the type is ready
   only HIGH jobs are popped, no LOW job is popped before a NORMAL one, and whatever is popped was added
   no later than any other ready job of its type and priority.
   */
  lemma PopsBestFirst(c: Config, s: Sys, acts: seq<Action>, t: nat, job: Job, other: Job)
    requires Init(s) && Runs(c, s, acts)
    requires Enabled(c, End(c, s, acts), Pop(t, job))
    requires other in End(c, s, acts).store.ready && other.typ == job.typ
    requires End(c, s, acts).clock < 4000000000000.0
    ensures var e := End(c, s, acts);
            && (other.priority.High? ==> job.priority.High?)
            && (other.priority.Normal? ==> job.priority.High? || job.priority.Normal?)
            && job in e.addedAt && other in e.addedAt
            && (job.priority == other.priority ==> e.addedAt[job] <= e.addedAt[other])
  {
    RunKeepsScored(c, s, acts);
    var e := End(c, s, acts);
    assert e.store.ready[job] <= e.store.ready[other];
    ScoresOrder(job.priority, e.addedAt[job], other.priority, e.addedAt[other]);
  }

  /** A promoter reads a job only once its delay has passed, and no job before one that is due earlier. */
  lemma ReadsEarliestFirst(c: Config, s: Sys, t: nat, job: Job, other: Job)
    requires Enabled(c, s, Read(t, job)) && other in s.store.delayed
    ensures job in s.store.delayed && s.store.delayed[job] <= s.clock && s.store.delayed[job] <= s.store.delayed[other]
  {
  }

  /** Scores put HIGH before NORMAL before LOW, and earlier before later, as long as times stay below 4 * 10^12. */
  lemma ScoresOrder(p: JobPriority, at: real, q: JobPriority, bt: real)
    requires 0.0 <= at < 4000000000000.0 && 0.0 <= bt < 4000000000000.0
    ensures ReadyScore(p, at) <= ReadyScore(q, bt) <==>
      (p == q && at <= bt) || (p.High? && !q.High?) || (p.Normal? && q.Low?)
  {
  }
}
