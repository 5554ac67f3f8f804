/**
 Races, each run from the empty queue: two promoters duplicate a job, unbalance the books and obscure
 its status, and the late write of a failure announces a running job as RETRYING. The first need a
 second promoter; the last does not.
 */
module Races {
  import opened Wrappers
  import opened Jobs
  import opened RedisStore
  import opened Protocol
  import opened Conservation
  import opened NoLoss
  import opened Finding
  import opened StatusLaw
  import opened Gauges
  import opened Counters

  ghost predicate Leads(c: Config, s: Sys, acts: seq<Action>, s': Sys) {
    Runs(c, s, acts) && End(c, s, acts) == s'
  }

  ghost predicate Reaches(c: Config, s: Sys, s': Sys) {
    exists acts :: Leads(c, s, acts, s')
  }

  ghost predicate LeadsPromptly(c: Config, s: Sys, acts: seq<Action>, s': Sys) {
    Leads(c, s, acts, s') && PromptRun(c, s, acts)
  }

  /** By a run in which no promoter reads a job whose RETRYING write is still owed. */
  ghost predicate Promptly(c: Config, s: Sys, s': Sys) {
    exists acts :: LeadsPromptly(c, s, acts, s')
  }

  lemma PromptlyReaches(c: Config, s: Sys, s': Sys)
    requires Promptly(c, s, s')
    ensures Reaches(c, s, s')
  {
    var acts :| LeadsPromptly(c, s, acts, s');
    assert Leads(c, s, acts, s');
  }

  lemma ReachesItself(c: Config, s: Sys)
    ensures Promptly(c, s, s)
  {
    assert LeadsPromptly(c, s, [], s);
  }

  lemma {:induction false} PromptConcat(c: Config, s: Sys, front: seq<Action>, back: seq<Action>)
    requires Runs(c, s, front) && PromptRun(c, s, front)
    requires Runs(c, End(c, s, front), back) && PromptRun(c, End(c, s, front), back)
    ensures Runs(c, s, front + back) && PromptRun(c, s, front + back)
    decreases |front|
  {
    if front == [] {
      assert front + back == back;
    } else {
      PromptConcat(c, Next(c, s, front[0]), front[1..], back);
      assert (front + back)[1..] == front[1..] + back;
    }
  }

  lemma OneStep(c: Config, s: Sys, a: Action, s': Sys)
    requires Enabled(c, s, a) && s' == Next(c, s, a) && Prompt(s, a)
    ensures LeadsPromptly(c, s, [a], s')
  {
    assert Runs(c, s', []);
    assert [a][1..] == [];
  }

  lemma ReachesNext(c: Config, s: Sys, mid: Sys, a: Action, s': Sys)
    requires Promptly(c, s, mid) && Enabled(c, mid, a) && s' == Next(c, mid, a) && Prompt(mid, a)
    ensures Promptly(c, s, s')
  {
    var acts :| LeadsPromptly(c, s, acts, mid);
    OneStep(c, mid, a, s');
    RunsConcat(c, s, acts, [a]);
    PromptConcat(c, s, acts, [a]);
    assert LeadsPromptly(c, s, acts + [a], s');
  }

  lemma ReachesAlong(c: Config, s: Sys, mid: Sys, acts: seq<Action>, s': Sys)
    requires Promptly(c, s, mid) && Runs(c, mid, acts) && End(c, mid, acts) == s'
    ensures Reaches(c, s, s')
  {
    var front :| LeadsPromptly(c, s, front, mid);
    RunsConcat(c, s, front, acts);
    assert Leads(c, s, front + acts, s');
  }

  lemma Step(c: Config, s: Sys, mid: Sys, a: Action) returns (s': Sys)
    requires Promptly(c, s, mid) && Enabled(c, mid, a) && !a.Tick? && !a.Read?
    ensures Promptly(c, s, s')
    ensures var m := MoveOf(mid, a);
            && s'.store == Apply(m.cmd, mid.store) && s'.threads == Put(mid.threads, a.t, m.next)
    ensures a.Client? ==> s'.issued == mid.issued
  {
    s' := Next(c, mid, a);
    NextState(c, mid, a);
    ReachesNext(c, s, mid, a, s');
  }

  /** The only coroutine goes on. */
  lemma GoOn(c: Config, s: Sys, mid: Sys, pc: Pc) returns (s': Sys)
    requires Promptly(c, s, mid) && mid.threads == map[0 := pc] && !pc.Dispatch?
    requires pc.Publishing? && pc.todo != [] ==> 0 !in mid.issued
    ensures Promptly(c, s, s')
    ensures var m := GoMove(pc, mid.clock, 0);
            s'.store == Apply(m.cmd, mid.store) && s'.threads == (if m.next.Some? then map[0 := m.next.value] else map[])
  {
    s' := Step(c, s, mid, Go(0, 0));
    OnlyOne(pc, GoMove(pc, mid.clock, 0).next);
  }

  lemma OnlyOne(pc: Pc, next: Option<Pc>)
    ensures Put(map[0 := pc], 0, next) == if next.Some? then map[0 := next.value] else map[]
  {
  }

  /** A job that a worker takes, and whose handler publishes nothing. */
  ghost predicate Plain(c: Config, typ: JobType) {
    HasWorker(typ) && HasHandler(typ) && HandlerPublishes(typ, [], c.maxExpired)
  }

  lemma PublishOne(c: Config, s: Sys, spec: Spec) returns (s': Sys)
    requires Init(s) && HasWorker(spec.typ) && spec.delay == 0
    ensures Promptly(c, s, s')
    ensures s'.threads == map[0 := EnqAdd(None, [], NewJob(0, spec), 0)]
    ensures s'.store.ready == map[] && s'.store.delayed == map[]
  {
    ReachesItself(c, s);
    var s1 := Step(c, s, s, Client(0, [spec]));
    assert s1.threads == map[0 := Publishing(None, [spec])];
    assert [spec][1..] == [];
    s' := GoOn(c, s, s1, Publishing(None, [spec]));
  }

  lemma EnqueueOne(c: Config, s: Sys, mid: Sys, job: Job) returns (s': Sys)
    requires Promptly(c, s, mid)
    requires mid.threads == map[0 := EnqAdd(None, [], job, 0)] && mid.store.ready == map[] && mid.store.delayed == map[]
    ensures Promptly(c, s, s')
    ensures s'.threads == map[] && s'.store.ready.Keys == {job} && s'.store.delayed == map[]
  {
    var s1 := GoOn(c, s, mid, EnqAdd(None, [], job, 0));
    assert s1.store.ready.Keys == {job};
    var s2 := GoOn(c, s, s1, EnqCount(None, []));
    s' := GoOn(c, s, s2, Publishing(None, []));
  }

  lemma PopOnly(c: Config, s: Sys, mid: Sys, job: Job) returns (s': Sys)
    requires Promptly(c, s, mid) && HasWorker(job.typ)
    requires mid.threads == map[] && mid.store.ready.Keys == {job} && mid.store.delayed == map[]
    ensures Promptly(c, s, s')
    ensures s'.threads == map[0 := DeqStatus(job)] && s'.store.ready == map[] && s'.store.delayed == map[]
  {
    s' := Step(c, s, mid, Pop(0, job));
  }

  lemma TakeUp(c: Config, s: Sys, mid: Sys, job: Job) returns (s': Sys)
    requires Promptly(c, s, mid)
    requires mid.threads == map[0 := DeqStatus(job)] && mid.store.ready == map[] && mid.store.delayed == map[]
    ensures Promptly(c, s, s')
    ensures s'.threads == map[0 := Dispatch(job)] && s'.store.ready == map[] && s'.store.delayed == map[]
  {
    s' := GoOn(c, s, mid, DeqStatus(job));
    s' := GoOn(c, s, s', DeqCount(job));
  }

  lemma RunAndFail(c: Config, s: Sys, mid: Sys, job: Job, failed: Job) returns (s': Sys)
    requires Promptly(c, s, mid) && Plain(c, job.typ) && job.attempts == 0 && failed == AfterFailure(job, "")
    requires mid.threads == map[0 := Dispatch(job)] && mid.store.ready == map[] && mid.store.delayed == map[]
    ensures Promptly(c, s, s')
    ensures s'.threads == map[0 := RetryStatus(failed)] && s'.store.ready == map[] && s'.store.delayed.Keys == {failed}
  {
    var s1 := Step(c, s, mid, Start(0, []));
    assert s1.threads == map[0 := Publishing(Some(job), [])];
    s' := Step(c, s, s1, Raise(0, ""));
  }

  lemma NoteRetry(c: Config, s: Sys, mid: Sys, job: Job) returns (s': Sys)
    requires Promptly(c, s, mid)
    requires mid.threads == map[0 := RetryStatus(job)] && mid.store.ready == map[] && mid.store.delayed.Keys == {job}
    ensures Promptly(c, s, s')
    ensures s'.threads == map[] && s'.store.ready == map[] && s'.store.delayed.Keys == {job}
  {
    var s1 := GoOn(c, s, mid, RetryStatus(job));
    s' := GoOn(c, s, s1, RetryCount(job));
  }

  lemma Wait(c: Config, s: Sys, mid: Sys, job: Job) returns (s': Sys)
    requires Promptly(c, s, mid) && HasWorker(job.typ)
    requires mid.threads == map[] && mid.store.ready == map[] && mid.store.delayed.Keys == {job}
    ensures Promptly(c, s, s') && OneDueJob(s', job)
  {
    var due := mid.store.delayed[job];
    var a := Tick(if due > mid.clock then due else mid.clock);
    s' := Next(c, mid, a);
    ReachesNext(c, s, mid, a, s');
  }

  /** A job that fails once, up to the write of its RETRYING status. */
  lemma ReachesFailure(c: Config, s: Sys, spec: Spec) returns (s': Sys, job: Job)
    requires Init(s) && Plain(c, spec.typ) && spec.delay == 0
    ensures Promptly(c, s, s') && Plain(c, job.typ) && job.attempts == 1
    ensures s'.threads == map[0 := RetryStatus(job)] && s'.store.ready == map[] && s'.store.delayed.Keys == {job}
  {
    var first := NewJob(0, spec);
    job := AfterFailure(first, "");
    s' := PublishOne(c, s, spec);
    s' := EnqueueOne(c, s, s', first);
    s' := PopOnly(c, s, s', first);
    s' := TakeUp(c, s, s', first);
    s' := RunAndFail(c, s, s', first, job);
  }

  /** From the empty queue, a job that fails once gets where two promoters can race for it. */
  lemma ReachesOneDueJob(c: Config, s: Sys, spec: Spec) returns (s': Sys, job: Job)
    requires Init(s) && Plain(c, spec.typ) && spec.delay == 0
    ensures Promptly(c, s, s') && OneDueJob(s', job) && Plain(c, job.typ) && job.attempts == 1
  {
    s', job := ReachesFailure(c, s, spec);
    s' := NoteRetry(c, s, s', job);
    s' := Wait(c, s, s', job);
  }

  // ----- the counters

  lemma {:induction false} SoloRunsAreRuns(c: Config, d: Config, s: Sys, acts: seq<Action>)
    requires d == c.(solo := true) && Runs(d, s, acts) && PromptRun(d, s, acts)
    ensures Runs(c, s, acts) && End(c, s, acts) == End(d, s, acts) && PromptRun(c, s, acts)
    decreases |acts|
  {
    if acts != [] {
      assert Enabled(c, s, acts[0]) && Next(c, s, acts[0]) == Next(d, s, acts[0]);
      SoloRunsAreRuns(c, d, Next(d, s, acts[0]), acts[1..]);
    }
  }

  /** A step, and what it does to the gaps of the laws. */
  lemma Tracked(c: Config, s: Sys, mid: Sys, a: Action, m: Move) returns (s': Sys)
    requires Promptly(c, s, mid) && Enabled(c, mid, a) && !a.Tick? && Prompt(mid, a) && m == MoveOf(mid, a)
    ensures Promptly(c, s, s') && s'.store == Apply(m.cmd, mid.store) && s'.threads == Put(mid.threads, a.t, m.next)
    ensures s'.clock == mid.clock && s'.completed == mid.completed + m.finished && mid.issued <= s'.issued
    ensures forall law: Law :: Gap(law, s') == Gap(law, mid) + Missed(law.Weight(), mid.store, m.cmd) - Collapsed(law.Weight(), mid.store, m.cmd)
  {
    s' := Next(c, mid, a);
    NextState(c, mid, a);
    ReachesNext(c, s, mid, a, s');
    IssuedGrows(c, mid, a);
    forall law: Law
      ensures Gap(law, s') == Gap(law, mid) + Missed(law.Weight(), mid.store, m.cmd) - Collapsed(law.Weight(), mid.store, m.cmd)
    {
      StepGap(law, c, mid, a);
    }
  }

  /** The gaps of the laws are the same, and ids stay issued. */
  ghost predicate SameGaps(s: Sys, s': Sys) {
    s.issued <= s'.issued && forall law: Law :: Gap(law, s') == Gap(law, s)
  }

  lemma BothReadTracked(c: Config, s: Sys, mid: Sys, job: Job) returns (s': Sys)
    requires !c.solo && Promptly(c, s, mid) && OneDueJob(mid, job)
    ensures Promptly(c, s, s') && s'.threads == map[1 := PromRem(job), 2 := PromRem(job)] && s'.store == mid.store
    ensures SameGaps(mid, s')
  {
    var s1 := Tracked(c, s, mid, Read(1, job), Move(Nop, Some(PromRem(job)), []));
    assert s1.threads == map[1 := PromRem(job)];
    s' := Tracked(c, s, s1, Read(2, job), Move(Nop, Some(PromRem(job)), []));
  }

  lemma FirstPromotes(c: Config, s: Sys, mid: Sys, job: Job) returns (s': Sys)
    requires Promptly(c, s, mid) && mid.threads == map[1 := PromRem(job), 2 := PromRem(job)]
    requires mid.store.ready == map[] && job in mid.store.delayed
    ensures Promptly(c, s, s') && s'.threads == map[2 := PromRem(job)] && SameGaps(mid, s')
    ensures s'.store.ready.Keys == {job} && job !in s'.store.delayed
  {
    s' := Tracked(c, s, mid, Go(1, 0), Move(RemDelayed(job), Some(PromAdd(job)), []));
    assert s'.threads == map[1 := PromAdd(job), 2 := PromRem(job)];
    s' := FirstAdds(c, s, s', job);
  }

  lemma FirstAdds(c: Config, s: Sys, mid: Sys, job: Job) returns (s': Sys)
    requires Promptly(c, s, mid) && mid.threads == map[1 := PromAdd(job), 2 := PromRem(job)]
    requires mid.store.ready == map[] && job !in mid.store.delayed
    ensures Promptly(c, s, s') && s'.threads == map[2 := PromRem(job)] && SameGaps(mid, s')
    ensures s'.store.ready.Keys == {job} && job !in s'.store.delayed
  {
    s' := Tracked(c, s, mid, Go(1, 0), Move(AddReady(job, ReadyScore(job.priority, mid.clock)), None, []));
    assert s'.threads == map[2 := PromRem(job)];
  }

  /** The worker beside another coroutine takes a step that misses and collapses nothing. */
  lemma WorkerMoves(c: Config, s: Sys, mid: Sys, other: Pc, pc: Pc, a: Action, m: Move) returns (s': Sys)
    requires Promptly(c, s, mid) && mid.threads == map[2 := other, 3 := pc] && mid.store.ready == map[]
    requires !a.Tick? && !a.Read? && a.t == 3 && Enabled(c, mid, a) && m == MoveOf(mid, a)
    requires m.cmd.Nop? || m.cmd.SetStatus? || m.cmd.Incr?
    ensures Promptly(c, s, s') && SameGaps(mid, s') && s'.completed == mid.completed + m.finished
    ensures s'.threads == if m.next.Some? then map[2 := other, 3 := m.next.value] else map[2 := other]
    ensures s'.store.ready == map[] && s'.store.delayed == mid.store.delayed && s'.store.status == Apply(m.cmd, mid.store).status
  {
    s' := Tracked(c, s, mid, a, m);
    ThirdGoes(other, pc, m.next);
  }

  lemma ThirdGoes(other: Pc, pc: Pc, next: Option<Pc>)
    ensures Put(map[2 := other, 3 := pc], 3, next) == if next.Some? then map[2 := other, 3 := next.value] else map[2 := other]
  {
  }

  lemma WorkerPopsIt(c: Config, s: Sys, mid: Sys, job: Job, other: Pc) returns (s': Sys)
    requires Promptly(c, s, mid) && mid.threads == map[2 := other] && mid.store.ready.Keys == {job} && HasWorker(job.typ)
    ensures Promptly(c, s, s') && s'.threads == map[2 := other, 3 := DeqStatus(job)] && SameGaps(mid, s')
    ensures s'.store.ready == map[] && s'.store.delayed == mid.store.delayed
  {
    s' := Tracked(c, s, mid, Pop(3, job), Move(PopReady(job), Some(DeqStatus(job)), []));
    assert s'.store.ready == map[];
  }

  lemma WorkerStarts(c: Config, s: Sys, mid: Sys, job: Job, other: Pc) returns (s': Sys)
    requires Promptly(c, s, mid) && mid.threads == map[2 := other, 3 := DeqStatus(job)] && Plain(c, job.typ)
    requires mid.store.ready == map[]
    ensures Promptly(c, s, s') && s'.threads == map[2 := other, 3 := Publishing(Some(job), [])] && SameGaps(mid, s')
    ensures s'.store.ready == map[] && s'.store.delayed == mid.store.delayed
  {
    var s1 := WorkerMoves(c, s, mid, other, DeqStatus(job), Go(3, 0), Move(SetStatus(job, Running, None), Some(DeqCount(job)), []));
    var s2 := WorkerMoves(c, s, s1, other, DeqCount(job), Go(3, 0), Move(Incr(Dequeued), Some(Dispatch(job)), []));
    s' := WorkerMoves(c, s, s2, other, Dispatch(job), Start(3, []), Move(Nop, Some(Publishing(Some(job), [])), []));
  }

  lemma WorkerCompletes(c: Config, s: Sys, mid: Sys, job: Job, other: Pc) returns (s': Sys)
    requires Promptly(c, s, mid) && mid.threads == map[2 := other, 3 := Publishing(Some(job), [])]
    requires mid.store.ready == map[]
    ensures Promptly(c, s, s') && s'.threads == map[2 := other] && SameGaps(mid, s') && job in s'.completed
    ensures s'.store.ready == map[] && s'.store.delayed == mid.store.delayed
  {
    var s1 := WorkerMoves(c, s, mid, other, Publishing(Some(job), []), Go(3, 0),
                          Move(SetStatus(job, Completed, None), Some(DoneCount(job)), []));
    s' := WorkerMoves(c, s, s1, other, DoneCount(job), Go(3, 0), Move(Incr(CompletedCount), None, [job]));
  }

  /** The second promoter's removal finds nothing, and its add puts a copy into the ready set. */
  lemma SecondAddsACopy(c: Config, s: Sys, mid: Sys, job: Job) returns (s': Sys)
    requires Promptly(c, s, mid) && mid.threads == map[2 := PromRem(job)]
    requires mid.store.ready == map[] && job !in mid.store.delayed
    ensures Promptly(c, s, s') && s'.threads == map[] && s'.store.ready.Keys == {job}
    ensures s'.completed == mid.completed && mid.issued <= s'.issued
    ensures forall law: Law :: Gap(law, s') == Gap(law, mid) + law.Weight()(job)
  {
    s' := Tracked(c, s, mid, Go(2, 0), Move(RemDelayed(job), Some(PromAdd(job)), []));
    assert s'.threads == map[2 := PromAdd(job)] && s'.store.ready == map[];
    s' := SecondAdds(c, s, s', job);
  }

  lemma SecondAdds(c: Config, s: Sys, mid: Sys, job: Job) returns (s': Sys)
    requires Promptly(c, s, mid) && mid.threads == map[2 := PromAdd(job)] && mid.store.ready == map[]
    ensures Promptly(c, s, s') && s'.threads == map[] && s'.store.ready.Keys == {job} && SameGaps(mid, s')
    ensures s'.completed == mid.completed
  {
    s' := Tracked(c, s, mid, Go(2, 0), Move(AddReady(job, ReadyScore(job.priority, mid.clock)), None, []));
    assert s'.threads == map[];
  }

  /** A copy of a completed job is ready, and nothing else goes on. */
  ghost predicate CopyLeft(s: Sys, job: Job) {
    s.threads == map[] && s.store.ready.Keys == {job} && job in s.completed && job.id in s.issued && HasWorker(job.typ)
  }

  /** Where a due job is found with exact books, two promoters leave a copy and wrong books behind. */
  lemma BooksGoWrong(c: Config, s: Sys, mid: Sys, job: Job) returns (s': Sys)
    requires !c.solo && Promptly(c, s, mid) && OneDueJob(mid, job) && Plain(c, job.typ) && job.attempts == 1
    requires job.id in mid.issued && forall law: Law :: Gap(law, mid) == 0
    ensures Promptly(c, s, s') && CopyLeft(s', job)
    ensures Gap(QueueLaw, s') == 1 && Gap(AttemptLaw, s') == 1
  {
    s' := BothReadTracked(c, s, mid, job);
    s' := FirstPromotes(c, s, s', job);
    s' := WorkerPopsIt(c, s, s', job, PromRem(job));
    s' := WorkerStarts(c, s, s', job, PromRem(job));
    s' := WorkerCompletes(c, s, s', job, PromRem(job));
    s' := SecondAddsACopy(c, s, s', job);
  }

  /** The start of the race, reached under one promoter with exact books. */
  lemma ReachesRace(c: Config, s: Sys) returns (mid: Sys, job: Job)
    requires Init(s)
    ensures Promptly(c, s, mid) && OneDueJob(mid, job) && Plain(c, job.typ) && job.attempts == 1 && job.id in mid.issued
    ensures forall law: Law :: Gap(law, mid) == 0
  {
    WorkersByType(UpdateAnalyticsCache);
    var d := c.(solo := true);
    mid, job := ReachesOneDueJob(d, s, Spec(UpdateAnalyticsCache, Normal, 0, Payload("", "", "")));
    var acts :| LeadsPromptly(d, s, acts, mid);
    forall law: Law ensures Gap(law, mid) == 0 { SoloLawsAreExact(law, d, s, acts); }
    InitHolds(s);
    RunKeepsInv(d, s, acts);
    DelayedAlone(mid, job);
    SoloRunsAreRuns(c, d, s, acts);
    assert LeadsPromptly(c, s, acts, mid);
  }

  lemma ReachesCopy(c: Config, s: Sys) returns (s': Sys, job: Job)
    requires !c.solo && Init(s)
    ensures Promptly(c, s, s') && CopyLeft(s', job) && !QueueBooks(s') && !AttemptBooks(s')
  {
    var mid;
    mid, job := ReachesRace(c, s);
    s' := BooksGoWrong(c, s, mid, job);
    NoThreadsNoWeight(s');
  }

  /** More than one kind of place holds the id. */
  ghost predicate Duplicated(s: Sys, id: nat) {
    Kinds(s, id) >= 2
  }

  /** From the empty queue, a duplicated job is reachable exactly when there is more than one promoter. */
  lemma DuplicatesIffTwoPromoters(c: Config, s: Sys)
    requires Init(s)
    ensures (exists s' :: Reaches(c, s, s') && exists id: nat :: Duplicated(s', id)) <==> !c.solo
  {
    if c.solo {
      forall s', id: nat | Reaches(c, s, s') ensures !Duplicated(s', id) {
        var acts :| Leads(c, s, acts, s');
        ExactlyOnePlace(c, s, acts, id);
      }
    } else {
      var s', job := ReachesCopy(c, s);
      PromptlyReaches(c, s, s');
      assert InReady(s', job.id) && InCompleted(s', job.id);
      assert Duplicated(s', job.id);
    }
  }

  /** From the empty queue, wrong queue books with no metric owed are reachable exactly when there is more than one promoter. */
  lemma QueueBooksFailIffTwoPromoters(c: Config, s: Sys)
    requires Init(s)
    ensures (exists s' :: Reaches(c, s, s') && NothingOwed(s') && !QueueBooks(s')) <==> !c.solo
  {
    if c.solo {
      forall s' | Reaches(c, s, s') && NothingOwed(s') ensures QueueBooks(s') {
        var acts :| Leads(c, s, acts, s');
        SoloBooks(c, s, acts);
      }
    } else {
      var s', _ := ReachesCopy(c, s);
      PromptlyReaches(c, s, s');
      NoThreadsNoWeight(s');
    }
  }

  /** And so for the attempts on record when all coroutines have finished. */
  lemma AttemptBooksFailIffTwoPromoters(c: Config, s: Sys)
    requires Init(s)
    ensures (exists s' :: Reaches(c, s, s') && s'.threads == map[] && !AttemptBooks(s')) <==> !c.solo
  {
    if c.solo {
      forall s' | Reaches(c, s, s') && s'.threads == map[] ensures AttemptBooks(s') {
        var acts :| Leads(c, s, acts, s');
        SoloBooks(c, s, acts);
      }
    } else {
      var s', _ := ReachesCopy(c, s);
      PromptlyReaches(c, s, s');
    }
  }

  // ----- the status hash

  /** An issued id with no status write owed whose status does not say where its job is. */
  ghost predicate Obscure(s: Sys, id: nat) {
    id in s.issued && NoDebt(s, id) && !TellsPlace(s, id)
  }

  /** A worker that starts the copy announces RUNNING for a completed job. */
  lemma CopyStarts(c: Config, s: Sys, mid: Sys, job: Job) returns (s': Sys)
    requires Promptly(c, s, mid) && CopyLeft(mid, job)
    ensures Promptly(c, s, s') && Obscure(s', job.id)
  {
    var popped := Tracked(c, s, mid, Pop(3, job), Move(PopReady(job), Some(DeqStatus(job)), []));
    assert popped.threads == map[3 := DeqStatus(job)];
    s' := CopyAnnounced(c, s, popped, job);
  }

  lemma CopyAnnounced(c: Config, s: Sys, mid: Sys, job: Job) returns (s': Sys)
    requires Promptly(c, s, mid) && mid.threads == map[3 := DeqStatus(job)] && job in mid.completed && job.id in mid.issued
    ensures Promptly(c, s, s') && Obscure(s', job.id)
  {
    s' := Tracked(c, s, mid, Go(3, 0), Move(SetStatus(job, Running, None), Some(DeqCount(job)), []));
    assert s'.threads == map[3 := DeqCount(job)];
    RunningAndCompleted(s', job);
  }

  lemma RunningAndCompleted(s: Sys, job: Job)
    requires s.threads == map[3 := DeqCount(job)] && job in s.completed && job.id in s.issued
    requires Has(s.store.status, job.id, Running)
    ensures Obscure(s, job.id)
  {
    assert InCompleted(s, job.id);
  }

  /** From the empty queue, prompt runs reach a status that does not tell the place exactly when there is more than one promoter. */
  lemma StatusObscureIffTwoPromoters(c: Config, s: Sys)
    requires Init(s)
    ensures (exists s' :: Promptly(c, s, s') && exists id: nat :: Obscure(s', id)) <==> !c.solo
  {
    if c.solo {
      forall s', id: nat | Promptly(c, s, s') ensures !Obscure(s', id) {
        var acts :| LeadsPromptly(c, s, acts, s');
        if id in s'.issued && NoDebt(s', id) { SoloStatusTellsPlace(c, s, acts, id); }
      }
    } else {
      var s', job := ReachesCopy(c, s);
      s' := CopyStarts(c, s, s', job);
    }
  }

  lemma WaitUnwritten(c: Config, s: Sys, mid: Sys, job: Job) returns (s': Sys)
    requires Promptly(c, s, mid) && HasWorker(job.typ)
    requires mid.threads == map[0 := RetryStatus(job)] && mid.store.ready == map[] && mid.store.delayed.Keys == {job}
    ensures Promptly(c, s, s') && LateWriter(s', job)
  {
    var due := mid.store.delayed[job];
    var a := Tick(if due > mid.clock then due else mid.clock);
    s' := Next(c, mid, a);
    ReachesNext(c, s, mid, a, s');
  }

  /** From the empty queue a misleading status is reachable, with one promoter as with several. */
  lemma StatusCanMislead(c: Config, s: Sys)
    requires Init(s)
    ensures exists s' :: Reaches(c, s, s') && exists id: nat :: Misleads(s', id)
  {
    WorkersByType(UpdateAnalyticsCache);
    var mid, job := ReachesFailure(c, s, Spec(UpdateAnalyticsCache, Normal, 0, Payload("", "", "")));
    mid := WaitUnwritten(c, s, mid, job);
    var acts := LateWriteLies(c, mid, job);
    var s' := End(c, mid, acts);
    ReachesAlong(c, s, mid, acts, s');
    assert Misleads(s', job.id);
  }
}
