/**
 The run budget is tight for any number k of promoters. In the worst run every handler publishes all it
 can and then fails, and all k promoters read its retry before one of them removes it; a worker takes
 each of the k copies before the next one is added, so that no two of them collapse in the ready set.
 */
module Tightness {
  import opened Wrappers
  import opened Sums
  import opened Jobs
  import opened RedisStore
  import opened Protocol
  import opened Cascade
  import opened Budgets
  import opened Termination
  import opened Progress

  // ----- runs by what they leave behind

  /** The part of a state that counts here; scores, statuses and metrics aside. */
  datatype View = View(threads: map<nat, Pc>, ready: set<Job>, delayed: set<Job>, runs: nat)

  function ViewOf(s: Sys): View {
    View(s.threads, s.store.ready.Keys, s.store.delayed.Keys, s.runs)
  }

  function After(v: View, t: nat, m: Move, started: bool): View {
    View(Put(v.threads, t, m.next),
         if m.cmd.AddReady? then v.ready + {m.cmd.job} else if m.cmd.PopReady? then v.ready - {m.cmd.job} else v.ready,
         if m.cmd.AddDelayed? then v.delayed + {m.cmd.job} else if m.cmd.RemDelayed? then v.delayed - {m.cmd.job} else v.delayed,
         v.runs + if started then 1 else 0)
  }

  ghost predicate Few(k: nat, s: Sys) {
    |Promoters(s.threads)| <= k
  }

  ghost predicate Leads(c: Config, k: nat, s: Sys, acts: seq<Action>, s': Sys) {
    Runs(c, s, acts) && Closed(acts) && CrewedRun(c, k, s, acts) && End(c, s, acts) == s'
  }

  /** Some closed run with at most k promoters ends in the second state. */
  ghost predicate Reach(c: Config, k: nat, s: Sys, s': Sys) {
    exists acts :: Leads(c, k, s, acts, s')
  }

  lemma Stays(c: Config, k: nat, s: Sys)
    requires Few(k, s)
    ensures Reach(c, k, s, s)
  {
    assert Leads(c, k, s, [], s);
  }

  lemma {:induction false} CrewConcat(c: Config, k: nat, s: Sys, front: seq<Action>, back: seq<Action>)
    requires Runs(c, s, front) && CrewedRun(c, k, s, front)
    requires Runs(c, End(c, s, front), back) && CrewedRun(c, k, End(c, s, front), back)
    ensures Runs(c, s, front + back) && CrewedRun(c, k, s, front + back)
    ensures End(c, s, front + back) == End(c, End(c, s, front), back)
    decreases |front|
  {
    if front == [] {
      assert front + back == back;
    } else {
      CrewConcat(c, k, Next(c, s, front[0]), front[1..], back);
      CrewCons(c, k, s, front[0], front[1..] + back);
      assert [front[0]] + (front[1..] + back) == front + back;
    }
  }

  lemma Then(c: Config, k: nat, s: Sys, s1: Sys, s2: Sys)
    requires Reach(c, k, s, s1) && Reach(c, k, s1, s2)
    ensures Reach(c, k, s, s2)
  {
    var front :| Leads(c, k, s, front, s1);
    var back :| Leads(c, k, s1, back, s2);
    CrewConcat(c, k, s, front, back);
    assert Closed(front + back);
    assert Leads(c, k, s, front + back, s2);
  }

  lemma OneStep(c: Config, k: nat, s: Sys, a: Action)
    requires Enabled(c, s, a) && !a.Client? && Few(k, s) && Crewed(k, s, a)
    ensures Reach(c, k, s, Next(c, s, a)) && Few(k, Next(c, s, a))
  {
    StepKeepsCrew(c, k, s, a);
    CrewCons(c, k, s, a, []);
    assert Leads(c, k, s, [a] + [], Next(c, s, a));
  }

  lemma ViewAfter(c: Config, s: Sys, a: Action)
    requires Enabled(c, s, a) && !a.Tick?
    ensures ViewOf(Next(c, s, a)) == After(ViewOf(s), a.t, MoveOf(s, a), a.Start?)
  {
    NextState(c, s, a);
    RunsCounted(c, s, a);
    KeysAfter(s.store, MoveOf(s, a).cmd);
  }

  lemma KeysAfter(s: Store, cmd: Cmd)
    ensures Apply(cmd, s).ready.Keys
            == if cmd.AddReady? then s.ready.Keys + {cmd.job} else if cmd.PopReady? then s.ready.Keys - {cmd.job} else s.ready.Keys
    ensures Apply(cmd, s).delayed.Keys
            == if cmd.AddDelayed? then s.delayed.Keys + {cmd.job} else if cmd.RemDelayed? then s.delayed.Keys - {cmd.job} else s.delayed.Keys
  {
  }

  /** One step inside the system, and what it leaves to see. */
  lemma Does(c: Config, k: nat, s: Sys, a: Action) returns (s': Sys)
    requires Enabled(c, s, a) && !a.Client? && !a.Tick? && Few(k, s) && Crewed(k, s, a)
    ensures s' == Next(c, s, a) && Reach(c, k, s, s') && Few(k, s')
    ensures ViewOf(s') == After(ViewOf(s), a.t, MoveOf(s, a), a.Start?)
  {
    s' := Next(c, s, a);
    OneStep(c, k, s, a);
    ViewAfter(c, s, a);
  }

  /** The same for a step of coroutine t when nothing goes wrong. */
  lemma Goes(c: Config, k: nat, s: Sys, t: nat, id: nat) returns (s': Sys)
    requires t in s.threads && !s.threads[t].Dispatch? && Few(k, s)
    requires s.threads[t].Publishing? && s.threads[t].todo != [] ==> id !in s.issued
    ensures Reach(c, k, s, s') && Few(k, s') && s'.clock == s.clock
    ensures ViewOf(s') == After(ViewOf(s), t, GoMove(s.threads[t], s.clock, id), false)
  {
    s' := Does(c, k, s, Go(t, id));
    NextState(c, s, Go(t, id));
  }

  /** Of two moves of one coroutine, the second says where it stands. */
  lemma SecondStands(v: View, t: nat, m1: Move, m2: Move, started: bool)
    requires m1.next.Some?
    ensures After(After(v, t, m1, false), t, m2, started).threads == Put(v.threads, t, m2.next)
  {
    if m2.next.None? { assert v.threads[t := m1.next.value] - {t} == v.threads - {t}; }
  }

  /** A coroutine makes two steps in a row. */
  lemma GoesTwice(c: Config, k: nat, s: Sys, t: nat, pc: Pc, mid: Pc) returns (s': Sys)
    requires Few(k, s) && t in s.threads && s.threads[t] == pc && !pc.Dispatch? && !pc.Publishing? && !mid.Dispatch? && !mid.Publishing?
    requires GoMove(pc, s.clock, 0).next == Some(mid)
    ensures Reach(c, k, s, s') && Few(k, s')
    ensures ViewOf(s') == After(After(ViewOf(s), t, GoMove(pc, s.clock, 0), false), t, GoMove(mid, s.clock, 0), false)
    ensures s'.threads == Put(s.threads, t, GoMove(mid, s.clock, 0).next)
  {
    var s1 := Goes(c, k, s, t, 0);
    s' := Goes(c, k, s1, t, 0);
    Then(c, k, s, s1, s');
    SecondStands(ViewOf(s), t, GoMove(pc, s.clock, 0), GoMove(mid, s.clock, 0), false);
  }

  // ----- what the coroutines still carry

  /** A worker that has popped the job and done nothing yet. */
  predicate Parked(pc: Pc) {
    pc.DeqStatus? && SoundJob(pc.job)
  }

  ghost predicate OthersParked(threads: map<nat, Pc>, t: nat) {
    forall u :: u in threads && u != t ==> Parked(threads[u])
  }

  /** Every job in the system is in the hand of a parked worker. */
  ghost predicate Calm(s: Sys) {
    s.store.ready.Keys == {} && s.store.delayed.Keys == {} && forall t :: t in s.threads ==> Parked(s.threads[t])
  }

  ghost function Pending(threads: map<nat, Pc>, n: nat, k: nat): int {
    SumMap(threads, RunWeights(n, k).hand)
  }

  lemma PendingPut(threads: map<nat, Pc>, t: nat, next: Option<Pc>, n: nat, k: nat)
    ensures Pending(Put(threads, t, next), n, k)
            == Pending(threads, n, k) + RunsHeldBy(next, n, k) - (if t in threads then RunsHeld(threads[t], n, k) else 0)
  {
    HandCost(RunWeights(n, k), threads, t, next);
  }

  // ----- taking and publishing

  /** A new worker takes the only ready job. */
  lemma Takes(c: Config, k: nat, s: Sys, job: Job) returns (u: nat, s': Sys)
    requires Few(k, s) && s.store.ready.Keys == {job} && HasWorker(job.typ)
    ensures u !in s.threads && Reach(c, k, s, s') && Few(k, s')
    ensures ViewOf(s') == View(s.threads[u := DeqStatus(job)], {}, s.store.delayed.Keys, s.runs)
  {
    u := FreshNumber(s.threads.Keys);
    s' := Does(c, k, s, Pop(u, job));
    assert {job} - {job} == {};
  }

  predicate Prompt(todo: seq<Spec>) {
    forall spec :: spec in todo ==> HasWorker(spec.typ) && spec.delay == 0
  }

  /** Three steps put the next job of the list into the ready set. */
  lemma Enqueues(c: Config, k: nat, s: Sys, t: nat, parent: Option<Job>, todo: seq<Spec>) returns (child: Job, s': Sys)
    requires Few(k, s) && t in s.threads && s.threads[t] == Publishing(parent, todo) && todo != [] && Prompt(todo)
    ensures Reach(c, k, s, s') && Few(k, s')
    ensures SoundJob(child) && child.typ == todo[0].typ && child.attempts == 0
    ensures ViewOf(s') == View(s.threads[t := Publishing(parent, todo[1..])], s.store.ready.Keys + {child}, s.store.delayed.Keys, s.runs)
  {
    assert todo[0] in todo;
    var s1;
    child, s1 := Announces(c, k, s, t, parent, todo);
    var next := Publishing(parent, todo[1..]);
    s' := GoesTwice(c, k, s1, t, EnqAdd(parent, todo[1..], child, 0), EnqCount(parent, todo[1..]));
    Then(c, k, s, s1, s');
    assert s.threads[t := EnqAdd(parent, todo[1..], child, 0)][t := next] == s.threads[t := next];
  }

  lemma Announces(c: Config, k: nat, s: Sys, t: nat, parent: Option<Job>, todo: seq<Spec>) returns (child: Job, s': Sys)
    requires Few(k, s) && t in s.threads && s.threads[t] == Publishing(parent, todo) && todo != []
    ensures Reach(c, k, s, s') && Few(k, s') && child.typ == todo[0].typ && child.attempts == 0
    ensures ViewOf(s') == ViewOf(s).(threads := s.threads[t := EnqAdd(parent, todo[1..], child, todo[0].delay)])
  {
    var id := FreshNumber(s.issued);
    child := NewJob(id, todo[0]);
    s' := Goes(c, k, s, t, id);
  }

  /** Coroutine t has this list still to publish, beside parked workers; together they carry x runs. */
  ghost predicate Publisher(threads: map<nat, Pc>, t: nat, parent: Option<Job>, todo: seq<Spec>, x: int, n: nat, k: nat) {
    t in threads && threads[t] == Publishing(parent, todo) && OthersParked(threads, t) && Pending(threads, n, k) == x
  }

  /** The list is published, each new job taken before the next one is enqueued. */
  lemma {:induction false} Publishes(c: Config, k: nat, s: Sys, t: nat, parent: Option<Job>, todo: seq<Spec>, x: int) returns (s': Sys)
    requires Few(k, s) && Publisher(s.threads, t, parent, todo, x, c.maxExpired, k) && Prompt(todo) && s.store.ready.Keys == {}
    ensures Reach(c, k, s, s') && Few(k, s') && Publisher(s'.threads, t, parent, [], x, c.maxExpired, k)
    ensures s'.store.ready.Keys == {} && s'.store.delayed.Keys == s.store.delayed.Keys && s'.runs == s.runs
    decreases |todo|
  {
    if todo == [] {
      s' := s;
      Stays(c, k, s);
    } else {
      var s1 := PublishesOne(c, k, s, t, parent, todo, x);
      s' := Publishes(c, k, s1, t, parent, todo[1..], x);
      Then(c, k, s, s1, s');
    }
  }

  lemma PublishesOne(c: Config, k: nat, s: Sys, t: nat, parent: Option<Job>, todo: seq<Spec>, x: int) returns (s': Sys)
    requires Few(k, s) && Publisher(s.threads, t, parent, todo, x, c.maxExpired, k) && todo != [] && Prompt(todo)
    requires s.store.ready.Keys == {}
    ensures Reach(c, k, s, s') && Few(k, s') && Publisher(s'.threads, t, parent, todo[1..], x, c.maxExpired, k)
    ensures s'.store.ready.Keys == {} && s'.store.delayed.Keys == s.store.delayed.Keys && s'.runs == s.runs
  {
    var child, s1 := Enqueues(c, k, s, t, parent, todo);
    assert ViewOf(s1).ready == {child};
    var u, s2 := Takes(c, k, s1, child);
    s' := s2;
    Then(c, k, s, s1, s2);
    ChildIsTaken(s.threads, t, parent, todo, u, child, x, c.maxExpired, k);
    assert ViewOf(s1).threads == s.threads[t := Publishing(parent, todo[1..])];
    assert ViewOf(s2).threads == s.threads[t := Publishing(parent, todo[1..])][u := DeqStatus(child)];
    assert ViewOf(s2).ready == {};
  }

  lemma ChildIsTaken(threads: map<nat, Pc>, t: nat, parent: Option<Job>, todo: seq<Spec>, u: nat, child: Job, x: int, n: nat, k: nat)
    requires Publisher(threads, t, parent, todo, x, n, k) && todo != [] && todo[0].delay == 0 && u !in threads
    requires SoundJob(child) && child.typ == todo[0].typ && child.attempts == 0
    ensures Publisher(threads[t := Publishing(parent, todo[1..])][u := DeqStatus(child)], t, parent, todo[1..], x, n, k)
  {
    ChildIsPending(threads, t, parent, todo, u, child, n, k);
  }

  lemma ChildIsPending(threads: map<nat, Pc>, t: nat, parent: Option<Job>, todo: seq<Spec>, u: nat, child: Job, n: nat, k: nat)
    requires t in threads && threads[t] == Publishing(parent, todo) && todo != [] && todo[0].delay == 0 && u !in threads
    requires child.typ == todo[0].typ && child.attempts == 0
    ensures Pending(threads[t := Publishing(parent, todo[1..])][u := DeqStatus(child)], n, k) == Pending(threads, n, k)
  {
    var next := Publishing(parent, todo[1..]);
    PendingPut(threads, t, Some(next), n, k);
    PendingPut(threads[t := next], u, Some(DeqStatus(child)), n, k);
  }

  // ----- failing, and the copies of the retry

  lemma Raises(c: Config, k: nat, s: Sys, t: nat, job: Job) returns (s': Sys)
    requires Few(k, s) && t in s.threads && s.threads[t] == Publishing(Some(job), []) && SoundJob(job)
    ensures Reach(c, k, s, s') && Few(k, s')
    ensures var failed, dead := AfterFailure(job, ""), job.attempts + 1 >= MAX_ATTEMPTS;
            ViewOf(s') == View(s.threads[t := if dead then DeadStatus(failed) else RetryStatus(failed)], s.store.ready.Keys,
                               s.store.delayed.Keys + (if dead then {} else {failed}), s.runs)
  {
    WorkersByType(job.typ);
    s' := Does(c, k, s, Raise(t, ""));
  }

  lemma Buries(c: Config, k: nat, s: Sys, t: nat, job: Job) returns (s': Sys)
    requires Few(k, s) && t in s.threads && s.threads[t] == DeadStatus(job)
    ensures Reach(c, k, s, s') && Few(k, s') && ViewOf(s') == ViewOf(s).(threads := s.threads - {t})
  {
    s' := GoesTwice(c, k, s, t, DeadStatus(job), DeadCount(job));
  }

  lemma Shelves(c: Config, k: nat, s: Sys, t: nat, job: Job) returns (s': Sys)
    requires Few(k, s) && t in s.threads && s.threads[t] == RetryStatus(job)
    ensures Reach(c, k, s, s') && Few(k, s') && ViewOf(s') == ViewOf(s).(threads := s.threads - {t})
  {
    s' := GoesTwice(c, k, s, t, RetryStatus(job), RetryCount(job));
  }

  /** The last failure: dead-lettered. */
  lemma Dies(c: Config, k: nat, s: Sys, t: nat, job: Job) returns (s': Sys)
    requires Few(k, s) && t in s.threads && s.threads[t] == Publishing(Some(job), []) && SoundJob(job)
    requires job.attempts + 1 >= MAX_ATTEMPTS
    ensures Reach(c, k, s, s') && Few(k, s')
    ensures ViewOf(s') == View(s.threads - {t}, s.store.ready.Keys, s.store.delayed.Keys, s.runs)
  {
    var failed := AfterFailure(job, "");
    var s1 := Raises(c, k, s, t, job);
    s' := Buries(c, k, s1, t, failed);
    Then(c, k, s, s1, s');
    assert s.threads[t := DeadStatus(failed)] - {t} == s.threads - {t};
  }

  /** Any other failure: delayed. */
  lemma Fails(c: Config, k: nat, s: Sys, t: nat, job: Job) returns (s': Sys)
    requires Few(k, s) && t in s.threads && s.threads[t] == Publishing(Some(job), []) && SoundJob(job)
    requires job.attempts + 1 < MAX_ATTEMPTS
    ensures Reach(c, k, s, s') && Few(k, s')
    ensures ViewOf(s') == View(s.threads - {t}, s.store.ready.Keys, s.store.delayed.Keys + {AfterFailure(job, "")}, s.runs)
  {
    var failed := AfterFailure(job, "");
    var s1 := Raises(c, k, s, t, job);
    s' := Shelves(c, k, s1, t, failed);
    Then(c, k, s, s1, s');
    assert s.threads[t := RetryStatus(failed)] - {t} == s.threads - {t};
  }

  /** The only delayed job comes due. */
  lemma ComesDue(c: Config, k: nat, s: Sys, job: Job) returns (s': Sys)
    requires Few(k, s) && s.store.delayed.Keys == {job}
    ensures Reach(c, k, s, s') && Few(k, s') && ViewOf(s') == ViewOf(s) && FirstDue(s'.store, job, s'.clock)
  {
    assert job in s.store.delayed.Keys;
    var due := s.store.delayed[job];
    var wait := Tick(if s.clock >= due then s.clock else due);
    s' := Next(c, s, wait);
    OneStep(c, k, s, wait);
    assert forall j :: j in s.store.delayed ==> j in s.store.delayed.Keys;
  }

  ghost predicate ParkedOrReading(threads: map<nat, Pc>, job: Job) {
    forall t :: t in threads ==> Parked(threads[t]) || threads[t] == PromRem(job)
  }

  /** Beside parked workers, p promoters have read the job; together they carry x runs. */
  ghost predicate Reading(threads: map<nat, Pc>, job: Job, p: nat, x: int, n: nat, k: nat) {
    ParkedOrReading(threads, job) && |Promoters(threads)| == p && Pending(threads, n, k) == x
  }

  /** Given m more promoters, all of them read the due job: q readers then carry y runs. */
  lemma {:induction false} AllRead(c: Config, k: nat, s: Sys, job: Job, p: nat, x: int, m: nat, q: nat, y: int) returns (s': Sys)
    requires q == p + m <= k && (c.solo ==> q <= 1) && y == Grown(x, m, RunsOf(job, c.maxExpired, k))
    requires FirstDue(s.store, job, s.clock) && Reading(s.threads, job, p, x, c.maxExpired, k)
    ensures Reach(c, k, s, s') && s'.store == s.store && s'.runs == s.runs && Reading(s'.threads, job, q, y, c.maxExpired, k)
    decreases m
  {
    if m == 0 {
      s' := s;
      NoneRead(c, k, s, job, p, x);
    } else {
      var s1 := OneReads(c, k, s, job, p, x);
      s' := AllRead(c, k, s1, job, p + 1, x + RunsOf(job, c.maxExpired, k), m - 1, q, y);
      Then(c, k, s, s1, s');
    }
  }

  lemma NoneRead(c: Config, k: nat, s: Sys, job: Job, p: nat, x: int)
    requires p <= k && Reading(s.threads, job, p, x, c.maxExpired, k)
    ensures Reach(c, k, s, s)
  {
    Stays(c, k, s);
  }

  function Grown(x: int, m: nat, runs: int): int
    decreases m
  {
    if m == 0 then x else Grown(x + runs, m - 1, runs)
  }

  lemma {:induction false} GrownByCopies(x: int, m: nat, runs: nat)
    ensures Grown(x, m, runs) == x + Copies(m, runs)
    decreases m
  {
    if m > 0 {
      GrownByCopies(x + runs, m - 1, runs);
      OneCopyMore(m - 1, runs);
    }
  }

  lemma OneReads(c: Config, k: nat, s: Sys, job: Job, p: nat, x: int) returns (s': Sys)
    requires p < k && (c.solo ==> p == 0)
    requires FirstDue(s.store, job, s.clock) && Reading(s.threads, job, p, x, c.maxExpired, k)
    ensures Reach(c, k, s, s') && Few(k, s') && Reading(s'.threads, job, p + 1, x + RunsOf(job, c.maxExpired, k), c.maxExpired, k)
    ensures s'.store == s.store && s'.runs == s.runs && FirstDue(s'.store, job, s'.clock)
  {
    var t := FreshNumber(s.threads.Keys);
    if c.solo { NoPromoters(s.threads); }
    var a := Read(t, job);
    s' := Next(c, s, a);
    OneStep(c, k, s, a);
    NextState(c, s, a);
    RunsCounted(c, s, a);
    OneReaderMore(s.threads, t, job);
    PendingPut(s.threads, t, Some(PromRem(job)), c.maxExpired, k);
  }

  lemma OneReaderMore(threads: map<nat, Pc>, t: nat, job: Job)
    requires t !in threads && ParkedOrReading(threads, job)
    ensures ParkedOrReading(threads[t := PromRem(job)], job)
    ensures |Promoters(threads[t := PromRem(job)])| == |Promoters(threads)| + 1
  {
    PromotersPut(threads, t, PromRem(job));
    assert t !in Promoters(threads);
  }

  lemma PromotersPut(threads: map<nat, Pc>, t: nat, pc: Pc)
    ensures Promoters(threads[t := pc]) == if Promoting(pc) then Promoters(threads) + {t} else Promoters(threads) - {t}
  {
  }

  lemma PromotersDrop(threads: map<nat, Pc>, t: nat)
    ensures Promoters(threads - {t}) == Promoters(threads) - {t}
  {
  }

  lemma NoPromoters(threads: map<nat, Pc>)
    requires |Promoters(threads)| == 0
    ensures forall t :: t in threads ==> !Promoting(threads[t])
  {
    forall t | t in threads ensures !Promoting(threads[t]) { assert t !in Promoters(threads); }
  }

  /** Every reader removes, adds its copy, and a worker takes the copy. */
  lemma {:induction false} AllAdd(c: Config, k: nat, s: Sys, job: Job) returns (s': Sys)
    requires Few(k, s) && ParkedOrReading(s.threads, job) && SoundJob(job)
    requires s.store.ready.Keys == {} && s.store.delayed.Keys <= {job}
    requires s.store.delayed.Keys == {} || |Promoters(s.threads)| > 0
    ensures Reach(c, k, s, s') && Few(k, s') && Calm(s') && s'.runs == s.runs
    ensures Pending(s'.threads, c.maxExpired, k) == Pending(s.threads, c.maxExpired, k)
    decreases |Promoters(s.threads)|
  {
    if |Promoters(s.threads)| == 0 {
      NoPromoters(s.threads);
      s' := s;
      Stays(c, k, s);
    } else {
      var s1 := OneAdds(c, k, s, job);
      s' := AllAdd(c, k, s1, job);
      Then(c, k, s, s1, s');
    }
  }

  lemma OneAdds(c: Config, k: nat, s: Sys, job: Job) returns (s': Sys)
    requires Few(k, s) && ParkedOrReading(s.threads, job) && SoundJob(job)
    requires s.store.ready.Keys == {} && s.store.delayed.Keys <= {job} && |Promoters(s.threads)| > 0
    ensures Reach(c, k, s, s') && Few(k, s') && ParkedOrReading(s'.threads, job)
    ensures s'.store.ready.Keys == {} && s'.store.delayed.Keys == {} && s'.runs == s.runs
    ensures |Promoters(s'.threads)| == |Promoters(s.threads)| - 1
    ensures Pending(s'.threads, c.maxExpired, k) == Pending(s.threads, c.maxExpired, k)
  {
    var t :| t in Promoters(s.threads);
    var s1 := CopyReady(c, k, s, t, job);
    var u, s2 := Takes(c, k, s1, job);
    s' := s2;
    Then(c, k, s, s1, s2);
    assert ViewOf(s1).threads == s.threads - {t} && ViewOf(s2).threads == (s.threads - {t})[u := DeqStatus(job)];
    assert ViewOf(s2).ready == {} && ViewOf(s2).delayed == {};
    CopyIsTaken(s.threads, t, u, job, c.maxExpired, k);
  }

  lemma CopyIsTaken(threads: map<nat, Pc>, t: nat, u: nat, job: Job, n: nat, k: nat)
    requires t in threads && threads[t] == PromRem(job) && u !in threads - {t} && ParkedOrReading(threads, job) && SoundJob(job)
    ensures var after := (threads - {t})[u := DeqStatus(job)];
            && ParkedOrReading(after, job) && |Promoters(after)| == |Promoters(threads)| - 1
            && Pending(after, n, k) == Pending(threads, n, k)
  {
    OneReaderLess(threads, t, u, job);
    CopyStaysPending(threads, t, u, job, n, k);
  }

  lemma CopyStaysPending(threads: map<nat, Pc>, t: nat, u: nat, job: Job, n: nat, k: nat)
    requires t in threads && threads[t] == PromRem(job) && u !in threads - {t}
    ensures Pending((threads - {t})[u := DeqStatus(job)], n, k) == Pending(threads, n, k)
  {
    PendingPut(threads, t, None, n, k);
    PendingPut(threads - {t}, u, Some(DeqStatus(job)), n, k);
  }

  lemma OneReaderLess(threads: map<nat, Pc>, t: nat, u: nat, job: Job)
    requires t in threads && threads[t] == PromRem(job) && u !in threads - {t} && ParkedOrReading(threads, job) && SoundJob(job)
    ensures var after := (threads - {t})[u := DeqStatus(job)];
            ParkedOrReading(after, job) && |Promoters(after)| == |Promoters(threads)| - 1
  {
    PromotersDrop(threads, t);
    PromotersPut(threads - {t}, u, DeqStatus(job));
    assert u !in Promoters(threads - {t}) && t in Promoters(threads);
  }

  lemma CopyReady(c: Config, k: nat, s: Sys, t: nat, job: Job) returns (s': Sys)
    requires Few(k, s) && t in s.threads && s.threads[t] == PromRem(job)
    requires s.store.ready.Keys == {} && s.store.delayed.Keys <= {job}
    ensures Reach(c, k, s, s') && Few(k, s') && ViewOf(s') == View(s.threads - {t}, {job}, {}, s.runs)
  {
    s' := GoesTwice(c, k, s, t, PromRem(job), PromAdd(job));
  }

  /** The delayed job reaches the workers in k copies. */
  lemma Multiplies(c: Config, k: nat, s: Sys, job: Job) returns (s': Sys)
    requires k >= 1 && (c.solo ==> k == 1) && SoundJob(job)
    requires forall t :: t in s.threads ==> Parked(s.threads[t])
    requires s.store.ready.Keys == {} && s.store.delayed.Keys == {job}
    ensures Reach(c, k, s, s') && Calm(s') && s'.runs == s.runs
    ensures Pending(s'.threads, c.maxExpired, k) == Pending(s.threads, c.maxExpired, k) + Copies(k, RunsOf(job, c.maxExpired, k))
  {
    NoPromotersYet(s.threads);
    var s1 := ComesDue(c, k, s, job);
    assert ViewOf(s1).threads == s.threads;
    var x, runs := Pending(s.threads, c.maxExpired, k), RunsOf(job, c.maxExpired, k);
    var s2 := AllRead(c, k, s1, job, 0, x, k, k, Grown(x, k, runs));
    GrownByCopies(x, k, runs);
    assert s2.store.delayed.Keys == ViewOf(s1).delayed && s2.store.ready.Keys == ViewOf(s1).ready;
    s' := AllAdd(c, k, s2, job);
    Then(c, k, s, s1, s2);
    Then(c, k, s, s2, s');
  }

  // ----- one handler run after the other

  /** The most a handler can publish. */
  lemma FullHandlerRun(t: JobType, p: Payload, n: nat, k: nat) returns (events: seq<Event>)
    ensures HandlerPublishes(t, events, n) && TodoRuns(Published(events), n, k) == SpawnedRuns(t, n, k)
    ensures Prompt(Published(events))
  {
    if t.ExpiredCleanup? {
      events := seq(n, _ => Event(LinkExpired, p));
      ExpiredEvents(events, n, k);
    } else if t.InitHealth? {
      events := [Event(HealthCheckStarted, p)];
      SingleSpec(HealthCheck, High, p, n, k);
      assert Published(events[1..]) == [];
      assert Published(events) == SpecsFor([(HealthCheck, High)], p) + [];
    } else {
      events := SomeHandlerRun(t, p, n);
      QuietHandlers(t, events, n);
    }
    PublishedJobsHaveWorkers(events);
  }

  /** A parked worker starts its handler with these events. */
  lemma Starts(c: Config, k: nat, s: Sys, t: nat, job: Job, events: seq<Event>) returns (s': Sys)
    requires Few(k, s) && t in s.threads && s.threads[t] == DeqStatus(job) && HandlerPublishes(job.typ, events, c.maxExpired)
    ensures Reach(c, k, s, s') && Few(k, s')
    ensures ViewOf(s') == View(s.threads[t := Publishing(Some(job), Published(events))], s.store.ready.Keys, s.store.delayed.Keys, s.runs + 1)
  {
    var s1 := GoesTwice(c, k, s, t, DeqStatus(job), DeqCount(job));
    s' := Begins(c, k, s1, t, job, events);
    Then(c, k, s, s1, s');
    assert s.threads[t := Dispatch(job)][t := Publishing(Some(job), Published(events))]
           == s.threads[t := Publishing(Some(job), Published(events))];
  }

  lemma Begins(c: Config, k: nat, s: Sys, t: nat, job: Job, events: seq<Event>) returns (s': Sys)
    requires Few(k, s) && t in s.threads && s.threads[t] == Dispatch(job) && HandlerPublishes(job.typ, events, c.maxExpired)
    ensures Reach(c, k, s, s') && Few(k, s')
    ensures ViewOf(s') == View(s.threads[t := Publishing(Some(job), Published(events))], s.store.ready.Keys, s.store.delayed.Keys, s.runs + 1)
  {
    s' := Does(c, k, s, Start(t, events));
  }

  /** A worker whose handler has published everything fails, and its retry is multiplied. */
  lemma Retires(c: Config, k: nat, s: Sys, t: nat, job: Job) returns (s': Sys)
    requires k >= 1 && (c.solo ==> k == 1) && Few(k, s)
    requires t in s.threads && s.threads[t] == Publishing(Some(job), []) && SoundJob(job) && OthersParked(s.threads, t)
    requires s.store.ready.Keys == {} && s.store.delayed.Keys == {}
    ensures Reach(c, k, s, s') && Calm(s') && s'.runs == s.runs
    ensures Pending(s'.threads, c.maxExpired, k) == Pending(s.threads, c.maxExpired, k)
  {
    RetryIsPending(s.threads, t, job, c.maxExpired, k);
    if job.attempts + 1 >= MAX_ATTEMPTS {
      s' := Dies(c, k, s, t, job);
      CalmView(s', s.threads - {t}, s.runs);
    } else {
      s' := RetiresLate(c, k, s, t, job);
    }
  }

  lemma RetiresLate(c: Config, k: nat, s: Sys, t: nat, job: Job) returns (s': Sys)
    requires k >= 1 && (c.solo ==> k == 1) && Few(k, s)
    requires t in s.threads && s.threads[t] == Publishing(Some(job), []) && SoundJob(job) && OthersParked(s.threads, t)
    requires s.store.ready.Keys == {} && s.store.delayed.Keys == {} && job.attempts + 1 < MAX_ATTEMPTS
    ensures Reach(c, k, s, s') && Calm(s') && s'.runs == s.runs
    ensures Pending(s'.threads, c.maxExpired, k)
            == Pending(s.threads - {t}, c.maxExpired, k) + Copies(k, RunsOf(AfterFailure(job, ""), c.maxExpired, k))
  {
    var s1 := Fails(c, k, s, t, job);
    assert ViewOf(s1).threads == s.threads - {t} && ViewOf(s1).ready == {} && ViewOf(s1).delayed == {AfterFailure(job, "")};
    s' := Multiplies(c, k, s1, AfterFailure(job, ""));
    Then(c, k, s, s1, s');
  }

  lemma CalmView(s: Sys, threads: map<nat, Pc>, runs: nat)
    requires ViewOf(s) == View(threads, {}, {}, runs) && forall t :: t in threads ==> Parked(threads[t])
    ensures Calm(s) && s.threads == threads && s.runs == runs
  {
  }

  lemma RetryIsPending(threads: map<nat, Pc>, t: nat, job: Job, n: nat, k: nat)
    requires t in threads && threads[t] == Publishing(Some(job), []) && SoundJob(job)
    ensures var later := if job.attempts + 1 >= MAX_ATTEMPTS then 0 else Copies(k, RunsOf(AfterFailure(job, ""), n, k));
            Pending(threads, n, k) == Pending(threads - {t}, n, k) + later
  {
    PendingPut(threads, t, None, n, k);
    if job.attempts + 1 >= MAX_ATTEMPTS { NoCopies(k); }
  }

  lemma NoCopies(k: nat)
    ensures Copies(k, 0) == 0
  {
  }

  /** One handler run: it is started, and everything it can cause is in the hands of parked workers. */
  lemma Serves(c: Config, k: nat, s: Sys, t: nat) returns (s': Sys)
    requires k >= 1 && (c.solo ==> k == 1) && Calm(s) && Few(k, s) && t in s.threads
    ensures Reach(c, k, s, s') && Calm(s') && s'.runs == s.runs + 1
    ensures Pending(s'.threads, c.maxExpired, k) == Pending(s.threads, c.maxExpired, k) - 1
  {
    var job := s.threads[t].job;
    assert Parked(s.threads[t]);
    var events := FullHandlerRun(job.typ, job.payload, c.maxExpired, k);
    var s1 := Starts(c, k, s, t, job, events);
    s' := Causes(c, k, s1, t, job, Published(events));
    Then(c, k, s, s1, s');
    assert ViewOf(s1).threads == s.threads[t := Publishing(Some(job), Published(events))] && ViewOf(s1).runs == s.runs + 1;
    RunIsSpent(s.threads, t, job, Published(events), c.maxExpired, k);
  }

  lemma Causes(c: Config, k: nat, s: Sys, t: nat, job: Job, todo: seq<Spec>) returns (s': Sys)
    requires k >= 1 && (c.solo ==> k == 1) && Few(k, s)
    requires t in s.threads && s.threads[t] == Publishing(Some(job), todo) && SoundJob(job) && OthersParked(s.threads, t)
    requires s.store.ready.Keys == {} && s.store.delayed.Keys == {} && Prompt(todo)
    ensures Reach(c, k, s, s') && Calm(s') && s'.runs == s.runs
    ensures Pending(s'.threads, c.maxExpired, k) == Pending(s.threads, c.maxExpired, k)
  {
    var s1 := Publishes(c, k, s, t, Some(job), todo, Pending(s.threads, c.maxExpired, k));
    s' := Retires(c, k, s1, t, job);
    Then(c, k, s, s1, s');
  }

  lemma RunIsSpent(threads: map<nat, Pc>, t: nat, job: Job, todo: seq<Spec>, n: nat, k: nat)
    requires t in threads && threads[t] == DeqStatus(job) && SoundJob(job) && TodoRuns(todo, n, k) == SpawnedRuns(job.typ, n, k)
    ensures Pending(threads[t := Publishing(Some(job), todo)], n, k) == Pending(threads, n, k) - 1
  {
    PendingPut(threads, t, Some(Publishing(Some(job), todo)), n, k);
    RunUnfolds(job, n, k);
  }

  lemma RunUnfolds(job: Job, n: nat, k: nat)
    requires job.attempts < MAX_ATTEMPTS
    ensures RunsOf(job, n, k) == 1 + SpawnedRuns(job.typ, n, k) + ParentRuns(Some(job), n, k)
  {
  }

  /** From a calm state some closed run starts every handler run that is pending. */
  lemma {:induction false} Exhausts(c: Config, k: nat, s: Sys) returns (s': Sys)
    requires k >= 1 && (c.solo ==> k == 1) && Calm(s)
    ensures Reach(c, k, s, s') && Idle(s') && s'.runs == s.runs + Pending(s.threads, c.maxExpired, k)
    decreases Pending(s.threads, c.maxExpired, k)
  {
    assert Promoters(s.threads) == {};
    PendingNonNegative(s.threads, c.maxExpired, k);
    if t :| t in s.threads {
      var s1 := Serves(c, k, s, t);
      PendingNonNegative(s1.threads, c.maxExpired, k);
      s' := Exhausts(c, k, s1);
      Then(c, k, s, s1, s');
    } else {
      s' := s;
      Stays(c, k, s);
      assert s.threads == map[];
    }
  }

  lemma PendingNonNegative(threads: map<nat, Pc>, n: nat, k: nat)
    ensures Pending(threads, n, k) >= 0
  {
    RunWeightsNonNegative(n, k);
    SumMapNonNegative(threads, RunWeights(n, k).hand);
  }

  /** A publisher outside the workers publishes its list and ends. */
  lemma PublisherEnds(c: Config, k: nat, s: Sys, t: nat, todo: seq<Spec>) returns (s': Sys)
    requires ViewOf(s) == View(map[t := Publishing(None, todo)], {}, {}, s.runs) && Prompt(todo)
    ensures Reach(c, k, s, s') && Calm(s') && s'.runs == s.runs
    ensures Pending(s'.threads, c.maxExpired, k) == TodoRuns(todo, c.maxExpired, k)
  {
    var threads := map[t := Publishing(None, todo)];
    assert ViewOf(s).ready == {} && ViewOf(s).delayed == {} && ViewOf(s).threads == threads;
    SinglePending(t, todo, c.maxExpired, k);
    NoPromotersYet(s.threads);
    var s1 := Publishes(c, k, s, t, None, todo, TodoRuns(todo, c.maxExpired, k));
    s' := PublisherLeaves(c, k, s1, t);
    Then(c, k, s, s1, s');
    PendingPut(s1.threads, t, None, c.maxExpired, k);
  }

  lemma PublisherLeaves(c: Config, k: nat, s: Sys, t: nat) returns (s': Sys)
    requires Few(k, s) && t in s.threads && s.threads[t] == Publishing(None, []) && OthersParked(s.threads, t)
    requires s.store.ready.Keys == {} && s.store.delayed.Keys == {}
    ensures Reach(c, k, s, s') && Calm(s') && s'.threads == s.threads - {t} && s'.runs == s.runs
  {
    s' := Goes(c, k, s, t, 0);
    CalmView(s', s.threads - {t}, s.runs);
  }

  lemma SinglePending(t: nat, todo: seq<Spec>, n: nat, k: nat)
    ensures Pending(map[t := Publishing(None, todo)], n, k) == TodoRuns(todo, n, k)
  {
    PendingPut(map[], t, Some(Publishing(None, todo)), n, k);
    assert map[][t := Publishing(None, todo)] == map[t := Publishing(None, todo)];
  }

  lemma NoPromotersYet(threads: map<nat, Pc>)
    requires forall t :: t in threads ==> !Promoting(threads[t])
    ensures |Promoters(threads)| == 0
  {
    assert Promoters(threads) == {};
  }

  /**
   The bound on what one event causes is reached, for every event and any number k of promoters: some run
   after publishing it into an idle system starts exactly EventRuns handlers, with two promoters 1116 for
   LinkCreated.
   */
  lemma OneEventBoundIsReached(c: Config, k: nat, s: Sys, t: nat, e: Event) returns (acts: seq<Action>)
    requires k >= 1 && (c.solo ==> k == 1) && Idle(s)
    ensures Enabled(c, s, Client(t, Published([e])))
    ensures var s' := Next(c, s, Client(t, Published([e])));
            Runs(c, s', acts) && CrewedRun(c, k, s', acts) && Closed(acts)
            && Idle(End(c, s', acts)) && End(c, s', acts).runs == s.runs + EventRuns(e.typ, k)
    ensures EventRuns(LinkCreated, 1) == 50 && EventRuns(LinkCreated, 2) == 1116
  {
    PublishedJobsHaveWorkers([e]);
    var a := Client(t, Published([e]));
    var s0 := Next(c, s, a);
    ViewAfter(c, s, a);
    var s1 := PublisherEnds(c, k, s0, t, Published([e]));
    var s2 := Exhausts(c, k, s1);
    Then(c, k, s0, s1, s2);
    acts :| Leads(c, k, s0, acts, s2);
    EventBudget(e, c.maxExpired, k);
    LinkCreatedRuns();
  }
}
