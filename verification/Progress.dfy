/**
 The other half of cascade termination: a state in which some job is neither completed nor dead
 can always move (after waiting, at most, for a retry to come due), so closed runs end settled.
 */
module Progress {
  import opened Jobs
  import opened Protocol
  import opened Conservation
  import opened NoLoss
  import opened Cascade
  import opened Budgets
  import opened Termination

  lemma {:induction false} LeastScore(keys: set<Job>, score: map<Job, real>) returns (least: Job)
    requires keys != {} && keys <= score.Keys
    ensures least in keys && forall k :: k in keys ==> score[least] <= score[k]
    decreases |keys|
  {
    var k :| k in keys;
    if keys == {k} {
      least := k;
    } else {
      var rest := LeastScore(keys - {k}, score);
      least := if score[k] <= score[rest] then k else rest;
      assert forall l :: l in keys ==> l == k || l in keys - {k};
    }
  }

  lemma {:induction false} FreshNumber(used: set<nat>) returns (n: nat)
    ensures n !in used && forall u :: u in used ==> u < n
    decreases |used|
  {
    if used == {} {
      n := 0;
    } else {
      var u :| u in used;
      var m := FreshNumber(used - {u});
      n := if u < m then m else u + 1;
      assert forall v :: v in used ==> v == u || v in used - {u};
    }
  }

  /** An undisturbed handler run of every type exists. */
  lemma SomeHandlerRun(t: JobType, p: Payload, n: nat) returns (events: seq<Event>)
    ensures HandlerPublishes(t, events, n)
  {
    match t
    case FetchMetadata => events := [Event(MetadataFetched, p)];
    case InitHealth => events := [Event(HealthCheckStarted, p)];
    case HealthCheck => events := [Event(HealthCheckCompleted, p)];
    case GenerateSummary => events := [Event(SummaryGenerated, p)];
    case AnalyticsAggregate => events := [Event(AnalyticsUpdated, p)];
    case _ => events := [];
  }

  /** A coroutine that exists can take a step. */
  lemma CoroutineMoves(c: Config, s: Sys, t: nat) returns (a: Action)
    requires t in s.threads
    ensures !a.Tick? && !a.Client? && !a.Read? && Enabled(c, s, a)
  {
    if s.threads[t].Dispatch? {
      var job := s.threads[t].job;
      var events := SomeHandlerRun(job.typ, job.payload, c.maxExpired);
      a := Start(t, events);
    } else {
      var id := FreshNumber(s.issued);
      a := Go(t, id);
    }
  }

  lemma WorkerTakes(c: Config, s: Sys) returns (a: Action)
    requires Sound(s) && s.threads == map[] && s.store.ready != map[]
    ensures !a.Tick? && !a.Client? && !a.Read? && Enabled(c, s, a)
  {
    assert s.store.ready.Keys != {};
    var job := LeastScore(s.store.ready.Keys, s.store.ready);
    a := Pop(0, job);
  }

  lemma PromoterReads(c: Config, s: Sys) returns (wait: Action, a: Action)
    requires s.threads == map[] && s.store.delayed != map[]
    ensures wait.Tick? && Enabled(c, s, wait)
    ensures !a.Tick? && !a.Client? && Enabled(c, Next(c, s, wait), a)
  {
    assert s.store.delayed.Keys != {};
    var job := LeastScore(s.store.delayed.Keys, s.store.delayed);
    var due := s.store.delayed[job];
    wait := Tick(if s.clock >= due then s.clock else due);
    a := Read(0, job);
  }

  /** Unless everything is settled, some step is possible, perhaps after waiting. */
  lemma SomethingMoves(c: Config, s: Sys) returns (wait: Action, a: Action)
    requires Sound(s) && !Idle(s)
    ensures wait.Tick? && Enabled(c, s, wait)
    ensures !a.Tick? && !a.Client? && Enabled(c, Next(c, s, wait), a) && Crewed(1, Next(c, s, wait), a)
  {
    wait := Tick(s.clock);
    if t :| t in s.threads {
      a := CoroutineMoves(c, Next(c, s, wait), t);
    } else {
      assert s.threads == map[];
      if s.store.ready != map[] {
        a := WorkerTakes(c, Next(c, s, wait));
      } else {
        wait, a := PromoterReads(c, s);
        assert Promoters(Next(c, s, wait).threads) == {};
      }
    }
  }

  /** In an idle state every issued job is completed or dead. */
  lemma IdleIsSettled(s: Sys, id: nat)
    requires Idle(s) && Kinds(s, id) >= 1
    ensures InCompleted(s, id) || InDead(s, id)
  {
  }

  /** With one promoter not both, and no other id is. */
  lemma IdleIsSettledOnce(s: Sys, id: nat)
    requires Inv(s) && Idle(s)
    ensures id in s.issued <==> InCompleted(s, id) || InDead(s, id)
    ensures !(InCompleted(s, id) && InDead(s, id))
  {
    KindsFromTotal(s, id);
  }

  /**
   Every closed run can be continued to one that settles every job, without ever more than k promoters.
   With `ClosedRunsEnd` (no closed run is longer than the step budget) this says: whatever the
   interleaving, a closed system ends with all jobs completed or dead.
   */
  lemma {:induction false} CanSettle(c: Config, k: nat, s: Sys) returns (acts: seq<Action>)
    requires Sound(s) && k >= 1 && |Promoters(s.threads)| <= k
    ensures Runs(c, s, acts) && Closed(acts) && CrewedRun(c, k, s, acts)
    ensures Idle(End(c, s, acts))
    decreases StepBudget(c, k, s)
  {
    if Idle(s) {
      acts := [];
    } else {
      StepBudgetNonNegative(c, k, s);
      var wait, a := SomethingMoves(c, s);
      var s1 := Next(c, s, wait);
      StepKeepsSound(c, s, wait);
      TickKeepsBudget(WorkWeights(c.maxExpired, k), k, c, s, wait);
      var s2 := Next(c, s1, a);
      StepKeepsSound(c, s1, a);
      StepSpendsWork(c, k, s1, a);
      StepKeepsCrew(c, k, s1, a);
      StepBudgetNonNegative(c, k, s2);
      var rest := CanSettle(c, k, s2);
      CrewCons(c, k, s1, a, rest);
      CrewCons(c, k, s, wait, [a] + rest);
      acts := [wait] + ([a] + rest);
    }
  }

  lemma CrewCons(c: Config, k: nat, s: Sys, a: Action, rest: seq<Action>)
    requires Enabled(c, s, a) && Runs(c, Next(c, s, a), rest) && CrewedRun(c, k, Next(c, s, a), rest)
    requires |Promoters(s.threads)| <= k && Crewed(k, s, a)
    ensures Runs(c, s, [a] + rest) && CrewedRun(c, k, s, [a] + rest)
    ensures End(c, s, [a] + rest) == End(c, Next(c, s, a), rest)
  {
    RunCons(c, s, a, rest);
    assert ([a] + rest)[1..] == rest;
  }

  lemma {:induction false} RunKeepsSound(c: Config, s: Sys, acts: seq<Action>)
    requires Sound(s) && Runs(c, s, acts)
    ensures Sound(End(c, s, acts))
    decreases |acts|
  {
    if acts != [] {
      StepKeepsSound(c, s, acts[0]);
      RunKeepsSound(c, Next(c, s, acts[0]), acts[1..]);
    }
  }

  /** A run from the start that nothing inside can extend, even after waiting, has settled every job. */
  lemma StuckRunsAreSettled(c: Config, s: Sys, acts: seq<Action>, id: nat)
    requires Init(s) && Runs(c, s, acts)
    requires forall wait: Action, a: Action :: Enabled(c, End(c, s, acts), wait) && wait.Tick? && !a.Tick? && !a.Client?
               ==> !Enabled(c, Next(c, End(c, s, acts), wait), a)
    ensures var e := End(c, s, acts);
            id in e.issued ==> InCompleted(e, id) || InDead(e, id)
  {
    var e := End(c, s, acts);
    RunKeepsSound(c, s, acts);
    if !Idle(e) {
      var wait, a := SomethingMoves(c, e);
      assert false;
    }
    NoLossFromStart(c, s, acts, id);
    if id in e.issued { IdleIsSettled(e, id); }
  }
}
