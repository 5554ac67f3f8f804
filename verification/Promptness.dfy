/**
 Promptness is the exact condition: a promoter's read of a job whose RETRYING write is still owed can
 be followed by a misleading status, and a read of any other job cannot, however the run goes on.
 */
module Promptness {
  import opened Jobs
  import opened Protocol
  import opened Conservation
  import opened NoLoss
  import opened Finding
  import opened StatusLaw
  import opened Cascade
  import opened Progress

  ghost predicate NoReads(acts: seq<Action>) {
    forall a :: a in acts ==> !a.Read?
  }

  lemma {:induction false} NoReadsIsPrompt(c: Config, s: Sys, acts: seq<Action>)
    requires Runs(c, s, acts) && NoReads(acts)
    ensures PromptRun(c, s, acts)
    decreases |acts|
  {
    if acts != [] {
      assert acts[0] in acts;
      NoReadsIsPrompt(c, Next(c, s, acts[0]), acts[1..]);
    }
  }

  /** A continuation without reads, with every removal found, that ends with a misleading status for the id. */
  ghost predicate Goes(c: Config, s: Sys, acts: seq<Action>, id: nat) {
    Runs(c, s, acts) && NoReads(acts) && FindsRun(c, s, acts) && Misleads(End(c, s, acts), id)
  }

  lemma GoesFurther(c: Config, s: Sys, a: Action, rest: seq<Action>, id: nat)
    requires Enabled(c, s, a) && !a.Read? && Finds(c, s, a) && Goes(c, Next(c, s, a), rest, id)
    ensures Goes(c, s, [a] + rest, id)
  {
    assert ([a] + rest)[1..] == rest;
    RunCons(c, s, a, rest);
  }

  lemma Stands(c: Config, s: Sys, id: nat)
    requires Misleads(s, id)
    ensures Goes(c, s, [], id)
  {
  }

  /** A worker announces RUNNING, then the debtor pays. */
  lemma DebtorIsLate(c: Config, s: Sys, job: Job, worker: nat, debtor: nat) returns (acts: seq<Action>)
    requires worker in s.threads && s.threads[worker] == DeqStatus(job)
    requires debtor in s.threads && OwesRetrying(s.threads[debtor], job)
    ensures Goes(c, s, acts, job.id)
  {
    var s1 := Next(c, s, Go(worker, 0));
    NextState(c, s, Go(worker, 0));
    assert s1.threads[worker] == DeqCount(job) && s1.threads[debtor] == s.threads[debtor];
    var rest := DebtorWrites(c, s1, job, worker, debtor);
    GoesFurther(c, s, Go(worker, 0), rest, job.id);
    acts := [Go(worker, 0)] + rest;
  }

  lemma DebtorWrites(c: Config, s: Sys, job: Job, worker: nat, debtor: nat) returns (acts: seq<Action>)
    requires worker in s.threads && s.threads[worker] == DeqCount(job)
    requires debtor in s.threads && OwesRetrying(s.threads[debtor], job)
    ensures Goes(c, s, acts, job.id)
  {
    var s' := Next(c, s, Go(debtor, 0));
    NextState(c, s, Go(debtor, 0));
    DebtorPays(c, s, Go(debtor, 0), job);
    assert worker in s'.threads && WorksOn(s'.threads[worker], job.id);
    Stands(c, s', job.id);
    GoesFurther(c, s, Go(debtor, 0), [], job.id);
    acts := [Go(debtor, 0)] + [];
  }

  ghost function OfType(s: Sys, typ: JobType): set<Job> {
    set j | j in s.store.ready && j.typ == typ
  }

  /** Workers take what is ahead of the job, and then the job. */
  lemma {:induction false} TakenInTurn(c: Config, s: Sys, job: Job, debtor: nat) returns (acts: seq<Action>)
    requires Sound(s) && job in s.store.ready && debtor in s.threads && OwesRetrying(s.threads[debtor], job)
    ensures Goes(c, s, acts, job.id)
    decreases |OfType(s, job.typ)|
  {
    assert job in OfType(s, job.typ);
    var first := LeastScore(OfType(s, job.typ), s.store.ready);
    var worker := FreshNumber(s.threads.Keys);
    var a := Pop(worker, first);
    var s1 := Next(c, s, a);
    NextState(c, s, a);
    StepKeepsSound(c, s, a);
    var rest;
    if first == job {
      rest := DebtorIsLate(c, s1, job, worker, debtor);
    } else {
      assert OfType(s1, job.typ) == OfType(s, job.typ) - {first};
      rest := TakenInTurn(c, s1, job, debtor);
    }
    GoesFurther(c, s, a, rest, job.id);
    acts := [a] + rest;
  }

  lemma PromotedMisleads(c: Config, s: Sys, t: nat, job: Job, debtor: nat) returns (acts: seq<Action>)
    requires Sound(s) && t in s.threads && s.threads[t] == PromAdd(job)
    requires debtor in s.threads && OwesRetrying(s.threads[debtor], job)
    ensures Goes(c, s, acts, job.id)
  {
    var a := Go(t, 0);
    var s' := Next(c, s, a);
    NextState(c, s, a);
    StepKeepsSound(c, s, a);
    assert debtor in s'.threads && s'.threads[debtor] == s.threads[debtor];
    var rest := TakenInTurn(c, s', job, debtor);
    GoesFurther(c, s, a, rest, job.id);
    acts := [a] + rest;
  }

  /** What follows a read that was not prompt. */
  lemma LateReadMisleads(c: Config, s: Sys, t: nat, job: Job, debtor: nat) returns (acts: seq<Action>)
    requires Sound(s) && t in s.threads && s.threads[t] == PromRem(job) && job in s.store.delayed
    requires debtor in s.threads && OwesRetrying(s.threads[debtor], job)
    ensures Goes(c, s, acts, job.id)
  {
    var a := Go(t, 0);
    var s' := Next(c, s, a);
    NextState(c, s, a);
    StepKeepsSound(c, s, a);
    assert s'.threads == s.threads[t := PromAdd(job)];
    var rest := PromotedMisleads(c, s', t, job, debtor);
    GoesFurther(c, s, a, rest, job.id);
    acts := [a] + rest;
  }

  lemma LawfulNeverMisleads(s: Sys, id: nat)
    requires Lawful(s)
    ensures !Misleads(s, id)
  {
    if InWork(s, id) {
      var t :| t in s.threads && WorksOn(s.threads[t], id);
      WorksOnHolds(s.threads[t], id);
      HandTellsStatus(s, t, id);
    }
  }

  /** No continuation that is prompt and finds what it removes from here on ends with a misleading status. */
  ghost predicate StaysTruthful(c: Config, s: Sys) {
    forall acts, id: nat :: Runs(c, s, acts) && PromptRun(c, s, acts) && FindsRun(c, s, acts) ==> !Misleads(End(c, s, acts), id)
  }

  /** The exact condition, read by read, any number of promoters: a read is harmless if and only if it is prompt. */
  lemma ReadIsHarmlessIffPrompt(c: Config, s: Sys, t: nat, job: Job)
    requires Found(s) && Lawful(s) && Sound(s) && Enabled(c, s, Read(t, job))
    ensures Prompt(s, Read(t, job)) <==> StaysTruthful(c, Next(c, s, Read(t, job)))
  {
    var a := Read(t, job);
    var s' := Next(c, s, a);
    if Prompt(s, a) {
      StepKeepsFound(c, s, a);
      StepKeepsStatusLaw(c, s, a);
      forall acts, id: nat | Runs(c, s', acts) && PromptRun(c, s', acts) && FindsRun(c, s', acts)
        ensures !Misleads(End(c, s', acts), id) {
        RunKeepsStatusLaw(c, s', acts);
        LawfulNeverMisleads(End(c, s', acts), id);
      }
    } else {
      var debtor :| debtor in s.threads && OwesRetrying(s.threads[debtor], job);
      NextState(c, s, a);
      StepKeepsSound(c, s, a);
      var acts := LateReadMisleads(c, s', t, job, debtor);
      NoReadsIsPrompt(c, s', acts);
    }
  }

  /** In every state that a prompt run reaches from the start, the next read is harmless if and only if it is prompt. */
  lemma FirstLateReadIsTheRace(c: Config, s: Sys, acts: seq<Action>, t: nat, job: Job)
    requires Init(s) && Runs(c, s, acts) && PromptRun(c, s, acts) && FindsRun(c, s, acts)
    requires Enabled(c, End(c, s, acts), Read(t, job))
    ensures var e := End(c, s, acts);
            Prompt(e, Read(t, job)) <==> StaysTruthful(c, Next(c, e, Read(t, job)))
  {
    RunIsLawful(c, s, acts);
    RunKeepsSound(c, s, acts);
    ReadIsHarmlessIffPrompt(c, End(c, s, acts), t, job);
  }
}
