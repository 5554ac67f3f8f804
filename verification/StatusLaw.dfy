/**
 The status hash, for any number of promoters. A job's place determines its status, provided every
 removal finds its member (one promoter always does) and no promoter reads a delayed job while the
 coroutine that delayed it still has to write RETRYING (that write comes after the job is already
 visible in the delayed set). Otherwise the late write can overwrite a newer status.
 Cancelling, which rewrites a status and moves nothing, is not a step here.
 */
module StatusLaw {
  import opened Wrappers
  import opened Jobs
  import opened RedisStore
  import opened Protocol
  import opened Gauges
  import opened Conservation
  import opened NoLoss
  import opened Finding

  type StatusMap = map<nat, StatusRecord>

  predicate Has(m: StatusMap, id: nat, status: JobStatus) {
    id in m && m[id].status == status
  }

  /** Waiting to be popped: PENDING before the first attempt, RETRYING after a delay. */
  predicate Waiting(m: StatusMap, job: Job) {
    Has(m, job.id, Retrying) || (job.attempts == 0 && Has(m, job.id, Pending))
  }

  predicate RunningParent(m: StatusMap, parent: Option<Job>) {
    parent.Some? ==> Has(m, parent.value.id, Running)
  }

  /** The status of the jobs a coroutine holds or has just settled. */
  predicate StatusPc(m: StatusMap, pc: Pc) {
    match pc
    case Publishing(parent, _) => RunningParent(m, parent)
    case EnqAdd(parent, _, child, _) => RunningParent(m, parent) && Has(m, child.id, Pending) && child.attempts == 0
    case EnqLate(parent, _, _) => RunningParent(m, parent)
    case EnqCount(parent, _) => RunningParent(m, parent)
    case DeqStatus(job) => Waiting(m, job)
    case DeqCount(job) => Has(m, job.id, Running)
    case Dispatch(job) => Has(m, job.id, Running)
    case DoneCount(job) => Has(m, job.id, Completed)
    case PromAdd(job) => Has(m, job.id, Retrying)
    case RetryStatus(_) => true
    case RetryCount(_) => true
    case DeadStatus(_) => true
    case DeadCount(_) => true
    case PromRem(_) => true
  }

  /** The coroutine still has to write RETRYING for this job. */
  predicate OwesRetrying(pc: Pc, job: Job) {
    (pc.EnqLate? && pc.child == job) || (pc.RetryStatus? && pc.job == job)
  }

  predicate OwesFailed(pc: Pc, job: Job) {
    pc.DeadStatus? && pc.job == job
  }

  ghost predicate QueuesLaw(s: Sys) {
    && (forall j :: j in s.store.ready ==> Waiting(s.store.status, j))
    && (forall j :: j in s.store.delayed ==>
          Has(s.store.status, j.id, Retrying) || exists t :: t in s.threads && OwesRetrying(s.threads[t], j))
  }

  ghost predicate HandsLaw(s: Sys) {
    forall t :: t in s.threads ==> StatusPc(s.store.status, s.threads[t])
  }

  ghost predicate SettledLaw(s: Sys) {
    && (forall j :: j in s.completed ==> Has(s.store.status, j.id, Completed))
    && (forall j :: j in s.store.dead ==>
          Has(s.store.status, j.id, Failed) || exists t :: t in s.threads && OwesFailed(s.threads[t], j))
  }

  /** Owed writes concern jobs that are still where the owing coroutine put them, with no promoter after them. */
  ghost predicate DebtsLaw(s: Sys) {
    && (forall t, j :: t in s.threads && OwesRetrying(s.threads[t], j) ==> j in s.store.delayed)
    && (forall t, j :: t in s.threads && OwesFailed(s.threads[t], j) ==> j in s.store.dead)
    && (forall t, u, j :: t in s.threads && u in s.threads && OwesRetrying(s.threads[t], j) ==> s.threads[u] != PromRem(j))
  }

  ghost predicate Lawful(s: Sys) {
    QueuesLaw(s) && HandsLaw(s) && SettledLaw(s) && DebtsLaw(s)
  }

  /** The promoter does not overtake the coroutine that delayed the job. */
  ghost predicate Prompt(s: Sys, a: Action) {
    a.Read? ==> forall t :: t in s.threads ==> !OwesRetrying(s.threads[t], a.job)
  }

  ghost predicate PromptRun(c: Config, s: Sys, acts: seq<Action>)
    requires Runs(c, s, acts)
    decreases |acts|
  {
    acts == [] || (Prompt(s, acts[0]) && PromptRun(c, Next(c, s, acts[0]), acts[1..]))
  }

  // ----- who may write a status

  lemma DeadAlone(s: Sys, job: Job)
    requires Accounted(s) && job in s.store.dead
    ensures job.id in s.issued
    ensures forall j :: j in s.store.ready || j in s.store.delayed || j in s.completed ==> j.id != job.id
    ensures forall u :: u in s.threads ==> Held(job.id, s.threads[u]) == 0
  {
    PartsNonNegative(s, job.id);
    assert Total(Places(job.id), s) <= 1;
  }

  lemma CompletedAlone(s: Sys, job: Job)
    requires Accounted(s) && job in s.completed
    ensures job.id in s.issued
    ensures forall j :: j in s.store.ready || j in s.store.delayed || j in s.store.dead ==> j.id != job.id
    ensures forall u :: u in s.threads ==> Held(job.id, s.threads[u]) == 0
  {
    PartsNonNegative(s, job.id);
    assert Total(Places(job.id), s) <= 1;
  }

  /** A status write concerns a new id, a job in hand, or a job whose write was still owed. */
  lemma StatusWriter(c: Config, s: Sys, a: Action)
    requires DebtsLaw(s) && Enabled(c, s, a) && !a.Tick? && MoveOf(s, a).cmd.SetStatus?
    ensures var cmd := MoveOf(s, a).cmd;
            && a.t in s.threads
            && (cmd.job.id !in s.issued || Held(cmd.job.id, s.threads[a.t]) >= 1
                || (cmd.job in s.store.delayed && cmd.status == Retrying) || (cmd.job in s.store.dead && cmd.status == Failed))
  {
    var pc := s.threads[a.t];
    if pc.EnqLate? { assert OwesRetrying(pc, pc.child); }
    if pc.RetryStatus? { assert OwesRetrying(pc, pc.job); }
    if pc.DeadStatus? { assert OwesFailed(pc, pc.job); }
  }

  /** Statuses of ids other than the written one stay. */
  lemma OthersKeepStatus(s: Store, c: Cmd, id: nat)
    requires c.SetStatus? ==> c.job.id != id
    ensures id in Apply(c, s).status <==> id in s.status
    ensures id in s.status ==> Apply(c, s).status[id] == s.status[id]
  {
  }

  // ----- every part of the law survives a step

  ghost predicate Before(c: Config, s: Sys, a: Action) {
    Found(s) && Lawful(s) && Enabled(c, s, a) && !a.Tick? && Finds(c, s, a)
  }

  lemma ReadyAdder(c: Config, s: Sys, a: Action)
    requires Enabled(c, s, a) && !a.Tick? && MoveOf(s, a).cmd.AddReady?
    ensures a.t in s.threads
    ensures var job, pc := MoveOf(s, a).cmd.job, s.threads[a.t];
            pc == PromAdd(job) || (pc.EnqAdd? && pc.child == job)
  {
  }

  lemma DelayedAdder(c: Config, s: Sys, a: Action)
    requires Enabled(c, s, a) && !a.Tick? && MoveOf(s, a).cmd.AddDelayed?
    ensures MoveOf(s, a).next.Some? && OwesRetrying(MoveOf(s, a).next.value, MoveOf(s, a).cmd.job)
    ensures a.t in s.threads && Held(MoveOf(s, a).cmd.job.id, s.threads[a.t]) >= 1
  {
  }

  /** A coroutine with a debt pays it in its next step. */
  lemma DebtorPays(c: Config, s: Sys, a: Action, job: Job)
    requires Enabled(c, s, a) && !a.Tick? && a.t in s.threads
    requires OwesRetrying(s.threads[a.t], job) || OwesFailed(s.threads[a.t], job)
    ensures MoveOf(s, a).cmd.SetStatus? && MoveOf(s, a).cmd.job == job
    ensures MoveOf(s, a).cmd.status == if OwesFailed(s.threads[a.t], job) then Failed else Retrying
  {
  }

  /** A status write never hits a job that is ready. */
  lemma WriterSparesReady(c: Config, s: Sys, a: Action, j: Job)
    requires Before(c, s, a) && j in s.store.ready && MoveOf(s, a).cmd.SetStatus?
    ensures MoveOf(s, a).cmd.job.id != j.id
  {
    ReadyAlone(s, j);
    StatusWriter(c, s, a);
  }

  lemma NewReadyWaits(c: Config, s: Sys, a: Action)
    requires Before(c, s, a) && MoveOf(s, a).cmd.AddReady?
    ensures Waiting(s.store.status, MoveOf(s, a).cmd.job)
  {
    ReadyAdder(c, s, a);
    assert StatusPc(s.store.status, s.threads[a.t]);
  }

  lemma ReadyFrame(s: Store, cmd: Cmd, j: Job)
    requires j in Apply(cmd, s).ready
    requires j in s.ready ==> Waiting(s.status, j) && (cmd.SetStatus? ==> cmd.job.id != j.id)
    requires j !in s.ready ==> Waiting(s.status, j)
    ensures Waiting(Apply(cmd, s).status, j)
  {
  }

  lemma ReadyGrowth(s: Store, cmd: Cmd, j: Job)
    requires j in Apply(cmd, s).ready && j !in s.ready
    ensures cmd.AddReady? && cmd.job == j
  {
  }

  lemma ReadyLawKept(c: Config, s: Sys, a: Action, j: Job)
    requires Before(c, s, a)
    ensures j in Next(c, s, a).store.ready ==> Waiting(Next(c, s, a).store.status, j)
  {
    if j !in Next(c, s, a).store.ready { return; }
    NextState(c, s, a);
    var cmd := MoveOf(s, a).cmd;
    if j in s.store.ready {
      if cmd.SetStatus? { WriterSparesReady(c, s, a, j); }
    } else {
      ReadyGrowth(s.store, cmd, j);
      NewReadyWaits(c, s, a);
    }
    ReadyFrame(s.store, cmd, j);
  }

  /** The only status a delayed job can be given is RETRYING. */
  lemma WriterOnDelayed(c: Config, s: Sys, a: Action, j: Job)
    requires Before(c, s, a) && j in s.store.delayed && MoveOf(s, a).cmd.SetStatus? && MoveOf(s, a).cmd.job.id == j.id
    ensures MoveOf(s, a).cmd.status == Retrying
  {
    DelayedAlone(s, j);
    StatusWriter(c, s, a);
  }

  lemma DelayedFrame(s: Sys, s': Sys, t: nat, m: Move, j: Job)
    requires s'.store == Apply(m.cmd, s.store) && s'.threads == Put(s.threads, t, m.next)
    requires QueuesLaw(s) && j in s.store.delayed
    requires m.cmd.SetStatus? && m.cmd.job.id == j.id ==> m.cmd.status == Retrying
    requires t in s.threads && OwesRetrying(s.threads[t], j) ==> m.cmd.SetStatus? && m.cmd.job == j
    ensures Has(s'.store.status, j.id, Retrying) || exists u :: u in s'.threads && OwesRetrying(s'.threads[u], j)
  {
    if !(m.cmd.SetStatus? && m.cmd.job.id == j.id) {
      OthersKeepStatus(s.store, m.cmd, j.id);
      if !Has(s.store.status, j.id, Retrying) {
        var u :| u in s.threads && OwesRetrying(s.threads[u], j);
        assert u in s'.threads && OwesRetrying(s'.threads[u], j);
      }
    }
  }

  lemma DelayedLawKept(c: Config, s: Sys, a: Action, j: Job)
    requires Before(c, s, a)
    ensures var s' := Next(c, s, a);
            j in s'.store.delayed ==>
              Has(s'.store.status, j.id, Retrying) || exists t :: t in s'.threads && OwesRetrying(s'.threads[t], j)
  {
    if j !in Next(c, s, a).store.delayed { return; }
    NextState(c, s, a);
    var m, s' := MoveOf(s, a), Next(c, s, a);
    if j in s.store.delayed {
      if m.cmd.SetStatus? && m.cmd.job.id == j.id { WriterOnDelayed(c, s, a, j); }
      if a.t in s.threads && OwesRetrying(s.threads[a.t], j) { DebtorPays(c, s, a, j); }
      DelayedFrame(s, s', a.t, m, j);
    } else {
      DelayedAdder(c, s, a);
      assert a.t in s'.threads && OwesRetrying(s'.threads[a.t], j);
    }
  }

  lemma CompletedLawKept(c: Config, s: Sys, a: Action, j: Job)
    requires Before(c, s, a) && j in Next(c, s, a).completed
    ensures Has(Next(c, s, a).store.status, j.id, Completed)
  {
    NextState(c, s, a);
    var m := MoveOf(s, a);
    if j in s.completed {
      CompletedAlone(s, j);
      if m.cmd.SetStatus? { StatusWriter(c, s, a); }
      OthersKeepStatus(s.store, m.cmd, j.id);
    } else {
      Finisher(c, s, a);
      assert StatusPc(s.store.status, s.threads[a.t]);
    }
  }

  lemma Finisher(c: Config, s: Sys, a: Action)
    requires Enabled(c, s, a) && !a.Tick? && MoveOf(s, a).finished != []
    ensures a.t in s.threads && s.threads[a.t].DoneCount? && MoveOf(s, a).finished == [s.threads[a.t].job]
    ensures MoveOf(s, a).cmd == Incr(CompletedCount)
  {
  }

  lemma WriterOnDead(c: Config, s: Sys, a: Action, j: Job)
    requires Before(c, s, a) && j in s.store.dead && MoveOf(s, a).cmd.SetStatus? && MoveOf(s, a).cmd.job.id == j.id
    ensures MoveOf(s, a).cmd.status == Failed
  {
    DeadAlone(s, j);
    StatusWriter(c, s, a);
  }

  lemma DeadFrame(s: Sys, s': Sys, t: nat, m: Move, j: Job)
    requires s'.store == Apply(m.cmd, s.store) && s'.threads == Put(s.threads, t, m.next)
    requires SettledLaw(s) && j in s.store.dead
    requires m.cmd.SetStatus? && m.cmd.job.id == j.id ==> m.cmd.status == Failed
    requires t in s.threads && OwesFailed(s.threads[t], j) ==> m.cmd.SetStatus? && m.cmd.job == j
    ensures Has(s'.store.status, j.id, Failed) || exists u :: u in s'.threads && OwesFailed(s'.threads[u], j)
  {
    if !(m.cmd.SetStatus? && m.cmd.job.id == j.id) {
      OthersKeepStatus(s.store, m.cmd, j.id);
      if !Has(s.store.status, j.id, Failed) {
        var u :| u in s.threads && OwesFailed(s.threads[u], j);
        assert u in s'.threads && OwesFailed(s'.threads[u], j);
      }
    }
  }

  lemma DeadAdder(c: Config, s: Sys, a: Action)
    requires Enabled(c, s, a) && !a.Tick? && MoveOf(s, a).cmd.PushDead?
    ensures MoveOf(s, a).next == Some(DeadStatus(MoveOf(s, a).cmd.job))
    ensures a.t in s.threads && Held(MoveOf(s, a).cmd.job.id, s.threads[a.t]) >= 1
  {
  }

  lemma DeadLawKept(c: Config, s: Sys, a: Action, j: Job)
    requires Before(c, s, a) && j in Next(c, s, a).store.dead
    ensures var s' := Next(c, s, a);
            Has(s'.store.status, j.id, Failed) || exists t :: t in s'.threads && OwesFailed(s'.threads[t], j)
  {
    NextState(c, s, a);
    var m, s' := MoveOf(s, a), Next(c, s, a);
    if j in s.store.dead {
      if m.cmd.SetStatus? && m.cmd.job.id == j.id { WriterOnDead(c, s, a, j); }
      if a.t in s.threads && OwesFailed(s.threads[a.t], j) { DebtorPays(c, s, a, j); }
      DeadFrame(s, s', a.t, m, j);
    } else {
      DeadAdder(c, s, a);
      assert a.t in s'.threads && OwesFailed(s'.threads[a.t], j);
    }
  }

  /** The law of one coroutine only looks at the ids it holds. */
  lemma PcFrame(m: StatusMap, m': StatusMap, pc: Pc)
    requires StatusPc(m, pc)
    requires forall id: nat :: Held(id, pc) >= 1 && id in m ==> id in m' && m'[id] == m[id]
    ensures StatusPc(m', pc)
  {
    match pc
    case Publishing(parent, _) => if parent.Some? { assert Held(parent.value.id, pc) >= 1; }
    case EnqAdd(parent, _, child, _) =>
      assert Held(child.id, pc) >= 1;
      if parent.Some? { assert Held(parent.value.id, pc) >= 1; }
    case EnqLate(parent, _, _) => if parent.Some? { assert Held(parent.value.id, pc) >= 1; }
    case EnqCount(parent, _) => if parent.Some? { assert Held(parent.value.id, pc) >= 1; }
    case DeqStatus(job) => assert Held(job.id, pc) >= 1;
    case DeqCount(job) => assert Held(job.id, pc) >= 1;
    case Dispatch(job) => assert Held(job.id, pc) >= 1;
    case DoneCount(job) => assert Held(job.id, pc) >= 1;
    case PromAdd(job) => assert Held(job.id, pc) >= 1;
    case _ =>
  }

  lemma OtherHandsKept(c: Config, s: Sys, a: Action, u: nat)
    requires Before(c, s, a) && u in s.threads && u != a.t
    ensures StatusPc(Next(c, s, a).store.status, s.threads[u])
  {
    NextState(c, s, a);
    var cmd := MoveOf(s, a).cmd;
    if cmd.SetStatus? { StatusWriter(c, s, a); }
    forall id: nat | Held(id, s.threads[u]) >= 1 && id in s.store.status
      ensures id in Apply(cmd, s.store).status && Apply(cmd, s.store).status[id] == s.store.status[id]
    {
      HeldAlone(s, u, id);
      OthersKeepStatus(s.store, cmd, id);
    }
    PcFrame(s.store.status, Apply(cmd, s.store).status, s.threads[u]);
  }

  /** What a publisher's own job needs while it writes some child's status. */
  predicate ParentApart(pc: Pc, id: nat) {
    match pc
    case Publishing(parent, todo) => parent.Some? && todo != [] ==> parent.value.id != id
    case EnqLate(parent, _, child) => parent.Some? ==> parent.value.id != child.id
    case _ => true
  }

  lemma GoKeepsHand(s: Store, pc: Pc, now: real, id: nat)
    requires !pc.Dispatch? && StatusPc(s.status, pc) && ParentApart(pc, id)
    requires pc.PromRem? ==> Has(s.status, pc.job.id, Retrying)
    ensures var m := GoMove(pc, now, id);
            m.next.Some? ==> StatusPc(Apply(m.cmd, s).status, m.next.value)
  {
  }

  lemma PromotedIsRetrying(s: Sys, t: nat)
    requires Lawful(s) && t in s.threads && s.threads[t].PromRem? && s.threads[t].job in s.store.delayed
    ensures Has(s.store.status, s.threads[t].job.id, Retrying)
  {
    var j := s.threads[t].job;
    assert j in s.store.delayed;
    assert forall u :: u in s.threads ==> !OwesRetrying(s.threads[u], j);
  }

  lemma OwnGoKept(c: Config, s: Sys, t: nat, id: nat)
    requires Before(c, s, Go(t, id))
    ensures var m := GoMove(s.threads[t], s.clock, id);
            m.next.Some? ==> StatusPc(Apply(m.cmd, s.store).status, m.next.value)
  {
    var pc := s.threads[t];
    assert StatusPc(s.store.status, pc);
    if pc.PromRem? { PromotedIsRetrying(s, t); }
    if pc.Publishing? && pc.parent.Some? { HeldAlone(s, t, pc.parent.value.id); }
    if pc.EnqLate? && pc.parent.Some? {
      assert OwesRetrying(pc, pc.child);
      HeldAlone(s, t, pc.parent.value.id);
    }
    GoKeepsHand(s.store, pc, s.clock, id);
  }

  lemma OwnHandKept(c: Config, s: Sys, a: Action)
    requires Before(c, s, a)
    ensures var m := MoveOf(s, a);
            m.next.Some? ==> StatusPc(Apply(m.cmd, s.store).status, m.next.value)
  {
    match a
    case Go(t, id) => OwnGoKept(c, s, t, id);
    case Start(t, _) => assert StatusPc(s.store.status, s.threads[t]);
    case Pop(_, job) => assert Waiting(s.store.status, job);
    case Raise(_, _) =>
    case Client(_, _) =>
    case Read(_, _) =>
  }

  lemma HandsLawKept(c: Config, s: Sys, a: Action)
    requires Before(c, s, a)
    ensures HandsLaw(Next(c, s, a))
  {
    NextState(c, s, a);
    var m, s' := MoveOf(s, a), Next(c, s, a);
    forall u | u in s'.threads ensures StatusPc(s'.store.status, s'.threads[u]) {
      if u == a.t { OwnHandKept(c, s, a); } else { OtherHandsKept(c, s, a, u); }
    }
  }

  /** New debts are made by putting the job where the debt says it is. */
  lemma NewDebt(c: Config, s: Sys, a: Action, j: Job)
    requires Enabled(c, s, a) && !a.Tick? && MoveOf(s, a).next.Some?
    ensures OwesRetrying(MoveOf(s, a).next.value, j) ==> MoveOf(s, a).cmd.AddDelayed? && MoveOf(s, a).cmd.job == j
    ensures OwesFailed(MoveOf(s, a).next.value, j) ==> MoveOf(s, a).cmd == PushDead(j)
  {
  }

  /** What leaves the delayed set leaves through its one promoter. */
  lemma Remover(c: Config, s: Sys, a: Action)
    requires Enabled(c, s, a) && !a.Tick? && MoveOf(s, a).cmd.RemDelayed?
    ensures a.t in s.threads && s.threads[a.t] == PromRem(MoveOf(s, a).cmd.job)
  {
  }

  lemma DebtFrame(s: Sys, s': Sys, t: nat, m: Move, u: nat, j: Job)
    requires s'.store == Apply(m.cmd, s.store) && s'.threads == Put(s.threads, t, m.next)
    requires DebtsLaw(s) && u in s'.threads
    requires u == t ==> (OwesRetrying(s'.threads[u], j) ==> m.cmd.AddDelayed? && m.cmd.job == j)
                        && (OwesFailed(s'.threads[u], j) ==> m.cmd == PushDead(j))
    requires m.cmd.RemDelayed? ==> t in s.threads && s.threads[t] == PromRem(m.cmd.job)
    ensures OwesRetrying(s'.threads[u], j) ==> j in s'.store.delayed
    ensures OwesFailed(s'.threads[u], j) ==> j in s'.store.dead
  {
  }

  lemma DebtStaysBacked(c: Config, s: Sys, a: Action, u: nat, j: Job)
    requires Before(c, s, a) && u in Next(c, s, a).threads
    ensures OwesRetrying(Next(c, s, a).threads[u], j) ==> j in Next(c, s, a).store.delayed
    ensures OwesFailed(Next(c, s, a).threads[u], j) ==> j in Next(c, s, a).store.dead
  {
    NextState(c, s, a);
    if u == a.t { NewDebt(c, s, a, j); }
    if MoveOf(s, a).cmd.RemDelayed? { Remover(c, s, a); }
    DebtFrame(s, Next(c, s, a), a.t, MoveOf(s, a), u, j);
  }

  /** A job is delayed with more attempts than anyone has read it with. */
  lemma NoReaderOfNewDebt(c: Config, s: Sys, a: Action, u: nat, j: Job)
    requires Before(c, s, a) && MoveOf(s, a).cmd.AddDelayed? && MoveOf(s, a).cmd.job == j && u in s.threads
    ensures s.threads[u] != PromRem(j)
  {
    DelayedAdder(c, s, a);
    HeldAlone(s, a.t, j.id);
    if s.threads[u] == PromRem(j) {
      assert Overtaken(s, j);
      StepMovesBeyond(c, s, a, j);
    }
  }

  /** Only a read makes a coroutine about to remove; it found the member in the delayed set. */
  lemma NoPromoterBehindDebt(c: Config, s: Sys, a: Action, t: nat, u: nat, j: Job)
    requires Before(c, s, a) && Prompt(s, a)
    requires var ts := Next(c, s, a).threads; t in ts && u in ts && OwesRetrying(ts[t], j)
    ensures Next(c, s, a).threads[u] != PromRem(j)
  {
    NextState(c, s, a);
    PromotionMoves(c, s, a);
    if t == a.t {
      NewDebt(c, s, a, j);
      if u != a.t { NoReaderOfNewDebt(c, s, a, u, j); }
    } else if u != a.t {
      assert s.threads[u] != PromRem(j);
    }
  }

  lemma DebtsLawKept(c: Config, s: Sys, a: Action)
    requires Before(c, s, a) && Prompt(s, a)
    ensures DebtsLaw(Next(c, s, a))
  {
    var s' := Next(c, s, a);
    forall t, j | t in s'.threads && OwesRetrying(s'.threads[t], j) ensures j in s'.store.delayed {
      DebtStaysBacked(c, s, a, t, j);
    }
    forall t, j | t in s'.threads && OwesFailed(s'.threads[t], j) ensures j in s'.store.dead {
      DebtStaysBacked(c, s, a, t, j);
    }
    forall t, u, j | t in s'.threads && u in s'.threads && OwesRetrying(s'.threads[t], j)
      ensures s'.threads[u] != PromRem(j)
    {
      NoPromoterBehindDebt(c, s, a, t, u, j);
    }
  }

  lemma StepKeepsStatusLaw(c: Config, s: Sys, a: Action)
    requires Found(s) && Lawful(s) && Enabled(c, s, a) && Prompt(s, a) && Finds(c, s, a)
    ensures Lawful(Next(c, s, a))
  {
    if a.Tick? {
      TickKeepsStatusLaw(c, s, a);
    } else {
      var s' := Next(c, s, a);
      forall j | j in s'.store.ready ensures Waiting(s'.store.status, j) { ReadyLawKept(c, s, a, j); }
      forall j | j in s'.store.delayed
        ensures Has(s'.store.status, j.id, Retrying) || exists t :: t in s'.threads && OwesRetrying(s'.threads[t], j)
      {
        DelayedLawKept(c, s, a, j);
      }
      forall j | j in s'.completed ensures Has(s'.store.status, j.id, Completed) { CompletedLawKept(c, s, a, j); }
      forall j | j in s'.store.dead
        ensures Has(s'.store.status, j.id, Failed) || exists t :: t in s'.threads && OwesFailed(s'.threads[t], j)
      {
        DeadLawKept(c, s, a, j);
      }
      HandsLawKept(c, s, a);
      DebtsLawKept(c, s, a);
    }
  }

  lemma TickKeepsStatusLaw(c: Config, s: Sys, a: Action)
    requires Lawful(s) && a.Tick? && Enabled(c, s, a)
    ensures Lawful(Next(c, s, a))
  {
    assert Next(c, s, a).threads == s.threads && Next(c, s, a).store == s.store && Next(c, s, a).completed == s.completed;
  }

  /** In every prompt run whose removals find their members, the place of every job determines its status. */
  lemma {:induction false} RunKeepsStatusLaw(c: Config, s: Sys, acts: seq<Action>)
    requires Found(s) && Lawful(s) && Runs(c, s, acts) && PromptRun(c, s, acts) && FindsRun(c, s, acts)
    ensures Lawful(End(c, s, acts))
    decreases |acts|
  {
    if acts != [] {
      StepKeepsFound(c, s, acts[0]);
      StepKeepsStatusLaw(c, s, acts[0]);
      RunKeepsStatusLaw(c, Next(c, s, acts[0]), acts[1..]);
    }
  }

  // ----- what a reader of the status hash may conclude

  ghost predicate Settling(s: Sys, id: nat) {
    exists t :: t in s.threads && s.threads[t].DoneCount? && s.threads[t].job.id == id
  }

  predicate IsParent(parent: Option<Job>, id: nat) {
    parent.Some? && parent.value.id == id
  }

  /** The coroutine works on this id: popped, announced as running, and not yet completed or failed. */
  predicate WorksOn(pc: Pc, id: nat) {
    match pc
    case Publishing(parent, _) => IsParent(parent, id)
    case EnqAdd(parent, _, _, _) => IsParent(parent, id)
    case EnqLate(parent, _, _) => IsParent(parent, id)
    case EnqCount(parent, _) => IsParent(parent, id)
    case DeqCount(job) => job.id == id
    case Dispatch(job) => job.id == id
    case _ => false
  }

  ghost predicate InWork(s: Sys, id: nat) {
    exists t :: t in s.threads && WorksOn(s.threads[t], id)
  }

  /** No coroutine still owes a status write for this id. */
  ghost predicate NoDebt(s: Sys, id: nat) {
    forall t, j :: t in s.threads && (OwesRetrying(s.threads[t], j) || OwesFailed(s.threads[t], j)) ==> j.id != id
  }

  lemma HandTellsStatus(s: Sys, t: nat, id: nat)
    requires Lawful(s) && t in s.threads && Held(id, s.threads[t]) >= 1
    ensures var m, pc := s.store.status, s.threads[t];
            || (WorksOn(pc, id) && Has(m, id, Running))
            || (pc.DoneCount? && pc.job.id == id && Has(m, id, Completed))
            || (!WorksOn(pc, id) && !pc.DoneCount? && (Has(m, id, Pending) || Has(m, id, Retrying)))
  {
    assert StatusPc(s.store.status, s.threads[t]);
  }

  lemma WorksOnHolds(pc: Pc, id: nat)
    ensures WorksOn(pc, id) ==> Held(id, pc) >= 1
    ensures pc.DoneCount? && pc.job.id == id ==> Held(id, pc) >= 1
  {
  }

  /** With no debt for the id, each kind of place fixes the status. */
  lemma PlaceTellsStatus(s: Sys, id: nat)
    requires Lawful(s) && NoDebt(s, id)
    ensures InReady(s, id) || InDelayed(s, id) ==> Has(s.store.status, id, Pending) || Has(s.store.status, id, Retrying)
    ensures InCompleted(s, id) ==> Has(s.store.status, id, Completed)
    ensures InDead(s, id) ==> Has(s.store.status, id, Failed)
    ensures InWork(s, id) ==> Has(s.store.status, id, Running)
    ensures Settling(s, id) ==> Has(s.store.status, id, Completed)
  {
    if InDelayed(s, id) {
      var j :| j in s.store.delayed && j.id == id;
      assert forall t :: t in s.threads ==> !OwesRetrying(s.threads[t], j);
    }
    if InDead(s, id) {
      var j :| j in s.store.dead && j.id == id;
      assert forall t :: t in s.threads ==> !OwesFailed(s.threads[t], j);
    }
    if InWork(s, id) {
      var t :| t in s.threads && WorksOn(s.threads[t], id);
      WorksOnHolds(s.threads[t], id);
      HandTellsStatus(s, t, id);
    }
    if Settling(s, id) {
      var t :| t in s.threads && s.threads[t].DoneCount? && s.threads[t].job.id == id;
      assert StatusPc(s.store.status, s.threads[t]);
    }
  }

  lemma RunIsLawful(c: Config, s: Sys, acts: seq<Action>)
    requires Init(s) && Runs(c, s, acts) && PromptRun(c, s, acts) && FindsRun(c, s, acts)
    ensures Found(End(c, s, acts)) && Lawful(End(c, s, acts))
  {
    InitHolds(s);
    SoloIsFound(s);
    RunKeepsFound(c, s, acts);
    RunKeepsStatusLaw(c, s, acts);
  }

  /** The status of the id says where its job is. */
  ghost predicate TellsPlace(s: Sys, id: nat) {
    var m := s.store.status;
    && (Has(m, id, Completed) <==> InCompleted(s, id) || Settling(s, id))
    && (Has(m, id, Failed) <==> InDead(s, id))
    && (Has(m, id, Running) <==> InWork(s, id))
    && (Has(m, id, Pending) || Has(m, id, Retrying)
        <==> !InCompleted(s, id) && !Settling(s, id) && !InDead(s, id) && !InWork(s, id))
  }

  /**
   In every prompt run whose removals find their members, any number of promoters, for every issued id
   with no write owed: COMPLETED exactly when the job completed, FAILED exactly when it is
   dead-lettered, RUNNING exactly when a worker is on it, and PENDING or RETRYING otherwise.
   */
  lemma StatusTellsPlace(c: Config, s: Sys, acts: seq<Action>, id: nat)
    requires Init(s) && Runs(c, s, acts) && PromptRun(c, s, acts) && FindsRun(c, s, acts)
    requires id in End(c, s, acts).issued && NoDebt(End(c, s, acts), id)
    ensures TellsPlace(End(c, s, acts), id)
  {
    var e := End(c, s, acts);
    RunIsLawful(c, s, acts);
    FindingKeepsOnePlace(c, s, acts, id);
    OnePlaceTellsStatus(e, id);
  }

  lemma OnePlaceTellsStatus(s: Sys, id: nat)
    requires Lawful(s) && NoDebt(s, id) && Kinds(s, id) == 1
    ensures TellsPlace(s, id)
  {
    PlaceTellsStatus(s, id);
    if InHand(s, id) {
      var t :| t in s.threads && Held(id, s.threads[t]) >= 1;
      HandTellsStatus(s, t, id);
    }
  }

  /** With one promoter, so in every prompt run. */
  lemma SoloStatusTellsPlace(c: Config, s: Sys, acts: seq<Action>, id: nat)
    requires c.solo && Init(s) && Runs(c, s, acts) && PromptRun(c, s, acts)
    requires id in End(c, s, acts).issued && NoDebt(End(c, s, acts), id)
    ensures TellsPlace(End(c, s, acts), id)
  {
    InitHolds(s);
    SoloRunsFind(c, s, acts);
    StatusTellsPlace(c, s, acts, id);
  }

  /** The status hash announces a retry while a worker is on the job. */
  ghost predicate Misleads(s: Sys, id: nat) {
    InWork(s, id) && Has(s.store.status, id, Retrying)
  }

  /** The state in which the race can start: a failed job is visible and due, its RETRYING write is not out yet. */
  ghost predicate LateWriter(s: Sys, job: Job) {
    && s.threads == map[0 := RetryStatus(job)] && s.store.ready == map[]
    && FirstDue(s.store, job, s.clock) && HasWorker(job.typ)
  }

  lemma ReaderTakes(c: Config, s: Sys, job: Job) returns (s': Sys)
    requires LateWriter(s, job)
    ensures Enabled(c, s, Read(1, job)) && s' == Next(c, s, Read(1, job))
    ensures s'.threads == map[0 := RetryStatus(job), 1 := PromRem(job)] && s'.store == s.store
  {
    s' := Next(c, s, Read(1, job));
    NextState(c, s, Read(1, job));
  }

  lemma LateWriteLands(c: Config, s: Sys, job: Job) returns (s': Sys, acts: seq<Action>)
    requires s.threads == map[0 := RetryStatus(job), 3 := DeqStatus(job)]
    ensures Runs(c, s, acts) && Closed(acts) && s' == End(c, s, acts)
    ensures 3 in s'.threads && s'.threads[3] == DeqCount(job) && Has(s'.store.status, job.id, Retrying)
  {
    var s1 := Next(c, s, Go(3, 0));
    NextState(c, s, Go(3, 0));
    assert s1.threads == map[0 := RetryStatus(job), 3 := DeqCount(job)];
    s' := Next(c, s1, Go(0, 0));
    NextState(c, s1, Go(0, 0));
    assert Runs(c, s', []);
    RunCons(c, s1, Go(0, 0), []);
    RunCons(c, s, Go(3, 0), [Go(0, 0)] + []);
    acts := [Go(3, 0)] + ([Go(0, 0)] + []);
  }

  /**
   Without promptness the law fails: the job is promoted, popped and announced as RUNNING, and then
   the late write of its last failure turns its status back to RETRYING while a worker is on it.
   */
  lemma LateWriteLies(c: Config, s: Sys, job: Job) returns (acts: seq<Action>)
    requires LateWriter(s, job)
    ensures Runs(c, s, acts) && Closed(acts)
    ensures InWork(End(c, s, acts), job.id) && Has(End(c, s, acts).store.status, job.id, Retrying)
  {
    var s1 := ReaderTakes(c, s, job);
    var s3, promote := PromotionWrites(c, s1, 1, job);
    assert s3.threads == map[0 := RetryStatus(job)];
    var s4, pop := WorkerPops(c, s3, job);
    assert s4.threads == map[0 := RetryStatus(job), 3 := DeqStatus(job)];
    var s6, late := LateWriteLands(c, s4, job);
    acts := Chain(c, s1, promote, s3, pop, s4);
    acts := Chain(c, s1, acts, s4, late, s6);
    RunCons(c, s, Read(1, job), acts);
    acts := [Read(1, job)] + acts;
    assert WorksOn(s6.threads[3], job.id);
  }
}
