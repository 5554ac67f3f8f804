/**
 Where a job is. With one promoter every issued id is in exactly one place in every reachable
 state; with any number of promoters it is in at least one.
 */
module Conservation {
  import opened Wrappers
  import opened Sums
  import opened Jobs
  import opened RedisStore
  import opened Protocol
  import opened Gauges

  function IsId(id: nat, job: Job): int {
    if job.id == id then 1 else 0
  }

  function HeldParent(id: nat, parent: Option<Job>): int {
    if parent.Some? then IsId(id, parent.value) else 0
  }

  /** How many jobs with this id the coroutine holds and no queue does. */
  function Held(id: nat, pc: Pc): int {
    match pc
    case Publishing(parent, _) => HeldParent(id, parent)
    case EnqAdd(parent, _, child, _) => HeldParent(id, parent) + IsId(id, child)
    case EnqLate(parent, _, _) => HeldParent(id, parent)
    case EnqCount(parent, _) => HeldParent(id, parent)
    case DeqStatus(job) => IsId(id, job)
    case DeqCount(job) => IsId(id, job)
    case Dispatch(job) => IsId(id, job)
    case DoneCount(job) => IsId(id, job)
    case PromAdd(job) => IsId(id, job)
    case RetryStatus(_) => 0
    case RetryCount(_) => 0
    case DeadStatus(_) => 0
    case DeadCount(_) => 0
    case PromRem(_) => 0
  }

  function Weigh(id: nat): Job -> int {
    (job: Job) => IsId(id, job)
  }

  /** Counts the places that hold the id. */
  function Places(id: nat): Gauge {
    Gauge(Weigh(id), Weigh(id), Weigh(id), Weigh(id), pc => Held(id, pc))
  }

  ghost predicate Accounted(s: Sys) {
    forall id: nat :: Total(Places(id), s) == if id in s.issued then 1 else 0
  }

  /** Only one coroutine promotes, and what it is about to remove is still in the delayed set. */
  ghost predicate SoloPromotion(s: Sys) {
    && (forall t, u :: t in s.threads && u in s.threads && Promoting(s.threads[t]) && Promoting(s.threads[u]) ==> t == u)
    && (forall t :: t in s.threads && s.threads[t].PromRem? ==> s.threads[t].job in s.store.delayed)
  }

  ghost predicate Inv(s: Sys) {
    Accounted(s) && SoloPromotion(s)
  }

  lemma PartsNonNegative(s: Sys, id: nat)
    ensures SumSet(s.store.ready.Keys, Places(id).ready) >= 0
    ensures SumSet(s.store.delayed.Keys, Places(id).delayed) >= 0
    ensures SumSeq(s.completed, Places(id).completed) >= 0
    ensures SumSeq(s.store.dead, Places(id).dead) >= 0
    ensures SumMap(s.threads, Places(id).pc) >= 0
    ensures forall j :: j in s.store.ready && j.id == id ==> SumSet(s.store.ready.Keys, Places(id).ready) >= 1
    ensures forall j :: j in s.store.delayed && j.id == id ==> SumSet(s.store.delayed.Keys, Places(id).delayed) >= 1
    ensures forall j :: j in s.completed && j.id == id ==> SumSeq(s.completed, Places(id).completed) >= 1
    ensures forall j :: j in s.store.dead && j.id == id ==> SumSeq(s.store.dead, Places(id).dead) >= 1
    ensures forall t :: t in s.threads ==> SumMap(s.threads, Places(id).pc) >= Held(id, s.threads[t])
  {
    var g := Places(id);
    SumSetNonNegative(s.store.ready.Keys, g.ready);
    SumSetNonNegative(s.store.delayed.Keys, g.delayed);
    SumSeqNonNegative(s.completed, g.completed);
    SumSeqNonNegative(s.store.dead, g.dead);
    SumMapNonNegative(s.threads, g.pc);
    forall j | j in s.store.ready && j.id == id ensures SumSet(s.store.ready.Keys, g.ready) >= 1 {
      SumSetAtLeast(s.store.ready.Keys, j, g.ready);
    }
    forall j | j in s.store.delayed && j.id == id ensures SumSet(s.store.delayed.Keys, g.delayed) >= 1 {
      SumSetAtLeast(s.store.delayed.Keys, j, g.delayed);
    }
    forall t | t in s.threads ensures SumMap(s.threads, g.pc) >= Held(id, s.threads[t]) {
      SumMapAtLeast(s.threads, t, g.pc);
    }
  }

  /** A job held by a coroutine is nowhere else. */
  lemma HeldAlone(s: Sys, t: nat, id: nat)
    requires Accounted(s) && t in s.threads && Held(id, s.threads[t]) >= 1
    ensures id in s.issued && Held(id, s.threads[t]) == 1
    ensures forall j :: j in s.store.ready || j in s.store.delayed || j in s.completed || j in s.store.dead ==> j.id != id
    ensures forall u :: u in s.threads && u != t ==> Held(id, s.threads[u]) == 0
  {
    var g := Places(id);
    PartsNonNegative(s, id);
    assert Total(g, s) <= 1;
    forall u | u in s.threads && u != t ensures Held(id, s.threads[u]) == 0 {
      SumMapRemove(s.threads, t, g.pc);
      SumMapAtLeast(s.threads - {t}, u, g.pc);
    }
  }

  lemma ReadyAlone(s: Sys, job: Job)
    requires Accounted(s) && job in s.store.ready
    ensures job.id in s.issued
    ensures forall j :: j in s.store.ready && j.id == job.id ==> j == job
    ensures forall j :: j in s.store.delayed || j in s.completed || j in s.store.dead ==> j.id != job.id
    ensures forall u :: u in s.threads ==> Held(job.id, s.threads[u]) == 0
  {
    var g := Places(job.id);
    PartsNonNegative(s, job.id);
    assert Total(g, s) <= 1;
    forall j | j in s.store.ready && j.id == job.id ensures j == job {
      if j != job {
        SumSetRemove(s.store.ready.Keys, job, g.ready);
        SumSetAtLeast(s.store.ready.Keys - {job}, j, g.ready);
      }
    }
  }

  lemma DelayedAlone(s: Sys, job: Job)
    requires Accounted(s) && job in s.store.delayed
    ensures job.id in s.issued
    ensures forall j :: j in s.store.delayed && j.id == job.id ==> j == job
    ensures forall j :: j in s.store.ready || j in s.completed || j in s.store.dead ==> j.id != job.id
    ensures forall u :: u in s.threads ==> Held(job.id, s.threads[u]) == 0
  {
    var g := Places(job.id);
    PartsNonNegative(s, job.id);
    assert Total(g, s) <= 1;
    forall j | j in s.store.delayed && j.id == job.id ensures j == job {
      if j != job {
        SumSetRemove(s.store.delayed.Keys, job, g.delayed);
        SumSetAtLeast(s.store.delayed.Keys - {job}, j, g.delayed);
      }
    }
  }

  /** The step is not a removal that finds nothing. */
  ghost predicate Finds(c: Config, s: Sys, a: Action)
    requires Enabled(c, s, a)
  {
    !a.Tick? && MoveOf(s, a).cmd.RemDelayed? ==> MoveOf(s, a).cmd.job in s.store.delayed
  }

  /** A single promoter always finds what it has read. */
  lemma SoloFinds(c: Config, s: Sys, a: Action)
    requires SoloPromotion(s) && Enabled(c, s, a)
    ensures Finds(c, s, a)
  {
    if !a.Tick? { PromotionMoves(c, s, a); }
  }

  /** Then no command of the step collapses with an existing member or misses one. */
  lemma StepIsClean(c: Config, s: Sys, a: Action)
    requires Accounted(s) && Enabled(c, s, a) && !a.Tick? && Finds(c, s, a)
    ensures Clean(s.store, MoveOf(s, a).cmd)
  {
    if a.Go? || a.Raise? {
      match s.threads[a.t]
      case EnqAdd(_, _, child, _) => HeldAlone(s, a.t, child.id);
      case PromAdd(job) => HeldAlone(s, a.t, job.id);
      case Publishing(parent, _) => if parent.Some? { HeldAlone(s, a.t, parent.value.id); }
      case _ =>
    }
  }

  /** The id a step issues, as a 0/1 change of that id's count. */
  function Issues(s: Sys, a: Action, id: nat): int {
    if a.Go? && a.id == id && a.t in s.threads && s.threads[a.t].Publishing? && s.threads[a.t].todo != [] then 1 else 0
  }

  function HeldBy(id: nat, pc: Option<Pc>): int {
    if pc.None? then 0 else Held(id, pc.value)
  }

  /** The change a command makes to the count of stored jobs with this id. */
  function Stored(id: nat, c: Cmd): int {
    match c
    case AddReady(job, _) => IsId(id, job)
    case AddDelayed(job, _) => IsId(id, job)
    case PopReady(job) => -IsId(id, job)
    case RemDelayed(job) => -IsId(id, job)
    case PushDead(job) => IsId(id, job)
    case _ => 0
  }

  function Settled(id: nat, finished: seq<Job>): int {
    if finished == [] then 0 else IsId(id, finished[0])
  }

  /** What a move adds to the places of one id. */
  function Change(id: nat, from: Option<Pc>, m: Move): int {
    Stored(id, m.cmd) + Settled(id, m.finished) + HeldBy(id, m.next) - HeldBy(id, from)
  }

  lemma PlacesDelta(id: nat, from: Option<Pc>, m: Move)
    requires |m.finished| <= 1
    ensures MoveDelta(Places(id), from, m) == Change(id, from, m)
  {
    Balance(Places(id), from, m);
  }

  lemma GoConserves(pc: Pc, now: real, newId: nat, id: nat)
    requires !pc.Dispatch?
    ensures Change(id, Some(pc), GoMove(pc, now, newId))
            == if pc.Publishing? && pc.todo != [] && newId == id then 1 else 0
  {
  }

  lemma FailConserves(job: Job, todo: seq<Spec>, error: string, now: real, id: nat)
    ensures Change(id, Some(Publishing(Some(job), todo)), FailMove(job, error, now)) == 0
  {
  }

  lemma StepChange(c: Config, s: Sys, a: Action, id: nat)
    requires Enabled(c, s, a) && !a.Tick?
    ensures Change(id, Standing(s, a.t), MoveOf(s, a)) == Issues(s, a, id)
  {
    match a
    case Go(t, newId) => GoConserves(s.threads[t], s.clock, newId, id);
    case Raise(t, error) => FailConserves(s.threads[t].parent.value, s.threads[t].todo, error, s.clock, id);
    case _ =>
  }

  /** Every move conserves the held-or-stored count of every id, up to the id it issues. */
  lemma MoveConserves(c: Config, s: Sys, a: Action, id: nat)
    requires Enabled(c, s, a) && !a.Tick?
    ensures MoveDelta(Places(id), Standing(s, a.t), MoveOf(s, a)) == Issues(s, a, id)
  {
    MoveShape(c, s, a);
    PlacesDelta(id, Standing(s, a.t), MoveOf(s, a));
    StepChange(c, s, a, id);
  }

  lemma StepIssues(c: Config, s: Sys, a: Action, id: nat)
    requires Enabled(c, s, a) && !a.Tick?
    ensures id in Next(c, s, a).issued <==> id in s.issued || Issues(s, a, id) == 1
    ensures Issues(s, a, id) == 1 ==> id !in s.issued
  {
  }

  lemma StepKeepsAccounts(c: Config, s: Sys, a: Action)
    requires Accounted(s) && Enabled(c, s, a) && Finds(c, s, a)
    ensures Accounted(Next(c, s, a))
  {
    if a.Tick? {
      forall id: nat ensures Total(Places(id), Next(c, s, a)) == Total(Places(id), s) {}
    } else {
      forall id: nat ensures Total(Places(id), Next(c, s, a)) == if id in Next(c, s, a).issued then 1 else 0 {
        StepAccounts(c, s, a, id);
      }
    }
  }

  lemma StepAccounts(c: Config, s: Sys, a: Action, id: nat)
    requires Accounted(s) && Enabled(c, s, a) && !a.Tick? && Finds(c, s, a)
    ensures Total(Places(id), Next(c, s, a)) == if id in Next(c, s, a).issued then 1 else 0
  {
    StepIsClean(c, s, a);
    StepDelta(Places(id), c, s, a);
    MoveConserves(c, s, a, id);
    StepIssues(c, s, a, id);
  }

  /** One promoter: both parts of the invariant survive every step. */
  lemma StepKeepsInv(c: Config, s: Sys, a: Action)
    requires c.solo && Inv(s) && Enabled(c, s, a)
    ensures Inv(Next(c, s, a))
  {
    SoloFinds(c, s, a);
    StepKeepsAccounts(c, s, a);
    StepKeepsSoloPromotion(c, s, a);
  }

  lemma PromotionMoves(c: Config, s: Sys, a: Action)
    requires Enabled(c, s, a) && !a.Tick?
    ensures var m := MoveOf(s, a);
            && (m.next.Some? && m.next.value.PromRem? ==> a == Read(a.t, m.next.value.job))
            && (m.next.Some? && m.next.value.PromAdd? ==> a.t in s.threads && s.threads[a.t].PromRem?)
            && (m.cmd.RemDelayed? ==> a.t in s.threads && s.threads[a.t].PromRem?)
  {
  }

  lemma StepKeepsSoloPromotion(c: Config, s: Sys, a: Action)
    requires c.solo && SoloPromotion(s) && Enabled(c, s, a)
    ensures SoloPromotion(Next(c, s, a))
  {
    if !a.Tick? {
      PromotionMoves(c, s, a);
      NextState(c, s, a);
      MoveKeepsSoloPromotion(s, Next(c, s, a), a.t, MoveOf(s, a));
    }
  }

  lemma MoveKeepsSoloPromotion(s: Sys, s': Sys, t: nat, m: Move)
    requires SoloPromotion(s)
    requires s'.store == Apply(m.cmd, s.store) && s'.threads == Put(s.threads, t, m.next)
    requires m.next.Some? && m.next.value.PromRem? ==>
               m.next.value.job in s.store.delayed && forall u :: u in s.threads ==> !Promoting(s.threads[u])
    requires m.next.Some? && m.next.value.PromRem? ==> m.cmd.Nop?
    requires m.next.Some? && m.next.value.PromAdd? ==> t in s.threads && s.threads[t].PromRem?
    requires m.cmd.RemDelayed? ==> t in s.threads && s.threads[t].PromRem? && (m.next.Some? ==> !m.next.value.PromRem?)
    ensures SoloPromotion(s')
  {
  }

  lemma InitHolds(s: Sys)
    requires Init(s)
    ensures Inv(s)
  {
  }

  lemma {:induction false} RunKeepsInv(c: Config, s: Sys, acts: seq<Action>)
    requires c.solo && Inv(s) && Runs(c, s, acts)
    ensures Inv(End(c, s, acts))
    decreases |acts|
  {
    if acts != [] {
      StepKeepsInv(c, s, acts[0]);
      RunKeepsInv(c, Next(c, s, acts[0]), acts[1..]);
    }
  }

  // ----- any number of promoters

  /** How many more places an id has than its one. */
  ghost function Surplus(id: nat, s: Sys): int {
    Total(Places(id), s) - if id in s.issued then 1 else 0
  }

  lemma StepSurplus(c: Config, s: Sys, a: Action, id: nat)
    requires Enabled(c, s, a) && !a.Tick?
    ensures var cmd := MoveOf(s, a).cmd;
            Surplus(id, Next(c, s, a)) == Surplus(id, s) + Missed(Weigh(id), s.store, cmd) - Collapsed(Weigh(id), s.store, cmd)
  {
    StepDelta(Places(id), c, s, a);
    MoveConserves(c, s, a, id);
    StepIssues(c, s, a, id);
    if MoveOf(s, a).cmd.PopReady? { PopFindsItsJob(c, s, a); }
    SlipIsMissedLessCollapsed(Places(id), Weigh(id), s.store, MoveOf(s, a).cmd);
  }

  lemma TickKeepsSurplus(c: Config, s: Sys, a: Action, id: nat)
    requires a.Tick? && Enabled(c, s, a)
    ensures Surplus(id, Next(c, s, a)) == Surplus(id, s)
  {
  }

  /** Every missed removal of an id gives it one more place, every collapsed add one less; nothing else does. */
  lemma {:induction false} SurplusOverRun(c: Config, s: Sys, acts: seq<Action>, id: nat)
    requires Runs(c, s, acts)
    ensures Surplus(id, End(c, s, acts))
            == Surplus(id, s) + MissedSum(Weigh(id), c, s, acts) - CollapsedSum(Weigh(id), c, s, acts)
    decreases |acts|
  {
    if acts != [] {
      if acts[0].Tick? { TickKeepsSurplus(c, s, acts[0], id); } else { StepSurplus(c, s, acts[0], id); }
      SurplusOverRun(c, Next(c, s, acts[0]), acts[1..], id);
    }
  }
}
