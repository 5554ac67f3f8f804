/**
 The metric counters, for any number of promoters. Every counter equals what it is supposed to count,
 up to the increments that coroutines between a command and its metric still owe, the removals that
 found nothing, and the adds that collapsed with a present member. With one promoter the last two
 never happen.
 */
module Counters {
  import opened Wrappers
  import opened Sums
  import opened Jobs
  import opened RedisStore
  import opened Protocol
  import opened Gauges
  import opened Conservation

  /** +1: out of the ready set but not yet counted as dequeued, or being promoted; -1: added but not yet counted. */
  function QueueSlack(pc: Pc): int {
    match pc
    case EnqLate(_, _, _) => -1
    case EnqCount(_, _) => -1
    case DeqStatus(_) => 1
    case DeqCount(_) => 1
    case RetryStatus(_) => -1
    case RetryCount(_) => -1
    case PromAdd(_) => 1
    case Publishing(_, _) => 0
    case EnqAdd(_, _, _, _) => 0
    case Dispatch(_) => 0
    case DoneCount(_) => 0
    case DeadStatus(_) => 0
    case DeadCount(_) => 0
    case PromRem(_) => 0
  }

  /** 1 for a coroutine whose job is counted as dequeued and not yet as completed, retried or dead. */
  function Unsettled(pc: Pc): int {
    match pc
    case Publishing(parent, _) => if parent.Some? then 1 else 0
    case EnqAdd(parent, _, _, _) => if parent.Some? then 1 else 0
    case EnqLate(parent, _, _) => if parent.Some? then 1 else 0
    case EnqCount(parent, _) => if parent.Some? then 1 else 0
    case Dispatch(_) => 1
    case DoneCount(_) => 1
    case RetryStatus(_) => 1
    case RetryCount(_) => 1
    case DeadStatus(_) => 1
    case DeadCount(_) => 1
    case DeqStatus(_) => 0
    case DeqCount(_) => 0
    case PromRem(_) => 0
    case PromAdd(_) => 0
  }

  function ParentAttempts(parent: Option<Job>): int {
    if parent.Some? then parent.value.attempts else 0
  }

  /** The attempts of the job in hand; -1 for a failure that is not counted yet. */
  function AttemptsHeld(pc: Pc): int {
    match pc
    case Publishing(parent, _) => ParentAttempts(parent)
    case EnqAdd(parent, _, child, _) => ParentAttempts(parent) + child.attempts
    case EnqLate(parent, _, _) => ParentAttempts(parent)
    case EnqCount(parent, _) => ParentAttempts(parent)
    case DeqStatus(job) => job.attempts
    case DeqCount(job) => job.attempts
    case Dispatch(job) => job.attempts
    case DoneCount(job) => job.attempts
    case PromAdd(job) => job.attempts
    case RetryStatus(_) => -1
    case RetryCount(_) => -1
    case DeadStatus(_) => -1
    case DeadCount(_) => -1
    case PromRem(_) => 0
  }

  function SlackOf(pc: Option<Pc>): int { if pc.None? then 0 else QueueSlack(pc.value) }

  function UnsettledOf(pc: Option<Pc>): int { if pc.None? then 0 else Unsettled(pc.value) }

  function AttemptsBy(pc: Option<Pc>): int { if pc.None? then 0 else AttemptsHeld(pc.value) }

  /** The change a command makes to the number of queued members. */
  function Grows(c: Cmd): int {
    if c.AddReady? || c.AddDelayed? then 1 else if c.PopReady? || c.RemDelayed? then -1 else 0
  }

  /** The change a command makes to the attempts recorded in stored jobs. */
  function StoresAttempts(c: Cmd): int {
    if c.AddReady? || c.AddDelayed? || c.PushDead? then c.job.attempts
    else if c.PopReady? || c.RemDelayed? then -(c.job.attempts as int)
    else 0
  }

  function FinishedAttempts(finished: seq<Job>): int {
    if finished == [] then 0 else finished[0].attempts
  }

  function Ones(): Job -> int {
    (_: Job) => 1
  }

  function Zeros(): Job -> int {
    (_: Job) => 0
  }

  function Attempts(): Job -> int {
    (j: Job) => j.attempts
  }

  function Size(): Gauge {
    Gauge(Ones(), Ones(), Zeros(), Zeros(), (pc: Pc) => QueueSlack(pc))
  }

  function InFlight(): Gauge {
    Gauge(Zeros(), Zeros(), Zeros(), Zeros(), (pc: Pc) => Unsettled(pc))
  }

  function AttemptSum(): Gauge {
    Gauge(Attempts(), Attempts(), Attempts(), Attempts(), (pc: Pc) => AttemptsHeld(pc))
  }

  function Counted(c: Cmd, f: Metric): int {
    if c == Incr(f) then 1 else 0
  }

  // ----- three laws: a gauge of the state against a side made of counters

  datatype Law = QueueLaw | FlightLaw | AttemptLaw {
    function Weight(): Job -> int {
      match this
      case QueueLaw => Ones()
      case FlightLaw => Zeros()
      case AttemptLaw => Attempts()
    }

    function Gauge(): Gauge {
      match this
      case QueueLaw => Size()
      case FlightLaw => InFlight()
      case AttemptLaw => AttemptSum()
    }

    function Side(m: Metrics): int {
      match this
      case QueueLaw => m.enqueued + m.retried - m.dequeued
      case FlightLaw => m.dequeued - m.completed - m.retried - m.deadLettered
      case AttemptLaw => m.retried + m.deadLettered
    }

    /** What a command adds to the side. */
    function Due(c: Cmd): int {
      match this
      case QueueLaw => Counted(c, Enqueued) + Counted(c, Retried) - Counted(c, Dequeued)
      case FlightLaw => Counted(c, Dequeued) - Counted(c, CompletedCount) - Counted(c, Retried) - Counted(c, DeadLettered)
      case AttemptLaw => Counted(c, Retried) + Counted(c, DeadLettered)
    }
  }

  /** How far the law is off: what the gauge shows beyond the counters. */
  ghost function Gap(law: Law, s: Sys): int {
    Total(law.Gauge(), s) - law.Side(s.store.metrics)
  }

  lemma QueueLawGo(pc: Pc, now: real, id: nat)
    requires !pc.Dispatch?
    ensures var m := GoMove(pc, now, id);
            Grows(m.cmd) + SlackOf(m.next) - SlackOf(Some(pc)) == QueueLaw.Due(m.cmd)
  {
  }

  lemma QueueLawFail(job: Job, todo: seq<Spec>, error: string, now: real)
    ensures var m := FailMove(job, error, now);
            Grows(m.cmd) + SlackOf(m.next) - SlackOf(Some(Publishing(Some(job), todo))) == QueueLaw.Due(m.cmd)
  {
  }

  lemma QueueLawMove(c: Config, s: Sys, a: Action)
    requires Enabled(c, s, a) && !a.Tick?
    ensures Grows(MoveOf(s, a).cmd) + SlackOf(MoveOf(s, a).next) - SlackOf(Standing(s, a.t)) == QueueLaw.Due(MoveOf(s, a).cmd)
  {
    match a
    case Go(t, id) => QueueLawGo(s.threads[t], s.clock, id);
    case Raise(t, error) => QueueLawFail(s.threads[t].parent.value, s.threads[t].todo, error, s.clock);
    case _ =>
  }

  lemma FlightLawGo(pc: Pc, now: real, id: nat)
    requires !pc.Dispatch?
    ensures var m := GoMove(pc, now, id);
            UnsettledOf(m.next) - UnsettledOf(Some(pc)) == FlightLaw.Due(m.cmd)
  {
  }

  lemma FlightLawFail(job: Job, todo: seq<Spec>, error: string, now: real)
    ensures var m := FailMove(job, error, now);
            UnsettledOf(m.next) - UnsettledOf(Some(Publishing(Some(job), todo))) == FlightLaw.Due(m.cmd)
  {
  }

  lemma FlightLawMove(c: Config, s: Sys, a: Action)
    requires Enabled(c, s, a) && !a.Tick?
    ensures UnsettledOf(MoveOf(s, a).next) - UnsettledOf(Standing(s, a.t)) == FlightLaw.Due(MoveOf(s, a).cmd)
  {
    match a
    case Go(t, id) => FlightLawGo(s.threads[t], s.clock, id);
    case Raise(t, error) => FlightLawFail(s.threads[t].parent.value, s.threads[t].todo, error, s.clock);
    case _ =>
  }

  /** The change of the recorded attempts by a move. */
  function AttemptChange(from: Option<Pc>, m: Move): int {
    StoresAttempts(m.cmd) + FinishedAttempts(m.finished) + AttemptsBy(m.next) - AttemptsBy(from)
  }

  lemma AttemptLawGo(pc: Pc, now: real, id: nat)
    requires !pc.Dispatch?
    ensures AttemptChange(Some(pc), GoMove(pc, now, id)) == AttemptLaw.Due(GoMove(pc, now, id).cmd)
  {
  }

  lemma AttemptLawFail(job: Job, todo: seq<Spec>, error: string, now: real)
    ensures AttemptChange(Some(Publishing(Some(job), todo)), FailMove(job, error, now)) == AttemptLaw.Due(FailMove(job, error, now).cmd)
  {
  }

  lemma AttemptLawMove(c: Config, s: Sys, a: Action)
    requires Enabled(c, s, a) && !a.Tick?
    ensures AttemptChange(Standing(s, a.t), MoveOf(s, a)) == AttemptLaw.Due(MoveOf(s, a).cmd)
  {
    match a
    case Go(t, id) => AttemptLawGo(s.threads[t], s.clock, id);
    case Raise(t, error) => AttemptLawFail(s.threads[t].parent.value, s.threads[t].todo, error, s.clock);
    case _ =>
  }

  lemma QueueDelta(from: Option<Pc>, m: Move)
    requires |m.finished| <= 1
    ensures MoveDelta(Size(), from, m) == Grows(m.cmd) + SlackOf(m.next) - SlackOf(from)
  {
    Balance(Size(), from, m);
  }

  lemma FlightDelta(from: Option<Pc>, m: Move)
    requires |m.finished| <= 1
    ensures MoveDelta(InFlight(), from, m) == UnsettledOf(m.next) - UnsettledOf(from)
  {
    Balance(InFlight(), from, m);
  }

  lemma AttemptDelta(from: Option<Pc>, m: Move)
    requires |m.finished| <= 1
    ensures MoveDelta(AttemptSum(), from, m) == AttemptChange(from, m)
  {
    Balance(AttemptSum(), from, m);
  }

  /** Every move pays into the counters what it changes in the gauge. */
  lemma MovePays(law: Law, c: Config, s: Sys, a: Action)
    requires Enabled(c, s, a) && !a.Tick?
    ensures MoveDelta(law.Gauge(), Standing(s, a.t), MoveOf(s, a)) == law.Due(MoveOf(s, a).cmd)
  {
    MoveShape(c, s, a);
    match law
    case QueueLaw =>
      QueueDelta(Standing(s, a.t), MoveOf(s, a));
      QueueLawMove(c, s, a);
    case FlightLaw =>
      FlightDelta(Standing(s, a.t), MoveOf(s, a));
      FlightLawMove(c, s, a);
    case AttemptLaw =>
      AttemptDelta(Standing(s, a.t), MoveOf(s, a));
      AttemptLawMove(c, s, a);
  }

  lemma SideAfter(law: Law, s: Store, c: Cmd)
    ensures law.Side(Apply(c, s).metrics) == law.Side(s.metrics) + law.Due(c)
  {
  }

  /** A step changes the gap by its slip alone. */
  lemma StepGap(law: Law, c: Config, s: Sys, a: Action)
    requires Enabled(c, s, a) && !a.Tick?
    ensures var cmd := MoveOf(s, a).cmd;
            Gap(law, Next(c, s, a)) == Gap(law, s) + Missed(law.Weight(), s.store, cmd) - Collapsed(law.Weight(), s.store, cmd)
  {
    var m := MoveOf(s, a);
    StepDelta(law.Gauge(), c, s, a);
    MovePays(law, c, s, a);
    SideAfter(law, s.store, m.cmd);
    NextState(c, s, a);
    if m.cmd.PopReady? { PopFindsItsJob(c, s, a); }
    LawSlip(law, s.store, m.cmd);
  }

  lemma LawSlip(law: Law, s: Store, c: Cmd)
    requires c.PopReady? ==> c.job in s.ready
    ensures Slip(law.Gauge(), s, c) == Missed(law.Weight(), s, c) - Collapsed(law.Weight(), s, c)
  {
    SlipIsMissedLessCollapsed(law.Gauge(), law.Weight(), s, c);
  }

  lemma TickKeepsGap(law: Law, c: Config, s: Sys, a: Action)
    requires a.Tick? && Enabled(c, s, a)
    ensures Gap(law, Next(c, s, a)) == Gap(law, s)
  {
  }

  /** Over any run, any number of promoters, a law is off by exactly what was missed less what collapsed. */
  lemma {:induction false} GapOverRun(law: Law, c: Config, s: Sys, acts: seq<Action>)
    requires Runs(c, s, acts)
    ensures Gap(law, End(c, s, acts))
            == Gap(law, s) + MissedSum(law.Weight(), c, s, acts) - CollapsedSum(law.Weight(), c, s, acts)
    decreases |acts|
  {
    if acts != [] {
      if acts[0].Tick? { TickKeepsGap(law, c, s, acts[0]); } else { StepGap(law, c, s, acts[0]); }
      GapOverRun(law, c, Next(c, s, acts[0]), acts[1..]);
    }
  }

  lemma StartsExact(law: Law, s: Sys)
    requires Init(s)
    ensures Gap(law, s) == 0
  {
  }

  /** With one promoter nothing is missed and nothing collapses. */
  lemma {:induction false} SoloSlipsNothing(w: Job -> int, c: Config, s: Sys, acts: seq<Action>)
    requires c.solo && Inv(s) && Runs(c, s, acts)
    ensures MissedSum(w, c, s, acts) == 0 && CollapsedSum(w, c, s, acts) == 0
    decreases |acts|
  {
    if acts != [] {
      StepKeepsInv(c, s, acts[0]);
      if !acts[0].Tick? { SoloFinds(c, s, acts[0]); StepIsClean(c, s, acts[0]); }
      SoloSlipsNothing(w, c, Next(c, s, acts[0]), acts[1..]);
    }
  }

  /** So with one promoter every law is exact in every reachable state, owed increments included. */
  lemma SoloLawsAreExact(law: Law, c: Config, s: Sys, acts: seq<Action>)
    requires c.solo && Init(s) && Runs(c, s, acts)
    ensures Gap(law, End(c, s, acts)) == 0
  {
    InitHolds(s);
    StartsExact(law, s);
    GapOverRun(law, c, s, acts);
    SoloSlipsNothing(law.Weight(), c, s, acts);
  }

  // ----- the laws spelled out

  /** No coroutine stands between a queue command and its metric. */
  ghost predicate NothingOwed(s: Sys) {
    forall t :: t in s.threads ==>
      var pc := s.threads[t];
      || (pc.Publishing? && pc.parent.Some?) || pc.Dispatch? || pc.PromRem? || pc.PromAdd?
  }

  ghost function InPromotion(s: Sys): set<nat> {
    set t | t in s.threads && s.threads[t].PromAdd?
  }

  ghost function RunningNow(s: Sys): set<nat> {
    set t | t in s.threads && (s.threads[t].Dispatch? || s.threads[t].Publishing?)
  }

  lemma SizeCounts(s: Sys)
    requires NothingOwed(s)
    ensures Total(Size(), s) == |s.store.ready| + |s.store.delayed| + |InPromotion(s)|
  {
    SumSetOnes(s.store.ready.Keys, Size().ready);
    SumSetOnes(s.store.delayed.Keys, Size().delayed);
    SumSeqZero(s.completed, Size().completed);
    SumSeqZero(s.store.dead, Size().dead);
    SumSetIndicator(s.threads.Keys, AtKey(s.threads, Size().pc), InPromotion(s));
  }

  lemma FlightCounts(s: Sys)
    requires NothingOwed(s)
    ensures Total(InFlight(), s) == |RunningNow(s)|
  {
    SumSetZero(s.store.ready.Keys, InFlight().ready);
    SumSetZero(s.store.delayed.Keys, InFlight().delayed);
    SumSeqZero(s.completed, InFlight().completed);
    SumSeqZero(s.store.dead, InFlight().dead);
    SumSetIndicator(s.threads.Keys, AtKey(s.threads, InFlight().pc), RunningNow(s));
  }

  lemma {:induction false} NothingWeighted(c: Config, s: Sys, acts: seq<Action>)
    requires Runs(c, s, acts)
    ensures MissedSum(Zeros(), c, s, acts) == 0 && CollapsedSum(Zeros(), c, s, acts) == 0
    decreases |acts|
  {
    if acts != [] { NothingWeighted(c, Next(c, s, acts[0]), acts[1..]); }
  }

  /** enqueued + retried = dequeued + ready + delayed + in promotion. */
  ghost predicate QueueBooks(s: Sys) {
    var m := s.store.metrics;
    m.enqueued + m.retried == m.dequeued + |s.store.ready| + |s.store.delayed| + |InPromotion(s)|
  }

  /** dequeued = running + completed + retried + dead. */
  ghost predicate FlightBooks(s: Sys) {
    var m := s.store.metrics;
    m.dequeued == |RunningNow(s)| + m.completed + m.retried + m.deadLettered
  }

  /** retried + dead = the attempts recorded in all jobs. */
  ghost predicate AttemptBooks(s: Sys) {
    s.store.metrics.retried + s.store.metrics.deadLettered
    == SumSet(s.store.ready.Keys, Attempts()) + SumSet(s.store.delayed.Keys, Attempts())
       + SumSeq(s.completed, Attempts()) + SumSeq(s.store.dead, Attempts())
  }

  /**
   Any number of promoters, any reachable state in which no metric is owed: the flight books are exact,
   and enqueued + retried + missed removals = dequeued + ready + delayed + in promotion + collapsed adds.
   */
  lemma CounterLaws(c: Config, s: Sys, acts: seq<Action>)
    requires Init(s) && Runs(c, s, acts) && NothingOwed(End(c, s, acts))
    ensures var e := End(c, s, acts);
            var m := e.store.metrics;
            && m.enqueued + m.retried + MissedSum(Ones(), c, s, acts)
               == m.dequeued + |e.store.ready| + |e.store.delayed| + |InPromotion(e)| + CollapsedSum(Ones(), c, s, acts)
            && (QueueBooks(e) <==> MissedSum(Ones(), c, s, acts) == CollapsedSum(Ones(), c, s, acts))
            && FlightBooks(e)
  {
    var e := End(c, s, acts);
    assert Gap(QueueLaw, e) == MissedSum(Ones(), c, s, acts) - CollapsedSum(Ones(), c, s, acts) by {
      StartsExact(QueueLaw, s);
      GapOverRun(QueueLaw, c, s, acts);
    }
    assert Gap(FlightLaw, e) == 0 by {
      StartsExact(FlightLaw, s);
      GapOverRun(FlightLaw, c, s, acts);
      NothingWeighted(c, s, acts);
    }
    SizeCounts(e);
    FlightCounts(e);
  }

  lemma NoThreadsNoWeight(s: Sys)
    requires s.threads == map[]
    ensures AttemptBooks(s) <==> Gap(AttemptLaw, s) == 0
    ensures NothingOwed(s) && (QueueBooks(s) <==> Gap(QueueLaw, s) == 0)
  {
    SumMapZero(s.threads, AttemptSum().pc);
    SizeCounts(s);
  }

  /**
   When every coroutine has finished, the attempts on record exceed the failures counted by the
   attempts of missed removals less those of collapsed adds.
   */
  lemma AttemptsAtRest(c: Config, s: Sys, acts: seq<Action>)
    requires Init(s) && Runs(c, s, acts) && End(c, s, acts).threads == map[]
    ensures Gap(AttemptLaw, End(c, s, acts)) == MissedSum(Attempts(), c, s, acts) - CollapsedSum(Attempts(), c, s, acts)
    ensures AttemptBooks(End(c, s, acts)) <==> MissedSum(Attempts(), c, s, acts) == CollapsedSum(Attempts(), c, s, acts)
  {
    StartsExact(AttemptLaw, s);
    GapOverRun(AttemptLaw, c, s, acts);
    NoThreadsNoWeight(End(c, s, acts));
  }

  /** One promoter: all three books are exact. */
  lemma SoloBooks(c: Config, s: Sys, acts: seq<Action>)
    requires c.solo && Init(s) && Runs(c, s, acts)
    ensures var e := End(c, s, acts);
            && (NothingOwed(e) ==> QueueBooks(e) && FlightBooks(e))
            && (e.threads == map[] ==> AttemptBooks(e))
  {
    InitHolds(s);
    SoloSlipsNothing(Ones(), c, s, acts);
    SoloSlipsNothing(Attempts(), c, s, acts);
    if NothingOwed(End(c, s, acts)) { CounterLaws(c, s, acts); }
    if End(c, s, acts).threads == map[] { AttemptsAtRest(c, s, acts); }
  }
}
