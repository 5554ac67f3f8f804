/**
 Gauges: a gauge gives every job an integer weight at the place where it is and every coroutine a
 weight for where it stands. A step changes the total by an amount that depends on its move alone,
 so each law about the whole system reduces to a comparison of one move's weights.
 */
module Gauges {
  import opened Wrappers
  import opened Sums
  import opened Jobs
  import opened RedisStore
  import opened Protocol

  datatype Gauge = Gauge(ready: Job -> int, delayed: Job -> int, completed: Job -> int, dead: Job -> int, pc: Pc -> int)

  ghost function Total(g: Gauge, s: Sys): int {
    SumSet(s.store.ready.Keys, g.ready) + SumSet(s.store.delayed.Keys, g.delayed)
    + SumSeq(s.completed, g.completed) + SumSeq(s.store.dead, g.dead) + SumMap(s.threads, g.pc)
  }

  ghost function AtPc(g: Gauge, pc: Option<Pc>): int {
    if pc.None? then 0 else g.pc(pc.value)
  }

  ghost function CmdDelta(g: Gauge, c: Cmd): int {
    match c
    case AddReady(job, _) => g.ready(job)
    case AddDelayed(job, _) => g.delayed(job)
    case PopReady(job) => -g.ready(job)
    case RemDelayed(job) => -g.delayed(job)
    case PushDead(job) => g.dead(job)
    case _ => 0
  }

  ghost function MoveDelta(g: Gauge, from: Option<Pc>, m: Move): int {
    CmdDelta(g, m.cmd) + SumSeq(m.finished, g.completed) + AtPc(g, m.next) - AtPc(g, from)
  }

  /** A move's balance, with the finished jobs written out. */
  lemma Balance(g: Gauge, from: Option<Pc>, m: Move)
    requires |m.finished| <= 1
    ensures MoveDelta(g, from, m)
            == CmdDelta(g, m.cmd) + (if m.finished == [] then 0 else g.completed(m.finished[0]))
               + (if m.next.Some? then g.pc(m.next.value) else 0) - (if from.Some? then g.pc(from.value) else 0)
  {
    if m.finished != [] {
      assert SumSeq(m.finished[1..], g.completed) == 0;
    }
  }

  function Standing(s: Sys, t: nat): Option<Pc> {
    if t in s.threads then Some(s.threads[t]) else None
  }

  /** The command inserts a new member or removes a present one: nothing collapses. */
  predicate Clean(s: Store, c: Cmd) {
    match c
    case AddReady(job, _) => job !in s.ready
    case AddDelayed(job, _) => job !in s.delayed
    case PopReady(job) => job in s.ready
    case RemDelayed(job) => job in s.delayed
    case _ => true
  }

  /**
   What a command's effect differs by when it is not clean: an add over a present member collapses with
   it, and a removal or pop of an absent one removes nothing.
   */
  ghost function Slip(g: Gauge, s: Store, c: Cmd): int {
    if Clean(s, c) then 0 else -CmdDelta(g, c)
  }

  lemma StoreDelta(g: Gauge, s: Store, c: Cmd)
    ensures var s' := Apply(c, s);
            SumSet(s'.ready.Keys, g.ready) + SumSet(s'.delayed.Keys, g.delayed) + SumSeq(s'.dead, g.dead)
            == SumSet(s.ready.Keys, g.ready) + SumSet(s.delayed.Keys, g.delayed) + SumSeq(s.dead, g.dead)
               + CmdDelta(g, c) + Slip(g, s, c)
  {
    var s' := Apply(c, s);
    if Clean(s, c) {
      CleanDelta(g, s, c);
    } else {
      assert s'.ready.Keys == s.ready.Keys && s'.delayed.Keys == s.delayed.Keys && s'.dead == s.dead;
    }
  }

  lemma CleanDelta(g: Gauge, s: Store, c: Cmd)
    requires Clean(s, c)
    ensures var s' := Apply(c, s);
            SumSet(s'.ready.Keys, g.ready) + SumSet(s'.delayed.Keys, g.delayed) + SumSeq(s'.dead, g.dead)
            == SumSet(s.ready.Keys, g.ready) + SumSet(s.delayed.Keys, g.delayed) + SumSeq(s.dead, g.dead) + CmdDelta(g, c)
  {
    var s' := Apply(c, s);
    match c
    case AddReady(job, _) =>
      SumSetAdd(s.ready.Keys, job, g.ready);
      assert s'.ready.Keys == s.ready.Keys + {job};
    case AddDelayed(job, _) =>
      SumSetAdd(s.delayed.Keys, job, g.delayed);
      assert s'.delayed.Keys == s.delayed.Keys + {job};
    case PopReady(job) =>
      SumSetRemove(s.ready.Keys, job, g.ready);
      assert s'.ready.Keys == s.ready.Keys - {job};
    case RemDelayed(job) =>
      SumSetRemove(s.delayed.Keys, job, g.delayed);
      assert s'.delayed.Keys == s.delayed.Keys - {job};
    case PushDead(job) =>
      SumSeqConcat([job], s.dead, g.dead);
    case _ =>
  }

  /** A step changes the total of a gauge by its move's own balance, and by the slip. */
  lemma TakeDelta(g: Gauge, s: Sys, t: nat, m: Move)
    ensures Total(g, Take(s, t, m)) == Total(g, s) + MoveDelta(g, Standing(s, t), m) + Slip(g, s.store, m.cmd)
  {
    StoreDelta(g, s.store, m.cmd);
    SumSeqConcat(s.completed, m.finished, g.completed);
    match m.next
    case Some(pc) => SumMapPut(s.threads, t, pc, g.pc);
    case None =>
      if t in s.threads {
        SumMapRemove(s.threads, t, g.pc);
      } else {
        assert s.threads - {t} == s.threads;
      }
  }

  lemma NextTakes(c: Config, s: Sys, a: Action)
    requires Enabled(c, s, a) && !a.Tick?
    ensures Next(c, s, a) == Take(Note(s, a, MoveOf(s, a)), a.t, MoveOf(s, a))
    ensures var noted := Note(s, a, MoveOf(s, a));
            noted.store == s.store && noted.threads == s.threads && noted.completed == s.completed
  {
  }

  /** The delta only looks at the real state. */
  lemma DeltaAfterNote(g: Gauge, s: Sys, noted: Sys, t: nat, m: Move)
    requires noted.store == s.store && noted.threads == s.threads && noted.completed == s.completed
    ensures Total(g, Take(noted, t, m)) == Total(g, s) + MoveDelta(g, Standing(s, t), m) + Slip(g, s.store, m.cmd)
  {
    TakeDelta(g, noted, t, m);
  }

  lemma StepDelta(g: Gauge, c: Config, s: Sys, a: Action)
    requires Enabled(c, s, a) && !a.Tick?
    ensures Total(g, Next(c, s, a))
            == Total(g, s) + MoveDelta(g, Standing(s, a.t), MoveOf(s, a)) + Slip(g, s.store, MoveOf(s, a).cmd)
  {
    NextTakes(c, s, a);
    DeltaAfterNote(g, s, Note(s, a, MoveOf(s, a)), a.t, MoveOf(s, a));
  }

  // ----- slips over a run

  /** What the weighted jobs of removals that found nothing add up to. */
  ghost function MissedSum(w: Job -> int, c: Config, s: Sys, acts: seq<Action>): int
    requires Runs(c, s, acts)
    decreases |acts|
  {
    if acts == [] then 0
    else (if acts[0].Tick? then 0 else Missed(w, s.store, MoveOf(s, acts[0]).cmd)) + MissedSum(w, c, Next(c, s, acts[0]), acts[1..])
  }

  /** What the weighted jobs of adds over a present member add up to. */
  ghost function CollapsedSum(w: Job -> int, c: Config, s: Sys, acts: seq<Action>): int
    requires Runs(c, s, acts)
    decreases |acts|
  {
    if acts == [] then 0
    else (if acts[0].Tick? then 0 else Collapsed(w, s.store, MoveOf(s, acts[0]).cmd)) + CollapsedSum(w, c, Next(c, s, acts[0]), acts[1..])
  }

  function Missed(w: Job -> int, s: Store, c: Cmd): int {
    if c.RemDelayed? && c.job !in s.delayed then w(c.job) else 0
  }

  function Collapsed(w: Job -> int, s: Store, c: Cmd): int {
    if (c.AddReady? && c.job in s.ready) || (c.AddDelayed? && c.job in s.delayed) then w(c.job) else 0
  }

  lemma PopFindsItsJob(c: Config, s: Sys, a: Action)
    requires Enabled(c, s, a) && !a.Tick? && MoveOf(s, a).cmd.PopReady?
    ensures MoveOf(s, a).cmd.job in s.store.ready
  {
  }

  /** For a gauge that weighs queued jobs alike in both sets. */
  lemma SlipIsMissedLessCollapsed(g: Gauge, w: Job -> int, s: Store, c: Cmd)
    requires g.ready == w && g.delayed == w && (c.PopReady? ==> c.job in s.ready)
    ensures Slip(g, s, c) == Missed(w, s, c) - Collapsed(w, s, c)
  {
  }
}
