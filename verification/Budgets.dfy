/**
 Budgets that a step can only spend, for any number k of promoters. Several promoters can read the
 same delayed member before one of them removes it, and each then adds a copy: so a delayed job
 counts once for every promoter that may still read it.
 */
module Budgets {
  import opened Wrappers
  import opened Sums
  import opened Jobs
  import opened RedisStore
  import opened Protocol
  import opened Gauges
  import opened Conservation

  /** What a ready job, one reading of a delayed job, and a coroutine can still cost. */
  datatype Weights = Weights(ready: Job -> int, late: Job -> int, hand: Pc -> int)

  ghost predicate NonNegative(w: Weights) {
    (forall j :: w.ready(j) >= 0) && (forall j :: w.late(j) >= 0) && (forall pc :: w.hand(pc) >= 0)
  }

  ghost function Promoters(threads: map<nat, Pc>): set<nat> {
    set t | t in threads && Promoting(threads[t])
  }

  ghost function ReadersOf(threads: map<nat, Pc>, job: Job): set<nat> {
    set t | t in threads && threads[t] == PromRem(job)
  }

  ghost function Readers(threads: map<nat, Pc>, job: Job): nat {
    |ReadersOf(threads, job)|
  }

  ghost function DelayedWeight(w: Weights, k: nat, threads: map<nat, Pc>): Job -> int {
    job => (k - Readers(threads, job)) * w.late(job)
  }

  ghost function Budget(w: Weights, k: nat, s: Sys): int {
    SumSet(s.store.ready.Keys, w.ready)
    + SumSet(s.store.delayed.Keys, DelayedWeight(w, k, s.threads))
    + SumMap(s.threads, w.hand)
  }

  // ----- crews of at most k promoters

  ghost predicate Crewed(k: nat, s: Sys, a: Action) {
    a.Read? ==> |Promoters(s.threads)| < k
  }

  /** A run in which at most k coroutines promote at any time. */
  ghost predicate CrewedRun(c: Config, k: nat, s: Sys, acts: seq<Action>)
    requires Runs(c, s, acts)
    decreases |acts|
  {
    && |Promoters(s.threads)| <= k
    && (acts == [] || (Crewed(k, s, acts[0]) && CrewedRun(c, k, Next(c, s, acts[0]), acts[1..])))
  }

  lemma SubsetSize(a: set<nat>, b: set<nat>)
    requires a <= b
    ensures |a| <= |b|
  {
    assert b == a + (b - a);
  }

  lemma FewReaders(threads: map<nat, Pc>, job: Job)
    ensures Readers(threads, job) <= |Promoters(threads)|
  {
    SubsetSize(ReadersOf(threads, job), Promoters(threads));
  }

  lemma PromoterEnters(c: Config, s: Sys, a: Action)
    requires Enabled(c, s, a)
    ensures Promoters(Next(c, s, a).threads) <= Promoters(s.threads) + (if a.Read? then {a.t} else {})
  {
    if !a.Tick? {
      NextState(c, s, a);
      PromotionMoves(c, s, a);
    }
  }

  lemma StepKeepsCrew(c: Config, k: nat, s: Sys, a: Action)
    requires Enabled(c, s, a) && |Promoters(s.threads)| <= k && Crewed(k, s, a)
    ensures |Promoters(Next(c, s, a).threads)| <= k
  {
    PromoterEnters(c, s, a);
    SubsetSize(Promoters(Next(c, s, a).threads), Promoters(s.threads) + (if a.Read? then {a.t} else {}));
  }

  /** A single promoter is a crew of one. */
  lemma {:induction false} SoloIsACrewOfOne(c: Config, s: Sys, acts: seq<Action>)
    requires c.solo && Runs(c, s, acts) && |Promoters(s.threads)| <= 1
    ensures CrewedRun(c, 1, s, acts)
    decreases |acts|
  {
    if acts != [] {
      var a := acts[0];
      if a.Read? { assert Promoters(s.threads) == {}; }
      StepKeepsCrew(c, 1, s, a);
      SoloIsACrewOfOne(c, Next(c, s, a), acts[1..]);
    }
  }

  // ----- what a step costs

  function Cost(w: Weights, k: nat, c: Cmd): int {
    match c
    case AddReady(job, _) => w.ready(job)
    case AddDelayed(job, _) => k * w.late(job)
    case PopReady(job) => -w.ready(job)
    case _ => 0
  }

  function Hand(w: Weights, pc: Option<Pc>): int {
    if pc.None? then 0 else w.hand(pc.value)
  }

  lemma ReadyCost(w: Weights, k: nat, s: Store, c: Cmd)
    requires NonNegative(w)
    requires c.PopReady? ==> c.job in s.ready
    ensures SumSet(Apply(c, s).ready.Keys, w.ready)
            <= SumSet(s.ready.Keys, w.ready) + (if c.AddReady? || c.PopReady? then Cost(w, k, c) else 0)
  {
    match c
    case AddReady(job, score) =>
      AddedOnce(s.ready, job, score, w.ready);
    case PopReady(job) =>
      SumSetRemove(s.ready.Keys, job, w.ready);
      assert (s.ready - {job}).Keys == s.ready.Keys - {job};
    case _ =>
  }

  lemma HandCost(w: Weights, threads: map<nat, Pc>, t: nat, next: Option<Pc>)
    ensures SumMap(Put(threads, t, next), w.hand)
            == SumMap(threads, w.hand) + Hand(w, next) - (if t in threads then w.hand(threads[t]) else 0)
  {
    match next
    case Some(pc) => SumMapPut(threads, t, pc, w.hand);
    case None =>
      if t in threads { SumMapRemove(threads, t, w.hand); } else { assert threads - {t} == threads; }
  }

  /** A command other than a removal, with the weights unchanged. */
  lemma DelayedCost(v: Job -> int, s: Store, c: Cmd, most: int)
    requires !c.RemDelayed? && (c.AddDelayed? ==> v(c.job) <= most && most >= 0)
    ensures SumSet(Apply(c, s).delayed.Keys, v) <= SumSet(s.delayed.Keys, v) + (if c.AddDelayed? then most else 0)
  {
    if c.AddDelayed? { AddedOnce(s.delayed, c.job, c.score, v); }
  }

  lemma AddedOnce(m: map<Job, real>, job: Job, score: real, v: Job -> int)
    ensures SumSet(m[job := score].Keys, v) == SumSet(m.Keys, v) + (if job in m then 0 else v(job))
  {
    if job in m {
      assert m[job := score].Keys == m.Keys;
    } else {
      SumSetAdd(m.Keys, job, v);
      assert m[job := score].Keys == m.Keys + {job};
    }
  }

  lemma ProductShrinks(k: nat, r: nat, l: int)
    requires l >= 0
    ensures (k - r) * l <= k * l && k * l >= 0
  {
  }

  lemma OneLess(d: int, l: int)
    ensures (d - 1) * l == d * l - l
  {
  }

  lemma NonNegativeProduct(d: int, l: int)
    requires d >= 0 && l >= 0
    ensures d * l >= 0
  {
  }

  lemma LoweredAt(keys: set<Job>, job: Job, v: Job -> int, v': Job -> int, l: int)
    requires job in keys && v'(job) == v(job) - l && forall j :: j != job ==> v'(j) == v(j)
    ensures SumSet(keys, v') == SumSet(keys, v) - l
  {
    SumSetRemove(keys, job, v);
    SumSetRemove(keys, job, v');
    SumSetSame(keys - {job}, v, v');
  }

  lemma ReadersStay(threads: map<nat, Pc>, t: nat, pc: Pc, job: Job)
    requires pc != PromRem(job) && (t in threads ==> threads[t] != PromRem(job))
    ensures Readers(threads[t := pc], job) == Readers(threads, job)
  {
    assert ReadersOf(threads[t := pc], job) == ReadersOf(threads, job);
  }

  lemma ReaderJoins(threads: map<nat, Pc>, t: nat, job: Job)
    requires t !in threads
    ensures Readers(threads[t := PromRem(job)], job) == Readers(threads, job) + 1
    ensures forall j :: j != job ==> Readers(threads[t := PromRem(job)], j) == Readers(threads, j)
  {
    forall j | j != job ensures Readers(threads[t := PromRem(job)], j) == Readers(threads, j) {
      ReadersStay(threads, t, PromRem(job), j);
    }
    assert ReadersOf(threads[t := PromRem(job)], job) == ReadersOf(threads, job) + {t};
  }

  lemma ReadCost(w: Weights, k: nat, keys: set<Job>, threads: map<nat, Pc>, t: nat, job: Job)
    requires t !in threads && job in keys
    ensures SumSet(keys, DelayedWeight(w, k, threads[t := PromRem(job)]))
            == SumSet(keys, DelayedWeight(w, k, threads)) - w.late(job)
  {
    ReaderJoins(threads, t, job);
    OneLess(k - Readers(threads, job), w.late(job));
    LoweredAt(keys, job, DelayedWeight(w, k, threads), DelayedWeight(w, k, threads[t := PromRem(job)]), w.late(job));
  }

  lemma ReaderLeaves(threads: map<nat, Pc>, t: nat, job: Job)
    requires t in threads && threads[t] == PromRem(job)
    ensures forall j :: j != job ==> Readers(threads[t := PromAdd(job)], j) == Readers(threads, j)
  {
    forall j | j != job ensures Readers(threads[t := PromAdd(job)], j) == Readers(threads, j) {
      ReadersStay(threads, t, PromAdd(job), j);
    }
  }

  lemma DelayedNonNegative(w: Weights, k: nat, threads: map<nat, Pc>, job: Job)
    requires NonNegative(w) && |Promoters(threads)| <= k
    ensures DelayedWeight(w, k, threads)(job) >= 0
  {
    FewReaders(threads, job);
    NonNegativeProduct(k - Readers(threads, job), w.late(job));
  }

  lemma RemovalCost(w: Weights, k: nat, keys: set<Job>, threads: map<nat, Pc>, t: nat, job: Job)
    requires NonNegative(w) && t in threads && threads[t] == PromRem(job) && |Promoters(threads)| <= k
    ensures SumSet(keys - {job}, DelayedWeight(w, k, threads[t := PromAdd(job)])) <= SumSet(keys, DelayedWeight(w, k, threads))
  {
    var v, v' := DelayedWeight(w, k, threads), DelayedWeight(w, k, threads[t := PromAdd(job)]);
    ReaderLeaves(threads, t, job);
    SumSetSame(keys - {job}, v, v');
    if job in keys {
      SumSetRemove(keys, job, v);
      DelayedNonNegative(w, k, threads, job);
    } else {
      assert keys - {job} == keys;
    }
  }

  /** Only a promoter between its read and its removal counts as a reader, and it goes on to remove. */
  lemma ReaderMoves(c: Config, s: Sys, a: Action)
    requires Enabled(c, s, a) && !a.Tick?
    ensures a.t in s.threads && s.threads[a.t].PromRem? ==>
              MoveOf(s, a) == Move(RemDelayed(s.threads[a.t].job), Some(PromAdd(s.threads[a.t].job)), [])
    ensures MoveOf(s, a).cmd.PopReady? ==> MoveOf(s, a).cmd.job in s.store.ready
    ensures a.Read? ==> a.t !in s.threads && a.job in s.store.delayed && MoveOf(s, a) == Move(Nop, Some(PromRem(a.job)), [])
  {
  }

  lemma OthersKeepReaders(w: Weights, k: nat, keys: set<Job>, threads: map<nat, Pc>, t: nat, next: Option<Pc>)
    requires next.Some? ==> !next.value.PromRem?
    requires t in threads ==> !threads[t].PromRem?
    ensures SumSet(keys, DelayedWeight(w, k, Put(threads, t, next))) == SumSet(keys, DelayedWeight(w, k, threads))
  {
    var after := Put(threads, t, next);
    forall j ensures Readers(after, j) == Readers(threads, j) {
      assert ReadersOf(after, j) == ReadersOf(threads, j);
    }
    SumSetSame(keys, DelayedWeight(w, k, after), DelayedWeight(w, k, threads));
  }

  lemma AtMostAllCopies(w: Weights, k: nat, threads: map<nat, Pc>, job: Job)
    requires NonNegative(w)
    ensures DelayedWeight(w, k, threads)(job) <= k * w.late(job) && k * w.late(job) >= 0
  {
    ProductShrinks(k, Readers(threads, job), w.late(job));
  }

  lemma OtherStep(w: Weights, k: nat, s: Store, threads: map<nat, Pc>, t: nat, cmd: Cmd, next: Option<Pc>)
    requires NonNegative(w) && !cmd.RemDelayed?
    requires next.Some? ==> !next.value.PromRem?
    requires t in threads ==> !threads[t].PromRem?
    ensures SumSet(Apply(cmd, s).delayed.Keys, DelayedWeight(w, k, Put(threads, t, next)))
            <= SumSet(s.delayed.Keys, DelayedWeight(w, k, threads)) + (if cmd.AddDelayed? then Cost(w, k, cmd) else 0)
  {
    OthersKeepReaders(w, k, Apply(cmd, s).delayed.Keys, threads, t, next);
    if cmd.AddDelayed? { AtMostAllCopies(w, k, threads, cmd.job); }
    DelayedCost(DelayedWeight(w, k, threads), s, cmd, Cost(w, k, cmd));
  }

  lemma ReaderStep(w: Weights, k: nat, s: Store, threads: map<nat, Pc>, t: nat, job: Job)
    requires NonNegative(w) && |Promoters(threads)| <= k && t in threads && threads[t] == PromRem(job)
    ensures SumSet(Apply(RemDelayed(job), s).delayed.Keys, DelayedWeight(w, k, threads[t := PromAdd(job)]))
            <= SumSet(s.delayed.Keys, DelayedWeight(w, k, threads))
  {
    RemovalCost(w, k, s.delayed.Keys, threads, t, job);
    assert (s.delayed - {job}).Keys == s.delayed.Keys - {job};
  }

  lemma DelayedStep(w: Weights, k: nat, c: Config, s: Sys, a: Action)
    requires NonNegative(w) && Enabled(c, s, a) && !a.Tick? && |Promoters(s.threads)| <= k
    ensures SumSet(Next(c, s, a).store.delayed.Keys, DelayedWeight(w, k, Next(c, s, a).threads))
            <= SumSet(s.store.delayed.Keys, DelayedWeight(w, k, s.threads))
               + (if MoveOf(s, a).cmd.AddDelayed? then Cost(w, k, MoveOf(s, a).cmd) else 0)
               - (if a.Read? then w.late(a.job) else 0)
  {
    var m, s' := MoveOf(s, a), Next(c, s, a);
    NextState(c, s, a);
    PromotionMoves(c, s, a);
    ReaderMoves(c, s, a);
    if a.Read? {
      ReadCost(w, k, s.store.delayed.Keys, s.threads, a.t, a.job);
    } else if a.t in s.threads && s.threads[a.t].PromRem? {
      ReaderStep(w, k, s.store, s.threads, a.t, s.threads[a.t].job);
    } else {
      OtherStep(w, k, s.store, s.threads, a.t, m.cmd, m.next);
    }
  }

  /** The most a step can add to a budget depends on its move alone. */
  lemma StepCost(w: Weights, k: nat, c: Config, s: Sys, a: Action)
    requires NonNegative(w) && Enabled(c, s, a) && !a.Tick? && |Promoters(s.threads)| <= k
    ensures Budget(w, k, Next(c, s, a))
            <= Budget(w, k, s) + Cost(w, k, MoveOf(s, a).cmd) + Hand(w, MoveOf(s, a).next) - Hand(w, Standing(s, a.t))
               - (if a.Read? then w.late(a.job) else 0)
  {
    NextState(c, s, a);
    ReaderMoves(c, s, a);
    ReadyCost(w, k, s.store, MoveOf(s, a).cmd);
    HandCost(w, s.threads, a.t, MoveOf(s, a).next);
    DelayedStep(w, k, c, s, a);
  }

  lemma BudgetNonNegative(w: Weights, k: nat, s: Sys)
    requires NonNegative(w) && |Promoters(s.threads)| <= k
    ensures Budget(w, k, s) >= 0
  {
    SumSetNonNegative(s.store.ready.Keys, w.ready);
    SumMapNonNegative(s.threads, w.hand);
    var v := DelayedWeight(w, k, s.threads);
    forall j | j in s.store.delayed.Keys ensures v(j) >= 0 { DelayedNonNegative(w, k, s.threads, j); }
    SumSetNonNegative(s.store.delayed.Keys, v);
  }

  lemma TickKeepsBudget(w: Weights, k: nat, c: Config, s: Sys, a: Action)
    requires a.Tick? && Enabled(c, s, a)
    ensures Budget(w, k, Next(c, s, a)) == Budget(w, k, s)
    ensures Next(c, s, a).runs == s.runs && Next(c, s, a).threads == s.threads
  {
  }
}
