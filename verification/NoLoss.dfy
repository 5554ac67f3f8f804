/**
 The two conservation theorems: exactly one place per job with one promoter, at least one place
 with any number of promoters, and a run of two promoters that duplicates a job.
 */
module NoLoss {
  import opened Wrappers
  import opened Sums
  import opened Jobs
  import opened RedisStore
  import opened Protocol
  import opened Gauges
  import opened Conservation

  ghost predicate InReady(s: Sys, id: nat) { exists j :: j in s.store.ready && j.id == id }
  ghost predicate InDelayed(s: Sys, id: nat) { exists j :: j in s.store.delayed && j.id == id }
  ghost predicate InHand(s: Sys, id: nat) { exists t :: t in s.threads && Held(id, s.threads[t]) >= 1 }
  ghost predicate InCompleted(s: Sys, id: nat) { exists j :: j in s.completed && j.id == id }
  ghost predicate InDead(s: Sys, id: nat) { exists j :: j in s.store.dead && j.id == id }

  ghost function One(b: bool): nat { if b then 1 else 0 }

  /** How many of the five kinds of place hold the id. */
  ghost function Kinds(s: Sys, id: nat): nat {
    One(InReady(s, id)) + One(InDelayed(s, id)) + One(InHand(s, id)) + One(InCompleted(s, id)) + One(InDead(s, id))
  }

  lemma NowhereIsZero(s: Sys, id: nat)
    ensures !InReady(s, id) ==> SumSet(s.store.ready.Keys, Places(id).ready) == 0
    ensures !InDelayed(s, id) ==> SumSet(s.store.delayed.Keys, Places(id).delayed) == 0
    ensures !InHand(s, id) ==> SumMap(s.threads, Places(id).pc) == 0
    ensures !InCompleted(s, id) ==> SumSeq(s.completed, Places(id).completed) == 0
    ensures !InDead(s, id) ==> SumSeq(s.store.dead, Places(id).dead) == 0
  {
    var g := Places(id);
    if !InReady(s, id) { SumSetZero(s.store.ready.Keys, g.ready); }
    if !InDelayed(s, id) { SumSetZero(s.store.delayed.Keys, g.delayed); }
    if !InHand(s, id) { SumMapZero(s.threads, g.pc); }
    if !InCompleted(s, id) { SumSeqZero(s.completed, g.completed); }
    if !InDead(s, id) { SumSeqZero(s.store.dead, g.dead); }
  }

  lemma KindsFromTotal(s: Sys, id: nat)
    requires Total(Places(id), s) <= 1
    ensures Kinds(s, id) == Total(Places(id), s)
  {
    PartsNonNegative(s, id);
    NowhereIsZero(s, id);
  }

  /**
   One promoter: in every reachable state each issued id is in exactly one place (counted with
   multiplicity), and no other id is anywhere.
   */
  lemma ExactlyOnePlace(c: Config, s: Sys, acts: seq<Action>, id: nat)
    requires c.solo && Init(s) && Runs(c, s, acts)
    ensures var e := End(c, s, acts);
            && Kinds(e, id) == One(id in e.issued)
            && Total(Places(id), e) == One(id in e.issued)
  {
    InitHolds(s);
    RunKeepsInv(c, s, acts);
    KindsFromTotal(End(c, s, acts), id);
  }

  lemma QueuedStaysSomewhere(s: Sys, s': Sys, t: nat, m: Move, id: nat)
    requires s'.store == Apply(m.cmd, s.store) && s'.threads == Put(s.threads, t, m.next)
    requires HandsOn(m)
    ensures InReady(s, id) ==> InReady(s', id) || InHand(s', id)
    ensures InDelayed(s, id) ==> InDelayed(s', id) || InHand(s', id)
  {
    if InReady(s, id) {
      var j :| j in s.store.ready && j.id == id;
      if m.cmd == PopReady(j) {
        assert t in s'.threads && s'.threads[t] == DeqStatus(j) && Held(id, s'.threads[t]) == 1;
      } else {
        assert j in s'.store.ready;
      }
    }
    if InDelayed(s, id) {
      var j :| j in s.store.delayed && j.id == id;
      if m.cmd == RemDelayed(j) {
        assert t in s'.threads && s'.threads[t] == PromAdd(j) && Held(id, s'.threads[t]) == 1;
      } else {
        assert j in s'.store.delayed;
      }
    }
  }

  lemma SettledStays(s: Sys, s': Sys, m: Move, id: nat)
    requires s'.store == Apply(m.cmd, s.store) && s'.completed == s.completed + m.finished
    ensures InCompleted(s, id) ==> InCompleted(s', id)
    ensures InDead(s, id) ==> InDead(s', id)
  {
    if InCompleted(s, id) {
      var j :| j in s.completed && j.id == id;
      assert j in s'.completed;
    }
    if InDead(s, id) {
      var j :| j in s.store.dead && j.id == id;
      assert j in s'.store.dead;
    }
  }

  lemma HeldMovesOn(s: Sys, s': Sys, t: nat, m: Move, id: nat)
    requires s'.store == Apply(m.cmd, s.store) && s'.threads == Put(s.threads, t, m.next)
    requires s'.completed == s.completed + m.finished
    requires t in s.threads && |m.finished| <= 1
    requires MoveDelta(Places(id), Some(s.threads[t]), m) + Held(id, s.threads[t]) >= 1
    ensures Kinds(s', id) >= 1
  {
    MoveLeavesAPlace(s.threads[t], m, id);
    if m.next.Some? && Held(id, m.next.value) >= 1 {
      assert t in s'.threads && s'.threads[t] == m.next.value;
      assert InHand(s', id);
    } else if m.finished != [] && m.finished[0].id == id {
      assert m.finished[0] in s'.completed;
      assert InCompleted(s', id);
    } else if m.cmd.AddReady? {
      assert m.cmd.job in s'.store.ready;
    } else if m.cmd.AddDelayed? {
      assert m.cmd.job in s'.store.delayed;
    } else {
      assert m.cmd.job in s'.store.dead;
    }
  }

  /** A step never takes an id out of its last place, however many promoters there are. */
  lemma StepKeepsAPlace(c: Config, s: Sys, a: Action, id: nat)
    requires Enabled(c, s, a) && !a.Tick?
    requires Kinds(s, id) >= 1 || Issues(s, a, id) == 1
    ensures Kinds(Next(c, s, a), id) >= 1
  {
    var m, s' := MoveOf(s, a), Next(c, s, a);
    NextState(c, s, a);
    MoveShape(c, s, a);
    if InReady(s, id) || InDelayed(s, id) || InCompleted(s, id) || InDead(s, id) {
      QueuedStaysSomewhere(s, s', a.t, m, id);
      SettledStays(s, s', m, id);
    } else if t :| t in s.threads && Held(id, s.threads[t]) >= 1 && t != a.t {
      assert t in s'.threads && s'.threads[t] == s.threads[t];
    } else {
      MoveConserves(c, s, a, id);
      MoveShape(c, s, a);
      HeldMovesOn(s, s', a.t, m, id);
    }
  }

  lemma MoveLeavesAPlace(pc: Pc, m: Move, id: nat)
    requires |m.finished| <= 1
    requires MoveDelta(Places(id), Some(pc), m) + Held(id, pc) >= 1
    ensures
      || (m.next.Some? && Held(id, m.next.value) >= 1)
      || (m.finished != [] && m.finished[0].id == id)
      || ((m.cmd.AddReady? || m.cmd.AddDelayed? || m.cmd.PushDead?) && m.cmd.job.id == id)
  {
    PlacesDelta(id, Some(pc), m);
  }

  /** Any number of promoters: no issued id is ever lost. */
  lemma {:induction false} NeverLost(c: Config, s: Sys, acts: seq<Action>, id: nat)
    requires Runs(c, s, acts)
    requires id in s.issued ==> Kinds(s, id) >= 1
    ensures id in End(c, s, acts).issued ==> Kinds(End(c, s, acts), id) >= 1
    decreases |acts|
  {
    if acts != [] {
      var a, s' := acts[0], Next(c, s, acts[0]);
      if a.Tick? {
        TickMovesNothing(c, s, a, id);
      } else {
        StepIssues(c, s, a, id);
        if id in s'.issued { StepKeepsAPlace(c, s, a, id); }
      }
      NeverLost(c, s', acts[1..], id);
    }
  }

  lemma TickMovesNothing(c: Config, s: Sys, a: Action, id: nat)
    requires a.Tick? && Enabled(c, s, a)
    ensures Kinds(Next(c, s, a), id) == Kinds(s, id) && Next(c, s, a).issued == s.issued
  {
  }

  lemma NoLossFromStart(c: Config, s: Sys, acts: seq<Action>, id: nat)
    requires Init(s) && Runs(c, s, acts)
    ensures id in End(c, s, acts).issued ==> Kinds(End(c, s, acts), id) >= 1
  {
    NeverLost(c, s, acts, id);
  }

  lemma RunCons(c: Config, s: Sys, a: Action, rest: seq<Action>)
    requires Enabled(c, s, a) && Runs(c, Next(c, s, a), rest)
    ensures Runs(c, s, [a] + rest) && End(c, s, [a] + rest) == End(c, Next(c, s, a), rest)
  {
    assert ([a] + rest)[1..] == rest;
  }

  /** The situation before the race: one due job in the delayed set, nothing else going on. */
  ghost predicate OneDueJob(s: Sys, job: Job) {
    && s.threads == map[] && s.store.ready == map[] && job in s.store.delayed
    && FirstDue(s.store, job, s.clock) && HasWorker(job.typ)
  }

  /** Both promoters read the member before either removes it. */
  lemma BothRead(c: Config, s: Sys, job: Job) returns (s': Sys, acts: seq<Action>)
    requires !c.solo && OneDueJob(s, job)
    ensures Runs(c, s, acts) && s' == End(c, s, acts) && Closed(acts)
    ensures s'.threads == map[1 := PromRem(job), 2 := PromRem(job)] && s'.store == s.store
  {
    var s1 := Next(c, s, Read(1, job));
    NextState(c, s, Read(1, job));
    assert s1.threads == map[1 := PromRem(job)];
    s' := Next(c, s1, Read(2, job));
    NextState(c, s1, Read(2, job));
    assert s'.threads == map[1 := PromRem(job), 2 := PromRem(job)];
    assert Runs(c, s', []);
    RunCons(c, s1, Read(2, job), []);
    RunCons(c, s, Read(1, job), [Read(2, job)] + []);
    acts := [Read(1, job)] + ([Read(2, job)] + []);
  }

  /** One promoter's two writes after its read. */
  lemma PromotionWrites(c: Config, s: Sys, t: nat, job: Job) returns (s': Sys, acts: seq<Action>)
    requires t in s.threads && s.threads[t] == PromRem(job)
    ensures Runs(c, s, acts) && s' == End(c, s, acts) && Closed(acts)
    ensures s'.threads == s.threads - {t}
    ensures s'.store.ready.Keys == s.store.ready.Keys + {job}
  {
    var a := Go(t, 0);
    var s1 := Next(c, s, a);
    NextState(c, s, a);
    assert s1.threads == s.threads[t := PromAdd(job)] && s1.store.ready == s.store.ready;
    var rest;
    s', rest := PromotionAdds(c, s1, t, job);
    RunCons(c, s, a, rest);
    acts := [a] + rest;
  }

  lemma PromotionAdds(c: Config, s: Sys, t: nat, job: Job) returns (s': Sys, acts: seq<Action>)
    requires t in s.threads && s.threads[t] == PromAdd(job)
    ensures Runs(c, s, acts) && s' == End(c, s, acts) && Closed(acts)
    ensures s'.threads == s.threads - {t}
    ensures s'.store.ready.Keys == s.store.ready.Keys + {job}
  {
    s' := Next(c, s, Go(t, 0));
    NextState(c, s, Go(t, 0));
    assert Runs(c, s', []);
    RunCons(c, s, Go(t, 0), []);
    acts := [Go(t, 0)] + [];
  }

  lemma WorkerPops(c: Config, s: Sys, job: Job) returns (s': Sys, acts: seq<Action>)
    requires 3 !in s.threads && s.store.ready.Keys == {job} && HasWorker(job.typ)
    ensures Runs(c, s, acts) && s' == End(c, s, acts) && Closed(acts)
    ensures s'.threads == s.threads[3 := DeqStatus(job)]
  {
    s' := Next(c, s, Pop(3, job));
    NextState(c, s, Pop(3, job));
    assert Runs(c, s', []);
    RunCons(c, s, Pop(3, job), []);
    acts := [Pop(3, job)] + [];
  }

  lemma Chain(c: Config, s: Sys, front: seq<Action>, mid: Sys, back: seq<Action>, last: Sys) returns (acts: seq<Action>)
    requires Runs(c, s, front) && End(c, s, front) == mid && Closed(front)
    requires Runs(c, mid, back) && End(c, mid, back) == last && Closed(back)
    ensures Runs(c, s, acts) && End(c, s, acts) == last && Closed(acts)
  {
    RunsConcat(c, s, front, back);
    acts := front + back;
  }

  /**
   Two promoters can duplicate a job: the second one ignores that its ZREM removed nothing and adds
   the member back while a worker already holds it.
   */
  lemma TwoPromotersDuplicate(c: Config, s: Sys, job: Job) returns (acts: seq<Action>)
    requires !c.solo && OneDueJob(s, job)
    ensures Runs(c, s, acts) && Closed(acts)
    ensures InReady(End(c, s, acts), job.id) && InHand(End(c, s, acts), job.id)
  {
    var s2, read := BothRead(c, s, job);
    var s7, rest := SecondPromotes(c, s2, job);
    acts := Chain(c, s, read, s2, rest, s7);
    assert job in s7.store.ready && 3 in s7.threads && s7.threads[3] == DeqStatus(job);
  }

  lemma SecondPromotes(c: Config, s: Sys, job: Job) returns (s': Sys, acts: seq<Action>)
    requires s.threads == map[1 := PromRem(job), 2 := PromRem(job)] && s.store.ready == map[] && HasWorker(job.typ)
    ensures Runs(c, s, acts) && s' == End(c, s, acts) && Closed(acts)
    ensures job in s'.store.ready && 3 in s'.threads && s'.threads[3] == DeqStatus(job)
  {
    var s2, first := PromotionWrites(c, s, 1, job);
    var s3, pop := WorkerPops(c, s2, job);
    var last, second := PromotionWrites(c, s3, 2, job);
    acts := Chain(c, s, first, s2, pop, s3);
    acts := Chain(c, s, acts, s3, second, last);
    s' := last;
  }

  lemma {:induction false} RunsConcat(c: Config, s: Sys, front: seq<Action>, back: seq<Action>)
    requires Runs(c, s, front) && Runs(c, End(c, s, front), back)
    ensures Runs(c, s, front + back) && End(c, s, front + back) == End(c, End(c, s, front), back)
    decreases |front|
  {
    if front == [] {
      assert front + back == back;
    } else {
      RunsConcat(c, Next(c, s, front[0]), front[1..], back);
      assert (front + back)[1..] == front[1..] + back;
    }
  }
}
