/**
 PENDING and RETRYING told apart: a waiting job is RETRYING exactly when it has been put into the
 delayed set before, by a failure or by a delayed enqueue.
 */
module StatusHistory {
  import opened Jobs
  import opened RedisStore
  import opened Protocol
  import opened Conservation
  import opened NoLoss
  import opened Finding
  import opened StatusLaw

  function Delays(m: Move): set<nat> {
    if m.cmd.AddDelayed? then {m.cmd.job.id} else {}
  }

  /** The ids that the run has put into the delayed set. */
  ghost function EverDelayed(c: Config, s: Sys, acts: seq<Action>): set<nat>
    requires Runs(c, s, acts)
    decreases |acts|
  {
    if acts == [] then {}
    else NewlyDelayed(c, s, acts[0]) + EverDelayed(c, Next(c, s, acts[0]), acts[1..])
  }

  ghost function NewlyDelayed(c: Config, s: Sys, a: Action): set<nat>
    requires Enabled(c, s, a)
  {
    if a.Tick? then {} else Delays(MoveOf(s, a))
  }

  /** The status of a waiting job. */
  ghost predicate Told(m: StatusMap, delayed: set<nat>, id: nat) {
    Has(m, id, if id in delayed then Retrying else Pending)
  }

  /** `d` are the ids delayed so far. */
  ghost predicate ToldPc(m: StatusMap, d: set<nat>, pc: Pc) {
    && (pc.DeqStatus? ==> Told(m, d, pc.job.id))
    && (pc.EnqAdd? ==> pc.child.id !in d)
    && (pc.PromRem? || pc.PromAdd? ==> pc.job.id in d)
  }

  ghost predicate History(s: Sys, d: set<nat>) {
    && d <= s.issued
    && (forall j :: j in s.store.ready ==> Told(s.store.status, d, j.id))
    && (forall j :: j in s.store.delayed ==> j.id in d)
    && (forall t :: t in s.threads ==> ToldPc(s.store.status, d, s.threads[t]))
  }

  ghost predicate Ready(c: Config, s: Sys, a: Action, d: set<nat>) {
    Before(c, s, a) && History(s, d)
  }

  /** A delayed id was in this coroutine's hand, and so in nobody else's and in no queue. */
  lemma DelaysAreHeld(c: Config, s: Sys, a: Action, id: nat)
    requires Before(c, s, a) && id in Delays(MoveOf(s, a))
    ensures a.t in s.threads && Held(id, s.threads[a.t]) >= 1 && id in s.issued
    ensures forall j :: j in s.store.ready ==> j.id != id
    ensures forall u :: u in s.threads && u != a.t ==> Held(id, s.threads[u]) == 0
  {
    DelayedAdder(c, s, a);
    HeldAlone(s, a.t, id);
  }

  lemma ReadyTold(c: Config, s: Sys, a: Action, d: set<nat>, j: Job)
    requires Ready(c, s, a, d)
    ensures j in Next(c, s, a).store.ready ==> Told(Next(c, s, a).store.status, d + Delays(MoveOf(s, a)), j.id)
  {
    if j !in Next(c, s, a).store.ready { return; }
    NextState(c, s, a);
    var cmd := MoveOf(s, a).cmd;
    if j in s.store.ready {
      if cmd.SetStatus? { WriterSparesReady(c, s, a, j); }
      OthersKeepStatus(s.store, cmd, j.id);
      if j.id in Delays(MoveOf(s, a)) { DelaysAreHeld(c, s, a, j.id); }
    } else {
      ReadyGrowth(s.store, cmd, j);
      ReadyAdder(c, s, a);
      assert StatusPc(s.store.status, s.threads[a.t]) && ToldPc(s.store.status, d, s.threads[a.t]);
    }
  }

  lemma DelayedGrowth(s: Store, cmd: Cmd, j: Job)
    requires j in Apply(cmd, s).delayed && j !in s.delayed
    ensures cmd.AddDelayed? && cmd.job == j
  {
  }

  lemma DelayedKnown(c: Config, s: Sys, a: Action, d: set<nat>, j: Job)
    requires Ready(c, s, a, d)
    ensures j in Next(c, s, a).store.delayed ==> j.id in d + Delays(MoveOf(s, a))
  {
    NextState(c, s, a);
    if j in Next(c, s, a).store.delayed && j !in s.store.delayed { DelayedGrowth(s.store, MoveOf(s, a).cmd, j); }
  }

  /** A coroutine that does not move stays told. */
  lemma OthersTold(c: Config, s: Sys, a: Action, d: set<nat>, u: nat)
    requires Ready(c, s, a, d)
    ensures u in s.threads && u != a.t ==> ToldPc(Next(c, s, a).store.status, d + Delays(MoveOf(s, a)), s.threads[u])
  {
    if u in s.threads && u != a.t {
      NextState(c, s, a);
      assert ToldPc(s.store.status, d, s.threads[u]);
      if s.threads[u].DeqStatus? { PoppedStaysTold(c, s, a, d, u); }
      if s.threads[u].EnqAdd? { ChildStaysNew(c, s, a, d, u); }
    }
  }

  lemma PoppedStaysTold(c: Config, s: Sys, a: Action, d: set<nat>, u: nat)
    requires Ready(c, s, a, d) && u in s.threads && u != a.t && s.threads[u].DeqStatus?
    ensures Told(Apply(MoveOf(s, a).cmd, s.store).status, d + Delays(MoveOf(s, a)), s.threads[u].job.id)
  {
    var cmd, id := MoveOf(s, a).cmd, s.threads[u].job.id;
    assert ToldPc(s.store.status, d, s.threads[u]);
    HeldAlone(s, u, id);
    if cmd.SetStatus? { StatusWriter(c, s, a); }
    OthersKeepStatus(s.store, cmd, id);
    if id in Delays(MoveOf(s, a)) { DelaysAreHeld(c, s, a, id); }
  }

  lemma ChildStaysNew(c: Config, s: Sys, a: Action, d: set<nat>, u: nat)
    requires Ready(c, s, a, d) && u in s.threads && u != a.t && s.threads[u].EnqAdd?
    ensures s.threads[u].child.id !in d + Delays(MoveOf(s, a))
  {
    var id := s.threads[u].child.id;
    assert ToldPc(s.store.status, d, s.threads[u]);
    assert Held(id, s.threads[u]) >= 1;
    if id in Delays(MoveOf(s, a)) { DelaysAreHeld(c, s, a, id); }
  }

  lemma NewHands(c: Config, s: Sys, a: Action)
    requires Enabled(c, s, a) && !a.Tick? && MoveOf(s, a).next.Some?
    ensures var m := MoveOf(s, a);
            var pc := m.next.value;
            && (pc.DeqStatus? ==> m.cmd == PopReady(pc.job) && pc.job in s.store.ready)
            && (pc.EnqAdd? ==> pc.child.id !in s.issued && !m.cmd.AddDelayed?)
            && (pc.PromRem? ==> pc.job in s.store.delayed)
            && (pc.PromAdd? ==> a.t in s.threads && s.threads[a.t] == PromRem(pc.job))
  {
  }

  lemma OwnTold(c: Config, s: Sys, a: Action, d: set<nat>)
    requires Ready(c, s, a, d) && MoveOf(s, a).next.Some?
    ensures ToldPc(Next(c, s, a).store.status, d + Delays(MoveOf(s, a)), MoveOf(s, a).next.value)
  {
    NextState(c, s, a);
    NewHands(c, s, a);
    var m := MoveOf(s, a);
    if m.next.value.PromAdd? { assert ToldPc(s.store.status, d, s.threads[a.t]); }
  }

  lemma StepKeepsHistory(c: Config, s: Sys, a: Action, d: set<nat>)
    requires Ready(c, s, a, d)
    ensures History(Next(c, s, a), d + Delays(MoveOf(s, a)))
  {
    var s', d' := Next(c, s, a), d + Delays(MoveOf(s, a));
    NextState(c, s, a);
    IssuedGrows(c, s, a);
    forall id | id in d' ensures id in s'.issued {
      if id in Delays(MoveOf(s, a)) { DelaysAreHeld(c, s, a, id); }
    }
    forall j | j in s'.store.ready ensures Told(s'.store.status, d', j.id) { ReadyTold(c, s, a, d, j); }
    forall j | j in s'.store.delayed ensures j.id in d' { DelayedKnown(c, s, a, d, j); }
    forall u | u in s'.threads ensures ToldPc(s'.store.status, d', s'.threads[u]) {
      if u == a.t { OwnTold(c, s, a, d); } else { OthersTold(c, s, a, d, u); }
    }
  }

  lemma TickKeepsHistory(c: Config, s: Sys, a: Action, d: set<nat>)
    requires a.Tick? && Enabled(c, s, a) && History(s, d)
    ensures History(Next(c, s, a), d)
  {
  }

  /** One step of a prompt and finding run. */
  lemma LawfulStep(c: Config, s: Sys, a: Action, d: set<nat>)
    requires Found(s) && Lawful(s) && History(s, d) && Enabled(c, s, a) && Prompt(s, a) && Finds(c, s, a)
    ensures Found(Next(c, s, a)) && Lawful(Next(c, s, a)) && History(Next(c, s, a), d + NewlyDelayed(c, s, a))
  {
    StepKeepsFound(c, s, a);
    StepKeepsStatusLaw(c, s, a);
    if a.Tick? {
      TickKeepsHistory(c, s, a, d);
      assert d + NewlyDelayed(c, s, a) == d;
    } else {
      StepKeepsHistory(c, s, a, d);
    }
  }

  lemma {:induction false} RunKeepsHistory(c: Config, s: Sys, acts: seq<Action>, d: set<nat>)
    requires Found(s) && Lawful(s) && History(s, d)
    requires Runs(c, s, acts) && PromptRun(c, s, acts) && FindsRun(c, s, acts)
    ensures History(End(c, s, acts), d + EverDelayed(c, s, acts))
    decreases |acts|
  {
    if acts == [] {
      assert d + EverDelayed(c, s, acts) == d;
    } else {
      var s', d' := Next(c, s, acts[0]), d + NewlyDelayed(c, s, acts[0]);
      LawfulStep(c, s, acts[0], d);
      RunKeepsHistory(c, s', acts[1..], d');
      assert d + EverDelayed(c, s, acts) == d' + EverDelayed(c, s', acts[1..]);
    }
  }

  /** Queued or in hand, and not being worked on or settled. */
  ghost predicate Waits(s: Sys, id: nat) {
    !InCompleted(s, id) && !Settling(s, id) && !InDead(s, id) && !InWork(s, id)
  }

  lemma WaitingIsTold(s: Sys, id: nat, d: set<nat>)
    requires Lawful(s) && History(s, d) && NoDebt(s, id) && Waits(s, id)
    requires InReady(s, id) || InDelayed(s, id) || InHand(s, id)
    ensures Told(s.store.status, d, id)
  {
    if InReady(s, id) {
      var j :| j in s.store.ready && j.id == id;
      assert Told(s.store.status, d, j.id);
    } else if InDelayed(s, id) {
      var j :| j in s.store.delayed && j.id == id;
      assert forall t :: t in s.threads ==> !OwesRetrying(s.threads[t], j);
    } else {
      var t :| t in s.threads && Held(id, s.threads[t]) >= 1;
      HandIsTold(s, t, id, d);
    }
  }

  lemma HandIsTold(s: Sys, t: nat, id: nat, d: set<nat>)
    requires Lawful(s) && History(s, d) && Waits(s, id) && t in s.threads && Held(id, s.threads[t]) >= 1
    ensures Told(s.store.status, d, id)
  {
    var pc := s.threads[t];
    assert StatusPc(s.store.status, pc) && ToldPc(s.store.status, d, pc);
    assert !WorksOn(pc, id) && !Settling(s, id);
  }

  lemma RunHasHistory(c: Config, s: Sys, acts: seq<Action>)
    requires Init(s) && Runs(c, s, acts) && PromptRun(c, s, acts) && FindsRun(c, s, acts)
    ensures History(End(c, s, acts), EverDelayed(c, s, acts))
  {
    InitHolds(s);
    SoloIsFound(s);
    RunKeepsHistory(c, s, acts, {});
    assert {} + EverDelayed(c, s, acts) == EverDelayed(c, s, acts);
  }

  lemma OnePlaceTellsHistory(s: Sys, id: nat, d: set<nat>)
    requires Lawful(s) && History(s, d) && NoDebt(s, id) && TellsPlace(s, id) && Kinds(s, id) == 1
    ensures Has(s.store.status, id, Retrying) <==> Waits(s, id) && id in d
    ensures Has(s.store.status, id, Pending) <==> Waits(s, id) && id !in d
  {
    if Waits(s, id) { WaitingIsTold(s, id, d); }
  }

  /**
   In every prompt run whose removals find their members, any number of promoters, for every issued id
   with no write owed: RETRYING exactly when the job waits and was delayed before, PENDING exactly when
   it waits and never was.
   */
  lemma StatusTellsHistory(c: Config, s: Sys, acts: seq<Action>, id: nat)
    requires Init(s) && Runs(c, s, acts) && PromptRun(c, s, acts) && FindsRun(c, s, acts)
    requires id in End(c, s, acts).issued && NoDebt(End(c, s, acts), id)
    ensures var e := End(c, s, acts);
            && (Has(e.store.status, id, Retrying) <==> Waits(e, id) && id in EverDelayed(c, s, acts))
            && (Has(e.store.status, id, Pending) <==> Waits(e, id) && id !in EverDelayed(c, s, acts))
  {
    var e := End(c, s, acts);
    assert TellsPlace(e, id) by { StatusTellsPlace(c, s, acts, id); }
    assert Lawful(e) by { RunIsLawful(c, s, acts); }
    assert History(e, EverDelayed(c, s, acts)) by { RunHasHistory(c, s, acts); }
    assert Kinds(e, id) == 1 by { FindingKeepsOnePlace(c, s, acts, id); }
    OnePlaceTellsHistory(e, id, EverDelayed(c, s, acts));
  }
}
