/**
 The queue, the event bus and the consumer poll as objects over a shared Redis store, method by
 method, and the tie to the protocol: a method is its coroutine run without interruption.
 */
module JobQueues {
  import opened Wrappers
  import opened Jobs
  import opened RedisStore
  import opened Protocol
  import opened NoLoss

  function ApplyAll(cmds: seq<Cmd>, s: Store): Store {
    if cmds == [] then s else ApplyAll(cmds[1..], Apply(cmds[0], s))
  }

  // ----- the commands of each operation, in order

  function EnqueueCmds(id: nat, spec: Spec, now: real): seq<Cmd> {
    var job := NewJob(id, spec);
    if spec.delay > 0 then
      [SetStatus(job, Pending, None), AddDelayed(job, now + spec.delay as real), SetStatus(job, Retrying, None), Incr(Enqueued)]
    else
      [SetStatus(job, Pending, None), AddReady(job, ReadyScore(job.priority, now)), Incr(Enqueued)]
  }

  function DequeueCmds(job: Job): seq<Cmd> {
    [PopReady(job), SetStatus(job, Running, None), Incr(Dequeued)]
  }

  function PromoteCmds(job: Job, now: real): seq<Cmd> {
    [RemDelayed(job), AddReady(job, ReadyScore(job.priority, now))]
  }

  function CompleteCmds(job: Job): seq<Cmd> {
    [SetStatus(job, Completed, None), Incr(CompletedCount)]
  }

  function FailCmds(job: Job, error: string, now: real): seq<Cmd> {
    var failed := AfterFailure(job, error);
    if failed.attempts >= MAX_ATTEMPTS then
      [PushDead(failed), SetStatus(failed, Failed, ErrorField(failed.lastError)), Incr(DeadLettered)]
    else
      [AddDelayed(failed, now + Backoff(failed.attempts) as real),
       SetStatus(failed, Retrying, ErrorField(failed.lastError)), Incr(Retried)]
  }

  // ----- what the commands amount to

  /** The status record of the job's id, and no other, has been written; the error, if any, is the last one given. */
  predicate Announced(before: map<nat, StatusRecord>, after: map<nat, StatusRecord>, job: Job, status: JobStatus, error: Option<string>) {
    && after.Keys == before.Keys + {job.id}
    && (forall id :: id in before && id != job.id ==> after[id] == before[id])
    && after[job.id] == StatusRecord(status, job.typ, job.payload.shortCode, job.payload.urlId, after[job.id].error)
    && after[job.id].error == (if error.Some? || job.id !in before then error else before[job.id].error)
  }

  /** Where a job of this priority goes in the ready set. */
  function QueueScore(p: JobPriority, now: real): real {
    (if p.High? then 1.0 else if p.Normal? then 5.0 else 10.0) + now / 1000000000000.0
  }

  /** A new job: PENDING in the ready set, or RETRYING in the delayed set; counted once. */
  predicate EnqueuedAs(before: Store, after: Store, job: Job, delay: nat, now: real) {
    && after.ready == (if delay == 0 then before.ready[job := QueueScore(job.priority, now)] else before.ready)
    && after.delayed == (if delay > 0 then before.delayed[job := now + delay as real] else before.delayed)
    && after.dead == before.dead
    && Announced(before.status, after.status, job, if delay > 0 then Retrying else Pending, None)
    && after.metrics == before.metrics.(enqueued := before.metrics.enqueued + 1)
  }

  predicate DequeuedAs(before: Store, after: Store, job: Job) {
    && after.ready == before.ready - {job} && after.delayed == before.delayed && after.dead == before.dead
    && Announced(before.status, after.status, job, Running, None)
    && after.metrics == before.metrics.(dequeued := before.metrics.dequeued + 1)
  }

  predicate PromotedAs(before: Store, after: Store, job: Job, now: real) {
    && after.ready == before.ready[job := QueueScore(job.priority, now)] && after.delayed == before.delayed - {job}
    && after.dead == before.dead && after.status == before.status && after.metrics == before.metrics
  }

  predicate CompletedAs(before: Store, after: Store, job: Job) {
    && after.ready == before.ready && after.delayed == before.delayed && after.dead == before.dead
    && Announced(before.status, after.status, job, Completed, None)
    && after.metrics == before.metrics.(completed := before.metrics.completed + 1)
  }

  /**
   One more attempt, and the error cut to 500 characters. The fifth failure ends on top of the dead list;
   an earlier one waits 10, 20, 40 or 80 seconds. An empty error leaves the status record's error alone.
   */
  predicate FailedAs(before: Store, after: Store, job: Job, error: string, failed: Job, now: real) {
    && failed == Job(job.id, job.typ, job.payload, job.attempts + 1, job.priority, failed.lastError)
    && failed.lastError <= error && |failed.lastError| == (if |error| < 500 then |error| else 500)
    && after.ready == before.ready
    && (if failed.attempts >= 5 then
          && after.delayed == before.delayed && after.dead == [failed] + before.dead
          && Announced(before.status, after.status, failed, Failed, if error == "" then None else Some(failed.lastError))
          && after.metrics == before.metrics.(deadLettered := before.metrics.deadLettered + 1)
        else
          && after.delayed == before.delayed[failed := now + RetryDelay(failed.attempts)] && after.dead == before.dead
          && Announced(before.status, after.status, failed, Retrying, if error == "" then None else Some(failed.lastError))
          && after.metrics == before.metrics.(retried := before.metrics.retried + 1))
  }

  function RetryDelay(attempts: nat): real {
    match attempts
    case 0 => 5.0
    case 1 => 10.0
    case 2 => 20.0
    case 3 => 40.0
    case 4 => 80.0
    case 5 => 160.0
    case _ => 300.0
  }

  lemma BackoffTable(attempts: nat)
    ensures Backoff(attempts) as real == RetryDelay(attempts)
  {
    assert Pow2(0) == 1 && Pow2(1) == 2 && Pow2(2) == 4;
    assert Pow2(3) == 8 && Pow2(4) == 16;
    assert Pow2(5) == 32;
    if attempts > 5 { PowersGrow(attempts); }
  }

  lemma {:induction false} PowersGrow(n: nat)
    requires n >= 6
    ensures Pow2(n) >= 64
  {
    if n > 6 { PowersGrow(n - 1); } else { assert Pow2(5) == 32; }
  }

  lemma EnqueueMeans(id: nat, spec: Spec, now: real, s: Store)
    ensures EnqueuedAs(s, ApplyAll(EnqueueCmds(id, spec, now), s),
                       Job(id, spec.typ, spec.payload, 0, spec.priority, ""), spec.delay, now)
  {
    Unfold4(EnqueueCmds(id, spec, now), s);
  }

  lemma DequeueMeans(job: Job, s: Store)
    ensures DequeuedAs(s, ApplyAll(DequeueCmds(job), s), job)
  {
    Unfold4(DequeueCmds(job), s);
  }

  lemma PromoteMeans(job: Job, now: real, s: Store)
    ensures PromotedAs(s, ApplyAll(PromoteCmds(job, now), s), job, now)
  {
    Unfold4(PromoteCmds(job, now), s);
  }

  lemma CompleteMeans(job: Job, s: Store)
    ensures CompletedAs(s, ApplyAll(CompleteCmds(job), s), job)
  {
    Unfold4(CompleteCmds(job), s);
  }

  lemma FailMeans(job: Job, error: string, now: real, s: Store)
    ensures FailedAs(s, ApplyAll(FailCmds(job, error, now), s), job, error, AfterFailure(job, error), now)
  {
    BackoffTable(job.attempts + 1);
    Unfold4(FailCmds(job, error, now), s);
  }

  // ----- the store

  /** The Redis keys of the queue, changed in place by one command at a time. */
  class Redis {
    var ready: map<Job, real>
    var delayed: map<Job, real>
    var dead: seq<Job>
    var status: map<nat, StatusRecord>
    var metrics: Metrics

    ghost function View(): Store
      reads this
    {
      Store(ready, delayed, dead, status, metrics)
    }

    constructor ()
      ensures View() == EMPTY
    {
      ready, delayed, dead, status, metrics := map[], map[], [], map[], Metrics(0, 0, 0, 0, 0);
    }

    method HSet(job: Job, st: JobStatus, error: Option<string>)
      modifies this
      ensures View() == Apply(SetStatus(job, st, error), old(View()))
    {
      status := WriteStatus(status, job, st, error);
    }

    method HIncr(field: Metric)
      modifies this
      ensures View() == Apply(Incr(field), old(View()))
    {
      metrics := Bump(metrics, field);
    }

    method ZAddReady(job: Job, score: real)
      modifies this
      ensures View() == Apply(AddReady(job, score), old(View()))
    {
      ready := ready[job := score];
    }

    method ZAddDelayed(job: Job, score: real)
      modifies this
      ensures View() == Apply(AddDelayed(job, score), old(View()))
    {
      delayed := delayed[job := score];
    }

    method ZRemDelayed(job: Job)
      modifies this
      ensures View() == Apply(RemDelayed(job), old(View()))
    {
      delayed := delayed - {job};
    }

    method LPushDead(job: Job)
      modifies this
      ensures View() == Apply(PushDead(job), old(View()))
    {
      dead := [job] + dead;
    }

    /** The member with the least score among `keys`. */
    static method Least(keys: set<Job>, score: map<Job, real>) returns (r: Option<Job>)
      requires keys <= score.Keys
      ensures r.None? <==> keys == {}
      ensures r.Some? ==> r.value in keys && forall k :: k in keys ==> score[r.value] <= score[k]
    {
      r := None;
      var rest := keys;
      while rest != {}
        invariant rest <= keys
        invariant r.None? <==> rest == keys
        invariant r.Some? ==> r.value in keys && forall k :: k in keys - rest ==> score[r.value] <= score[k]
        decreases rest
      {
        var k :| k in rest;
        if r.None? || score[k] < score[r.value] {
          r := Some(k);
        }
        rest := rest - {k};
      }
    }

    method ZPopMin(typ: JobType) returns (r: Option<Job>)
      modifies this
      ensures r.None? <==> forall j :: j in old(ready) ==> j.typ != typ
      ensures r.None? ==> View() == old(View())
      ensures r.Some? ==> r.value.typ == typ && FirstReady(old(View()), r.value)
      ensures r.Some? ==> View() == Apply(PopReady(r.value), old(View()))
    {
      var members := set j | j in ready && j.typ == typ;
      r := Least(members, ready);
      if r.Some? {
        ready := ready - {r.value};
      } else {
        assert forall j :: j in ready && j.typ == typ ==> j in members;
      }
    }

    method ZRangeDue(now: real) returns (r: Option<Job>)
      ensures r.None? <==> forall j :: j in delayed ==> delayed[j] > now
      ensures r.Some? ==> r.value in delayed && delayed[r.value] <= now && forall j :: j in delayed ==> delayed[r.value] <= delayed[j]
      ensures r.Some? ==> FirstDue(View(), r.value, now)
    {
      r := Least(delayed.Keys, delayed);
      if r.Some? && delayed[r.value] > now {
        r := None;
      }
    }
  }

  // ----- the queue

  class JobQueue {
    const redis: Redis?

    constructor (redis: Redis?)
      ensures this.redis == redis
    {
      this.redis := redis;
    }

    method Enqueue(id: nat, spec: Spec, now: real) returns (r: Option<nat>)
      modifies redis
      ensures redis == null ==> r == None
      ensures redis != null ==> r == Some(id) && redis.View() == ApplyAll(EnqueueCmds(id, spec, now), old(redis.View()))
      ensures redis != null ==>
        EnqueuedAs(old(redis.View()), redis.View(), Job(id, spec.typ, spec.payload, 0, spec.priority, ""), spec.delay, now)
    {
      if redis == null { return None; }
      var job := NewJob(id, spec);
      redis.HSet(job, Pending, None);
      if spec.delay > 0 {
        redis.ZAddDelayed(job, now + spec.delay as real);
        redis.HSet(job, Retrying, None);
      } else {
        redis.ZAddReady(job, ReadyScore(job.priority, now));
      }
      redis.HIncr(Enqueued);
      Unfold4(EnqueueCmds(id, spec, now), old(redis.View()));
      EnqueueMeans(id, spec, now, old(redis.View()));
      return Some(id);
    }

    method Dequeue(typ: JobType) returns (r: Option<Job>)
      modifies redis
      ensures redis == null ==> r == None
      ensures redis != null ==> (r.None? <==> forall j :: j in old(redis.ready) ==> j.typ != typ)
      ensures redis != null && r.None? ==> redis.View() == old(redis.View())
      ensures redis != null && r.Some? ==>
        && r.value.typ == typ && FirstReady(old(redis.View()), r.value)
        && redis.View() == ApplyAll(DequeueCmds(r.value), old(redis.View()))
        && DequeuedAs(old(redis.View()), redis.View(), r.value)
    {
      if redis == null { return None; }
      r := redis.ZPopMin(typ);
      if r.None? { return; }
      redis.HSet(r.value, Running, None);
      redis.HIncr(Dequeued);
      Unfold4(DequeueCmds(r.value), old(redis.View()));
      DequeueMeans(r.value, old(redis.View()));
    }

    /** Promotes at most one due job; the typed consumers pick it up. */
    method DequeueDelayed(now: real) returns (r: Option<Job>)
      modifies redis
      ensures r == None
      ensures redis != null && (forall j :: j in old(redis.delayed) ==> old(redis.delayed)[j] > now) ==>
                redis.View() == old(redis.View())
      ensures redis != null && (exists j :: j in old(redis.delayed) && old(redis.delayed)[j] <= now) ==>
                exists j :: FirstDue(old(redis.View()), j, now)
                            && redis.View() == ApplyAll(PromoteCmds(j, now), old(redis.View()))
                            && PromotedAs(old(redis.View()), redis.View(), j, now)
    {
      if redis == null { return None; }
      var item := redis.ZRangeDue(now);
      if item.None? { return None; }
      redis.ZRemDelayed(item.value);
      redis.ZAddReady(item.value, ReadyScore(item.value.priority, now));
      Unfold4(PromoteCmds(item.value, now), old(redis.View()));
      PromoteMeans(item.value, now, old(redis.View()));
      return None;
    }

    method Complete(job: Job)
      requires redis != null
      modifies redis
      ensures redis.View() == ApplyAll(CompleteCmds(job), old(redis.View()))
      ensures CompletedAs(old(redis.View()), redis.View(), job)
    {
      redis.HSet(job, Completed, None);
      redis.HIncr(CompletedCount);
      Unfold4(CompleteCmds(job), old(redis.View()));
      CompleteMeans(job, old(redis.View()));
    }

    /** Returns the job as the caller's dictionary looks afterwards. */
    method Fail(job: Job, error: string, now: real) returns (failed: Job)
      requires redis != null
      modifies redis
      ensures failed == AfterFailure(job, error)
      ensures redis.View() == ApplyAll(FailCmds(job, error, now), old(redis.View()))
      ensures FailedAs(old(redis.View()), redis.View(), job, error, failed, now)
    {
      failed := AfterFailure(job, error);
      if failed.attempts >= MAX_ATTEMPTS {
        redis.LPushDead(failed);
        redis.HSet(failed, Failed, ErrorField(failed.lastError));
        redis.HIncr(DeadLettered);
      } else {
        redis.ZAddDelayed(failed, now + Backoff(failed.attempts) as real);
        redis.HSet(failed, Retrying, ErrorField(failed.lastError));
        redis.HIncr(Retried);
      }
      Unfold4(FailCmds(job, error, now), old(redis.View()));
      FailMeans(job, error, now, old(redis.View()));
    }

    /** Cancelling rewrites the status and dequeues nothing. */
    method Cancel(id: nat) returns (ok: bool)
      modifies redis
      ensures ok == (redis != null)
      ensures redis != null ==>
        && redis.View() == old(redis.View()).(status := redis.status)
        && redis.status == old(redis.status)[id := StatusRecord(Failed, CacheCleanup, "", "", Some("cancelled"))]
    {
      if redis == null { return false; }
      redis.HSet(Job(id, CacheCleanup, Payload("", "", ""), 0, Normal, ""), Failed, Some("cancelled"));
      return true;
    }
  }

  lemma Unfold4(cmds: seq<Cmd>, s: Store)
    requires 2 <= |cmds| <= 4
    ensures ApplyAll(cmds, s) ==
            var two := Apply(cmds[1], Apply(cmds[0], s));
            if |cmds| == 2 then two
            else if |cmds| == 3 then Apply(cmds[2], two)
            else Apply(cmds[3], Apply(cmds[2], two))
  {
    assert cmds[1..][1..] == cmds[2..];
    assert ApplyAll(cmds, s) == ApplyAll(cmds[2..], Apply(cmds[1], Apply(cmds[0], s)));
    if |cmds| == 4 { assert cmds[2..][1..] == [cmds[3]]; }
  }

  // ----- the event bus and the consumer poll

  /** The jobs an event asks for, under the given ids. */
  function Asked(event: Event, ids: seq<nat>): seq<Job>
    requires |ids| == |EventJobs(event.typ)|
  {
    seq(|ids|, i requires 0 <= i < |ids| =>
      Job(ids[i], EventJobs(event.typ)[i].0, event.payload, 0, EventJobs(event.typ)[i].1, ""))
  }

  /** All the given jobs are new ready jobs with a PENDING status; the last one wins where ids repeat. */
  ghost predicate PublishedAs(before: Store, after: Store, made: seq<Job>, now: real) {
    && AllReady(before.ready, after.ready, made, now)
    && after.delayed == before.delayed && after.dead == before.dead
    && AllPending(before.status, after.status, made)
    && after.metrics == before.metrics.(enqueued := before.metrics.enqueued + |made|)
  }

  ghost predicate AllReady(before: map<Job, real>, after: map<Job, real>, made: seq<Job>, now: real) {
    && after.Keys == before.Keys + (set j | j in made)
    && (forall j :: j in made ==> after[j] == QueueScore(j.priority, now))
    && (forall j :: j in before && j !in made ==> after[j] == before[j])
  }

  ghost predicate AllPending(before: map<nat, StatusRecord>, after: map<nat, StatusRecord>, made: seq<Job>) {
    && after.Keys == before.Keys + (set j | j in made :: j.id)
    && (forall id :: id in before && (forall j :: j in made ==> j.id != id) ==> after[id] == before[id])
    && (forall i :: 0 <= i < |made| && LastUse(made, i) ==>
          after[made[i].id] == StatusRecord(Pending, made[i].typ, made[i].payload.shortCode, made[i].payload.urlId,
                                            if made[i].id in before then before[made[i].id].error else None))
  }

  predicate LastUse(made: seq<Job>, i: nat)
    requires i < |made|
  {
    forall k :: i < k < |made| ==> made[k].id != made[i].id
  }

  lemma ReadyMore(before: map<Job, real>, mid: map<Job, real>, made: seq<Job>, job: Job, now: real)
    requires AllReady(before, mid, made, now)
    ensures AllReady(before, mid[job := QueueScore(job.priority, now)], made + [job], now)
  {
  }

  lemma PendingMore(before: map<nat, StatusRecord>, mid: map<nat, StatusRecord>, after: map<nat, StatusRecord>, made: seq<Job>, job: Job)
    requires AllPending(before, mid, made) && Announced(mid, after, job, Pending, None)
    ensures AllPending(before, after, made + [job])
  {
    var all := made + [job];
    assert all[|made|] == job;
    forall id | id in before && forall j :: j in all ==> j.id != id ensures after[id] == before[id] {
      assert job in all && forall j :: j in made ==> j in all;
    }
    assert after.Keys == before.Keys + set j | j in all :: j.id by { MadeIds(made, job); }
    assert job.id in mid ==> mid[job.id].error == if job.id in before then before[job.id].error else None by {
      if job.id in mid { ErrorStays(before, mid, made, job.id); }
    }
    forall i | 0 <= i < |all| && LastUse(all, i)
      ensures after[all[i].id] == StatusRecord(Pending, all[i].typ, all[i].payload.shortCode, all[i].payload.urlId,
                                               if all[i].id in before then before[all[i].id].error else None)
    {
      if i < |made| { LastUseBefore(made, job, i); }
    }
  }

  lemma MadeIds(made: seq<Job>, job: Job)
    ensures (set j | j in made + [job] :: j.id) == (set j | j in made :: j.id) + {job.id}
  {
    assert job in made + [job];
  }

  lemma LastUseBefore(made: seq<Job>, job: Job, i: nat)
    requires i < |made| && LastUse(made + [job], i)
    ensures LastUse(made, i) && made[i].id != job.id
  {
    var all := made + [job];
    assert all[|made|] == job;
    forall k | i < k < |made| ensures made[k].id != made[i].id { assert all[k] == made[k]; }
  }

  lemma {:induction false} LastUseOf(made: seq<Job>, id: nat) returns (i: nat)
    requires exists j :: j in made && j.id == id
    ensures i < |made| && made[i].id == id && LastUse(made, i)
  {
    i := |made| - 1;
    if made[i].id != id {
      var front := made[..i];
      assert made == front + [made[i]];
      i := LastUseOf(front, id);
    }
  }

  lemma ErrorStays(before: map<nat, StatusRecord>, mid: map<nat, StatusRecord>, made: seq<Job>, id: nat)
    requires AllPending(before, mid, made) && id in mid
    ensures mid[id].error == if id in before then before[id].error else None
  {
    if exists j :: j in made && j.id == id {
      var i := LastUseOf(made, id);
    }
  }

  lemma PublishedMore(before: Store, mid: Store, after: Store, made: seq<Job>, job: Job, now: real)
    requires PublishedAs(before, mid, made, now) && EnqueuedAs(mid, after, job, 0, now)
    ensures PublishedAs(before, after, made + [job], now)
  {
    ReadyMore(before.ready, mid.ready, made, job, now);
    PendingMore(before.status, mid.status, after.status, made, job);
  }

  /** One more of the event's jobs. */
  lemma PublishedStep(before: Store, mid: Store, after: Store, event: Event, ids: seq<nat>, spec: Spec, i: nat, now: real)
    requires |ids| == |EventJobs(event.typ)| && i < |ids|
    requires spec == Spec(EventJobs(event.typ)[i].0, EventJobs(event.typ)[i].1, 0, event.payload)
    requires PublishedAs(before, mid, Asked(event, ids)[..i], now)
    requires EnqueuedAs(mid, after, Job(ids[i], spec.typ, spec.payload, 0, spec.priority, ""), spec.delay, now)
    ensures PublishedAs(before, after, Asked(event, ids)[..i + 1], now)
  {
    var made := Asked(event, ids);
    assert made[..i + 1] == made[..i] + [made[i]];
    PublishedMore(before, mid, after, made[..i], made[i], now);
  }

  lemma PublishedNone(s: Store, now: real)
    ensures PublishedAs(s, s, [], now)
  {
  }

  class EventBus {
    const queue: JobQueue

    constructor (queue: JobQueue)
      ensures this.queue == queue
    {
      this.queue := queue;
    }

    /** One enqueue per registry entry of the event, in registry order. */
    method Publish(event: Event, ids: seq<nat>, now: real)
      requires |ids| == |EventJobs(event.typ)|
      modifies queue.redis
      ensures queue.redis != null ==> PublishedAs(old(queue.redis.View()), queue.redis.View(), Asked(event, ids), now)
    {
      var specs := SpecsFor(EventJobs(event.typ), event.payload);
      ghost var start := if queue.redis != null then queue.redis.View() else EMPTY;
      PublishedNone(start, now);
      var i := 0;
      while i < |specs|
        invariant 0 <= i <= |specs|
        invariant queue.redis != null ==> PublishedAs(start, queue.redis.View(), Asked(event, ids)[..i], now)
      {
        PublishOne(event, ids, specs[i], i, now, start);
        i := i + 1;
      }
      assert Asked(event, ids)[..i] == Asked(event, ids);
    }

    /** One turn of the loop. */
    method PublishOne(event: Event, ids: seq<nat>, spec: Spec, i: nat, now: real, ghost start: Store)
      requires |ids| == |EventJobs(event.typ)| && i < |ids|
      requires spec == Spec(EventJobs(event.typ)[i].0, EventJobs(event.typ)[i].1, 0, event.payload)
      requires queue.redis != null ==> PublishedAs(start, queue.redis.View(), Asked(event, ids)[..i], now)
      modifies queue.redis
      ensures queue.redis != null ==> PublishedAs(start, queue.redis.View(), Asked(event, ids)[..i + 1], now)
    {
      ghost var before := if queue.redis != null then queue.redis.View() else EMPTY;
      var _ := queue.Enqueue(ids[i], spec, now);
      if queue.redis != null {
        PublishedStep(start, before, queue.redis.View(), event, ids, spec, i, now);
      }
    }
  }

  /** One turn of a consumer loop: the first job type of the group with a ready job is served. */
  method PollGroup(queue: JobQueue, types: seq<JobType>) returns (job: Option<Job>)
    requires queue.redis != null
    modifies queue.redis
    ensures job.None? <==> forall j :: j in old(queue.redis.ready) ==> j.typ !in types
    ensures job.None? ==> queue.redis.View() == old(queue.redis.View())
    ensures job.Some? ==>
      && FirstReady(old(queue.redis.View()), job.value)
      && queue.redis.View() == ApplyAll(DequeueCmds(job.value), old(queue.redis.View()))
      && DequeuedAs(old(queue.redis.View()), queue.redis.View(), job.value)
      && exists i :: 0 <= i < |types| && types[i] == job.value.typ
                     && forall j :: j in old(queue.redis.ready) ==> j.typ !in types[..i]
  {
    job := None;
    var i := 0;
    while i < |types|
      invariant 0 <= i <= |types|
      invariant job.None? && queue.redis.View() == old(queue.redis.View())
      invariant forall j :: j in old(queue.redis.ready) ==> j.typ !in types[..i]
    {
      job := queue.Dequeue(types[i]);
      if job.Some? {
        return;
      }
      i := i + 1;
    }
  }

  // ----- a method is its coroutine run without interruption

  lemma GoStep(c: Config, s: Sys, t: nat, id: nat, m: Move) returns (s': Sys)
    requires t in s.threads && !s.threads[t].Dispatch? && m == GoMove(s.threads[t], s.clock, id)
    requires s.threads[t].Publishing? && s.threads[t].todo != [] ==> id !in s.issued
    ensures Enabled(c, s, Go(t, id)) && s' == Next(c, s, Go(t, id))
    ensures s'.store == Apply(m.cmd, s.store) && s'.threads == Put(s.threads, t, m.next) && s'.clock == s.clock
  {
    s' := Next(c, s, Go(t, id));
    NextState(c, s, Go(t, id));
  }

  lemma Path2(c: Config, s: Sys, a1: Action, a2: Action)
    requires Enabled(c, s, a1) && Enabled(c, Next(c, s, a1), a2)
    ensures Runs(c, s, [a1, a2]) && End(c, s, [a1, a2]) == Next(c, Next(c, s, a1), a2)
  {
    var s1 := Next(c, s, a1);
    assert Runs(c, Next(c, s1, a2), []);
    RunCons(c, s1, a2, []);
    assert [a2] + [] == [a2];
    RunCons(c, s, a1, [a2]);
    assert [a1] + [a2] == [a1, a2];
  }

  lemma Path3(c: Config, s: Sys, a1: Action, a2: Action, a3: Action)
    requires Enabled(c, s, a1) && Enabled(c, Next(c, s, a1), a2) && Enabled(c, Next(c, Next(c, s, a1), a2), a3)
    ensures Runs(c, s, [a1, a2, a3]) && End(c, s, [a1, a2, a3]) == Next(c, Next(c, Next(c, s, a1), a2), a3)
  {
    Path2(c, Next(c, s, a1), a2, a3);
    RunCons(c, s, a1, [a2, a3]);
    assert [a1] + [a2, a3] == [a1, a2, a3];
  }

  lemma EnqueueIsItsCoroutine(c: Config, s: Sys, t: nat, id: nat)
    requires t in s.threads && s.threads[t].Publishing? && s.threads[t].todo != [] && id !in s.issued
    requires s.threads[t].todo[0].delay == 0
    ensures var a, pc := Go(t, id), s.threads[t];
            && Runs(c, s, [a, a, a])
            && End(c, s, [a, a, a]).store == ApplyAll(EnqueueCmds(id, pc.todo[0], s.clock), s.store)
            && End(c, s, [a, a, a]).threads == s.threads[t := Publishing(pc.parent, pc.todo[1..])]
  {
    var pc := s.threads[t];
    var job := NewJob(id, pc.todo[0]);
    var s1 := GoStep(c, s, t, id, Move(SetStatus(job, Pending, None), Some(EnqAdd(pc.parent, pc.todo[1..], job, 0)), []));
    var s2 := GoStep(c, s1, t, id,
                     Move(AddReady(job, ReadyScore(job.priority, s.clock)), Some(EnqCount(pc.parent, pc.todo[1..])), []));
    var s3 := GoStep(c, s2, t, id, Move(Incr(Enqueued), Some(Publishing(pc.parent, pc.todo[1..])), []));
    Path3(c, s, Go(t, id), Go(t, id), Go(t, id));
    Unfold4(EnqueueCmds(id, pc.todo[0], s.clock), s.store);
  }

  /** The last two steps of a delayed enqueue. */
  lemma LateTail(c: Config, s: Sys, t: nat, parent: Option<Job>, todo: seq<Spec>, child: Job) 
    returns (e: Sys, acts: seq<Action>)
    requires t in s.threads && s.threads[t] == EnqLate(parent, todo, child)
    ensures Runs(c, s, acts) && e == End(c, s, acts) && |acts| == 2 && OwnSteps(acts, t)
    ensures e.threads == s.threads[t := Publishing(parent, todo)]
    ensures e.store == Apply(Incr(Enqueued), Apply(SetStatus(child, Retrying, None), s.store))
  {
    var s1 := GoStep(c, s, t, 0, Move(SetStatus(child, Retrying, None), Some(EnqCount(parent, todo)), []));
    e := GoStep(c, s1, t, 0, Move(Incr(Enqueued), Some(Publishing(parent, todo)), []));
    Path2(c, s, Go(t, 0), Go(t, 0));
    acts := [Go(t, 0), Go(t, 0)];
  }

  /** All steps are this coroutine's. */
  predicate OwnSteps(acts: seq<Action>, t: nat) {
    forall i :: 0 <= i < |acts| ==> acts[i].Go? && acts[i].t == t
  }

  lemma LateHead(c: Config, s: Sys, t: nat, id: nat, spec: Spec, rest: seq<Spec>, parent: Option<Job>)
    returns (e: Sys, acts: seq<Action>)
    requires t in s.threads && s.threads[t] == Publishing(parent, [spec] + rest) && id !in s.issued && spec.delay > 0
    ensures Runs(c, s, acts) && e == End(c, s, acts) && |acts| == 2 && OwnSteps(acts, t)
    ensures var job := NewJob(id, spec);
            && e.threads == s.threads[t := EnqLate(parent, rest, job)]
            && e.store == Apply(AddDelayed(job, s.clock + spec.delay as real), Apply(SetStatus(job, Pending, None), s.store))
  {
    var job := NewJob(id, spec);
    assert ([spec] + rest)[1..] == rest;
    var s1 := GoStep(c, s, t, id, Move(SetStatus(job, Pending, None), Some(EnqAdd(parent, rest, job, spec.delay)), []));
    e := GoStep(c, s1, t, 0, Move(AddDelayed(job, s.clock + spec.delay as real), Some(EnqLate(parent, rest, job)), []));
    Path2(c, s, Go(t, id), Go(t, 0));
    acts := [Go(t, id), Go(t, 0)];
  }

  function LateStore(job: Job, due: real, s: Store): Store {
    var added := Apply(AddDelayed(job, due), Apply(SetStatus(job, Pending, None), s));
    Apply(Incr(Enqueued), Apply(SetStatus(job, Retrying, None), added))
  }

  ghost predicate LateHalves(job: Job, due: real, s: Store, mid: Store, e: Store) {
    && mid == Apply(AddDelayed(job, due), Apply(SetStatus(job, Pending, None), s))
    && e == Apply(Incr(Enqueued), Apply(SetStatus(job, Retrying, None), mid))
  }

  lemma LateStores(job: Job, due: real, s: Store, mid: Store, e: Store)
    requires LateHalves(job, due, s, mid, e)
    ensures e == LateStore(job, due, s)
  {
  }

  lemma LateCmds(id: nat, spec: Spec, now: real, s: Store)
    requires spec.delay > 0
    ensures ApplyAll(EnqueueCmds(id, spec, now), s) == LateStore(NewJob(id, spec), now + spec.delay as real, s)
  {
    Unfold4(EnqueueCmds(id, spec, now), s);
  }

  lemma LateRun(c: Config, s: Sys, t: nat, id: nat, spec: Spec, rest: seq<Spec>, parent: Option<Job>)
    returns (mid: Store, e: Sys, acts: seq<Action>)
    requires t in s.threads && s.threads[t] == Publishing(parent, [spec] + rest) && id !in s.issued && spec.delay > 0
    ensures Runs(c, s, acts) && e == End(c, s, acts) && |acts| == 4 && OwnSteps(acts, t)
    ensures LateHalves(NewJob(id, spec), s.clock + spec.delay as real, s.store, mid, e.store)
    ensures e.threads == s.threads[t := Publishing(parent, rest)]
  {
    var half, front := LateHead(c, s, t, id, spec, rest, parent);
    var back;
    e, back := LateTail(c, half, t, parent, rest, NewJob(id, spec));
    mid, acts := half.store, front + back;
    RunsConcat(c, s, front, back);
  }

  lemma DelayedEnqueueIsItsCoroutine(c: Config, s: Sys, t: nat, id: nat, spec: Spec, rest: seq<Spec>, parent: Option<Job>)
    returns (e: Sys, acts: seq<Action>)
    requires t in s.threads && s.threads[t] == Publishing(parent, [spec] + rest) && id !in s.issued && spec.delay > 0
    ensures Runs(c, s, acts) && e == End(c, s, acts) && |acts| == 4 && OwnSteps(acts, t)
    ensures e.store == ApplyAll(EnqueueCmds(id, spec, s.clock), s.store)
    ensures e.threads == s.threads[t := Publishing(parent, rest)]
  {
    var mid;
    mid, e, acts := LateRun(c, s, t, id, spec, rest, parent);
    LateStores(NewJob(id, spec), s.clock + spec.delay as real, s.store, mid, e.store);
    LateCmds(id, spec, s.clock, s.store);
  }

  lemma DequeueIsItsCoroutine(c: Config, s: Sys, t: nat, job: Job)
    requires Enabled(c, s, Pop(t, job))
    ensures var acts := [Pop(t, job), Go(t, 0), Go(t, 0)];
            && Runs(c, s, acts)
            && End(c, s, acts).store == ApplyAll(DequeueCmds(job), s.store)
            && End(c, s, acts).threads == s.threads[t := Dispatch(job)]
  {
    var s1 := Next(c, s, Pop(t, job));
    NextState(c, s, Pop(t, job));
    var s2 := GoStep(c, s1, t, 0, Move(SetStatus(job, Running, None), Some(DeqCount(job)), []));
    var s3 := GoStep(c, s2, t, 0, Move(Incr(Dequeued), Some(Dispatch(job)), []));
    Path3(c, s, Pop(t, job), Go(t, 0), Go(t, 0));
    Unfold4(DequeueCmds(job), s.store);
  }

  lemma CompleteIsItsCoroutine(c: Config, s: Sys, t: nat, job: Job)
    requires t in s.threads && s.threads[t] == Publishing(Some(job), [])
    ensures var acts := [Go(t, 0), Go(t, 0)];
            && Runs(c, s, acts)
            && End(c, s, acts).store == ApplyAll(CompleteCmds(job), s.store)
            && End(c, s, acts).threads == s.threads - {t}
  {
    var s1 := GoStep(c, s, t, 0, Move(SetStatus(job, Completed, None), Some(DoneCount(job)), []));
    var s2 := GoStep(c, s1, t, 0, Move(Incr(CompletedCount), None, [job]));
    Path2(c, s, Go(t, 0), Go(t, 0));
    Unfold4(CompleteCmds(job), s.store);
  }

  lemma FailIsItsCoroutine(c: Config, s: Sys, t: nat, error: string)
    requires Enabled(c, s, Raise(t, error))
    ensures var acts := [Raise(t, error), Go(t, 0), Go(t, 0)];
            && Runs(c, s, acts)
            && End(c, s, acts).store == ApplyAll(FailCmds(s.threads[t].parent.value, error, s.clock), s.store)
            && End(c, s, acts).threads == s.threads - {t}
  {
    var cmds := FailCmds(s.threads[t].parent.value, error, s.clock);
    var m := FailMove(s.threads[t].parent.value, error, s.clock);
    var s1 := Next(c, s, Raise(t, error));
    NextState(c, s, Raise(t, error));
    assert m.cmd == cmds[0] && s1.threads == s.threads[t := m.next.value];
    FailTail(c, s1, t, m.next.value);
    Path3(c, s, Raise(t, error), Go(t, 0), Go(t, 0));
    Unfold4(cmds, s.store);
  }

  /** The two writes after the job has been put into the delayed set or the dead list. */
  lemma FailTail(c: Config, s: Sys, t: nat, pc: Pc)
    requires t in s.threads && s.threads[t] == pc && (pc.RetryStatus? || pc.DeadStatus?)
    ensures Enabled(c, s, Go(t, 0)) && Enabled(c, Next(c, s, Go(t, 0)), Go(t, 0))
    ensures var e := Next(c, Next(c, s, Go(t, 0)), Go(t, 0));
            && e.threads == s.threads - {t}
            && e.store == Apply(Incr(if pc.DeadStatus? then DeadLettered else Retried),
                                Apply(SetStatus(pc.job, if pc.DeadStatus? then Failed else Retrying, ErrorField(pc.job.lastError)), s.store))
  {
    var m := GoMove(pc, s.clock, 0);
    var s1 := GoStep(c, s, t, 0, m);
    var s2 := GoStep(c, s1, t, 0, GoMove(m.next.value, s.clock, 0));
  }

  lemma PromotionIsItsCoroutine(c: Config, s: Sys, t: nat, job: Job)
    requires Enabled(c, s, Read(t, job))
    ensures var acts := [Read(t, job), Go(t, 0), Go(t, 0)];
            && Runs(c, s, acts)
            && End(c, s, acts).store == ApplyAll(PromoteCmds(job, s.clock), s.store)
            && End(c, s, acts).threads == s.threads
  {
    var s1 := Next(c, s, Read(t, job));
    NextState(c, s, Read(t, job));
    var s2 := GoStep(c, s1, t, 0, Move(RemDelayed(job), Some(PromAdd(job)), []));
    var s3 := GoStep(c, s2, t, 0, Move(AddReady(job, ReadyScore(job.priority, s.clock)), None, []));
    Path3(c, s, Read(t, job), Go(t, 0), Go(t, 0));
    Unfold4(PromoteCmds(job, s.clock), s.store);
  }
}
