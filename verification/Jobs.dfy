/**
 Job and event vocabulary: the job types and priorities of the queue, the event registry that
 turns a published event into jobs, and what each handler may publish during one run.
 */
module Jobs {

  datatype JobType =
    | FetchMetadata | InitHealth | HealthCheck | GenerateSummary | AnalyticsAggregate
    | UpdateAnalyticsCache | WarmCache | InvalidateCache | IndexSearch | OptimizeQr
    | ExpiredCleanup | CacheCleanup | SafeBrowsing

  datatype JobStatus = Pending | Running | Completed | Failed | Retrying

  datatype JobPriority = High | Normal | Low {
    function Rank(): int {
      match this
      case High => 1
      case Normal => 5
      case Low => 10
    }
  }

  /** The part of a payload the queue and the cache handlers look at. */
  datatype Payload = Payload(shortCode: string, urlId: string, originalUrl: string)

  /** A queued job. The serialized form is taken to be injective, so a job value is its own set member. */
  datatype Job = Job(id: nat, typ: JobType, payload: Payload, attempts: nat, priority: JobPriority, lastError: string)

  /** The arguments of one `enqueue` call. */
  datatype Spec = Spec(typ: JobType, priority: JobPriority, delay: nat, payload: Payload)

  datatype EventType =
    | LinkCreated | LinkVisited | LinkDeleted | LinkUpdated | LinkExpired
    | SummaryRequested | SummaryGenerated | MetadataFetched | MetadataUpdated
    | HealthCheckStarted | HealthCheckCompleted | BrokenLinkDetected | AnalyticsUpdated
    | FolderCreated | FolderDeleted | QrGenerated | UserRegistered | ProfileUpdated

  datatype Event = Event(typ: EventType, payload: Payload)

  const MAX_ATTEMPTS := 5

  /** The event registry: which jobs an event fires. */
  function EventJobs(e: EventType): seq<(JobType, JobPriority)> {
    match e
    case LinkCreated =>
      [(FetchMetadata, High), (InitHealth, Normal), (WarmCache, Normal), (IndexSearch, Low), (OptimizeQr, Low)]
    case LinkVisited => [(UpdateAnalyticsCache, Normal)]
    case LinkDeleted => [(InvalidateCache, High), (IndexSearch, Low)]
    case LinkUpdated => [(InvalidateCache, High), (IndexSearch, Low)]
    case LinkExpired => [(InvalidateCache, High)]
    case SummaryRequested => [(GenerateSummary, High)]
    case HealthCheckStarted => [(HealthCheck, High)]
    case FolderCreated => [(InvalidateCache, Normal)]
    case FolderDeleted => [(InvalidateCache, Normal)]
    case ProfileUpdated => [(InvalidateCache, Normal)]
    case UserRegistered => [(WarmCache, Low)]
    case _ => []
  }

  /** The registry read the other way: for each job type, the events that ask for it and how urgently. */
  lemma FiredBy(e: EventType, t: JobType, p: JobPriority)
    ensures (t, p) in EventJobs(e) <==>
      match t
      case FetchMetadata => e.LinkCreated? && p.High?
      case InitHealth => e.LinkCreated? && p.Normal?
      case HealthCheck => e.HealthCheckStarted? && p.High?
      case GenerateSummary => e.SummaryRequested? && p.High?
      case UpdateAnalyticsCache => e.LinkVisited? && p.Normal?
      case WarmCache => (e.LinkCreated? && p.Normal?) || (e.UserRegistered? && p.Low?)
      case InvalidateCache =>
        || (p.High? && (e.LinkUpdated? || e.LinkDeleted? || e.LinkExpired?))
        || (p.Normal? && (e.FolderCreated? || e.FolderDeleted? || e.ProfileUpdated?))
      case IndexSearch => p.Low? && (e.LinkCreated? || e.LinkUpdated? || e.LinkDeleted?)
      case OptimizeQr => e.LinkCreated? && p.Low?
      case _ => false
    ensures forall i, j :: 0 <= i < j < |EventJobs(e)| ==> EventJobs(e)[i].0 != EventJobs(e)[j].0
  {
  }

  function SpecsFor(jobs: seq<(JobType, JobPriority)>, p: Payload): (specs: seq<Spec>)
    ensures |specs| == |jobs|
    ensures forall i :: 0 <= i < |jobs| ==> specs[i] == Spec(jobs[i].0, jobs[i].1, 0, p)
  {
    if jobs == [] then [] else [Spec(jobs[0].0, jobs[0].1, 0, p)] + SpecsFor(jobs[1..], p)
  }

  /** The `enqueue` calls made by publishing the events one after the other. */
  function Published(events: seq<Event>): seq<Spec> {
    if events == [] then [] else
    SpecsFor(EventJobs(events[0].typ), events[0].payload) + Published(events[1..])
  }

  /** Events are published in their order. */
  lemma {:induction false} PublishedInOrder(front: seq<Event>, back: seq<Event>)
    ensures Published(front + back) == Published(front) + Published(back)
  {
    if front == [] {
      assert front + back == back;
    } else {
      PublishedInOrder(front[1..], back);
      FirstThenRest(front, back);
      var first := OneEventFirst(front[0]);
      Regroup(first, Published(front[1..]), Published(back));
    }
  }

  lemma FirstThenRest(front: seq<Event>, back: seq<Event>)
    requires front != []
    ensures (front + back)[0] == front[0] && (front + back)[1..] == front[1..] + back
  {
  }

  lemma OneEventFirst(e: Event) returns (first: seq<Spec>)
    ensures forall events :: events != [] && events[0] == e ==> Published(events) == first + Published(events[1..])
  {
    first := SpecsFor(EventJobs(e.typ), e.payload);
  }

  lemma Regroup(a: seq<Spec>, b: seq<Spec>, c: seq<Spec>)
    ensures (a + b) + c == a + (b + c)
  {
  }

  /** A job is asked for exactly if some event's registry entry says so, and it carries that event's payload. */
  lemma {:induction false} PublishedFor(events: seq<Event>, spec: Spec)
    ensures spec in Published(events) <==>
      exists i :: 0 <= i < |events| && (spec.typ, spec.priority) in EventJobs(events[i].typ)
                  && spec.payload == events[i].payload && spec.delay == 0
  {
    if events != [] {
      PublishedFor(events[1..], spec);
      var jobs := EventJobs(events[0].typ);
      var first := SpecsFor(jobs, events[0].payload);
      assert spec in first <==> (spec.typ, spec.priority) in jobs && spec.payload == events[0].payload && spec.delay == 0 by {
        if (spec.typ, spec.priority) in jobs && spec.payload == events[0].payload && spec.delay == 0 {
          var j :| 0 <= j < |jobs| && jobs[j] == (spec.typ, spec.priority);
          assert first[j] == spec;
        }
      }
      if i :| 0 <= i < |events[1..]| && (spec.typ, spec.priority) in EventJobs(events[1..][i].typ)
              && spec.payload == events[1..][i].payload && spec.delay == 0 {
        assert events[i + 1] == events[1..][i];
      }
      if i :| 1 <= i < |events| && (spec.typ, spec.priority) in EventJobs(events[i].typ)
              && spec.payload == events[i].payload && spec.delay == 0 {
        assert events[1..][i - 1] == events[i];
      }
    }
  }

  function Types(events: seq<Event>): (ts: seq<EventType>)
    ensures |ts| == |events|
  {
    if events == [] then [] else [events[0].typ] + Types(events[1..])
  }

  /**
   The event sequences one undisturbed handler run can publish. `maxExpired` bounds the rows that
   one EXPIRED_CLEANUP run finds.
   */
  ghost predicate HandlerPublishes(t: JobType, events: seq<Event>, maxExpired: nat) {
    match t
    case FetchMetadata => Types(events) == [MetadataFetched]
    case InitHealth => Types(events) == [HealthCheckStarted]
    case HealthCheck =>
      Types(events) == [HealthCheckCompleted] || Types(events) == [HealthCheckCompleted, BrokenLinkDetected]
    case GenerateSummary => Types(events) == [SummaryGenerated]
    case AnalyticsAggregate => Types(events) == [AnalyticsUpdated]
    case OptimizeQr => events == [] || Types(events) == [QrGenerated]
    case ExpiredCleanup => |events| <= maxExpired && forall e :: e in events ==> e.typ == LinkExpired
    case _ => events == []
  }

  /** Every job type but SAFE_BROWSING has a handler. */
  predicate HasHandler(t: JobType) {
    !t.SafeBrowsing?
  }

  /** The worker groups, in the order their queues are polled. */
  const WORKER_GROUPS: seq<seq<JobType>> := [
    [FetchMetadata],
    [InitHealth, HealthCheck],
    [AnalyticsAggregate, UpdateAnalyticsCache],
    [GenerateSummary],
    [WarmCache, InvalidateCache, CacheCleanup],
    [IndexSearch, OptimizeQr],
    [ExpiredCleanup]
  ]

  predicate HasWorker(t: JobType) {
    exists g :: g in WORKER_GROUPS && t in g
  }

  lemma WorkersByType(t: JobType)
    ensures HasWorker(t) <==> HasHandler(t)
  {
    assert forall i :: 0 <= i < |WORKER_GROUPS| ==> WORKER_GROUPS[i] in WORKER_GROUPS;
    assert FetchMetadata in WORKER_GROUPS[0];
    assert InitHealth in WORKER_GROUPS[1] && HealthCheck in WORKER_GROUPS[1];
    assert AnalyticsAggregate in WORKER_GROUPS[2] && UpdateAnalyticsCache in WORKER_GROUPS[2];
    assert GenerateSummary in WORKER_GROUPS[3];
    assert WarmCache in WORKER_GROUPS[4] && InvalidateCache in WORKER_GROUPS[4] && CacheCleanup in WORKER_GROUPS[4];
    assert IndexSearch in WORKER_GROUPS[5] && OptimizeQr in WORKER_GROUPS[5];
    assert ExpiredCleanup in WORKER_GROUPS[6];
  }

  /** No published event ever asks for a job that no worker consumes. */
  lemma {:induction false} PublishedJobsHaveWorkers(events: seq<Event>)
    ensures forall spec :: spec in Published(events) ==> HasWorker(spec.typ) && spec.delay == 0
  {
    if events != [] {
      PublishedJobsHaveWorkers(events[1..]);
      var jobs := EventJobs(events[0].typ);
      var specs := SpecsFor(jobs, events[0].payload);
      forall spec | spec in specs
        ensures HasWorker(spec.typ) && spec.delay == 0
      {
        var i :| 0 <= i < |specs| && specs[i] == spec;
        WorkersByType(jobs[i].0);
      }
    }
  }
}
