# Verified model of the URL shortener's backend

These Dafny modules model the backend of the URL shortener and prove what its parts keep over whole
runs. `dafny verify dfyconfig.toml` checks everything.

**The job queue** (`Jobs`, `RedisStore`, `Protocol`, `Gauges`, `Conservation`, `NoLoss`, `Finding`,
`Races`, `Counters`, `Cascade`, `Budgets`, `Termination`, `Tightness`, `Progress`, `Timing`,
`StatusLaw`, `StatusHistory`, `Promptness`, `JobQueues`) is a state machine in which one step of one
coroutine issues one Redis command. Publishers, consumers, handlers and promoters hold jobs in hand
between commands and interleave freely; handlers may fail at any point and publish events that enqueue
further jobs. `JobQueues` has the same operations as methods of a queue object, proved to be their
coroutines run without interruption.

**The redirect path** (`Redirects`, `UrlServices`) has link rows, cache entries with a time to live,
a clock, transactions that commit after their cache write or delete, misses that fill the cache some
time after their read, expiry cleanups that commit some time after they selected their rows, and the
other background jobs. `UrlServices` has the service methods, each run to its end.

**Algorithms and records**: pre-aggregated analytics against direct counting (`Aggregation`,
`AnalyticsServices`), the sliding-window rate limiter against the full request log (`RateLimiting`),
the live-update stream from printer to chunked parser (section 9.2 of the WHATWG HTML Living Standard;
`EventStream`), URL normalisation from text to text (section 6.2.3 of RFC 3986 for the default port
and the empty path; `UrlText`, `UrlNormalize`, and `UrlGrammar` for URLs and queries as written),
nested collections (`Collections`), the link health check (`HealthMonitor`), names for new sign-ins
(`Usernames`, `Decimals`, `Letters`), and click accounting under overlapping visits (`Clicks`).

What the models had to follow in the code, some of it against its own comments:

- A promoter reads, removes and adds in three commands and ignores whether the removal removed
  anything (`app/workers/queue.py:130-141`); two server processes run one promoter each
  (`scripts/docker-entrypoint.sh:14`). A job can then exist twice: `Races.DuplicatesIffTwoPromoters`.
  Termination, settling, no loss, timing and the in-flight counter law hold for any number of
  promoters. Exactly-one-place and the other two counter laws are off by exactly the removals that
  found nothing less the adds over a present member, and both laws can be seen to fail if and only if
  there is more than one promoter. The status laws hold for any number of promoters as long as every
  removal finds its member, which one promoter always does.
- `fail` makes a job visible in the delayed set before it writes RETRYING
  (`app/workers/queue.py:179-186`). A promoter and a worker can overtake that write, so the status
  laws hold for prompt runs: no promoter reads a job whose RETRYING is still owed. This is the exact
  condition, read by read: `Promptness.ReadIsHarmlessIffPrompt`. `cancel` rewrites a status and
  dequeues nothing, and is not a step of the machine.
- INIT_HEALTH publishes before its own work (`app/workers/handlers.py:116-131`), so each of its
  retries spawns another HEALTH_CHECK. That is why the bounds have a square in them. They are reached:
  `Tightness.OneEventBoundIsReached`.
- Cache entries are written and deleted before the transaction commits, WARM_CACHE writes an entry
  without expiry from the payload of the creation, and EXPIRED_CLEANUP deactivates what it selected
  earlier, whatever the rows say by then. Each can leave a stale entry for one TTL;
  `Redirects.StalenessIsBounded` names every such step, and `Redirects.DirtyIffStale` shows that none
  is named in vain.
- After EXPIRED_CLEANUP a cached entry answers "expired" where the database answers "not found".
  Over runs redirects are compared, not error kinds; `UrlServices.UrlService.GetOriginalUrl` has both.
- An alias of a soft-deleted row passes both look-ups and fails at the unique index: an integrity
  error, not the documented conflict (`app/services/url.py:84-97`).
- The rate limiter's retry delay is 0 in exact arithmetic, and requests with equal timestamps are one
  member of its set (`app/middleware/rate_limiter.py:81-98`).
- The dashboard's unique visitors are sums over days (`app/services/analytics_aggregation.py:131`).
- The certificate check overwrites the verdict of the redirect walk, and ten redirects leave HEALTHY
  (`app/services/health_monitor.py:66`, `106-111`).
- Port 0 is dropped like a default port, and paths of several slashes lose all of them
  (`app/utils/url_normalize.py:21-26`). `update_url` leaves the stored normal form as created.
- A visit served from a stale cache entry of a deleted link still records a click, but does not move
  the counter (`app/services/url.py:310-314`).

Times and scores are reals. Job ids, URL ids and user ids are naturals. What comes from outside
(fresh ids, random codes, clocks, fetch results, poll results, the events a handler publishes) is a
parameter or a choice of the run.

## Model

| member | source | states |
|---|---|---|
| Jobs.PublishedJobsHaveWorkers | app/events/registry.py:11-51 | Every job an event can fire has a worker group that consumes it, and none is fired with a delay. |
| Jobs.WorkersByType | app/workers/consumers.py:20-28 | The worker groups consume exactly the job types that have a handler: all but SAFE_BROWSING. |
| Jobs.FiredBy | app/events/registry.py:11-51 | The registry read the other way: for every job type exactly which events ask for it, and with which priority; no event asks for a type twice. |
| Jobs.PublishedInOrder | app/events/bus.py:54-67 | Events are published one after the other, in their order. |
| Jobs.PublishedFor | app/events/bus.py:54-67 | Publishing a list of events enqueues a job if and only if the registry entry of one of them names its type and priority, with that event's payload and no delay. |
| Conservation.MoveConserves | app/workers/queue.py:68-194 | For every id, each single Redis command of each coroutine moves the job between hand, queue, completed and dead without changing how many places hold it, except the command that issues the id. |
| Conservation.RunKeepsInv | app/workers/consumers.py:62-72 | With one promoter, over every run: each issued id is held exactly once, no other id is held at all, and what the promoter is about to remove is still delayed. |
| NoLoss.ExactlyOnePlace | app/workers/queue.py:68-194 | One promoter: in every reachable state each issued id is in exactly one of ready, delayed, in hand, completed, dead (with multiplicity one), and an id never issued is in none. |
| Conservation.SurplusOverRun | app/workers/queue.py:129-141 | Any number of promoters, any run: every missed removal of an id gives it one more place, every collapsed add one less, and nothing else changes how many it has beyond its one. |
| Finding.FindingKeepsOnePlace | app/workers/queue.py:129-141 | Any number of promoters: as long as every removal finds its member, each issued id is in exactly one place with multiplicity one, and no other id is anywhere. |
| Finding.RunKeepsFound | app/workers/queue.py:129-141 | Along such runs, what a promoter has read is still delayed, or the job's only copy is further on, with at least as many attempts, and more if it is delayed again. |
| Finding.SoloRunsFind | app/workers/consumers.py:62-72 | With one promoter every removal of every run finds its member. |
| NoLoss.StepKeepsAPlace | app/workers/queue.py:130-141 | No step of any coroutine takes a job out of its last place, however many promoters interleave. |
| NoLoss.NoLossFromStart | app/workers/consumers.py:62-72 | Any number of promoters: in every reachable state every issued id is in at least one place. |
| NoLoss.TwoPromotersDuplicate | app/workers/queue.py:129-141 | Two promoters that both read a due job leave one copy with a worker and one in the ready set, because the result of the removal is ignored. |
| Races.DuplicatesIffTwoPromoters | app/workers/queue.py:129-141 | From the empty queue, a state with one id in two places is reachable if and only if there is more than one promoter. |
| Counters.CounterLaws | app/workers/queue.py:68-194 | Any number of promoters, any reachable state with no metric owed: enqueued + retried + missed removals = dequeued + ready + delayed + in promotion + collapsed adds, so the plain law holds iff these two agree; dequeued = running + completed + retried + dead always. |
| Counters.GapOverRun | app/workers/queue.py:237-240 | Any run, any number of promoters, owed increments included: each of the three laws is off by exactly the weight of removals that found nothing less that of adds over a present member. |
| Counters.SoloLawsAreExact | app/workers/queue.py:237-240 | With one promoter nothing is missed and nothing collapses: all three laws are exact in every reachable state, owed increments included. |
| Counters.SoloBooks | app/workers/queue.py:106-194 | With one promoter: enqueued + retried = dequeued + ready + delayed + in promotion and dequeued = running + completed + retried + dead when no metric is owed; retried + dead = all recorded attempts when nothing runs. |
| Races.QueueBooksFailIffTwoPromoters | app/workers/queue.py:129-141 | From the empty queue, a state with nothing owed in which enqueued + retried differs from dequeued + ready + delayed + in promotion is reachable if and only if there is more than one promoter. |
| Races.AttemptBooksFailIffTwoPromoters | app/workers/queue.py:129-155 | The same for the attempts recorded against retried + dead when all coroutines have finished. |
| Counters.AttemptsAtRest | app/workers/queue.py:153-155 | Any number of promoters, all coroutines finished: the attempts recorded in all jobs exceed retried + dead by the attempts of missed removals less those of collapsed adds. |
| Cascade.HandlerWithinBudget | app/workers/handlers.py:107-131 | Whatever one handler run publishes costs at most what its job type's budgets set aside for spawning, in handler runs and in steps. |
| Cascade.RunsFactor | app/workers/queue.py:153-194 | The handler runs a job can still cause are those of a job that spawns nothing, times one plus what each run spawns; with k promoters a retry can return as k copies. |
| Cascade.StepKeepsSound | app/workers/consumers.py:20-28 | Every step keeps all queued and held jobs below five attempts and consumable by some worker. |
| Budgets.StepCost | app/workers/queue.py:125-142 | For any weighting of jobs and any number k of promoters, a step raises the weighted total by at most its own move's balance, although members collapse, promoters overtake each other and removals miss. |
| Budgets.SoloIsACrewOfOne | app/workers/consumers.py:62-72 | Every run of a one-promoter system has at most one coroutine promoting at any time, so the results for k promoters apply with k = 1. |
| Termination.StepSpendsRuns | app/workers/handlers.py:59-70 | Starting a handler is paid for by the run budget; no other step inside the system raises it. |
| Termination.RunsWithinBudget | app/workers/handlers.py:28-70 | With at most k promoters and no outside events, the handlers started by any run are at most the run budget of its first state. |
| Termination.EventBudget | app/events/registry.py:11-51 | The budget of publishing one event, evaluated from the registry: 5L + L² for LinkCreated, 2L for deletes and updates, L or 0 for the rest, where L = 1 + k + k² + k³ + k⁴. |
| Termination.LinkCreatedRuns | app/events/registry.py:12-18 | That is 50 handler runs for LinkCreated with one promoter and 1116 with two. |
| Termination.OneEventRunsBounded | app/workers/handlers.py:107-131 | One event published into an idle system causes at most that many handler runs, in every interleaving and however often handlers fail. |
| Tightness.Multiplies | app/workers/queue.py:126-146 | A due retry can reach the workers in as many copies as there are promoters: all read it, and each copy is taken before the next is added. |
| Tightness.Exhausts | app/workers/handlers.py:59-70 | The run budget is tight for any number k of promoters: whatever jobs the workers hold, some run without outside events starts every handler run budgeted for them and ends idle. |
| Tightness.OneEventBoundIsReached | app/workers/handlers.py:107-131 | The bound on what one event causes is reached for every event and every k: some run with at most k promoters after publishing it into an idle system starts exactly that many handlers, 50 (k = 1) and 1116 (k = 2) for LinkCreated. |
| Termination.StepSpendsWork | app/workers/queue.py:68-194 | Every step of a closed system, any coroutine and any number k of promoters, strictly lowers a budget computed from the state. |
| Termination.ClosedRunsEnd | app/workers/consumers.py:31-72 | Cascade termination: no closed run, whatever the interleaving and the failures, has more steps than the budget of its first state. |
| Progress.SomethingMoves | app/workers/consumers.py:42-72 | As long as anything is queued or in hand, some coroutine, worker or promoter can step, perhaps after waiting for a retry to come due. |
| Progress.CanSettle | app/workers/consumers.py:31-72 | Every state can be driven, without outside events, to one with nothing queued and nothing in hand. |
| Progress.StuckRunsAreSettled | app/workers/consumers.py:31-72 | A run from the start that nothing inside can extend has left every issued job completed or dead, for any number of promoters. |
| Progress.IdleIsSettledOnce | app/workers/queue.py:144-173 | With one promoter an idle state has every issued job either completed or dead, never both, and no other job. |
| Timing.DeadLetterSpacing | app/workers/queue.py:157-179 | The first and last failures of a dead-lettered job are at least 10+20+40+80 = 150 seconds apart, in every run with any number of promoters. |
| Timing.RetriesWait | app/workers/queue.py:176-179 | A handler for a retry starts at least 10, 30, 70 or 150 seconds after the job's first failure, for the first, second, third and fourth retry. |
| Timing.PopsBestFirst | app/workers/queue.py:98-114 | With clocks below 4·10¹²: while a HIGH job of the type is ready only HIGH is popped, no LOW is popped before a NORMAL, and what is popped was added no later than any ready job of its type and priority. |
| Timing.ReadsEarliestFirst | app/workers/queue.py:129-132 | A promoter reads a job only once its delay has passed, and none before one that is due earlier. |
| Timing.ScoresOrder | app/workers/queue.py:43-46 | Scores put HIGH before NORMAL before LOW and, within one priority, earlier before later, for times below 4·10¹². |
| StatusLaw.RunKeepsStatusLaw | app/workers/queue.py:92-122 | Over every prompt run whose removals find their members, any number of promoters, the place of every job, queued, in hand or settled, determines its status. |
| StatusLaw.StatusTellsPlace | app/workers/queue.py:92-194 | In such runs, for an id with no status write owed: COMPLETED iff completed, FAILED iff dead-lettered, RUNNING iff a worker is on it, PENDING or RETRYING iff none of these. |
| StatusLaw.SoloStatusTellsPlace | app/workers/queue.py:92-194 | With one promoter, so in every prompt run. |
| Races.StatusObscureIffTwoPromoters | app/workers/queue.py:129-141 | From the empty queue, a prompt run reaches an issued id with no status write owed whose status does not tell its place if and only if there is more than one promoter. |
| StatusHistory.RunKeepsHistory | app/workers/queue.py:92-122 | Over prompt and finding runs, any number of promoters, every ready job and every job just popped is RETRYING if its id was ever put into the delayed set, and PENDING if not. |
| StatusHistory.StatusTellsHistory | app/workers/queue.py:92-186 | And so the two are told apart: RETRYING iff the job waits and was delayed before, PENDING iff it waits and never was. |
| Promptness.ReadIsHarmlessIffPrompt | app/workers/queue.py:125-186 | The exact condition, any number of promoters, any lawful state: no prompt and finding continuation of a read ever announces a running job as RETRYING if and only if the read is prompt. |
| Promptness.FirstLateReadIsTheRace | app/workers/queue.py:125-186 | In every state a prompt and finding run reaches from the start, the next read is harmless if and only if it is prompt. |
| StatusLaw.LateWriteLies | app/workers/queue.py:179-186 | The race in its smallest form: the job becomes visible before its RETRYING status is written, so the write can land while a worker already runs it. |
| Promptness.TakenInTurn | app/workers/queue.py:98-114 | From any state with a ready job whose RETRYING write is owed, workers popping in score order get to it and the late write then misleads, whatever else is queued or running. |
| Races.StatusCanMislead | app/workers/queue.py:179-186 | A state in which a running job is announced as RETRYING is reachable from the empty queue, with one promoter as with several. |
| JobQueues.Redis.ZPopMin | app/workers/queue.py:110-114 | Takes a member of least score among those of the type, or reports that there is none; nothing else changes. |
| JobQueues.Redis.ZRangeDue | app/workers/queue.py:129-132 | A delayed member of least score if it is due, none if nothing is due. |
| JobQueues.JobQueue.Enqueue | app/workers/queue.py:68-104 | The new fields: a job with this id, type, payload and priority and no attempts in the ready set at 1, 5 or 10 + t/10¹², or in the delayed set at its due time; that id PENDING or RETRYING with the payload's short code and url id; enqueued one higher; all else unchanged; nothing at all without Redis. |
| JobQueues.JobQueue.Dequeue | app/workers/queue.py:106-123 | None exactly when the type has no ready job; otherwise a least-score job, removed from the ready set, its id RUNNING, dequeued one higher, all else unchanged. |
| JobQueues.JobQueue.DequeueDelayed | app/workers/queue.py:125-142 | Moves the earliest due job and only it to the ready set at its score, leaves the store alone when none is due, and always returns nothing. |
| JobQueues.JobQueue.Complete | app/workers/queue.py:144-151 | That id COMPLETED with any earlier error kept, completed one higher, all queues unchanged. |
| JobQueues.JobQueue.Fail | app/workers/queue.py:153-194 | One more attempt and the error's first 500 characters on the job; on the fifth it heads the dead list as FAILED, before that it is delayed by 10, 20, 40 or 80 seconds as RETRYING; one counter moves and nothing else. |
| JobQueues.JobQueue.Cancel | app/workers/queue.py:208-212 | Rewrites the status record and leaves every queue untouched. |
| JobQueues.EventBus.Publish | app/events/bus.py:54-67 | The whole new store: one new ready job per registry entry, with the entry's type and priority, the event's payload, its score and a PENDING status of its own; enqueued higher by their number; all else unchanged. |
| JobQueues.PollGroup | app/workers/consumers.py:42-53 | One turn of a consumer: serves the first type of its group that has a ready job, and is idle exactly when none has. |
| JobQueues.EnqueueIsItsCoroutine | app/workers/queue.py:68-104 | The effect of an enqueue without delay is that of its coroutine's steps run without interruption. |
| JobQueues.DelayedEnqueueIsItsCoroutine | app/workers/queue.py:92-104 | The same for an enqueue with a delay. |
| JobQueues.DequeueIsItsCoroutine | app/workers/queue.py:106-123 | The same for taking a job. |
| JobQueues.CompleteIsItsCoroutine | app/workers/queue.py:144-151 | The same for completing. |
| JobQueues.FailIsItsCoroutine | app/workers/queue.py:153-194 | The same for failing, in both branches. |
| JobQueues.PromotionIsItsCoroutine | app/workers/queue.py:125-142 | The same for promoting. |
| Redirects.CodesKeepTheirRow | app/repositories/url.py:41-45 | In every run, with soft deletes, stale entries, pending fills and warm jobs, a short code bound to a row id stays bound to it. |
| Redirects.ResolveNamesTheRow | app/services/url.py:146-190 | The id any successful resolve returns, from cache or database, is the id of the row with that code. |
| Redirects.AlikeIsForGood | app/services/url.py:146-190 | The agreement between an entry and a row means exactly that they redirect alike now and at every later time. |
| Redirects.RunKeepsCoherence | app/services/url.py:107-113 | Over every run each live cache entry agrees with its row for now and later, or ends within one TTL of a step that left it stale. |
| Redirects.DirtyIffStale | app/workers/handlers.py:300-327 | A warm write, a miss's fill, or the commit of a change or of an expiry cleanup is counted as such a step if and only if it leaves a live entry that leads visitors elsewhere than its row, now or later. |
| Redirects.StalenessIsBounded | app/workers/handlers.py:240-328 | If cache-first and database-only resolvers disagree on a redirect, then within the last TTL that code saw a misfitting warm write, a miss filled after its row changed, or a change or expiry cleanup committed under an entry that does not fit (or its creation is uncommitted). |
| Redirects.CleanRunsAreTransparent | app/services/url.py:146-190 | Over every run without such steps for the code, both resolvers redirect alike, through creates, updates, deletes, misses, warm jobs, ticks, evictions and overlapping expiry cleanups. |
| Redirects.WarmRevivesDeletedLink | app/workers/handlers.py:246-252 | From the empty system, a warm job after a soft delete is reachable and alone turns agreement into disagreement. |
| Redirects.OvertakenFillRevivesDeletedLink | app/services/url.py:168-190 | So is and does a miss that read the row before the delete and fills the cache after it. |
| Redirects.OvertakenCommitRevivesDeletedLink | app/services/url.py:267-270 | So does the commit of a delete after a whole miss in between its cache removal and its commit. |
| Redirects.OvertakenSweepKeepsDeadLink | app/workers/handlers.py:307-327 | So does a cleanup that selected an expired link and commits after the owner extended it and a visitor cached it again. |
| UrlServices.CacheService.Get | app/services/cache.py:34-46 | An entry exactly while its time to live runs; a miss without Redis. |
| UrlServices.CacheService.Set | app/services/cache.py:48-64 | Replaces one key, valid for the TTL; does nothing without Redis. |
| UrlServices.CacheService.Delete | app/services/cache.py:66-74 | Removes one key and nothing else. |
| UrlServices.SyncedIsTransparent | app/services/url.py:146-190 | While entries and rows are synced, no visitor can tell the cache-first resolver from the database-only one. |
| UrlServices.SyncedStays | app/services/url.py:159-165 | Synced stays synced however long one waits, across expiries of links and entries. |
| UrlServices.UrlService.GetOriginalUrl | app/services/url.py:146-190 | Each outcome from the entry's fields on a hit and from the row's on a miss, not found and expired told apart; fills the cache exactly on a successful miss, keeps rows and cache synced, and then redirects like the database. |
| UrlServices.UrlService.GenerateUniqueCode | app/services/url.py:316-322 | The first of ten candidates that no row uses, soft-deleted rows included; an error exactly when all ten are used. |
| UrlServices.UrlService.CreateShortUrl | app/services/url.py:70-113 | Conflict exactly for a live alias, integrity error for a soft-deleted one, no code when all candidates are used; else one new row and its cache entry. Keeps codes, ids and sync. |
| UrlServices.UrlService.UpdateUrl | app/services/url.py:217-239 | Every error case in the source's order; on success the row field by field: target, expiry and active are the given values where given and the old ones where not, id, alias, owner and deletion are as before, and the entry goes. Keeps sync. |
| UrlServices.UrlService.SoftDeleteUrl | app/services/url.py:253-270 | Only the owner deletes; that row becomes deleted and inactive and nothing else changes; afterwards no resolve at any later time redirects the code. Keeps sync. |
| UrlServices.UrlService.WarmCache | app/workers/handlers.py:240-252 | Writes the payload entry; keeps the cache synced if and only if the row is live, active, without expiry and still has the payload's target. |
| UrlServices.UrlService.InvalidateCache | app/services/cache_invalidation.py:27-49 | Drops the redirect entry of the code and keeps sync. |
| UrlServices.UrlService.ExpiredCleanup | app/workers/handlers.py:300-327 | Deactivates exactly the live, active rows whose expiry has passed, changes nothing else, and keeps the (untouched) cache synced. |
| UrlServices.ChangeIsItsSteps | app/services/url.py:236-239 | An update or delete method is its two machine steps with nothing in between, and is then never stale. |
| UrlServices.CreateIsItsSteps | app/services/url.py:86-113 | A creation is its insert and commit steps with nothing in between: one row, its entry, its payload for the warm job. |
| UrlServices.CacheJobsAreSteps | app/workers/handlers.py:240-270 | INVALIDATE_CACHE and WARM_CACHE are one machine step each with the effect of the methods, and leave the rows alone. |
| UrlServices.MissIsItsSteps | app/services/url.py:168-190 | A miss resolved in one go is its read and fill steps, and is then never stale. |
| UrlServices.SweepIsItsSteps | app/workers/handlers.py:307-327 | An expiry cleanup run in one go is its selection and commit steps, deactivates exactly what it selected, and over synced entries is never stale. |
| Aggregation.CutIsSmall | app/services/analytics_aggregation.py:55-58 | A value cut from the top n of a counter holds at most one (n+1)-th of its sum, however ties fall. |
| Aggregation.DayError | app/services/analytics_aggregation.py:55-58 | A day's stored count of any value is never too large and misses at most floor(total/21). |
| Aggregation.DirectIsMergedPlusMissing | app/services/analytics_aggregation.py:142-152 | Counting the log directly over the days is the merged count plus what the daily cuts lost, value by value. |
| Aggregation.MergeError | app/services/analytics_aggregation.py:136-152 | For every value and every set of days the merged count lies between h − Σ floor(total/21) and h, where h is the number of clicks in the log whose column holds the value ("Unknown" for an empty one); with at most 20 distinct values a day it is h. |
| Aggregation.ShownByHits | app/services/analytics_aggregation.py:55-58 | The values of a day's breakdown are those that some click of the link shows that day. |
| Aggregation.TotalsExact | app/services/analytics_aggregation.py:129-133 | The dashboard's total is the number of the link's clicks in the log on those days. |
| Aggregation.MergedMass | app/services/analytics_aggregation.py:142-152 | The merged counts never add up to more than the clicks. |
| Aggregation.DashboardGuarantee | app/services/analytics_aggregation.py:154-159 | A value on the top ten is off by at most the daily losses; one that is not on it has at most one eleventh of all clicks plus the losses. |
| Aggregation.UniqueVisitorsOvercount | app/services/analytics_aggregation.py:129-133 | The summed unique visitors are at least the distinct visitors, and equal them if and only if nobody came on two of the days. |
| Aggregation.RepeatsReturn | app/services/analytics_aggregation.py:50-53 | A day's repeat visitors are those with more than one click in the log that day. |
| AnalyticsServices.MostCommon | app/services/analytics_aggregation.py:55-58 | The loop returns n largest counts, all of them when there are fewer. |
| AnalyticsServices.MergeInto | app/services/analytics_aggregation.py:147-152 | The merge loop adds one breakdown to the running counter, key by key. |
| AnalyticsServices.AnalyticsService.AggregateUrlForDate | app/services/analytics_aggregation.py:33-90 | The upserted row says what the log says for that link and day; no other row changes. |
| AnalyticsServices.AnalyticsService.AggregateAllUrls | app/services/analytics_aggregation.py:92-111 | Every link with a click that day gets an up-to-date row and the result counts them; rows of other days and of links without a click that day stay, and no other row appears. |
| AnalyticsServices.AnalyticsService.GetAggregatedDashboard | app/services/analytics_aggregation.py:113-159 | The loops compute the three totals, the day-by-day series and a top ten of the merged breakdowns of exactly the rows in range. |
| RateLimiting.AdmissionBound | app/middleware/rate_limiter.py:78-97 | If timestamps are distinct and at most d out of order, and around every expiry of the key at least W − d apart, at most max_requests are admitted in any window of length W − d, although the set is pruned and its key expires. |
| RateLimiting.LaggingClocksBound | app/middleware/rate_limiter.py:78-97 | So it is whenever between any two requests the host's clock shows at most d less than the store's: any offset, drift that gains, delays and losses up to d. |
| RateLimiting.ConstantOffsetLags | app/middleware/rate_limiter.py:80-92 | A constant offset with delays up to d is such a pair of clocks. |
| RateLimiting.PrunedSetRefinesLog | app/middleware/rate_limiter.py:83-97 | With distinct timestamps in order, and no key expiry in a pause that the timestamps do not show, a request is admitted exactly when the full log holds at most max_requests in (now − W, now]; offsets and delays are otherwise free. |
| RateLimiting.DecisionIsLogCount | app/middleware/rate_limiter.py:83-97 | Without distinctness: exactly when the distinct timestamps of the full log in that window are at most max_requests. |
| RateLimiting.IdleIsAdmitted | app/middleware/rate_limiter.py:92 | A client idle for W is admitted whenever the limit is at least one, whatever the skew. |
| RateLimiting.OneInstantIsOneMember | app/middleware/rate_limiter.py:88 | Any number of requests with one timestamp are one member, and all are admitted. |
| RateLimiting.RateLimiter.Dispatch | app/middleware/rate_limiter.py:65-122 | Each request's decision is that of the client's whole log; other clients are untouched, exempt paths and a missing store leave no trace, and the advertised retry delay is always 0. |
| EventStream.SplitResumes | frontend/hooks/useLinkEvents.ts:74-76 | Splitting the text so far at newlines can be resumed from the unfinished last piece, whatever the next chunk. |
| EventStream.HandleLines | frontend/hooks/useLinkEvents.ts:78-87 | Hands on, in order, the data lines whose text parses. |
| EventStream.ReadEvents | frontend/hooks/useLinkEvents.ts:68-88 | For every chunking the loop has handled exactly the complete lines of the text so far and keeps the rest. |
| EventStream.Generate | app/api/v1/events.py:26-56 | The generator prints the connection message, then one frame per message and one ping per empty poll; one error frame without a store. |
| EventStream.PrefixDelivers | frontend/hooks/useLinkEvents.ts:70-88 | After any prefix of the stream the client has handled exactly the messages whose lines are complete, in order. |
| EventStream.WholeStreamDelivers | app/api/v1/events.py:38-55 | For newline-free messages the whole stream delivers exactly the messages, in order, pings skipped. |
| EventStream.StandardParserAgrees | app/api/v1/events.py:38-55 | A parser that follows section 9.2.6 of the HTML standard dispatches exactly the messages' texts from the server's stream; pings are comments to it. For text without carriage returns. |
| EventStream.RoundTrip | frontend/hooks/useLinkEvents.ts:66-88 | Server method, any cuts, client method: the client hands over the server's messages. |
| EventStream.RoundTripIffLineSafe | app/api/v1/events.py:52 | The texts arrive unchanged if and only if no message contains a newline. |
| UrlText.UnquoteQuote | app/utils/url_normalize.py:33 | Percent-decoding undoes percent-encoding on all byte text. |
| UrlText.QueryRoundTrip | app/utils/url_normalize.py:28-33 | Parsing an encoded query gives back the pairs, blank keys and values included. |
| UrlGrammar.UnquoteReads | app/utils/url_normalize.py:29-30 | However a text is spelled, with escapes in either case, needless escapes, plus signs or stray percent signs, decoding gives the bytes it says. |
| UrlGrammar.QuoteSpells | app/utils/url_normalize.py:33 | Encoding spells letters, digits and _.-~ bare, blanks as plus, and every other byte with two capital hex digits. |
| UrlGrammar.QueryReads | app/utils/url_normalize.py:29-30 | A query is read entry by entry between ampersands: empty entries skipped, a name without '=' has an empty value, the value may hold further '='. |
| UrlText.SortIsCanonical | app/utils/url_normalize.py:32 | Two pair lists sort alike if and only if they are equal as multisets. |
| UrlText.SortOrders | app/utils/url_normalize.py:32 | The sorted pairs are in code-point order of their keys, and of their values where keys are equal. |
| UrlNormalize.TokensAreClean | app/utils/url_normalize.py:17-20 | What tokenising accepts has a web scheme, a lower-case host free of delimiters, a port that fits and a rooted path. |
| UrlGrammar.TokeniseReads | app/utils/url_normalize.py:17-24 | A URL written from any scheme case, user info, host, port, path, parameters, query and fragment is read as its scheme and host in small letters, its port number, path and query. |
| UrlGrammar.AcceptsExactlyProper | app/utils/url_normalize.py:17-20 | The texts accepted are exactly the URLs written from such components. |
| UrlNormalize.SplitRender | app/utils/url_normalize.py:36-40 | Splitting the rendered canonical form gives back its scheme, host, port, path and query. |
| UrlNormalize.RenderInjective | app/utils/url_normalize.py:36-40 | Different canonical forms are different texts. |
| UrlNormalize.PathsAgree | app/utils/url_normalize.py:24-26 | Two paths have one canonical form if and only if they agree up to trailing slashes and are both root or both not. |
| UrlNormalize.KeptCounts | app/utils/url_normalize.py:28-31 | Dropping tracking parameters leaves every other pair exactly as often as it was there, whatever else the query holds. |
| UrlNormalize.NormalFormsAreComplete | app/utils/url_normalize.py:15-40 | Two URLs normalise to the same text if and only if both are http or neither is, hosts agree ignoring case, ports are equal or both usual for the scheme, paths agree up to trailing slashes, and every parameter not for tracking occurs equally often. |
| UrlGrammar.NormalizeReads | app/utils/url_normalize.py:15-40 | The same on the components as written: user info, path parameters, fragments and letter case in scheme and host make no difference. |
| UrlNormalize.IdempotentIffSettled | app/utils/url_normalize.py:24-40 | Normalising twice equals normalising once if and only if the path is not several slashes only and its canonical last segment has no semicolon; the result is always a URL again. |
| UrlNormalize.DuplicatesShareTheirDestination | app/services/intelligence.py:32-47 | The duplicate query selects exactly the live rows (of that owner, if one is given) created from a URL with the same destination. |
| Collections.NoCycles | app/models/collection.py:23-44 | In a valid state no two different folders contain each other. |
| Collections.ClosedSetCovers | app/models/collection.py:39-44 | A set closed under children that holds the root holds the whole subtree: what the cascade deletes. |
| Collections.CollectionService.CreateCollection | app/services/collections.py:32-52 | Succeeds exactly without a parent or with the owner's own; adds one folder and keeps the forest. |
| Collections.CollectionService.DeleteCollection | app/services/collections.py:75-81 | Removes exactly the folder, its descendants and their items. |
| Collections.CollectionService.AddUrl | app/services/collections.py:83-104 | All four outcomes in the source's order; on success exactly one new item. |
| Collections.CollectionService.RemoveUrl | app/services/collections.py:106-116 | Removes exactly one item linking the url, or fails when there is none. |
| Collections.CollectionService.BulkMove | app/services/collections.py:118-132 | Succeeds exactly when folder and urls are the owner's; then the folder holds its old urls and the given ones, the result is the number of urls that are new in it, and each new item has its list position as order. |
| Collections.CollectionService.ReorderItems | app/services/collections.py:134-144 | Changes only the order of this folder's listed items; the last order given for an item wins. |
| HealthMonitor.OrbitRepeats | app/services/health_monitor.py:66-82 | Two visits to one URL have the same future. |
| HealthMonitor.RevisitsNeverStop | app/services/health_monitor.py:66-82 | A redirect chain that comes back to a URL redirects for ever. |
| HealthMonitor.Follow | app/services/health_monitor.py:58-98 | For any answers: at most ten fetches, none twice, each but the last a 301, 302, 303, 307 or 308 naming the next URL; the loop verdict exactly when one of the first ten URLs repeats an earlier one; else by the answer the chain stops at: BROKEN for 5xx and above, 404, timeout, connection failure and other faults, WARNING for other 4xx and redirects without a location, HEALTHY for the rest, each with its reason; HEALTHY after ten redirects. |
| HealthMonitor.CertificateHidesBreakage | app/services/health_monitor.py:100-111 | A broken verdict ends up as something milder exactly when the certificate has 7 to 29 days left. |
| HealthMonitor.Percent | app/services/health_monitor.py:125 | The availability lies in [0, 100], is 0 only without successes and 100 only without failures. |
| HealthMonitor.PercentIsShare | app/services/health_monitor.py:125 | The availability times the checks is a hundred times the successes. |
| HealthMonitor.HealthRecord.CheckUrl | app/services/health_monitor.py:46-140 | The walk's verdict is stored unless nothing was raised and an https certificate has fewer than 7 (BROKEN) or 30 (WARNING) days left; an unsafe URL is BROKEN without a fetch. Each check adds one, a success only when the final status is HEALTHY, and availability stays their share. |
| Decimals.ReadBack | app/services/auth.py:151 | Reading the decimal rendering gives back the number. |
| Usernames.CandidatesDiffer | app/services/auth.py:146-151 | No two candidate names of one search are equal. |
| Usernames.TriedNamesFit | app/services/auth.py:149-151 | If the first k candidates are all taken, at least k names are taken. |
| Usernames.FindUsername | app/services/auth.py:146-151 | The name is the base, or the base, an underscore and the suffix; the base is the first forty characters of what precedes the first '@' ("user" if empty), an underscore for each that is not a letter, digit, underscore or hyphen. The search ends at every set of names at the first free candidate, with suffix at most their number, and 50 characters below 10⁹ users. |
| Usernames.Accounts.LoginOrRegisterSso | app/services/auth.py:134-173 | Names stay unique over all runs; an existing account signs in under its name or is refused when inactive, a new one gets a fresh name, nobody else changes. |
| Clicks.ClickLaws | app/services/analytics.py:92-105 | However visits interleave: total_clicks never exceeds the click rows, non-repeat clicks never fall short of distinct visitors, and they agree if and only if nobody is marked new twice. |
| Clicks.SerialClicksAreExact | app/repositories/click.py:42-59 | If visits to a link do not overlap: non-repeat clicks = distinct visitors, and total_clicks = click rows while the link is live. |
| Clicks.OverlapMiscounts | app/repositories/url.py:95-100 | From any state, a new visitor's two overlapping visits are both marked new and raise total_clicks by one only. |
| Clicks.DeletedIsNotCounted | app/services/url.py:310-314 | A visit to a link deleted meanwhile adds its click row and leaves the counter as it was. |
| Clicks.RollbackLeavesNoTrace | app/services/analytics.py:77-110 | A visit whose transaction rolls back, whatever it has read, leaves rows and counters as they were. |
| Clicks.VisitIsItsSteps | app/api/v1/router.py:53-67 | A visit on its own records what its reads say. |
| Clicks.ClickStore.TrackClick | app/services/analytics.py:77-110 | Adds one row, marked a repeat exactly when the visitor has an earlier click on the link. |
| Clicks.ClickStore.IncrementClicks | app/services/url.py:310-314 | Adds one to a live link's counter, and nothing for a deleted one. |
| Clicks.ClickStore.Redirect | app/api/v1/router.py:53-67 | Both together keep the books exact and have the effect of the visit's steps. |

## Left out

- StatusLaw.StatusTellsPlace: for prompt runs whose removals find their members; what a read that is not prompt can lead to is `Promptness.ReadIsHarmlessIffPrompt`, and a second promoter's miss `Races.StatusObscureIffTwoPromoters`, but a late write that is overwritten in time, or a copy that is never started, does no harm, and such runs are not described further.
- Tightness.OneEventBoundIsReached: for two or more promoters the run uses as many consumers as there are jobs waiting; the machine does not limit their number, and what a fixed number of consumers can reach is not shown.
- Progress.CanSettle: EXPIRED_CLEANUP is assumed to find at most `maxExpired` rows in one run.
- Clicks.SerialClicksAreExact: assumes that visits to the link do not overlap; after a soft delete only the inequality of `Clicks.ClickLaws` is claimed for the counter.
- RateLimiting.AdmissionBound: counts requests by their own timestamps, which are assumed distinct; a client's limit does not change over the log.
- UrlNormalize.NormalFormsAreComplete: visible ASCII with a plain host; surrounding blanks, control characters, other schemes, missing hosts and IPv6 literals are errors of the model. Percent-escapes are compared as bytes, so escapes that are not UTF-8, which decode to one replacement character, are not identified.
- UrlNormalize.IdempotentIffSettled: for the same texts.
- UrlGrammar.AcceptsExactlyProper: for the texts the model accepts, as above.
- UrlNormalize.DuplicatesShareTheirDestination: for rows created from such texts.
- JobQueues.EventBus.Publish: the broadcast of the event to the pub/sub channels, which stores nothing.
- UrlServices.UrlService.InvalidateCache: the other namespaces the invalidator clears (metadata, health, analytics, summary, search, dashboard), which nothing on the redirect path reads.
- AnalyticsServices.AnalyticsService.GetAggregatedDashboard: the per-day list, whose clicks are the time series and whose unique visitors are the rows' own, and the answer cached for an hour.
- AnalyticsServices.AnalyticsService.AggregateUrlForDate: the day's cities, operating systems, referrers, traffic sources, hours and weekdays, which the dashboard does not merge.
- EventStream.RoundTrip: text after UTF-8 decoding; decoding chunk by chunk and the JSON inside a message are not part of this model.
- EventStream.StandardParserAgrees: for text without carriage returns, which the standard also takes for line ends and the client does not; event names, ids and retry fields do not occur in the stream.
- HealthMonitor.Follow: a URL answers the same throughout one walk; joining a relative location to its base is part of the fetch function.
- HealthMonitor.Percent: the rounding of the availability to two digits.
- Collections.CollectionService.BulkMove: on failure the items added so far are still there; the caller's transaction, which rolls them back, is not part of this model.
- Process crashes, cancelled tasks and Redis faults in the middle of an operation: a popped job is then lost, and the queue promises nothing there.
- The order in which a consumer polls its job types is in `JobQueues.PollGroup` only; in the state machine any worker may take any type.
- Serialisation: jobs are their own set members, so the JSON encoding is taken to be injective and a job's id to be in it. `created_at`, `correlation_id`, `updated_at` and the seven-day expiry of status records are not modelled.
- Ties between equal scores are broken anyhow rather than by member text. `time.time()` is taken not to go back within the queue.
- Database sessions: rows are maps with their unique keys; isolation is that of reading committed rows, a changed row is held until its transaction commits, and transactions do not roll back after a cache write. Inserts of rows by other means than the services are not modelled.
- The caches in front of the dashboard and the summary, which promise nothing beyond their TTL.
- Alias suggestions, trending links, QR images, metadata scraping, AI summaries, profiles, authentication other than the name search, and the user interface: easy claims, plumbing or foreign libraries.
- URL safety checks: whether a URL is safe is an input of the health check.
- Rounding of floating-point scores, timestamps and percentages.
