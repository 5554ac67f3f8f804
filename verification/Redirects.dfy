/**
 The redirect path: link rows in the database, entries with a time to live in the cache, and the
 steps of requests and background jobs that change them. A transaction becomes visible when it
 commits, which is after its cache write or delete; a miss is filled some time after its read, and
 an expiry cleanup commits some time after it selected its rows.
 */
module Redirects {
  import opened Wrappers

  datatype Error = NotFound | Expired | Conflict | Unauthorized | NoFields | Integrity | NoCode

  /** A link row; short codes are unique in the table, so rows are kept by code. */
  datatype Row = Row(
    id: nat, original: string, alias: Option<string>, owner: Option<nat>,
    expires: Option<real>, active: bool, deleted: bool)

  datatype Entry = Entry(original: string, active: bool, expires: Option<real>, urlId: nat)

  datatype Cached = Cached(entry: Entry, until: real)

  type Table = map<string, Row>
  type Cache = map<string, Cached>

  /** The columns an update or a soft delete sets; None leaves a column alone. */
  datatype Patch = Patch(original: Option<string>, expires: Option<Option<real>>, active: Option<bool>, delete: bool)

  datatype Target = Target(original: string, urlId: nat)

  predicate Past(expires: Option<real>, now: real) {
    expires.Some? && now > expires.value
  }

  /** GET on the cache key: an entry is gone once its time to live has run out. */
  function Lookup(cache: Cache, code: string, now: real): Option<Entry> {
    if code in cache && now < cache[code].until then Some(cache[code].entry) else None
  }

  function EntryAnswer(e: Entry, now: real): Result<Target, Error> {
    if !e.active then Err(NotFound)
    else if Past(e.expires, now) then Err(Expired)
    else Ok(Target(e.original, e.urlId))
  }

  /** The resolver that only asks the database. */
  function DbAnswer(rows: Table, code: string, now: real): Result<Target, Error> {
    if code !in rows || rows[code].deleted then Err(NotFound)
    else if !rows[code].active then Err(NotFound)
    else if Past(rows[code].expires, now) then Err(Expired)
    else Ok(Target(rows[code].original, rows[code].id))
  }

  /** The cache-first resolver. */
  function Answer(rows: Table, cache: Cache, code: string, now: real): Result<Target, Error> {
    match Lookup(cache, code, now)
    case Some(e) => EntryAnswer(e, now)
    case None => DbAnswer(rows, code, now)
  }

  /** What a visitor sees: where the redirect goes, or that there is none. */
  function Redirect(r: Result<Target, Error>): Option<Target> {
    if r.Ok? then Some(r.value) else None
  }

  function EntryOf(row: Row): Entry {
    Entry(row.original, row.active, row.expires, row.id)
  }

  /** The WARM_CACHE payload has no expiry and says active whatever the row says now. */
  function WarmEntry(t: Target): Entry {
    Entry(t.original, true, None, t.urlId)
  }

  function Patched(row: Row, p: Patch): Row {
    row.(original := if p.original.Some? then p.original.value else row.original,
         expires := if p.expires.Some? then p.expires.value else row.expires,
         active := if p.delete then false else if p.active.Some? then p.active.value else row.active,
         deleted := row.deleted || p.delete)
  }

  function Deactivated(row: Row): Row {
    row.(active := false)
  }

  const SOFT_DELETE := Patch(None, None, None, true)

  // ----- when an entry and a row send visitors to the same place for good

  predicate EntryDead(e: Entry, now: real) {
    !e.active || Past(e.expires, now)
  }

  predicate RowDead(row: Row, now: real) {
    row.deleted || !row.active || Past(row.expires, now)
  }

  /**
   Entry and row redirect alike now and at every later time, as long as neither changes: both are
   past redirecting, or both are alive with the same target and the same expiry.
   */
  predicate Alike(e: Entry, row: Row, now: real) {
    if EntryDead(e, now) || RowDead(row, now) then EntryDead(e, now) && RowDead(row, now)
    else e.original == row.original && e.urlId == row.id && e.expires == row.expires
  }

  function RowAnswer(row: Row, now: real): Result<Target, Error> {
    DbAnswer(map["" := row], "", now)
  }

  /** The two redirect apart at this time. */
  predicate ApartAt(e: Entry, row: Row, at: real) {
    Redirect(EntryAnswer(e, at)) != Redirect(RowAnswer(row, at))
  }

  /** `Alike` says exactly that. */
  lemma AlikeIsForGood(e: Entry, row: Row, now: real)
    ensures Alike(e, row, now) <==> forall at: real :: at >= now ==> !ApartAt(e, row, at)
  {
    if !Alike(e, row, now) {
      var at := ApartTime(e, row, now);
      assert at >= now && ApartAt(e, row, at);
    }
  }

  lemma ApartTime(e: Entry, row: Row, now: real) returns (at: real)
    requires !Alike(e, row, now)
    ensures at >= now && ApartAt(e, row, at)
  {
    if EntryDead(e, now) || RowDead(row, now) || e.original != row.original || e.urlId != row.id {
      at := now;
    } else if e.expires.None? {
      at := row.expires.value + 1.0;
    } else if row.expires.None? {
      at := e.expires.value + 1.0;
    } else {
      at := if e.expires.value < row.expires.value then row.expires.value else e.expires.value;
    }
  }

  lemma AlikeLater(e: Entry, row: Row, now: real, later: real)
    requires Alike(e, row, now) && later >= now
    ensures Alike(e, row, later)
  {
  }

  // ----- the machine

  /** A miss in progress: the row as read, to be written to the cache later. */
  datatype Fill = Fill(code: string, row: Row)

  /**
   `inserts` and `patches` are transactions that have touched the cache and not yet committed,
   `sweeps` the codes that expiry cleanups have selected and not yet deactivated. `created` keeps the
   LinkCreated payloads, from which WARM_CACHE jobs are made. `dirty` is history: when a code last
   saw one of the steps after which its entry is stale.
   */
  datatype State = State(
    rows: Table, cache: Cache, now: real,
    inserts: Table, patches: map<string, Patch>, fills: map<nat, Fill>, sweeps: map<nat, set<string>>,
    created: map<string, Target>, dirty: map<string, real>)

  datatype Action =
    | Tick(now: real)
    | Evict(code: string)
    | Create(code: string, row: Row)
    | CommitCreate(code: string)
    | Change(code: string, patch: Patch)
    | CommitChange(code: string)
    | MissRead(reader: nat, code: string)
    | FillCache(reader: nat)
    | Warm(code: string)
    | Invalidate(code: string)
    | SweepRead(job: nat)
    | SweepCommit(job: nat)

  ghost predicate Init(s: State) {
    && s.rows == map[] && s.cache == map[] && s.inserts == map[] && s.patches == map[] && s.fills == map[]
    && s.sweeps == map[] && s.created == map[] && s.dirty == map[]
  }

  /** A new row: its code and id are unused, and an alias is the short code itself. */
  predicate InsertOk(s: State, code: string, row: Row) {
    && code !in s.rows && code !in s.inserts
    && (forall k :: k in s.rows ==> s.rows[k].id != row.id)
    && (forall k :: k in s.inserts ==> s.inserts[k].id != row.id)
    && row.active && !row.deleted
    && (row.alias.Some? ==> row.alias.value == code)
  }

  /** What the cleanup selects: live, active rows whose expiry has passed. */
  function Expirable(rows: Table, now: real): set<string> {
    set c | c in rows && Past(rows[c].expires, now) && rows[c].active && !rows[c].deleted
  }

  /** Whoever changes a row holds it until the commit, so neither changes nor cleanups overlap on it. */
  predicate Enabled(s: State, a: Action) {
    match a
    case Tick(now) => now >= s.now
    case Evict(_) => true
    case Create(code, row) => InsertOk(s, code, row)
    case CommitCreate(code) => code in s.inserts && code !in s.rows
    case Change(code, _) => code in s.rows && code !in s.patches
    case CommitChange(code) => code in s.patches && code in s.rows
    case MissRead(reader, code) =>
      reader !in s.fills && Lookup(s.cache, code, s.now).None? && DbAnswer(s.rows, code, s.now).Ok?
    case FillCache(reader) => reader in s.fills
    case Warm(code) => code in s.created
    case Invalidate(_) => true
    case SweepRead(job) => job !in s.sweeps
    case SweepCommit(job) => job in s.sweeps && forall c :: c in s.sweeps[job] ==> c in s.rows && c !in s.patches
  }

  /** The row of a code, committed or not. */
  function RowOf(s: State, code: string): Option<Row> {
    if code in s.rows then Some(s.rows[code]) else if code in s.inserts then Some(s.inserts[code]) else None
  }

  predicate AlikeRow(e: Entry, row: Option<Row>, now: real) {
    row.Some? && Alike(e, row.value, now)
  }

  /**
   The four steps after which a cached answer is stale: a warm write whose payload is not what the row
   says; the fill of a miss whose row has changed in between; the commit of a change or of a cleanup
   under a live entry that does not fit the new row.
   */
  predicate Dirty(s: State, a: Action, code: string) {
    match a
    case Warm(c) => c == code && c in s.created && !AlikeRow(WarmEntry(s.created[c]), RowOf(s, c), s.now)
    case FillCache(reader) =>
      reader in s.fills && s.fills[reader].code == code && !AlikeRow(EntryOf(s.fills[reader].row), RowOf(s, code), s.now)
    case CommitChange(c) =>
      && c == code && c in s.rows && c in s.patches
      && Misfits(Lookup(s.cache, c, s.now), Patched(s.rows[c], s.patches[c]), s.now)
    case SweepCommit(job) =>
      && job in s.sweeps && code in s.sweeps[job] && code in s.rows
      && Misfits(Lookup(s.cache, code, s.now), Deactivated(s.rows[code]), s.now)
    case _ => false
  }

  predicate Misfits(e: Option<Entry>, row: Row, now: real) {
    e.Some? && !Alike(e.value, row, now)
  }

  function Stored(s: State, ttl: real, code: string, e: Entry): Cache {
    s.cache[code := Cached(e, s.now + ttl)]
  }

  function Swept(rows: Table, codes: set<string>): Table {
    map c | c in rows :: if c in codes then Deactivated(rows[c]) else rows[c]
  }

  function Stepped(ttl: real, s: State, a: Action): State
    requires Enabled(s, a)
  {
    match a
    case Tick(now) => s.(now := now)
    case Evict(code) => s.(cache := s.cache - {code})
    case Create(code, row) =>
      s.(inserts := s.inserts[code := row], cache := Stored(s, ttl, code, EntryOf(row)),
         created := s.created[code := Target(row.original, row.id)])
    case CommitCreate(code) => s.(rows := s.rows[code := s.inserts[code]], inserts := s.inserts - {code})
    case Change(code, patch) => s.(patches := s.patches[code := patch], cache := s.cache - {code})
    case CommitChange(code) =>
      s.(rows := s.rows[code := Patched(s.rows[code], s.patches[code])], patches := s.patches - {code})
    case MissRead(reader, code) => s.(fills := s.fills[reader := Fill(code, s.rows[code])])
    case FillCache(reader) =>
      var f := s.fills[reader];
      s.(cache := Stored(s, ttl, f.code, EntryOf(f.row)), fills := s.fills - {reader})
    case Warm(code) => s.(cache := Stored(s, ttl, code, WarmEntry(s.created[code])))
    case Invalidate(code) => s.(cache := s.cache - {code})
    case SweepRead(job) => s.(sweeps := s.sweeps[job := Expirable(s.rows, s.now)])
    case SweepCommit(job) => s.(rows := Swept(s.rows, s.sweeps[job]), sweeps := s.sweeps - {job})
  }

  /** The codes a step could make stale. */
  function Concerned(s: State, a: Action): set<string> {
    match a
    case Warm(c) => {c}
    case FillCache(reader) => if reader in s.fills then {s.fills[reader].code} else {}
    case CommitChange(c) => {c}
    case SweepCommit(job) => if job in s.sweeps then s.sweeps[job] else {}
    case _ => {}
  }

  function DirtyCodes(s: State, a: Action): set<string> {
    set c | c in Concerned(s, a) && Dirty(s, a, c)
  }

  function Mark(dirty: map<string, real>, codes: set<string>, now: real): map<string, real> {
    map c | c in dirty.Keys + codes :: if c in codes then now else dirty[c]
  }

  function Next(ttl: real, s: State, a: Action): State
    requires Enabled(s, a)
  {
    Stepped(ttl, s, a).(dirty := Mark(s.dirty, DirtyCodes(s, a), s.now))
  }

  ghost predicate Runs(ttl: real, s: State, acts: seq<Action>)
    decreases |acts|
  {
    acts == [] || (Enabled(s, acts[0]) && Runs(ttl, Next(ttl, s, acts[0]), acts[1..]))
  }

  ghost function End(ttl: real, s: State, acts: seq<Action>): State
    requires Runs(ttl, s, acts)
    decreases |acts|
  {
    if acts == [] then s else End(ttl, Next(ttl, s, acts[0]), acts[1..])
  }

  // ----- one code names one row for ever

  /** The row a code belongs to, committed or not. */
  predicate Bound(s: State, code: string, id: nat) {
    (code in s.rows && s.rows[code].id == id) || (code in s.inserts && s.inserts[code].id == id)
  }

  ghost predicate Binding(s: State) {
    && (forall c :: c in s.rows ==> c !in s.inserts)
    && (forall c :: c in s.cache ==> Bound(s, c, s.cache[c].entry.urlId))
    && (forall r :: r in s.fills ==> Bound(s, s.fills[r].code, s.fills[r].row.id))
    && (forall c :: c in s.created ==> Bound(s, c, s.created[c].urlId))
  }

  lemma BoundStays(ttl: real, s: State, a: Action, code: string, id: nat)
    requires Binding(s) && Enabled(s, a) && Bound(s, code, id)
    ensures Bound(Next(ttl, s, a), code, id)
  {
  }

  /** The step writes this code's cache entry. */
  predicate Writes(s: State, a: Action, code: string) {
    match a
    case Create(c, _) => c == code
    case FillCache(reader) => reader in s.fills && s.fills[reader].code == code
    case Warm(c) => c == code
    case _ => false
  }

  lemma EntriesStay(ttl: real, s: State, a: Action, c: string)
    requires Enabled(s, a) && c in Next(ttl, s, a).cache && !Writes(s, a, c)
    ensures c in s.cache && Next(ttl, s, a).cache[c] == s.cache[c]
  {
  }

  lemma WrittenIsBound(ttl: real, s: State, a: Action, c: string)
    requires Binding(s) && Enabled(s, a) && Writes(s, a, c) && c in Next(ttl, s, a).cache
    ensures Bound(Next(ttl, s, a), c, Next(ttl, s, a).cache[c].entry.urlId)
  {
    match a
    case Create(_, _) =>
    case FillCache(reader) => BoundStays(ttl, s, a, c, s.fills[reader].row.id);
    case Warm(_) => BoundStays(ttl, s, a, c, s.created[c].urlId);
  }

  lemma CacheStaysBound(ttl: real, s: State, a: Action, c: string)
    requires Binding(s) && Enabled(s, a) && c in Next(ttl, s, a).cache
    ensures Bound(Next(ttl, s, a), c, Next(ttl, s, a).cache[c].entry.urlId)
  {
    if Writes(s, a, c) {
      WrittenIsBound(ttl, s, a, c);
    } else {
      EntriesStay(ttl, s, a, c);
      BoundStays(ttl, s, a, c, s.cache[c].entry.urlId);
    }
  }

  lemma FillsStayBound(ttl: real, s: State, a: Action, r: nat)
    requires Binding(s) && Enabled(s, a) && r in Next(ttl, s, a).fills
    ensures var f := Next(ttl, s, a).fills[r]; Bound(Next(ttl, s, a), f.code, f.row.id)
  {
    if r in s.fills { BoundStays(ttl, s, a, s.fills[r].code, s.fills[r].row.id); }
  }

  lemma CreatedStaysBound(ttl: real, s: State, a: Action, c: string)
    requires Binding(s) && Enabled(s, a) && c in Next(ttl, s, a).created
    ensures Bound(Next(ttl, s, a), c, Next(ttl, s, a).created[c].urlId)
  {
    if c in s.created { BoundStays(ttl, s, a, c, s.created[c].urlId); }
  }

  lemma StepKeepsBinding(ttl: real, s: State, a: Action)
    requires Binding(s) && Enabled(s, a)
    ensures Binding(Next(ttl, s, a))
  {
    var s' := Next(ttl, s, a);
    forall c | c in s'.cache ensures Bound(s', c, s'.cache[c].entry.urlId) { CacheStaysBound(ttl, s, a, c); }
    forall r | r in s'.fills ensures Bound(s', s'.fills[r].code, s'.fills[r].row.id) { FillsStayBound(ttl, s, a, r); }
    forall c | c in s'.created ensures Bound(s', c, s'.created[c].urlId) { CreatedStaysBound(ttl, s, a, c); }
  }

  /** In every run, soft deletes, stale entries and warm jobs included, no code ever changes its row. */
  lemma {:induction false} CodesKeepTheirRow(ttl: real, s: State, acts: seq<Action>, code: string, id: nat)
    requires Binding(s) && Runs(ttl, s, acts)
    ensures Binding(End(ttl, s, acts))
    ensures Bound(s, code, id) ==> Bound(End(ttl, s, acts), code, id)
    decreases |acts|
  {
    if acts != [] {
      StepKeepsBinding(ttl, s, acts[0]);
      if Bound(s, code, id) { BoundStays(ttl, s, acts[0], code, id); }
      CodesKeepTheirRow(ttl, Next(ttl, s, acts[0]), acts[1..], code, id);
    }
  }

  /** The id returned by any successful resolve is the id of the row with that code. */
  lemma ResolveNamesTheRow(ttl: real, s: State, acts: seq<Action>, code: string)
    requires Init(s) && Runs(ttl, s, acts)
    ensures var e := End(ttl, s, acts);
            var r := Answer(e.rows, e.cache, code, e.now);
            r.Ok? ==> Bound(e, code, r.value.urlId)
  {
    CodesKeepTheirRow(ttl, s, acts, code, 0);
  }

  // ----- coherence

  predicate Coherent(s: State, code: string)
    requires code in s.cache
  {
    AlikeRow(s.cache[code].entry, RowOf(s, code), s.now)
  }

  /** A live entry is coherent, or a dirty step for its code lies less than one TTL before its end. */
  predicate EntryLaw(ttl: real, s: State, code: string) {
    Lookup(s.cache, code, s.now).Some? ==>
      Coherent(s, code) || (code in s.dirty && s.cache[code].until <= s.dirty[code] + ttl)
  }

  ghost predicate Coherence(ttl: real, s: State) {
    && (forall c :: c in s.cache ==> EntryLaw(ttl, s, c))
    && (forall c :: c in s.cache ==> s.cache[c].until <= s.now + ttl)
    && (forall c :: c in s.dirty ==> s.dirty[c] <= s.now)
  }

  /** Dirty marks only move forward. */
  lemma DirtStays(ttl: real, s: State, a: Action, c: string)
    requires Coherence(ttl, s) && Enabled(s, a) && c in s.dirty
    ensures c in Next(ttl, s, a).dirty && Next(ttl, s, a).dirty[c] >= s.dirty[c]
  {
  }

  lemma DirtyStepMarks(ttl: real, s: State, a: Action, c: string)
    requires Enabled(s, a)
    ensures Dirty(s, a, c) ==> c in Next(ttl, s, a).dirty && Next(ttl, s, a).dirty[c] == s.now
    ensures !Dirty(s, a, c) ==> (c in Next(ttl, s, a).dirty <==> c in s.dirty)
    ensures !Dirty(s, a, c) && c in s.dirty ==> Next(ttl, s, a).dirty[c] == s.dirty[c]
  {
  }

  /** A row changes by the commit of a change or a cleanup; the commit of its creation leaves it as it is. */
  lemma RowStays(ttl: real, s: State, a: Action, c: string)
    requires Binding(s) && Enabled(s, a) && RowOf(s, c).Some? && a != CommitChange(c)
    ensures RowOf(Next(ttl, s, a), c) == RowOf(s, c)
            || (a.SweepCommit? && c in s.sweeps[a.job] && c in s.rows && RowOf(Next(ttl, s, a), c) == Some(Deactivated(s.rows[c])))
  {
  }

  lemma ClockAdvances(ttl: real, s: State, a: Action)
    requires Enabled(s, a)
    ensures Next(ttl, s, a).now >= s.now
  {
  }

  /** No step but a dirty one breaks the agreement of an entry it does not write. */
  lemma AgreementStays(ttl: real, s: State, a: Action, c: string)
    requires Binding(s) && Enabled(s, a) && c in s.cache && Coherent(s, c) && Lookup(s.cache, c, s.now).Some?
    requires !Writes(s, a, c) && !Dirty(s, a, c) && c in Next(ttl, s, a).cache
    ensures Coherent(Next(ttl, s, a), c)
  {
    EntriesStay(ttl, s, a, c);
    ClockAdvances(ttl, s, a);
    if a != CommitChange(c) {
      RowStays(ttl, s, a, c);
      AlikeLater(s.cache[c].entry, RowOf(s, c).value, s.now, Next(ttl, s, a).now);
    }
  }

  lemma WrittenEntryLaw(ttl: real, s: State, a: Action, c: string)
    requires ttl > 0.0 && Coherence(ttl, s) && Binding(s) && Enabled(s, a) && Writes(s, a, c)
    ensures var s' := Next(ttl, s, a);
            c in s'.cache && s'.cache[c].until == s.now + ttl && s'.now == s.now && EntryLaw(ttl, s', c)
  {
    DirtyStepMarks(ttl, s, a, c);
  }

  lemma EntryLawKept(ttl: real, s: State, a: Action, c: string)
    requires ttl > 0.0 && Coherence(ttl, s) && Binding(s) && Enabled(s, a) && c in Next(ttl, s, a).cache
    ensures EntryLaw(ttl, Next(ttl, s, a), c)
    ensures Next(ttl, s, a).cache[c].until <= Next(ttl, s, a).now + ttl
  {
    var s' := Next(ttl, s, a);
    if Writes(s, a, c) {
      WrittenEntryLaw(ttl, s, a, c);
    } else {
      EntriesStay(ttl, s, a, c);
      assert EntryLaw(ttl, s, c);
      DirtyStepMarks(ttl, s, a, c);
      ClockAdvances(ttl, s, a);
      if Lookup(s'.cache, c, s'.now).Some? {
        if c in s.dirty { DirtStays(ttl, s, a, c); }
        if Coherent(s, c) && !Dirty(s, a, c) { AgreementStays(ttl, s, a, c); }
      }
    }
  }

  lemma StepKeepsCoherence(ttl: real, s: State, a: Action)
    requires ttl > 0.0 && Coherence(ttl, s) && Binding(s) && Enabled(s, a)
    ensures Coherence(ttl, Next(ttl, s, a))
  {
    var s' := Next(ttl, s, a);
    forall c | c in s'.cache ensures EntryLaw(ttl, s', c) && s'.cache[c].until <= s'.now + ttl {
      EntryLawKept(ttl, s, a, c);
    }
    DirtKept(ttl, s, a);
  }

  lemma DirtKept(ttl: real, s: State, a: Action)
    requires Coherence(ttl, s) && Enabled(s, a)
    ensures forall c :: c in Next(ttl, s, a).dirty ==> Next(ttl, s, a).dirty[c] <= Next(ttl, s, a).now
  {
    var s' := Next(ttl, s, a);
    ClockAdvances(ttl, s, a);
    forall c | c in s'.dirty ensures s'.dirty[c] <= s'.now { DirtyStepMarks(ttl, s, a, c); }
  }

  lemma {:induction false} RunKeepsCoherence(ttl: real, s: State, acts: seq<Action>)
    requires ttl > 0.0 && Coherence(ttl, s) && Binding(s) && Runs(ttl, s, acts)
    ensures Coherence(ttl, End(ttl, s, acts)) && Binding(End(ttl, s, acts))
    decreases |acts|
  {
    if acts != [] {
      StepKeepsCoherence(ttl, s, acts[0]);
      StepKeepsBinding(ttl, s, acts[0]);
      RunKeepsCoherence(ttl, Next(ttl, s, acts[0]), acts[1..]);
    }
  }

  lemma AlikeRedirectsAlike(e: Entry, rows: Table, code: string, now: real)
    requires code in rows && Alike(e, rows[code], now)
    ensures Redirect(EntryAnswer(e, now)) == Redirect(DbAnswer(rows, code, now))
  {
  }

  /** Both resolvers send the visitor to the same place, or both to none. */
  predicate Transparent(s: State, code: string) {
    Redirect(Answer(s.rows, s.cache, code, s.now)) == Redirect(DbAnswer(s.rows, code, s.now))
  }

  /** Whether one of the last steps of the run, less than one TTL ago, was dirty for the code. */
  ghost predicate DirtyWithin(ttl: real, s: State, acts: seq<Action>, code: string)
    requires Runs(ttl, s, acts)
  {
    exists k :: 0 <= k < |acts| && DirtyAt(ttl, s, acts, k, code) && TimeAt(ttl, s, acts, k) > End(ttl, s, acts).now - ttl
  }

  ghost function StateAt(ttl: real, s: State, acts: seq<Action>, k: nat): State
    requires Runs(ttl, s, acts) && k <= |acts|
    decreases k
  {
    if k == 0 then s else StateAt(ttl, Next(ttl, s, acts[0]), acts[1..], k - 1)
  }

  ghost predicate DirtyAt(ttl: real, s: State, acts: seq<Action>, k: nat, code: string)
    requires Runs(ttl, s, acts) && k < |acts|
  {
    Dirty(StateAt(ttl, s, acts, k), acts[k], code)
  }

  ghost function TimeAt(ttl: real, s: State, acts: seq<Action>, k: nat): real
    requires Runs(ttl, s, acts) && k < |acts|
  {
    StateAt(ttl, s, acts, k).now
  }

  /** Step k of the run is dirty for the code and happens at the given time. */
  ghost predicate Marked(ttl: real, s: State, acts: seq<Action>, k: nat, code: string, at: real) {
    k < |acts| && Runs(ttl, s, acts) && DirtyAt(ttl, s, acts, k, code) && TimeAt(ttl, s, acts, k) == at
  }

  /** The history field records a dirty step of the run, unless it was there from the start. */
  lemma {:induction false} DirtyIsRecorded(ttl: real, s: State, acts: seq<Action>, code: string) returns (k: nat)
    requires Runs(ttl, s, acts) && code in End(ttl, s, acts).dirty
    requires code !in s.dirty || s.dirty[code] != End(ttl, s, acts).dirty[code]
    ensures Marked(ttl, s, acts, k, code, End(ttl, s, acts).dirty[code])
    decreases |acts|
  {
    var s', rest := Next(ttl, s, acts[0]), acts[1..];
    if code in s'.dirty && s'.dirty[code] == End(ttl, s', rest).dirty[code] {
      k := 0;
      FirstMarks(ttl, s, acts, code);
    } else {
      k := DirtyIsRecorded(ttl, s', rest, code);
      OneLater(ttl, s, acts, k, code, End(ttl, s', rest).dirty[code]);
      k := k + 1;
    }
  }

  lemma FirstMarks(ttl: real, s: State, acts: seq<Action>, code: string)
    requires Runs(ttl, s, acts) && acts != [] && code in Next(ttl, s, acts[0]).dirty
    requires code !in s.dirty || s.dirty[code] != Next(ttl, s, acts[0]).dirty[code]
    ensures Marked(ttl, s, acts, 0, code, Next(ttl, s, acts[0]).dirty[code])
  {
    DirtyStepMarks(ttl, s, acts[0], code);
    assert StateAt(ttl, s, acts, 0) == s;
  }

  lemma OneLater(ttl: real, s: State, acts: seq<Action>, k: nat, code: string, at: real)
    requires Runs(ttl, s, acts) && acts != [] && Marked(ttl, Next(ttl, s, acts[0]), acts[1..], k, code, at)
    ensures Marked(ttl, s, acts, k + 1, code, at)
  {
    assert StateAt(ttl, s, acts, k + 1) == StateAt(ttl, Next(ttl, s, acts[0]), acts[1..], k);
  }

  /**
   Bounded staleness: if after any run the cache-first resolver and the database disagree about where
   a code redirects, then a dirty step for that code happened less than one TTL ago, or the link's
   own creation is not committed yet.
   */
  lemma StalenessIsBounded(ttl: real, s: State, acts: seq<Action>, code: string)
    requires ttl > 0.0 && Init(s) && Runs(ttl, s, acts)
    ensures var e := End(ttl, s, acts);
            Transparent(e, code) || DirtyWithin(ttl, s, acts, code) || code in e.inserts
  {
    RunKeepsCoherence(ttl, s, acts);
    var e := End(ttl, s, acts);
    if Lookup(e.cache, code, e.now).Some? {
      assert EntryLaw(ttl, e, code);
      if Coherent(e, code) {
        if code in e.rows { AlikeRedirectsAlike(e.cache[code].entry, e.rows, code, e.now); }
      } else {
        var k := DirtyIsRecorded(ttl, s, acts, code);
      }
    }
  }

  /** Without stale warm writes, overtaken fills and overtaken commits the cache is invisible. */
  lemma CleanRunsAreTransparent(ttl: real, s: State, acts: seq<Action>, code: string)
    requires ttl > 0.0 && Init(s) && Runs(ttl, s, acts)
    requires forall k :: 0 <= k < |acts| ==> !DirtyAt(ttl, s, acts, k, code)
    requires code !in End(ttl, s, acts).inserts
    ensures Transparent(End(ttl, s, acts), code)
  {
    StalenessIsBounded(ttl, s, acts, code);
  }


  // ----- the marked steps are exactly the harmful ones

  /** A live entry and its row, left alone, lead visitors apart now or at some later time. */
  ghost predicate Stale(s: State, code: string) {
    var e, row := Lookup(s.cache, code, s.now), RowOf(s, code);
    e.Some? && row.Some? && exists at: real :: at >= s.now && ApartAt(e.value, row.value, at)
  }

  lemma StaleIffNotAlike(s: State, code: string)
    requires RowOf(s, code).Some? && Lookup(s.cache, code, s.now).Some?
    ensures Stale(s, code) <==> !Alike(s.cache[code].entry, RowOf(s, code).value, s.now)
  {
    AlikeIsForGood(s.cache[code].entry, RowOf(s, code).value, s.now);
  }

  /** A warm write, a fill, or the commit of a change or cleanup is dirty exactly when it leaves a stale entry. */
  lemma DirtyIffStale(ttl: real, s: State, a: Action, code: string)
    requires ttl > 0.0 && Binding(s) && Enabled(s, a) && code in Concerned(s, a)
    ensures Dirty(s, a, code) <==> Stale(Next(ttl, s, a), code)
  {
    var s' := Next(ttl, s, a);
    if a.Warm? { assert Bound(s, code, s.created[code].urlId); }
    if a.FillCache? { assert Bound(s, code, s.fills[a.reader].row.id); }
    if Lookup(s'.cache, code, s'.now).Some? { StaleIffNotAlike(s', code); }
  }

  // ----- each kind of marked step, on its own, makes the cache lie

  ghost predicate Leads(ttl: real, s: State, acts: seq<Action>, s': State) {
    Runs(ttl, s, acts) && End(ttl, s, acts) == s'
  }

  ghost predicate Reaches(ttl: real, s: State, s': State) {
    exists acts :: Leads(ttl, s, acts, s')
  }

  lemma {:induction false} RunSnoc(ttl: real, s: State, acts: seq<Action>, a: Action)
    requires Runs(ttl, s, acts) && Enabled(End(ttl, s, acts), a)
    ensures Runs(ttl, s, acts + [a]) && End(ttl, s, acts + [a]) == Next(ttl, End(ttl, s, acts), a)
    decreases |acts|
  {
    if acts == [] {
      assert acts + [a] == [a] && [a][1..] == [];
    } else {
      assert (acts + [a])[1..] == acts[1..] + [a];
      RunSnoc(ttl, Next(ttl, s, acts[0]), acts[1..], a);
    }
  }

  lemma ReachesNext(ttl: real, s: State, mid: State, a: Action, s': State)
    requires Reaches(ttl, s, mid) && Enabled(mid, a) && s' == Next(ttl, mid, a)
    ensures Reaches(ttl, s, s')
  {
    var acts :| Leads(ttl, s, acts, mid);
    RunSnoc(ttl, s, acts, a);
    assert Leads(ttl, s, acts + [a], s');
  }

  predicate SameButDirt(s: State, u: State) {
    s == u.(dirty := s.dirty)
  }

  /** One committed link, not cached, and nobody at work. */
  ghost predicate Quiet(s: State, code: string, row: Row) {
    && s.rows == map[code := row] && s.cache == map[] && s.inserts == map[] && s.patches == map[]
    && s.fills == map[] && s.sweeps == map[] && s.created == map[code := Target(row.original, row.id)]
  }

  function LinkUntil(expires: Option<real>): Row {
    Row(0, "", None, None, expires, true, false)
  }

  // What single steps make of the states in question.

  lemma AfterCreation(ttl: real, s: State, code: string, row: Row) returns (s': State)
    requires Init(s) && row == LinkUntil(row.expires)
    ensures Enabled(s, Create(code, row)) && s' == Next(ttl, s, Create(code, row))
    ensures s'.rows == map[] && s'.inserts == map[code := row] && s'.patches == map[] && s'.fills == map[] && s'.sweeps == map[]
    ensures s'.created == map[code := Target(row.original, row.id)] && s'.now == s.now && s'.cache.Keys == {code}
  {
    s' := Next(ttl, s, Create(code, row));
  }

  lemma AfterFirstCommit(ttl: real, s: State, code: string, row: Row) returns (s': State)
    requires s.rows == map[] && s.inserts == map[code := row]
    ensures Enabled(s, CommitCreate(code)) && s' == Next(ttl, s, CommitCreate(code))
    ensures SameButDirt(s', s.(rows := map[code := row], inserts := map[]))
  {
    s' := Next(ttl, s, CommitCreate(code));
    assert map[code := row] - {code} == map[];
  }

  lemma AfterEviction(ttl: real, s: State, code: string) returns (s': State)
    requires s.cache.Keys == {code}
    ensures Enabled(s, Evict(code)) && s' == Next(ttl, s, Evict(code)) && SameButDirt(s', s.(cache := map[]))
  {
    s' := Next(ttl, s, Evict(code));
  }

  lemma AfterMiss(ttl: real, s: State, code: string, row: Row) returns (s': State)
    requires s.rows == map[code := row] && DbAnswer(s.rows, code, s.now).Ok? && s.cache == map[] && s.fills == map[]
    ensures Enabled(s, MissRead(0, code)) && s' == Next(ttl, s, MissRead(0, code))
    ensures SameButDirt(s', s.(fills := map[0 := Fill(code, row)]))
  {
    s' := Next(ttl, s, MissRead(0, code));
  }

  lemma AfterFill(ttl: real, s: State, code: string, row: Row) returns (s': State)
    requires s.fills == map[0 := Fill(code, row)] && s.cache == map[]
    ensures Enabled(s, FillCache(0)) && s' == Next(ttl, s, FillCache(0))
    ensures SameButDirt(s', s.(fills := map[], cache := map[code := Cached(EntryOf(row), s.now + ttl)]))
  {
    s' := Next(ttl, s, FillCache(0));
    assert map[0 := Fill(code, row)] - {0} == map[];
  }

  lemma AfterFlush(ttl: real, s: State, code: string, row: Row, patch: Patch) returns (s': State)
    requires s.rows == map[code := row] && s.patches == map[] && s.cache == map[]
    ensures Enabled(s, Change(code, patch)) && s' == Next(ttl, s, Change(code, patch))
    ensures SameButDirt(s', s.(patches := map[code := patch]))
  {
    s' := Next(ttl, s, Change(code, patch));
  }

  lemma AfterCommit(ttl: real, s: State, code: string, row: Row, patch: Patch) returns (s': State)
    requires s.rows == map[code := row] && s.patches == map[code := patch]
    ensures Enabled(s, CommitChange(code)) && s' == Next(ttl, s, CommitChange(code))
    ensures SameButDirt(s', s.(rows := map[code := Patched(row, patch)], patches := map[]))
  {
    s' := Next(ttl, s, CommitChange(code));
    assert map[code := patch] - {code} == map[];
  }

  lemma AfterWait(ttl: real, s: State) returns (s': State)
    ensures Enabled(s, Tick(s.now + 1.0)) && s' == Next(ttl, s, Tick(s.now + 1.0))
    ensures SameButDirt(s', s.(now := s.now + 1.0))
  {
    s' := Next(ttl, s, Tick(s.now + 1.0));
  }

  lemma AfterSelection(ttl: real, s: State, code: string, row: Row) returns (s': State)
    requires s.rows == map[code := row] && s.sweeps == map[]
    requires Past(row.expires, s.now) && row.active && !row.deleted
    ensures Enabled(s, SweepRead(0)) && s' == Next(ttl, s, SweepRead(0))
    ensures SameButDirt(s', s.(sweeps := map[0 := {code}]))
  {
    s' := Next(ttl, s, SweepRead(0));
    assert Expirable(s.rows, s.now) == {code};
  }

  // The same along a run from the start.

  lemma ReachesQuiet(ttl: real, s: State, code: string, row: Row) returns (s': State)
    requires Init(s) && row == LinkUntil(row.expires)
    ensures Reaches(ttl, s, s') && Quiet(s', code, row) && s'.now == s.now
  {
    assert Leads(ttl, s, [], s);
    var s1 := AfterCreation(ttl, s, code, row);
    ReachesNext(ttl, s, s, Create(code, row), s1);
    var s2 := AfterFirstCommit(ttl, s1, code, row);
    ReachesNext(ttl, s, s1, CommitCreate(code), s2);
    s' := AfterEviction(ttl, s2, code);
    ReachesNext(ttl, s, s2, Evict(code), s');
  }

  lemma Missed(ttl: real, s: State, mid: State, code: string, row: Row) returns (s': State)
    requires Reaches(ttl, s, mid)
    requires mid.rows == map[code := row] && DbAnswer(mid.rows, code, mid.now).Ok? && mid.cache == map[] && mid.fills == map[]
    ensures Reaches(ttl, s, s') && SameButDirt(s', mid.(fills := map[0 := Fill(code, row)]))
  {
    s' := AfterMiss(ttl, mid, code, row);
    ReachesNext(ttl, s, mid, MissRead(0, code), s');
  }

  /** After any visit's miss and fill the link is cached. */
  lemma Visited(ttl: real, s: State, mid: State, code: string, row: Row) returns (s': State)
    requires Reaches(ttl, s, mid)
    requires mid.rows == map[code := row] && DbAnswer(mid.rows, code, mid.now).Ok? && mid.cache == map[] && mid.fills == map[]
    ensures Reaches(ttl, s, s')
    ensures SameButDirt(s', mid.(cache := map[code := Cached(EntryOf(row), mid.now + ttl)]))
  {
    var missed;
    missed, s' := AfterVisit(ttl, mid, code, row);
    ReachesNext(ttl, s, mid, MissRead(0, code), missed);
    ReachesNext(ttl, s, missed, FillCache(0), s');
  }

  lemma AfterVisit(ttl: real, s: State, code: string, row: Row) returns (missed: State, s': State)
    requires s.rows == map[code := row] && DbAnswer(s.rows, code, s.now).Ok? && s.cache == map[] && s.fills == map[]
    ensures Enabled(s, MissRead(0, code)) && missed == Next(ttl, s, MissRead(0, code))
    ensures Enabled(missed, FillCache(0)) && s' == Next(ttl, missed, FillCache(0))
    ensures SameButDirt(s', s.(cache := map[code := Cached(EntryOf(row), s.now + ttl)]))
  {
    missed := AfterMiss(ttl, s, code, row);
    s' := AfterFill(ttl, missed, code, row);
    MissAndFill(s, missed, s', Fill(code, row), map[code := Cached(EntryOf(row), s.now + ttl)]);
  }

  lemma MissAndFill(s: State, missed: State, s': State, fill: Fill, cache: Cache)
    requires s.fills == map[] && SameButDirt(missed, s.(fills := map[0 := fill]))
    requires SameButDirt(s', missed.(fills := map[], cache := cache))
    ensures SameButDirt(s', s.(cache := cache))
  {
  }

  lemma Changing(ttl: real, s: State, mid: State, code: string, row: Row, patch: Patch) returns (s': State)
    requires Reaches(ttl, s, mid) && mid.rows == map[code := row] && mid.patches == map[] && mid.cache == map[]
    ensures Reaches(ttl, s, s') && SameButDirt(s', mid.(patches := map[code := patch]))
  {
    s' := AfterFlush(ttl, mid, code, row, patch);
    ReachesNext(ttl, s, mid, Change(code, patch), s');
  }

  lemma Changed(ttl: real, s: State, mid: State, code: string, row: Row, patch: Patch) returns (s': State)
    requires Reaches(ttl, s, mid) && mid.rows == map[code := row] && mid.patches == map[] && mid.cache == map[]
    ensures Reaches(ttl, s, s') && SameButDirt(s', mid.(rows := map[code := Patched(row, patch)]))
  {
    var flushed := Changing(ttl, s, mid, code, row, patch);
    s' := AfterCommit(ttl, flushed, code, row, patch);
    ReachesNext(ttl, s, flushed, CommitChange(code), s');
  }

  lemma Selected(ttl: real, s: State, mid: State, code: string, row: Row) returns (s': State)
    requires Reaches(ttl, s, mid) && Quiet(mid, code, row) && row == LinkUntil(Some(mid.now))
    ensures Reaches(ttl, s, s')
    ensures SameButDirt(s', mid.(now := mid.now + 1.0, sweeps := map[0 := {code}]))
  {
    var later := AfterWait(ttl, mid);
    ReachesNext(ttl, s, mid, Tick(mid.now + 1.0), later);
    s' := AfterSelection(ttl, later, code, row);
    ReachesNext(ttl, s, later, SweepRead(0), s');
  }

  /** The step is possible after some run and turns agreement into disagreement. */
  ghost predicate Breaks(ttl: real, s: State, mid: State, a: Action, code: string) {
    Reaches(ttl, s, mid) && Enabled(mid, a) && Transparent(mid, code) && !Transparent(Next(ttl, mid, a), code)
  }

  lemma NextAnswers(ttl: real, s: State, a: Action, code: string)
    requires Enabled(s, a)
    ensures Transparent(Next(ttl, s, a), code) <==> Transparent(Stepped(ttl, s, a), code)
  {
  }

  /** A warm job that runs after a soft delete brings the deleted link back for one TTL. */
  lemma WarmRevivesDeletedLink(ttl: real, s: State, code: string) returns (mid: State)
    requires ttl > 0.0 && Init(s)
    ensures Breaks(ttl, s, mid, Warm(code), code)
  {
    var row := LinkUntil(None);
    mid := ReachesQuiet(ttl, s, code, row);
    mid := Changed(ttl, s, mid, code, row, SOFT_DELETE);
    NextAnswers(ttl, mid, Warm(code), code);
  }

  /** So does a miss that was read before the delete and filled after it. */
  lemma OvertakenFillRevivesDeletedLink(ttl: real, s: State, code: string) returns (mid: State)
    requires ttl > 0.0 && Init(s)
    ensures Breaks(ttl, s, mid, FillCache(0), code)
  {
    var row := LinkUntil(None);
    mid := ReachesQuiet(ttl, s, code, row);
    mid := Missed(ttl, s, mid, code, row);
    mid := Changed(ttl, s, mid, code, row, SOFT_DELETE);
    NextAnswers(ttl, mid, FillCache(0), code);
  }

  /** And a whole miss between the delete's invalidation and its commit. */
  lemma OvertakenCommitRevivesDeletedLink(ttl: real, s: State, code: string) returns (mid: State)
    requires ttl > 0.0 && Init(s)
    ensures Breaks(ttl, s, mid, CommitChange(code), code)
  {
    var row := LinkUntil(None);
    mid := ReachesQuiet(ttl, s, code, row);
    mid := Changing(ttl, s, mid, code, row, SOFT_DELETE);
    mid := Visited(ttl, s, mid, code, row);
    NextAnswers(ttl, mid, CommitChange(code), code);
  }

  const EXTEND := Patch(None, Some(None), None, false)

  /**
   A cleanup that selected an expired link, and commits after its owner has extended it and a visitor
   has cached it again, deactivates the link under a live entry.
   */
  lemma OvertakenSweepKeepsDeadLink(ttl: real, s: State, code: string) returns (mid: State)
    requires ttl > 0.0 && Init(s)
    ensures Breaks(ttl, s, mid, SweepCommit(0), code)
  {
    var row := LinkUntil(Some(s.now));
    mid := ReachesQuiet(ttl, s, code, row);
    mid := Selected(ttl, s, mid, code, row);
    mid := Changed(ttl, s, mid, code, row, EXTEND);
    mid := Visited(ttl, s, mid, code, Patched(row, EXTEND));
    NextAnswers(ttl, mid, SweepCommit(0), code);
  }
}
