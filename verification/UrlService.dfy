/**
 The URL service, the cache service and the cache jobs as objects. Each method is one request or
 job run to its end with nothing in between; `Synced` is the relation between rows and cache that
 every one of them but the warm job keeps.
 */
module UrlServices {
  import opened Wrappers
  import opened Redirects

  class CacheService {
    var entries: Cache
    const available: bool
    const ttl: real

    constructor (available: bool, ttl: real)
      ensures this.available == available && this.ttl == ttl && entries == map[]
    {
      this.available, this.ttl, entries := available, ttl, map[];
    }

    /** What a reader can see: nothing when there is no Redis client. */
    ghost function View(): Cache
      reads this
    {
      if available then entries else map[]
    }

    method Get(code: string, now: real) returns (r: Option<Entry>)
      ensures r.Some? <==> available && code in entries && now < entries[code].until
      ensures r.Some? ==> r.value == entries[code].entry
      ensures r == Lookup(View(), code, now)
    {
      if !available { return None; }
      r := Lookup(entries, code, now);
    }

    method Set(code: string, e: Entry, now: real)
      modifies this
      ensures View() == if available then old(View())[code := Cached(e, now + ttl)] else map[]
    {
      if !available { return; }
      entries := entries[code := Cached(e, now + ttl)];
    }

    method Delete(code: string)
      modifies this
      ensures View() == old(View()) - {code}
    {
      if !available { return; }
      entries := entries - {code};
    }
  }

  /** A field of an update request: left out, or set, possibly to null. */
  datatype Field<+T> = Unset | To(value: T)

  datatype Update = Update(original: Field<Option<string>>, expires: Field<Option<real>>, active: Field<Option<bool>>, others: bool)

  predicate NothingSet(u: Update) {
    u.original.Unset? && u.expires.Unset? && u.active.Unset? && !u.others
  }

  /** A null in a column that must not be null. */
  predicate BadNull(u: Update) {
    (u.original.To? && u.original.value.None?) || (u.active.To? && u.active.value.None?)
  }

  function PatchOf(u: Update): Patch
    requires !BadNull(u)
  {
    Patch(if u.original.To? then u.original.value else None,
          if u.expires.To? then Some(u.expires.value) else None,
          if u.active.To? then u.active.value else None,
          false)
  }

  /** The row after the update: what was set has its new value, everything else is as before. */
  predicate UpdatedAs(before: Row, after: Row, u: Update) {
    && (match u.original case To(Some(target)) => after.original == target case _ => after.original == before.original)
    && (match u.expires case To(expires) => after.expires == expires case Unset => after.expires == before.expires)
    && (match u.active case To(Some(active)) => after.active == active case _ => after.active == before.active)
    && after.id == before.id && after.alias == before.alias && after.owner == before.owner && after.deleted == before.deleted
  }

  predicate Live(rows: Table, code: string) {
    code in rows && !rows[code].deleted
  }

  /** Every live entry leads where its row leads, now and later. */
  ghost predicate SyncedAt(rows: Table, cache: Cache, now: real) {
    forall c :: Lookup(cache, c, now).Some? ==> c in rows && Alike(cache[c].entry, rows[c], now)
  }

  /** While rows and cache are synced, nobody can tell the cache from the database. */
  lemma SyncedIsTransparent(rows: Table, cache: Cache, code: string, now: real)
    requires SyncedAt(rows, cache, now)
    ensures Redirect(Answer(rows, cache, code, now)) == Redirect(DbAnswer(rows, code, now))
  {
    if Lookup(cache, code, now).Some? {
      AlikeRedirectsAlike(cache[code].entry, rows, code, now);
    }
  }

  /** Waiting does not desynchronise. */
  lemma SyncedStays(rows: Table, cache: Cache, now: real, later: real)
    requires SyncedAt(rows, cache, now) && later >= now
    ensures SyncedAt(rows, cache, later)
  {
    forall c | Lookup(cache, c, later).Some? ensures c in rows && Alike(cache[c].entry, rows[c], later) {
      assert Lookup(cache, c, now).Some?;
    }
  }

  class UrlService {
    const cache: CacheService
    var rows: Table

    constructor (cache: CacheService)
      ensures this.cache == cache && rows == map[]
    {
      this.cache, rows := cache, map[];
    }

    ghost predicate Synced(now: real)
      reads this, cache
    {
      SyncedAt(rows, cache.View(), now)
    }

    /** Aliases are short codes and ids are distinct. */
    ghost predicate Valid()
      reads this
    {
      && (forall c :: c in rows && rows[c].alias.Some? ==> rows[c].alias.value == c)
      && (forall c, d :: c in rows && d in rows && rows[c].id == rows[d].id ==> c == d)
    }

    method GetOriginalUrl(code: string, now: real) returns (r: Result<Target, Error>)
      modifies cache
      ensures r == Answer(rows, old(cache.View()), code, now)
      ensures Lookup(old(cache.View()), code, now).Some? ==>
                var e := Lookup(old(cache.View()), code, now).value;
                && (r == Err(NotFound) <==> !e.active)
                && (r == Err(Expired) <==> e.active && e.expires.Some? && now > e.expires.value)
                && (r.Ok? ==> r.value == Target(e.original, e.urlId))
      ensures Lookup(old(cache.View()), code, now).None? ==>
                && (r == Err(NotFound) <==> code !in rows || rows[code].deleted || !rows[code].active)
                && (r == Err(Expired) <==> Live(rows, code) && rows[code].active && rows[code].expires.Some?
                                           && now > rows[code].expires.value)
                && (r.Ok? ==> r.value == Target(rows[code].original, rows[code].id))
      ensures r.Err? ==> r.error == NotFound || r.error == Expired
      ensures cache.View() ==
              if Lookup(old(cache.View()), code, now).None? && r.Ok? && cache.available
              then old(cache.View())[code := Cached(Entry(rows[code].original, true, rows[code].expires, rows[code].id), now + cache.ttl)]
              else old(cache.View())
      ensures old(Synced(now)) ==> Synced(now) && Redirect(r) == Redirect(DbAnswer(rows, code, now))
    {
      if old(Synced(now)) { SyncedIsTransparent(rows, cache.View(), code, now); }
      var cached := cache.Get(code, now);
      if cached.Some? {
        var e := cached.value;
        if !e.active { return Err(NotFound); }
        if e.expires.Some? {
          if now > e.expires.value { return Err(Expired); }
        }
        return Ok(Target(e.original, e.urlId));
      }
      if code !in rows { return Err(NotFound); }
      var url := rows[code];
      if url.deleted { return Err(NotFound); }
      if !url.active { return Err(NotFound); }
      if Past(url.expires, now) { return Err(Expired); }
      cache.Set(code, EntryOf(url), now);
      return Ok(Target(url.original, url.id));
    }

    /** The first of at most ten candidates that no row uses, deleted rows included. */
    method GenerateUniqueCode(candidates: seq<string>) returns (r: Result<string, Error>)
      requires |candidates| == 10
      ensures r.Ok? ==> r.value !in rows
      ensures r.Ok? ==> exists i :: 0 <= i < 10 && candidates[i] == r.value && forall j :: 0 <= j < i ==> candidates[j] in rows
      ensures r.Err? <==> forall i :: 0 <= i < 10 ==> candidates[i] in rows
      ensures r.Err? ==> r.error == NoCode
    {
      var i := 0;
      while i < 10
        invariant 0 <= i <= 10
        invariant forall j :: 0 <= j < i ==> candidates[j] in rows
      {
        if candidates[i] !in rows { return Ok(candidates[i]); }
        i := i + 1;
      }
      return Err(NoCode);
    }

    /** `id` is the fresh key the database assigns, `candidates` the random codes in the order drawn. */
    method CreateShortUrl(original: string, alias: Option<string>, expires: Option<real>, owner: Option<nat>,
                          id: nat, candidates: seq<string>, now: real) returns (r: Result<string, Error>)
      requires |candidates| == 10 && Valid() && forall c :: c in rows ==> rows[c].id != id
      modifies this, cache
      ensures Valid()
      ensures alias.Some? ==>
                r == (if Live(old(rows), alias.value) then Err(Conflict)
                      else if alias.value in old(rows) then Err(Integrity)
                      else Ok(alias.value))
      ensures alias.None? && r.Ok? ==> r.value in candidates
      ensures alias.None? && r.Err? ==> r.error == NoCode && forall c :: c in candidates ==> c in old(rows)
      ensures r.Ok? ==>
        && r.value !in old(rows)
        && rows == old(rows)[r.value := Row(id, original, alias, owner, expires, true, false)]
        && cache.View() == if cache.available
                           then old(cache.View())[r.value := Cached(Entry(original, true, expires, id), now + cache.ttl)] else map[]
      ensures r.Err? ==> rows == old(rows) && cache.View() == old(cache.View())
      ensures old(Synced(now)) ==> Synced(now)
    {
      var code;
      if alias.Some? {
        if Live(rows, alias.value) { return Err(Conflict); }
        if exists c :: c in rows && !rows[c].deleted && rows[c].alias == alias { return Err(Conflict); }
        code := alias.value;
      } else {
        var generated := GenerateUniqueCode(candidates);
        if generated.Err? { return Err(generated.error); }
        code := generated.value;
      }
      if code in rows { return Err(Integrity); }
      var url := Row(id, original, alias, owner, expires, true, false);
      rows := rows[code := url];
      cache.Set(code, EntryOf(url), now);
      return Ok(code);
    }

    method UpdateUrl(code: string, u: Update, owner: nat, now: real) returns (r: Result<Row, Error>)
      requires Valid()
      modifies this, cache
      ensures Valid()
      ensures r.Err? ==> rows == old(rows) && cache.View() == old(cache.View())
      ensures !Live(old(rows), code) ==> r == Err(NotFound)
      ensures Live(old(rows), code) ==>
                if old(rows)[code].owner != Some(owner) then r == Err(Unauthorized)
                else if u == Update(Unset, Unset, Unset, false) then r == Err(NoFields)
                else if u.original == To(None) || u.active == To(None) then r == Err(Integrity)
                else r.Ok? && UpdatedAs(old(rows)[code], r.value, u)
      ensures r.Ok? ==> rows == old(rows)[code := r.value] && cache.View() == old(cache.View()) - {code}
      ensures old(Synced(now)) ==> Synced(now)
    {
      if !Live(rows, code) { return Err(NotFound); }
      var url := rows[code];
      if url.owner != Some(owner) { return Err(Unauthorized); }
      if NothingSet(u) { return Err(NoFields); }
      if BadNull(u) { return Err(Integrity); }
      url := Patched(url, PatchOf(u));
      rows := rows[code := url];
      cache.Delete(code);
      return Ok(url);
    }

    method SoftDeleteUrl(code: string, owner: nat, now: real) returns (r: Result<(), Error>)
      requires Valid()
      modifies this, cache
      ensures Valid()
      ensures r.Err? ==> rows == old(rows) && cache.View() == old(cache.View())
      ensures !Live(old(rows), code) ==> r == Err(NotFound)
      ensures Live(old(rows), code) ==> (r.Ok? <==> old(rows)[code].owner == Some(owner))
      ensures Live(old(rows), code) && r.Err? ==> r.error == Unauthorized
      ensures r.Ok? ==> rows == old(rows)[code := old(rows)[code].(active := false, deleted := true)]
                        && cache.View() == old(cache.View()) - {code}
                        && forall later :: Redirect(Answer(rows, cache.View(), code, later)).None?
      ensures old(Synced(now)) ==> Synced(now)
    {
      if !Live(rows, code) { return Err(NotFound); }
      if rows[code].owner != Some(owner) { return Err(Unauthorized); }
      rows := rows[code := Patched(rows[code], SOFT_DELETE)];
      cache.Delete(code);
      return Ok(());
    }

    /**
     WARM_CACHE: an entry from the job's payload, whatever the row says by now. It keeps the cache
     synced exactly when the row is still live and active, has no expiry, and still has the target
     the payload was made from.
     */
    method WarmCache(code: string, payload: Target, now: real)
      modifies cache
      ensures cache.View() == if cache.available && code != ""
                              then old(cache.View())[code := Cached(Entry(payload.original, true, None, payload.urlId), now + cache.ttl)]
                              else old(cache.View())
      ensures old(Synced(now)) && cache.available && code != "" && cache.ttl > 0.0 ==>
        (Synced(now) <==> Live(rows, code) && rows[code].active && rows[code].expires == None
                          && payload == Target(rows[code].original, rows[code].id))
    {
      if code != "" {
        cache.Set(code, WarmEntry(payload), now);
        assert cache.available && cache.ttl > 0.0 ==> Lookup(cache.View(), code, now) == Some(WarmEntry(payload));
      }
    }

    /** INVALIDATE_CACHE, as far as the redirect entry goes. */
    method InvalidateCache(code: Option<string>, now: real)
      modifies cache
      ensures cache.View() == if code.Some? then old(cache.View()) - {code.value} else old(cache.View())
      ensures old(Synced(now)) ==> Synced(now)
    {
      if code.Some? { cache.Delete(code.value); }
    }

    /** EXPIRED_CLEANUP deactivates exactly the live, active rows whose expiry has passed. */
    method ExpiredCleanup(now: real) returns (expired: set<string>)
      requires Valid()
      modifies this
      ensures Valid()
      ensures expired == set c | c in old(rows) && Past(old(rows)[c].expires, now) && old(rows)[c].active && !old(rows)[c].deleted
      ensures rows == Swept(old(rows), expired)
      ensures rows.Keys == old(rows).Keys
              && forall c :: c in rows ==> rows[c] == if c in expired then old(rows)[c].(active := false) else old(rows)[c]
      ensures old(Synced(now)) ==> Synced(now)
    {
      expired := Expirable(rows, now);
      var rest := expired;
      while rest != {}
        invariant rest <= expired <= old(rows).Keys == rows.Keys
        invariant forall c :: c in old(rows) ==>
                    rows[c] == if c in expired - rest then Deactivated(old(rows)[c]) else old(rows)[c]
        decreases rest
      {
        var c :| c in rest;
        rows := rows[c := Deactivated(rows[c])];
        rest := rest - {c};
      }
    }
  }

  /** An update or delete method is its two machine steps with nothing in between. */
  lemma ChangeIsItsSteps(ttl: real, s: State, code: string, p: Patch)
    requires Enabled(s, Change(code, p))
    ensures var s1 := Next(ttl, s, Change(code, p));
            && Enabled(s1, CommitChange(code))
            && !Dirty(s1, CommitChange(code), code)
            && Next(ttl, s1, CommitChange(code)).rows == s.rows[code := Patched(s.rows[code], p)]
            && Next(ttl, s1, CommitChange(code)).cache == s.cache - {code}
  {
    assert Next(ttl, s, Change(code, p)).cache == s.cache - {code};
  }

  /** A creation is its two machine steps, and the cache jobs are one step each. */
  lemma CreateIsItsSteps(ttl: real, s: State, code: string, row: Row)
    requires Enabled(s, Create(code, row))
    ensures var s1 := Next(ttl, s, Create(code, row));
            && Enabled(s1, CommitCreate(code))
            && Next(ttl, s1, CommitCreate(code)).rows == s.rows[code := row]
            && Next(ttl, s1, CommitCreate(code)).inserts == s.inserts
            && Next(ttl, s1, CommitCreate(code)).cache
               == s.cache[code := Cached(Entry(row.original, true, row.expires, row.id), s.now + ttl)]
            && Next(ttl, s1, CommitCreate(code)).created == s.created[code := Target(row.original, row.id)]
  {
    var s2 := Next(ttl, Next(ttl, s, Create(code, row)), CommitCreate(code));
    assert s2.inserts == s.inserts[code := row] - {code};
  }

  lemma CacheJobsAreSteps(ttl: real, s: State, code: string)
    ensures Enabled(s, Invalidate(code)) && Enabled(s, Evict(code))
    ensures Next(ttl, s, Invalidate(code)).cache == Next(ttl, s, Evict(code)).cache == s.cache - {code}
    ensures Next(ttl, s, Invalidate(code)).rows == Next(ttl, s, Evict(code)).rows == s.rows
    ensures Enabled(s, Warm(code)) <==> code in s.created
    ensures code in s.created ==>
              && Next(ttl, s, Warm(code)).rows == s.rows
              && Next(ttl, s, Warm(code)).cache
                 == s.cache[code := Cached(Entry(s.created[code].original, true, None, s.created[code].urlId), s.now + ttl)]
  {
  }

  /** A miss resolved in one go fills the cache with what the database answers, and is never dirty. */
  lemma MissIsItsSteps(ttl: real, s: State, reader: nat, code: string)
    requires Enabled(s, MissRead(reader, code))
    ensures var s1 := Next(ttl, s, MissRead(reader, code));
            && Enabled(s1, FillCache(reader))
            && !Dirty(s1, FillCache(reader), code)
            && Next(ttl, s1, FillCache(reader)).rows == s.rows
            && Next(ttl, s1, FillCache(reader)).cache == s.cache[code := Cached(EntryOf(s.rows[code]), s.now + ttl)]
  {
  }

  /** A cleanup run in one go deactivates what it finds, and is never stale over synced entries. */
  lemma SweepIsItsSteps(ttl: real, s: State, job: nat)
    requires Enabled(s, SweepRead(job)) && forall c :: c in Expirable(s.rows, s.now) ==> c !in s.patches
    ensures var s1 := Next(ttl, s, SweepRead(job));
            && Enabled(s1, SweepCommit(job))
            && Next(ttl, s1, SweepCommit(job)).rows == Swept(s.rows, Expirable(s.rows, s.now))
            && Next(ttl, s1, SweepCommit(job)).cache == s.cache
            && (SyncedAt(s.rows, s.cache, s.now) ==> forall c :: !Dirty(s1, SweepCommit(job), c))
  {
    var s1 := Next(ttl, s, SweepRead(job));
    assert s1.sweeps[job] == Expirable(s.rows, s.now);
    if SyncedAt(s.rows, s.cache, s.now) {
      forall c ensures !Dirty(s1, SweepCommit(job), c) {
        if Lookup(s.cache, c, s.now).Some? { assert Alike(s.cache[c].entry, s.rows[c], s.now); }
      }
    }
  }
}
