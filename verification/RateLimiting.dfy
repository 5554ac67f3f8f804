/**
 The sliding-window rate limiter: a pruned, expiring set of timestamps per client, compared with
 the full log of the client's requests. Times are exact reals.
 */
module RateLimiting {

  /** A request read its clock at `t` and its pipeline ran at `at` on the store's clock. */
  datatype Req = Req(t: real, at: real)

  /** The sorted set of a client and the time its key expires. Equal timestamps are one member. */
  datatype Window = Window(stored: set<real>, expires: real)

  const FRESH := Window({}, 0.0)

  function LiveSet(w: Window, at: real): set<real> {
    if at < w.expires then w.stored else {}
  }

  /** ZREMRANGEBYSCORE key 0 (t - span), then ZADD t. */
  function Pruned(w: Window, span: real, r: Req): set<real> {
    (set x | x in LiveSet(w, r.at) && !(0.0 <= x <= r.t - span)) + {r.t}
  }

  function After(w: Window, span: real, r: Req): Window {
    Window(Pruned(w, span, r), r.at + span)
  }

  predicate Admits(w: Window, span: real, max: nat, r: Req) {
    |Pruned(w, span, r)| <= max
  }

  /** The window after a client's whole log; rejected requests are in it too. */
  function WindowOf(log: seq<Req>, span: real): Window {
    if log == [] then FRESH else After(WindowOf(log[..|log| - 1], span), span, log[|log| - 1])
  }

  /** The decision on the i-th request of the log. */
  predicate Admitted(log: seq<Req>, span: real, max: nat, i: nat)
    requires i < |log|
  {
    Admits(WindowOf(log[..i], span), span, max, log[i])
  }

  // ----- the full log as reference

  /** The distinct timestamps of the first n requests that lie in (t - span, t]. */
  function Recent(log: seq<Req>, n: nat, span: real, t: real): set<real>
    requires n <= |log|
  {
    set i | 0 <= i < n && t - span < log[i].t <= t :: log[i].t
  }

  /**
   What the bound needs of the clocks: timestamps at most `lag` out of order, and whenever the key
   expires, the timestamps before and after are at least span - lag apart.
   */
  ghost predicate Loose(log: seq<Req>, span: real, lag: real) {
    && (forall i :: 0 <= i < |log| ==> log[i].t >= 0.0)
    && (forall i, j :: 0 <= i <= j < |log| ==> log[i].t <= log[j].t + lag)
    && (forall q, p, r :: 0 <= q < p <= r < |log| && Expired(log, span, p) ==> log[r].t >= log[q].t + span - lag)
  }

  /** The key has expired when the p-th request arrives. */
  predicate Expired(log: seq<Req>, span: real, p: nat)
    requires 0 < p < |log|
  {
    log[p].at >= log[p - 1].at + span
  }

  /**
   The store sees requests in the order of the log, and between any two of them the host's clock shows
   at most `lag` less than the store's: any offset, any drift that gains, and delays and losses up to `lag`.
   */
  ghost predicate Lags(log: seq<Req>, lag: real) {
    && (forall i :: 0 <= i < |log| ==> log[i].t >= 0.0)
    && (forall i, j :: 0 <= i <= j < |log| ==> log[i].at <= log[j].at)
    && (forall i, j :: 0 <= i <= j < |log| ==> log[j].t - log[i].t >= log[j].at - log[i].at - lag)
  }

  lemma LagIsLoose(log: seq<Req>, span: real, lag: real)
    requires Lags(log, lag)
    ensures Loose(log, span, lag)
  {
    forall q, p, r | 0 <= q < p <= r < |log| && Expired(log, span, p) ensures log[r].t >= log[q].t + span - lag {
      assert log[q].at <= log[p - 1].at && log[p].at <= log[r].at;
      assert log[r].t - log[q].t >= log[r].at - log[q].at - lag;
    }
  }

  /** A constant offset with delays up to `lag` is one such log. */
  lemma ConstantOffsetLags(log: seq<Req>, offset: real, lag: real)
    requires forall i :: 0 <= i < |log| ==> log[i].t >= 0.0 && log[i].t + offset <= log[i].at <= log[i].t + offset + lag
    requires forall i, j :: 0 <= i <= j < |log| ==> log[i].at <= log[j].at
    ensures Lags(log, lag)
  {
  }

  ghost predicate DistinctTimes(log: seq<Req>) {
    forall i, j :: 0 <= i < j < |log| ==> log[i].t != log[j].t
  }

  lemma WindowStep(log: seq<Req>, span: real, n: nat)
    requires n < |log|
    ensures WindowOf(log[..n + 1], span) == After(WindowOf(log[..n], span), span, log[n])
  {
    assert log[..n + 1][..n] == log[..n];
  }

  /** The set only ever holds timestamps of the log. */
  lemma {:induction false} StoredFromLog(log: seq<Req>, span: real, n: nat)
    requires n <= |log|
    ensures forall x :: x in WindowOf(log[..n], span).stored ==> exists i :: 0 <= i < n && log[i].t == x
  {
    if n > 0 {
      WindowStep(log, span, n - 1);
      StoredFromLog(log, span, n - 1);
      forall x | x in WindowOf(log[..n], span).stored ensures exists i :: 0 <= i < n && log[i].t == x {
        if x == log[n - 1].t {} else {
          assert x in WindowOf(log[..n - 1], span).stored;
        }
      }
    }
  }

  lemma LastExpiry(log: seq<Req>, span: real, n: nat)
    requires 0 < n <= |log|
    ensures WindowOf(log[..n], span).expires == log[n - 1].at + span
  {
    WindowStep(log, span, n - 1);
  }

  lemma KeptOn(w: Window, span: real, r: Req, x: real)
    requires x == r.t || (x in w.stored && r.at < w.expires && x > r.t - span)
    ensures x in After(w, span, r).stored
  {
  }

  lemma NotExpired(log: seq<Req>, span: real, lag: real, q: nat, n: nat, r: nat)
    requires Loose(log, span, lag) && q < n <= r < |log| && log[r].t - log[q].t < span - lag
    ensures log[n].at < log[n - 1].at + span
  {
    assert !Expired(log, span, n);
  }

  /** A timestamp less than span - lag old is still there: neither pruned by anyone nor expired. */
  lemma {:induction false} Survives(log: seq<Req>, span: real, lag: real, q: nat, n: nat, r: nat)
    requires Loose(log, span, lag) && q < n <= r < |log| && log[r].t - log[q].t < span - lag
    ensures log[q].t in WindowOf(log[..n], span).stored
    ensures log[n].at < WindowOf(log[..n], span).expires
    decreases n
  {
    LastExpiry(log, span, n);
    NotExpired(log, span, lag, q, n, r);
    if n - 1 > q {
      Survives(log, span, lag, q, n - 1, r);
      assert log[n - 1].t <= log[r].t + lag;
    }
    WindowStep(log, span, n - 1);
    KeptOn(WindowOf(log[..n - 1], span), span, log[n - 1], log[q].t);
  }

  /** So at decision time it is counted. */
  lemma Counted(log: seq<Req>, span: real, lag: real, q: nat, r: nat)
    requires Loose(log, span, lag) && 0.0 <= lag && q <= r < |log| && log[r].t - log[q].t < span - lag
    ensures log[q].t in Pruned(WindowOf(log[..r], span), span, log[r])
  {
    if q < r { Survives(log, span, lag, q, r, r); }
  }

  /** The admitted requests with a timestamp in [a, a + width). */
  ghost function AdmittedIn(log: seq<Req>, span: real, max: nat, a: real, width: real): set<nat> {
    set i: nat | i < |log| && a <= log[i].t < a + width && Admitted(log, span, max, i)
  }

  lemma {:induction false} LastOf(s: set<nat>) returns (m: nat)
    requires s != {}
    ensures m in s && forall x :: x in s ==> x <= m
    decreases |s|
  {
    var x :| x in s;
    if s == {x} { m := x; } else {
      var y := LastOf(s - {x});
      m := if x < y then y else x;
      assert forall z :: z in s ==> z == x || z in s - {x};
    }
  }

  lemma {:induction false} TimesInjective(log: seq<Req>, s: set<nat>, times: set<real>)
    requires DistinctTimes(log) && (forall i :: i in s ==> i < |log| && log[i].t in times)
    ensures |s| <= |times|
    decreases |s|
  {
    if s != {} {
      var i :| i in s;
      forall j | j in s - {i} ensures log[j].t in times - {log[i].t} {
        if j < i { assert log[j].t != log[i].t; } else { assert log[i].t != log[j].t; }
      }
      TimesInjective(log, s - {i}, times - {log[i].t});
    }
  }

  /**
   The bound: with distinct timestamps in a log that is loose by d, at most `max` requests are admitted in
   any window of length span - d, although the stored set is pruned and the key expires.
   */
  lemma AdmissionBound(log: seq<Req>, span: real, lag: real, max: nat, a: real)
    requires Loose(log, span, lag) && DistinctTimes(log)
    ensures |AdmittedIn(log, span, max, a, span - lag)| <= max
  {
    var s := AdmittedIn(log, span, max, a, span - lag);
    if s != {} {
      var r := LastOf(s);
      assert log[r].t <= log[r].t + lag;
      var counted := Pruned(WindowOf(log[..r], span), span, log[r]);
      forall q | q in s ensures log[q].t in counted {
        Counted(log, span, lag, q, r);
      }
      TimesInjective(log, s, counted);
    }
  }

  /** In particular for clocks that lag, drift and differ. */
  lemma LaggingClocksBound(log: seq<Req>, span: real, lag: real, max: nat, a: real)
    requires Lags(log, lag) && DistinctTimes(log)
    ensures |AdmittedIn(log, span, max, a, span - lag)| <= max
  {
    LagIsLoose(log, span, lag);
    AdmissionBound(log, span, lag, max, a);
  }

  /** Timestamps in order, and the key expires only after a pause that the timestamps show as well. */
  ghost predicate Orderly(log: seq<Req>, span: real) {
    Loose(log, span, 0.0)
  }

  /** In an orderly log the pruned set is exactly the recent part of the log. */
  lemma PrunedIsRecent(log: seq<Req>, span: real, r: nat)
    requires Orderly(log, span) && r < |log| && span > 0.0
    ensures Pruned(WindowOf(log[..r], span), span, log[r]) == Recent(log, r + 1, span, log[r].t)
  {
    var kept, recent := Pruned(WindowOf(log[..r], span), span, log[r]), Recent(log, r + 1, span, log[r].t);
    forall x | x in kept ensures x in recent {
      if x != log[r].t {
        StoredFromLog(log, span, r);
        var i :| 0 <= i < r && log[i].t == x;
      } else {
        assert log[r].t - span < log[r].t;
      }
    }
    forall x | x in recent ensures x in kept {
      var i :| 0 <= i < r + 1 && log[r].t - span < log[i].t <= log[r].t && log[i].t == x;
      Counted(log, span, 0.0, i, r);
    }
  }

  /** The decision is that of counting the distinct timestamps of the whole log in (t - span, t]. */
  lemma DecisionIsLogCount(log: seq<Req>, span: real, max: nat, r: nat)
    requires Orderly(log, span) && r < |log| && span > 0.0
    ensures Admitted(log, span, max, r) <==> |Recent(log, r + 1, span, log[r].t)| <= max
  {
    PrunedIsRecent(log, span, r);
  }

  /** A client idle for a whole span is admitted whenever the limit is at least one, skew or not. */
  lemma IdleIsAdmitted(log: seq<Req>, span: real, max: nat, r: nat)
    requires r < |log| && max >= 1
    requires r > 0 ==> log[r].at >= log[r - 1].at + span
    ensures Admitted(log, span, max, r)
  {
    if r > 0 { LastExpiry(log, span, r); }
    assert Pruned(WindowOf(log[..r], span), span, log[r]) == {log[r].t};
  }

  /** Requests of the full log inside the window, each counted, distinct or not. */
  ghost function RequestsIn(log: seq<Req>, n: nat, span: real, t: real): set<nat>
    requires n <= |log|
  {
    set i: nat | i < n && t - span < log[i].t <= t
  }

  lemma {:induction false} RecentSize(log: seq<Req>, s: set<nat>, times: set<real>)
    requires forall i :: i in s ==> i < |log|
    requires times == set i | i in s :: log[i].t
    ensures |times| <= |s|
    ensures DistinctTimes(log) ==> |times| == |s|
    decreases |s|
  {
    if s == {} {
      assert times == {};
    } else {
      var i :| i in s;
      var rest := set j | j in s - {i} :: log[j].t;
      RecentSize(log, s - {i}, rest);
      assert times == rest + {log[i].t};
      if DistinctTimes(log) {
        forall j | j in s - {i} ensures log[j].t != log[i].t {
          if j < i { assert log[j].t != log[i].t; } else { assert log[i].t != log[j].t; }
        }
        assert log[i].t !in rest;
      }
    }
  }

  /**
   The refinement: in an orderly log of distinct timestamps the pruned and expiring set admits a
   request exactly when the full log holds at most `max` requests in (t - span, t].
   */
  lemma PrunedSetRefinesLog(log: seq<Req>, span: real, max: nat, r: nat)
    requires Orderly(log, span) && DistinctTimes(log) && r < |log| && span > 0.0
    ensures Admitted(log, span, max, r) <==> |RequestsIn(log, r + 1, span, log[r].t)| <= max
  {
    DecisionIsLogCount(log, span, max, r);
    var s := RequestsIn(log, r + 1, span, log[r].t);
    assert Recent(log, r + 1, span, log[r].t) == set i | i in s :: log[i].t;
    RecentSize(log, s, Recent(log, r + 1, span, log[r].t));
  }

  /** Why timestamps must differ: any number of requests at one instant are one member and all admitted. */
  lemma OneInstantIsOneMember(log: seq<Req>, span: real, max: nat, i: nat)
    requires i < |log| && max >= 1 && forall k :: 0 <= k < |log| ==> log[k] == log[0]
    ensures Admitted(log, span, max, i)
  {
    StoredFromLog(log, span, i);
    assert Pruned(WindowOf(log[..i], span), span, log[i]) == {log[0].t};
  }

  lemma OneMore(before: seq<Req>, span: real, max: nat, r: Req)
    ensures WindowOf(before + [r], span) == After(WindowOf(before, span), span, r)
    ensures Admitted(before + [r], span, max, |before|) <==> |Pruned(WindowOf(before, span), span, r)| <= max
  {
    assert (before + [r])[..|before|] == before;
  }

  // ----- the middleware

  class RateLimiter {
    const available: bool
    const span: real
    var windows: map<string, Window>
    /** Everything each client has sent; the windows are what is left of it. */
    ghost var logs: map<string, seq<Req>>

    constructor (available: bool, span: real)
      ensures Valid() && this.available == available && this.span == span && logs == map[]
    {
      this.available, this.span, windows, logs := available, span, map[], map[];
    }

    ghost function LogOf(key: string): seq<Req>
      reads this
    {
      if key in logs then logs[key] else []
    }

    ghost predicate Valid()
      reads this
    {
      windows.Keys == logs.Keys && forall key :: key in windows ==> windows[key] == WindowOf(logs[key], span)
    }

    /** One request: exempt paths and a missing store let it through without a trace. */
    method Dispatch(exempt: bool, key: string, max: nat, now: real, at: real)
      returns (admitted: bool, remaining: nat, retryAfter: int)
      requires Valid()
      modifies this
      ensures Valid()
      ensures exempt || !available ==> admitted && logs == old(logs)
      ensures !exempt && available ==> logs == old(logs)[key := old(LogOf(key)) + [Req(now, at)]]
      ensures !exempt && available ==> (admitted <==> Admitted(LogOf(key), span, max, |LogOf(key)| - 1))
      ensures !exempt && available && admitted ==>
                remaining == max - |Pruned(WindowOf(old(LogOf(key)), span), span, Req(now, at))|
      ensures !admitted ==> retryAfter == 0
      ensures forall k :: k != key && k in old(windows) ==> k in windows && windows[k] == old(windows)[k]
    {
      remaining, retryAfter := 0, 0;
      if exempt { return true, 0, 0; }
      if !available { return true, 0, 0; }
      var windowStart := now - span;
      ghost var before := LogOf(key);
      OneMore(before, span, max, Req(now, at));
      var count := RunPipeline(key, windowStart, now, at);
      if count > max {
        retryAfter := (span - (now - windowStart)).Floor;
        return false, 0, retryAfter;
      }
      return true, max - count, 0;
    }

    /** Prune, add, count and renew the key, as one pipeline. */
    method RunPipeline(key: string, windowStart: real, now: real, at: real) returns (count: nat)
      requires Valid() && windowStart == now - span
      modifies this
      ensures Valid()
      ensures logs == old(logs)[key := old(LogOf(key)) + [Req(now, at)]]
      ensures count == |Pruned(WindowOf(old(LogOf(key)), span), span, Req(now, at))|
      ensures forall k :: k != key && k in old(windows) ==> k in windows && windows[k] == old(windows)[k]
    {
      var w := if key in windows then windows[key] else FRESH;
      ghost var before := LogOf(key);
      assert w == WindowOf(before, span);
      var members := (set x | x in LiveSet(w, at) && !(0.0 <= x <= windowStart)) + {now};
      assert members == Pruned(w, span, Req(now, at));
      var renewed := Window(members, at + span);
      assert renewed == WindowOf(before + [Req(now, at)], span) by { OneMore(before, span, 0, Req(now, at)); }
      windows := windows[key := renewed];
      logs := logs[key := before + [Req(now, at)]];
      return |members|;
    }
  }
}
