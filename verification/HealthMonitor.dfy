/**
 The link health check: following redirects for at most ten fetches, the verdict, the certificate
 rule that can overwrite it, and the availability record. The fetch function is a parameter.
 */
module HealthMonitor {
  import opened Wrappers
  import UrlText
  import UrlNormalize

  /** What fetching a URL gives. A location is already resolved; an empty one counts as none. */
  datatype Fetch = Reply(code: nat, location: Option<string>) | Timeout | NoConnection | Fault

  datatype Status = Healthy | Warning | Broken | Unknown

  datatype Reason =
    | NoReason | Loop | NoLocation | ServerError | PageNotFound | ClientError
    | TimedOut | ConnectionFailed | OtherFailure | CertificateExpires(days: int)

  datatype Verdict = Verdict(status: Status, reason: Reason, raised: bool)

  const MAX_FETCHES := 10

  predicate IsRedirect(f: Fetch) {
    f.Reply? && f.code in {301, 302, 303, 307, 308}
  }

  predicate Hops(fetch: string -> Fetch, url: string) {
    IsRedirect(fetch(url)) && fetch(url).location.Some?
  }

  function NextUrl(fetch: string -> Fetch, url: string): string
    requires Hops(fetch, url)
  {
    fetch(url).location.value
  }

  /** The URL after k hops, if there are that many. */
  function Orbit(fetch: string -> Fetch, url: string, k: nat): Option<string> {
    if k == 0 then Some(url)
    else
      var before := Orbit(fetch, url, k - 1);
      if before.Some? && Hops(fetch, before.value) then Some(NextUrl(fetch, before.value)) else None
  }

  /** The orbit comes back to an earlier URL at step k. */
  ghost predicate Revisits(fetch: string -> Fetch, url: string, k: nat) {
    Orbit(fetch, url, k).Some? && exists i :: 0 <= i < k && Orbit(fetch, url, i) == Orbit(fetch, url, k)
  }

  /** The orbit stops at step k: there is a URL and it does not lead further. */
  predicate StopsAt(fetch: string -> Fetch, url: string, k: nat) {
    Orbit(fetch, url, k).Some? && !Hops(fetch, Orbit(fetch, url, k).value)
  }

  /** The verdict on a URL that does not hop. */
  function Classify(f: Fetch): Verdict {
    match f
    case Timeout => Verdict(Broken, TimedOut, true)
    case NoConnection => Verdict(Broken, ConnectionFailed, true)
    case Fault => Verdict(Broken, OtherFailure, true)
    case Reply(code, _) =>
      if IsRedirect(f) then Verdict(Warning, NoLocation, false)
      else if code >= 500 then Verdict(Broken, ServerError, false)
      else if code == 404 then Verdict(Broken, PageNotFound, false)
      else if code >= 400 then Verdict(Warning, ClientError, false)
      else Verdict(Healthy, NoReason, false)
  }

  lemma {:induction false} OrbitPrefix(fetch: string -> Fetch, url: string, k: nat, j: nat)
    requires j <= k && Orbit(fetch, url, k).Some?
    ensures Orbit(fetch, url, j).Some? && (j < k ==> Hops(fetch, Orbit(fetch, url, j).value))
    decreases k
  {
    if j < k { OrbitPrefix(fetch, url, k - 1, j); }
  }

  /** Two steps at the same URL have the same future. */
  lemma {:induction false} OrbitRepeats(fetch: string -> Fetch, url: string, i: nat, j: nat, d: nat)
    requires Orbit(fetch, url, i).Some? && Orbit(fetch, url, i) == Orbit(fetch, url, j)
    ensures Orbit(fetch, url, i + d) == Orbit(fetch, url, j + d)
  {
    if d > 0 { OrbitRepeats(fetch, url, i, j, d - 1); }
  }

  /** An orbit that revisits never stops. */
  lemma {:induction false} RevisitsNeverStop(fetch: string -> Fetch, url: string, k: nat, m: nat)
    requires Revisits(fetch, url, k)
    ensures Orbit(fetch, url, m).Some? && !StopsAt(fetch, url, m)
    decreases m
  {
    var i :| 0 <= i < k && Orbit(fetch, url, i) == Orbit(fetch, url, k);
    if m < k {
      OrbitPrefix(fetch, url, k, m);
    } else {
      RevisitsNeverStop(fetch, url, k, m - (k - i));
      OrbitRepeats(fetch, url, i, k, m - k);
      assert Orbit(fetch, url, i + (m - k)) == Orbit(fetch, url, m);
    }
  }

  /** An orbit that stops does so once, and never revisits. */
  lemma StopsOnce(fetch: string -> Fetch, url: string, m: nat, k: nat)
    requires StopsAt(fetch, url, m)
    ensures StopsAt(fetch, url, k) ==> k == m
    ensures !Revisits(fetch, url, k)
  {
    if StopsAt(fetch, url, k) {
      if k < m { OrbitPrefix(fetch, url, m, k); } else if m < k { OrbitPrefix(fetch, url, k, m); }
    }
    if Revisits(fetch, url, k) { RevisitsNeverStop(fetch, url, k, m); }
  }

  /** The verdict says what kind of answer the walk ended on. */
  ghost predicate Fits(v: Verdict, f: Fetch) {
    && (v.status == Broken <==> !f.Reply? || f.code >= 500 || f.code == 404)
    && (v.status == Warning <==> f.Reply? && (f.code in {301, 302, 303, 307, 308} || (400 <= f.code < 500 && f.code != 404)))
    && v.status != Unknown
    && (v.reason == TimedOut <==> f.Timeout?)
    && (v.reason == ConnectionFailed <==> f.NoConnection?)
    && (v.reason == OtherFailure <==> f.Fault?)
    && (v.reason == NoLocation <==> f.Reply? && f.code in {301, 302, 303, 307, 308})
    && (v.reason == ServerError <==> f.Reply? && f.code >= 500)
    && (v.reason == PageNotFound <==> f.Reply? && f.code == 404)
    && (v.reason == ClientError <==> f.Reply? && 400 <= f.code < 500 && f.code != 404)
    && (v.reason == NoReason <==> v.status == Healthy)
    && (v.raised <==> !f.Reply?)
  }

  /** Nothing else does. */
  lemma FitsOnce(v: Verdict, w: Verdict, f: Fetch)
    requires Fits(v, f) && Fits(w, f)
    ensures v == w
  {
  }

  lemma ClassifyFits(f: Fetch)
    ensures Fits(Classify(f), f)
  {
  }

  /** Each URL answered with a redirect to the one after it. */
  ghost predicate Redirected(fetch: string -> Fetch, fetched: seq<string>) {
    forall i :: 0 <= i < |fetched| - 1 ==>
      && fetch(fetched[i]).Reply? && fetch(fetched[i]).code in {301, 302, 303, 307, 308}
      && fetch(fetched[i]).location == Some(fetched[i + 1])
  }

  lemma OrderedRedirects(fetch: string -> Fetch, start: string, fetched: seq<string>)
    requires InOrder(fetch, start, fetched)
    ensures Redirected(fetch, fetched)
  {
    forall i | 0 <= i < |fetched| - 1 ensures Hops(fetch, fetched[i]) && NextUrl(fetch, fetched[i]) == fetched[i + 1] {
      assert Orbit(fetch, start, i) == Some(fetched[i]) && Orbit(fetch, start, i + 1) == Some(fetched[i + 1]);
    }
  }

  /** What a walk of `count` fetches has to report. */
  ghost predicate Judges(v: Verdict, count: nat, fetch: string -> Fetch, start: string) {
    && (v.reason == Loop <==> exists k: nat :: k < MAX_FETCHES && Revisits(fetch, start, k))
    && (v.reason == Loop ==> v == Verdict(Broken, Loop, false))
    && (forall k: nat :: k < MAX_FETCHES && StopsAt(fetch, start, k) ==>
          Fits(v, fetch(Orbit(fetch, start, k).value)) && count == k + 1)
    && ((forall k: nat :: k < MAX_FETCHES ==> !StopsAt(fetch, start, k) && !Revisits(fetch, start, k)) ==>
          v == Verdict(Healthy, NoReason, false) && count == MAX_FETCHES)
  }

  lemma LoopJudged(fetch: string -> Fetch, start: string, k: nat)
    requires k < MAX_FETCHES && Revisits(fetch, start, k)
    ensures Judges(Verdict(Broken, Loop, false), k, fetch, start)
  {
    forall m: nat ensures !StopsAt(fetch, start, m) { RevisitsNeverStop(fetch, start, k, m); }
  }

  lemma StopJudged(fetch: string -> Fetch, start: string, k: nat)
    requires k < MAX_FETCHES && StopsAt(fetch, start, k)
    ensures Judges(Classify(fetch(Orbit(fetch, start, k).value)), k + 1, fetch, start)
  {
    var v := Classify(fetch(Orbit(fetch, start, k).value));
    ClassifyFits(fetch(Orbit(fetch, start, k).value));
    assert v.reason != Loop;
    forall m: nat ensures (StopsAt(fetch, start, m) ==> m == k) && !Revisits(fetch, start, m) {
      StopsOnce(fetch, start, k, m);
    }
  }

  lemma LimitJudged(fetch: string -> Fetch, start: string, fetched: seq<string>)
    requires |fetched| == MAX_FETCHES && Walked(fetch, start, fetched)
    ensures Judges(Verdict(Healthy, NoReason, false), |fetched|, fetch, start)
  {
    forall k: nat | k < MAX_FETCHES ensures !Revisits(fetch, start, k) && !StopsAt(fetch, start, k) {
      OrbitPrefix(fetch, start, MAX_FETCHES, k);
      assert Orbit(fetch, start, k) == Some(fetched[k]);
      forall i | 0 <= i < k ensures Orbit(fetch, start, i) != Orbit(fetch, start, k) {
        assert Orbit(fetch, start, i) == Some(fetched[i]);
      }
    }
  }

  /** The URLs fetched so far are the orbit up to here, each only once, and each led on. */
  ghost predicate Walked(fetch: string -> Fetch, start: string, fetched: seq<string>) {
    && Orbit(fetch, start, |fetched|).Some?
    && InOrder(fetch, start, fetched)
    && Distinct(fetched)
  }

  ghost predicate InOrder(fetch: string -> Fetch, start: string, fetched: seq<string>) {
    forall i :: 0 <= i < |fetched| ==> Orbit(fetch, start, i) == Some(fetched[i])
  }

  predicate Distinct(s: seq<string>) {
    forall i, j :: 0 <= i < j < |s| ==> s[i] != s[j]
  }

  /** At most ten different URLs are requested, from the start along the redirects, and the verdict fits. */
  ghost predicate Walks(v: Verdict, fetched: seq<string>, fetch: string -> Fetch, start: string) {
    && |fetched| <= MAX_FETCHES && Distinct(fetched)
    && (fetched != [] ==> fetched[0] == start) && Redirected(fetch, fetched) && InOrder(fetch, start, fetched)
    && Judges(v, |fetched|, fetch, start)
  }

  lemma LoopEnds(fetch: string -> Fetch, start: string, fetched: seq<string>, current: string)
    requires |fetched| < MAX_FETCHES && Walked(fetch, start, fetched) && current in fetched
    requires Orbit(fetch, start, |fetched|) == Some(current)
    ensures Walks(Verdict(Broken, Loop, false), fetched, fetch, start)
  {
    var i :| 0 <= i < |fetched| && fetched[i] == current;
    assert Orbit(fetch, start, i) == Orbit(fetch, start, |fetched|);
    LoopJudged(fetch, start, |fetched|);
    OrderedRedirects(fetch, start, fetched);
  }

  lemma StopEnds(fetch: string -> Fetch, start: string, fetched: seq<string>, current: string)
    requires |fetched| < MAX_FETCHES && Walked(fetch, start, fetched) && current !in fetched && !Hops(fetch, current)
    requires Orbit(fetch, start, |fetched|) == Some(current)
    ensures Walks(Classify(fetch(current)), fetched + [current], fetch, start)
  {
    StopJudged(fetch, start, |fetched|);
    assert InOrder(fetch, start, fetched + [current]);
    OrderedRedirects(fetch, start, fetched + [current]);
  }

  lemma LimitEnds(fetch: string -> Fetch, start: string, fetched: seq<string>)
    requires |fetched| == MAX_FETCHES && Walked(fetch, start, fetched)
    ensures Walks(Verdict(Healthy, NoReason, false), fetched, fetch, start)
  {
    LimitJudged(fetch, start, fetched);
    OrderedRedirects(fetch, start, fetched);
  }

  lemma WalksOn(fetch: string -> Fetch, start: string, fetched: seq<string>, current: string)
    requires Walked(fetch, start, fetched) && Orbit(fetch, start, |fetched|) == Some(current)
    requires current !in fetched && Hops(fetch, current)
    ensures Walked(fetch, start, fetched + [current])
    ensures Orbit(fetch, start, |fetched + [current]|) == Some(NextUrl(fetch, current))
  {
  }

  /** The redirect walk. `fetched` are the URLs requested, in order. */
  method Follow(start: string, fetch: string -> Fetch) returns (v: Verdict, fetched: seq<string>)
    ensures Walks(v, fetched, fetch, start)
  {
    fetched := [];
    var current, redirects := start, 0;
    var seen: set<string> := {};
    while redirects < MAX_FETCHES
      invariant 0 <= redirects <= MAX_FETCHES && |fetched| == redirects
      invariant Walked(fetch, start, fetched) && Orbit(fetch, start, redirects) == Some(current)
      invariant forall u :: u in seen <==> u in fetched
    {
      if current in seen {
        v := Verdict(Broken, Loop, false);
        LoopEnds(fetch, start, fetched, current);
        return;
      }
      ghost var before := fetched;
      seen := seen + {current};
      fetched := fetched + [current];
      var response := fetch(current);
      if !Hops(fetch, current) {
        v := Classify(response);
        StopEnds(fetch, start, before, current);
        return;
      }
      WalksOn(fetch, start, before, current);
      current := NextUrl(fetch, current);
      redirects := redirects + 1;
    }
    LimitEnds(fetch, start, fetched);
    v := Verdict(Healthy, NoReason, false);
  }

  // ----- the stored record

  /** After the walk, a certificate about to expire overwrites whatever the walk found. */
  function WithCertificate(v: Verdict, daysLeft: Option<int>): Verdict {
    if v.raised || daysLeft.None? || daysLeft.value >= 30 then v
    else if daysLeft.value < 7 then v.(status := Broken, reason := CertificateExpires(daysLeft.value))
    else v.(status := Warning, reason := CertificateExpires(daysLeft.value))
  }

  /** A broken link ends up reported as a mere warning exactly when its certificate has 7 to 29 days left. */
  lemma CertificateHidesBreakage(v: Verdict, daysLeft: Option<int>)
    requires v.status == Broken && !v.raised
    ensures WithCertificate(v, daysLeft).status != Broken <==> daysLeft.Some? && 7 <= daysLeft.value < 30
  {
  }

  /** The certificate is looked up for https URLs only. */
  function CertificateDays(url: string, daysLeft: Option<int>): Option<int> {
    if UrlNormalize.SchemeOf(url) == UrlNormalize.HTTPS then daysLeft else None
  }

  /** The scheme's letters may be in either case. */
  predicate IsHttps(url: string) {
    |url| >= 6 && UrlText.Lower(url[..5]) == "https" && url[5] == ':'
  }

  lemma HttpsUrls(url: string)
    ensures UrlNormalize.SchemeOf(url) == UrlNormalize.HTTPS <==> IsHttps(url)
  {
    UrlNormalize.SchemeIs(url, UrlNormalize.HTTPS);
  }

  /** What is stored, given the walk's verdict: an https certificate with fewer than 30 days left takes its place. */
  ghost predicate Reports(status: Status, reason: Reason, v: Verdict, https: bool, daysLeft: Option<int>) {
    if !v.raised && https && daysLeft.Some? && daysLeft.value < 30 then
      status == (if daysLeft.value < 7 then Broken else Warning) && reason == CertificateExpires(daysLeft.value)
    else
      status == v.status && reason == v.reason
  }

  lemma CertificateReported(v: Verdict, url: string, daysLeft: Option<int>)
    ensures var w := WithCertificate(v, CertificateDays(url, daysLeft));
            Reports(w.status, w.reason, v, IsHttps(url), daysLeft)
  {
    HttpsUrls(url);
  }

  class HealthRecord {
    var status: Status
    var reason: Reason
    var checks: nat
    var successes: nat
    /** In percent, unrounded. */
    var availability: real

    constructor ()
      ensures Valid() && checks == 0 && successes == 0 && status == Unknown && availability == 100.0
    {
      status, reason, checks, successes, availability := Unknown, NoReason, 0, 0, 100.0;
    }

    ghost predicate Valid()
      reads this
    {
      && successes <= checks
      && 0.0 <= availability <= 100.0
      && (checks > 0 ==> availability == Percent(successes, checks))
    }

    /** One check; `safe` is whether the URL passes validation, `daysLeft` what a certificate lookup says. */
    method CheckUrl(url: string, safe: bool, fetch: string -> Fetch, daysLeft: Option<int>) returns (fetched: seq<string>)
      requires Valid()
      modifies this
      ensures Valid()
      ensures Checked(status, reason, fetched, url, safe, fetch, daysLeft)
      ensures checks == old(checks) + 1
      ensures successes == old(successes) + (if status == Healthy then 1 else 0)
    {
      var v;
      if safe {
        v, fetched := Follow(url, fetch);
        CheckedSafely(v, fetched, url, fetch, daysLeft);
        v := WithCertificate(v, CertificateDays(url, daysLeft));
      } else {
        v, fetched := Verdict(Broken, OtherFailure, true), [];
      }
      status, reason := v.status, v.reason;
      checks := checks + 1;
      successes := successes + (if status == Healthy then 1 else 0);
      availability := Percent(successes, checks);
    }
  }

  /** An unsafe URL is not requested; a safe one is walked, and the walk's verdict reported. */
  ghost predicate Checked(status: Status, reason: Reason, fetched: seq<string>, url: string, safe: bool,
                          fetch: string -> Fetch, daysLeft: Option<int>) {
    if safe then
      exists v: Verdict :: Walks(v, fetched, fetch, url) && Reports(status, reason, v, IsHttps(url), daysLeft)
    else
      fetched == [] && status == Broken && reason == OtherFailure
  }

  lemma CheckedSafely(v: Verdict, fetched: seq<string>, url: string, fetch: string -> Fetch, daysLeft: Option<int>)
    requires Walks(v, fetched, fetch, url)
    ensures var w := WithCertificate(v, CertificateDays(url, daysLeft));
            Checked(w.status, w.reason, fetched, url, true, fetch, daysLeft)
  {
    CertificateReported(v, url, daysLeft);
  }

  function Percent(successes: nat, checks: nat): (p: real)
    requires 0 < checks && successes <= checks
    ensures 0.0 <= p <= 100.0
    ensures p == 0.0 <==> successes == 0
    ensures p == 100.0 <==> successes == checks
  {
    Quotient(successes as real, checks as real);
    successes as real / checks as real * 100.0
  }

  /** It is the share of successes in hundredths. */
  lemma PercentIsShare(successes: nat, checks: nat)
    requires 0 < checks && successes <= checks
    ensures Percent(successes, checks) * checks as real == 100.0 * successes as real
  {
    var a, b := successes as real, checks as real;
    assert a / b * b == a;
    assert a / b * 100.0 * b == a / b * b * 100.0;
  }

  lemma Quotient(a: real, b: real)
    requires 0.0 <= a <= b && 0.0 < b
    ensures 0.0 <= a / b <= 1.0 && (a / b == 0.0 <==> a == 0.0) && (a / b == 1.0 <==> a == b)
  {
  }
}
