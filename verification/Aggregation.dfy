/**
 Pre-aggregated analytics: per-day breakdowns cut to the twenty commonest values, merged over days
 and cut to ten for the dashboard, compared with counting the click log directly.
 */
module Aggregation {
  import opened Wrappers
  import opened Sums

  datatype Click = Click(url: nat, day: int, ip: string, country: Option<string>, device: Option<string>, browser: Option<string>)

  /** The breakdowns the dashboard merges. */
  datatype Field = Country | Device | Browser

  type Counts = map<string, nat>

  datatype Aggregate = Aggregate(total: nat, unique: nat, repeats: nat, countries: Counts, devices: Counts, browsers: Counts) {
    function Breakdown(f: Field): Counts {
      match f
      case Country => countries
      case Device => devices
      case Browser => browsers
    }
  }

  /** A missing or empty column counts as "Unknown". */
  function Value(c: Click, f: Field): string {
    var v := match f case Country => c.country case Device => c.device case Browser => c.browser;
    if v.None? || v.value == "" then "Unknown" else v.value
  }

  function ClicksOn(log: seq<Click>, url: nat, day: int): seq<Click> {
    if log == [] then []
    else (if log[0].url == url && log[0].day == day then [log[0]] else []) + ClicksOn(log[1..], url, day)
  }

  function Values(clicks: seq<Click>, f: Field): (vs: seq<string>)
    ensures |vs| == |clicks|
  {
    if clicks == [] then [] else [Value(clicks[0], f)] + Values(clicks[1..], f)
  }

  function Ips(clicks: seq<Click>): (ips: seq<string>)
    ensures |ips| == |clicks|
  {
    if clicks == [] then [] else [clicks[0].ip] + Ips(clicks[1..])
  }

  /** Counter(values). */
  function Tally(vs: seq<string>): Counts {
    map v | v in vs :: multiset(vs)[v]
  }

  function Get(m: Counts, v: string): nat {
    if v in m then m[v] else 0
  }

  /** `t` holds the n largest counts of `m` (all of them when there are fewer), ties broken anyhow. */
  ghost predicate IsTop(m: Counts, n: nat, t: Counts) {
    && t.Keys <= m.Keys && (forall k :: k in t ==> t[k] == m[k])
    && |t| == (if |m| < n then |m| else n)
    && (forall k, l :: k in t && l in m && l !in t ==> m[l] <= m[k])
  }

  // ----- what a cut can lose

  function Weight(m: Counts): string -> int {
    v => Get(m, v)
  }

  lemma {:induction false} TallySum(vs: seq<string>, keys: set<string>)
    requires forall v :: v in vs ==> v in keys
    ensures SumSet(keys, v => multiset(vs)[v]) == |vs|
  {
    var w := v => multiset(vs)[v];
    if vs == [] {
      SumSetZero(keys, w);
    } else {
      var last, rest := vs[|vs| - 1], vs[..|vs| - 1];
      assert vs == rest + [last];
      var u := v => multiset(rest)[v];
      TallySum(rest, keys);
      SumSetRemove(keys, last, w);
      SumSetRemove(keys, last, u);
      SumSetSame(keys - {last}, w, u);
    }
  }

  /** The counts of a tally add up to the number of values. */
  lemma TallyTotal(vs: seq<string>)
    ensures SumSet(Tally(vs).Keys, Weight(Tally(vs))) == |vs|
  {
    var m := Tally(vs);
    TallySum(vs, m.Keys);
    SumSetSame(m.Keys, Weight(m), v => multiset(vs)[v]);
  }

  lemma {:induction false} SumAtLeast(s: set<string>, w: string -> int, c: nat)
    requires forall x :: x in s ==> w(x) >= c
    ensures SumSet(s, w) >= |s| * c
    decreases |s|
  {
    if s != {} {
      var x :| x in s;
      SumSetRemove(s, x, w);
      SumAtLeast(s - {x}, w, c);
      OneMoreTimes(|s - {x}|, c);
    }
  }

  lemma OneMoreTimes(n: nat, c: int)
    ensures (n + 1) * c == n * c + c
  {
  }

  lemma {:induction false} SumOfPart(part: set<string>, s: set<string>, w: string -> int)
    requires part <= s && forall x :: x in s ==> w(x) >= 0
    ensures SumSet(part, w) <= SumSet(s, w)
    decreases |s|
  {
    if s != {} {
      var x :| x in s;
      SumSetRemove(s, x, w);
      if x in part {
        SumSetRemove(part, x, w);
        SumOfPart(part - {x}, s - {x}, w);
      } else {
        SumOfPart(part, s - {x}, w);
      }
    }
  }

  lemma TopIsFull(m: Counts, n: nat, t: Counts)
    requires IsTop(m, n, t) && t.Keys != m.Keys
    ensures |t| == n && |m| > n
  {
    if |t| == |m| { SubsetOfSameSize(t.Keys, m.Keys); }
  }

  lemma HeavyPart(m: Counts, n: nat, t: Counts, v: string)
    requires IsTop(m, n, t) && v in m && v !in t
    ensures |t.Keys + {v}| == n + 1 && t.Keys + {v} <= m.Keys
    ensures forall x :: x in t.Keys + {v} ==> Weight(m)(x) >= m[v]
  {
    TopIsFull(m, n, t);
    forall x | x in t.Keys + {v} ensures Weight(m)(x) >= m[v] {
      if x != v { assert x in t && m[v] <= m[x]; }
    }
  }

  /** A value cut from the top n has at most one (n+1)-th of the whole. */
  lemma CutIsSmall(m: Counts, n: nat, t: Counts, v: string)
    requires IsTop(m, n, t) && v in m && v !in t
    ensures (n + 1) * m[v] <= SumSet(m.Keys, Weight(m))
  {
    HeavyPart(m, n, t, v);
    SumAtLeast(t.Keys + {v}, Weight(m), m[v]);
    SumOfPart(t.Keys + {v}, m.Keys, Weight(m));
  }

  lemma SubsetOfSameSize(a: set<string>, b: set<string>)
    requires a <= b && |a| == |b|
    ensures a == b
  {
    if x :| x in b && x !in a {
      assert a <= b - {x};
      SubsetNotLarger(a, b - {x});
    }
  }

  lemma {:induction false} SubsetNotLarger(a: set<string>, b: set<string>)
    requires a <= b
    ensures |a| <= |b|
    decreases |a|
  {
    if a != {} {
      var x :| x in a;
      SubsetNotLarger(a - {x}, b - {x});
    }
  }

  // ----- one day

  /** The aggregate is what aggregation computes from the log for this link and day. */
  ghost predicate UpToDate(agg: Aggregate, log: seq<Click>, url: nat, day: int) {
    var clicks := ClicksOn(log, url, day);
    && agg.total == |clicks|
    && agg.unique == |(set ip | ip in Ips(clicks))|
    && agg.repeats == |(set ip | ip in Ips(clicks) && multiset(Ips(clicks))[ip] > 1)|
    && forall f :: IsTop(Tally(Values(clicks, f)), 20, agg.Breakdown(f))
  }

  /** Clicks on the day with value v, counted directly. */
  function DayCount(log: seq<Click>, url: nat, day: int, f: Field, v: string): nat {
    multiset(Values(ClicksOn(log, url, day), f))[v]
  }

  lemma AtMostAShare(c: nat, total: nat, parts: nat)
    requires parts > 0 && parts * c <= total
    ensures c <= total / parts
  {
    var q, r := total / parts, total % parts;
    assert parts * c < parts * (q + 1);
  }

  /** A kept value has its full count; a missing one has at most a 21st of the day. */
  lemma KeptOrSmall(vs: seq<string>, t: Counts, v: string)
    requires IsTop(Tally(vs), 20, t)
    ensures v in t ==> t[v] == multiset(vs)[v]
    ensures v !in t ==> multiset(vs)[v] <= |vs| / 21
    ensures v !in t && |Tally(vs)| <= 20 ==> multiset(vs)[v] == 0
  {
    var m := Tally(vs);
    assert v in vs <==> multiset(vs)[v] > 0;
    if v in m && v !in t {
      TopIsFull(m, 20, t);
      CutIsSmall(m, 20, t, v);
      TallyTotal(vs);
      AtMostAShare(m[v], |vs|, 21);
    } else if v in t {
      assert v in m;
    }
  }

  /** One day's kept count is right or missing, and what is missing is at most total/21. */
  lemma DayError(agg: Aggregate, log: seq<Click>, url: nat, day: int, f: Field, v: string)
    requires UpToDate(agg, log, url, day)
    ensures Get(agg.Breakdown(f), v) <= DayCount(log, url, day, f, v) <= Get(agg.Breakdown(f), v) + agg.total / 21
  {
    KeptOrSmall(Values(ClicksOn(log, url, day), f), agg.Breakdown(f), v);
  }

  lemma DayExact(agg: Aggregate, log: seq<Click>, url: nat, day: int, f: Field, v: string)
    requires UpToDate(agg, log, url, day) && |Tally(Values(ClicksOn(log, url, day), f))| <= 20
    ensures Get(agg.Breakdown(f), v) == DayCount(log, url, day, f, v)
  {
    KeptOrSmall(Values(ClicksOn(log, url, day), f), agg.Breakdown(f), v);
  }

  // ----- many days

  /** Clicks of the link on any of the days with value v, in one pass over the log. */
  function DirectCount(log: seq<Click>, url: nat, days: set<int>, f: Field, v: string): nat {
    if log == [] then 0
    else (if log[0].url == url && log[0].day in days && Value(log[0], f) == v then 1 else 0)
         + DirectCount(log[1..], url, days, f, v)
  }

  function DirectTotal(log: seq<Click>, url: nat, days: set<int>): nat {
    if log == [] then 0
    else (if log[0].url == url && log[0].day in days then 1 else 0) + DirectTotal(log[1..], url, days)
  }

  /** The day's clicks after one more click at the front of the log. */
  lemma ClicksOnStep(log: seq<Click>, url: nat, day: int, f: Field)
    requires log != []
    ensures var rest := ClicksOn(log[1..], url, day);
            ClicksOn(log, url, day) == (if log[0].url == url && log[0].day == day then [log[0]] + rest else rest)
    ensures var rest := ClicksOn(log[1..], url, day);
            Values(ClicksOn(log, url, day), f)
            == (if log[0].url == url && log[0].day == day then [Value(log[0], f)] + Values(rest, f) else Values(rest, f))
  {
    var rest := ClicksOn(log[1..], url, day);
    if log[0].url == url && log[0].day == day {
      assert ([log[0]] + rest)[1..] == rest;
    } else {
      assert ClicksOn(log, url, day) == [] + rest == rest;
    }
  }

  lemma DayCountStep(log: seq<Click>, url: nat, day: int, f: Field, v: string)
    requires log != []
    ensures DayCount(log, url, day, f, v)
            == DayCount(log[1..], url, day, f, v)
               + (if log[0].url == url && log[0].day == day && Value(log[0], f) == v then 1 else 0)
  {
    ClicksOnStep(log, url, day, f);
    var vs := Values(ClicksOn(log[1..], url, day), f);
    assert multiset([Value(log[0], f)] + vs) == multiset{Value(log[0], f)} + multiset(vs);
  }

  lemma {:induction false} DirectSplit(log: seq<Click>, url: nat, days: set<int>, day: int, f: Field, v: string)
    requires day !in days
    ensures DirectCount(log, url, days + {day}, f, v) == DirectCount(log, url, days, f, v) + DayCount(log, url, day, f, v)
  {
    if log != [] {
      DirectSplit(log[1..], url, days, day, f, v);
      DayCountStep(log, url, day, f, v);
    }
  }

  lemma {:induction false} DirectTotalSplit(log: seq<Click>, url: nat, days: set<int>, day: int)
    requires day !in days
    ensures DirectTotal(log, url, days + {day}) == DirectTotal(log, url, days) + |ClicksOn(log, url, day)|
  {
    if log != [] {
      DirectTotalSplit(log[1..], url, days, day);
      ClicksOnStep(log, url, day, Country);
    }
  }

  lemma {:induction false} DirectNone(log: seq<Click>, url: nat, f: Field, v: string)
    ensures DirectCount(log, url, {}, f, v) == 0 && DirectTotal(log, url, {}) == 0
  {
    if log != [] { DirectNone(log[1..], url, f, v); }
  }

  function Plus(a: Counts, b: Counts): Counts {
    map v | v in a.Keys + b.Keys :: Get(a, v) + Get(b, v)
  }

  /** The dashboard's merge of one breakdown over the aggregates. */
  function Merged(aggs: seq<Aggregate>, f: Field): Counts {
    if aggs == [] then map[] else Plus(Merged(aggs[..|aggs| - 1], f), aggs[|aggs| - 1].Breakdown(f))
  }

  function Totals(aggs: seq<Aggregate>): nat {
    if aggs == [] then 0 else Totals(aggs[..|aggs| - 1]) + aggs[|aggs| - 1].total
  }

  function Losses(aggs: seq<Aggregate>): nat {
    if aggs == [] then 0 else Losses(aggs[..|aggs| - 1]) + aggs[|aggs| - 1].total / 21
  }

  function Uniques(aggs: seq<Aggregate>): nat {
    if aggs == [] then 0 else Uniques(aggs[..|aggs| - 1]) + aggs[|aggs| - 1].unique
  }

  function Repeats(aggs: seq<Aggregate>): nat {
    if aggs == [] then 0 else Repeats(aggs[..|aggs| - 1]) + aggs[|aggs| - 1].repeats
  }

  ghost predicate Covers(aggs: seq<Aggregate>, days: seq<int>, log: seq<Click>, url: nat) {
    && |aggs| == |days|
    && (forall i, j :: 0 <= i < j < |days| ==> days[i] < days[j])
    && (forall i :: 0 <= i < |days| ==> UpToDate(aggs[i], log, url, days[i]))
  }

  function DaySet(days: seq<int>): set<int> {
    set d | d in days
  }

  lemma CoversInit(aggs: seq<Aggregate>, days: seq<int>, log: seq<Click>, url: nat)
    requires Covers(aggs, days, log, url) && aggs != []
    ensures Covers(aggs[..|aggs| - 1], days[..|days| - 1], log, url)
    ensures DaySet(days) == DaySet(days[..|days| - 1]) + {days[|days| - 1]}
    ensures days[|days| - 1] !in DaySet(days[..|days| - 1])
  {
    var n := |days| - 1;
    assert days == days[..n] + [days[n]];
  }

  lemma MergedStep(aggs: seq<Aggregate>, f: Field, v: string)
    requires aggs != []
    ensures var n := |aggs| - 1;
            Get(Merged(aggs, f), v) == Get(Merged(aggs[..n], f), v) + Get(aggs[n].Breakdown(f), v)
  {
  }

  /** What the cuts of the single days lose of one value. */
  ghost function Missing(aggs: seq<Aggregate>, days: seq<int>, log: seq<Click>, url: nat, f: Field, v: string): int
    requires |aggs| == |days|
  {
    if aggs == [] then 0 else
    var n := |aggs| - 1;
    Missing(aggs[..n], days[..n], log, url, f, v) + DayCount(log, url, days[n], f, v) - Get(aggs[n].Breakdown(f), v)
  }

  lemma MissingStep(aggs: seq<Aggregate>, days: seq<int>, log: seq<Click>, url: nat, f: Field, v: string)
    requires |aggs| == |days| && aggs != []
    ensures var n := |aggs| - 1;
            Missing(aggs, days, log, url, f, v)
            == Missing(aggs[..n], days[..n], log, url, f, v) + DayCount(log, url, days[n], f, v) - Get(aggs[n].Breakdown(f), v)
  {
  }

  lemma NothingToMerge(days: seq<int>, log: seq<Click>, url: nat, f: Field, v: string)
    requires days == []
    ensures DirectCount(log, url, DaySet(days), f, v) == Get(Merged([], f), v) + Missing([], days, log, url, f, v)
  {
    assert DaySet(days) == {};
    DirectNone(log, url, f, v);
  }

  /** The direct count of one more day. */
  lemma DirectStep(days: seq<int>, log: seq<Click>, url: nat, f: Field, v: string, n: nat)
    requires |days| == n + 1 && DaySet(days) == DaySet(days[..n]) + {days[n]} && days[n] !in DaySet(days[..n])
    ensures DirectCount(log, url, DaySet(days), f, v)
            == DirectCount(log, url, DaySet(days[..n]), f, v) + DayCount(log, url, days[n], f, v)
  {
    DirectSplit(log, url, DaySet(days[..n]), days[n], f, v);
  }

  /** Counting directly is merging plus what the cuts lost. */
  lemma {:induction false} DirectIsMergedPlusMissing(
      aggs: seq<Aggregate>, days: seq<int>, log: seq<Click>, url: nat, f: Field, v: string)
    requires Covers(aggs, days, log, url)
    ensures DirectCount(log, url, DaySet(days), f, v) == Get(Merged(aggs, f), v) + Missing(aggs, days, log, url, f, v)
  {
    if aggs == [] {
      NothingToMerge(days, log, url, f, v);
    } else {
      var n := |aggs| - 1;
      CoversInit(aggs, days, log, url);
      DirectIsMergedPlusMissing(aggs[..n], days[..n], log, url, f, v);
      DirectStep(days, log, url, f, v, n);
      MergedStep(aggs, f, v);
      MissingStep(aggs, days, log, url, f, v);
    }
  }

  lemma LossesStep(aggs: seq<Aggregate>)
    requires aggs != []
    ensures Losses(aggs) == Losses(aggs[..|aggs| - 1]) + aggs[|aggs| - 1].total / 21
  {
  }

  lemma {:induction false} MissingBounded(aggs: seq<Aggregate>, days: seq<int>, log: seq<Click>, url: nat, f: Field, v: string)
    requires Covers(aggs, days, log, url)
    ensures 0 <= Missing(aggs, days, log, url, f, v) <= Losses(aggs)
  {
    if aggs != [] {
      var n := |aggs| - 1;
      CoversInit(aggs, days, log, url);
      MissingBounded(aggs[..n], days[..n], log, url, f, v);
      DayError(aggs[n], log, url, days[n], f, v);
      MissingStep(aggs, days, log, url, f, v);
      LossesStep(aggs);
    }
  }

  /** No day has more than twenty distinct values. */
  ghost predicate FewValues(days: seq<int>, log: seq<Click>, url: nat, f: Field) {
    days == [] ||
    (FewValues(days[..|days| - 1], log, url, f)
     && |Tally(Values(ClicksOn(log, url, days[|days| - 1]), f))| <= 20)
  }

  lemma {:induction false} NothingMissing(aggs: seq<Aggregate>, days: seq<int>, log: seq<Click>, url: nat, f: Field, v: string)
    requires Covers(aggs, days, log, url) && FewValues(days, log, url, f)
    ensures Missing(aggs, days, log, url, f, v) == 0
  {
    if aggs != [] {
      var n := |aggs| - 1;
      CoversInit(aggs, days, log, url);
      NothingMissing(aggs[..n], days[..n], log, url, f, v);
      MissingStep(aggs, days, log, url, f, v);
      DayExact(aggs[n], log, url, days[n], f, v);
    }
  }

  lemma MergedError(aggs: seq<Aggregate>, days: seq<int>, log: seq<Click>, url: nat, f: Field, v: string)
    requires Covers(aggs, days, log, url)
    ensures Get(Merged(aggs, f), v) <= DirectCount(log, url, DaySet(days), f, v) <= Get(Merged(aggs, f), v) + Losses(aggs)
    ensures FewValues(days, log, url, f) ==> Get(Merged(aggs, f), v) == DirectCount(log, url, DaySet(days), f, v)
  {
    DirectIsMergedPlusMissing(aggs, days, log, url, f, v);
    MissingBounded(aggs, days, log, url, f, v);
    if FewValues(days, log, url, f) { NothingMissing(aggs, days, log, url, f, v); }
  }

  lemma {:induction false} TotalsDirect(aggs: seq<Aggregate>, days: seq<int>, log: seq<Click>, url: nat)
    requires Covers(aggs, days, log, url)
    ensures Totals(aggs) == DirectTotal(log, url, DaySet(days))
  {
    if aggs == [] {
      assert DaySet(days) == {};
      DirectNone(log, url, Country, "");
    } else {
      var n := |aggs| - 1;
      CoversInit(aggs, days, log, url);
      TotalsDirect(aggs[..n], days[..n], log, url);
      DirectTotalSplit(log, url, DaySet(days[..n]), days[n]);
      assert UpToDate(aggs[n], log, url, days[n]);
    }
  }

  lemma PlusSum(a: Counts, b: Counts, keys: set<string>)
    requires a.Keys + b.Keys <= keys
    ensures SumSet(keys, Weight(Plus(a, b))) == SumSet(keys, Weight(a)) + SumSet(keys, Weight(b))
  {
    SumSetPlus(keys, Weight(Plus(a, b)), Weight(a), Weight(b));
  }

  lemma {:induction false} SumSetPlus(s: set<string>, w: string -> int, u: string -> int, v: string -> int)
    requires forall x :: x in s ==> w(x) == u(x) + v(x)
    ensures SumSet(s, w) == SumSet(s, u) + SumSet(s, v)
    decreases |s|
  {
    if s != {} {
      var x :| x in s;
      SumSetRemove(s, x, w);
      SumSetRemove(s, x, u);
      SumSetRemove(s, x, v);
      SumSetPlus(s - {x}, w, u, v);
    }
  }

  lemma SumOverMore(m: Counts, keys: set<string>)
    requires m.Keys <= keys
    ensures SumSet(keys, Weight(m)) == SumSet(m.Keys, Weight(m))
  {
    SumSetExtend(m.Keys, keys, Weight(m));
  }

  lemma {:induction false} SumSetExtend(s: set<string>, t: set<string>, w: string -> int)
    requires s <= t && forall x :: x in t - s ==> w(x) == 0
    ensures SumSet(t, w) == SumSet(s, w)
    decreases |t|
  {
    if x :| x in t && x !in s {
      SumSetRemove(t, x, w);
      SumSetExtend(s, t - {x}, w);
    } else {
      assert s == t;
    }
  }

  /** Each row's breakdown adds up to no more than its total. */
  ghost predicate LightDays(aggs: seq<Aggregate>, f: Field) {
    forall i :: 0 <= i < |aggs| ==> Mass(aggs[i].Breakdown(f)) <= aggs[i].total
  }

  ghost function Mass(m: Counts): int {
    SumSet(m.Keys, Weight(m))
  }

  lemma PlusMass(a: Counts, b: Counts)
    ensures Mass(Plus(a, b)) == Mass(a) + Mass(b)
  {
    assert Plus(a, b).Keys == a.Keys + b.Keys;
    PlusSum(a, b, a.Keys + b.Keys);
    SumOverMore(a, a.Keys + b.Keys);
    SumOverMore(b, a.Keys + b.Keys);
  }

  lemma {:induction false} MergedIsLight(aggs: seq<Aggregate>, f: Field)
    requires LightDays(aggs, f)
    ensures Mass(Merged(aggs, f)) <= Totals(aggs)
  {
    if aggs != [] {
      var n := |aggs| - 1;
      MergedIsLight(aggs[..n], f);
      PlusMass(Merged(aggs[..n], f), aggs[n].Breakdown(f));
    }
  }

  /** The merged counts add up to no more than the clicks. */
  lemma MergedMass(aggs: seq<Aggregate>, days: seq<int>, log: seq<Click>, url: nat, f: Field)
    requires Covers(aggs, days, log, url)
    ensures SumSet(Merged(aggs, f).Keys, Weight(Merged(aggs, f))) <= Totals(aggs)
  {
    forall i | 0 <= i < |aggs| ensures Mass(aggs[i].Breakdown(f)) <= aggs[i].total {
      BreakdownMass(aggs[i], log, url, days[i], f);
    }
    MergedIsLight(aggs, f);
  }

  lemma BreakdownMass(agg: Aggregate, log: seq<Click>, url: nat, day: int, f: Field)
    requires UpToDate(agg, log, url, day)
    ensures SumSet(agg.Breakdown(f).Keys, Weight(agg.Breakdown(f))) <= agg.total
  {
    var vs := Values(ClicksOn(log, url, day), f);
    var m, t := Tally(vs), agg.Breakdown(f);
    assert IsTop(m, 20, t);
    TallyTotal(vs);
    SumSetSame(t.Keys, Weight(t), Weight(m));
    SumOfPart(t.Keys, m.Keys, Weight(m));
  }

  lemma TopGuarantee(aggs: seq<Aggregate>, days: seq<int>, log: seq<Click>, url: nat, f: Field, top: Counts, v: string)
    requires Covers(aggs, days, log, url) && IsTop(Merged(aggs, f), 10, top)
    ensures var true_ := DirectCount(log, url, DaySet(days), f, v);
            && (v in top ==> top[v] <= true_ <= top[v] + Losses(aggs))
            && (v !in top ==> true_ <= DirectTotal(log, url, DaySet(days)) / 11 + Losses(aggs))
  {
    MergedError(aggs, days, log, url, f, v);
    TotalsDirect(aggs, days, log, url);
    if v !in top && v in Merged(aggs, f) {
      CutIsSmall(Merged(aggs, f), 10, top, v);
      MergedMass(aggs, days, log, url, f);
      AtMostAShare(Merged(aggs, f)[v], Totals(aggs), 11);
    }
  }

  // ----- the counts, click by click

  /** The positions in the log of the clicks that satisfy the choice. */
  ghost function Where(log: seq<Click>, choice: Click -> bool): set<nat> {
    set i: nat | i < |log| && choice(log[i])
  }

  lemma {:induction false} WhereFront(log: seq<Click>, choice: Click -> bool)
    requires log != []
    ensures |Where(log, choice)| == |Where(log[1..], choice)| + (if choice(log[0]) then 1 else 0)
    decreases |log|
  {
    var n := |log| - 1;
    WhereLast(log, choice);
    if n == 0 {
      assert log[1..] == [] && log[..0] == [];
      assert Where([], choice) == {};
    } else {
      WhereFront(log[..n], choice);
      WhereLast(log[1..], choice);
      assert log[..n][1..] == log[1..][..n - 1];
    }
  }

  lemma WhereLast(log: seq<Click>, choice: Click -> bool)
    requires log != []
    ensures var n := |log| - 1;
            |Where(log, choice)| == |Where(log[..n], choice)| + (if choice(log[n]) then 1 else 0)
  {
    var n := |log| - 1;
    assert Where(log, choice) == Where(log[..n], choice) + (if choice(log[n]) then {n} else {});
  }

  /** The column holds this value; an empty or missing column holds "Unknown". */
  predicate Holds(column: Option<string>, v: string) {
    (v != "" && column == Some(v)) || (v == "Unknown" && (column == None || column == Some("")))
  }

  /** The click is one of the link's on one of the days, and its column for the breakdown holds the value. */
  function Hit(url: nat, days: set<int>, f: Field, v: string): Click -> bool {
    (c: Click) => c.url == url && c.day in days
         && match f case Country => Holds(c.country, v) case Device => Holds(c.device, v) case Browser => Holds(c.browser, v)
  }

  function OnDays(url: nat, days: set<int>): Click -> bool {
    (c: Click) => c.url == url && c.day in days
  }

  lemma {:induction false} DirectIsHits(log: seq<Click>, url: nat, days: set<int>, f: Field, v: string)
    ensures DirectCount(log, url, days, f, v) == |Where(log, Hit(url, days, f, v))|
  {
    if log == [] {
      assert Where(log, Hit(url, days, f, v)) == {};
    } else {
      DirectIsHits(log[1..], url, days, f, v);
      WhereFront(log, Hit(url, days, f, v));
    }
  }

  lemma {:induction false} DirectTotalIsHits(log: seq<Click>, url: nat, days: set<int>)
    ensures DirectTotal(log, url, days) == |Where(log, OnDays(url, days))|
  {
    if log == [] {
      assert Where(log, OnDays(url, days)) == {};
    } else {
      DirectTotalIsHits(log[1..], url, days);
      WhereFront(log, OnDays(url, days));
    }
  }

  /** The values the link's clicks of a day show. */
  ghost function Shown(log: seq<Click>, url: nat, day: int, f: Field): set<string> {
    set v | v in Values(ClicksOn(log, url, day), f)
  }

  lemma ShownByHits(log: seq<Click>, url: nat, day: int, f: Field, v: string)
    ensures v in Shown(log, url, day, f) <==> |Where(log, Hit(url, {day}, f, v))| > 0
  {
    DirectIsHits(log, url, {day}, f, v);
    DirectNone(log, url, f, v);
    DirectSplit(log, url, {}, day, f, v);
    assert {} + {day} == {day};
  }

  lemma {:induction false} FewAreShown(days: seq<int>, log: seq<Click>, url: nat, f: Field)
    requires forall d :: d in days ==> |Shown(log, url, d, f)| <= 20
    ensures FewValues(days, log, url, f)
  {
    if days != [] {
      var n := |days| - 1;
      assert days[n] in days && forall d :: d in days[..n] ==> d in days;
      FewAreShown(days[..n], log, url, f);
      assert Tally(Values(ClicksOn(log, url, days[n]), f)).Keys == Shown(log, url, days[n], f);
    }
  }

  /**
   Merging pre-aggregated days never overcounts a value and misses at most the sum over the days of
   floor(total/21); with at most twenty distinct values a day it is exact.
   */
  lemma MergeError(aggs: seq<Aggregate>, days: seq<int>, log: seq<Click>, url: nat, f: Field, v: string)
    requires Covers(aggs, days, log, url)
    ensures var hits := |Where(log, Hit(url, DaySet(days), f, v))|;
            && Get(Merged(aggs, f), v) <= hits <= Get(Merged(aggs, f), v) + Losses(aggs)
            && ((forall d :: d in days ==> |Shown(log, url, d, f)| <= 20) ==> Get(Merged(aggs, f), v) == hits)
  {
    MergedError(aggs, days, log, url, f, v);
    DirectIsHits(log, url, DaySet(days), f, v);
    if forall d :: d in days ==> |Shown(log, url, d, f)| <= 20 { FewAreShown(days, log, url, f); }
  }

  /** The dashboard's total is the number of clicks. */
  lemma TotalsExact(aggs: seq<Aggregate>, days: seq<int>, log: seq<Click>, url: nat)
    requires Covers(aggs, days, log, url)
    ensures Totals(aggs) == |Where(log, OnDays(url, DaySet(days)))|
  {
    TotalsDirect(aggs, days, log, url);
    DirectTotalIsHits(log, url, DaySet(days));
  }

  /**
   The dashboard's ten: a value on it is reported with at most its true count and at least that less
   the losses; a value not on it has at most one eleventh of all clicks plus the losses.
   */
  lemma DashboardGuarantee(aggs: seq<Aggregate>, days: seq<int>, log: seq<Click>, url: nat, f: Field, top: Counts, v: string)
    requires Covers(aggs, days, log, url) && IsTop(Merged(aggs, f), 10, top)
    ensures var hits, clicks := |Where(log, Hit(url, DaySet(days), f, v))|, |Where(log, OnDays(url, DaySet(days)))|;
            && (v in top ==> top[v] <= hits <= top[v] + Losses(aggs))
            && (v !in top ==> hits <= clicks / 11 + Losses(aggs))
  {
    TopGuarantee(aggs, days, log, url, f, top, v);
    DirectIsHits(log, url, DaySet(days), f, v);
    DirectTotalIsHits(log, url, DaySet(days));
  }

  function By(url: nat, day: int, ip: string): Click -> bool {
    (c: Click) => c.url == url && c.day == day && c.ip == ip
  }

  lemma {:induction false} VisitsOfDay(log: seq<Click>, url: nat, day: int, ip: string)
    ensures multiset(Ips(ClicksOn(log, url, day)))[ip] == |Where(log, By(url, day, ip))|
  {
    if log == [] {
      assert Where(log, By(url, day, ip)) == {};
    } else {
      var rest := ClicksOn(log[1..], url, day);
      VisitsOfDay(log[1..], url, day, ip);
      WhereFront(log, By(url, day, ip));
      ClicksOnStep(log, url, day, Country);
      assert ([log[0]] + rest)[1..] == rest;
      assert multiset([log[0].ip] + Ips(rest)) == multiset{log[0].ip} + multiset(Ips(rest));
    }
  }

  /** A day's repeat visitors are those with more than one click that day. */
  lemma RepeatsReturn(agg: Aggregate, log: seq<Click>, url: nat, day: int)
    requires UpToDate(agg, log, url, day)
    ensures agg.repeats == |(set ip | ip in Visitors(log, url, {day}) && |Where(log, By(url, day, ip))| > 1)|
  {
    var ips := Ips(ClicksOn(log, url, day));
    IpsOfDay(log, url, day);
    forall ip ensures multiset(ips)[ip] == |Where(log, By(url, day, ip))| { VisitsOfDay(log, url, day, ip); }
    assert (set ip | ip in ips && multiset(ips)[ip] > 1)
           == (set ip | ip in Visitors(log, url, {day}) && |Where(log, By(url, day, ip))| > 1) by {
      assert forall ip :: ip in ips <==> ip in (set i | i in ips);
    }
  }

  // ----- visitors

  /** Distinct visitors over the days, from the log. */
  function Visitors(log: seq<Click>, url: nat, days: set<int>): set<string> {
    set i | 0 <= i < |log| && log[i].url == url && log[i].day in days :: log[i].ip
  }

  lemma {:induction false} IpsOfDay(log: seq<Click>, url: nat, day: int)
    ensures (set ip | ip in Ips(ClicksOn(log, url, day))) == Visitors(log, url, {day})
  {
    if log != [] {
      IpsOfDay(log[1..], url, day);
      var rest := ClicksOn(log[1..], url, day);
      var here := log[0].url == url && log[0].day == day;
      assert Visitors(log, url, {day}) == Visitors(log[1..], url, {day}) + (if here then {log[0].ip} else {}) by {
        VisitorsStep(log, url, {day});
      }
      if here {
        assert ClicksOn(log, url, day) == [log[0]] + rest;
        assert ([log[0]] + rest)[1..] == rest;
        assert Ips([log[0]] + rest) == [log[0].ip] + Ips(rest);
      } else {
        assert ClicksOn(log, url, day) == rest;
      }
    }
  }

  lemma VisitorsStep(log: seq<Click>, url: nat, days: set<int>)
    requires log != []
    ensures Visitors(log, url, days)
            == Visitors(log[1..], url, days) + (if log[0].url == url && log[0].day in days then {log[0].ip} else {})
  {
    var rest := log[1..];
    forall ip | ip in Visitors(log, url, days)
      ensures ip in Visitors(rest, url, days) + (if log[0].url == url && log[0].day in days then {log[0].ip} else {})
    {
      var i :| 0 <= i < |log| && log[i].url == url && log[i].day in days && log[i].ip == ip;
      if i > 0 { assert rest[i - 1] == log[i]; }
    }
    forall ip | ip in Visitors(rest, url, days) ensures ip in Visitors(log, url, days) {
      var i :| 0 <= i < |rest| && rest[i].url == url && rest[i].day in days && rest[i].ip == ip;
      assert log[i + 1] == rest[i];
    }
  }

  /** No visitor comes on two of the days. */
  ghost predicate NoReturns(log: seq<Click>, url: nat, days: seq<int>) {
    forall i, j :: 0 <= i < j < |days| ==> Visitors(log, url, {days[i]}) !! Visitors(log, url, {days[j]})
  }

  lemma VisitorsSplit(log: seq<Click>, url: nat, days: set<int>, day: int)
    ensures Visitors(log, url, days + {day}) == Visitors(log, url, days) + Visitors(log, url, {day})
  {
  }

  lemma UnionSize(a: set<string>, b: set<string>)
    ensures |a + b| <= |a| + |b|
    ensures |a + b| == |a| + |b| <==> a !! b
  {
    assert a + b == a + (b - a);
    assert |a + (b - a)| == |a| + |b - a|;
    assert b == (b - a) + (a * b);
    assert |b| == |b - a| + |a * b|;
  }

  lemma UniqueToday(agg: Aggregate, log: seq<Click>, url: nat, day: int)
    requires UpToDate(agg, log, url, day)
    ensures agg.unique == |Visitors(log, url, {day})|
  {
    IpsOfDay(log, url, day);
  }

  /** The days are distinct, and each row has the day's distinct visitors. */
  ghost predicate UniqueDays(aggs: seq<Aggregate>, days: seq<int>, log: seq<Click>, url: nat) {
    && |aggs| == |days|
    && (forall i, j :: 0 <= i < j < |days| ==> days[i] != days[j])
    && (forall i :: 0 <= i < |days| ==> aggs[i].unique == |Visitors(log, url, {days[i]})|)
  }

  lemma CoversUniqueDays(aggs: seq<Aggregate>, days: seq<int>, log: seq<Click>, url: nat)
    requires Covers(aggs, days, log, url)
    ensures UniqueDays(aggs, days, log, url)
  {
    forall i | 0 <= i < |days| ensures aggs[i].unique == |Visitors(log, url, {days[i]})| {
      UniqueToday(aggs[i], log, url, days[i]);
    }
  }

  /**
   The dashboard's unique visitors (a sum over days) never fall short of the distinct visitors, and
   are exact if and only if nobody came on two of the days.
   */
  lemma UniqueVisitorsOvercount(aggs: seq<Aggregate>, days: seq<int>, log: seq<Click>, url: nat)
    requires Covers(aggs, days, log, url)
    ensures |Visitors(log, url, DaySet(days))| <= Uniques(aggs)
    ensures |Visitors(log, url, DaySet(days))| == Uniques(aggs) <==> NoReturns(log, url, days)
  {
    CoversUniqueDays(aggs, days, log, url);
    Overcount(aggs, days, log, url);
  }

  lemma {:induction false} Overcount(aggs: seq<Aggregate>, days: seq<int>, log: seq<Click>, url: nat)
    requires UniqueDays(aggs, days, log, url)
    ensures |Visitors(log, url, DaySet(days))| <= Uniques(aggs)
    ensures |Visitors(log, url, DaySet(days))| == Uniques(aggs) <==> NoReturns(log, url, days)
  {
    if aggs == [] {
      NoDaysNoVisitors(aggs, days, log, url);
    } else {
      var n := |aggs| - 1;
      ShorterUniqueDays(aggs, days, log, url);
      Overcount(aggs[..n], days[..n], log, url);
      OneMoreUniqueDay(aggs, days, log, url);
    }
  }

  lemma ShorterUniqueDays(aggs: seq<Aggregate>, days: seq<int>, log: seq<Click>, url: nat)
    requires UniqueDays(aggs, days, log, url) && aggs != []
    ensures var n := |aggs| - 1;
            UniqueDays(aggs[..n], days[..n], log, url) && aggs[n].unique == |Visitors(log, url, {days[n]})|
  {
  }

  lemma OneMoreUniqueDay(aggs: seq<Aggregate>, days: seq<int>, log: seq<Click>, url: nat)
    requires |aggs| == |days| > 0 && aggs[|aggs| - 1].unique == |Visitors(log, url, {days[|aggs| - 1]})|
    requires var n := |aggs| - 1;
             var before := |Visitors(log, url, DaySet(days[..n]))|;
             before <= Uniques(aggs[..n]) && (before == Uniques(aggs[..n]) <==> NoReturns(log, url, days[..n]))
    ensures |Visitors(log, url, DaySet(days))| <= Uniques(aggs)
    ensures |Visitors(log, url, DaySet(days))| == Uniques(aggs) <==> NoReturns(log, url, days)
  {
    var n := |aggs| - 1;
    UniqueStep(aggs, days, log, url);
    UnionSize(Visitors(log, url, DaySet(days[..n])), Visitors(log, url, {days[n]}));
  }

  lemma NoDaysNoVisitors(aggs: seq<Aggregate>, days: seq<int>, log: seq<Click>, url: nat)
    requires aggs == [] && days == []
    ensures |Visitors(log, url, DaySet(days))| == Uniques(aggs) == 0 && NoReturns(log, url, days)
  {
    assert DaySet(days) == {};
    assert Visitors(log, url, {}) == {};
  }

  /** What one more day adds to each side. */
  lemma UniqueStep(aggs: seq<Aggregate>, days: seq<int>, log: seq<Click>, url: nat)
    requires |aggs| == |days| > 0 && aggs[|aggs| - 1].unique == |Visitors(log, url, {days[|aggs| - 1]})|
    ensures var n := |aggs| - 1;
            var before, today := Visitors(log, url, DaySet(days[..n])), Visitors(log, url, {days[n]});
            && Visitors(log, url, DaySet(days)) == before + today
            && Uniques(aggs) == Uniques(aggs[..n]) + |today|
            && (NoReturns(log, url, days) <==> NoReturns(log, url, days[..n]) && before !! today)
  {
    var n := |aggs| - 1;
    assert DaySet(days) == DaySet(days[..n]) + {days[n]} by { assert days == days[..n] + [days[n]]; }
    VisitorsSplit(log, url, DaySet(days[..n]), days[n]);
    ReturnsSplit(log, url, days, n);
  }

  lemma ReturnsSplit(log: seq<Click>, url: nat, days: seq<int>, n: nat)
    requires |days| == n + 1
    ensures NoReturns(log, url, days)
            <==> NoReturns(log, url, days[..n]) && Visitors(log, url, DaySet(days[..n])) !! Visitors(log, url, {days[n]})
  {
    var before, today := Visitors(log, url, DaySet(days[..n])), Visitors(log, url, {days[n]});
    if NoReturns(log, url, days) {
      forall ip | ip in before ensures ip !in today {
        var i :| 0 <= i < |log| && log[i].url == url && log[i].day in DaySet(days[..n]) && log[i].ip == ip;
        var k :| 0 <= k < n && days[k] == log[i].day;
        assert ip in Visitors(log, url, {days[k]});
      }
    }
    if NoReturns(log, url, days[..n]) && before !! today {
      forall i, j | 0 <= i < j < |days| ensures Visitors(log, url, {days[i]}) !! Visitors(log, url, {days[j]}) {
        if j == n {
          assert days[i] in DaySet(days[..n]);
          assert Visitors(log, url, {days[i]}) <= before;
        } else {
          assert days[..n][i] == days[i] && days[..n][j] == days[j];
        }
      }
    }
  }
}
