/**
 The aggregation service as an object over the click log and the aggregate table: the daily
 upserts, and the dashboard's merge loops proved to compute `Merged` and its top ten.
 */
module AnalyticsServices {
  import opened Aggregation

  datatype Dashboard = Dashboard(total: nat, unique: nat, repeats: nat, series: seq<(int, nat)>, countries: Counts, devices: Counts, browsers: Counts) {
    function Top(f: Field): Counts {
      match f
      case Country => countries
      case Device => devices
      case Browser => browsers
    }
  }

  /** `t` and `rest` split the counter, with nothing in `rest` larger than anything taken. */
  ghost predicate Split(m: Counts, t: Counts, rest: set<string>) {
    && t.Keys + rest == m.Keys && t.Keys !! rest
    && (forall k :: k in t ==> t[k] == m[k])
    && (forall k, l :: k in t && l in rest ==> m[l] <= m[k])
  }

  lemma SplitTake(m: Counts, t: Counts, rest: set<string>, best: string)
    requires Split(m, t, rest) && best in rest && forall k :: k in rest ==> m[k] <= m[best]
    ensures Split(m, t[best := m[best]], rest - {best})
    ensures |t[best := m[best]]| == |t| + 1
  {
    assert t[best := m[best]].Keys == t.Keys + {best};
  }

  lemma SplitIsTop(m: Counts, n: nat, t: Counts, rest: set<string>)
    requires Split(m, t, rest) && |t| <= n && (|t| == n || rest == {})
    ensures IsTop(m, n, t)
  {
    assert |m.Keys| == |t.Keys| + |rest|;
    assert |m| == |m.Keys| && |t| == |t.Keys|;
  }

  /** most_common(n): repeatedly takes a largest remaining count. */
  method MostCommon(m: Counts, n: nat) returns (t: Counts)
    ensures IsTop(m, n, t)
  {
    t := map[];
    var rest := m.Keys;
    while |t| < n && rest != {}
      invariant Split(m, t, rest) && |t| <= n
      decreases rest
    {
      var best := Largest(m, rest);
      SplitTake(m, t, rest, best);
      t := t[best := m[best]];
      rest := rest - {best};
    }
    SplitIsTop(m, n, t, rest);
  }

  method Largest(m: Counts, keys: set<string>) returns (best: string)
    requires keys != {} && keys <= m.Keys
    ensures best in keys && forall k :: k in keys ==> m[k] <= m[best]
  {
    best :| best in keys;
    var rest := keys - {best};
    while rest != {}
      invariant rest <= keys && best in keys
      invariant forall k :: k in keys - rest ==> m[k] <= m[best]
      decreases rest
    {
      var k :| k in rest;
      if m[k] > m[best] { best := k; }
      rest := rest - {k};
    }
  }

  /** merged[value] += count, for every item of one aggregate's breakdown. */
  method MergeInto(merged: Counts, part: Counts) returns (r: Counts)
    ensures r == Plus(merged, part)
  {
    r := merged;
    var rest := part.Keys;
    while rest != {}
      invariant rest <= part.Keys
      invariant r.Keys == merged.Keys + (part.Keys - rest)
      invariant forall k :: k in r ==> r[k] == Get(merged, k) + (if k in rest then 0 else Get(part, k))
      decreases rest
    {
      var k :| k in rest;
      r := r[k := Get(r, k) + part[k]];
      rest := rest - {k};
    }
  }

  /** The links with a click on the day. */
  function UrlsOn(log: seq<Click>, day: int): set<nat> {
    set i | 0 <= i < |log| && log[i].day == day :: log[i].url
  }

  class AnalyticsService {
    var log: seq<Click>
    var table: map<(nat, int), Aggregate>

    constructor (log: seq<Click>)
      ensures this.log == log && table == map[]
    {
      this.log, table := log, map[];
    }

    /** The upsert of one link and day: the stored row is exactly what the log says. */
    method AggregateUrlForDate(url: nat, day: int) returns (agg: Aggregate)
      modifies this
      ensures log == old(log)
      ensures UpToDate(agg, log, url, day) && table == old(table)[(url, day) := agg]
    {
      var clicks := ClicksOn(log, url, day);
      var ips := Ips(clicks);
      var countries := MostCommon(Tally(Values(clicks, Country)), 20);
      var devices := MostCommon(Tally(Values(clicks, Device)), 20);
      var browsers := MostCommon(Tally(Values(clicks, Browser)), 20);
      agg := Aggregate(|clicks|, |(set ip | ip in ips)|, |(set ip | ip in ips && multiset(ips)[ip] > 1)|,
                       countries, devices, browsers);
      forall f ensures IsTop(Tally(Values(clicks, f)), 20, agg.Breakdown(f)) {
        match f case Country => case Device => case Browser =>
      }
      table := table[(url, day) := agg];
    }

    /** Every link with a click that day gets an up-to-date row; all other rows stay. */
    method AggregateAllUrls(day: int) returns (count: nat)
      modifies this
      ensures log == old(log)
      ensures forall u :: u in UrlsOn(log, day) <==> exists i :: 0 <= i < |log| && log[i].url == u && log[i].day == day
      ensures count == |UrlsOn(log, day)|
      ensures forall u :: u in UrlsOn(log, day) ==> (u, day) in table && UpToDate(table[(u, day)], log, u, day)
      ensures table.Keys == old(table).Keys + set u | u in UrlsOn(log, day) :: (u, day)
      ensures forall key :: key in old(table) && (key.1 != day || key.0 !in UrlsOn(log, day)) ==> table[key] == old(table)[key]
    {
      var urls := UrlsOn(log, day);
      var rest := urls;
      count := 0;
      while rest != {}
        invariant rest <= urls && count == |urls| - |rest|
        invariant log == old(log)
        invariant forall u :: u in urls - rest ==> (u, day) in table && UpToDate(table[(u, day)], log, u, day)
        invariant table.Keys == old(table).Keys + set u | u in urls - rest :: (u, day)
        invariant forall key :: key in old(table) && (key.1 != day || key.0 !in urls) ==> table[key] == old(table)[key]
        decreases rest
      {
        var u :| u in rest;
        var _ := AggregateUrlForDate(u, day);
        rest := rest - {u};
        count := count + 1;
      }
    }

    /** `days` is what the range query returns: the days with a row from `start` on, in order. */
    ghost predicate InRange(url: nat, start: int, days: seq<int>)
      reads this
    {
      && (forall i, j :: 0 <= i < j < |days| ==> days[i] < days[j])
      && (forall d :: d in days <==> (url, d) in table && d >= start)
    }

    /** The merge loops over the range's rows. */
    method GetAggregatedDashboard(url: nat, start: int, days: seq<int>) returns (r: Dashboard)
      requires InRange(url, start, days)
      ensures AllThere(table, url, days)
      ensures var rows := RowsOf(table, url, days);
              && r.total == Totals(rows) && r.unique == Uniques(rows) && r.repeats == Repeats(rows)
              && r.series == Series(rows, days)
              && forall f :: IsTop(Merged(rows, f), 10, r.Top(f))
    {
      forall i | 0 <= i < |days| ensures (url, days[i]) in table { assert days[i] in days; }
      var all := MergeAll(url, days);
      var topCountries := MostCommon(all.countries, 10);
      var topDevices := MostCommon(all.devices, 10);
      var topBrowsers := MostCommon(all.browsers, 10);
      r := all.(countries := topCountries, devices := topDevices, browsers := topBrowsers);
      forall f ensures IsTop(Merged(RowsOf(table, url, days), f), 10, r.Top(f)) {
        match f case Country => case Device => case Browser =>
      }
    }

    /** The totals, the time series and the merged breakdowns, before the cut. */
    method MergeAll(url: nat, days: seq<int>) returns (r: Dashboard)
      requires AllThere(table, url, days)
      ensures r == Running(RowsOf(table, url, days), days)
    {
      r := Dashboard(0, 0, 0, [], map[], map[], map[]);
      var i := 0;
      assert days[..0] == [];
      while i < |days|
        invariant 0 <= i <= |days|
        invariant IsRunning(r, table, url, days[..i])
      {
        RunningGrows(table, url, days, i, r);
        r := AddRow(r, days[i], table[(url, days[i])]);
        i := i + 1;
      }
      assert days[..|days|] == days;
    }
  }

  /** The running values with one more row. */
  function WithRow(r: Dashboard, day: int, agg: Aggregate): Dashboard {
    Dashboard(r.total + agg.total, r.unique + agg.unique, r.repeats + agg.repeats, r.series + [(day, agg.total)],
              Plus(r.countries, agg.countries), Plus(r.devices, agg.devices), Plus(r.browsers, agg.browsers))
  }

  method AddRow(r: Dashboard, day: int, agg: Aggregate) returns (sum: Dashboard)
    ensures sum == WithRow(r, day, agg)
  {
    var countries := MergeInto(r.countries, agg.countries);
    var devices := MergeInto(r.devices, agg.devices);
    var browsers := MergeInto(r.browsers, agg.browsers);
    sum := Dashboard(r.total + agg.total, r.unique + agg.unique, r.repeats + agg.repeats, r.series + [(day, agg.total)],
                     countries, devices, browsers);
  }

  /** One pair of day and clicks for each row. */
  function Series(rows: seq<Aggregate>, days: seq<int>): (s: seq<(int, nat)>)
    requires |rows| == |days|
    ensures |s| == |days| && forall i :: 0 <= i < |days| ==> s[i] == (days[i], rows[i].total)
  {
    seq(|days|, i requires 0 <= i < |days| => (days[i], rows[i].total))
  }

  /** The running values after the given rows. */
  ghost function Running(rows: seq<Aggregate>, days: seq<int>): Dashboard
    requires |rows| == |days|
  {
    Dashboard(Totals(rows), Uniques(rows), Repeats(rows), Series(rows, days),
              Merged(rows, Country), Merged(rows, Device), Merged(rows, Browser))
  }

  ghost predicate IsRunning(r: Dashboard, table: map<(nat, int), Aggregate>, url: nat, days: seq<int>) {
    AllThere(table, url, days) && r == Running(RowsOf(table, url, days), days)
  }

  lemma RunningGrows(table: map<(nat, int), Aggregate>, url: nat, days: seq<int>, i: nat, r: Dashboard)
    requires i < |days| && (url, days[i]) in table && IsRunning(r, table, url, days[..i])
    ensures IsRunning(WithRow(r, days[i], table[(url, days[i])]), table, url, days[..i + 1])
  {
    RunningStep(table, url, days, i);
  }

  lemma RunningStep(table: map<(nat, int), Aggregate>, url: nat, days: seq<int>, i: nat)
    requires i < |days| && AllThere(table, url, days[..i]) && (url, days[i]) in table
    ensures AllThere(table, url, days[..i + 1])
    ensures Running(RowsOf(table, url, days[..i + 1]), days[..i + 1])
            == WithRow(Running(RowsOf(table, url, days[..i]), days[..i]), days[i], table[(url, days[i])])
  {
    RowsStep(table, url, days, i);
    var before, after := RowsOf(table, url, days[..i]), RowsOf(table, url, days[..i + 1]);
    assert Series(after, days[..i + 1]) == Series(before, days[..i]) + [(days[i], after[i].total)];
  }

  ghost predicate AllThere(table: map<(nat, int), Aggregate>, url: nat, days: seq<int>) {
    forall i :: 0 <= i < |days| ==> (url, days[i]) in table
  }

  /** The table rows of the given days, in their order. */
  ghost function RowsOf(table: map<(nat, int), Aggregate>, url: nat, days: seq<int>): (rows: seq<Aggregate>)
    requires AllThere(table, url, days)
    ensures |rows| == |days| && forall i :: 0 <= i < |days| ==> rows[i] == table[(url, days[i])]
  {
    if days == [] then []
    else RowsOf(table, url, days[..|days| - 1]) + [table[(url, days[|days| - 1])]]
  }

  lemma RowsStep(table: map<(nat, int), Aggregate>, url: nat, days: seq<int>, i: nat)
    requires i < |days| && AllThere(table, url, days[..i]) && (url, days[i]) in table
    ensures AllThere(table, url, days[..i + 1])
    ensures var before, after, agg := RowsOf(table, url, days[..i]), RowsOf(table, url, days[..i + 1]), table[(url, days[i])];
            && Totals(after) == Totals(before) + agg.total && Uniques(after) == Uniques(before) + agg.unique
            && Repeats(after) == Repeats(before) + agg.repeats
            && forall f :: Merged(after, f) == Plus(Merged(before, f), agg.Breakdown(f))
  {
    assert days[..i + 1] == days[..i] + [days[i]];
    var before, after, agg := RowsOf(table, url, days[..i]), RowsOf(table, url, days[..i + 1]), table[(url, days[i])];
    assert after[..i] == before && after[i] == agg && |after| == i + 1;
  }
}
