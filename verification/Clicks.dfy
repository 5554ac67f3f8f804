/**
 Click accounting. A visit reads whether its visitor came before, reads the link's counter, and
 commits both the click row and the counter it computed; other visits commit in between.
 */
module Clicks {
  import opened Wrappers

  datatype Click = Click(url: nat, visitor: string, repeat: bool)

  /** Link rows with their counter, and the click table in commit order. */
  datatype Link = Link(live: bool, total: nat)

  datatype Db = Db(links: map<nat, Link>, rows: seq<Click>)

  /** What the counter read gave: nothing yet, no live row, or a value. */
  datatype Counter = Unread | NoRow | Value(n: nat)

  /** A visit in progress. */
  datatype Visit = Visit(url: nat, visitor: string, repeat: Option<bool>, counter: Counter)

  datatype Sys = Sys(db: Db, visits: map<nat, Visit>)

  datatype Action =
    | Create(url: nat)
    | Delete(url: nat)
    | Begin(tid: nat, url: nat, visitor: string)
    | CheckPrior(tid: nat)
    | ReadCounter(tid: nat)
    | Commit(tid: nat)
    | Rollback(tid: nat)

  const Init := Sys(Db(map[], []), map[])

  predicate HasPrior(rows: seq<Click>, url: nat, visitor: string) {
    exists i :: 0 <= i < |rows| && rows[i].url == url && rows[i].visitor == visitor
  }

  /** The counter looks up live rows only; a link deleted meanwhile is not counted. */
  function CounterOf(db: Db, url: nat): Counter {
    if url in db.links && db.links[url].live then Value(db.links[url].total) else NoRow
  }

  predicate Enabled(s: Sys, a: Action) {
    match a
    case Create(url) => url !in s.db.links
    case Delete(url) => url in s.db.links
    case Begin(tid, url, _) => tid !in s.visits && url in s.db.links
    case CheckPrior(tid) => tid in s.visits && s.visits[tid].repeat.None?
    case ReadCounter(tid) => tid in s.visits && s.visits[tid].counter.Unread?
    case Commit(tid) => tid in s.visits && s.visits[tid].repeat.Some? && !s.visits[tid].counter.Unread?
    case Rollback(tid) => tid in s.visits
  }

  function Count(links: map<nat, Link>, url: nat, counter: Counter): map<nat, Link> {
    if counter.Value? && url in links then links[url := links[url].(total := counter.n + 1)] else links
  }

  function Recorded(db: Db, v: Visit): Db
    requires v.repeat.Some?
  {
    Db(Count(db.links, v.url, v.counter), db.rows + [Entry(v)])
  }

  function Next(s: Sys, a: Action): Sys
    requires Enabled(s, a)
  {
    match a
    case Create(url) => s.(db := s.db.(links := s.db.links[url := Link(true, 0)]))
    case Delete(url) => s.(db := s.db.(links := s.db.links[url := s.db.links[url].(live := false)]))
    case Begin(tid, url, visitor) => s.(visits := s.visits[tid := Visit(url, visitor, None, Unread)])
    case CheckPrior(tid) =>
      var v := s.visits[tid];
      s.(visits := s.visits[tid := v.(repeat := Some(HasPrior(s.db.rows, v.url, v.visitor)))])
    case ReadCounter(tid) =>
      var v := s.visits[tid];
      s.(visits := s.visits[tid := v.(counter := CounterOf(s.db, v.url))])
    case Commit(tid) => Sys(Recorded(s.db, s.visits[tid]), s.visits - {tid})
    case Rollback(tid) => s.(visits := s.visits - {tid})
  }

  ghost predicate Runs(s: Sys, acts: seq<Action>)
    decreases |acts|, 0
  {
    acts == [] || (Runs(s, acts[..|acts| - 1]) && Enabled(End(s, acts[..|acts| - 1]), acts[|acts| - 1]))
  }

  ghost function End(s: Sys, acts: seq<Action>): Sys
    requires Runs(s, acts)
    decreases |acts|, 1
  {
    if acts == [] then s else Next(End(s, acts[..|acts| - 1]), acts[|acts| - 1])
  }

  // ----- what the tables say

  function RowsOf(rows: seq<Click>, url: nat): nat {
    if rows == [] then 0
    else RowsOf(rows[..|rows| - 1], url) + (if rows[|rows| - 1].url == url then 1 else 0)
  }

  function NonRepeats(rows: seq<Click>, url: nat): nat {
    if rows == [] then 0
    else
      var last := rows[|rows| - 1];
      NonRepeats(rows[..|rows| - 1], url) + (if last.url == url && !last.repeat then 1 else 0)
  }

  /** The visitors whose rows satisfy the choice; distinct, as the query counts them. */
  function Visitors(rows: seq<Click>, url: nat): set<string> {
    set i | 0 <= i < |rows| && rows[i].url == url :: rows[i].visitor
  }

  function NewVisitors(rows: seq<Click>, url: nat): set<string> {
    set i | 0 <= i < |rows| && IsNew(rows[i], url) :: rows[i].visitor
  }

  predicate IsNew(c: Click, url: nat) {
    c.url == url && !c.repeat
  }

  /** No visitor is marked new twice on this link. */
  ghost predicate NewOnce(rows: seq<Click>, url: nat) {
    forall i, j :: 0 <= i < j < |rows| && IsNew(rows[i], url) && IsNew(rows[j], url) ==> rows[i].visitor != rows[j].visitor
  }

  lemma {:induction false} NonRepeatsAndNewVisitors(rows: seq<Click>, url: nat)
    ensures |NewVisitors(rows, url)| <= NonRepeats(rows, url)
    ensures |NewVisitors(rows, url)| == NonRepeats(rows, url) <==> NewOnce(rows, url)
  {
    if rows != [] {
      var n := |rows| - 1;
      var init, last := rows[..n], rows[n];
      NonRepeatsAndNewVisitors(init, url);
      assert rows == init + [last];
      Appended(init, last, url);
      OnceMore(rows, url);
    }
  }

  lemma OnceMore(rows: seq<Click>, url: nat)
    requires rows != []
    ensures var n := |rows| - 1;
            NewOnce(rows, url) <==>
            NewOnce(rows[..n], url)
            && (rows[n].url == url && !rows[n].repeat ==> rows[n].visitor !in NewVisitors(rows[..n], url))
  {
    var n := |rows| - 1;
    var init := rows[..n];
    assert forall i :: 0 <= i < n ==> init[i] == rows[i];
  }

  // ----- every run

  /** Whoever has a click on a link has one that is not marked a repeat. */
  ghost predicate Grounded(rows: seq<Click>) {
    forall i :: 0 <= i < |rows| ==> rows[i].visitor in NewVisitors(rows, rows[i].url)
  }

  ghost predicate BooksHold(db: Db) {
    Grounded(db.rows) && forall u :: u in db.links ==> db.links[u].total <= RowsOf(db.rows, u)
  }

  ghost predicate VisitHolds(db: Db, v: Visit) {
    && v.url in db.links
    && (v.counter.Value? ==> v.counter.n <= RowsOf(db.rows, v.url))
    && (v.repeat == Some(true) ==> v.visitor in NewVisitors(db.rows, v.url))
  }

  ghost predicate Inv(s: Sys) {
    BooksHold(s.db) && forall t :: t in s.visits ==> VisitHolds(s.db, s.visits[t])
  }

  lemma Appended(rows: seq<Click>, c: Click, url: nat)
    ensures RowsOf(rows + [c], url) == RowsOf(rows, url) + (if c.url == url then 1 else 0)
    ensures NonRepeats(rows + [c], url) == NonRepeats(rows, url) + (if c.url == url && !c.repeat then 1 else 0)
    ensures NewVisitors(rows + [c], url) == NewVisitors(rows, url) + (if c.url == url && !c.repeat then {c.visitor} else {})
    ensures Visitors(rows + [c], url) == Visitors(rows, url) + (if c.url == url then {c.visitor} else {})
  {
    var all := rows + [c];
    assert all[..|rows|] == rows;
    assert forall i :: 0 <= i < |rows| ==> all[i] == rows[i];
  }

  lemma GroundedStays(rows: seq<Click>, c: Click)
    requires Grounded(rows) && (c.repeat ==> c.visitor in NewVisitors(rows, c.url))
    ensures Grounded(rows + [c])
  {
    var all := rows + [c];
    forall i | 0 <= i < |all| ensures all[i].visitor in NewVisitors(all, all[i].url) {
      Appended(rows, c, all[i].url);
      if i < |rows| { assert all[i] == rows[i]; }
    }
  }

  function Entry(v: Visit): Click
    requires v.repeat.Some?
  {
    Click(v.url, v.visitor, v.repeat.value)
  }

  lemma CommitKeepsBooks(db: Db, v: Visit)
    requires BooksHold(db) && VisitHolds(db, v) && v.repeat.Some?
    ensures BooksHold(Recorded(db, v))
  {
    GroundedStays(db.rows, Entry(v));
    var after := Recorded(db, v);
    forall u | u in after.links ensures after.links[u].total <= RowsOf(after.rows, u) {
      Appended(db.rows, Entry(v), u);
    }
  }

  lemma CommitKeepsVisits(db: Db, v: Visit, w: Visit)
    requires VisitHolds(db, w) && v.repeat.Some?
    ensures VisitHolds(Recorded(db, v), w)
  {
    Appended(db.rows, Entry(v), w.url);
  }

  lemma PriorIsGrounded(db: Db, url: nat, visitor: string)
    requires Grounded(db.rows)
    ensures HasPrior(db.rows, url, visitor) <==> visitor in NewVisitors(db.rows, url)
  {
  }

  lemma StepKeepsInv(s: Sys, a: Action)
    requires Inv(s) && Enabled(s, a)
    ensures Inv(Next(s, a))
  {
    match a
    case Create(url) =>
    case Delete(url) =>
    case Begin(tid, url, visitor) =>
    case CheckPrior(tid) => PriorIsGrounded(s.db, s.visits[tid].url, s.visits[tid].visitor);
    case ReadCounter(tid) => assert VisitHolds(s.db, s.visits[tid]);
    case Commit(tid) =>
      assert VisitHolds(s.db, s.visits[tid]);
      CommitKeepsBooks(s.db, s.visits[tid]);
      forall t | t in s.visits ensures VisitHolds(Recorded(s.db, s.visits[tid]), s.visits[t]) {
        CommitKeepsVisits(s.db, s.visits[tid], s.visits[t]);
      }
    case Rollback(tid) =>
  }

  lemma {:induction false} RunKeepsInv(acts: seq<Action>)
    requires Runs(Init, acts)
    ensures Inv(End(Init, acts))
  {
    if acts != [] {
      RunKeepsInv(acts[..|acts| - 1]);
      StepKeepsInv(End(Init, acts[..|acts| - 1]), acts[|acts| - 1]);
    }
  }

  /**
   However visits interleave: the counter never exceeds the click rows, the non-repeat clicks never
   fall short of the distinct visitors, and these two agree exactly when nobody is marked new twice.
   */
  lemma ClickLaws(acts: seq<Action>, url: nat)
    requires Runs(Init, acts)
    ensures var db := End(Init, acts).db;
            && (url in db.links ==> db.links[url].total <= RowsOf(db.rows, url))
            && |Visitors(db.rows, url)| <= NonRepeats(db.rows, url)
            && (|Visitors(db.rows, url)| == NonRepeats(db.rows, url) <==> NewOnce(db.rows, url))
  {
    RunKeepsInv(acts);
    var rows := End(Init, acts).db.rows;
    assert Visitors(rows, url) == NewVisitors(rows, url);
    NonRepeatsAndNewVisitors(rows, url);
  }

  // ----- runs in which visits to the link do not overlap

  ghost predicate Idle(s: Sys, url: nat) {
    forall t :: t in s.visits ==> s.visits[t].url != url
  }

  /** The step does not begin a visit to the link while another visit to it is open. */
  ghost predicate Apart(s: Sys, a: Action, url: nat) {
    a.Begin? && a.url == url ==> Idle(s, url)
  }

  ghost predicate RunsApart(acts: seq<Action>, url: nat)
    requires Runs(Init, acts)
  {
    acts == [] ||
    (RunsApart(acts[..|acts| - 1], url) && Apart(End(Init, acts[..|acts| - 1]), acts[|acts| - 1], url))
  }

  ghost predicate BooksExact(db: Db, url: nat) {
    && NewOnce(db.rows, url)
    && (url in db.links && db.links[url].live ==> db.links[url].total == RowsOf(db.rows, url))
    && (url !in db.links ==> RowsOf(db.rows, url) == 0)
  }

  ghost predicate VisitExact(db: Db, v: Visit) {
    && (!v.counter.Unread? && CounterOf(db, v.url).Value? ==> v.counter == CounterOf(db, v.url))
    && (v.repeat == Some(false) ==> v.visitor !in NewVisitors(db.rows, v.url))
  }

  ghost predicate AloneInv(s: Sys, url: nat) {
    && Inv(s)
    && BooksExact(s.db, url)
    && (forall t :: t in s.visits && s.visits[t].url == url ==> VisitExact(s.db, s.visits[t]))
    && AtMostOne(s.visits, url)
  }

  ghost predicate AtMostOne(visits: map<nat, Visit>, url: nat) {
    forall t, r :: t in visits && r in visits && visits[t].url == url && visits[r].url == url ==> t == r
  }

  lemma CommitStaysExact(db: Db, v: Visit, url: nat)
    requires BooksExact(db, url) && v.url in db.links
    requires v.repeat.Some? && !v.counter.Unread? && (v.url == url ==> VisitExact(db, v))
    ensures BooksExact(Recorded(db, v), url)
  {
    var all := db.rows + [Entry(v)];
    Appended(db.rows, Entry(v), url);
    assert all[..|all| - 1] == db.rows;
    OnceMore(all, url);
  }

  lemma OthersStayExact(db: Db, v: Visit, w: Visit)
    requires v.repeat.Some? && VisitExact(db, w) && v.url != w.url
    ensures VisitExact(Recorded(db, v), w)
  {
    Appended(db.rows, Entry(v), w.url);
  }

  lemma CommitKeepsAloneInv(s: Sys, tid: nat, url: nat)
    requires AloneInv(s, url) && Enabled(s, Commit(tid))
    ensures AloneInv(Next(s, Commit(tid)), url)
  {
    StepKeepsInv(s, Commit(tid));
    var v := s.visits[tid];
    assert VisitHolds(s.db, v);
    CommitStaysExact(s.db, v, url);
    var s' := Next(s, Commit(tid));
    forall t | t in s'.visits && s'.visits[t].url == url ensures VisitExact(s'.db, s'.visits[t]) {
      assert s'.visits[t] == s.visits[t] && v.url != url;
      OthersStayExact(s.db, v, s.visits[t]);
    }
  }

  lemma ReadKeepsAloneInv(s: Sys, a: Action, url: nat)
    requires AloneInv(s, url) && Enabled(s, a) && (a.CheckPrior? || a.ReadCounter?)
    ensures AloneInv(Next(s, a), url)
  {
    StepKeepsInv(s, a);
    var s' := Next(s, a);
    assert forall t :: t in s'.visits ==> t in s.visits && s'.visits[t].url == s.visits[t].url;
    forall t | t in s'.visits && s'.visits[t].url == url ensures VisitExact(s'.db, s'.visits[t]) {
      assert VisitExact(s.db, s.visits[t]);
      PriorIsGrounded(s.db, url, s.visits[t].visitor);
    }
  }

  lemma StepKeepsAloneInv(s: Sys, a: Action, url: nat)
    requires AloneInv(s, url) && Enabled(s, a) && Apart(s, a, url)
    ensures AloneInv(Next(s, a), url)
  {
    if a.Commit? {
      CommitKeepsAloneInv(s, a.tid, url);
    } else if a.CheckPrior? || a.ReadCounter? {
      ReadKeepsAloneInv(s, a, url);
    } else {
      StepKeepsInv(s, a);
      assert forall t :: t in s.visits ==> VisitHolds(s.db, s.visits[t]);
    }
  }

  lemma {:induction false} RunKeepsAloneInv(acts: seq<Action>, url: nat)
    requires Runs(Init, acts) && RunsApart(acts, url)
    ensures AloneInv(End(Init, acts), url)
  {
    if acts != [] {
      RunKeepsAloneInv(acts[..|acts| - 1], url);
      StepKeepsAloneInv(End(Init, acts[..|acts| - 1]), acts[|acts| - 1], url);
    }
  }

  /** Then the books are exact: one non-repeat click a visitor, and while the link is live, one count a click. */
  lemma SerialClicksAreExact(acts: seq<Action>, url: nat)
    requires Runs(Init, acts) && RunsApart(acts, url)
    ensures var db := End(Init, acts).db;
            && NonRepeats(db.rows, url) == |Visitors(db.rows, url)|
            && (url in db.links && db.links[url].live ==> db.links[url].total == RowsOf(db.rows, url))
  {
    RunKeepsAloneInv(acts, url);
    ClickLaws(acts, url);
  }

  // ----- what overlapping visits do

  ghost predicate Leads(s: Sys, acts: seq<Action>, s': Sys) {
    Runs(s, acts) && End(s, acts) == s'
  }

  ghost predicate Reaches(s: Sys, s': Sys) {
    exists acts :: Leads(s, acts, s')
  }

  lemma ReachesItself(s: Sys)
    ensures Reaches(s, s)
  {
    assert Leads(s, [], s);
  }

  lemma ReachesNext(s: Sys, s': Sys, a: Action)
    requires Reaches(s, s') && Enabled(s', a)
    ensures Reaches(s, Next(s', a))
  {
    var acts :| Leads(s, acts, s');
    assert (acts + [a])[..|acts|] == acts;
    assert Leads(s, acts + [a], Next(s', a));
  }

  /** A visit up to the point where it has read both things. */
  lemma ReachesReady(s: Sys, s': Sys, tid: nat, url: nat, visitor: string)
    requires Reaches(s, s') && url in s'.db.links && tid !in s'.visits
    ensures Reaches(s, s'.(visits := s'.visits[tid := Lone(s'.db, url, visitor)]))
  {
    ReachesNext(s, s', Begin(tid, url, visitor));
    var s1 := Next(s', Begin(tid, url, visitor));
    ReachesNext(s, s1, CheckPrior(tid));
    var s2 := Next(s1, CheckPrior(tid));
    ReachesNext(s, s2, ReadCounter(tid));
    assert Next(s2, ReadCounter(tid)).visits == s'.visits[tid := Lone(s'.db, url, visitor)];
  }

  lemma ReachesCommitted(s: Sys, s': Sys, tid: nat, v: Visit)
    requires Reaches(s, s') && tid in s'.visits && s'.visits[tid] == v && v.repeat.Some? && !v.counter.Unread?
    ensures Reaches(s, Sys(Recorded(s'.db, v), s'.visits - {tid}))
  {
    ReachesNext(s, s', Commit(tid));
  }

  /** A visit that reads both things with nobody else about. */
  function Lone(db: Db, url: nat, visitor: string): Visit {
    Visit(url, visitor, Some(HasPrior(db.rows, url, visitor)), CounterOf(db, url))
  }

  /** A visit on its own records what it read. */
  lemma VisitIsItsSteps(s: Sys, tid: nat, url: nat, visitor: string)
    requires url in s.db.links && tid !in s.visits
    ensures Reaches(s, Sys(Recorded(s.db, Lone(s.db, url, visitor)), s.visits))
  {
    ReachesItself(s);
    ReachesReady(s, s, tid, url, visitor);
    var v := Lone(s.db, url, visitor);
    var s1 := s.(visits := s.visits[tid := v]);
    ReachesCommitted(s, s1, tid, v);
    assert s1.visits - {tid} == s.visits;
  }

  /**
   From any state, the same new visitor twice at once: two clicks are marked new, and the counter
   moves by one.
   */
  lemma OverlapMiscounts(s: Sys, url: nat, visitor: string, t1: nat, t2: nat)
    requires url in s.db.links && s.db.links[url].live && t1 != t2 && t1 !in s.visits && t2 !in s.visits
    requires !HasPrior(s.db.rows, url, visitor)
    ensures exists after: Db ::
              && Reaches(s, Sys(after, s.visits))
              && url in after.links && after.links[url].total == s.db.links[url].total + 1
              && RowsOf(after.rows, url) == RowsOf(s.db.rows, url) + 2
              && |Visitors(after.rows, url)| == |Visitors(s.db.rows, url)| + 1
              && NonRepeats(after.rows, url) == NonRepeats(s.db.rows, url) + 2
  {
    var v := Lone(s.db, url, visitor);
    TwoAtOnce(s, url, visitor, t1, t2);
    TwiceRecorded(s.db, v);
    var after := Recorded(Recorded(s.db, v), v);
    assert Reaches(s, Sys(after, s.visits));
  }

  lemma TwoAtOnce(s: Sys, url: nat, visitor: string, t1: nat, t2: nat)
    requires url in s.db.links && t1 != t2 && t1 !in s.visits && t2 !in s.visits
    ensures var v := Lone(s.db, url, visitor);
            Reaches(s, Sys(Recorded(Recorded(s.db, v), v), s.visits))
  {
    var v := Lone(s.db, url, visitor);
    var s1, s2 := s.(visits := s.visits[t1 := v]), s.(visits := s.visits[t1 := v][t2 := v]);
    ReachesItself(s);
    ReachesReady(s, s, t1, url, visitor);
    ReachesReady(s, s1, t2, url, visitor);
    ReachesCommitted(s, s2, t1, v);
    var s3 := Sys(Recorded(s.db, v), s2.visits - {t1});
    ReachesCommitted(s, s3, t2, v);
    assert s3.visits - {t2} == s.visits;
  }

  /** Once a link is deleted, a visit served all the same adds its row and leaves the counter alone. */
  lemma DeletedIsNotCounted(s: Sys, url: nat, visitor: string, tid: nat)
    requires url in s.db.links && tid !in s.visits
    ensures exists after: Db ::
              && Reaches(s, Sys(after, s.visits))
              && url in after.links && !after.links[url].live && after.links[url].total == s.db.links[url].total
              && RowsOf(after.rows, url) == RowsOf(s.db.rows, url) + 1
  {
    var s1 := Next(s, Delete(url));
    var v := Lone(s1.db, url, visitor);
    ReachesItself(s);
    ReachesNext(s, s, Delete(url));
    ReachesReady(s, s1, tid, url, visitor);
    ReachesCommitted(s, s1.(visits := s1.visits[tid := v]), tid, v);
    var after := Recorded(s1.db, v);
    assert s1.visits[tid := v] - {tid} == s.visits;
    Appended(s1.db.rows, Entry(v), url);
    assert Reaches(s, Sys(after, s.visits));
  }

  /** A visit that is rolled back, whatever it has read, leaves no trace. */
  lemma RollbackLeavesNoTrace(s: Sys, tid: nat, url: nat, visitor: string)
    requires url in s.db.links && tid !in s.visits
    ensures var s1 := Next(s, Begin(tid, url, visitor));
            var s2 := Next(s1, CheckPrior(tid));
            var s3 := Next(s2, ReadCounter(tid));
            Next(s1, Rollback(tid)) == Next(s2, Rollback(tid)) == Next(s3, Rollback(tid)) == s
  {
    var s1 := Next(s, Begin(tid, url, visitor));
    var s2 := Next(s1, CheckPrior(tid));
    var s3 := Next(s2, ReadCounter(tid));
    assert s1.visits - {tid} == s.visits && s2.visits - {tid} == s.visits && s3.visits - {tid} == s.visits;
  }

  lemma TwiceRecorded(db: Db, v: Visit)
    requires v.repeat == Some(false) && v.url in db.links && v.counter == Value(db.links[v.url].total)
    requires !HasPrior(db.rows, v.url, v.visitor)
    ensures var after := Recorded(Recorded(db, v), v);
            && v.url in after.links && after.links[v.url].total == db.links[v.url].total + 1
            && RowsOf(after.rows, v.url) == RowsOf(db.rows, v.url) + 2
            && |Visitors(after.rows, v.url)| == |Visitors(db.rows, v.url)| + 1
            && NonRepeats(after.rows, v.url) == NonRepeats(db.rows, v.url) + 2
  {
    Appended(db.rows, Entry(v), v.url);
    Appended(db.rows + [Entry(v)], Entry(v), v.url);
    assert v.visitor !in Visitors(db.rows, v.url);
  }

  // ----- one visit at a time, on the tables themselves

  class ClickStore {
    var links: map<nat, Link>
    var rows: seq<Click>

    function Contents(): Db
      reads this
    {
      Db(links, rows)
    }

    ghost predicate Valid()
      reads this
    {
      BooksHold(Contents()) && forall u: nat :: BooksExact(Contents(), u)
    }

    constructor ()
      ensures Valid() && Contents() == Init.db
    {
      links, rows := map[], [];
    }

    method TrackClick(url: nat, visitor: string)
      requires url in links
      modifies this`rows
      ensures rows == old(rows) + [Click(url, visitor, HasPrior(old(rows), url, visitor))]
    {
      var isRepeat := HasPrior(rows, url, visitor);
      rows := rows + [Click(url, visitor, isRepeat)];
    }

    method IncrementClicks(url: nat)
      modifies this`links
      ensures links == Count(old(links), url, CounterOf(old(Contents()), url))
    {
      if url in links && links[url].live {
        links := links[url := links[url].(total := links[url].total + 1)];
      }
    }

    /** The tracking half of a redirect: the books stay exact, and the state is that of the visit's steps. */
    method Redirect(url: nat, visitor: string)
      requires Valid() && url in links
      modifies this
      ensures Valid()
      ensures Contents() == Recorded(old(Contents()), Lone(old(Contents()), url, visitor))
      ensures |Visitors(rows, url)| == NonRepeats(rows, url)
      ensures links[url].live ==> links[url].total == RowsOf(rows, url)
    {
      LoneKeepsBooks(Contents(), url, visitor);
      ghost var after := Recorded(Contents(), Lone(Contents(), url, visitor));
      assert BooksExact(after, url);
      TrackClick(url, visitor);
      IncrementClicks(url);
      assert Contents() == after;
    }
  }

  lemma LoneKeepsBooks(db: Db, url: nat, visitor: string)
    requires BooksHold(db) && (forall u: nat :: BooksExact(db, u)) && url in db.links
    ensures var after := Recorded(db, Lone(db, url, visitor));
            && BooksHold(after)
            && (forall u: nat :: BooksExact(after, u))
            && |Visitors(after.rows, url)| == NonRepeats(after.rows, url)
  {
    var v := Lone(db, url, visitor);
    PriorIsGrounded(db, url, visitor);
    CommitKeepsBooks(db, v);
    var after := Recorded(db, v);
    forall u: nat ensures BooksExact(after, u) { CommitStaysExact(db, v, u); }
    assert BooksExact(after, url) && Visitors(after.rows, url) == NewVisitors(after.rows, url);
    NonRepeatsAndNewVisitors(after.rows, url);
  }
}
