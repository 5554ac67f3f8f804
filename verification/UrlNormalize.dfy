/**
 The canonical form of a URL, from text to text: tokenising, normalising the parts, rendering. URLs
 are visible ASCII with an http or https scheme (or none) and a plain host; anything else is Err.
 */
module UrlNormalize {
  import opened Wrappers
  import opened Decimals
  import opened UrlText

  datatype Problem = NotVisible | OtherScheme | NoHost | Bracketed | BadPort

  /** A tokenised URL: user info, fragment and the last segment's parameters are gone. */
  datatype Parts = Parts(scheme: string, host: string, port: Option<nat>, path: string, query: string)

  /** The canonical form, before it is written out. */
  datatype Form = Form(scheme: string, host: string, port: Option<nat>, path: string, pairs: seq<Pair>)

  const TRACKING := {
    "utm_source", "utm_medium", "utm_campaign", "utm_term", "utm_content",
    "fbclid", "gclid", "mc_eid", "ref", "source"
  }

  const HTTP := "http"
  const HTTPS := "https"

  predicate IsWeb(scheme: string) {
    scheme == HTTP || scheme == HTTPS
  }

  // ----- tokenising

  predicate SchemeChar(c: char) {
    'a' <= c <= 'z' || 'A' <= c <= 'Z' || '0' <= c <= '9' || c == '+' || c == '-' || c == '.'
  }

  predicate Letter(c: char) {
    'a' <= c <= 'z' || 'A' <= c <= 'Z'
  }

  predicate HasScheme(url: string) {
    var i := Span(url, {':'});
    0 < i < |url| && Letter(url[0]) && forall k :: 0 <= k < i ==> SchemeChar(url[k])
  }

  function SchemeOf(url: string): string {
    if HasScheme(url) then Lower(url[..Span(url, {':'})]) else ""
  }

  function AfterScheme(url: string): string {
    if HasScheme(url) then url[Span(url, {':'}) + 1..] else url
  }

  function ParsePort(text: string): Result<Option<nat>, Problem> {
    if text == "" then Ok(None)
    else if Digits(text) && Value(text) <= 65535 then Ok(Some(Value(text)))
    else Err(BadPort)
  }

  /** The host and port of an authority without user info. */
  function HostText(info: string): string {
    info[..Span(info, {':'})]
  }

  function PortText(info: string): string {
    var k := Span(info, {':'});
    if k < |info| then info[k + 1..] else ""
  }

  /** What follows the authority, cut at the fragment and split at the query. */
  function PathText(tail: string): string {
    tail[..Span(tail, {'?', '#'})]
  }

  function QueryOf(tail: string): string {
    var t := tail[..Span(tail, {'#'})];
    var k := Span(t, {'?'});
    if k < |t| then t[k + 1..] else ""
  }

  function SplitAuthority(scheme: string, netloc: string, tail: string): Result<Parts, Problem> {
    var info := AfterLast(netloc, '@');
    if '[' in netloc || ']' in netloc then Err(Bracketed)
    else if HostText(info) == "" then Err(NoHost)
    else
      match ParsePort(PortText(info))
      case Err(e) => Err(e)
      case Ok(port) => Ok(Parts(scheme, Lower(HostText(info)), port, PathText(tail), QueryOf(tail)))
  }

  function Split(url: string): Result<Parts, Problem> {
    var rest := AfterScheme(url);
    if !Visible(url) then Err(NotVisible)
    else if SchemeOf(url) != "" && !IsWeb(SchemeOf(url)) then Err(OtherScheme)
    else if |rest| < 2 || rest[..2] != "//" then Err(NoHost)
    else
      var j := Span(rest[2..], {'/', '?', '#'});
      SplitAuthority(SchemeOf(url), rest[2..][..j], rest[2..][j..])
  }

  /** Cuts the path's last segment at its first semicolon. */
  function DropParams(path: string): string {
    var last := AfterLast(path, '/');
    path[..|path| - |last|] + last[..Span(last, {';'})]
  }

  function Tokenise(url: string): Result<Parts, Problem> {
    match Split(url)
    case Err(e) => Err(e)
    case Ok(p) => Ok(p.(path := DropParams(p.path)))
  }

  // ----- normalising

  function EffectiveScheme(scheme: string): string {
    Lower(if scheme == "" then HTTPS else scheme)
  }

  /** Port 0 is treated as no port, like the scheme's default. */
  function EffectivePort(scheme: string, port: Option<nat>): Option<nat> {
    if port == Some(0) || (scheme == HTTP && port == Some(80)) || (scheme == HTTPS && port == Some(443)) then None
    else port
  }

  function StripSlashes(path: string): (r: string)
    ensures |r| <= |path| && r == path[..|r|] && (r == "" || r[|r| - 1] != '/')
    ensures forall i :: |r| <= i < |path| ==> path[i] == '/'
  {
    if path != "" && path[|path| - 1] == '/' then StripSlashes(path[..|path| - 1]) else path
  }

  function CanonPath(path: string): string {
    var p := if path == "" then "/" else path;
    if p == "/" then p else StripSlashes(p)
  }

  function Kept(ps: seq<Pair>): seq<Pair> {
    if ps == [] then []
    else (if Lower(ps[0].key) in TRACKING then [] else [ps[0]]) + Kept(ps[1..])
  }

  function Canon(p: Parts): Form {
    var scheme := EffectiveScheme(p.scheme);
    Form(scheme, Lower(p.host), EffectivePort(scheme, p.port), CanonPath(p.path), Sort(Kept(ParseQuery(p.query))))
  }

  // ----- rendering

  function Authority(f: Form): string {
    if f.port.Some? then f.host + (":" + Decimal(f.port.value)) else f.host
  }

  function QueryPart(f: Form): string
    requires BytePairs(f.pairs)
  {
    if f.pairs == [] then "" else "?" + Encode(f.pairs)
  }

  function Render(f: Form): string
    requires BytePairs(f.pairs)
  {
    f.scheme + ("://" + (Authority(f) + (f.path + QueryPart(f))))
  }

  function Normalize(url: string): (r: Result<string, Problem>)
  {
    match Tokenise(url)
    case Err(e) => Err(e)
    case Ok(p) =>
      TokensAreClean(url);
      CanonIsWellFormed(p);
      Ok(Render(Canon(p)))
  }

  // ----- what tokens look like

  /** What tokenising guarantees of the parts. */
  ghost predicate Clean(p: Parts) {
    && (p.scheme == "" || IsWeb(p.scheme))
    && HostOk(p.host)
    && (p.port.Some? ==> p.port.value <= 65535)
    && PathOk(p.path)
    && Visible(p.query)
  }

  ghost predicate HostOk(host: string) {
    host != "" && Lower(host) == host && forall i :: 0 <= i < |host| ==> HostChar(host[i])
  }

  predicate NetlocChar(c: char) {
    '!' <= c <= '~' && c != '/' && c != '?' && c != '#'
  }

  predicate AuthorityChar(c: char) {
    NetlocChar(c) && c != '[' && c != ']'
  }

  predicate HostChar(c: char) {
    AuthorityChar(c) && c != ':' && c != '@'
  }

  ghost predicate PathOk(path: string) {
    && Visible(path) && Free(path, {'?', '#'})
    && (path == "" || path[0] == '/')
  }

  ghost predicate WellFormed(f: Form) {
    && IsWeb(f.scheme)
    && HostOk(f.host)
    && (f.port.Some? ==> 0 < f.port.value <= 65535)
    && PathOk(f.path)
    && BytePairs(f.pairs)
  }

  lemma LowerTwice(s: string)
    ensures Lower(Lower(s)) == Lower(s)
  {
  }

  lemma LowerKeepsHost(host: string)
    requires host != "" && forall i :: 0 <= i < |host| ==> HostChar(host[i])
    ensures HostOk(Lower(host))
  {
    LowerTwice(host);
    forall i | 0 <= i < |host| ensures HostChar(Lower(host)[i]) { LowerHostChar(host[i]); }
  }

  lemma LowerHostChar(c: char)
    requires HostChar(c)
    ensures HostChar(LowerChar(c))
  {
  }

  lemma InfoIsAuthority(netloc: string)
    requires forall i :: 0 <= i < |netloc| ==> AuthorityChar(netloc[i])
    ensures forall i :: 0 <= i < |AfterLast(netloc, '@')| ==>
              AuthorityChar(AfterLast(netloc, '@')[i]) && AfterLast(netloc, '@')[i] != '@'
  {
    var info := AfterLast(netloc, '@');
    var at := |netloc| - |info|;
    forall i | 0 <= i < |info| ensures AuthorityChar(info[i]) && info[i] != '@' {
      assert info[i] == netloc[at..][i] == netloc[at + i];
      assert info[i] in info;
    }
  }

  lemma HostTextIsOk(netloc: string)
    requires forall i :: 0 <= i < |netloc| ==> AuthorityChar(netloc[i])
    requires HostText(AfterLast(netloc, '@')) != ""
    ensures HostOk(Lower(HostText(AfterLast(netloc, '@'))))
  {
    InfoIsAuthority(netloc);
    HostTextIsHost(AfterLast(netloc, '@'));
    LowerKeepsHost(HostText(AfterLast(netloc, '@')));
  }

  lemma HostTextIsHost(info: string)
    requires forall i :: 0 <= i < |info| ==> AuthorityChar(info[i]) && info[i] != '@'
    ensures forall i :: 0 <= i < |HostText(info)| ==> HostChar(HostText(info)[i])
  {
    var k := Span(info, {':'});
    forall i | 0 <= i < k ensures HostChar(info[i]) { assert info[i] !in {':'}; }
  }

  lemma TailIsOk(tail: string)
    requires Visible(tail) && (tail == "" || tail[0] in {'/', '?', '#'})
    ensures PathOk(PathText(tail)) && Visible(QueryOf(tail))
  {
  }

  lemma LastIsShorter(s: string, c: char)
    requires s != "" && s[0] == c
    ensures |AfterLast(s, c)| < |s|
  {
    assert c in s;
    assert s[0..] == s;
  }

  lemma PrefixIsOk(path: string, n: nat)
    requires PathOk(path) && n <= |path| && (path != "" ==> n > 0)
    ensures PathOk(path[..n])
  {
  }

  lemma DropParamsKeepsOk(path: string)
    requires PathOk(path)
    ensures PathOk(DropParams(path))
  {
    if path != "" {
      LastIsShorter(path, '/');
      PrefixIsOk(path, ParamsAt(path));
    }
    DropParamsIsPrefix(path);
  }

  /** Where the last segment's parameters begin, the end of the path if it has none. */
  function ParamsAt(path: string): (n: nat)
    ensures n <= |path|
  {
    var last := AfterLast(path, '/');
    |path| - |last| + Span(last, {';'})
  }

  lemma DropParamsIsPrefix(path: string)
    ensures DropParams(path) == path[..ParamsAt(path)]
  {
    var last := AfterLast(path, '/');
    assert last == path[|path| - |last|..];
  }

  lemma SplitIsClean(url: string)
    ensures Split(url).Ok? ==> Clean(Split(url).value)
  {
    if Split(url).Err? { return; }
    var after := AfterScheme(url)[2..];
    assert Visible(after);
    var j := Span(after, {'/', '?', '#'});
    NetlocIsAuthority(after, j);
    AuthorityIsClean(SchemeOf(url), after[..j], after[j..]);
  }

  lemma TokensAreClean(url: string)
    requires Tokenise(url).Ok?
    ensures Clean(Tokenise(url).value)
  {
    SplitIsClean(url);
    DropParamsKeepsOk(Split(url).value.path);
  }

  lemma NetlocIsAuthority(after: string, j: nat)
    requires Visible(after) && j == Span(after, {'/', '?', '#'})
    ensures forall i :: 0 <= i < j ==> NetlocChar(after[i])
    ensures Visible(after[j..]) && (after[j..] == "" || after[j] in {'/', '?', '#'})
  {
    forall i | 0 <= i < j ensures NetlocChar(after[i]) { assert after[i] !in {'/', '?', '#'}; }
  }

  lemma AuthorityIsClean(scheme: string, netloc: string, tail: string)
    requires (scheme == "" || IsWeb(scheme)) && Visible(tail) && (tail == "" || tail[0] in {'/', '?', '#'})
    requires forall i :: 0 <= i < |netloc| ==> NetlocChar(netloc[i])
    requires SplitAuthority(scheme, netloc, tail).Ok?
    ensures Clean(SplitAuthority(scheme, netloc, tail).value)
  {
    forall i | 0 <= i < |netloc| ensures AuthorityChar(netloc[i]) { assert netloc[i] in netloc; }
    HostTextIsOk(netloc);
    TailIsOk(tail);
  }

  lemma KeptIsBytes(ps: seq<Pair>)
    requires BytePairs(ps)
    ensures BytePairs(Kept(ps))
  {
  }

  lemma SortedIsBytes(ps: seq<Pair>)
    requires BytePairs(ps)
    ensures BytePairs(Sort(ps))
  {
    SortSorts(ps);
    forall i | 0 <= i < |Sort(ps)| ensures Sort(ps)[i] in ps {
      assert Sort(ps)[i] in multiset(Sort(ps));
    }
  }

  lemma CanonPathIsOk(path: string)
    requires PathOk(path)
    ensures PathOk(CanonPath(path))
  {
  }

  lemma WebSchemes()
    ensures Lower(HTTP) == HTTP && Lower(HTTPS) == HTTPS
  {
  }

  /** A scheme is recognised in either case, whatever follows the colon. */
  lemma SchemeIs(url: string, low: string)
    requires low != "" && forall i :: 0 <= i < |low| ==> 'a' <= low[i] <= 'z'
    ensures SchemeOf(url) == low <==> |url| > |low| && url[|low|] == ':' && Lower(url[..|low|]) == low
  {
    var n := |low|;
    if |url| > n && url[n] == ':' && Lower(url[..n]) == low {
      forall i | 0 <= i < n ensures Letter(url[i]) { CapitalOrSmall(url[i], low[i], Lower(url[..n])[i]); }
      assert url == url[..n] + url[n..];
      SpanCuts(url[..n], url[n..], {':'});
      assert HasScheme(url);
    }
  }

  lemma CapitalOrSmall(c: char, l: char, m: char)
    requires m == LowerChar(c) && l == m && 'a' <= l <= 'z'
    ensures Letter(c)
  {
  }

  lemma SchemeIsWeb(scheme: string)
    requires scheme == "" || IsWeb(scheme)
    ensures IsWeb(EffectiveScheme(scheme))
    ensures scheme != "" ==> EffectiveScheme(scheme) == scheme
  {
    WebSchemes();
  }

  lemma PairsAreBytes(query: string)
    requires Visible(query)
    ensures BytePairs(Sort(Kept(ParseQuery(query))))
  {
    ParsedPairsAreBytes(query);
    KeptIsBytes(ParseQuery(query));
    SortedIsBytes(Kept(ParseQuery(query)));
  }

  lemma PortIsOk(scheme: string, port: Option<nat>)
    requires port.Some? ==> port.value <= 65535
    ensures EffectivePort(scheme, port).Some? ==> 0 < EffectivePort(scheme, port).value <= 65535
  {
  }

  lemma CanonIsWellFormed(p: Parts)
    requires Clean(p)
    ensures WellFormed(Canon(p))
  {
    assert IsWeb(EffectiveScheme(p.scheme)) by { SchemeIsWeb(p.scheme); }
    assert PathOk(CanonPath(p.path)) by { CanonPathIsOk(p.path); }
    assert BytePairs(Sort(Kept(ParseQuery(p.query)))) by { PairsAreBytes(p.query); }
    PortIsOk(EffectiveScheme(p.scheme), p.port);
    assert HostOk(Lower(p.host));
  }

  // ----- a rendered form tokenises to itself

  lemma CutScheme(scheme: string, x: string)
    requires IsWeb(scheme)
    ensures SchemeOf(scheme + ("://" + x)) == scheme && AfterScheme(scheme + ("://" + x)) == "//" + x
  {
    var tail := "://" + x;
    var url := scheme + tail;
    SpanCuts(scheme, tail, {':'});
    WebSchemes();
    assert forall k :: 0 <= k < |scheme| ==> url[k] == scheme[k];
    assert HasScheme(url);
    assert url[|scheme| + 1..] == tail[1..] == "//" + x;
  }

  lemma CutPort(host: string, port: Option<nat>)
    requires HostOk(host) && (port.Some? ==> port.value <= 65535)
    ensures var a := if port.Some? then host + (":" + Decimal(port.value)) else host;
            HostText(a) == host && ParsePort(PortText(a)) == Ok(port)
  {
    if port.Some? {
      var tail := ":" + Decimal(port.value);
      SpanCuts(host, tail, {':'});
      ReadBack(port.value);
      assert (host + tail)[|host| + 1..] == tail[1..] == Decimal(port.value);
    } else {
      SpanCuts(host, "", {':'});
      assert host + "" == host;
    }
  }

  lemma AuthorityIsPlain(f: Form)
    requires WellFormed(f)
    ensures forall i :: 0 <= i < |Authority(f)| ==> AuthorityChar(Authority(f)[i]) && Authority(f)[i] != '@'
  {
    if f.port.Some? { ReadBack(f.port.value); }
  }

  lemma NoFragment(path: string, query: string)
    requires Free(path, {'?', '#'}) && QueryText(query)
    ensures Free(path, {'#'}) && Free(path + ("?" + query), {'#'})
  {
    var mark := "?" + query;
    forall i | 0 <= i < |path| ensures path[i] !in {'#'} { assert path[i] !in {'?', '#'}; }
    forall i | 0 <= i < |mark| ensures mark[i] !in {'#'} {
      if i > 0 { assert mark[i] == query[i - 1] && QueryChar(query[i - 1]); }
    }
    FreeJoin(path, mark, {'#'});
  }

  lemma FreeJoin(a: string, b: string, stop: set<char>)
    requires Free(a, stop) && Free(b, stop)
    ensures Free(a + b, stop)
  {
    forall i | 0 <= i < |a + b| ensures (a + b)[i] !in stop {
      if i < |a| { assert (a + b)[i] == a[i]; } else { assert (a + b)[i] == b[i - |a|]; }
    }
  }

  lemma CutQuery(path: string, query: string)
    requires PathOk(path) && QueryText(query)
    ensures PathText(path) == path && QueryOf(path) == ""
    ensures PathText(path + ("?" + query)) == path && QueryOf(path + ("?" + query)) == query
  {
    NoFragment(path, query);
    CutPath(path);
    CutMarked(path, query);
  }

  lemma CutPath(path: string)
    requires Free(path, {'?', '#'}) && Free(path, {'#'})
    ensures PathText(path) == path && QueryOf(path) == ""
  {
    assert Free(path, {'?'}) by {
      forall i | 0 <= i < |path| ensures path[i] !in {'?'} { assert path[i] !in {'?', '#'}; }
    }
    SpanCuts(path, "", {'?', '#'});
    SpanCuts(path, "", {'?'});
    SpanCuts(path, "", {'#'});
    assert path + "" == path;
  }

  lemma CutMarked(path: string, query: string)
    requires Free(path, {'?', '#'}) && Free(path + ("?" + query), {'#'})
    ensures PathText(path + ("?" + query)) == path && QueryOf(path + ("?" + query)) == query
  {
    var mark := "?" + query;
    var tail := path + mark;
    assert Free(path, {'?'}) by {
      forall i | 0 <= i < |path| ensures path[i] !in {'?'} { assert path[i] !in {'?', '#'}; }
    }
    SpanCuts(path, mark, {'?', '#'});
    SpanCuts(path, mark, {'?'});
    SpanCuts(tail, "", {'#'});
    assert tail + "" == tail && tail[..|tail|] == tail;
    assert tail[|path| + 1..] == mark[1..] == query;
  }

  lemma CutTail(f: Form)
    requires WellFormed(f)
    ensures var tail := f.path + QueryPart(f);
            PathText(tail) == f.path && QueryOf(tail) == Encode(f.pairs)
  {
    EncodeIsQueryText(f.pairs);
    CutQuery(f.path, Encode(f.pairs));
    assert f.path + "" == f.path;
  }

  lemma CutAuthority(f: Form)
    requires WellFormed(f)
    ensures SplitAuthority(f.scheme, Authority(f), f.path + QueryPart(f)) ==
            Ok(Parts(f.scheme, f.host, f.port, f.path, Encode(f.pairs)))
  {
    var a := Authority(f);
    AuthorityIsPlain(f);
    assert '@' !in a && '[' !in a && ']' !in a;
    NothingCut(a, '@');
    CutPort(f.host, f.port);
    CutTail(f);
  }

  lemma RenderIsVisible(f: Form)
    requires WellFormed(f)
    ensures Visible(Render(f))
  {
    AuthorityIsPlain(f);
    EncodeIsQueryText(f.pairs);
    assert Visible(QueryPart(f)) by { VisibleQuery(Encode(f.pairs)); }
    VisibleJoin(f.path, QueryPart(f));
    VisibleJoin(Authority(f), f.path + QueryPart(f));
    VisibleJoin("://", Authority(f) + (f.path + QueryPart(f)));
    VisibleJoin(f.scheme, "://" + (Authority(f) + (f.path + QueryPart(f))));
  }

  lemma VisibleQuery(q: string)
    requires QueryText(q)
    ensures Visible(q) && Visible("?" + q)
  {
  }

  lemma VisibleJoin(a: string, b: string)
    requires Visible(a) && Visible(b)
    ensures Visible(a + b)
  {
  }

  lemma CutNet(a: string, tail: string)
    requires forall i :: 0 <= i < |a| ==> AuthorityChar(a[i])
    requires tail == "" || tail[0] == '/' || tail[0] == '?'
    ensures var j := Span(a + tail, {'/', '?', '#'});
            (a + tail)[..j] == a && (a + tail)[j..] == tail
  {
    SpanCuts(a, tail, {'/', '?', '#'});
  }

  lemma SplitRender(f: Form)
    requires WellFormed(f)
    ensures Split(Render(f)) == Ok(Parts(f.scheme, f.host, f.port, f.path, Encode(f.pairs)))
  {
    var a, tail := Authority(f), f.path + QueryPart(f);
    var x := a + tail;
    CutScheme(f.scheme, x);
    RenderIsVisible(f);
    AuthorityIsPlain(f);
    assert tail == "" || tail[0] == '/' || tail[0] == '?';
    CutNet(a, tail);
    CutAuthority(f);
    var rest := "//" + x;
    assert AfterScheme(Render(f)) == rest && rest[..2] == "//" && rest[2..] == x;
  }

  /** Rendering loses nothing. */
  lemma RenderInjective(f: Form, g: Form)
    requires WellFormed(f) && WellFormed(g)
    ensures Render(f) == Render(g) <==> f == g
  {
    if Render(f) == Render(g) {
      SplitRender(f);
      SplitRender(g);
      QueryRoundTrip(f.pairs);
      QueryRoundTrip(g.pairs);
    }
  }

  // ----- the main results

  /** Equal up to trailing slashes, except that a path of several slashes only is not the root. */
  predicate SamePath(a: string, b: string) {
    StripSlashes(a) == StripSlashes(b) && (IsRoot(a) <==> IsRoot(b))
  }

  predicate IsRoot(path: string) {
    path == "" || path == "/"
  }

  lemma PathsAgree(a: string, b: string)
    ensures CanonPath(a) == CanonPath(b) <==> SamePath(a, b)
  {
    assert !IsRoot(a) ==> CanonPath(a) == StripSlashes(a) && CanonPath(a) != "/";
    assert !IsRoot(b) ==> CanonPath(b) == StripSlashes(b) && CanonPath(b) != "/";
  }

  /** No port, port 0, or the scheme's own. */
  predicate UsualPort(p: Parts) {
    p.port == None || p.port == Some(0) || p.port == Some(if p.scheme == "http" then 80 else 443)
  }

  /** Each parameter that is not for tracking occurs equally often, in any order. */
  ghost predicate SameParameters(ps: seq<Pair>, qs: seq<Pair>) {
    forall p: Pair :: Lower(p.key) !in TRACKING ==> multiset(ps)[p] == multiset(qs)[p]
  }

  /** What two URLs must share to count as the same destination. No scheme counts as https. */
  ghost predicate SameDestination(p: Parts, q: Parts) {
    && (p.scheme == "http" <==> q.scheme == "http")
    && p.host == q.host
    && (p.port == q.port || (UsualPort(p) && UsualPort(q)))
    && SamePath(p.path, q.path)
    && SameParameters(ParseQuery(p.query), ParseQuery(q.query))
  }

  /** Tracking parameters go, every other one stays as often as it was there. */
  lemma {:induction false} KeptCounts(ps: seq<Pair>, p: Pair)
    ensures multiset(Kept(ps))[p] == if Lower(p.key) in TRACKING then 0 else multiset(ps)[p]
  {
    if ps != [] {
      KeptCounts(ps[1..], p);
      assert ps == [ps[0]] + ps[1..];
    }
  }

  lemma KeptAlike(ps: seq<Pair>, qs: seq<Pair>)
    ensures multiset(Kept(ps)) == multiset(Kept(qs)) <==> SameParameters(ps, qs)
  {
    forall p ensures multiset(Kept(ps))[p] == (if Lower(p.key) in TRACKING then 0 else multiset(ps)[p])
                     && multiset(Kept(qs))[p] == (if Lower(p.key) in TRACKING then 0 else multiset(qs)[p]) {
      KeptCounts(ps, p);
      KeptCounts(qs, p);
    }
  }

  lemma SchemesAlike(s: string, t: string)
    requires (s == "" || IsWeb(s)) && (t == "" || IsWeb(t))
    ensures EffectiveScheme(s) == EffectiveScheme(t) <==> (s == "http" <==> t == "http")
  {
    WebSchemes();
  }

  lemma PortsAlike(p: Parts, q: Parts)
    requires (p.scheme == "" || IsWeb(p.scheme)) && (q.scheme == "" || IsWeb(q.scheme))
    requires p.scheme == "http" <==> q.scheme == "http"
    ensures EffectivePort(EffectiveScheme(p.scheme), p.port) == EffectivePort(EffectiveScheme(q.scheme), q.port)
            <==> p.port == q.port || (UsualPort(p) && UsualPort(q))
  {
    WebSchemes();
  }

  /** Two URLs normalise alike exactly when they lead to the same destination. */
  lemma NormalFormsAreComplete(u: string, v: string)
    ensures Normalize(u).Ok? <==> Tokenise(u).Ok?
    ensures Tokenise(u).Ok? && Tokenise(v).Ok? ==>
              (Normalize(u) == Normalize(v) <==> SameDestination(Tokenise(u).value, Tokenise(v).value))
  {
    if Tokenise(u).Err? || Tokenise(v).Err? { return; }
    var p, q := Tokenise(u).value, Tokenise(v).value;
    TokensAreClean(u);
    TokensAreClean(v);
    CanonIsWellFormed(p);
    CanonIsWellFormed(q);
    RenderInjective(Canon(p), Canon(q));
    SortIsCanonical(Kept(ParseQuery(p.query)), Kept(ParseQuery(q.query)));
    KeptAlike(ParseQuery(p.query), ParseQuery(q.query));
    PathsAgree(p.path, q.path);
    SchemesAlike(p.scheme, q.scheme);
    if p.scheme == "http" <==> q.scheme == "http" { PortsAlike(p, q); }
  }

  // ----- the duplicate query

  /** A link row: its normal form was stored when it was created, or never (the column may be null). */
  datatype LinkRow = LinkRow(createdFrom: string, normalized: Option<string>, owner: Option<nat>, deleted: bool)

  /** The WHERE clause of the query. */
  predicate Selected(row: LinkRow, normalized: string, owner: Option<nat>) {
    row.normalized == Some(normalized) && !row.deleted && (owner.Some? ==> row.owner == owner)
  }

  /** The query finds exactly the live rows created, with a normal form, from a URL to the same destination. */
  lemma DuplicatesShareTheirDestination(row: LinkRow, url: string, owner: Option<nat>)
    requires row.normalized.Some? ==> Normalize(row.createdFrom) == Ok(row.normalized.value)
    ensures Tokenise(url).Ok? && Tokenise(row.createdFrom).Ok? ==>
            (Selected(row, Normalize(url).value, owner) <==>
            && !row.deleted && row.normalized.Some? && (owner.Some? ==> row.owner == owner)
            && SameDestination(Tokenise(row.createdFrom).value, Tokenise(url).value))
  {
    NormalFormsAreComplete(row.createdFrom, url);
  }

  // ----- normalising twice

  predicate AllSlashes(s: string) {
    forall i :: 0 <= i < |s| ==> s[i] == '/'
  }

  /** The paths on which normalising twice is the same as once. */
  predicate Settled(path: string) {
    (|path| > 1 ==> !AllSlashes(path)) && ';' !in AfterLast(CanonPath(path), '/')
  }

  lemma StripAgain(path: string)
    ensures StripSlashes(StripSlashes(path)) == StripSlashes(path)
  {
  }

  lemma DropParamsShortens(path: string)
    ensures |DropParams(path)| <= |path|
    ensures DropParams(path) == path <==> ';' !in AfterLast(path, '/')
  {
    var last := AfterLast(path, '/');
    var k := Span(last, {';'});
    var n := |path| - |last|;
    assert path == path[..n] + last;
    if k < |last| {
      assert last[k] in last;
      assert |DropParams(path)| == n + k;
    } else {
      assert forall i :: 0 <= i < |last| ==> last[i] !in {';'};
      assert last[..k] == last;
    }
  }

  lemma CanonPathAgain(path: string)
    ensures CanonPath(DropParams(CanonPath(path))) == CanonPath(path) <==> Settled(path)
  {
    var c := CanonPath(path);
    DropParamsShortens(c);
    if path != "" && path != "/" {
      StripAgain(path);
      assert c == "" <==> AllSlashes(path);
      if c == "" {
        assert DropParams(c) == "";
      }
    }
  }

  lemma {:induction false} KeptAgain(ps: seq<Pair>)
    requires forall i :: 0 <= i < |ps| ==> Lower(ps[i].key) !in TRACKING
    ensures Kept(ps) == ps
  {
    if ps != [] { KeptAgain(ps[1..]); }
  }

  lemma {:induction false} KeptDropsTracking(ps: seq<Pair>)
    ensures forall i :: 0 <= i < |Kept(ps)| ==> Lower(Kept(ps)[i].key) !in TRACKING
  {
    if ps != [] { KeptDropsTracking(ps[1..]); }
  }

  lemma PairsAgain(ps: seq<Pair>)
    ensures Sort(Kept(Sort(Kept(ps)))) == Sort(Kept(ps))
  {
    var kept := Kept(ps);
    var sorted := Sort(kept);
    KeptDropsTracking(ps);
    SortSorts(kept);
    forall i | 0 <= i < |sorted| ensures Lower(sorted[i].key) !in TRACKING {
      assert sorted[i] in multiset(sorted);
      assert sorted[i] in kept;
    }
    KeptAgain(sorted);
    SortIsCanonical(sorted, kept);
  }

  /** The second pass sees the first pass's form, its path cut again. */
  lemma SecondPass(p: Parts)
    requires Clean(p)
    ensures var f := Canon(p);
            WellFormed(f) && WellFormed(f.(path := CanonPath(DropParams(f.path))))
            && Normalize(Render(f)) == Ok(Render(f.(path := CanonPath(DropParams(f.path)))))
  {
    var f := Canon(p);
    CanonIsWellFormed(p);
    SplitRender(f);
    SchemeIsWeb(p.scheme);
    SchemeIsWeb(f.scheme);
    LowerTwice(p.host);
    QueryRoundTrip(f.pairs);
    PairsAgain(ParseQuery(p.query));
    DropParamsKeepsOk(f.path);
    CanonPathIsOk(DropParams(f.path));
    assert Canon(Tokenise(Render(f)).value) == f.(path := CanonPath(DropParams(f.path)));
  }

  /** A normal form is always a URL again, and it is its own normal form exactly on settled paths. */
  lemma IdempotentIffSettled(url: string)
    requires Tokenise(url).Ok?
    ensures Normalize(url).Ok? && Normalize(Normalize(url).value).Ok?
    ensures Normalize(Normalize(url).value) == Normalize(url) <==> Settled(Tokenise(url).value.path)
  {
    var p := Tokenise(url).value;
    TokensAreClean(url);
    SecondPass(p);
    var f := Canon(p);
    RenderInjective(f, f.(path := CanonPath(DropParams(f.path))));
    CanonPathAgain(p.path);
  }
}
