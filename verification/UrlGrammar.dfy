/**
 A URL as it is written: the components between their delimiters, and text spelled with and without
 percent-escapes. The tokeniser and the query parser are shown to read exactly what is written.
 */
module UrlGrammar {
  import opened Wrappers
  import opened Decimals
  import opened Letters
  import opened UrlText
  import opened UrlNormalize

  // ----- spelling

  /** One byte as it may be spelled: itself, a plus for a blank, or an escape with two hex digits. */
  datatype Glyph = Bare(c: char) | Blank | Escape(high: char, low: char)

  /** A hex digit in either case, by its place in the row of digits. */
  predicate Stands(c: char, n: nat) {
    n < 16 && ("0123456789abcdef"[n] == c || "0123456789ABCDEF"[n] == c)
  }

  function GlyphText(g: Glyph): string {
    match g
    case Bare(c) => [c]
    case Blank => "+"
    case Escape(h, l) => ['%', h, l]
  }

  function Spelled(gs: seq<Glyph>): string {
    if gs == [] then "" else GlyphText(gs[0]) + Spelled(gs[1..])
  }

  /** The text says these bytes: escapes are complete, and a bare percent sign does not look like one. */
  ghost predicate Says(gs: seq<Glyph>, s: string) {
    if gs == [] then s == ""
    else
      && s != "" && Says(gs[1..], s[1..])
      && match gs[0]
         case Bare(c) => s[0] == c && c != '+' && (c == '%' ==> !TwoHex(Spelled(gs[1..])))
         case Blank => s[0] == ' '
         case Escape(h, l) => exists m: nat, n: nat :: Stands(h, m) && Stands(l, n) && s[0] as int == 16 * m + n
  }

  ghost predicate TwoHex(text: string) {
    |text| >= 2 && (exists m :: Stands(text[0], m)) && (exists n :: Stands(text[1], n))
  }

  lemma HexStands(c: char, n: nat)
    ensures Stands(c, n) <==> IsHex(c) && HexValue(c) == n
  {
    if n < 16 {
      assert "0123456789abcdef"[n] == (if n < 10 then '0' + n as char else 'a' + (n - 10) as char);
      assert "0123456789ABCDEF"[n] == (if n < 10 then '0' + n as char else 'A' + (n - 10) as char);
    }
  }

  lemma TwoHexMeans(text: string)
    ensures TwoHex(text) <==> |text| >= 2 && IsHex(text[0]) && IsHex(text[1])
  {
    if |text| >= 2 {
      if IsHex(text[0]) { HexStands(text[0], HexValue(text[0])); }
      if IsHex(text[1]) { HexStands(text[1], HexValue(text[1])); }
      forall n | Stands(text[0], n) ensures IsHex(text[0]) { HexStands(text[0], n); }
      forall n | Stands(text[1], n) ensures IsHex(text[1]) { HexStands(text[1], n); }
    }
  }

  /** However a text is spelled, decoding gives what it says. */
  lemma {:induction false} UnquoteReads(gs: seq<Glyph>, s: string)
    requires Says(gs, s)
    ensures Unquote(Spelled(gs)) == s
  {
    if gs != [] {
      UnquoteReads(gs[1..], s[1..]);
      UnquoteFirst(gs[0], Spelled(gs[1..]), s[0]);
      assert s == [s[0]] + s[1..];
    }
  }

  lemma UnquoteFirst(g: Glyph, rest: string, c: char)
    requires match g
             case Bare(d) => c == d && d != '+' && (d == '%' ==> !TwoHex(rest))
             case Blank => c == ' '
             case Escape(h, l) => exists m: nat, n: nat :: Stands(h, m) && Stands(l, n) && c as int == 16 * m + n
    ensures Unquote(GlyphText(g) + rest) == [c] + Unquote(rest)
  {
    match g
    case Bare(d) => UnquoteBare(d, rest);
    case Blank => assert ("+" + rest)[1..] == rest;
    case Escape(h, l) =>
      var m: nat, n: nat :| Stands(h, m) && Stands(l, n) && c as int == 16 * m + n;
      UnquoteEscape(h, l, m, n, rest, c);
  }

  lemma UnquoteBare(d: char, rest: string)
    requires d != '+' && (d == '%' ==> !TwoHex(rest))
    ensures Unquote([d] + rest) == [d] + Unquote(rest)
  {
    TwoHexMeans(rest);
    assert ([d] + rest)[1..] == rest;
  }

  lemma UnquoteEscape(h: char, l: char, m: nat, n: nat, rest: string, c: char)
    requires Stands(h, m) && Stands(l, n) && c as int == 16 * m + n
    ensures Unquote(['%', h, l] + rest) == [c] + Unquote(rest)
  {
    HexStands(h, m);
    HexStands(l, n);
    var s := ['%', h, l] + rest;
    assert s[3..] == rest && s[1] == h && s[2] == l;
  }

  /** Every text is spelled somehow, so decoding is all there is to it. */
  lemma {:induction false} SpellingOf(text: string) returns (gs: seq<Glyph>, s: string)
    ensures Spelled(gs) == text && Says(gs, s)
    decreases |text|
  {
    if text == "" {
      gs, s := [], "";
    } else {
      TwoHexMeans(text[1..]);
      var g, c, n := FirstGlyph(text);
      var rest, said := SpellingOf(text[n..]);
      gs, s := [g] + rest, [c] + said;
      assert gs[1..] == rest && s[1..] == said;
      assert text[..n] + text[n..] == text;
    }
  }

  lemma FirstGlyph(text: string) returns (g: Glyph, c: char, n: nat)
    requires text != ""
    ensures 1 <= n <= |text|
    ensures text[..n] == GlyphText(g)
    ensures match g
            case Bare(d) => c == d && d != '+' && (d == '%' ==> !TwoHex(text[n..]))
            case Blank => c == ' '
            case Escape(h, l) => exists i: nat, j: nat :: Stands(h, i) && Stands(l, j) && c as int == 16 * i + j
  {
    TwoHexMeans(text[1..]);
    if text[0] == '+' {
      g, c, n := Blank, ' ', 1;
    } else if text[0] == '%' && TwoHex(text[1..]) {
      var i, j := HexValue(text[1]), HexValue(text[2]);
      HexStands(text[1], i);
      HexStands(text[2], j);
      g, c, n := Escape(text[1], text[2]), (16 * i + j) as char, 3;
    } else {
      g, c, n := Bare(text[0]), text[0], 1;
    }
  }

  /** What stays as it is when encoded. */
  predicate KeepsItself(c: char) {
    c in CAPITALS || c in SMALL || c in DIGITS || c in "_.-~"
  }

  lemma UnreservedKeeps(c: char)
    ensures Unreserved(c) <==> KeepsItself(c)
  {
    Capitals(c);
    Smalls(c);
    Numerals(c);
    assert "_.-~"[0] == '_' && "_.-~"[1] == '.' && "_.-~"[2] == '-' && "_.-~"[3] == '~';
  }

  lemma HexDigitStands(n: nat)
    requires n < 16
    ensures HexDigit(n) == "0123456789ABCDEF"[n] && Stands(HexDigit(n), n)
  {
    assert "0123456789ABCDEF"[n] == (if n < 10 then '0' + n as char else 'A' + (n - 10) as char);
  }

  /** Encoding spells safe characters bare, blanks with a plus, and the rest with two capital hex digits. */
  predicate CanonicalGlyph(g: Glyph, c: char) {
    match g
    case Bare(d) => c == d && KeepsItself(d)
    case Blank => c == ' '
    case Escape(h, l) =>
      && c as int < 256 && !KeepsItself(c) && c != ' '
      && h == "0123456789ABCDEF"[c as int / 16] && l == "0123456789ABCDEF"[c as int % 16]
  }

  lemma QuotedGlyph(c: char) returns (g: Glyph)
    requires c as int < 256
    ensures CanonicalGlyph(g, c) && GlyphText(g) == QuoteChar(c)
  {
    UnreservedKeeps(c);
    if Unreserved(c) {
      g := Bare(c);
    } else if c == ' ' {
      g := Blank;
    } else {
      HexDigitStands(c as int / 16);
      HexDigitStands(c as int % 16);
      g := Escape(HexDigit(c as int / 16), HexDigit(c as int % 16));
    }
  }

  /** So the encoding of a text is determined by what it says. */
  lemma {:induction false} QuoteSpells(s: string) returns (gs: seq<Glyph>)
    requires Bytes(s)
    ensures |gs| == |s| && (forall i :: 0 <= i < |s| ==> CanonicalGlyph(gs[i], s[i])) && Spelled(gs) == Quote(s)
  {
    if s == "" {
      gs := [];
    } else {
      var g := QuotedGlyph(s[0]);
      var rest := QuoteSpells(s[1..]);
      gs := [g] + rest;
      assert gs[1..] == rest;
    }
  }

  // ----- query strings

  /** What may stand between ampersands: nothing, a name, or a name and a value. */
  datatype Entry = Nothing | Name(key: string) | Setting(key: string, value: string)

  predicate Fits(e: Entry) {
    match e
    case Nothing => true
    case Name(key) => key != "" && Free(key, {'&', '='})
    case Setting(key, value) => Free(key, {'&', '='}) && Free(value, {'&'})
  }

  function EntryText(e: Entry): string {
    match e
    case Nothing => ""
    case Name(key) => key
    case Setting(key, value) => key + ("=" + value)
  }

  function QueryWritten(es: seq<Entry>): string {
    if es == [] then "" else if |es| == 1 then EntryText(es[0]) else EntryText(es[0]) + ("&" + QueryWritten(es[1..]))
  }

  function EntryPairs(e: Entry): seq<Pair> {
    match e
    case Nothing => []
    case Name(key) => [Pair(Unquote(key), "")]
    case Setting(key, value) => [Pair(Unquote(key), Unquote(value))]
  }

  function QueryPairs(es: seq<Entry>): seq<Pair> {
    if es == [] then [] else EntryPairs(es[0]) + QueryPairs(es[1..])
  }

  lemma FreeOfOne(s: string, stop: set<char>, c: char)
    requires Free(s, stop) && c in stop
    ensures Free(s, {c})
  {
    forall i | 0 <= i < |s| ensures s[i] !in {c} { assert s[i] !in stop; }
  }

  lemma EntryReads(e: Entry)
    requires Fits(e)
    ensures Free(EntryText(e), {'&'}) && First(EntryText(e)) == EntryPairs(e)
  {
    match e
    case Nothing =>
    case Name(key) =>
      FreeOfOne(key, {'&', '='}, '&');
      FreeOfOne(key, {'&', '='}, '=');
      SpanCuts(key, "", {'='});
      assert key + "" == key && key[..|key|] == key;
    case Setting(key, value) =>
      FreeOfOne(key, {'&', '='}, '&');
      FreeOfOne(key, {'&', '='}, '=');
      FreeJoin(key, "=" + value, {'&'});
      SettingReads(key, value);
  }

  lemma SettingReads(key: string, value: string)
    requires Free(key, {'='})
    ensures First(key + ("=" + value)) == [Pair(Unquote(key), Unquote(value))]
  {
    SpanCuts(key, "=" + value, {'='});
    SkipMark(key, "=" + value);
    assert ("=" + value)[1..] == value;
  }

  /** A query is read entry by entry. */
  lemma {:induction false} QueryReads(es: seq<Entry>)
    requires forall e :: e in es ==> Fits(e)
    ensures ParseQuery(QueryWritten(es)) == QueryPairs(es)
  {
    if es == [] {
      SpanCuts("", "", {'&'});
    } else {
      assert es[0] in es && forall e :: e in es[1..] ==> e in es;
      EntryReads(es[0]);
      if |es| == 1 {
        LastEntryReads(EntryText(es[0]));
        assert QueryPairs(es[1..]) == [];
      } else {
        QueryReads(es[1..]);
        FieldAndMore(EntryText(es[0]), QueryWritten(es[1..]));
      }
    }
  }

  lemma LastEntryReads(text: string)
    requires Free(text, {'&'})
    ensures ParseQuery(text) == First(text)
  {
    SpanCuts(text, "", {'&'});
    assert text + "" == text && text[..|text|] == text;
  }

  /** Every text is such a query. */
  lemma {:induction false} EntriesOf(text: string) returns (es: seq<Entry>)
    ensures (forall e :: e in es ==> Fits(e)) && QueryWritten(es) == text && es != []
    decreases |text|
  {
    var k := Span(text, {'&'});
    var e := EntryOf(text[..k]);
    if k == |text| {
      es := [e];
    } else {
      var rest := EntriesOf(text[k + 1..]);
      es := [e] + rest;
      EntryInFront(e, rest);
      Reassemble(text, k);
    }
  }

  lemma EntryInFront(e: Entry, rest: seq<Entry>)
    requires rest != []
    ensures QueryWritten([e] + rest) == EntryText(e) + ("&" + QueryWritten(rest))
  {
    assert ([e] + rest)[1..] == rest;
  }

  lemma Reassemble(text: string, k: nat)
    requires k < |text|
    ensures text == text[..k] + ([text[k]] + text[k + 1..])
  {
  }

  lemma EntryOf(text: string) returns (e: Entry)
    requires Free(text, {'&'})
    ensures Fits(e) && EntryText(e) == text
  {
    var k := Span(text, {'='});
    if text == "" {
      e := Nothing;
    } else if k == |text| {
      e := Name(text);
    } else {
      e := Setting(text[..k], text[k + 1..]);
      assert text == text[..k] + ("=" + text[k + 1..]);
    }
  }

  // ----- whole URLs

  /** The components as written, without their delimiters; None where the delimiter is missing too. */
  datatype Url = Url(scheme: Option<string>, user: Option<string>, host: string, port: Option<string>, path: string,
                     params: Option<string>, query: Option<string>, fragment: Option<string>)

  function Marked(mark: string, text: Option<string>): string {
    if text.None? then "" else mark + text.value
  }

  function SchemeText(scheme: Option<string>): string {
    if scheme.None? then "" else scheme.value + ":"
  }

  function InfoText(u: Url): string {
    u.host + Marked(":", u.port)
  }

  function NetText(u: Url): string {
    if u.user.None? then InfoText(u) else u.user.value + ("@" + InfoText(u))
  }

  function TailText(u: Url): string {
    (u.path + Marked(";", u.params)) + (Marked("?", u.query) + Marked("#", u.fragment))
  }

  function Written(u: Url): string {
    SchemeText(u.scheme) + ("//" + (NetText(u) + TailText(u)))
  }

  predicate NetChars(s: string) {
    forall i :: 0 <= i < |s| ==> AuthorityChar(s[i])
  }

  predicate HostChars(s: string) {
    forall i :: 0 <= i < |s| ==> HostChar(s[i])
  }

  predicate PortFits(port: Option<string>) {
    port.Some? ==> Digits(port.value) && Value(port.value) <= 65535
  }

  /** Parameters belong to the last segment of a path, after its first semicolon. */
  ghost predicate PathFits(path: string, params: Option<string>) {
    && PathOk(path) && ';' !in AfterLast(path, '/')
    && (params.Some? ==> path != "" && Visible(params.value) && Free(params.value, {'/', '?', '#'}))
  }

  /** Each component keeps clear of the delimiters that would end it. */
  ghost predicate Proper(u: Url) {
    && (u.scheme.Some? ==> IsWeb(Lower(u.scheme.value)))
    && (u.user.Some? ==> NetChars(u.user.value))
    && u.host != "" && HostChars(u.host) && PortFits(u.port)
    && PathFits(u.path, u.params)
    && (u.query.Some? ==> Visible(u.query.value) && Free(u.query.value, {'#'}))
    && (u.fragment.Some? ==> Visible(u.fragment.value))
  }

  function PortNumber(port: Option<string>): Option<nat>
    requires PortFits(port)
  {
    if port.None? || port.value == "" then None else Some(Value(port.value))
  }

  /** What is read: scheme and host in small letters, the port as a number, no user info, parameters or fragment. */
  function PartsOf(u: Url): Parts
    requires PortFits(u.port)
  {
    Parts(if u.scheme.None? then "" else Lower(u.scheme.value), Lower(u.host), PortNumber(u.port), u.path,
          if u.query.None? then "" else u.query.value)
  }

  lemma {:induction false} AfterLastCuts(a: string, c: char, r: string)
    requires c !in r
    ensures AfterLast(a + ([c] + r), c) == r
    decreases |r|
  {
    var s := a + ([c] + r);
    if r == "" {
      assert s[|s| - 1] == c;
    } else {
      var n := |r| - 1;
      assert s[..|s| - 1] == a + ([c] + r[..n]);
      assert s[|s| - 1] == r[n] && r == r[..n] + [r[n]];
      AfterLastCuts(a, c, r[..n]);
    }
  }

  lemma WebIsSmall(low: string)
    requires IsWeb(low)
    ensures low != "" && forall i :: 0 <= i < |low| ==> 'a' <= low[i] <= 'z'
  {
  }

  predicate LowersTo(s: string, low: string) {
    |s| == |low| && forall i :: 0 <= i < |s| ==> low[i] == LowerChar(s[i])
  }

  lemma LowersToLower(s: string)
    ensures LowersTo(s, Lower(s))
  {
  }

  lemma SmallFromLetters(s: string, low: string)
    requires IsWeb(low) && LowersTo(s, low)
    ensures s != "" && forall i :: 0 <= i < |s| ==> Letter(s[i])
  {
    WebIsSmall(low);
    forall i | 0 <= i < |s| ensures Letter(s[i]) { CapitalOrSmall(s[i], low[i], LowerChar(s[i])); }
  }

  lemma WebLetters(s: string)
    requires IsWeb(Lower(s))
    ensures s != "" && forall i :: 0 <= i < |s| ==> Letter(s[i])
  {
    LowersToLower(s);
    SmallFromLetters(s, Lower(s));
  }

  lemma LettersAreScheme(s: string, rest: string)
    requires s != "" && forall i :: 0 <= i < |s| ==> Letter(s[i])
    ensures Free(s, {':'}) && HasScheme(s + (":" + rest)) && Span(s + (":" + rest), {':'}) == |s|
    ensures (s + (":" + rest))[..|s|] == s && (s + (":" + rest))[|s| + 1..] == rest
  {
    var url := s + (":" + rest);
    forall i | 0 <= i < |s| ensures s[i] !in {':'} && url[i] == s[i] && SchemeChar(url[i]) { assert Letter(s[i]); }
    SpanCuts(s, ":" + rest, {':'});
    SkipMark(s, ":" + rest);
    assert (":" + rest)[1..] == rest;
  }

  lemma SchemeReads(scheme: Option<string>, x: string)
    requires scheme.Some? ==> IsWeb(Lower(scheme.value))
    requires x != "" && x[0] == '/'
    ensures SchemeOf(SchemeText(scheme) + x) == (if scheme.None? then "" else Lower(scheme.value))
    ensures AfterScheme(SchemeText(scheme) + x) == x
  {
    if scheme.Some? {
      WebLetters(scheme.value);
      LettersAreScheme(scheme.value, x);
      assert SchemeText(scheme) + x == scheme.value + (":" + x);
    } else {
      assert "" + x == x;
      assert !HasScheme(x);
    }
  }

  lemma NetReads(net: string, tail: string)
    requires NetChars(net) && (tail == "" || tail[0] in {'/', '?', '#'})
    ensures var j := Span(net + tail, {'/', '?', '#'});
            (net + tail)[..j] == net && (net + tail)[j..] == tail
  {
    forall i | 0 <= i < |net| ensures net[i] !in {'/', '?', '#'} { assert AuthorityChar(net[i]); }
    SpanCuts(net, tail, {'/', '?', '#'});
  }

  lemma InfoReads(u: Url)
    requires HostChars(u.host) && PortFits(u.port)
    ensures HostText(InfoText(u)) == u.host && ParsePort(PortText(InfoText(u))) == Ok(PortNumber(u.port))
  {
    var tail := Marked(":", u.port);
    assert Free(u.host, {':'}) by {
      forall i | 0 <= i < |u.host| ensures u.host[i] !in {':'} { assert HostChar(u.host[i]); }
    }
    SpanCuts(u.host, tail, {':'});
    if u.port.Some? {
      SkipMark(u.host, tail);
      assert tail[1..] == u.port.value;
    }
  }

  lemma InfoIsPlain(u: Url)
    requires HostChars(u.host) && PortFits(u.port)
    ensures NetChars(InfoText(u)) && '@' !in InfoText(u)
  {
    var tail := Marked(":", u.port);
    forall i | 0 <= i < |InfoText(u)| ensures AuthorityChar(InfoText(u)[i]) && InfoText(u)[i] != '@' {
      if i < |u.host| { assert HostChar(u.host[i]); } else { assert InfoText(u)[i] == tail[i - |u.host|]; }
    }
  }

  lemma NetIsPlain(u: Url)
    requires Proper(u)
    ensures NetChars(NetText(u)) && AfterLast(NetText(u), '@') == InfoText(u)
  {
    InfoIsPlain(u);
    if u.user.Some? {
      AfterLastCuts(u.user.value, '@', InfoText(u));
      assert "@" + InfoText(u) == ['@'] + InfoText(u);
      forall i | 0 <= i < |NetText(u)| ensures AuthorityChar(NetText(u)[i]) {
        var n := |u.user.value|;
        if i < n { assert NetText(u)[i] == u.user.value[i]; }
        else if i > n { assert NetText(u)[i] == InfoText(u)[i - n - 1]; }
      }
    } else {
      NothingCut(NetText(u), '@');
    }
  }

  lemma PathIsFree(path: string, params: Option<string>)
    requires PathFits(path, params)
    ensures PathOk(path + Marked(";", params))
  {
    if params.Some? {
      forall i | 0 <= i < |params.value| ensures params.value[i] !in {'?', '#'} { assert params.value[i] !in {'/', '?', '#'}; }
      FreeJoin(path, ";" + params.value, {'?', '#'});
      VisibleJoin(path, ";" + params.value);
    } else {
      assert path + "" == path;
    }
  }

  lemma NotBoth(s: string, t: string)
    requires Free(s, {'?', '#'})
    ensures Free(s, {'#'}) && Free(s, {'?'})
  {
    FreeOfOne(s, {'?', '#'}, '#');
    FreeOfOne(s, {'?', '#'}, '?');
  }

  /** A path without '?' or '#', then query and fragment. */
  lemma TailReads(path: string, query: Option<string>, fragment: Option<string>)
    requires Free(path, {'?', '#'}) && (query.Some? ==> Free(query.value, {'#'}))
    ensures var tail := path + (Marked("?", query) + Marked("#", fragment));
            PathText(tail) == path && QueryOf(tail) == if query.None? then "" else query.value
  {
    var q, f := Marked("?", query), Marked("#", fragment);
    var tail := path + (q + f);
    NotBoth(path, q);
    SpanCuts(path, q + f, {'?', '#'});
    FreeJoin(path, q, {'#'});
    SpanCuts(path + q, f, {'#'});
    assert tail == (path + q) + f;
    SpanCuts(path, q, {'?'});
    if query.Some? {
      SkipMark(path, q);
      assert q[1..] == query.value;
    }
  }

  lemma ParamsCut(front: string, last: string, more: string)
    requires '/' !in last + more && more != "" && more[0] == ';' && Free(last, {';'})
    ensures DropParams(front + (['/'] + (last + more))) == front + (['/'] + last)
  {
    var path := front + (['/'] + (last + more));
    AfterLastCuts(front, '/', last + more);
    SpanCuts(last, more, {';'});
    KeepFront(front, ['/'] + (last + more), |last + more|);
    Glue(front, "/", last);
  }

  lemma KeepFront(front: string, tail: string, n: nat)
    requires |tail| == n + 1
    ensures (front + tail)[..|front + tail| - n] == front + [tail[0]]
  {
  }

  lemma Glue(a: string, b: string, c: string)
    ensures (a + b) + c == a + (b + c)
  {
  }

  lemma NoSlash(last: string, params: string)
    requires '/' !in last && Free(params, {'/', '?', '#'})
    ensures '/' !in last + (";" + params)
  {
    var s := last + (";" + params);
    forall i | 0 <= i < |s| ensures s[i] != '/' {
      if i > |last| { assert s[i] == params[i - |last| - 1]; }
    }
  }

  lemma ParamsRead(path: string, params: Option<string>)
    requires PathFits(path, params)
    ensures DropParams(path + Marked(";", params)) == path
  {
    if params.Some? {
      var front, last := LastSegment(path);
      NoSlash(last, params.value);
      assert Free(last, {';'}) by { assert ';' !in last; }
      ParamsCut(front, last, ";" + params.value);
      Glue(front, ['/'] + last, ";" + params.value);
      Glue("/", last, ";" + params.value);
    } else {
      DropParamsShortens(path);
      assert path + "" == path;
    }
  }

  lemma LastSegment(path: string) returns (front: string, last: string)
    requires path != "" && path[0] == '/'
    ensures last == AfterLast(path, '/') && path == front + (['/'] + last) && '/' !in last
  {
    last := AfterLast(path, '/');
    LastIsShorter(path, '/');
    LastMark(path, '/');
    front := path[..|path| - |last| - 1];
    CutAt(path, last, |path| - |last| - 1);
  }

  lemma CutAt(s: string, last: string, k: nat)
    requires k < |s| && s[k + 1..] == last
    ensures s == s[..k] + ([s[k]] + last)
  {
  }

  /** The delimiter stands in front of what follows its last occurrence. */
  lemma {:induction false} LastMark(s: string, c: char)
    requires |AfterLast(s, c)| < |s|
    ensures s[|s| - |AfterLast(s, c)| - 1] == c
  {
    var n := |s| - 1;
    if s[n] != c {
      var init := s[..n];
      assert |AfterLast(s, c)| == |AfterLast(init, c)| + 1;
      LastMark(init, c);
      assert s[n - |AfterLast(init, c)| - 1] == init[n - |AfterLast(init, c)| - 1];
    } else {
      assert AfterLast(s, c) == "";
    }
  }

  lemma WrittenIsVisible(u: Url)
    requires Proper(u)
    ensures Visible(Written(u))
  {
    NetIsPlain(u);
    NetIsVisible(NetText(u));
    TailIsVisible(u);
    SchemeIsVisible(u.scheme);
    VisibleParts(SchemeText(u.scheme), NetText(u), TailText(u));
  }

  lemma VisibleParts(scheme: string, net: string, tail: string)
    requires Visible(scheme) && Visible(net) && Visible(tail)
    ensures Visible(scheme + ("//" + (net + tail)))
  {
    VisibleJoin(net, tail);
    VisibleJoin("//", net + tail);
    VisibleJoin(scheme, "//" + (net + tail));
  }

  lemma NetIsVisible(net: string)
    requires NetChars(net)
    ensures Visible(net)
  {
    forall i | 0 <= i < |net| ensures '!' <= net[i] <= '~' { assert AuthorityChar(net[i]); }
  }

  lemma TailIsVisible(u: Url)
    requires Proper(u)
    ensures Visible(TailText(u))
  {
    PathIsFree(u.path, u.params);
    VisibleMark("?", u.query);
    VisibleMark("#", u.fragment);
    VisibleJoin(Marked("?", u.query), Marked("#", u.fragment));
    VisibleJoin(u.path + Marked(";", u.params), Marked("?", u.query) + Marked("#", u.fragment));
  }

  lemma SchemeIsVisible(scheme: Option<string>)
    requires scheme.Some? ==> IsWeb(Lower(scheme.value))
    ensures Visible(SchemeText(scheme))
  {
    if scheme.Some? {
      WebLetters(scheme.value);
      forall i | 0 <= i < |scheme.value| ensures '!' <= scheme.value[i] <= '~' { assert Letter(scheme.value[i]); }
      VisibleJoin(scheme.value, ":");
    }
  }

  lemma VisibleMark(mark: string, text: Option<string>)
    requires Visible(mark) && (text.Some? ==> Visible(text.value))
    ensures Visible(Marked(mark, text))
  {
  }

  lemma TailStarts(u: Url)
    requires Proper(u)
    ensures TailText(u) == "" || TailText(u)[0] in {'/', '?', '#'}
  {
    if u.path != "" { assert TailText(u)[0] == u.path[0]; }
  }

  lemma AuthorityReads(u: Url, scheme: string)
    requires Proper(u)
    ensures SplitAuthority(scheme, NetText(u), TailText(u))
            == Ok(Parts(scheme, Lower(u.host), PortNumber(u.port), u.path + Marked(";", u.params),
                        if u.query.None? then "" else u.query.value))
  {
    NetIsPlain(u);
    InfoReads(u);
    NoBrackets(NetText(u));
    PathIsFree(u.path, u.params);
    TailReads(u.path + Marked(";", u.params), u.query, u.fragment);
    AuthorityOk(scheme, NetText(u), TailText(u), InfoText(u), PortNumber(u.port));
  }

  lemma NoBrackets(net: string)
    requires NetChars(net)
    ensures '[' !in net && ']' !in net
  {
  }

  lemma AuthorityOk(scheme: string, net: string, tail: string, info: string, port: Option<nat>)
    requires '[' !in net && ']' !in net && AfterLast(net, '@') == info
    requires HostText(info) != "" && ParsePort(PortText(info)) == Ok(port)
    ensures SplitAuthority(scheme, net, tail) == Ok(Parts(scheme, Lower(HostText(info)), port, PathText(tail), QueryOf(tail)))
  {
  }

  lemma SplitReads(u: Url, x: string)
    requires Proper(u) && x == NetText(u) + TailText(u)
    ensures SchemeOf(Written(u)) == (if u.scheme.None? then "" else Lower(u.scheme.value)) && AfterScheme(Written(u)) == "//" + x
    ensures var j := Span(x, {'/', '?', '#'}); x[..j] == NetText(u) && x[j..] == TailText(u)
  {
    SchemeReads(u.scheme, "//" + x);
    NetIsPlain(u);
    TailStarts(u);
    NetReads(NetText(u), TailText(u));
  }

  /** A proper URL is read as its components. */
  lemma TokeniseReads(u: Url)
    requires Proper(u)
    ensures Tokenise(Written(u)) == Ok(PartsOf(u))
  {
    var x := NetText(u) + TailText(u);
    WrittenIsVisible(u);
    SplitReads(u, x);
    assert ("//" + x)[..2] == "//" && ("//" + x)[2..] == x;
    AuthorityReads(u, SchemeOf(Written(u)));
    ParamsRead(u.path, u.params);
  }

  // ----- and nothing else is accepted

  lemma SchemeOfText(url: string) returns (scheme: Option<string>)
    requires SchemeOf(url) == "" || IsWeb(SchemeOf(url))
    ensures url == SchemeText(scheme) + AfterScheme(url)
    ensures scheme.Some? ==> IsWeb(Lower(scheme.value))
  {
    if HasScheme(url) {
      var k := Span(url, {':'});
      scheme := Some(url[..k]);
      AroundMark(url, k);
    } else {
      scheme := None;
      assert "" + url == url;
    }
  }

  lemma AroundMark(s: string, k: nat)
    requires k < |s|
    ensures s == (s[..k] + [s[k]]) + s[k + 1..]
  {
  }

  lemma UserOf(net: string, info: string) returns (user: Option<string>)
    requires info == AfterLast(net, '@') && NetChars(net)
    ensures net == (if user.None? then info else user.value + ("@" + info))
    ensures user.Some? ==> NetChars(user.value)
  {
    var n := |net| - |info|;
    if n == 0 {
      user := None;
      assert net[0..] == net;
    } else {
      LastMark(net, '@');
      user := Some(net[..n - 1]);
      CutAt(net, info, n - 1);
      assert "@" + info == ['@'] + info;
    }
  }

  lemma PortOf(info: string) returns (port: Option<string>)
    requires ParsePort(PortText(info)).Ok?
    ensures info == HostText(info) + Marked(":", port) && PortFits(port)
  {
    var k := Span(info, {':'});
    if k < |info| {
      port := Some(info[k + 1..]);
      Reassemble(info, k);
    } else {
      port := None;
      assert info[..k] + "" == info;
    }
  }

  /** The first of two delimiters is the first of either. */
  lemma SpansTogether(s: string)
    ensures var m := Span(s, {'#'});
            Span(s, {'?', '#'}) == Span(s[..m], {'?'})
  {
    var m := Span(s, {'#'});
    var t := s[..m];
    var q := Span(t, {'?'});
    assert s == s[..q] + s[q..];
    forall i | 0 <= i < q ensures s[..q][i] !in {'?', '#'} { assert t[i] !in {'?'} && s[i] !in {'#'}; }
    assert q < |s| ==> s[q..][0] in {'?', '#'} by { if q < |t| { assert t[q] == s[q]; } else if q < |s| { assert q == m; } }
    SpanCuts(s[..q], s[q..], {'?', '#'});
  }

  lemma FragmentOf(tail: string) returns (front: string, fragment: Option<string>)
    requires Visible(tail)
    ensures front == tail[..Span(tail, {'#'})] && tail == front + Marked("#", fragment)
    ensures fragment.Some? ==> Visible(fragment.value)
  {
    var m := Span(tail, {'#'});
    front := tail[..m];
    if m < |tail| {
      fragment := Some(tail[m + 1..]);
      Reassemble(tail, m);
    } else {
      fragment := None;
      assert tail[..m] + "" == tail;
    }
  }

  lemma QueryFrom(front: string) returns (path: string, query: Option<string>)
    requires Visible(front) && Free(front, {'#'})
    ensures path == front[..Span(front, {'?'})] && front == path + Marked("?", query)
    ensures query.Some? ==> Visible(query.value) && Free(query.value, {'#'})
  {
    var q := Span(front, {'?'});
    path := front[..q];
    if q < |front| {
      query := Some(front[q + 1..]);
      Reassemble(front, q);
      forall i | 0 <= i < |query.value| ensures query.value[i] !in {'#'} { assert front[q + 1 + i] !in {'#'}; }
    } else {
      query := None;
      assert front[..q] + "" == front;
    }
  }

  lemma ParamsOf(p: string) returns (path: string, params: Option<string>)
    requires PathOk(p)
    ensures PathFits(path, params) && p == path + Marked(";", params)
  {
    var last := AfterLast(p, '/');
    var i := Span(last, {';'});
    if i < |last| {
      var front, _ := LastSegment(p);
      path, params := front + (['/'] + last[..i]), Some(last[i + 1..]);
      Reassemble(last, i);
      Glue("/", last[..i], ";" + last[i + 1..]);
      Glue(front, ['/'] + last[..i], ";" + last[i + 1..]);
      SegmentFits(p, front, last, i);
    } else {
      path, params := p, None;
      assert ';' !in last by { assert forall k :: 0 <= k < |last| ==> last[k] !in {';'}; }
      assert p + "" == p;
    }
  }

  lemma SegmentFits(p: string, front: string, last: string, i: nat)
    requires PathOk(p) && p == front + (['/'] + last) && '/' !in last && i == Span(last, {';'}) < |last|
    ensures PathFits(front + (['/'] + last[..i]), Some(last[i + 1..]))
  {
    ShortPath(p, front, last, i);
    ShortSegment(last, i);
    AfterLastCuts(front, '/', last[..i]);
    assert p[|front| + 1..] == last;
    ParamsFit(p, |front| + 1, last, i);
  }

  lemma ShortPath(p: string, front: string, last: string, i: nat)
    requires PathOk(p) && p == front + (['/'] + last) && i <= |last|
    ensures PathOk(front + (['/'] + last[..i])) && front + (['/'] + last[..i]) != ""
  {
    PrefixIsOk(p, |front| + 1 + i);
    assert front + (['/'] + last[..i]) == p[..|front| + 1 + i];
  }

  lemma ShortSegment(last: string, i: nat)
    requires '/' !in last && i == Span(last, {';'})
    ensures '/' !in last[..i] && ';' !in last[..i]
  {
    forall k | 0 <= k < i ensures last[k] != ';' && last[k] != '/' { assert last[k] !in {';'} && last[k] in last; }
  }

  lemma ParamsFit(p: string, n: nat, last: string, i: nat)
    requires PathOk(p) && n <= |p| && p[n..] == last && '/' !in last && i < |last|
    ensures Visible(last[i + 1..]) && Free(last[i + 1..], {'/', '?', '#'})
  {
    var more := last[i + 1..];
    forall k | 0 <= k < |more| ensures more[k] !in {'/', '?', '#'} && '!' <= more[k] <= '~' {
      var at := n + (i + 1 + k);
      assert more[k] == last[i + 1 + k] == p[at];
      assert last[i + 1 + k] in last;
      assert p[at] !in {'?', '#'};
    }
  }

  lemma TailWritten(tail: string) returns (path: string, params: Option<string>, query: Option<string>, fragment: Option<string>)
    requires Visible(tail) && (tail == "" || tail[0] in {'/', '?', '#'})
    ensures PathFits(path, params) && tail == (path + Marked(";", params)) + (Marked("?", query) + Marked("#", fragment))
    ensures query.Some? ==> Visible(query.value) && Free(query.value, {'#'})
    ensures fragment.Some? ==> Visible(fragment.value)
  {
    var front, whole;
    front, fragment := FragmentOf(tail);
    whole, query := QueryFrom(front);
    SpansTogether(tail);
    TailIsOk(tail);
    assert whole == PathText(tail);
    path, params := ParamsOf(whole);
    Glue(whole, Marked("?", query), Marked("#", fragment));
  }

  lemma NetWritten(scheme: string, net: string, tail: string) returns (user: Option<string>, host: string, port: Option<string>)
    requires (forall i :: 0 <= i < |net| ==> NetlocChar(net[i])) && SplitAuthority(scheme, net, tail).Ok?
    ensures user.Some? ==> NetChars(user.value)
    ensures host != "" && HostChars(host) && PortFits(port)
    ensures net == var info := host + Marked(":", port); if user.None? then info else user.value + ("@" + info)
  {
    forall i | 0 <= i < |net| ensures AuthorityChar(net[i]) { assert net[i] in net; }
    var info := AfterLast(net, '@');
    user := UserOf(net, info);
    host := HostText(info);
    InfoIsAuthority(net);
    HostTextIsHost(info);
    port := PortOf(info);
  }

  lemma VisibleEnd(s: string, k: nat)
    requires Visible(s) && k <= |s|
    ensures Visible(s[k..])
  {
  }

  lemma SplitParts(url: string) returns (x: string, j: nat)
    requires Split(url).Ok?
    ensures SchemeOf(url) == "" || IsWeb(SchemeOf(url))
    ensures AfterScheme(url) == "//" + x && Visible(x) && j == Span(x, {'/', '?', '#'})
    ensures SplitAuthority(SchemeOf(url), x[..j], x[j..]).Ok?
  {
    var rest := AfterScheme(url);
    x := rest[2..];
    j := Span(x, {'/', '?', '#'});
    if HasScheme(url) { VisibleEnd(url, Span(url, {':'}) + 1); }
    VisibleEnd(rest, 2);
    FirstTwo(rest, x);
  }

  lemma FirstTwo(rest: string, x: string)
    requires |rest| >= 2 && rest[..2] == "//" && x == rest[2..]
    ensures rest == "//" + x
  {
  }

  lemma SplitAccepted(url: string, x: string, j: nat) returns (scheme: Option<string>, net: string, tail: string)
    requires SchemeOf(url) == "" || IsWeb(SchemeOf(url))
    requires AfterScheme(url) == "//" + x && Visible(x) && j == Span(x, {'/', '?', '#'})
    ensures scheme.Some? ==> IsWeb(Lower(scheme.value))
    ensures net == x[..j] && tail == x[j..] && url == SchemeText(scheme) + ("//" + (net + tail))
    ensures forall i :: 0 <= i < |net| ==> NetlocChar(net[i])
    ensures Visible(tail) && (tail == "" || tail[0] in {'/', '?', '#'})
  {
    scheme := SchemeOfText(url);
    NetlocIsAuthority(x, j);
    net, tail := x[..j], x[j..];
    assert x == net + tail;
  }

  lemma PutTogether(scheme: Option<string>, user: Option<string>, host: string, port: Option<string>, path: string,
                    params: Option<string>, query: Option<string>, fragment: Option<string>) returns (u: Url)
    requires scheme.Some? ==> IsWeb(Lower(scheme.value))
    requires user.Some? ==> NetChars(user.value)
    requires host != "" && HostChars(host) && PortFits(port) && PathFits(path, params)
    requires query.Some? ==> Visible(query.value) && Free(query.value, {'#'})
    requires fragment.Some? ==> Visible(fragment.value)
    ensures u == Url(scheme, user, host, port, path, params, query, fragment) && Proper(u)
  {
    u := Url(scheme, user, host, port, path, params, query, fragment);
  }

  lemma WrittenFrom(u: Url, url: string, net: string, tail: string)
    requires url == SchemeText(u.scheme) + ("//" + (net + tail))
    requires net == var info := u.host + Marked(":", u.port); if u.user.None? then info else u.user.value + ("@" + info)
    requires tail == (u.path + Marked(";", u.params)) + (Marked("?", u.query) + Marked("#", u.fragment))
    ensures Written(u) == url
  {
  }

  /** Whatever is accepted is a proper URL written out. */
  lemma AcceptedIsWritten(url: string) returns (u: Url)
    requires Tokenise(url).Ok?
    ensures Proper(u) && Written(u) == url
  {
    var x, j := SplitParts(url);
    var scheme, net, tail := SplitAccepted(url, x, j);
    var user, host, port := NetWritten(SchemeOf(url), net, tail);
    var path, params, query, fragment := TailWritten(tail);
    u := PutTogether(scheme, user, host, port, path, params, query, fragment);
    WrittenFrom(u, url, net, tail);
  }

  /** The accepted texts are exactly the proper URLs. */
  lemma AcceptsExactlyProper(url: string)
    ensures Tokenise(url).Ok? <==> exists u :: Proper(u) && Written(u) == url
  {
    if Tokenise(url).Ok? {
      var u := AcceptedIsWritten(url);
      assert Proper(u) && Written(u) == url;
    }
    if u :| Proper(u) && Written(u) == url { TokeniseReads(u); }
  }

  /**
   Two proper URLs normalise alike exactly if what is read of them leads to the same destination: user info,
   path parameters, fragments, letter case in scheme and host, usual ports, trailing slashes, tracking
   parameters and the order of the others make no difference, and everything else does.
   */
  lemma NormalizeReads(u: Url, v: Url)
    requires Proper(u) && Proper(v)
    ensures Normalize(Written(u)).Ok? && Normalize(Written(v)).Ok?
    ensures Normalize(Written(u)) == Normalize(Written(v)) <==> SameDestination(PartsOf(u), PartsOf(v))
  {
    TokeniseReads(u);
    TokeniseReads(v);
    NormalFormsAreComplete(Written(u), Written(v));
  }

}
