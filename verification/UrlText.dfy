/**
 The text functions under URL normalisation: cutting at delimiters, percent-encoding of bytes,
 query strings, and the order in which query pairs are sorted.
 */
module UrlText {
  import opened Letters

  /** How far the text runs before the first of the delimiters, all of it if there is none. */
  function Span(s: string, stop: set<char>): (k: nat)
    ensures k <= |s| && (k < |s| ==> s[k] in stop)
    ensures forall i :: 0 <= i < k ==> s[i] !in stop
  {
    if s == "" || s[0] in stop then 0 else 1 + Span(s[1..], stop)
  }

  predicate Free(s: string, stop: set<char>) {
    forall i :: 0 <= i < |s| ==> s[i] !in stop
  }

  lemma SpanCuts(a: string, b: string, stop: set<char>)
    requires Free(a, stop) && (b == "" || b[0] in stop)
    ensures Span(a + b, stop) == |a|
    ensures (a + b)[..|a|] == a && (a + b)[|a|..] == b
  {
    assert forall i :: 0 <= i < |a| ==> (a + b)[i] == a[i];
    assert b != "" ==> (a + b)[|a|] == b[0];
  }

  /** What follows the last occurrence of c, all of it if there is none. */
  function AfterLast(s: string, c: char): (r: string)
    ensures |r| <= |s| && s[|s| - |r|..] == r && c !in r
  {
    if s == "" || s[|s| - 1] == c then ""
    else
      var r := AfterLast(s[..|s| - 1], c);
      assert s[|s| - 1 - |r|..] == r + [s[|s| - 1]];
      r + [s[|s| - 1]]
  }

  lemma {:induction false} NothingCut(s: string, c: char)
    requires c !in s
    ensures AfterLast(s, c) == s
  {
    if s != "" { NothingCut(s[..|s| - 1], c); }
  }

  function LowerChar(c: char): char {
    if 'A' <= c <= 'Z' then c - 'A' + 'a' else c
  }

  /** The capitals of ASCII become small letters, everything else stays. */
  lemma LowerCharIs(c: char, i: nat)
    ensures i < 26 ==> LowerChar(CAPITALS[i]) == SMALL[i]
    ensures c !in CAPITALS ==> LowerChar(c) == c
  {
    if i < 26 { Nth(i); }
    Capitals(c);
  }

  function Lower(s: string): (r: string)
    ensures |r| == |s| && forall i :: 0 <= i < |s| ==> r[i] == LowerChar(s[i])
  {
    if s == "" then "" else [LowerChar(s[0])] + Lower(s[1..])
  }

  predicate Visible(s: string) {
    forall i :: 0 <= i < |s| ==> '!' <= s[i] <= '~'
  }

  // ----- percent-encoding

  /** Text whose characters stand for bytes. */
  predicate Bytes(s: string) {
    forall i :: 0 <= i < |s| ==> s[i] as int < 256
  }

  predicate Unreserved(c: char) {
    'a' <= c <= 'z' || 'A' <= c <= 'Z' || '0' <= c <= '9' || c == '_' || c == '.' || c == '-' || c == '~'
  }

  function HexDigit(n: nat): char
    requires n < 16
  {
    if n < 10 then '0' + n as char else 'A' + (n - 10) as char
  }

  predicate IsHex(c: char) {
    '0' <= c <= '9' || 'A' <= c <= 'F' || 'a' <= c <= 'f'
  }

  function HexValue(c: char): (n: nat)
    requires IsHex(c)
    ensures n < 16
  {
    if c <= '9' then (c - '0') as nat else if c <= 'F' then (c - 'A') as nat + 10 else (c - 'a') as nat + 10
  }

  function QuoteChar(c: char): string
    requires c as int < 256
  {
    if Unreserved(c) then [c]
    else if c == ' ' then "+"
    else ['%', HexDigit(c as int / 16), HexDigit(c as int % 16)]
  }

  function Quote(s: string): string
    requires Bytes(s)
  {
    if s == "" then "" else QuoteChar(s[0]) + Quote(s[1..])
  }

  function Unquote(s: string): string {
    if s == "" then ""
    else if s[0] == '+' then " " + Unquote(s[1..])
    else if s[0] == '%' && |s| >= 3 && IsHex(s[1]) && IsHex(s[2]) then
      [(16 * HexValue(s[1]) + HexValue(s[2])) as char] + Unquote(s[3..])
    else [s[0]] + Unquote(s[1..])
  }

  lemma HexRoundTrip(n: nat)
    requires n < 16
    ensures IsHex(HexDigit(n)) && HexValue(HexDigit(n)) == n
  {
  }

  lemma UnquoteOne(c: char, rest: string)
    requires c as int < 256
    ensures Unquote(QuoteChar(c) + rest) == [c] + Unquote(rest)
  {
    var q := QuoteChar(c);
    assert (q + rest)[|q|..] == rest;
    HexRoundTrip(c as int / 16);
    HexRoundTrip(c as int % 16);
    if !Unreserved(c) && c != ' ' {
      assert (q + rest)[..3] == q;
      assert 16 * (c as int / 16) + c as int % 16 == c as int;
    }
  }

  lemma {:induction false} UnquoteQuote(s: string)
    requires Bytes(s)
    ensures Unquote(Quote(s)) == s
  {
    if s != "" {
      UnquoteQuote(s[1..]);
      UnquoteOne(s[0], Quote(s[1..]));
    }
  }

  lemma {:induction false} UnquoteGivesBytes(s: string)
    requires Bytes(s)
    ensures Bytes(Unquote(s))
    decreases |s|
  {
    if s != "" {
      UnquoteGivesBytes(s[1..]);
      if |s| >= 3 { UnquoteGivesBytes(s[3..]); }
    }
  }

  predicate PlainChar(c: char) {
    Unreserved(c) || c == '+' || c == '%'
  }

  predicate Plain(s: string) {
    forall i :: 0 <= i < |s| ==> PlainChar(s[i])
  }

  lemma {:induction false} QuoteIsPlain(s: string)
    requires Bytes(s)
    ensures Plain(Quote(s))
  {
    if s != "" {
      QuoteIsPlain(s[1..]);
      assert Plain(QuoteChar(s[0]));
    }
  }

  // ----- query strings

  datatype Pair = Pair(key: string, value: string)

  predicate BytePairs(ps: seq<Pair>) {
    forall i :: 0 <= i < |ps| ==> Bytes(ps[i].key) && Bytes(ps[i].value)
  }

  function EncodePair(p: Pair): string
    requires Bytes(p.key) && Bytes(p.value)
  {
    Quote(p.key) + "=" + Quote(p.value)
  }

  function Encode(ps: seq<Pair>): string
    requires BytePairs(ps)
  {
    if ps == [] then ""
    else EncodePair(ps[0]) + (if |ps| == 1 then "" else "&" + Encode(ps[1..]))
  }

  function ParseField(s: string): Pair {
    var e := Span(s, {'='});
    Pair(Unquote(s[..e]), if e < |s| then Unquote(s[e + 1..]) else "")
  }

  /** Empty fields are skipped; a field without '=' has an empty value. */
  function ParseQuery(s: string): seq<Pair> {
    var k := Span(s, {'&'});
    if k < |s| then First(s[..k]) + ParseQuery(s[k + 1..]) else First(s[..k])
  }

  /** The pair of one field, if the field is not empty. */
  function First(field: string): seq<Pair> {
    if field == "" then [] else [ParseField(field)]
  }

  lemma FieldRoundTrip(p: Pair)
    requires Bytes(p.key) && Bytes(p.value)
    ensures ParseField(EncodePair(p)) == p
  {
    UnquoteQuote(p.key);
    UnquoteQuote(p.value);
    QuoteIsPlain(p.key);
    FieldCuts(Quote(p.key), Quote(p.value));
  }

  lemma FieldCuts(k: string, v: string)
    requires Plain(k)
    ensures ParseField(k + "=" + v) == Pair(Unquote(k), Unquote(v))
  {
    var s, tail := k + "=" + v, "=" + v;
    assert s == k + tail;
    SpanCuts(k, tail, {'='});
    assert s[|k| + 1..] == v;
  }

  predicate QueryChar(c: char) {
    PlainChar(c) || c == '&' || c == '='
  }

  predicate QueryText(s: string) {
    forall i :: 0 <= i < |s| ==> QueryChar(s[i])
  }

  lemma PairText(p: Pair)
    requires Bytes(p.key) && Bytes(p.value)
    ensures EncodePair(p) != "" && Free(EncodePair(p), {'&'}) && QueryText(EncodePair(p))
  {
    QuoteIsPlain(p.key);
    QuoteIsPlain(p.value);
  }

  lemma {:induction false} EncodeIsQueryText(ps: seq<Pair>)
    requires BytePairs(ps)
    ensures QueryText(Encode(ps)) && (Encode(ps) == "" <==> ps == [])
  {
    if ps != [] {
      PairText(ps[0]);
      EncodeIsQueryText(ps[1..]);
      Joined(EncodePair(ps[0]), Encode(ps[1..]));
    }
  }

  lemma Joined(a: string, b: string)
    requires QueryText(a) && QueryText(b)
    ensures QueryText(a + ("&" + b))
  {
  }

  lemma QueryCuts(first: string, rest: string)
    requires Free(first, {'&'}) && first != ""
    ensures ParseQuery(first) == [ParseField(first)]
    ensures ParseQuery(first + ("&" + rest)) == [ParseField(first)] + ParseQuery(rest)
  {
    OneField(first);
    FieldAndMore(first, rest);
  }

  lemma OneField(first: string)
    requires Free(first, {'&'}) && first != ""
    ensures ParseQuery(first) == [ParseField(first)]
  {
    SpanCuts(first, "", {'&'});
    assert first + "" == first && first[..|first|] == first;
  }

  lemma FieldAndMore(first: string, rest: string)
    requires Free(first, {'&'})
    ensures ParseQuery(first + ("&" + rest)) == First(first) + ParseQuery(rest)
  {
    SpanCuts(first, "&" + rest, {'&'});
    SkipMark(first, "&" + rest);
    ParsesFirst(first + ("&" + rest));
  }

  lemma ParsesFirst(s: string)
    requires Span(s, {'&'}) < |s|
    ensures ParseQuery(s) == First(s[..Span(s, {'&'})]) + ParseQuery(s[Span(s, {'&'}) + 1..])
  {
  }

  lemma SkipMark(first: string, tail: string)
    requires tail != ""
    ensures (first + tail)[|first| + 1..] == tail[1..]
  {
  }

  lemma {:induction false} QueryRoundTrip(ps: seq<Pair>)
    requires BytePairs(ps)
    ensures ParseQuery(Encode(ps)) == ps
  {
    if ps != [] {
      var first, rest := EncodePair(ps[0]), Encode(ps[1..]);
      FieldRoundTrip(ps[0]);
      PairText(ps[0]);
      QueryRoundTrip(ps[1..]);
      QueryCuts(first, rest);
      assert ps == [ps[0]] + ps[1..];
      if |ps| == 1 {
        assert Encode(ps) == first;
      } else {
        assert Encode(ps) == first + ("&" + rest);
      }
    }
  }

  lemma FieldIsBytes(f: string)
    requires Bytes(f)
    ensures Bytes(ParseField(f).key) && Bytes(ParseField(f).value)
  {
    var e := Span(f, {'='});
    UnquoteGivesBytes(f[..e]);
    if e < |f| { UnquoteGivesBytes(f[e + 1..]); }
  }

  lemma {:induction false} ParsedPairsAreBytes(s: string)
    requires Bytes(s)
    ensures BytePairs(ParseQuery(s))
    decreases |s|
  {
    var k := Span(s, {'&'});
    FirstIsBytes(s[..k]);
    if k < |s| {
      ParsedPairsAreBytes(s[k + 1..]);
      BytePairsJoin(First(s[..k]), ParseQuery(s[k + 1..]));
    }
  }

  lemma FirstIsBytes(field: string)
    requires Bytes(field)
    ensures BytePairs(First(field))
  {
    FieldIsBytes(field);
  }

  lemma BytePairsJoin(a: seq<Pair>, b: seq<Pair>)
    requires BytePairs(a) && BytePairs(b)
    ensures BytePairs(a + b)
  {
  }

  // ----- sorting pairs

  predicate TextLeq(a: string, b: string) {
    a == "" || (b != "" && (a[0] < b[0] || (a[0] == b[0] && TextLeq(a[1..], b[1..]))))
  }

  predicate Leq(p: Pair, q: Pair) {
    if p.key == q.key then TextLeq(p.value, q.value) else TextLeq(p.key, q.key)
  }

  /** The texts agree up to some place, where the first ends or has the smaller character. */
  ghost predicate InOrder(a: string, b: string) {
    exists k: nat :: AgreeTo(a, b, k) && (k == |a| || (k < |b| && a[k] < b[k]))
  }

  ghost predicate AgreeTo(a: string, b: string, k: nat) {
    k <= |a| && k <= |b| && a[..k] == b[..k]
  }

  lemma AgreeFurther(a: string, b: string, k: nat)
    requires a != "" && b != "" && a[0] == b[0]
    ensures AgreeTo(a, b, k + 1) <==> AgreeTo(a[1..], b[1..], k)
  {
    if k + 1 <= |a| && k + 1 <= |b| {
      assert a[..k + 1] == [a[0]] + a[1..][..k] && b[..k + 1] == [b[0]] + b[1..][..k];
    }
  }

  lemma InOrderFurther(a: string, b: string)
    requires a != "" && b != "" && a[0] == b[0]
    ensures InOrder(a, b) <==> InOrder(a[1..], b[1..])
  {
    var c, d := a[1..], b[1..];
    if InOrder(c, d) {
      var k: nat :| AgreeTo(c, d, k) && (k == |c| || (k < |d| && c[k] < d[k]));
      AgreeFurther(a, b, k);
      assert AgreeTo(a, b, k + 1) && (k + 1 == |a| || (k + 1 < |b| && a[k + 1] < b[k + 1]));
    }
    if InOrder(a, b) {
      var k: nat :| AgreeTo(a, b, k) && (k == |a| || (k < |b| && a[k] < b[k]));
      if k == 0 { assert false; }
      AgreeFurther(a, b, k - 1);
      assert AgreeTo(c, d, k - 1) && (k - 1 == |c| || (k - 1 < |d| && c[k - 1] < d[k - 1]));
    }
  }

  lemma AgreeAtFirst(a: string, b: string, k: nat)
    requires k > 0 && AgreeTo(a, b, k)
    ensures a != "" && b != "" && a[0] == b[0]
  {
    assert a[..k][0] == b[..k][0];
  }

  lemma DifferAtOnce(a: string, b: string)
    requires a == "" || b == "" || a[0] != b[0]
    ensures InOrder(a, b) <==> a == "" || (b != "" && a[0] < b[0])
  {
    forall k: nat | AgreeTo(a, b, k) ensures k == 0 {
      if k > 0 { AgreeAtFirst(a, b, k); }
    }
    assert AgreeTo(a, b, 0);
  }

  lemma {:induction false} TextLeqIsInOrder(a: string, b: string)
    ensures TextLeq(a, b) <==> InOrder(a, b)
  {
    if a != "" && b != "" && a[0] == b[0] {
      TextLeqIsInOrder(a[1..], b[1..]);
      InOrderFurther(a, b);
    } else {
      DifferAtOnce(a, b);
    }
  }

  lemma {:induction false} TextOrder(a: string, b: string)
    ensures TextLeq(a, b) || TextLeq(b, a)
    ensures TextLeq(a, b) && TextLeq(b, a) ==> a == b
  {
    if a != "" && b != "" {
      TextOrder(a[1..], b[1..]);
      assert a == [a[0]] + a[1..] && b == [b[0]] + b[1..];
    }
  }

  lemma {:induction false} TextTransitive(a: string, b: string, c: string)
    requires TextLeq(a, b) && TextLeq(b, c)
    ensures TextLeq(a, c)
  {
    if a != "" && a[0] == b[0] == c[0] { TextTransitive(a[1..], b[1..], c[1..]); }
  }

  lemma Order(p: Pair, q: Pair)
    ensures Leq(p, q) || Leq(q, p)
    ensures Leq(p, q) && Leq(q, p) ==> p == q
  {
    TextOrder(p.key, q.key);
    TextOrder(p.value, q.value);
  }

  lemma Transitive(p: Pair, q: Pair, r: Pair)
    requires Leq(p, q) && Leq(q, r)
    ensures Leq(p, r)
  {
    if p.key == q.key == r.key {
      TextTransitive(p.value, q.value, r.value);
    } else {
      TextOrder(p.key, p.key);
      TextOrder(q.key, q.key);
      TextTransitive(p.key, q.key, r.key);
      TextOrder(p.key, q.key);
      TextOrder(q.key, r.key);
    }
  }

  ghost predicate Sorted(ps: seq<Pair>) {
    forall i, j :: 0 <= i < j < |ps| ==> Leq(ps[i], ps[j])
  }

  function Insert(p: Pair, ps: seq<Pair>): seq<Pair> {
    if ps == [] || Leq(p, ps[0]) then [p] + ps else [ps[0]] + Insert(p, ps[1..])
  }

  function Sort(ps: seq<Pair>): seq<Pair> {
    if ps == [] then [] else Insert(ps[0], Sort(ps[1..]))
  }

  lemma {:induction false} InsertAdds(p: Pair, ps: seq<Pair>)
    ensures multiset(Insert(p, ps)) == multiset{p} + multiset(ps)
  {
    if ps != [] {
      assert ps == [ps[0]] + ps[1..];
      if !Leq(p, ps[0]) { InsertAdds(p, ps[1..]); }
    }
  }

  lemma LeastFirst(p: Pair, ps: seq<Pair>)
    requires Sorted(ps) && forall q :: q in multiset(ps) ==> Leq(p, q)
    ensures Sorted([p] + ps)
  {
    forall j | 0 <= j < |ps| ensures Leq(p, ps[j]) { assert ps[j] in multiset(ps); }
  }

  lemma {:induction false} InsertSorts(p: Pair, ps: seq<Pair>)
    requires Sorted(ps)
    ensures Sorted(Insert(p, ps))
  {
    if ps != [] {
      if Leq(p, ps[0]) {
        forall q | q in multiset(ps) ensures Leq(p, q) {
          if q != ps[0] { Transitive(p, ps[0], q); }
        }
        LeastFirst(p, ps);
      } else {
        Order(p, ps[0]);
        InsertSorts(p, ps[1..]);
        InsertAdds(p, ps[1..]);
        LeastFirst(ps[0], Insert(p, ps[1..]));
      }
    }
  }

  lemma {:induction false} SortSorts(ps: seq<Pair>)
    ensures Sorted(Sort(ps)) && multiset(Sort(ps)) == multiset(ps)
  {
    if ps != [] {
      SortSorts(ps[1..]);
      InsertSorts(ps[0], Sort(ps[1..]));
      InsertAdds(ps[0], Sort(ps[1..]));
      assert ps == [ps[0]] + ps[1..];
    }
  }

  /** The sorted pairs are in the order of their keys, and of their values where keys are equal. */
  lemma SortOrders(ps: seq<Pair>, i: nat, j: nat)
    requires i < j < |Sort(ps)|
    ensures InOrder(Sort(ps)[i].key, Sort(ps)[j].key)
    ensures Sort(ps)[i].key == Sort(ps)[j].key ==> InOrder(Sort(ps)[i].value, Sort(ps)[j].value)
  {
    SortSorts(ps);
    var p, q := Sort(ps)[i], Sort(ps)[j];
    assert Leq(p, q);
    TextOrder(p.key, p.key);
    TextLeqIsInOrder(p.key, q.key);
    TextLeqIsInOrder(p.value, q.value);
  }

  lemma HeadsAgree(a: seq<Pair>, b: seq<Pair>)
    requires Sorted(a) && Sorted(b) && multiset(a) == multiset(b) && a != [] && b != []
    ensures a[0] == b[0]
  {
    assert a[0] in multiset(b) && b[0] in multiset(a);
    var i, j :| 0 <= i < |b| && b[i] == a[0] && 0 <= j < |a| && a[j] == b[0];
    Order(a[0], b[0]);
    assert Leq(b[0], b[i]) || i == 0;
    assert Leq(a[0], a[j]) || j == 0;
  }

  lemma TailsAgree(a: seq<Pair>, b: seq<Pair>)
    requires multiset(a) == multiset(b) && a != [] && b != [] && a[0] == b[0]
    ensures multiset(a[1..]) == multiset(b[1..])
  {
    assert a == [a[0]] + a[1..] && b == [b[0]] + b[1..];
    assert multiset(a[1..]) == multiset(a) - multiset{a[0]};
    assert multiset(b[1..]) == multiset(b) - multiset{b[0]};
  }

  lemma {:induction false} SortedIsUnique(a: seq<Pair>, b: seq<Pair>)
    requires Sorted(a) && Sorted(b) && multiset(a) == multiset(b)
    ensures a == b
  {
    assert |a| == |multiset(a)| == |b|;
    if a != [] {
      HeadsAgree(a, b);
      TailsAgree(a, b);
      SortedIsUnique(a[1..], b[1..]);
      assert a == [a[0]] + a[1..] && b == [b[0]] + b[1..];
    }
  }

  /** Sorting forgets the order and nothing else. */
  lemma SortIsCanonical(a: seq<Pair>, b: seq<Pair>)
    ensures Sort(a) == Sort(b) <==> multiset(a) == multiset(b)
  {
    SortSorts(a);
    SortSorts(b);
    if multiset(a) == multiset(b) { SortedIsUnique(Sort(a), Sort(b)); }
  }
}
