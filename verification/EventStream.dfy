/**
 The live-update stream: frames printed by the server, cut into chunks anywhere, and put together
 again by the client's line buffer. Text is taken after UTF-8 decoding.
 */
module EventStream {
  import opened Wrappers

  /** A published message, or the keep-alive sent when there is none. */
  datatype Item = Message(data: string) | Ping

  const DATA := "data: "
  const PING := ": ping"

  function LineOf(item: Item): string {
    match item
    case Message(data) => DATA + data
    case Ping => PING
  }

  function Frame(item: Item): string {
    LineOf(item) + "\n" + "\n"
  }

  function Stream(items: seq<Item>): string {
    if items == [] then "" else Frame(items[0]) + Stream(items[1..])
  }

  // ----- splitting at newlines

  /** text.split("\n"): always at least one piece. */
  function Split(s: string): (pieces: seq<string>)
    ensures |pieces| >= 1
  {
    if s == "" then [""]
    else
      var rest := Split(s[1..]);
      if s[0] == '\n' then [""] + rest else [[s[0]] + rest[0]] + rest[1..]
  }

  function Lines(s: string): seq<string> {
    Split(s)[..|Split(s)| - 1]
  }

  function Tail(s: string): string {
    Split(s)[|Split(s)| - 1]
  }

  predicate NoNewline(s: string) {
    '\n' !in s
  }

  /** One more character in front of already split pieces. */
  function Prepend(c: char, pieces: seq<string>): seq<string>
    requires |pieces| >= 1
  {
    if c == '\n' then [""] + pieces else [[c] + pieces[0]] + pieces[1..]
  }

  lemma SplitCons(c: char, t: string)
    ensures Split([c] + t) == Prepend(c, Split(t))
  {
    assert ([c] + t)[1..] == t;
  }

  lemma PrependConcat(c: char, front: seq<string>, back: seq<string>)
    requires |front| >= 1
    ensures Prepend(c, front + back) == Prepend(c, front) + back
  {
    assert (front + back)[1..] == front[1..] + back;
  }

  /** Splitting can be resumed from the unfinished last piece. */
  lemma {:induction false} SplitResumes(a: string, b: string)
    ensures Split(a + b) == Lines(a) + Split(Tail(a) + b)
  {
    if a == "" {
      assert a + b == b && Tail(a) + b == b && Lines(a) == [];
    } else {
      var c, t := a[0], a[1..];
      assert a == [c] + t && a + b == [c] + (t + b);
      SplitResumes(t, b);
      SplitCons(c, t);
      SplitCons(c, t + b);
      ResumePrepended(c, t, b);
    }
  }

  lemma ResumeAfterNewline(t: string, b: string)
    requires Split("\n" + t) == Prepend('\n', Split(t))
    ensures Lines("\n" + t) == [""] + Lines(t) && Tail("\n" + t) == Tail(t)
    ensures Prepend('\n', Lines(t) + Split(Tail(t) + b)) == [""] + Lines(t) + Split(Tail(t) + b)
  {
  }

  lemma ResumeInLongText(c: char, t: string, q: seq<string>)
    requires c != '\n' && |Split(t)| > 1 && Split([c] + t) == Prepend(c, Split(t))
    ensures Tail([c] + t) == Tail(t) && Prepend(c, Lines(t) + q) == Lines([c] + t) + q
  {
    PrependConcat(c, Lines(t), q);
    PrependInit(c, Split(t));
  }

  lemma PrependInit(c: char, pieces: seq<string>)
    requires c != '\n' && |pieces| > 1
    ensures var n, longer := |pieces|, Prepend(c, pieces);
            |longer| == n && longer[..n - 1] == Prepend(c, pieces[..n - 1]) && longer[n - 1] == pieces[n - 1]
  {
  }

  lemma ResumePrepended(c: char, t: string, b: string)
    requires Split(t + b) == Lines(t) + Split(Tail(t) + b) && Split([c] + t) == Prepend(c, Split(t))
    ensures Prepend(c, Split(t + b)) == Lines([c] + t) + Split(Tail([c] + t) + b)
  {
    if c == '\n' {
      ResumeAfterNewline(t, b);
    } else if |Split(t)| > 1 {
      ResumeInLongText(c, t, Split(Tail(t) + b));
    } else {
      assert Lines(t) == [] && Lines([c] + t) == [];
      assert Tail([c] + t) + b == [c] + (Tail(t) + b);
      SplitCons(c, Tail(t) + b);
    }
  }

  lemma ResumedLines(a: string, b: string)
    ensures Lines(a + b) == Lines(a) + Lines(Tail(a) + b) && Tail(a + b) == Tail(Tail(a) + b)
  {
    SplitResumes(a, b);
  }

  lemma {:induction false} OneLine(line: string)
    requires NoNewline(line)
    ensures Split(line) == [line]
  {
    if line != "" {
      assert line[0] in line && forall c :: c in line[1..] ==> c in line;
      OneLine(line[1..]);
      assert [line[0]] + line[1..] == line;
    }
  }

  lemma LineFirst(line: string, rest: string)
    requires NoNewline(line)
    ensures Lines(line + "\n" + rest) == [line] + Lines(rest)
  {
    OneLine(line);
    assert line + "\n" + rest == line + ("\n" + rest);
    SplitResumes(line, "\n" + rest);
    SplitResumes(line, "\n");
    assert Split(line + "\n" + rest) == Split(line + ("\n" + rest));
    SplitLine(line, rest);
  }

  lemma {:induction false} SplitLine(line: string, rest: string)
    requires NoNewline(line)
    ensures Split(line + ("\n" + rest)) == [line] + Split(rest)
  {
    if line == "" {
      assert line + ("\n" + rest) == "\n" + rest;
      assert ("\n" + rest)[1..] == rest;
    } else {
      assert line[0] in line && forall c :: c in line[1..] ==> c in line;
      SplitLine(line[1..], rest);
      assert (line + ("\n" + rest))[1..] == line[1..] + ("\n" + rest);
      assert [line[0]] + line[1..] == line;
    }
  }

  lemma {:induction false} PiecesHaveNoNewline(s: string)
    ensures forall p :: p in Split(s) ==> NoNewline(p)
  {
    if s != "" {
      PiecesHaveNoNewline(s[1..]);
      var rest := Split(s[1..]);
      assert rest[0] in rest && forall p :: p in rest[1..] ==> p in rest;
    }
  }

  // ----- the client

  predicate IsData(line: string) {
    |line| >= 6 && line[..6] == DATA
  }

  /** The events of a list of lines: data lines whose text parses. */
  function Deliver<E>(lines: seq<string>, parse: string -> Option<E>): seq<E> {
    if lines == [] then []
    else
      (if IsData(lines[0]) && parse(lines[0][6..]).Some? then [parse(lines[0][6..]).value] else [])
      + Deliver(lines[1..], parse)
  }

  lemma DeliverOne<E>(line: string, rest: seq<string>, parse: string -> Option<E>)
    ensures Deliver([line] + rest, parse) == Deliver([line], parse) + Deliver(rest, parse)
  {
    assert ([line] + rest)[1..] == rest && [line][1..] == [];
  }

  lemma {:induction false} DeliverConcat<E>(a: seq<string>, b: seq<string>, parse: string -> Option<E>)
    ensures Deliver(a + b, parse) == Deliver(a, parse) + Deliver(b, parse)
  {
    if a == [] {
      assert a + b == b;
    } else {
      assert (a + b)[1..] == a[1..] + b && (a + b)[0] == a[0];
      DeliverConcat(a[1..], b, parse);
      assert Deliver(a + b, parse) == Deliver([a[0]], parse) + Deliver(a[1..] + b, parse) by { DeliverOne(a[0], a[1..] + b, parse); }
      assert Deliver(a, parse) == Deliver([a[0]], parse) + Deliver(a[1..], parse) by { DeliverOne(a[0], a[1..], parse); }
    }
  }

  function Joined(chunks: seq<string>): string {
    if chunks == [] then "" else Joined(chunks[..|chunks| - 1]) + chunks[|chunks| - 1]
  }

  /** The loop over complete lines: a data line whose text parses is handed on. */
  method HandleLines<E>(lines: seq<string>, parse: string -> Option<E>) returns (handled: seq<E>)
    ensures handled == Deliver(lines, parse)
  {
    handled := [];
    var j := 0;
    while j < |lines|
      invariant 0 <= j <= |lines|
      invariant handled == Deliver(lines[..j], parse)
    {
      assert lines[..j + 1] == lines[..j] + [lines[j]];
      DeliverConcat(lines[..j], [lines[j]], parse);
      if IsData(lines[j]) {
        var event := parse(lines[j][6..]);
        if event.Some? {
          handled := handled + [event.value];
        }
      }
      j := j + 1;
    }
    assert lines[..j] == lines;
  }

  /** The read loop: whatever the chunks, it has handled exactly the complete lines of the text so far. */
  method ReadEvents<E>(chunks: seq<string>, parse: string -> Option<E>) returns (handled: seq<E>, buffer: string)
    ensures handled == Deliver(Lines(Joined(chunks)), parse)
    ensures buffer == Tail(Joined(chunks))
  {
    handled, buffer := [], "";
    var i := 0;
    while i < |chunks|
      invariant 0 <= i <= |chunks|
      invariant handled == Deliver(Lines(Joined(chunks[..i])), parse)
      invariant buffer == Tail(Joined(chunks[..i]))
    {
      ghost var before := Joined(chunks[..i]);
      assert Joined(chunks[..i + 1]) == before + chunks[i] by { assert chunks[..i + 1][..i] == chunks[..i]; }
      ResumedLines(before, chunks[i]);
      buffer := buffer + chunks[i];
      var lines := Split(buffer);
      buffer := lines[|lines| - 1];
      lines := lines[..|lines| - 1];
      DeliverConcat(Lines(before), lines, parse);
      var events := HandleLines(lines, parse);
      handled := handled + events;
      i := i + 1;
    }
    assert chunks[..|chunks|] == chunks;
  }

  // ----- the server

  /** One poll result per turn: a message, or nothing for the keep-alive. The first frame announces the connection. */
  function Items(connected: string, polls: seq<Option<string>>): seq<Item> {
    [Message(connected)] + Polled(polls)
  }

  function Polled(polls: seq<Option<string>>): seq<Item> {
    if polls == [] then [] else [if polls[0].Some? then Message(polls[0].value) else Ping] + Polled(polls[1..])
  }

  lemma {:induction false} StreamConcat(a: seq<Item>, b: seq<Item>)
    ensures Stream(a + b) == Stream(a) + Stream(b)
  {
    if a == [] {
      assert a + b == b;
    } else {
      assert (a + b)[1..] == a[1..] + b;
      StreamConcat(a[1..], b);
    }
  }

  lemma {:induction false} PolledConcat(a: seq<Option<string>>, b: seq<Option<string>>)
    ensures Polled(a + b) == Polled(a) + Polled(b)
  {
    if a == [] {
      assert a + b == b;
    } else {
      assert (a + b)[1..] == a[1..] + b;
      PolledConcat(a[1..], b);
    }
  }

  lemma StreamGrows(polls: seq<Option<string>>, i: nat)
    requires i < |polls|
    ensures Stream(Polled(polls[..i + 1]))
            == Stream(Polled(polls[..i])) + Frame(if polls[i].Some? then Message(polls[i].value) else Ping)
  {
    var item := if polls[i].Some? then Message(polls[i].value) else Ping;
    assert polls[..i + 1] == polls[..i] + [polls[i]];
    PolledConcat(polls[..i], [polls[i]]);
    assert Polled([polls[i]]) == [item];
    StreamConcat(Polled(polls[..i]), [item]);
    assert [item][1..] == [] && Stream([item]) == Frame(item) + "";
  }

  lemma Regroup(a: string, b: string, c: string)
    ensures a + b + c == a + (b + c)
  {
  }

  const UNAVAILABLE := "{\"error\": \"real-time unavailable\"}"

  /** The generator, up to the disconnect after the given polls; one error message without a store. */
  method Generate(available: bool, connected: string, polls: seq<Option<string>>) returns (out: string)
    ensures out == if available then Stream(Items(connected, polls)) else Stream([Message(UNAVAILABLE)])
  {
    if !available {
      assert [Message(UNAVAILABLE)][1..] == [];
      return Frame(Message(UNAVAILABLE)) + "";
    }
    out := Frame(Message(connected));
    ghost var head, body := out, "";
    var i := 0;
    while i < |polls|
      invariant 0 <= i <= |polls|
      invariant body == Stream(Polled(polls[..i])) && out == head + body
    {
      StreamGrows(polls, i);
      var item := if polls[i].Some? then Message(polls[i].value) else Ping;
      Regroup(head, body, Frame(item));
      out, body := out + Frame(item), body + Frame(item);
      i := i + 1;
    }
    assert polls[..|polls|] == polls;
    StreamStarts(connected, polls);
  }

  lemma StreamStarts(connected: string, polls: seq<Option<string>>)
    ensures Stream(Items(connected, polls)) == Frame(Message(connected)) + Stream(Polled(polls))
  {
    assert Items(connected, polls)[1..] == Polled(polls);
  }

  // ----- round trip

  ghost predicate LineSafe(items: seq<Item>) {
    forall i :: i in items && i.Message? ==> NoNewline(i.data)
  }

  /** The events of the messages among the items, in order. */
  function EventsOf<E>(items: seq<Item>, parse: string -> Option<E>): seq<E> {
    if items == [] then []
    else
      (if items[0].Message? && parse(items[0].data).Some? then [parse(items[0].data).value] else [])
      + EventsOf(items[1..], parse)
  }

  lemma LineIsSafe(item: Item)
    requires item.Message? ==> NoNewline(item.data)
    ensures NoNewline(LineOf(item))
    ensures IsData(LineOf(item)) <==> item.Message?
    ensures item.Message? ==> LineOf(item)[6..] == item.data
  {
    if item.Message? {
      assert LineOf(item)[..6] == DATA;
      assert forall c :: c in LineOf(item) ==> c in DATA || c in item.data;
    } else {
      assert LineOf(item)[0] != DATA[0];
    }
  }

  lemma FrameFirst<E>(item: Item, rest: string, parse: string -> Option<E>)
    requires item.Message? ==> NoNewline(item.data)
    ensures Deliver(Lines(Frame(item) + rest), parse)
            == EventsOf([item], parse) + Deliver(Lines(rest), parse)
  {
    LineIsSafe(item);
    var line := LineOf(item);
    assert Frame(item) + rest == line + "\n" + ("" + "\n" + rest);
    LineFirst(line, "" + "\n" + rest);
    LineFirst("", rest);
    assert Lines(Frame(item) + rest) == [line] + ([""] + Lines(rest));
    DeliverConcat([line], [""] + Lines(rest), parse);
    DeliverConcat([""], Lines(rest), parse);
    assert Deliver([""], parse) == [];
    assert Deliver([line], parse) == EventsOf([item], parse);
  }

  /** The items whose data line is complete within the first k characters of the stream. */
  function CompleteItems(items: seq<Item>, k: int): seq<Item> {
    if items == [] || k < |LineOf(items[0])| + 1 then []
    else [items[0]] + CompleteItems(items[1..], k - |Frame(items[0])|)
  }

  lemma Shorter(items: seq<Item>)
    requires LineSafe(items) && items != []
    ensures LineSafe(items[1..]) && (items[0].Message? ==> NoNewline(items[0].data))
  {
    assert items[0] in items && forall i :: i in items[1..] ==> i in items;
  }

  /** A prefix that ends inside the first data line completes nothing. */
  lemma InsideLine<E>(line: string, k: nat, parse: string -> Option<E>)
    requires NoNewline(line) && k <= |line|
    ensures Deliver(Lines(line[..k]), parse) == []
  {
    OneLine(line[..k]);
  }

  /** A prefix that ends between the two newlines of a frame completes its data line. */
  lemma BetweenNewlines<E>(item: Item, parse: string -> Option<E>)
    requires item.Message? ==> NoNewline(item.data)
    ensures Deliver(Lines(LineOf(item) + "\n"), parse) == EventsOf([item], parse)
  {
    LineIsSafe(item);
    var line := LineOf(item);
    assert line + "\n" == line + "\n" + "";
    LineFirst(line, "");
    assert Lines("") == [];
    assert Lines(line + "\n") == [line];
    assert Deliver([line], parse) == EventsOf([item], parse);
  }

  lemma EventsCons<E>(item: Item, items: seq<Item>, parse: string -> Option<E>)
    ensures EventsOf([item] + items, parse) == EventsOf([item], parse) + EventsOf(items, parse)
  {
    assert ([item] + items)[1..] == items;
    assert [item][1..] == [];
    assert EventsOf([item][1..], parse) == [];
  }

  /** The prefix ends within the first frame. */
  lemma PrefixOfFrame<E>(items: seq<Item>, k: nat, parse: string -> Option<E>)
    requires LineSafe(items) && items != [] && k < |Frame(items[0])|
    ensures Deliver(Lines(Stream(items)[..k]), parse) == EventsOf(CompleteItems(items, k), parse)
  {
    var item, line := items[0], LineOf(items[0]);
    Shorter(items);
    LineIsSafe(item);
    if k <= |line| {
      assert Stream(items)[..k] == line[..k];
      InsideLine(line, k, parse);
      assert CompleteItems(items, k) == [];
    } else {
      assert Stream(items)[..k] == line + "\n";
      BetweenNewlines(item, parse);
      assert CompleteItems(items[1..], k - |Frame(item)|) == [];
      assert CompleteItems(items, k) == [item];
    }
  }

  lemma FrameAndMore<E>(item: Item, text: string, complete: seq<Item>, parse: string -> Option<E>)
    requires item.Message? ==> NoNewline(item.data)
    requires Deliver(Lines(text), parse) == EventsOf(complete, parse)
    ensures Deliver(Lines(Frame(item) + text), parse) == EventsOf([item] + complete, parse)
  {
    FrameFirst(item, text, parse);
    EventsCons(item, complete, parse);
  }

  /**
   After any prefix of the stream, in any chunks, the client has handled exactly the messages whose
   lines are complete, in order.
   */
  lemma {:induction false} PrefixDelivers<E>(items: seq<Item>, k: nat, parse: string -> Option<E>)
    requires LineSafe(items) && k <= |Stream(items)|
    ensures Deliver(Lines(Stream(items)[..k]), parse) == EventsOf(CompleteItems(items, k), parse)
  {
    if items != [] {
      var item, rest := items[0], items[1..];
      var frame := Frame(item);
      if k < |frame| {
        PrefixOfFrame(items, k, parse);
      } else {
        Shorter(items);
        PrefixDelivers(rest, k - |frame|, parse);
        assert Stream(items)[..k] == frame + Stream(rest)[..k - |frame|];
        assert CompleteItems(items, k) == [item] + CompleteItems(rest, k - |frame|);
        FrameAndMore(item, Stream(rest)[..k - |frame|], CompleteItems(rest, k - |frame|), parse);
      }
    }
  }

  lemma {:induction false} WholeStreamDelivers<E>(items: seq<Item>, parse: string -> Option<E>)
    requires LineSafe(items)
    ensures Deliver(Lines(Stream(items)), parse) == EventsOf(items, parse)
  {
    if items != [] {
      Shorter(items);
      FrameFirst(items[0], Stream(items[1..]), parse);
      WholeStreamDelivers(items[1..], parse);
      EventsCons(items[0], items[1..], parse);
      assert [items[0]] + items[1..] == items;
    }
  }

  /** The client's method on the server's method's output, cut anywhere, hands over the messages. */
  method RoundTrip<E>(connected: string, polls: seq<Option<string>>, cuts: seq<string>, parse: string -> Option<E>)
    returns (handled: seq<E>)
    requires LineSafe(Items(connected, polls))
    requires Joined(cuts) == Stream(Items(connected, polls))
    ensures handled == EventsOf(Items(connected, polls), parse)
  {
    var buffer;
    handled, buffer := ReadEvents(cuts, parse);
    WholeStreamDelivers(Items(connected, polls), parse);
  }

  // ----- the same stream, read as the standard says

  /** The field name of a line and its value: what follows the colon, less one blank (section 9.2.6). */
  datatype StreamField = StreamField(name: string, value: string)

  function ColonAt(line: string): (k: nat)
    ensures k <= |line| && ':' !in line[..k] && (k < |line| ==> line[k] == ':')
  {
    if line == "" || line[0] == ':' then 0
    else
      var k := ColonAt(line[1..]);
      assert line[..k + 1] == [line[0]] + line[1..][..k];
      k + 1
  }

  function FieldOf(line: string): StreamField {
    var k := ColonAt(line);
    if k == |line| then StreamField(line, "")
    else StreamField(line[..k], if k + 1 < |line| && line[k + 1] == ' ' then line[k + 2..] else line[k + 1..])
  }

  /**
   The events a conforming parser dispatches: a blank line ends an event, a line that begins with a colon is
   a comment, and each data field adds a line to the data buffer. Lines end with newlines, so this is for
   text without carriage returns.
   */
  function Dispatched(lines: seq<string>, buffer: string): seq<string> {
    if lines == [] then []
    else if lines[0] == "" then (if buffer == "" then [] else [buffer[..|buffer| - 1]]) + Dispatched(lines[1..], "")
    else if lines[0][0] != ':' && FieldOf(lines[0]).name == "data" then
      Dispatched(lines[1..], buffer + FieldOf(lines[0]).value + "\n")
    else Dispatched(lines[1..], buffer)
  }

  lemma DataField(data: string)
    ensures FieldOf(DATA + data) == StreamField("data", data)
  {
    var line := DATA + data;
    assert line[4] == ':' && line[5] == ' ' && line[6..] == data && line[..4] == "data";
    ColonIsAt(line, 4);
  }

  lemma {:induction false} ColonIsAt(line: string, k: nat)
    requires k < |line| && line[k] == ':' && ':' !in line[..k]
    ensures ColonAt(line) == k
  {
    if k > 0 {
      assert line[0] in line[..k] && line[..k][1..] == line[1..][..k - 1];
      assert forall c :: c in line[1..][..k - 1] ==> c in line[..k];
      ColonIsAt(line[1..], k - 1);
    }
  }

  lemma DispatchedFrame(item: Item, rest: seq<string>)
    ensures Dispatched([LineOf(item)] + ([""] + rest), "") == Texts([item]) + Dispatched(rest, "")
  {
    var lines := [LineOf(item)] + ([""] + rest);
    assert lines[1..] == [""] + rest && ([""] + rest)[1..] == rest;
    assert Texts([item][1..]) == [];
    if item.Message? {
      DataField(item.data);
      var buffer := "" + item.data + "\n";
      assert buffer[..|buffer| - 1] == item.data;
      assert LineOf(item)[0] == 'd';
    }
  }

  lemma TextsCons(item: Item, items: seq<Item>)
    ensures Texts([item] + items) == Texts([item]) + Texts(items)
  {
    assert ([item] + items)[1..] == items && [item][1..] == [];
  }

  /** A conforming parser gets exactly the messages' texts from the server's stream, as the client does. */
  lemma {:induction false} StandardParserAgrees(items: seq<Item>)
    requires LineSafe(items)
    ensures Dispatched(Lines(Stream(items)), "") == Texts(items)
    ensures LineOf(Ping)[0] == ':'
  {
    if items != [] {
      var item, more := items[0], Stream(items[1..]);
      Shorter(items);
      StandardParserAgrees(items[1..]);
      LineIsSafe(item);
      assert Frame(item) + more == LineOf(item) + "\n" + ("" + "\n" + more);
      LineFirst(LineOf(item), "" + "\n" + more);
      LineFirst("", more);
      DispatchedFrame(item, Lines(more));
      TextsCons(item, items[1..]);
      assert [item] + items[1..] == items;
    }
  }

  // ----- newline-free is also necessary

  function Texts(items: seq<Item>): seq<string> {
    if items == [] then [] else (if items[0].Message? then [items[0].data] else []) + Texts(items[1..])
  }

  function AsText(): string -> Option<string> {
    s => Some(s)
  }

  lemma {:induction false} TextsAreEvents(items: seq<Item>)
    ensures EventsOf(items, AsText()) == Texts(items)
  {
    if items != [] { TextsAreEvents(items[1..]); }
  }

  lemma {:induction false} DeliveredHasNoNewline(lines: seq<string>)
    requires forall l :: l in lines ==> NoNewline(l)
    ensures forall d :: d in Deliver(lines, AsText()) ==> NoNewline(d)
  {
    if lines != [] {
      assert lines[0] in lines && forall l :: l in lines[1..] ==> l in lines;
      DeliveredHasNoNewline(lines[1..]);
      if IsData(lines[0]) { assert forall c :: c in lines[0][6..] ==> c in lines[0]; }
    }
  }

  lemma {:induction false} TextsHoldMessages(items: seq<Item>)
    ensures forall i :: i in items && i.Message? ==> i.data in Texts(items)
  {
    if items != [] { TextsHoldMessages(items[1..]); }
  }

  /** The texts arrive unchanged exactly when no message contains a newline. */
  lemma RoundTripIffLineSafe(items: seq<Item>)
    ensures Deliver(Lines(Stream(items)), AsText()) == Texts(items) <==> LineSafe(items)
  {
    if LineSafe(items) {
      WholeStreamDelivers(items, AsText());
      TextsAreEvents(items);
    }
    if Deliver(Lines(Stream(items)), AsText()) == Texts(items) {
      PiecesHaveNoNewline(Stream(items));
      DeliveredHasNoNewline(Lines(Stream(items)));
      TextsHoldMessages(items);
    }
  }
}
