// The event stream: the server prints events and keepalive comments, the client reads them back line
// by line. The format is a subset of sections 9.2.5 and 9.2.6 of the WHATWG HTML Living Standard.
// One char stands for one byte of the stream.
module Sse {
  import opened Common

  /** An event as the reader hands it on: its type and its payload text. */
  datatype Event = Event(kind: string, data: string)

  /** What the server writes: an event, or a comment that keeps the connection open. */
  datatype Item = Send(event: Event) | Comment(text: string)

  /** How reading ended: at the end of the body, in a line over the scanner's limit, or in the callback. */
  datatype Ending = EndOfBody | LineTooLong | CallbackFailed

  datatype Reading = Reading(events: seq<Event>, ending: Ending)

  /** The reader's local state, with the events dispatched so far. */
  datatype Reader = Reader(kind: string, dataLines: seq<string>, events: seq<Event>)

  /** Decides, from all the events handed on so far, whether the callback accepts the last one. */
  type Callback = seq<Event> -> bool

  // The scanner gives up on a line that does not fit its buffer together with its line feed.
  const LIMIT: nat := 65536

  const EVENT := "event: "
  const DATA := "data: "

  const START := Reader("", [], [])

  // ---------- printing ----------

  function Print(item: Item): string {
    match item
    case Send(e) => EVENT + e.kind + "\n" + DATA + e.data + "\n\n"
    case Comment(text) => ": " + text + "\n\n"
  }

  function PrintAll(items: seq<Item>): string {
    if items == [] then "" else Print(items[0]) + PrintAll(items[1..])
  }

  /** The events among the items, in order. */
  function EventsOf(items: seq<Item>): seq<Event> {
    if items == [] then []
    else (if items[0].Send? then [items[0].event] else []) + EventsOf(items[1..])
  }

  // ---------- reading ----------

  /** The position of the first line feed of s, or its length. */
  function Break(s: string): (i: nat)
    ensures i <= |s| && (i < |s| ==> s[i] == '\n')
    ensures forall j | 0 <= j < i :: s[j] != '\n'
  {
    if s == "" || s[0] == '\n' then 0 else 1 + Break(s[1..])
  }

  function DropCR(s: string): string {
    if s != "" && s[|s| - 1] == '\r' then s[..|s| - 1] else s
  }

  function Join(lines: seq<string>): string {
    if |lines| == 0 then "" else if |lines| == 1 then lines[0]
    else Join(lines[..|lines| - 1]) + "\n" + lines[|lines| - 1]
  }

  /** One line through the reader. A blank line dispatches what has been collected, if it is complete. */
  function Feed(r: Reader, line: string): Reader {
    if line == "" then
      Reader("", [],
             r.events + if r.kind != "" && |r.dataLines| > 0 then [Event(r.kind, Join(r.dataLines))] else [])
    else if EVENT <= line then r.(kind := line[|EVENT|..])
    else if DATA <= line then r.(dataLines := r.dataLines + [line[|DATA|..]])
    else r
  }

  /** Whether feeding from r to r' handed an event to the callback and it refused. */
  predicate Refused(r: Reader, r': Reader, callback: Callback) {
    r'.events != r.events && !callback(r'.events)
  }

  function Read(r: Reader, body: string, callback: Callback): Reading
    decreases |body|
  {
    var e := Break(body);
    if e >= LIMIT then Reading(r.events, LineTooLong)
    else if body == "" then Reading(r.events, EndOfBody)
    else
      var r' := Feed(r, DropCR(body[..e]));
      if Refused(r, r', callback) then Reading(r'.events, CallbackFailed)
      else if e == |body| then Reading(r'.events, EndOfBody)
      else Read(r', body[e + 1..], callback)
  }

  /** The line ends at i. */
  lemma BreakAt(s: string, i: nat)
    requires i <= |s| && (i < |s| ==> s[i] == '\n')
    requires forall j | 0 <= j < i :: s[j] != '\n'
    ensures Break(s) == i
  {
  }

  /** The scanner's search for the end of the line that starts at pos. */
  method EndOfLine(body: string, pos: nat) returns (end: nat)
    requires pos <= |body|
    ensures end == pos + Break(body[pos..])
  {
    end := pos;
    while end < |body| && body[end] != '\n'
      invariant pos <= end <= |body|
      invariant forall j | pos <= j < end :: body[j] != '\n'
    {
      end := end + 1;
    }
    BreakAt(body[pos..], end - pos);
  }

  lemma ReadStep(r: Reader, body: string, pos: nat, end: nat, callback: Callback)
    requires pos < |body| && end == pos + Break(body[pos..]) && end - pos < LIMIT
    ensures end <= |body|
    ensures var r' := Feed(r, DropCR(body[pos..end]));
      Read(r, body[pos..], callback)
      == if Refused(r, r', callback) then Reading(r'.events, CallbackFailed)
         else Read(r', body[if end < |body| then end + 1 else end..], callback)
  {
    assert body[pos..][..end - pos] == body[pos..end];
    if end < |body| {
      assert body[pos..][end - pos + 1..] == body[end + 1..];
    } else {
      assert body[end..] == "";
    }
  }

  method ReadSSEStream(body: string, callback: Callback) returns (events: seq<Event>, ending: Ending)
    ensures Reading(events, ending) == Read(START, body, callback)
  {
    var pos := 0;
    var eventType := "";
    var dataLines: seq<string> := [];
    events := [];
    ghost var want := Read(START, body, callback);
    assert body[0..] == body;
    while true
      invariant pos <= |body|
      invariant want == Read(Reader(eventType, dataLines, events), body[pos..], callback)
      decreases |body| - pos
    {
      ghost var r := Reader(eventType, dataLines, events);
      var end := EndOfLine(body, pos);
      if end - pos >= LIMIT {
        return events, LineTooLong;
      }
      if pos == |body| {
        return events, EndOfBody;
      }
      var line := DropCR(body[pos..end]);
      ghost var r' := Feed(r, line);
      ReadStep(r, body, pos, end, callback);
      pos := if end < |body| then end + 1 else |body|;
      assert Refused(r, r', callback) || want == Read(r', body[pos..], callback);

      if line == "" {
        if eventType != "" && |dataLines| > 0 {
          events := events + [Event(eventType, Join(dataLines))];
          assert events == r'.events;
          if !callback(events) {
            return events, CallbackFailed;
          }
        }
        eventType := "";
        dataLines := [];
        assert r' == Reader(eventType, dataLines, events);
        continue;
      }
      if EVENT <= line {
        eventType := line[|EVENT|..];
      } else if DATA <= line {
        dataLines := dataLines + [line[|DATA|..]];
      }
      assert r' == Reader(eventType, dataLines, events);
    }
  }

  // ---------- one line at a time ----------

  predicate Plain(s: string) {
    '\n' !in s && (s != "" ==> s[|s| - 1] != '\r')
  }

  /** A line that fits is fed without a carriage return at its end, and reading goes on behind it. */
  lemma ReadRawLine(r: Reader, line: string, rest: string, callback: Callback)
    requires '\n' !in line && |line| < LIMIT
    ensures var r' := Feed(r, DropCR(line));
      Read(r, line + "\n" + rest, callback)
      == if Refused(r, r', callback) then Reading(r'.events, CallbackFailed) else Read(r', rest, callback)
  {
    var body := line + "\n" + rest;
    BreakAt(body, |line|);
    assert body[..|line|] == line && body[|line| + 1..] == rest;
  }

  /** A line that fits is fed as it stands, and reading goes on behind it. */
  lemma ReadLine(r: Reader, line: string, rest: string, callback: Callback)
    requires Plain(line) && |line| < LIMIT
    ensures var r' := Feed(r, line);
      Read(r, line + "\n" + rest, callback)
      == if Refused(r, r', callback) then Reading(r'.events, CallbackFailed) else Read(r', rest, callback)
  {
    ReadRawLine(r, line, rest, callback);
  }

  /** A last line without its line feed is fed too, and that is the end. */
  lemma ReadCutLine(r: Reader, line: string, callback: Callback)
    requires '\n' !in line && line != "" && line != "\r"
    ensures Read(r, line, callback).events == r.events
  {
    BreakAt(line, |line|);
    assert line[..|line|] == line;
  }

  // ---------- round trip ----------

  /** What the server prints: a type that is not empty, no line feed inside a field and no carriage return
      at its end, and lines the scanner accepts. The payload may be empty. */
  predicate Printable(item: Item) {
    match item
    case Send(e) =>
      e.kind != "" && Plain(e.kind) && Plain(e.data) && |EVENT| + |e.kind| < LIMIT && |DATA| + |e.data| < LIMIT
    case Comment(text) => Plain(text) && 2 + |text| < LIMIT
  }

  predicate AllPrintable(items: seq<Item>) {
    items == [] || (Printable(items[0]) && AllPrintable(items[1..]))
  }

  /** Between events the reader holds nothing. */
  predicate Idle(r: Reader) {
    r.kind == "" && r.dataLines == []
  }

  function Dispatch(r: Reader, item: Item): Reader {
    if item.Send? then r.(events := r.events + [item.event]) else r
  }

  lemma Regroup(a: string, b: string, c: string, d: string, x: string, y: string)
    ensures a + b + x + c + d + y == (a + b) + x + (c + d + y)
  {
  }

  lemma PrintedLines(e: Event)
    ensures Print(Send(e)) == (EVENT + e.kind) + "\n" + (DATA + e.data + "\n\n")
    ensures DATA + e.data + "\n\n" == (DATA + e.data) + "\n" + "\n"
  {
    Regroup(EVENT, e.kind, DATA, e.data, "\n", "\n\n");
    assert "\n\n" == "\n" + "\n";
    Regroup("", DATA, e.data, "", "", "\n\n");
  }

  lemma FeedFields(r: Reader, e: Event, text: string)
    ensures Feed(r, EVENT + e.kind) == r.(kind := e.kind)
    ensures Feed(r, DATA + e.data) == r.(dataLines := r.dataLines + [e.data])
    ensures Feed(r, ": " + text) == r
  {
    var first, second, comment := EVENT + e.kind, DATA + e.data, ": " + text;
    assert first[|EVENT|..] == e.kind && second[|DATA|..] == e.data;
    assert second[0] != EVENT[0] && comment[0] != EVENT[0] && comment[0] != DATA[0];
  }

  /** The lines of what the server prints are lines the reader accepts. */
  lemma PrintedLinesArePlain(item: Item)
    requires Printable(item)
    ensures item.Send? ==> PlainLine(EVENT + item.event.kind) && PlainLine(DATA + item.event.data)
    ensures item.Comment? ==> PlainLine(": " + item.text)
  {
  }

  predicate PlainLine(line: string) {
    Plain(line) && |line| < LIMIT && line != "" && line[0] != '\r'
  }

  lemma ReadEvent(r: Reader, e: Event, rest: string, callback: Callback)
    requires Idle(r) && Printable(Send(e))
    ensures var r' := Dispatch(r, Send(e));
      Read(r, EVENT + e.kind + "\n" + (DATA + e.data + "\n" + ("" + "\n" + rest)), callback)
      == if Refused(r, r', callback) then Reading(r'.events, CallbackFailed) else Read(r', rest, callback)
  {
    PrintedLinesArePlain(Send(e));
    var r1 := r.(kind := e.kind);
    var r2 := r1.(dataLines := [e.data]);
    FeedFields(r, e, "");
    FeedFields(r1, e, "");
    ReadLine(r, EVENT + e.kind, DATA + e.data + "\n" + ("" + "\n" + rest), callback);
    ReadLine(r1, DATA + e.data, "" + "\n" + rest, callback);
    ReadLine(r2, "", rest, callback);
  }

  /** How a print and what comes behind it fall into lines. */
  lemma PrintFallsIntoLines(item: Item, rest: string)
    ensures item.Send? ==>
      Print(item) + rest
      == EVENT + item.event.kind + "\n" + (DATA + item.event.data + "\n" + ("" + "\n" + rest))
    ensures item.Comment? ==> Print(item) + rest == ": " + item.text + "\n" + ("" + "\n" + rest)
  {
    match item
    case Send(e) =>
      PrintedLines(e);
      Behind(EVENT + e.kind, DATA + e.data, "\n", rest);
    case Comment(text) =>
      assert "\n\n" == "\n" + "\n";
      BehindOne(": " + text, "\n", rest);
  }

  lemma Behind(a: string, b: string, x: string, rest: string)
    ensures a + x + (b + x + x) + rest == a + x + (b + x + ("" + x + rest))
  {
  }

  lemma BehindOne(a: string, x: string, rest: string)
    ensures a + (x + x) + rest == a + x + ("" + x + rest)
  {
  }

  lemma ReadItem(r: Reader, item: Item, rest: string, callback: Callback)
    requires Idle(r) && Printable(item)
    ensures var r' := Dispatch(r, item);
      Idle(r') &&
      Read(r, Print(item) + rest, callback)
      == if Refused(r, r', callback) then Reading(r'.events, CallbackFailed) else Read(r', rest, callback)
  {
    PrintFallsIntoLines(item, rest);
    match item
    case Send(e) => ReadEvent(r, e, rest, callback);
    case Comment(text) =>
      PrintedLinesArePlain(item);
      FeedFields(r, Event("", ""), text);
      ReadLine(r, ": " + text, "" + "\n" + rest, callback);
      ReadLine(r, "", rest, callback);
  }

  /** Handing on one event after the other, until the callback refuses one. */
  function HandOn(done: seq<Event>, es: seq<Event>, callback: Callback): Reading
    decreases |es|
  {
    if es == [] then Reading(done, EndOfBody)
    else
      var done' := done + [es[0]];
      if callback(done') then HandOn(done', es[1..], callback) else Reading(done', CallbackFailed)
  }

  lemma {:induction false} HandOnAll(done: seq<Event>, es: seq<Event>, callback: Callback)
    requires forall es :: callback(es)
    ensures HandOn(done, es, callback) == Reading(done + es, EndOfBody)
    decreases |es|
  {
    if es == [] {
      assert done + es == done;
    } else {
      HandOnAll(done + [es[0]], es[1..], callback);
      assert done + [es[0]] + es[1..] == done + es;
    }
  }

  lemma HandOnNext(done: seq<Event>, items: seq<Item>, callback: Callback)
    requires items != []
    ensures HandOn(done, EventsOf(items), callback)
         == if items[0].Comment? then HandOn(done, EventsOf(items[1..]), callback)
            else if callback(done + [items[0].event])
              then HandOn(done + [items[0].event], EventsOf(items[1..]), callback)
            else Reading(done + [items[0].event], CallbackFailed)
  {
    if items[0].Send? {
      assert EventsOf(items)[0] == items[0].event && EventsOf(items)[1..] == EventsOf(items[1..]);
    } else {
      assert EventsOf(items) == EventsOf(items[1..]);
    }
  }

  /** One item in front of text that is read as it should be. */
  lemma ReadItemAndRest(r: Reader, items: seq<Item>, rest: string, callback: Callback)
    requires Idle(r) && items != [] && Printable(items[0])
    requires var r' := Dispatch(r, items[0]);
      Read(r', rest, callback) == HandOn(r'.events, EventsOf(items[1..]), callback)
    ensures Read(r, Print(items[0]) + rest, callback) == HandOn(r.events, EventsOf(items), callback)
  {
    ReadItem(r, items[0], rest, callback);
    HandOnNext(r.events, items, callback);
  }

  lemma {:induction false} ReadItems(r: Reader, items: seq<Item>, callback: Callback)
    requires Idle(r) && AllPrintable(items)
    ensures Read(r, PrintAll(items), callback) == HandOn(r.events, EventsOf(items), callback)
    decreases |items|
  {
    if items == [] {
      BreakAt("", 0);
    } else {
      ReadItems(Dispatch(r, items[0]), items[1..], callback);
      ReadItemAndRest(r, items, PrintAll(items[1..]), callback);
    }
  }

  /** Printing any list of events, with comments between them, and reading it back hands on exactly that
      list, in order, up to the first event the callback refuses. */
  lemma {:induction false} RoundTrip(items: seq<Item>, callback: Callback)
    requires AllPrintable(items)
    ensures Read(START, PrintAll(items), callback) == HandOn([], EventsOf(items), callback)
  {
    ReadItems(START, items, callback);
  }

  /** A callback that refuses nothing is handed the whole list. */
  lemma {:induction false} RoundTripWhole(items: seq<Item>, callback: Callback)
    requires AllPrintable(items) && forall es :: callback(es)
    ensures Read(START, PrintAll(items), callback) == Reading(EventsOf(items), EndOfBody)
  {
    RoundTrip(items, callback);
    HandOnAll([], EventsOf(items), callback);
  }

  // ---------- payloads of several lines ----------

  /** The lines of a text, split at each line feed. */
  function LinesOf(text: string): (lines: seq<string>)
    ensures lines != []
    decreases |text|
  {
    var b := Break(text);
    if b == |text| then [text] else [text[..b]] + LinesOf(text[b + 1..])
  }

  lemma {:induction false} JoinFirst(line: string, lines: seq<string>)
    requires lines != []
    ensures Join([line] + lines) == line + "\n" + Join(lines)
    decreases |lines|
  {
    var n, all := |lines| - 1, [line] + lines;
    assert all[..|all| - 1] == [line] + lines[..n];
    if n > 0 {
      JoinFirst(line, lines[..n]);
      Behind3(line + "\n", Join(lines[..n]), "\n", lines[n]);
    }
  }

  lemma Behind3(a: string, b: string, x: string, c: string)
    ensures a + b + x + c == a + (b + x + c)
  {
  }

  /** Joining the lines of a text gives the text back. */
  lemma {:induction false} JoinedLines(text: string)
    ensures Join(LinesOf(text)) == text
    decreases |text|
  {
    var b := Break(text);
    if b < |text| {
      var rest := text[b + 1..];
      JoinedLines(rest);
      JoinFirst(text[..b], LinesOf(rest));
      assert LinesOf(text) == [text[..b]] + LinesOf(rest);
      assert text == text[..b] + "\n" + text[b + 1..];
    }
  }

  /** The lines, each with its line feed. */
  function Lines(lines: seq<string>): string {
    if lines == [] then "" else lines[0] + "\n" + Lines(lines[1..])
  }

  /** What the data lines among the lines say, in order. */
  function DataIn(lines: seq<string>): seq<string> {
    if lines == [] then []
    else (if "data: " <= lines[0] then [lines[0][6..]] else []) + DataIn(lines[1..])
  }

  /** The last of the lines that names a type names this one; with none of them the type is empty. */
  ghost predicate NamesKind(lines: seq<string>, kind: string) {
    if exists i :: 0 <= i < |lines| && "event: " <= lines[i] then
      exists i :: 0 <= i < |lines| && lines[i] == "event: " + kind && NoKind(lines[i + 1..])
    else kind == ""
  }

  predicate NoKind(lines: seq<string>) {
    forall i | 0 <= i < |lines| :: !("event: " <= lines[i])
  }

  function FeedAll(r: Reader, lines: seq<string>): Reader
    decreases |lines|
  {
    if lines == [] then r else FeedAll(Feed(r, lines[0]), lines[1..])
  }

  lemma ReadFull(r: Reader, line: string, rest: string, callback: Callback)
    requires PlainLine(line)
    ensures Feed(r, line).events == r.events
    ensures Read(r, line + "\n" + rest, callback) == Read(Feed(r, line), rest, callback)
  {
    ReadLine(r, line, rest, callback);
  }

  /** Lines that are not blank are collected, and none of them dispatches anything. */
  lemma {:induction false} ReadLines(r: Reader, lines: seq<string>, rest: string, callback: Callback)
    requires forall i | 0 <= i < |lines| :: PlainLine(lines[i])
    ensures Read(r, Lines(lines) + rest, callback) == Read(FeedAll(r, lines), rest, callback)
    ensures FeedAll(r, lines).events == r.events
    decreases |lines|
  {
    if lines == [] {
      assert Lines(lines) + rest == rest;
    } else {
      var more := Lines(lines[1..]) + rest;
      RegroupLines(lines[0] + "\n", Lines(lines[1..]), rest);
      ReadFull(r, lines[0], more, callback);
      ReadLines(Feed(r, lines[0]), lines[1..], rest, callback);
    }
  }

  lemma FeedData(r: Reader, line: string)
    requires line != ""
    ensures Feed(r, line).dataLines == r.dataLines + if "data: " <= line then [line[6..]] else []
  {
    if EVENT <= line {
      assert line[0] == EVENT[0] && DATA[0] != EVENT[0];
    }
  }

  lemma {:induction false} CollectsData(r: Reader, lines: seq<string>)
    requires forall i | 0 <= i < |lines| :: PlainLine(lines[i])
    ensures FeedAll(r, lines).dataLines == r.dataLines + DataIn(lines)
    decreases |lines|
  {
    if lines != [] {
      var one := if "data: " <= lines[0] then [lines[0][6..]] else [];
      FeedData(r, lines[0]);
      CollectsData(Feed(r, lines[0]), lines[1..]);
      assert r.dataLines + one + DataIn(lines[1..]) == r.dataLines + (one + DataIn(lines[1..]));
    } else {
      assert r.dataLines + [] == r.dataLines;
    }
  }

  lemma {:induction false} KeepsKind(r: Reader, lines: seq<string>)
    requires NoKind(lines) && forall i | 0 <= i < |lines| :: PlainLine(lines[i])
    ensures FeedAll(r, lines).kind == r.kind
    decreases |lines|
  {
    if lines != [] {
      KeepsKind(Feed(r, lines[0]), lines[1..]);
    }
  }

  lemma {:induction false} CollectsKind(r: Reader, lines: seq<string>, kind: string, i: nat)
    requires i < |lines| && lines[i] == "event: " + kind && NoKind(lines[i + 1..])
    requires forall i | 0 <= i < |lines| :: PlainLine(lines[i])
    ensures FeedAll(r, lines).kind == kind
    decreases |lines|
  {
    if i == 0 {
      KeepsKind(Feed(r, lines[0]), lines[1..]);
    } else {
      assert lines[1..][i - 1] == lines[i] && lines[1..][i..] == lines[i + 1..];
      CollectsKind(Feed(r, lines[0]), lines[1..], kind, i - 1);
    }
  }

  lemma CollectsNamedKind(r: Reader, lines: seq<string>, kind: string)
    requires r.kind == "" && NamesKind(lines, kind) && forall i | 0 <= i < |lines| :: PlainLine(lines[i])
    ensures FeedAll(r, lines).kind == kind
  {
    if exists i :: 0 <= i < |lines| && "event: " <= lines[i] {
      var i :| 0 <= i < |lines| && lines[i] == "event: " + kind && NoKind(lines[i + 1..]);
      CollectsKind(r, lines, kind, i);
    } else {
      KeepsKind(r, lines);
    }
  }

  /** Any lines, and then a blank one. They hand on one event, of the last type they name, whose payload has the
      data lines for its lines, in their order; and none, if they name no type or have no data. Nothing else in
      them matters, and nothing of them is left for what follows. */
  lemma {:induction false} BlockComesBack(
      r: Reader, lines: seq<string>, kind: string, text: string, rest: string, callback: Callback)
    requires Idle(r) && (forall i | 0 <= i < |lines| :: PlainLine(lines[i])) && NamesKind(lines, kind)
    requires DataIn(lines) != [] ==> LinesOf(text) == DataIn(lines)
    ensures var events := r.events + if kind != "" && DataIn(lines) != [] then [Event(kind, text)] else [];
      Read(r, Lines(lines) + ("\n" + rest), callback)
      == if events != r.events && !callback(events) then Reading(events, CallbackFailed)
         else Read(START.(events := events), rest, callback)
  {
    ReadLines(r, lines, "\n" + rest, callback);
    BlockIsCollected(r, lines, kind, text);
    ReadBlank(FeedAll(r, lines), rest, callback);
  }

  lemma ReadBlank(q: Reader, rest: string, callback: Callback)
    ensures var events := q.events + Collected(q);
      Read(q, "\n" + rest, callback)
      == if events != q.events && !callback(events) then Reading(events, CallbackFailed)
         else Read(START.(events := events), rest, callback)
  {
    assert "\n" + rest == "" + "\n" + rest;
    ReadLine(q, "", rest, callback);
    assert Feed(q, "") == START.(events := q.events + Collected(q));
  }

  lemma BlockIsCollected(r: Reader, lines: seq<string>, kind: string, text: string)
    requires Idle(r) && (forall i | 0 <= i < |lines| :: PlainLine(lines[i])) && NamesKind(lines, kind)
    requires DataIn(lines) != [] ==> LinesOf(text) == DataIn(lines)
    ensures Collected(FeedAll(r, lines)) == if kind != "" && DataIn(lines) != [] then [Event(kind, text)] else []
  {
    CollectsData(r, lines);
    CollectsNamedKind(r, lines, kind);
    JoinedLines(text);
    assert [] + DataIn(lines) == DataIn(lines);
  }

  /** A data line for each line of the text. */
  function DataLines(lines: seq<string>): seq<string> {
    if lines == [] then [] else ["data: " + lines[0]] + DataLines(lines[1..])
  }

  lemma {:induction false} DataLinesSay(lines: seq<string>)
    requires forall i | 0 <= i < |lines| :: Plain(lines[i]) && |lines[i]| <= 65529
    ensures forall i | 0 <= i < |DataLines(lines)| :: PlainLine(DataLines(lines)[i]) && DATA <= DataLines(lines)[i]
    ensures DataIn(DataLines(lines)) == lines
    decreases |lines|
  {
    if lines != [] {
      DataLinesSay(lines[1..]);
      PrintedLinesArePlain(Send(Event("x", lines[0])));
      assert DataLines(lines)[0][6..] == lines[0];
      assert DataLines(lines)[1..] == DataLines(lines[1..]);
    }
  }

  /** A text of any number of lines, printed as one data line for each of them, comes back. */
  lemma {:induction false} TextComesBack(r: Reader, kind: string, text: string, rest: string, callback: Callback)
    requires Idle(r) && kind != "" && Plain(kind) && |kind| <= 65528
    requires forall i | 0 <= i < |LinesOf(text)| :: Plain(LinesOf(text)[i]) && |LinesOf(text)[i]| <= 65529
    ensures var events := r.events + [Event(kind, text)];
      Read(r, "event: " + kind + "\n" + Lines(DataLines(LinesOf(text))) + ("\n" + rest), callback)
      == if callback(events) then Read(START.(events := events), rest, callback) else Reading(events, CallbackFailed)
  {
    var first, more := "event: " + kind, DataLines(LinesOf(text));
    var lines := [first] + more;
    DataLinesSay(LinesOf(text));
    PrintedLinesArePlain(Send(Event(kind, "")));
    OneKind(kind, more);
    assert lines[1..] == more && DataIn(lines) == LinesOf(text) && Lines(lines) == first + "\n" + Lines(more);
    BlockComesBack(r, lines, kind, text, rest, callback);
  }

  lemma OneKind(kind: string, more: seq<string>)
    requires forall i | 0 <= i < |more| :: DATA <= more[i]
    ensures NamesKind(["event: " + kind] + more, kind) && !("data: " <= "event: " + kind)
  {
    var lines := ["event: " + kind] + more;
    assert lines[1..] == more;
    forall i | 0 <= i < |more| ensures !("event: " <= more[i]) { assert more[i][0] == 'd'; }
    assert lines[0] == "event: " + kind && NoKind(lines[1..]);
    assert ("event: " + kind)[0] == 'e';
  }

  // ---------- nothing else makes the round trip ----------

  /** What the collected lines weigh in a payload, each with a line feed. */
  function Weight(lines: seq<string>): nat {
    if lines == [] then 0 else |Join(lines)| + 1
  }

  /** From position n on, the events have types that are not empty and fit one line, and small payloads. */
  ghost predicate Bounded(events: seq<Event>, n: nat, size: int) {
    forall i | n <= i < |events| ::
      events[i].kind != "" && '\n' !in events[i].kind && |events[i].data| < size
  }

  lemma FeedBound(r: Reader, line: string)
    requires '\n' !in line && '\n' !in r.kind
    ensures var r' := Feed(r, line);
      '\n' !in r'.kind && Bounded(r'.events, |r.events|, Weight(r.dataLines)) &&
      Weight(r'.dataLines) <= (if line == "" then 0 else Weight(r.dataLines) + |line| - 1)
  {
    if DATA <= line && !(EVENT <= line) {
      var lines := r.dataLines + [line[|DATA|..]];
      assert lines[..|lines| - 1] == r.dataLines;
    }
  }

  /** A payload is never longer than what was collected and what the rest of the body can add. */
  lemma {:induction false} ReadBound(r: Reader, body: string, callback: Callback)
    requires '\n' !in r.kind
    ensures Bounded(Read(r, body, callback).events, |r.events|, Weight(r.dataLines) + |body|)
    decreases |body|, 1
  {
    if body != "" {
      var line := DropCR(body[..Break(body)]);
      FirstLine(body);
      FeedBound(r, line);
      StepBound(r, body, callback, Weight(r.dataLines) + |body|);
    }
  }

  /** The bound behind the first line. */
  lemma {:induction false} StepBound(r: Reader, body: string, callback: Callback, size: int)
    requires '\n' !in r.kind && body != "" && Weight(r.dataLines) <= size
    requires var e := Break(body);
      e < |body| ==> Weight(Feed(r, DropCR(body[..e])).dataLines) + |body| - e - 1 <= size
    ensures Bounded(Read(r, body, callback).events, |r.events|, size)
    decreases |body|, 0
  {
    var e := Break(body);
    if e < LIMIT {
      var r' := Feed(r, DropCR(body[..e]));
      FirstLine(body);
      FeedBound(r, DropCR(body[..e]));
      BoundedMore(r'.events, |r.events|, Weight(r.dataLines), size);
      if !Refused(r, r', callback) && e < |body| {
        var more := body[e + 1..];
        ReadBound(r', more, callback);
        BoundedMore(Read(r', more, callback).events, |r'.events|, Weight(r'.dataLines) + |more|, size);
        BoundedBoth(r, r', more, callback, size);
        LineOff(r, body, callback);
      } else {
        LastLine(r, body, callback);
      }
    }
  }

  /** Reading ends with the first line, in the callback or at the end of the body. */
  lemma LastLine(r: Reader, body: string, callback: Callback)
    requires body != "" && Break(body) < LIMIT
    requires var r' := Feed(r, DropCR(body[..Break(body)])); Refused(r, r', callback) || Break(body) == |body|
    ensures Read(r, body, callback).events == Feed(r, DropCR(body[..Break(body)])).events
  {
  }

  lemma FirstLine(body: string)
    ensures var line := DropCR(body[..Break(body)]); '\n' !in line && |line| <= Break(body)
  {
  }

  lemma BoundedBoth(r: Reader, r': Reader, rest: string, callback: Callback, size: int)
    requires r.events <= r'.events && Bounded(r'.events, |r.events|, size)
    requires Bounded(Read(r', rest, callback).events, |r'.events|, size)
    ensures Bounded(Read(r', rest, callback).events, |r.events|, size)
  {
    EventsOnlyGrow(r', rest, callback);
    var events := Read(r', rest, callback).events;
    forall i | |r.events| <= i < |events|
      ensures events[i].kind != "" && '\n' !in events[i].kind && |events[i].data| < size
    {
      if i < |r'.events| { assert events[i] == r'.events[i]; }
    }
  }

  lemma SplitAt(before: string, s: string, i: nat, after: string)
    requires i < |s| && s[i] == '\n'
    ensures before + s + after == before + s[..i] + "\n" + (s[i + 1..] + after)
  {
    assert s == s[..i] + "\n" + s[i + 1..];
  }

  /** With a line feed in its payload an event comes back shorter. */
  lemma LineFeedShortens(r: Reader, data: string, callback: Callback)
    requires '\n' in data && '\n' !in r.kind && r.dataLines == []
    ensures Bounded(Read(r, DATA + data + "\n\n", callback).events, |r.events|, |data|)
  {
    BreakInside(data);
    var b := Break(data);
    var text, rest := data[..b], data[b + 1..] + "\n\n";
    SplitAt(DATA, data, b, "\n\n");
    DataLine(r, text);
    if |DATA + text| < LIMIT {
      TwoLines(r, DATA + text, DropCR(text), rest, callback, |data|);
    } else {
      LongLine(r, DATA + text, rest, callback, |data|);
    }
  }

  lemma DataLine(r: Reader, text: string)
    requires '\n' !in text && r.dataLines == []
    ensures '\n' !in DATA + text && Feed(r, DropCR(DATA + text)) == r.(dataLines := [DropCR(text)])
  {
    FeedDropped(r, Event("", text));
    assert r.dataLines + [DropCR(text)] == [DropCR(text)];
  }

  lemma LongLine(r: Reader, first: string, rest: string, callback: Callback, size: nat)
    requires '\n' !in first && |first| >= LIMIT
    ensures Bounded(Read(r, first + "\n" + rest, callback).events, |r.events|, size)
  {
    CutTooLong(r, first, rest, callback);
  }

  lemma TwoLines(r: Reader, first: string, piece: string, rest: string, callback: Callback, size: nat)
    requires '\n' !in first && |first| < LIMIT && Feed(r, DropCR(first)) == r.(dataLines := [piece])
    requires '\n' !in r.kind && |rest| >= 2 && '\n' in rest && |piece| + |rest| - 1 <= size
    ensures Bounded(Read(r, first + "\n" + rest, callback).events, |r.events|, size)
  {
    ReadRawLine(r, first, rest, callback);
    SecondLine(r.(dataLines := [piece]), rest, callback);
  }

  lemma CutTooLong(r: Reader, line: string, rest: string, callback: Callback)
    requires '\n' !in line && |line| >= LIMIT
    ensures Read(r, line + "\n" + rest, callback) == Reading(r.events, LineTooLong)
  {
    BreakAt(line + "\n" + rest, |line|);
  }

  lemma BreakInside(data: string)
    requires '\n' in data
    ensures Break(data) < |data|
  {
    var i :| 0 <= i < |data| && data[i] == '\n';
  }

  lemma BoundedMore(events: seq<Event>, n: nat, size: int, more: int)
    requires Bounded(events, n, size) && size <= more
    ensures Bounded(events, n, more)
  {
  }

  lemma OneWeight(lines: seq<string>)
    requires |lines| == 1
    ensures Weight(lines) == |lines[0]| + 1
  {
  }

  /** Whatever the next line is, it costs more than it brings. */
  lemma SecondLine(r: Reader, rest: string, callback: Callback)
    requires '\n' !in r.kind && |r.dataLines| == 1 && |rest| >= 2 && '\n' in rest
    ensures Bounded(Read(r, rest, callback).events, |r.events|, |r.dataLines[0]| + |rest| - 1)
  {
    BreakInside(rest);
    FirstLine(rest);
    OneWeight(r.dataLines);
    FeedBound(r, DropCR(rest[..Break(rest)]));
    StepBound(r, rest, callback, |r.dataLines[0]| + |rest| - 1);
  }

  lemma DropCRBehind(before: string, text: string)
    requires before != "" && before[|before| - 1] != '\r'
    ensures DropCR(before + text) == before + DropCR(text)
  {
    if text == "" { assert before + text == before; }
  }

  lemma FeedDropped(r: Reader, e: Event)
    ensures Feed(r, DropCR(EVENT + e.kind)) == r.(kind := DropCR(e.kind))
    ensures Feed(r, DropCR(DATA + e.data)) == r.(dataLines := r.dataLines + [DropCR(e.data)])
  {
    DropCRBehind(EVENT, e.kind);
    DropCRBehind(DATA, e.data);
    FeedFields(r, Event(DropCR(e.kind), DropCR(e.data)), "");
  }

  /** The event line of a print is read to its end; the rest of the print is still to come. */
  lemma ReadKind(r: Reader, e: Event, callback: Callback)
    requires '\n' !in e.kind && |EVENT| + |e.kind| < LIMIT
    ensures Read(r, Print(Send(e)), callback)
         == Read(r.(kind := DropCR(e.kind)), DATA + e.data + "\n\n", callback)
  {
    PrintedLines(e);
    FeedDropped(r, e);
    ReadRawLine(r, EVENT + e.kind, DATA + e.data + "\n\n", callback);
  }

  /** The data line and the blank one behind it, whatever carriage return the data ends in. */
  lemma ReadData(r: Reader, e: Event, callback: Callback)
    requires '\n' !in e.data && r.dataLines == [] && (forall es :: callback(es))
    ensures Read(r, DATA + e.data + "\n\n", callback)
         == if |DATA| + |e.data| >= LIMIT then Reading(r.events, LineTooLong)
            else Reading(r.events + if r.kind == "" then [] else [Event(r.kind, DropCR(e.data))], EndOfBody)
  {
    PrintedLines(e);
    if |DATA| + |e.data| >= LIMIT {
      CutTooLong(r, DATA + e.data, "\n", callback);
    } else {
      var r1 := r.(dataLines := [DropCR(e.data)]);
      FeedDropped(r, e);
      assert r.dataLines + [DropCR(e.data)] == [DropCR(e.data)];
      ReadRawLine(r, DATA + e.data, "\n", callback);
      BlankLine(r1, callback);
      OneLine(r1, DropCR(e.data));
    }
  }

  /** A blank line behind one line of data. */
  lemma OneLine(r: Reader, data: string)
    requires r.dataLines == [data]
    ensures Feed(r, "").events == r.events + if r.kind == "" then [] else [Event(r.kind, data)]
  {
  }

  lemma BlankLine(r: Reader, callback: Callback)
    requires forall es :: callback(es)
    ensures Read(r, "\n", callback) == Reading(Feed(r, "").events, EndOfBody)
  {
    assert "\n" == "" + "\n" + "";
    ReadRawLine(r, "", "", callback);
    BreakAt("", 0);
  }

  /** An event comes back from what the server prints for it exactly when it is printable. */
  lemma {:induction false} ComesBackExactlyWhen(e: Event, callback: Callback)
    requires forall es :: callback(es)
    ensures Read(START, "event: " + e.kind + "\ndata: " + e.data + "\n\n", callback) == Reading([e], EndOfBody) <==>
      e.kind != "" && Plain(e.kind) && Plain(e.data) && |e.kind| <= 65528 && |e.data| <= 65529
  {
    var back := Read(START, Print(Send(e)), callback);
    PrintIsText(e);
    if Printable(Send(e)) {
      ReadItem(START, Send(e), "", callback);
      assert Print(Send(e)) + "" == Print(Send(e));
      BreakAt("", 0);
    }
    if back == Reading([e], EndOfBody) {
      KindComesBack(e, callback);
      ReadKind(START, e, callback);
      DataComesBack(START.(kind := DropCR(e.kind)), e, callback);
    }
  }

  lemma PrintIsText(e: Event)
    ensures Print(Send(e)) == "event: " + e.kind + "\ndata: " + e.data + "\n\n"
  {
    assert "\ndata: " == "\n" + DATA;
  }

  lemma KindComesBack(e: Event, callback: Callback)
    requires Read(START, Print(Send(e)), callback) == Reading([e], EndOfBody)
    ensures e.kind != "" && '\n' !in e.kind && |EVENT| + |e.kind| < LIMIT
  {
    ReadBound(START, Print(Send(e)), callback);
    assert [e][0] == e;
    if |EVENT| + |e.kind| >= LIMIT {
      PrintedLines(e);
      CutTooLong(START, EVENT + e.kind, DATA + e.data + "\n\n", callback);
    }
  }

  lemma DataComesBack(r: Reader, e: Event, callback: Callback)
    requires forall es :: callback(es)
    requires '\n' !in r.kind && r.dataLines == [] && r.events == []
    requires Read(r, DATA + e.data + "\n\n", callback) == Reading([e], EndOfBody)
    ensures '\n' !in e.data && |DATA| + |e.data| < LIMIT && r.kind == e.kind && DropCR(e.data) == e.data
  {
    var events := Read(r, DATA + e.data + "\n\n", callback).events;
    assert |events| == 1 && events[0] == e;
    if '\n' in e.data {
      LineFeedShortens(r, e.data, callback);
      assert false;
    }
    ReadData(r, e, callback);
    var one := Event(r.kind, DropCR(e.data));
    assert r.events + [one] == [one];
    assert [one][0] == one;
  }

  // ---------- nor do other texts of several lines ----------

  ghost predicate NoLineFeeds(lines: seq<string>) {
    forall i | 0 <= i < |lines| :: '\n' !in lines[i]
  }

  predicate AllFit(lines: seq<string>) {
    lines == [] || (|DATA| + |lines[0]| < LIMIT && AllFit(lines[1..]))
  }

  /** The lines without the carriage returns at their ends. */
  function Dropped(lines: seq<string>): seq<string> {
    if lines == [] then [] else [DropCR(lines[0])] + Dropped(lines[1..])
  }

  lemma {:induction false} LinesHaveNoLineFeeds(text: string)
    ensures NoLineFeeds(LinesOf(text))
    decreases |text|
  {
    var b := Break(text);
    if b < |text| { LinesHaveNoLineFeeds(text[b + 1..]); }
  }

  /** Splitting what was joined gives the lines back. */
  lemma {:induction false} LinesOfJoined(lines: seq<string>)
    requires lines != [] && NoLineFeeds(lines)
    ensures LinesOf(Join(lines)) == lines
  {
    var line, more := lines[0], lines[1..];
    assert lines == [line] + more && '\n' !in line;
    if more == [] {
      BreakAt(line, |line|);
    } else {
      LinesOfJoined(more);
      JoinFirst(line, more);
      var text := line + "\n" + Join(more);
      BreakAt(text, |line|);
      assert text[..|line|] == line && text[|line| + 1..] == Join(more);
    }
  }

  /** All the data lines are read, or reading ends at the first that does not fit. */
  lemma {:induction false} ReadDataLines(r: Reader, lines: seq<string>, rest: string, callback: Callback)
    requires NoLineFeeds(lines)
    ensures Read(r, Lines(DataLines(lines)) + rest, callback)
         == if AllFit(lines) then Read(r.(dataLines := r.dataLines + Dropped(lines)), rest, callback)
            else Reading(r.events, LineTooLong)
    decreases |lines|
  {
    if lines == [] {
      assert Lines(DataLines(lines)) + rest == rest && r.dataLines + [] == r.dataLines;
    } else {
      var more := Lines(DataLines(lines[1..])) + rest;
      DataLinesAre(lines, rest);
      ReadDataLine(r, lines[0], more, callback);
      if |DATA| + |lines[0]| < LIMIT {
        var r' := r.(dataLines := r.dataLines + [DropCR(lines[0])]);
        ReadDataLines(r', lines[1..], rest, callback);
        InFront(r.dataLines, DropCR(lines[0]), Dropped(lines[1..]));
      }
    }
  }

  lemma InFront(lines: seq<string>, line: string, more: seq<string>)
    ensures lines + [line] + more == lines + ([line] + more)
  {
  }

  lemma DataLinesAre(lines: seq<string>, rest: string)
    requires lines != []
    ensures Lines(DataLines(lines)) + rest == DATA + lines[0] + "\n" + (Lines(DataLines(lines[1..])) + rest)
  {
    var line := DATA + lines[0];
    assert DataLines(lines)[0] == line && DataLines(lines)[1..] == DataLines(lines[1..]);
    RegroupLines(line + "\n", Lines(DataLines(lines[1..])), rest);
  }

  lemma ReadDataLine(r: Reader, text: string, more: string, callback: Callback)
    requires '\n' !in text
    ensures Read(r, DATA + text + "\n" + more, callback)
         == if |DATA| + |text| < LIMIT then Read(r.(dataLines := r.dataLines + [DropCR(text)]), more, callback)
            else Reading(r.events, LineTooLong)
  {
    if |DATA| + |text| >= LIMIT {
      CutTooLong(r, DATA + text, more, callback);
    } else {
      FeedDropped(r, Event("", text));
      ReadRawLine(r, DATA + text, more, callback);
    }
  }

  /** What the server would write for a payload of several lines. */
  function PrintText(kind: string, text: string): string {
    "event: " + kind + "\n" + Lines(DataLines(LinesOf(text))) + "\n"
  }

  lemma ReadText(kind: string, text: string, callback: Callback)
    requires '\n' !in kind && |EVENT| + |kind| < LIMIT && forall es :: callback(es)
    ensures Read(START, PrintText(kind, text), callback)
         == if !AllFit(LinesOf(text)) then Reading([], LineTooLong)
            else Reading(Collected(Reader(DropCR(kind), Dropped(LinesOf(text)), [])), EndOfBody)
  {
    var lines, r := LinesOf(text), START.(kind := DropCR(kind));
    LinesHaveNoLineFeeds(text);
    RegroupLines(EVENT + kind + "\n", Lines(DataLines(lines)), "\n");
    FeedDropped(START, Event(kind, ""));
    ReadRawLine(START, EVENT + kind, Lines(DataLines(lines)) + "\n", callback);
    ReadDataLines(r, lines, "\n", callback);
    assert [] + Dropped(lines) == Dropped(lines);
    BlankLine(r.(dataLines := Dropped(lines)), callback);
  }

  lemma {:induction false} DroppedIsSame(lines: seq<string>)
    requires NoLineFeeds(lines)
    ensures |Dropped(lines)| == |lines| && NoLineFeeds(Dropped(lines))
    ensures Dropped(lines) == lines <==> forall i | 0 <= i < |lines| :: Plain(lines[i])
    ensures AllFit(lines) <==> forall i | 0 <= i < |lines| :: |lines[i]| <= 65529
    decreases |lines|
  {
    if lines != [] {
      DroppedIsSame(lines[1..]);
      assert lines == [lines[0]] + lines[1..];
      assert Dropped(lines)[0] == DropCR(lines[0]) && Dropped(lines)[1..] == Dropped(lines[1..]);
      assert DropCR(lines[0]) == lines[0] <==> Plain(lines[0]);
    }
  }

  /** A payload of any number of lines comes back, as one event and whole, exactly when its type is not empty and
      type and lines are such as one line can carry. */
  lemma {:induction false} TextComesBackExactlyWhen(kind: string, text: string, callback: Callback)
    requires forall es :: callback(es)
    ensures Read(START, PrintText(kind, text), callback) == Reading([Event(kind, text)], EndOfBody) <==>
      kind != "" && Plain(kind) && |kind| <= 65528 &&
      forall i | 0 <= i < |LinesOf(text)| :: Plain(LinesOf(text)[i]) && |LinesOf(text)[i]| <= 65529
  {
    if Read(START, PrintText(kind, text), callback) == Reading([Event(kind, text)], EndOfBody) {
      KindOfText(kind, text, callback);
    }
    if '\n' !in kind && |EVENT| + |kind| < LIMIT {
      ReadText(kind, text, callback);
      SameLines(text);
      LinesHaveNoLineFeeds(text);
      DroppedIsSame(LinesOf(text));
      OneEvent(kind, text, Dropped(LinesOf(text)));
    }
  }

  lemma OneEvent(kind: string, text: string, lines: seq<string>)
    requires lines != []
    ensures Collected(Reader(DropCR(kind), lines, [])) == [Event(kind, text)] <==>
      kind != "" && DropCR(kind) == kind && Join(lines) == text
  {
    assert [Event(kind, text)][0] == Event(kind, text);
  }

  lemma SameLines(text: string)
    ensures Dropped(LinesOf(text)) != []
    ensures Join(Dropped(LinesOf(text))) == text <==> Dropped(LinesOf(text)) == LinesOf(text)
  {
    LinesHaveNoLineFeeds(text);
    DroppedIsSame(LinesOf(text));
    JoinedLines(text);
    LinesOfJoined(Dropped(LinesOf(text)));
  }

  lemma KindOfText(kind: string, text: string, callback: Callback)
    requires Read(START, PrintText(kind, text), callback) == Reading([Event(kind, text)], EndOfBody)
    ensures kind != "" && '\n' !in kind && |EVENT| + |kind| < LIMIT
  {
    ReadBound(START, PrintText(kind, text), callback);
    assert [Event(kind, text)][0] == Event(kind, text);
    if |EVENT| + |kind| >= LIMIT {
      RegroupLines(EVENT + kind + "\n", Lines(DataLines(LinesOf(text))), "\n");
      CutTooLong(START, EVENT + kind, Lines(DataLines(LinesOf(text))) + "\n", callback);
    }
  }

  // ---------- truncation ----------

  lemma {:induction false} EventsOnlyGrow(r: Reader, body: string, callback: Callback)
    ensures r.events <= Read(r, body, callback).events
    decreases |body|
  {
    var e := Break(body);
    if e < LIMIT && body != "" {
      var r' := Feed(r, DropCR(body[..e]));
      if !Refused(r, r', callback) && e < |body| {
        EventsOnlyGrow(r', body[e + 1..], callback);
      }
    }
  }

  /** The body is cut behind a carriage return that is a whole line but for its line feed. */
  predicate CutInBlankLine(body: string, n: nat)
    requires n <= |body|
  {
    && 0 < n && body[n - 1] == '\r' && (n == 1 || body[n - 2] == '\n')
    && n < |body| && body[n] != '\n'
  }

  /** A cut in the first line. */
  lemma CutInFirstLine(r: Reader, body: string, n: nat, callback: Callback)
    requires n <= Break(body) && !CutInBlankLine(body, n)
    ensures Read(r, body[..n], callback).events <= Read(r, body, callback).events
  {
    var cut := body[..n];
    BreakAt(cut, n);
    EventsOnlyGrow(r, body, callback);
    if cut == "\r" {
      CutBehindCR(r, body, callback);
    } else if 0 < n < LIMIT {
      ReadCutLine(r, cut, callback);
    }
  }

  /** The carriage return is the whole body, or the line feed behind it makes the line complete. */
  lemma CutBehindCR(r: Reader, body: string, callback: Callback)
    requires 1 <= Break(body) && body[..1] == "\r" && !CutInBlankLine(body, 1)
    ensures Read(r, "\r", callback).events <= Read(r, body, callback).events
  {
    assert body[0] == '\r';
    if |body| == 1 {
      assert body == "\r";
    } else {
      BreakAt("\r", 1);
      BreakAt(body, 1);
      assert "\r"[..1] == "\r";
      EventsOnlyGrow(Feed(r, DropCR("\r")), body[2..], callback);
    }
  }

  /** Whatever the stream says, a connection that breaks early hands on a prefix of its events, as a cut
      line never dispatches; unless the cut makes a lone carriage return a blank line. */
  lemma {:induction false} CutLineGivesPrefix(r: Reader, body: string, n: nat, callback: Callback)
    requires n <= |body| && !CutInBlankLine(body, n)
    ensures Read(r, body[..n], callback).events <= Read(r, body, callback).events
    decreases |body|
  {
    var e := Break(body);
    if n <= e {
      CutInFirstLine(r, body, n, callback);
    } else {
      var rest, m := body[e + 1..], n - e - 1;
      CutLater(body, n);
      if e < LIMIT {
        var r' := Feed(r, DropCR(body[..e]));
        CutLineGivesPrefix(r', rest, m, callback);
        LinesOff(r, body[..n], body, rest[..m], rest, callback);
      } else {
        EventsOnlyGrow(r, body, callback);
      }
    }
  }

  /** Two streams with the same first line. */
  lemma LinesOff(r: Reader, cut: string, body: string, cutRest: string, rest: string, callback: Callback)
    requires Break(body) < LIMIT && Break(body) < |body| && Break(cut) == Break(body) < |cut|
    requires cut[..Break(body)] == body[..Break(body)]
    requires cut[Break(body) + 1..] == cutRest && body[Break(body) + 1..] == rest
    requires var r' := Feed(r, DropCR(body[..Break(body)]));
      Read(r', cutRest, callback).events <= Read(r', rest, callback).events
    ensures Read(r, cut, callback).events <= Read(r, body, callback).events
  {
    LineOff(r, body, callback);
    LineOff(r, cut, callback);
  }

  /** Reading takes the first line off and goes on behind it. */
  lemma LineOff(r: Reader, body: string, callback: Callback)
    requires Break(body) < |body| && Break(body) < LIMIT
    ensures var e := Break(body);
      var r' := Feed(r, DropCR(body[..e]));
      Read(r, body, callback)
      == if Refused(r, r', callback) then Reading(r'.events, CallbackFailed) else Read(r', body[e + 1..], callback)
  {
  }

  lemma CutLater(body: string, n: nat)
    requires Break(body) < n <= |body|
    ensures var e := Break(body);
      Break(body[..n]) == e && body[..n][..e] == body[..e] && body[..n][e + 1..] == body[e + 1..][..n - e - 1]
    ensures CutInBlankLine(body[Break(body) + 1..], n - Break(body) - 1) ==> CutInBlankLine(body, n)
  {
    var e := Break(body);
    BreakAt(body[..n], e);
    CutBehind(body, n, e);
    if CutInBlankLine(body[e + 1..], n - e - 1) { SameBlankLine(body, n, e); }
  }

  lemma SameBlankLine(body: string, n: nat, e: nat)
    requires e < n <= |body| && body[e] == '\n' && CutInBlankLine(body[e + 1..], n - e - 1)
    ensures CutInBlankLine(body, n)
  {
    var rest, m := body[e + 1..], n - e - 1;
    assert m < |rest| && rest[m] == body[n] && rest[m - 1] == body[n - 1] && (m > 1 ==> rest[m - 2] == body[n - 2]);
  }

  lemma CutBehind(body: string, n: nat, e: nat)
    requires e < n <= |body|
    ensures body[..n][..e] == body[..e] && body[..n][e + 1..] == body[e + 1..][..n - e - 1]
  {
  }

  // ---------- a cut behind a lone carriage return ----------

  /** Whole lines, or none. */
  predicate WholeLines(s: string) {
    s == "" || s[|s| - 1] == '\n'
  }

  /** The reader behind the whole lines of front, unless reading stops in them. */
  function ReaderBehind(r: Reader, front: string, callback: Callback): Option<Reader>
    requires WholeLines(front)
    decreases |front|
  {
    if front == "" then Some(r)
    else
      var e := Break(front);
      LineEnds(front);
      var r' := Feed(r, DropCR(front[..e]));
      if e >= LIMIT || Refused(r, r', callback) then None else ReaderBehind(r', front[e + 1..], callback)
  }

  lemma LineEnds(front: string)
    requires front != "" && WholeLines(front)
    ensures Break(front) < |front| && WholeLines(front[Break(front) + 1..])
  {
    var e, last := Break(front), |front| - 1;
    assert front[last] == '\n';
    if e < last {
      assert front[e + 1..][last - e - 1] == front[last];
    }
  }

  lemma BreakInFront(front: string, rest: string)
    requires Break(front) < |front|
    ensures var e := Break(front);
      Break(front + rest) == e && (front + rest)[..e] == front[..e] &&
      (front + rest)[e + 1..] == front[e + 1..] + rest
  {
    BreakAt(front + rest, Break(front));
  }

  /** What comes behind whole lines is read by the reader that those have left. */
  lemma {:induction false} ReadBehind(r: Reader, front: string, rest: string, callback: Callback)
    requires WholeLines(front)
    ensures var q := ReaderBehind(r, front, callback);
      Read(r, front + rest, callback) == if q.Some? then Read(q.value, rest, callback) else Read(r, front, callback)
    decreases |front|
  {
    if front == "" {
      assert front + rest == rest;
    } else {
      LineEnds(front);
      BreakInFront(front, rest);
      var e := Break(front);
      if e < LIMIT {
        LineOff(r, front, callback);
        LineOff(r, front + rest, callback);
        ReadBehind(Feed(r, DropCR(front[..e])), front[e + 1..], rest, callback);
      }
    }
  }

  /** The event a blank line would dispatch. */
  function Collected(r: Reader): seq<Event> {
    if r.kind != "" && |r.dataLines| > 0 then [Event(r.kind, Join(r.dataLines))] else []
  }

  lemma LoneCRDispatches(r: Reader, callback: Callback)
    ensures Read(r, "\r", callback).events == r.events + Collected(r)
  {
    BreakAt("\r", 1);
    assert "\r"[..1] == "\r" && DropCR("\r") == "";
  }

  lemma SplitAtCR(body: string, n: nat)
    requires n <= |body| && CutInBlankLine(body, n)
    ensures WholeLines(body[..n - 1]) && body[..n] == body[..n - 1] + "\r" && body == body[..n - 1] + body[n - 1..]
  {
  }

  /** Cut behind a lone carriage return, the stream hands on what its whole lines have dispatched, and what
      they have collected besides. */
  lemma {:induction false} CutBehindLoneCR(r: Reader, body: string, n: nat, callback: Callback)
    requires n <= |body| && CutInBlankLine(body, n) && WholeLines(body[..n - 1])
    ensures var q := ReaderBehind(r, body[..n - 1], callback);
      if q.None? then Read(r, body[..n], callback) == Read(r, body, callback)
      else
        && Read(r, body[..n], callback).events == q.value.events + Collected(q.value)
        && Read(r, body, callback) == Read(q.value, body[n - 1..], callback)
  {
    SplitAtCR(body, n);
    var front := body[..n - 1];
    ReadBehind(r, front, "\r", callback);
    ReadBehind(r, front, body[n - 1..], callback);
    var q := ReaderBehind(r, front, callback);
    if q.Some? {
      LoneCRDispatches(q.value, callback);
    }
  }

  /** Behind a lone carriage return, the reader has collected an event that is not the next one of the whole
      stream. */
  predicate DispatchesTooMuch(r: Reader, body: string, n: nat, callback: Callback)
    requires n <= |body| && CutInBlankLine(body, n)
  {
    SplitAtCR(body, n);
    var q := ReaderBehind(r, body[..n - 1], callback);
    && q.Some? && Collected(q.value) != []
    && var events, k := Read(r, body, callback).events, |q.value.events|;
       |events| <= k || events[k] != Collected(q.value)[0]
  }

  /** A cut anywhere in any stream hands on a prefix of its events, except exactly when it is behind a lone
      carriage return and dispatches an event that the stream would not have dispatched next. */
  lemma {:induction false} PrefixExactlyWhen(r: Reader, body: string, n: nat, callback: Callback)
    requires n <= |body|
    ensures Read(r, body[..n], callback).events <= Read(r, body, callback).events
       <==> !(CutInBlankLine(body, n) && DispatchesTooMuch(r, body, n, callback))
  {
    if CutInBlankLine(body, n) {
      SplitAtCR(body, n);
      CutBehindLoneCR(r, body, n, callback);
      var q := ReaderBehind(r, body[..n - 1], callback);
      if q.Some? {
        EventsOnlyGrow(q.value, body[n - 1..], callback);
        OneMoreIsPrefix(q.value.events, Collected(q.value), Read(r, body, callback).events);
      }
    } else {
      CutLineGivesPrefix(r, body, n, callback);
    }
  }

  lemma OneMoreIsPrefix(events: seq<Event>, more: seq<Event>, all: seq<Event>)
    requires events <= all && |more| <= 1
    ensures events + more <= all <==> more == [] || (|events| < |all| && all[|events|] == more[0])
  {
  }

  /** The two lines of an event, without the blank one. */
  function Fields(e: Event): string {
    EVENT + e.kind + "\n" + (DATA + e.data + "\n")
  }

  /** So it happens: in the place of its blank line an event is followed by a line that starts with a
      carriage return, and the connection breaks right behind that. */
  lemma {:induction false} CutCanDispatchTooMuch(e: Event, rest: string, callback: Callback)
    requires Printable(Send(e)) && rest != "" && '\n' !in rest
    ensures var body, n := Fields(e) + ("\r" + rest), |Fields(e)| + 1;
      CutInBlankLine(body, n) &&
      Read(START, body[..n], callback).events == [e] && Read(START, body, callback).events == []
  {
    var q := Reader(e.kind, [e.data], []);
    CutAtCR(Fields(e), rest);
    ReadFields(e, "\r", callback);
    ReadFields(e, "\r" + rest, callback);
    LoneCRDispatches(q, callback);
    assert q.events + Collected(q) == [e];
    NoField(q, rest, callback);
  }

  lemma NoField(r: Reader, rest: string, callback: Callback)
    requires rest != "" && '\n' !in rest
    ensures Read(r, "\r" + rest, callback).events == r.events
  {
    ReadCutLine(r, "\r" + rest, callback);
  }

  lemma CutAtCR(front: string, rest: string)
    requires front != "" && front[|front| - 1] == '\n' && rest != "" && rest[0] != '\n'
    ensures var body := front + ("\r" + rest);
      CutInBlankLine(body, |front| + 1) && body[..|front| + 1] == front + "\r"
  {
  }

  lemma ReadFields(e: Event, rest: string, callback: Callback)
    requires Printable(Send(e))
    ensures Read(START, Fields(e) + rest, callback) == Read(Reader(e.kind, [e.data], []), rest, callback)
  {
    PrintedLinesArePlain(Send(e));
    var first, second, r := EVENT + e.kind, DATA + e.data, START.(kind := e.kind);
    RegroupLines(first + "\n", second + "\n", rest);
    RegroupLines("", second + "\n", rest);
    FeedFields(START, e, "");
    FeedFields(r, e, "");
    ReadLine(START, first, second + "\n" + rest, callback);
    ReadLine(r, second, rest, callback);
    assert [] + [e.data] == [e.data];
  }

  lemma RegroupLines(a: string, b: string, c: string)
    ensures a + b + c == a + (b + c)
  {
  }

  /** How many of the items are printed whole in the first n bytes. */
  function Whole(items: seq<Item>, n: nat): (k: nat)
    ensures k <= |items|
  {
    if items == [] || n < |Print(items[0])| then 0 else 1 + Whole(items[1..], n - |Print(items[0])|)
  }

  /** Cutting text whose first line is first: either that line is cut, or it is fed whole. */
  lemma CutLines(r: Reader, first: string, rest: string, n: nat, callback: Callback)
    requires PlainLine(first) && n <= |first| + 1 + |rest|
    ensures Read(r, (first + "\n" + rest)[..n], callback)
         == if n <= |first| then Reading(r.events, EndOfBody)
            else Read(Feed(r, first), rest[..n - |first| - 1], callback)
  {
    var text := first + "\n" + rest;
    if n <= |first| {
      assert text[..n] == first[..n];
      CutLine(r, first[..n], callback);
    } else {
      assert text[..n] == first + "\n" + rest[..n - |first| - 1];
      ReadLine(r, first, rest[..n - |first| - 1], callback);
    }
  }

  lemma CutLine(r: Reader, line: string, callback: Callback)
    requires '\n' !in line && (line != "" ==> line[0] != '\r') && |line| < LIMIT
    ensures Read(r, line, callback) == Reading(r.events, EndOfBody)
  {
    BreakAt(line, |line|);
    if line != "" {
      assert line[..|line|] == line && DropCR(line) != "";
    }
  }

  lemma CutBehindLine(r: Reader, line: string, n: nat, callback: Callback)
    requires PlainLine(line) && n < |line| + 2
    requires Feed(r, line).events == r.events
    ensures Read(r, (line + "\n" + "\n")[..n], callback) == Reading(r.events, EndOfBody)
  {
    CutLines(r, line, "\n", n, callback);
    if n > |line| {
      assert "\n"[..n - |line| - 1] == "";
      BreakAt("", 0);
    }
  }

  lemma CutEvent(r: Reader, e: Event, n: nat, callback: Callback)
    requires Idle(r) && Printable(Send(e)) && n < |Print(Send(e))|
    ensures Read(r, Print(Send(e))[..n], callback) == Reading(r.events, EndOfBody)
  {
    var first, second := EVENT + e.kind, DATA + e.data;
    var rest := second + "\n" + "\n";
    PrintedLines(e);
    PrintedLinesArePlain(Send(e));
    FeedFields(r, e, "");
    CutLines(r, first, rest, n, callback);
    if n > |first| {
      FeedFields(Feed(r, first), e, "");
      CutBehindLine(Feed(r, first), second, n - |first| - 1, callback);
    }
  }

  /** A part of an item that is not the whole item dispatches nothing. */
  lemma CutItem(r: Reader, item: Item, n: nat, callback: Callback)
    requires Idle(r) && Printable(item) && n < |Print(item)|
    ensures Read(r, Print(item)[..n], callback) == Reading(r.events, EndOfBody)
  {
    match item
    case Send(e) => CutEvent(r, e, n, callback);
    case Comment(text) => CutComment(r, ": " + text, n, callback);
  }

  lemma CutComment(r: Reader, line: string, n: nat, callback: Callback)
    requires PlainLine(line) && n < |line| + 2 && line[0] == ':'
    ensures Read(r, (line + "\n\n")[..n], callback) == Reading(r.events, EndOfBody)
  {
    assert line + "\n\n" == line + "\n" + "\n";
    CutBehindLine(r, line, n, callback);
  }

  lemma CutBoth(a: string, b: string, n: nat)
    requires n <= |a| + |b|
    ensures (a + b)[..n] == if n < |a| then a[..n] else a + b[..n - |a|]
  {
  }

  lemma WholeFirst(items: seq<Item>, k: nat)
    requires k < |items|
    ensures items[..k + 1] != [] && items[..k + 1][0] == items[0] && items[..k + 1][1..] == items[1..][..k]
  {
  }

  /** Cut anywhere, a printed stream hands on exactly the events that were printed whole. */
  lemma {:induction false} TruncatedPrint(r: Reader, items: seq<Item>, n: nat, callback: Callback)
    requires Idle(r) && AllPrintable(items) && n <= |PrintAll(items)|
    ensures Read(r, PrintAll(items)[..n], callback)
         == HandOn(r.events, EventsOf(items[..Whole(items, n)]), callback)
    decreases |items|
  {
    if items == [] {
      BreakAt("", 0);
    } else {
      var item, more := items[0], items[1..];
      var size := |Print(item)|;
      CutBoth(Print(item), PrintAll(more), n);
      if n < size {
        CutItem(r, item, n, callback);
      } else {
        var k := Whole(more, n - size);
        var rest := PrintAll(more)[..n - size];
        WholeFirst(items, k);
        TruncatedPrint(Dispatch(r, item), more, n - size, callback);
        ReadItemAndRest(r, items[..k + 1], rest, callback);
      }
    }
  }
}
