/**
  The server-sent-events wire: the text that routes/events.ts writes, and the event stream
  interpretation of sections 9.2.5 and 9.2.6 of the WHATWG HTML Living Standard, one character
  at a time, so that a connection may be cut anywhere.
 */
module Sse {

  /** What the handler writes on one response: an event frame or the 25 s keep-alive comment. */
  datatype Item = Frame(id: string, data: string) | Heartbeat

  /** A MessageEvent as the browser's `onmessage` sees it. */
  datatype Event = Event(kind: string, id: string, data: string)

  datatype Parser = Parser(
    line: string,          // characters of the unfinished line
    afterCr: bool,         // the previous character was CR, so an LF belongs to it
    data: string,          // data buffer
    eventType: string,     // event type buffer
    idBuffer: string,      // last event ID buffer of this stream
    lastEventId: string,   // last event ID string of the EventSource
    events: seq<Event>)    // dispatched so far

  // ---------- writing ----------

  function Text(item: Item): (r: string) {
    match item
    case Frame(id, data) => "id: " + id + "\n" + "data: " + data + "\n\n"
    case Heartbeat => ":\n\n"
  }

  function Wire(items: seq<Item>): (r: string) {
    if items == [] then "" else Text(items[0]) + Wire(items[1..])
  }

  predicate OneLine(s: string) {
    forall i | 0 <= i < |s| :: s[i] != '\n' && s[i] != '\r'
  }

  /** UUIDs and JSON.stringify output satisfy this; the empty id and empty data are allowed. */
  predicate Writable(item: Item) {
    item.Frame? ==> OneLine(item.id) && '\0' !in item.id && OneLine(item.data)
  }

  predicate AllWritable(items: seq<Item>) {
    forall i | 0 <= i < |items| :: Writable(items[i])
  }

  /** The events a complete transmission of `items` stands for. */
  function Events(items: seq<Item>): (r: seq<Event>) {
    if items == [] then []
    else (if items[0].Frame? then [Event("message", items[0].id, items[0].data)] else []) + Events(items[1..])
  }

  // ---------- parsing ----------

  function Start(idBuffer: string, lastEventId: string): (r: Parser) {
    Parser("", false, "", "", idBuffer, lastEventId, [])
  }

  function FirstColon(s: string): (i: nat)
    ensures i <= |s|
    ensures i < |s| ==> s[i] == ':'
    ensures forall j | 0 <= j < i :: s[j] != ':'
  {
    if s == "" || s[0] == ':' then 0 else 1 + FirstColon(s[1..])
  }

  function Field(p: Parser, name: string, value: string): (r: Parser) {
    if name == "event" then p.(eventType := value)
    else if name == "data" then p.(data := p.data + value + "\n")
    else if name == "id" && '\0' !in value then p.(idBuffer := value)
    else p
  }

  function Dispatch(p: Parser): (r: Parser) {
    var q := p.(lastEventId := p.idBuffer);
    if q.data == "" then q.(eventType := "")
    else
      var data := if q.data[|q.data| - 1] == '\n' then q.data[..|q.data| - 1] else q.data;
      var kind := if q.eventType == "" then "message" else q.eventType;
      q.(events := q.events + [Event(kind, q.lastEventId, data)], data := "", eventType := "")
  }

  function EndLine(p: Parser): (r: Parser) {
    if p.line == "" then Dispatch(p)
    else if p.line[0] == ':' then p
    else
      var i := FirstColon(p.line);
      if i == |p.line| then Field(p, p.line, "")
      else
        var value := p.line[i + 1..];
        Field(p, p.line[..i], if value != "" && value[0] == ' ' then value[1..] else value)
  }

  function Consume(p: Parser, c: char): (r: Parser) {
    if c == '\n' && p.afterCr then p.(afterCr := false)
    else if c == '\n' || c == '\r' then EndLine(p).(line := "", afterCr := c == '\r')
    else p.(line := p.line + [c], afterCr := false)
  }

  function Feed(p: Parser, s: string): (r: Parser)
    decreases |s|
  {
    if s == "" then p else Feed(Consume(p, s[0]), s[1..])
  }

  /** Between two items nothing is pending. */
  predicate Clean(p: Parser) {
    p.line == "" && !p.afterCr && p.data == "" && p.eventType == ""
  }

  // ---------- how much of a cut transmission counts ----------

  /** Number of items whose whole text lies in the first `k` characters. */
  function Whole(items: seq<Item>, k: nat): (n: nat)
    ensures n <= |items|
  {
    if items == [] || k < |Text(items[0])| then 0 else 1 + Whole(items[1..], k - |Text(items[0])|)
  }

  /** The EventSource's last event ID string after receiving `items` with the given buffer. */
  function IdAfter(idBuffer: string, lastEventId: string, items: seq<Item>): (r: string)
    decreases |items|
  {
    if items == [] then lastEventId
    else if items[0].Frame? then IdAfter(items[0].id, items[0].id, items[1..])
    else IdAfter(idBuffer, idBuffer, items[1..])
  }

  // ---------- proofs ----------

  lemma {:induction false} FeedConcat(p: Parser, a: string, b: string)
    ensures Feed(p, a + b) == Feed(Feed(p, a), b)
    decreases |a|
  {
    if a == "" {
      assert a + b == b;
    } else {
      assert (a + b)[0] == a[0] && (a + b)[1..] == a[1..] + b;
      FeedConcat(Consume(p, a[0]), a[1..], b);
    }
  }

  lemma {:induction false} FeedWithinLine(p: Parser, s: string)
    requires OneLine(s) && !p.afterCr
    ensures Feed(p, s) == p.(line := p.line + s)
    decreases |s|
  {
    if s == "" {
      assert p.line + s == p.line;
    } else {
      assert p.line + [s[0]] + s[1..] == p.line + s;
      FeedWithinLine(Consume(p, s[0]), s[1..]);
    }
  }

  /** A line "name: value" applies exactly that field. */
  lemma EndFieldLine(p: Parser, name: string, value: string)
    requires name != "" && ':' !in name
    requires p.line == name + ": " + value
    ensures EndLine(p) == Field(p, name, value)
  {
    var l := p.line;
    var i := FirstColon(l);
    assert l[|name|] == ':';
    assert forall j | 0 <= j < |name| :: l[j] == name[j] && name[j] in name;
    assert i == |name|;
    assert l[0] == name[0] && name[0] in name;
    assert l[..i] == name;
    assert l[i + 1..] == " " + value;
    assert (" " + value)[1..] == value;
  }

  lemma FieldKeepsLine(p: Parser, l: string, name: string, value: string)
    ensures Field(p.(line := l), name, value) == Field(p, name, value).(line := l)
  {}

  lemma FeedLf(p: Parser)
    requires !p.afterCr
    ensures Feed(p, "\n") == EndLine(p).(line := "", afterCr := false)
  {
    assert "\n"[1..] == "";
    assert Feed(p, "\n") == Feed(Consume(p, '\n'), "") == Consume(p, '\n');
  }

  lemma FeedBlankLine(p: Parser)
    requires p.line == "" && !p.afterCr
    ensures Feed(p, "\n") == Dispatch(p)
  {
    FeedLf(p);
  }

  lemma FeedField(p: Parser, name: string, value: string)
    requires p.line == "" && !p.afterCr
    requires name != "" && ':' !in name && OneLine(name) && OneLine(value)
    ensures Feed(p, name + ": " + value + "\n") == Field(p, name, value)
  {
    hide Feed, EndLine;
    var l := name + ": " + value;
    FeedConcat(p, l, "\n");
    FeedWithinLine(p, l);
    var q := p.(line := l);
    assert p.line + l == l;
    FeedLf(q);
    EndFieldLine(q, name, value);
    FieldKeepsLine(p, l, name, value);
  }

  lemma FeedHeartbeat(p: Parser)
    requires Clean(p)
    ensures Feed(p, Text(Heartbeat)) == p.(lastEventId := p.idBuffer)
  {
    var q := p.(line := ":");
    assert Consume(p, ':') == q;
    assert Consume(q, '\n') == p;
    assert ":\n\n"[1..] == "\n\n" && "\n\n"[1..] == "\n" && "\n"[1..] == "";
    assert Feed(p, ":\n\n") == Feed(q, "\n\n") == Feed(p, "\n") == Feed(Consume(p, '\n'), "");
  }

  lemma FeedFrame(p: Parser, id: string, data: string)
    requires Clean(p) && Writable(Frame(id, data))
    ensures Feed(p, Text(Frame(id, data)))
         == p.(idBuffer := id, lastEventId := id, events := p.events + [Event("message", id, data)])
  {
    hide Feed, EndLine, Consume;
    var head := "id: " + id + "\n";
    var body := "data: " + data + "\n";
    assert Text(Frame(id, data)) == head + (body + "\n");
    assert head == "id" + ": " + id + "\n" && body == "data" + ": " + data + "\n";
    FeedConcat(p, head, body + "\n");
    FeedField(p, "id", id);
    var q := p.(idBuffer := id);
    FeedConcat(q, body, "\n");
    FeedField(q, "data", data);
    var r := q.(data := data + "\n");
    assert q.data + data + "\n" == data + "\n";
    FeedBlankLine(r);
    assert r.data[..|r.data| - 1] == data;
  }

  ghost predicate Quiet(p: Parser, s: string) {
    Feed(p, s).events == p.events && Feed(p, s).lastEventId == p.lastEventId
  }

  lemma CutHeartbeat(p: Parser, k: nat)
    requires Clean(p) && k < 3
    ensures Quiet(p, Text(Heartbeat)[..k])
  {
    var t := Text(Heartbeat)[..k];
    assert t == "" || t == ":" || t == ":\n";
    FeedWithinLine(p, ":");
    FeedLf(p.(line := ":"));
    FeedConcat(p, ":", "\n");
    assert ":" + "\n" == ":\n";
  }

  /** The cut falls inside the id line, or inside the data line. */
  lemma CutLine(p: Parser, line: string, k: nat)
    requires !p.afterCr && OneLine(line) && k <= |line|
    ensures Quiet(p, line[..k])
  {
    FeedWithinLine(p, line[..k]);
  }

  lemma Cut(a: string, b: string, k: nat)
    requires k <= |a + b|
    ensures (a + b)[..k] == if k < |a| then a[..k] else a + b[..k - |a|]
  {}

  lemma CutData(p: Parser, data: string, k: nat)
    requires p.line == "" && !p.afterCr && OneLine(data) && k < |"data: " + data + "\n\n"|
    ensures Quiet(p, ("data: " + data + "\n\n")[..k])
  {
    hide Feed;
    var body := "data: " + data;
    Cut(body, "\n\n", k);
    if k <= |body| {
      assert ("data: " + data + "\n\n")[..k] == body[..k];
      CutLine(p, body, k);
    } else {
      assert "\n\n"[..k - |body|] == "\n";
      assert body + "\n" == "data" + ": " + data + "\n";
      FeedField(p, "data", data);
    }
  }

  lemma FrameText(id: string, data: string)
    ensures Text(Frame(id, data)) == ("id: " + id + "\n") + ("data: " + data + "\n\n")
  {}

  lemma CutFrame(p: Parser, id: string, data: string, k: nat)
    requires Clean(p) && Writable(Frame(id, data)) && k < |Text(Frame(id, data))|
    ensures Quiet(p, Text(Frame(id, data))[..k])
  {
    hide Feed, Text;
    var head := "id: " + id;
    var line, rest := head + "\n", "data: " + data + "\n\n";
    FrameText(id, data);
    Cut(line, rest, k);
    if k < |line| {
      assert line[..k] == head[..k];
      CutLine(p, head, k);
    } else {
      var j := k - |line|;
      FeedConcat(p, line, rest[..j]);
      assert line == "id" + ": " + id + "\n";
      FeedField(p, "id", id);
      CutData(p.(idBuffer := id), data, j);
    }
  }

  /** Cutting an item before its last character dispatches nothing and moves no id. */
  lemma CutItem(p: Parser, item: Item, k: nat)
    requires Clean(p) && Writable(item) && k < |Text(item)|
    ensures Quiet(p, Text(item)[..k])
  {
    if item.Frame? { CutFrame(p, item.id, item.data, k); } else { CutHeartbeat(p, k); }
  }

  lemma FeedItem(p: Parser, item: Item)
    requires Clean(p) && Writable(item)
    ensures var q := Feed(p, Text(item));
            && Clean(q)
            && q.events == p.events + Events([item])
            && q.idBuffer == (if item.Frame? then item.id else p.idBuffer)
            && q.lastEventId == q.idBuffer
  {
    assert [item][1..] == [];
    assert Events([item]) == if item.Frame? then [Event("message", item.id, item.data)] else [];
    if item.Frame? { FeedFrame(p, item.id, item.data); } else { FeedHeartbeat(p); }
  }

  lemma EventsOfPrefix(items: seq<Item>, m: nat)
    requires 0 < |items| && m < |items|
    ensures Events(items[..m + 1]) == Events([items[0]]) + Events(items[1..][..m])
  {
    var t := items[..m + 1];
    assert t[0] == items[0] && t[1..] == items[1..][..m];
    assert [items[0]][1..] == [];
  }

  lemma IdAfterPrefix(idBuffer: string, lastEventId: string, items: seq<Item>, m: nat)
    requires 0 < |items| && m < |items|
    ensures IdAfter(idBuffer, lastEventId, items[..m + 1])
         == var id := if items[0].Frame? then items[0].id else idBuffer; IdAfter(id, id, items[1..][..m])
  {
    var t := items[..m + 1];
    assert t[0] == items[0] && t[1..] == items[1..][..m];
  }

  ghost predicate SeenUpTo(p: Parser, items: seq<Item>, k: nat)
    requires k <= |Wire(items)|
  {
    var q := Feed(p, Wire(items)[..k]);
    var got := items[..Whole(items, k)];
    q.events == p.events + Events(got) && q.lastEventId == IdAfter(p.idBuffer, p.lastEventId, got)
  }

  lemma CutInFirst(p: Parser, items: seq<Item>, k: nat)
    requires Clean(p) && AllWritable(items) && k <= |Wire(items)|
    requires items == [] || k < |Text(items[0])|
    ensures SeenUpTo(p, items, k)
  {
    assert items[..0] == [];
    assert p.events + [] == p.events;
    if items == [] {
      assert Wire(items)[..k] == "";
    } else {
      assert Wire(items)[..k] == Text(items[0])[..k];
      CutItem(p, items[0], k);
    }
  }

  lemma FeedPastFirst(p: Parser, items: seq<Item>, k: nat)
    requires items != [] && |Text(items[0])| <= k <= |Wire(items)|
    ensures k - |Text(items[0])| <= |Wire(items[1..])|
    ensures Feed(p, Wire(items)[..k]) == Feed(Feed(p, Text(items[0])), Wire(items[1..])[..k - |Text(items[0])|])
  {
    var t, w := Text(items[0]), Wire(items[1..]);
    assert (t + w)[..k] == t + w[..k - |t|];
    FeedConcat(p, t, w[..k - |t|]);
  }

  /** `q` has seen `items[1..][..m]` after `first` has seen `items[0]` after `p`. */
  lemma SeenInTurn(p: Parser, first: Parser, q: Parser, items: seq<Item>, m: nat)
    requires m < |items|
    requires first.events == p.events + Events([items[0]])
    requires first.lastEventId == first.idBuffer == (if items[0].Frame? then items[0].id else p.idBuffer)
    requires q.events == first.events + Events(items[1..][..m])
    requires q.lastEventId == IdAfter(first.idBuffer, first.lastEventId, items[1..][..m])
    ensures q.events == p.events + Events(items[..m + 1])
    ensures q.lastEventId == IdAfter(p.idBuffer, p.lastEventId, items[..m + 1])
  {
    EventsOfPrefix(items, m);
    IdAfterPrefix(p.idBuffer, p.lastEventId, items, m);
  }

  lemma CutLater(p: Parser, items: seq<Item>, k: nat)
    requires Clean(p) && items != [] && Writable(items[0])
    requires |Text(items[0])| <= k <= |Wire(items)|
    requires k - |Text(items[0])| <= |Wire(items[1..])|
    requires SeenUpTo(Feed(p, Text(items[0])), items[1..], k - |Text(items[0])|)
    ensures SeenUpTo(p, items, k)
  {
    FeedPastFirst(p, items, k);
    FeedItem(p, items[0]);
    SeenInTurn(p, Feed(p, Text(items[0])), Feed(p, Wire(items)[..k]), items, Whole(items[1..], k - |Text(items[0])|));
  }

  /**
    Whatever prefix of the written characters arrives, the browser has seen exactly the frames
    whose text arrived completely, in order and unaltered, and its last event ID is the one those
    items leave behind.
   */
  lemma {:induction false} CutAnywhere(p: Parser, items: seq<Item>, k: nat)
    requires Clean(p) && AllWritable(items) && k <= |Wire(items)|
    ensures SeenUpTo(p, items, k)
    decreases |items|
  {
    if items == [] || k < |Text(items[0])| {
      CutInFirst(p, items, k);
    } else {
      FeedItem(p, items[0]);
      CutAnywhere(Feed(p, Text(items[0])), items[1..], k - |Text(items[0])|);
      CutLater(p, items, k);
    }
  }

  lemma {:induction false} WholeOfAll(items: seq<Item>)
    ensures Whole(items, |Wire(items)|) == |items|
    decreases |items|
  {
    if items != [] { WholeOfAll(items[1..]); }
  }

  /** Framing round trip: any sequence of frames, with heartbeats anywhere between them. */
  lemma RoundTrip(p: Parser, items: seq<Item>)
    requires Clean(p) && AllWritable(items)
    ensures Feed(p, Wire(items)).events == p.events + Events(items)
    ensures Feed(p, Wire(items)).lastEventId == IdAfter(p.idBuffer, p.lastEventId, items)
  {
    CutAnywhere(p, items, |Wire(items)|);
    WholeOfAll(items);
    assert Wire(items)[..|Wire(items)|] == Wire(items);
    assert items[..|items|] == items;
  }

  // ---------- what else the standard asks of the parser ----------

  /** A line may end in LF, CR or CRLF; after a CR the parser only remembers to skip an LF. */
  lemma EndingsAlike(p: Parser, line: string)
    requires !p.afterCr && OneLine(line)
    ensures Feed(p, line + "\r\n") == Feed(p, line + "\n")
    ensures Feed(p, line + "\r") == Feed(p, line + "\n").(afterCr := true)
  {
    hide EndLine;
    FeedConcat(p, line, "\r\n");
    FeedConcat(p, line, "\n");
    FeedConcat(p, line, "\r");
    FeedWithinLine(p, line);
    var q := p.(line := p.line + line);
    assert "\r\n"[1..] == "\n" && "\n"[1..] == "" && "\r"[1..] == "";
    assert Feed(q, "\r\n") == Feed(Consume(q, '\r'), "\n");
    assert Feed(Consume(q, '\r'), "\n") == Feed(Consume(Consume(q, '\r'), '\n'), "");
    assert Feed(q, "\n") == Feed(Consume(q, '\n'), "") && Feed(q, "\r") == Feed(Consume(q, '\r'), "");
  }

  /** What is not an LF is taken after a CR as at any other time. */
  lemma AfterCrAlike(p: Parser, c: char)
    requires c != '\n'
    ensures Consume(p.(afterCr := true), c) == Consume(p.(afterCr := false), c)
  {}

  /** A comment line changes nothing. */
  lemma CommentIgnored(p: Parser, text: string)
    requires p.line == "" && !p.afterCr && OneLine(text)
    ensures Feed(p, ":" + text + "\n") == p
  {
    var l := ":" + text;
    FeedConcat(p, l, "\n");
    FeedWithinLine(p, l);
    assert p.line + l == l;
    FeedLf(p.(line := l));
  }

  /** The blank after the colon may be missing. */
  lemma EndTightLine(p: Parser, name: string, value: string)
    requires name != "" && ':' !in name && (value == "" || value[0] != ' ')
    requires p.line == name + ":" + value
    ensures EndLine(p) == Field(p, name, value)
  {
    var l := p.line;
    assert l[|name|] == ':' && forall j | 0 <= j < |name| :: l[j] == name[j] && name[j] in name;
    assert FirstColon(l) == |name|;
    assert l[0] == name[0] && name[0] in name;
    assert l[..|name|] == name && l[|name| + 1..] == value;
  }

  /** A line without a colon is a field with an empty value. */
  lemma EndBareLine(p: Parser, name: string)
    requires name != "" && ':' !in name && p.line == name
    ensures EndLine(p) == Field(p, name, "")
  {
    assert forall j | 0 <= j < |name| :: name[j] in name;
    assert FirstColon(name) == |name|;
  }

  function DataLines(ds: seq<string>): (r: string) {
    if ds == [] then "" else "data: " + ds[0] + "\n" + DataLines(ds[1..])
  }

  /** One text, line by line. */
  function Joined(ds: seq<string>): (r: string) {
    if ds == [] then "" else if |ds| == 1 then ds[0] else ds[0] + "\n" + Joined(ds[1..])
  }

  lemma {:induction false} FeedDataLines(p: Parser, ds: seq<string>)
    requires p.line == "" && !p.afterCr && forall i | 0 <= i < |ds| :: OneLine(ds[i])
    ensures Feed(p, DataLines(ds)) == p.(data := p.data + (if ds == [] then "" else Joined(ds) + "\n"))
    decreases |ds|
  {
    hide EndLine, Consume;
    if ds == [] {
      assert p.data + "" == p.data;
    } else {
      var first := "data: " + ds[0] + "\n";
      FeedConcat(p, first, DataLines(ds[1..]));
      assert first == "data" + ": " + ds[0] + "\n";
      FeedField(p, "data", ds[0]);
      var q := p.(data := p.data + ds[0] + "\n");
      FeedDataLines(q, ds[1..]);
      if |ds| > 1 {
        assert q.data + (Joined(ds[1..]) + "\n") == p.data + (Joined(ds) + "\n");
      } else {
        assert q.data + "" == p.data + (ds[0] + "\n");
      }
    }
  }

  /**
    One event in all its fields: its type, its id unless that contains a NUL, and its data over
    several lines.
   */
  lemma {:induction false} BlockDispatched(p: Parser, kind: string, id: string, ds: seq<string>)
    requires Clean(p) && OneLine(kind) && OneLine(id) && ds != [] && forall i | 0 <= i < |ds| :: OneLine(ds[i])
    ensures var current := if '\0' in id then p.idBuffer else id;
            Feed(p, ("event: " + kind + "\n") + ("id: " + id + "\n") + DataLines(ds) + "\n")
              == p.(idBuffer := current, lastEventId := current,
                    events := p.events + [Event(if kind == "" then "message" else kind, current, Joined(ds))])
  {
    hide Feed, EndLine, Consume, DataLines, Joined;
    var first, second, third := "event: " + kind + "\n", "id: " + id + "\n", DataLines(ds);
    assert first == "event" + ": " + kind + "\n" && second == "id" + ": " + id + "\n";
    FeedConcat(p, first + second + third, "\n");
    FeedConcat(p, first + second, third);
    FeedConcat(p, first, second);
    FeedField(p, "event", kind);
    var q := p.(eventType := kind);
    FeedField(q, "id", id);
    var r := if '\0' in id then q else q.(idBuffer := id);
    FeedDataLines(r, ds);
    assert r.data + (Joined(ds) + "\n") == Joined(ds) + "\n";
    var t := r.(data := Joined(ds) + "\n");
    FeedBlankLine(t);
    assert t.data[..|t.data| - 1] == Joined(ds);
  }
}
