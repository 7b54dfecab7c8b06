/**
  Webhook delivery over a reconnecting event stream: the replay buffer, the handler that replays
  and then subscribes in one block, the characters on the wire, and the browser's EventSource,
  run against any interleaving of publishes, heartbeats, connects and cuts.
 */
module Delivery {
  import opened Sse
  import opened ReplayBuffer

  /** `from` is the position in the session's history of the first frame of this connection. */
  datatype Link = Down | Up(items: seq<Item>, from: nat)

  /**
    `received` are the messages of all finished connections, `lastId` the EventSource's last event
    ID string ("" when it has none), `seen` the history position just after the last message.
   */
  datatype Net = Net(channel: Channel, link: Link, received: seq<Event>, lastId: string, seen: nat)

  datatype Step =
    | Publish(envelope: Envelope, now: int)
    | Beat
    | Connect(now: int)
    | Drop(arrived: nat)   // the connection ends after this many characters got through

  /**
    `carriesOver`: a new stream's last event ID buffer starts from the EventSource's string.
    Section 9.2.6 starts it empty; some browsers carry it over.
   */
  datatype Config = Config(limits: Limits, carriesOver: bool)

  function FrameOf(e: Envelope): (r: Item) {
    Frame(e.id, e.json)
  }

  function MessageOf(e: Envelope): (r: Event) {
    Event("message", e.id, e.json)
  }

  function Frames(entries: seq<BufferEntry>): (items: seq<Item>)
    ensures |items| == |entries|
    ensures forall i | 0 <= i < |items| :: items[i] == FrameOf(entries[i].envelope)
  {
    seq(|entries|, i requires 0 <= i < |entries| => FrameOf(entries[i].envelope))
  }

  function Messages(entries: seq<BufferEntry>): (es: seq<Event>)
    ensures |es| == |entries|
    ensures forall i | 0 <= i < |es| :: es[i] == MessageOf(entries[i].envelope)
  {
    seq(|entries|, i requires 0 <= i < |entries| => MessageOf(entries[i].envelope))
  }

  function Min(a: nat, b: nat): (r: nat) {
    if a < b then a else b
  }

  /** Last event ID buffer of a new stream. */
  function Seed(cfg: Config, n: Net): (r: string) {
    if cfg.carriesOver then n.lastId else ""
  }

  /** The browser's parser after the first `k` characters of the current connection. */
  function Heard(cfg: Config, n: Net, k: nat): (r: Parser)
    requires n.link.Up?
  {
    var text := Wire(n.link.items);
    Feed(Start(Seed(cfg, n), n.lastId), text[..Min(k, |text|)])
  }

  /** Everything `onmessage` has been given when `k` characters of this connection have arrived. */
  function Arrived(cfg: Config, n: Net, k: nat): (r: seq<Event>) {
    if n.link.Up? then n.received + Heard(cfg, n, k).events else n.received
  }

  function Next(cfg: Config, n: Net, step: Step): (r: Net) {
    match step
    case Publish(e, now) =>
      n.(channel := Published(n.channel, e, now, cfg.limits),
         link := if n.link.Up? then n.link.(items := n.link.items + [FrameOf(e)]) else Down)
    case Beat =>
      n.(link := if n.link.Up? then n.link.(items := n.link.items + [Heartbeat]) else Down)
    case Connect(now) =>
      if n.link.Up? then n
      else
        var replay := Since(Prune(n.channel.buf, now), n.lastId);
        var from := |n.channel.hist| - |replay|;
        n.(channel := Pruned(n.channel, now), link := Up(Frames(replay), if from < 0 then 0 else from))
    case Drop(k) =>
      if n.link.Down? then n
      else
        var p := Heard(cfg, n, k);
        var end := n.link.from + |p.events|;
        n.(link := Down, received := n.received + p.events, lastId := p.lastEventId,
           seen := if p.events != [] && n.seen < end then end else n.seen)
  }

  const INITIAL := Net(Channel([], [], 0), Down, [], "", 0)

  function Run(cfg: Config, steps: seq<Step>): (r: Net) {
    if steps == [] then INITIAL else Next(cfg, Run(cfg, steps[..|steps| - 1]), steps[|steps| - 1])
  }

  // ---------- assumptions on runs ----------

  /** Ids are fresh, one line and not empty, JSON text is one line, the clock does not go back. */
  predicate StepOk(n: Net, step: Step) {
    match step
    case Publish(e, now) => n.channel.clock <= now && Fresh(n.channel, e.id) && Writable(FrameOf(e))
    case Connect(now) => n.channel.clock <= now
    case _ => true
  }

  /** The reader still knows where it was: it holds an id unless it has received nothing at all. */
  predicate Remembers(n: Net) {
    n.lastId != "" || n.received == []
  }

  /** At most `bufferSize` events were missed and none of them has expired. */
  predicate InTime(cfg: Config, n: Net, now: int) {
    && |n.channel.hist| - n.seen <= Capacity(cfg.limits)
    && forall j | n.seen <= j < |n.channel.hist| :: now < n.channel.hist[j].expiresAt
  }

  predicate Plausible(cfg: Config, steps: seq<Step>) {
    steps != [] ==>
      var before := steps[..|steps| - 1];
      Plausible(cfg, before) && StepOk(Run(cfg, before), steps[|steps| - 1])
  }

  /** A reader that forgot its place connects while its last message is still retained. */
  predicate Repeats(cfg: Config, n: Net, now: int) {
    && !Remembers(n) && 0 < n.seen <= |n.channel.hist|
    && Retained(n.channel, n.seen - 1, now, cfg.limits)
  }

  /** Some connect of the run opens a connection, at this state and clock. */
  predicate Opens(cfg: Config, steps: seq<Step>, i: nat)
    requires i < |steps|
  {
    steps[i].Connect? && Run(cfg, steps[..i]).link.Down?
  }

  /** No connection is opened by a reader that forgot its place while its last message is retained. */
  predicate NeverRepeats(cfg: Config, steps: seq<Step>) {
    forall i | 0 <= i < |steps| && Opens(cfg, steps, i) :: !Repeats(cfg, Run(cfg, steps[..i]), steps[i].now)
  }

  /** Whenever a connection is opened the buffer still holds all that was missed. */
  predicate AlwaysInTime(cfg: Config, steps: seq<Step>) {
    forall i | 0 <= i < |steps| && Opens(cfg, steps, i) :: InTime(cfg, Run(cfg, steps[..i]), steps[i].now)
  }

  // ---------- what is promised ----------

  predicate NoneTwice(r: seq<Event>) {
    forall i, j | 0 <= i < j < |r| :: r[i].id != r[j].id
  }

  /** At every moment of the run, however much of the open connection has got through. */
  ghost predicate NeverTwice(cfg: Config, steps: seq<Step>) {
    forall i, k: nat | 0 <= i <= |steps| :: NoneTwice(Arrived(cfg, Run(cfg, steps[..i]), k))
  }

  /** The session's first messages without a gap, and all of them once the connection has got through. */
  predicate Complete(cfg: Config, n: Net, k: nat) {
    && Arrived(cfg, n, k) <= Messages(n.channel.hist)
    && (n.link.Up? && |Wire(n.link.items)| <= k ==> Arrived(cfg, n, k) == Messages(n.channel.hist))
  }

  ghost predicate AlwaysComplete(cfg: Config, steps: seq<Step>) {
    forall i, k: nat | 0 <= i <= |steps| :: Complete(cfg, Run(cfg, steps[..i]), k)
  }

  ghost predicate At(r: seq<Event>, h: seq<Event>, pos: seq<nat>) {
    && |pos| == |r|
    && (forall i | 0 <= i < |pos| :: pos[i] < |h| && r[i] == h[pos[i]])
    && (forall i, j | 0 <= i < j < |pos| :: pos[i] < pos[j])
  }

  /** `r` picks events of `h` in order and none twice. */
  ghost predicate InOrderOnce(r: seq<Event>, h: seq<Event>) {
    exists pos: seq<nat> :: At(r, h, pos)
  }

  // ---------- invariant ----------

  ghost predicate LinkOk(n: Net) {
    n.link.Up? ==>
      && AllWritable(n.link.items)
      && n.seen <= n.link.from <= |n.channel.hist|
      && Events(n.link.items) == Messages(n.channel.hist)[n.link.from..]
  }

  ghost predicate ReaderOk(n: Net) {
    && n.seen <= |n.channel.hist|
    && (n.received == [] <==> n.seen == 0)
    && (n.seen > 0 ==> n.received[|n.received| - 1] == Messages(n.channel.hist)[n.seen - 1])
    && (n.lastId == "" || IsLastSeen(n.channel, n.seen, n.lastId))
    && InOrderOnce(n.received, Messages(n.channel.hist)[..n.seen])
  }

  ghost predicate Inv(cfg: Config, n: Net) {
    && Tracks(n.channel, cfg.limits)
    && (forall i | 0 <= i < |n.channel.hist| :: Writable(FrameOf(n.channel.hist[i].envelope)))
    && LinkOk(n)
    && ReaderOk(n)
  }

  /** Nothing was skipped so far. */
  ghost predicate Gapless(n: Net) {
    && n.seen <= |n.channel.hist|
    && n.received == Messages(n.channel.hist)[..n.seen]
    && (n.link.Up? ==> n.link.from == n.seen)
  }

  // ---------- facts about item sequences ----------

  lemma {:induction false} EventsConcat(a: seq<Item>, b: seq<Item>)
    ensures Events(a + b) == Events(a) + Events(b)
    decreases |a|
  {
    if a == [] {
      assert a + b == b;
    } else {
      assert (a + b)[0] == a[0] && (a + b)[1..] == a[1..] + b;
      EventsConcat(a[1..], b);
    }
  }

  lemma EventsOfOne(item: Item)
    ensures Events([item]) == if item.Frame? then [Event("message", item.id, item.data)] else []
  {
    assert [item][1..] == [];
  }

  lemma {:induction false} EventsOfFrames(entries: seq<BufferEntry>)
    ensures Events(Frames(entries)) == Messages(entries)
    decreases |entries|
  {
    if entries != [] {
      assert Frames(entries)[1..] == Frames(entries[1..]);
      EventsOfFrames(entries[1..]);
      assert Messages(entries) == [MessageOf(entries[0].envelope)] + Messages(entries[1..]);
    }
  }

  /** The id left behind is that of the last frame; without frames, the old one or the stream's seed. */
  lemma {:induction false} IdAfterItems(idBuffer: string, lastId: string, items: seq<Item>)
    ensures Events(items) != [] ==> IdAfter(idBuffer, lastId, items) == Events(items)[|Events(items)| - 1].id
    ensures Events(items) == [] ==> IdAfter(idBuffer, lastId, items) == if items == [] then lastId else idBuffer
    decreases |items|
  {
    if items != [] {
      var id := if items[0].Frame? then items[0].id else idBuffer;
      IdAfterItems(id, id, items[1..]);
    }
  }

  /** The whole items among the first `k` characters of the current connection. */
  function Got(n: Net, k: nat): (r: seq<Item>)
    requires n.link.Up?
  {
    n.link.items[..Whole(n.link.items, Min(k, |Wire(n.link.items)|))]
  }

  lemma HeardIsGot(cfg: Config, n: Net, k: nat)
    requires n.link.Up? && AllWritable(n.link.items)
    ensures Heard(cfg, n, k).events == Events(Got(n, k))
    ensures Heard(cfg, n, k).lastEventId == IdAfter(Seed(cfg, n), n.lastId, Got(n, k))
  {
    var start := Start(Seed(cfg, n), n.lastId);
    CutAnywhere(start, n.link.items, Min(k, |Wire(n.link.items)|));
    assert start.events + Events(Got(n, k)) == Events(Got(n, k));
  }

  lemma GotIsRun(n: Net, k: nat)
    requires LinkOk(n) && n.link.Up?
    ensures var m := |Events(Got(n, k))|;
            && n.link.from + m <= |n.channel.hist|
            && Events(Got(n, k)) == Messages(n.channel.hist)[n.link.from..n.link.from + m]
  {
    var items, got := n.link.items, Got(n, k);
    var rest := items[|got|..];
    assert got + rest == items;
    EventsConcat(got, rest);
    assert Events(got) == Events(items)[..|Events(got)|];
  }

  /** A cut connection has delivered a run of the history starting at `from`. */
  lemma HeardIsRun(cfg: Config, n: Net, k: nat)
    requires LinkOk(n) && n.link.Up?
    ensures var es := Heard(cfg, n, k).events;
            && n.link.from + |es| <= |n.channel.hist|
            && es == Messages(n.channel.hist)[n.link.from..n.link.from + |es|]
  {
    HeardIsGot(cfg, n, k);
    GotIsRun(n, k);
  }

  lemma HeardId(cfg: Config, n: Net, k: nat)
    requires LinkOk(n) && n.link.Up?
    ensures var p := Heard(cfg, n, k);
            p.lastEventId == if p.events != [] then p.events[|p.events| - 1].id
                             else if Got(n, k) == [] then n.lastId
                             else Seed(cfg, n)
  {
    hide Heard;
    HeardIsGot(cfg, n, k);
    IdAfterItems(Seed(cfg, n), n.lastId, Got(n, k));
  }

  lemma HeardAll(cfg: Config, n: Net, k: nat)
    requires LinkOk(n) && n.link.Up? && |Wire(n.link.items)| <= k
    ensures Heard(cfg, n, k).events == Messages(n.channel.hist)[n.link.from..]
  {
    var text := Wire(n.link.items);
    var start := Start(Seed(cfg, n), n.lastId);
    assert text[..|text|] == text;
    RoundTrip(start, n.link.items);
    assert start.events + Events(n.link.items) == Events(n.link.items);
  }

  lemma InOrderGrows(r: seq<Event>, h: seq<Event>, a: nat, from: nat, to: nat)
    requires a <= from <= to <= |h| && InOrderOnce(r, h[..a])
    ensures InOrderOnce(r + h[from..to], h[..to])
  {
    var pos: seq<nat> :| At(r, h[..a], pos);
    var more: seq<nat> := seq(to - from, i requires 0 <= i => from + i);
    var all := pos + more;
    assert forall i | 0 <= i < |pos| :: all[i] == pos[i] && all[i] < a;
    assert forall i | |pos| <= i < |all| :: all[i] == from + (i - |pos|);
    assert At(r + h[from..to], h[..to], all);
  }

  lemma InOrderPrefix(r: seq<Event>, h: seq<Event>, a: nat)
    requires a <= |h| && InOrderOnce(r, h[..a])
    ensures InOrderOnce(r, h)
  {
    var pos: seq<nat> :| At(r, h[..a], pos);
    assert At(r, h, pos);
  }

  lemma ArrivedInOrder(cfg: Config, n: Net, k: nat)
    requires Inv(cfg, n)
    ensures InOrderOnce(Arrived(cfg, n, k), Messages(n.channel.hist))
  {
    var h := Messages(n.channel.hist);
    if n.link.Up? {
      HeardIsRun(cfg, n, k);
      var to := n.link.from + |Heard(cfg, n, k).events|;
      InOrderGrows(n.received, h, n.seen, n.link.from, to);
      InOrderPrefix(Arrived(cfg, n, k), h, to);
    } else {
      InOrderPrefix(n.received, h, n.seen);
    }
  }

  // ---------- every step keeps the invariant ----------

  /** New events leave what a reader has seen as it is. */
  lemma ReaderUndisturbed(n: Net, m: Net, e: Envelope)
    requires ReaderOk(n) && Messages(m.channel.hist) == Messages(n.channel.hist) + [MessageOf(e)]
    requires forall i | 0 <= i < |n.channel.hist| :: m.channel.hist[i] == n.channel.hist[i]
    requires m.received == n.received && m.lastId == n.lastId && m.seen == n.seen
    ensures ReaderOk(m)
    ensures n.seen <= |n.channel.hist| && Messages(m.channel.hist)[..n.seen] == Messages(n.channel.hist)[..n.seen]
  {
    assert Messages(m.channel.hist)[..n.seen] == Messages(n.channel.hist)[..n.seen];
  }

  /** A live event is written to the open connection. */
  lemma LinkGrows(n: Net, m: Net, e: Envelope)
    requires LinkOk(n) && Messages(m.channel.hist) == Messages(n.channel.hist) + [MessageOf(e)]
    requires Writable(FrameOf(e)) && m.seen == n.seen
    requires m.link == if n.link.Up? then n.link.(items := n.link.items + [FrameOf(e)]) else Down
    ensures LinkOk(m)
  {
    if n.link.Up? {
      EventsConcat(n.link.items, [FrameOf(e)]);
      EventsOfOne(FrameOf(e));
      var h, h' := Messages(n.channel.hist), Messages(m.channel.hist);
      assert h'[n.link.from..] == h[n.link.from..] + [MessageOf(e)];
    }
  }

  lemma MessagesAppend(entries: seq<BufferEntry>, entry: BufferEntry)
    ensures Messages(entries + [entry]) == Messages(entries) + [MessageOf(entry.envelope)]
  {}

  lemma PublishKeeps(cfg: Config, n: Net, e: Envelope, now: int)
    requires Inv(cfg, n) && StepOk(n, Publish(e, now))
    ensures Inv(cfg, Next(cfg, n, Publish(e, now)))
    ensures Gapless(n) ==> Gapless(Next(cfg, n, Publish(e, now)))
  {
    var m := Next(cfg, n, Publish(e, now));
    var h, h' := Messages(n.channel.hist), Messages(m.channel.hist);
    PublishTracks(n.channel, e, now, cfg.limits);
    hide InOrderOnce, Events, Tracks, ReaderOk, LinkOk, AllWritable, Messages, Push;
    MessagesAppend(n.channel.hist, m.channel.hist[|n.channel.hist|]);
    ReaderUndisturbed(n, m, e);
    LinkGrows(n, m, e);
  }

  lemma BeatKeeps(cfg: Config, n: Net)
    requires Inv(cfg, n)
    ensures Inv(cfg, Next(cfg, n, Beat)) && (Gapless(n) ==> Gapless(Next(cfg, n, Beat)))
  {
    hide InOrderOnce, Events, Messages, Tracks;
    if n.link.Up? {
      EventsConcat(n.link.items, [Heartbeat]);
      EventsOfOne(Heartbeat);
      assert Events(n.link.items) + [] == Events(n.link.items);
    }
  }

  lemma ReplayFrom(n: Net, now: int)
    requires IsSuffix(n.channel) && DistinctIds(n.channel.hist) && ReaderOk(n)
    ensures var from := if Remembers(n) then ResumePoint(n.channel, n.seen, now) else Lost(Pruned(n.channel, now));
            && 0 <= from <= |n.channel.hist|
            && Since(Prune(n.channel.buf, now), n.lastId) == n.channel.hist[from..]
  {
    hide Prune, InOrderOnce, Messages, FindId;
    var c := n.channel;
    if Remembers(n) {
      ReplayResumes(c, n.seen, n.lastId, now);
    } else {
      PruneIsSuffix(c, now);
      assert Since(Prune(c.buf, now), "") == Pruned(c, now).buf;
    }
  }

  /** A new connection starts at the resume point, or with everything retained if the place was forgotten. */
  lemma ConnectOpens(cfg: Config, n: Net, now: int)
    requires Inv(cfg, n) && StepOk(n, Connect(now)) && n.link.Down?
    ensures var from := if Remembers(n) then ResumePoint(n.channel, n.seen, now) else Lost(Pruned(n.channel, now));
            && 0 <= from <= |n.channel.hist|
            && Next(cfg, n, Connect(now)).link == Up(Frames(n.channel.hist[from..]), from)
  {
    hide Frames, Prune, Since, InOrderOnce, Messages, LinkOk;
    ReplayFrom(n, now);
  }

  lemma ReaderSame(n: Net, m: Net)
    requires ReaderOk(n) && m.channel.hist == n.channel.hist
    requires m.received == n.received && m.lastId == n.lastId && m.seen == n.seen
    ensures ReaderOk(m)
  {}

  lemma ConnectKeeps(cfg: Config, n: Net, now: int)
    requires Inv(cfg, n) && StepOk(n, Connect(now)) && (n.link.Down? ==> !Repeats(cfg, n, now))
    ensures Inv(cfg, Next(cfg, n, Connect(now)))
  {
    if n.link.Down? {
      var m := Next(cfg, n, Connect(now));
      assert LinkOk(m) by {
        ConnectOpens(cfg, n, now);
        if n.seen > 0 { ConnectRepeatsIff(cfg, n, now); }
        LinkStarts(n, m, n.channel.hist[m.link.from..]);
      }
      assert ReaderOk(m) by { ReaderSame(n, m); }
      PruneTracks(n.channel, now, cfg.limits);
    }
  }

  lemma LinkStarts(n: Net, m: Net, replay: seq<BufferEntry>)
    requires m.channel.hist == n.channel.hist && m.link.Up? && m.seen == n.seen
    requires m.seen <= m.link.from <= |m.channel.hist|
    requires replay == m.channel.hist[m.link.from..] && m.link.items == Frames(replay)
    requires forall i | 0 <= i < |n.channel.hist| :: Writable(FrameOf(n.channel.hist[i].envelope))
    ensures LinkOk(m)
  {
    EventsOfFrames(replay);
    assert Messages(replay) == Messages(m.channel.hist)[m.link.from..];
  }

  lemma ReaderMoves(n: Net, m: Net, got: seq<Event>)
    requires ReaderOk(n) && LinkOk(n) && n.link.Up? && m.channel == n.channel && got != []
    requires n.link.from + |got| <= |n.channel.hist|
    requires got == Messages(n.channel.hist)[n.link.from..n.link.from + |got|]
    requires m.received == n.received + got && m.seen == n.link.from + |got|
    requires m.lastId == got[|got| - 1].id && n.channel.hist[m.seen - 1].envelope.id != ""
    ensures ReaderOk(m)
  {
    InOrderGrows(n.received, Messages(n.channel.hist), n.seen, n.link.from, m.seen);
    assert got[|got| - 1] == Messages(n.channel.hist)[m.seen - 1];
  }

  lemma ReaderQuiet(n: Net, m: Net)
    requires ReaderOk(n) && m.channel == n.channel && m.received == n.received && m.seen == n.seen
    requires m.lastId == n.lastId || m.lastId == ""
    ensures ReaderOk(m)
  {}

  lemma LastHeard(n: Net, got: seq<Event>)
    requires n.link.Up? && got != [] && n.link.from + |got| <= |n.channel.hist|
    requires got == Messages(n.channel.hist)[n.link.from..n.link.from + |got|]
    ensures got[|got| - 1].id == n.channel.hist[n.link.from + |got| - 1].envelope.id
  {}

  lemma DropKeeps(cfg: Config, n: Net, k: nat)
    requires Inv(cfg, n)
    ensures Inv(cfg, Next(cfg, n, Drop(k)))
  {
    hide Heard, Got, Messages, InOrderOnce;
    if n.link.Up? {
      HeardIsRun(cfg, n, k);
      HeardId(cfg, n, k);
      var got, m := Heard(cfg, n, k).events, Next(cfg, n, Drop(k));
      if got == [] {
        assert n.received + got == n.received;
        ReaderQuiet(n, m);
      } else {
        LastHeard(n, got);
        ReaderMoves(n, m, got);
      }
    }
  }

  lemma DropKeepsGapless(cfg: Config, n: Net, k: nat)
    requires LinkOk(n) && Gapless(n)
    ensures Gapless(Next(cfg, n, Drop(k)))
  {
    hide Heard;
    if n.link.Up? {
      HeardIsRun(cfg, n, k);
      var got := Heard(cfg, n, k).events;
      var h, end := Messages(n.channel.hist), n.seen + |got|;
      assert h[..n.seen] + h[n.seen..end] == h[..end];
      assert n.received + got == h[..end];
    }
  }

  lemma StepKeeps(cfg: Config, n: Net, step: Step)
    requires Inv(cfg, n) && StepOk(n, step)
    requires step.Connect? && n.link.Down? ==> !Repeats(cfg, n, step.now)
    ensures Inv(cfg, Next(cfg, n, step))
  {
    match step
    case Publish(e, now) => PublishKeeps(cfg, n, e, now);
    case Beat => BeatKeeps(cfg, n);
    case Connect(now) => ConnectKeeps(cfg, n, now);
    case Drop(k) => DropKeeps(cfg, n, k);
  }

  lemma PlausiblePrefix(cfg: Config, steps: seq<Step>)
    requires Plausible(cfg, steps) && steps != []
    ensures var before := steps[..|steps| - 1];
            && Plausible(cfg, before) && StepOk(Run(cfg, before), steps[|steps| - 1])
            && (forall i | 0 <= i <= |before| :: before[..i] == steps[..i])
            && (forall i | 0 <= i < |before| :: Opens(cfg, before, i) <==> Opens(cfg, steps, i))
            && (NeverRepeats(cfg, steps) ==> NeverRepeats(cfg, before))
            && (AlwaysInTime(cfg, steps) ==> AlwaysInTime(cfg, before))
  {
    var before := steps[..|steps| - 1];
    assert forall i | 0 <= i <= |before| :: before[..i] == steps[..i];
    hide Run, Repeats, InTime;
  }

  lemma {:induction false} RunKeeps(cfg: Config, steps: seq<Step>)
    requires Plausible(cfg, steps) && NeverRepeats(cfg, steps)
    ensures Inv(cfg, Run(cfg, steps))
    decreases |steps|
  {
    if steps == [] {
      EmptyTracks(cfg.limits, 0);
      assert At([], [], []);
    } else {
      var before, last := steps[..|steps| - 1], |steps| - 1;
      PlausiblePrefix(cfg, steps);
      RunKeeps(cfg, before);
      assert Opens(cfg, steps, last) ==> !Repeats(cfg, Run(cfg, before), steps[last].now);
      hide Inv, StepOk, Repeats;
      StepKeeps(cfg, Run(cfg, before), steps[last]);
    }
  }

  lemma NoIdTwice(r: seq<Event>, entries: seq<BufferEntry>)
    requires DistinctIds(entries) && InOrderOnce(r, Messages(entries))
    ensures NoneTwice(r)
  {
    var pos: seq<nat> :| At(r, Messages(entries), pos);
    forall i, j | 0 <= i < j < |r|
      ensures r[i].id != r[j].id
    {
      assert pos[i] < pos[j];
      assert entries[pos[i]].envelope.id != entries[pos[j]].envelope.id;
    }
  }

  // ---------- delivery over whole runs ----------

  /**
    Whatever the interleaving and wherever connections are cut, at every moment the page has been
    given messages of the session in publish order, none of them twice - provided no connection is
    opened by a reader that forgot its place while its last message is retained.
   */
  lemma {:induction false} DeliveredInOrderOnce(cfg: Config, steps: seq<Step>, k: nat)
    requires Plausible(cfg, steps) && NeverRepeats(cfg, steps)
    ensures var got := Arrived(cfg, Run(cfg, steps), k);
            InOrderOnce(got, Messages(Run(cfg, steps).channel.hist)) && NoneTwice(got)
  {
    var n := Run(cfg, steps);
    RunKeeps(cfg, steps);
    ArrivedInOrder(cfg, n, k);
    NoIdTwice(Arrived(cfg, n, k), n.channel.hist);
  }

  /** What has come through when all of a fresh connection's replay has. */
  lemma ReplayArrives(cfg: Config, n: Net, now: int)
    requires Inv(cfg, n) && StepOk(n, Connect(now)) && n.link.Down?
    ensures var m := Next(cfg, n, Connect(now));
            && m.link.Up? && m.channel.hist == n.channel.hist && m.link.from <= |n.channel.hist|
            && Arrived(cfg, m, |Wire(m.link.items)|) == n.received + Messages(n.channel.hist)[m.link.from..]
  {
    ConnectOpens(cfg, n, now);
    var m := Next(cfg, n, Connect(now));
    var start, text := Start(Seed(cfg, m), m.lastId), Wire(m.link.items);
    var rest := n.channel.hist[m.link.from..];
    assert text[..|text|] == text;
    EventsOfFrames(rest);
    assert Messages(rest) == Messages(n.channel.hist)[m.link.from..];
    RoundTrip(start, m.link.items);
    assert start.events + Events(m.link.items) == Events(m.link.items);
  }

  lemma RepeatedArrival(cfg: Config, n: Net, now: int)
    requires Inv(cfg, n) && StepOk(n, Connect(now)) && n.link.Down? && Repeats(cfg, n, now)
    ensures exists k: nat :: !NoneTwice(Arrived(cfg, Next(cfg, n, Connect(now)), k))
  {
    hide InOrderOnce, Arrived, Wire, Frames, Prune, Since, Tracks;
    ConnectRepeatsIff(cfg, n, now);
    ReplayArrives(cfg, n, now);
    var m := Next(cfg, n, Connect(now));
    var k := |Wire(m.link.items)|;
    var got := Arrived(cfg, m, k);
    assert got[|n.received| - 1] == got[|n.received| + (n.seen - 1 - m.link.from)];
  }

  lemma NeverTwiceSplit(cfg: Config, steps: seq<Step>)
    requires NeverTwice(cfg, steps) && steps != []
    ensures NeverTwice(cfg, steps[..|steps| - 1])
    ensures forall k: nat :: NoneTwice(Arrived(cfg, Run(cfg, steps), k))
  {
    hide Run, Arrived, NoneTwice;
    var before := steps[..|steps| - 1];
    assert forall i | 0 <= i <= |before| :: before[..i] == steps[..i];
    assert steps[..|steps|] == steps;
  }

  lemma RunLast(cfg: Config, steps: seq<Step>)
    requires steps != []
    ensures Run(cfg, steps) == Next(cfg, Run(cfg, steps[..|steps| - 1]), steps[|steps| - 1])
  {}

  lemma {:induction false} NeverTwiceNeeds(cfg: Config, steps: seq<Step>)
    requires Plausible(cfg, steps) && NeverTwice(cfg, steps)
    ensures NeverRepeats(cfg, steps)
    decreases |steps|
  {
    hide Run, Next, Plausible, NeverTwice, Arrived, NoneTwice, Inv, StepOk, Repeats;
    if steps != [] {
      var before, last := steps[..|steps| - 1], steps[|steps| - 1];
      PlausiblePrefix(cfg, steps);
      NeverTwiceSplit(cfg, steps);
      NeverTwiceNeeds(cfg, before);
      RunKeeps(cfg, before);
      RunLast(cfg, steps);
      if last.Connect? && Run(cfg, before).link.Down? && Repeats(cfg, Run(cfg, before), last.now) {
        RepeatedArrival(cfg, Run(cfg, before), last.now);
      }
    }
  }

  lemma {:induction false} PrefixOk(cfg: Config, steps: seq<Step>, i: nat)
    requires Plausible(cfg, steps) && NeverRepeats(cfg, steps) && i <= |steps|
    ensures Plausible(cfg, steps[..i]) && NeverRepeats(cfg, steps[..i])
    ensures AlwaysInTime(cfg, steps) ==> AlwaysInTime(cfg, steps[..i])
    decreases |steps|
  {
    if i == |steps| {
      assert steps[..i] == steps;
    } else {
      PlausiblePrefix(cfg, steps);
      hide *;
      PrefixOk(cfg, steps[..|steps| - 1], i);
      assert steps[..|steps| - 1][..i] == steps[..i];
    }
  }

  /**
    Over a whole run no message ever reaches the page twice if and only if no connection is opened
    by a reader that forgot its place while its last message is retained.
   */
  lemma {:induction false} DeliveredOnceIff(cfg: Config, steps: seq<Step>)
    requires Plausible(cfg, steps)
    ensures NeverTwice(cfg, steps) <==> NeverRepeats(cfg, steps)
  {
    if NeverRepeats(cfg, steps) {
      forall i, k: nat | 0 <= i <= |steps|
        ensures NoneTwice(Arrived(cfg, Run(cfg, steps[..i]), k))
      {
        PrefixOk(cfg, steps, i);
        DeliveredInOrderOnce(cfg, steps[..i], k);
      }
    } else if NeverTwice(cfg, steps) {
      NeverTwiceNeeds(cfg, steps);
    }
  }

  lemma ArrivedIsPrefix(cfg: Config, n: Net, k: nat)
    requires LinkOk(n) && Gapless(n)
    ensures Complete(cfg, n, k)
  {
    var h := Messages(n.channel.hist);
    if n.link.Up? {
      HeardIsRun(cfg, n, k);
      var end := n.seen + |Heard(cfg, n, k).events|;
      Joined(h, n.seen, end);
      if |Wire(n.link.items)| <= k { HeardAll(cfg, n, k); }
    }
  }

  lemma Joined(h: seq<Event>, a: nat, b: nat)
    requires a <= b <= |h|
    ensures h[..a] + h[a..b] == h[..b]
    ensures h[..a] + h[a..] == h
  {}

  lemma ConnectKeepsGapless(cfg: Config, n: Net, now: int)
    requires Inv(cfg, n) && StepOk(n, Connect(now)) && Gapless(n)
    requires n.link.Down? ==> InTime(cfg, n, now) && !Repeats(cfg, n, now)
    ensures Gapless(Next(cfg, n, Connect(now)))
  {
    if n.link.Down? { ConnectCompleteIff(cfg, n, now); }
  }

  lemma {:induction false} RunGapless(cfg: Config, steps: seq<Step>)
    requires Plausible(cfg, steps) && NeverRepeats(cfg, steps) && AlwaysInTime(cfg, steps)
    ensures Gapless(Run(cfg, steps))
    decreases |steps|
  {
    if steps != [] {
      var before, last := steps[..|steps| - 1], |steps| - 1;
      var n := Run(cfg, before);
      PlausiblePrefix(cfg, steps);
      RunKeeps(cfg, before);
      RunGapless(cfg, before);
      match steps[last]
      case Publish(e, now) => PublishKeeps(cfg, n, e, now);
      case Beat => BeatKeeps(cfg, n);
      case Connect(now) =>
        assert Opens(cfg, steps, last) ==> !Repeats(cfg, n, now) && InTime(cfg, n, now);
        ConnectKeepsGapless(cfg, n, now);
      case Drop(k) => DropKeepsGapless(cfg, n, k);
    }
  }

  /** A connection opened in the wrong place shows as soon as it has got through. */
  lemma WrongPlaceShows(cfg: Config, n: Net, now: int)
    requires Inv(cfg, n) && StepOk(n, Connect(now)) && n.link.Down? && Gapless(n)
    requires !InTime(cfg, n, now) || Repeats(cfg, n, now)
    ensures exists k: nat :: !Complete(cfg, Next(cfg, n, Connect(now)), k)
  {
    ConnectCompleteIff(cfg, n, now);
    ReplayArrives(cfg, n, now);
    var m := Next(cfg, n, Connect(now));
    var k := |Wire(m.link.items)|;
    assert |Arrived(cfg, m, k)| == n.seen + (|n.channel.hist| - m.link.from);
    assert !Complete(cfg, m, k);
  }

  lemma AlwaysCompleteSplit(cfg: Config, steps: seq<Step>)
    requires AlwaysComplete(cfg, steps) && steps != []
    ensures AlwaysComplete(cfg, steps[..|steps| - 1])
    ensures forall k: nat :: Complete(cfg, Run(cfg, steps), k)
  {
    hide Run, Complete;
    var before := steps[..|steps| - 1];
    assert forall i | 0 <= i <= |before| :: before[..i] == steps[..i];
    assert steps[..|steps|] == steps;
  }

  lemma {:induction false} AlwaysCompleteNeeds(cfg: Config, steps: seq<Step>)
    requires Plausible(cfg, steps) && AlwaysComplete(cfg, steps)
    ensures NeverRepeats(cfg, steps) && AlwaysInTime(cfg, steps)
    decreases |steps|
  {
    hide Run, Next, Plausible, AlwaysComplete, Complete, Inv, StepOk, Repeats, InTime, Gapless;
    if steps != [] {
      var before, last := steps[..|steps| - 1], steps[|steps| - 1];
      PlausiblePrefix(cfg, steps);
      AlwaysCompleteSplit(cfg, steps);
      AlwaysCompleteNeeds(cfg, before);
      RunKeeps(cfg, before);
      RunGapless(cfg, before);
      RunLast(cfg, steps);
      var n := Run(cfg, before);
      if last.Connect? && n.link.Down? && (!InTime(cfg, n, last.now) || Repeats(cfg, n, last.now)) {
        WrongPlaceShows(cfg, n, last.now);
      }
    }
  }

  /**
    Over a whole run the page has always been given exactly the session's first messages without a
    gap or a repetition, and all of them once the open connection has got through, if and only if
    every connection is opened in time and none by a reader whose forgotten last message is retained.
   */
  lemma {:induction false} DeliveredWithoutGap(cfg: Config, steps: seq<Step>)
    requires Plausible(cfg, steps)
    ensures AlwaysComplete(cfg, steps) <==> NeverRepeats(cfg, steps) && AlwaysInTime(cfg, steps)
  {
    if NeverRepeats(cfg, steps) && AlwaysInTime(cfg, steps) {
      forall i, k: nat | 0 <= i <= |steps|
        ensures Complete(cfg, Run(cfg, steps[..i]), k)
      {
        PrefixOk(cfg, steps, i);
        RunKeeps(cfg, steps[..i]);
        RunGapless(cfg, steps[..i]);
        ArrivedIsPrefix(cfg, Run(cfg, steps[..i]), k);
      }
    } else if AlwaysComplete(cfg, steps) {
      AlwaysCompleteNeeds(cfg, steps);
    }
  }

  // ---------- exactly when a connect is complete, repeats, or forgets ----------

  /** A new connection starts just after the last message seen iff it is in time and does not repeat. */
  lemma ConnectCompleteIff(cfg: Config, n: Net, now: int)
    requires Inv(cfg, n) && StepOk(n, Connect(now)) && n.link.Down?
    ensures Next(cfg, n, Connect(now)).link.from == n.seen <==> InTime(cfg, n, now) && !Repeats(cfg, n, now)
  {
    ConnectOpens(cfg, n, now);
    ResumesWhereLeftIff(n.channel, n.seen, now, cfg.limits);
    if n.seen > 0 { ConnectRepeatsIff(cfg, n, now); }
  }

  /**
    A connect sends the last received message again if and only if the reader has forgotten its
    place while that message is still retained.
   */
  lemma ConnectRepeatsIff(cfg: Config, n: Net, now: int)
    requires Inv(cfg, n) && StepOk(n, Connect(now)) && n.link.Down? && n.seen > 0
    ensures Next(cfg, n, Connect(now)).link.from < n.seen <==> Repeats(cfg, n, now)
  {
    PruneExact(n.channel, now, cfg.limits);
    ConnectOpens(cfg, n, now);
    if Remembers(n) { ReplayResumes(n.channel, n.seen, n.lastId, now); }
  }

  /**
    A reader that remembers loses its place when a connection ends if and only if new streams start
    with an empty last event ID buffer, something was received before, and this connection got
    through with heartbeats only.
   */
  lemma ForgetsIff(cfg: Config, n: Net, k: nat)
    requires Inv(cfg, n) && n.link.Up? && Remembers(n)
    ensures !Remembers(Next(cfg, n, Drop(k)))
       <==> !cfg.carriesOver && n.received != [] && Got(n, k) != [] && Events(Got(n, k)) == []
  {
    hide Heard, Got, InOrderOnce;
    HeardIsGot(cfg, n, k);
    HeardIsRun(cfg, n, k);
    HeardId(cfg, n, k);
    var got := Heard(cfg, n, k).events;
    if got != [] {
      var last := n.link.from + |got| - 1;
      assert got[|got| - 1] == MessageOf(n.channel.hist[last].envelope);
    }
  }

  lemma CarryingKeeps(cfg: Config, n: Net, step: Step)
    requires Inv(cfg, n) && cfg.carriesOver && Remembers(n)
    ensures Remembers(Next(cfg, n, step))
  {
    hide Inv, Heard;
    if step.Drop? && n.link.Up? { ForgetsIff(cfg, n, step.arrived); }
  }

  /** Browsers that carry the id over to the next stream never forget. */
  lemma {:induction false} CarryingOverRemembers(cfg: Config, steps: seq<Step>)
    requires Plausible(cfg, steps) && cfg.carriesOver
    ensures NeverRepeats(cfg, steps) && Remembers(Run(cfg, steps))
    decreases |steps|
  {
    hide Run, Next, Plausible, Inv, StepOk;
    if steps == [] {
      EmptyRun(cfg);
    } else {
      var before := steps[..|steps| - 1];
      PlausiblePrefix(cfg, steps);
      CarryingOverRemembers(cfg, before);
      RunKeeps(cfg, before);
      RunLast(cfg, steps);
      CarryingKeeps(cfg, Run(cfg, before), steps[|steps| - 1]);
    }
  }

  lemma EmptyRun(cfg: Config)
    ensures Run(cfg, []) == INITIAL && Plausible(cfg, [])
  {}

  lemma AfterOneMore(cfg: Config, steps: seq<Step>, step: Step)
    ensures Run(cfg, steps + [step]) == Next(cfg, Run(cfg, steps), step)
    ensures Plausible(cfg, steps + [step]) <==> Plausible(cfg, steps) && StepOk(Run(cfg, steps), step)
  {
    var all := steps + [step];
    assert all[..|all| - 1] == steps;
  }

  lemma HeardOne(cfg: Config, n: Net, item: Item)
    requires n.link.Up? && n.link.items == [item] && Writable(item)
    ensures Heard(cfg, n, |Text(item)|).events == Events([item])
    ensures Heard(cfg, n, |Text(item)|).lastEventId == if item.Frame? then item.id else Seed(cfg, n)
  {
    var start := Start(Seed(cfg, n), n.lastId);
    assert [item][1..] == [];
    var text := Text(item);
    assert Wire(n.link.items) == text + "" == text;
    assert text[..Min(|text|, |text|)] == text;
    RoundTrip(start, [item]);
    assert start.events + Events([item]) == Events([item]);
    assert IdAfter(start.idBuffer, n.lastId, [item]) == if item.Frame? then item.id else Seed(cfg, n);
  }

  lemma FirstPublish(cfg: Config, e: Envelope)
    requires cfg.limits.bufferSize > 0 && e.id != "" && Writable(FrameOf(e))
    ensures StepOk(INITIAL, Publish(e, 0))
    ensures var entry := BufferEntry(e, cfg.limits.ttlMs);
            Next(cfg, INITIAL, Publish(e, 0)) == Net(Channel([entry], [entry], 0), Down, [], "", 0)
  {
    var entry := BufferEntry(e, cfg.limits.ttlMs);
    assert [] + [entry] == [entry];
  }

  /** Connecting and receiving the one event of a session, then reconnecting to a quiet stream. */
  lemma FirstDelivery(cfg: Config, e: Envelope, n: Net, entry: BufferEntry)
    requires entry.envelope == e && 0 < entry.expiresAt && e.id != "" && Writable(FrameOf(e))
    requires n == Net(Channel([entry], [entry], 0), Down, [], "", 0)
    ensures var up := Next(cfg, n, Connect(0));
            var down := Next(cfg, up, Drop(|Text(FrameOf(e))|));
            && down == n.(received := [MessageOf(e)], lastId := e.id, seen := 1)
            && Next(cfg, down, Connect(0)) == down.(link := Up([], 1))
  {
    var up := Next(cfg, n, Connect(0));
    assert Frames([entry]) == [FrameOf(e)];
    assert Since(Prune([entry], 0), "") == [entry];
    assert up == n.(link := Up([FrameOf(e)], 0));
    HeardOne(cfg, up, FrameOf(e));
    EventsOfOne(FrameOf(e));
    var down := Next(cfg, up, Drop(|Text(FrameOf(e))|));
    assert FindId([entry], e.id) == 0;
    assert Since([entry], e.id) == [];
  }

  /** The quiet stream brings one keep-alive comment and ends. */
  lemma QuietStreamForgets(cfg: Config, n: Net, from: nat)
    requires !cfg.carriesOver && n.link == Up([], from)
    ensures Next(cfg, Next(cfg, n, Beat), Drop(|Text(Heartbeat)|)) == n.(link := Down, lastId := "")
  {
    var beat := Next(cfg, n, Beat);
    assert beat.link.items == [Heartbeat];
    HeardOne(cfg, beat, Heartbeat);
    EventsOfOne(Heartbeat);
    assert n.received + [] == n.received;
  }

  lemma ReplayedAgain(cfg: Config, e: Envelope, n: Net, entry: BufferEntry)
    requires entry.envelope == e && 0 < entry.expiresAt && Writable(FrameOf(e))
    requires n == Net(Channel([entry], [entry], 0), Down, [MessageOf(e)], "", 1)
    ensures var up := Next(cfg, n, Connect(0));
            && up.channel.hist == [entry]
            && Arrived(cfg, up, |Text(FrameOf(e))|) == [MessageOf(e), MessageOf(e)]
  {
    var up := Next(cfg, n, Connect(0));
    assert Frames([entry]) == [FrameOf(e)];
    assert Since(Prune([entry], 0), "") == [entry];
    assert up.link == Up([FrameOf(e)], 0);
    HeardOne(cfg, up, FrameOf(e));
    EventsOfOne(FrameOf(e));
  }

  /**
    With streams that start as section 9.2.6 says, one keep-alive comment on a quiet reconnect is
    enough to receive the same message twice.
   */
  lemma {:induction false} HeartbeatCausesDuplicate(cfg: Config, e: Envelope)
    requires !cfg.carriesOver && cfg.limits.bufferSize > 0 && cfg.limits.ttlMs > 0
    requires e.id != "" && Writable(FrameOf(e))
    ensures exists steps, k ::
              && Plausible(cfg, steps)
              && Run(cfg, steps).channel.hist == [BufferEntry(e, cfg.limits.ttlMs)]
              && Arrived(cfg, Run(cfg, steps), k) == [MessageOf(e), MessageOf(e)]
  {
    hide Run, Next, Plausible, Arrived, Wire, Text;
    EmptyRun(cfg);
    FirstPublish(cfg, e);
    var frame, beat := |Text(FrameOf(e))|, |Text(Heartbeat)|;
    var s0: seq<Step> := [];
    var s1 := s0 + [Publish(e, 0)];
    var s2 := s1 + [Connect(0)];
    var s3 := s2 + [Drop(frame)];
    var s4 := s3 + [Connect(0)];
    var s5 := s4 + [Beat];
    var s6 := s5 + [Drop(beat)];
    var s7 := s6 + [Connect(0)];
    AfterOneMore(cfg, s0, Publish(e, 0));
    AfterOneMore(cfg, s1, Connect(0));
    AfterOneMore(cfg, s2, Drop(frame));
    AfterOneMore(cfg, s3, Connect(0));
    AfterOneMore(cfg, s4, Beat);
    AfterOneMore(cfg, s5, Drop(beat));
    AfterOneMore(cfg, s6, Connect(0));
    var entry := BufferEntry(e, cfg.limits.ttlMs);
    FirstDelivery(cfg, e, Run(cfg, s1), entry);
    QuietStreamForgets(cfg, Run(cfg, s4), 1);
    ReplayedAgain(cfg, e, Run(cfg, s6), entry);
  }
}

/** GET /v2/events/:sessionId - replay what was missed, then subscribe, in one synchronous block. */
module EventsRoute {
  import opened Sse
  import opened ReplayBuffer
  import opened WebhookEventBus
  import opened Delivery

  lemma {:induction false} WireAppend(items: seq<Item>, item: Item)
    ensures Wire(items + [item]) == Wire(items) + Text(item)
    decreases |items|
  {
    var all := items + [item];
    if items == [] {
      assert all[1..] == [];
    } else {
      assert all[1..] == items[1..] + [item];
      WireAppend(items[1..], item);
    }
  }

  function FrameAll(es: seq<Envelope>): (items: seq<Item>)
    ensures |items| == |es|
    ensures forall i | 0 <= i < |items| :: items[i] == FrameOf(es[i])
  {
    seq(|es|, i requires 0 <= i < |es| => FrameOf(es[i]))
  }

  /** `writeEvent` for each replayed envelope. */
  method WriteEvents(replay: seq<Envelope>) returns (written: string)
    ensures written == Wire(FrameAll(replay))
  {
    written := "";
    assert FrameAll(replay[..0]) == [];
    for i := 0 to |replay|
      invariant written == Wire(FrameAll(replay[..i]))
    {
      assert FrameAll(replay[..i + 1]) == FrameAll(replay[..i]) + [FrameOf(replay[i])];
      WireAppend(FrameAll(replay[..i]), FrameOf(replay[i]));
      written := written + ("id: " + replay[i].id + "\n" + "data: " + replay[i].json + "\n\n");
    }
    assert replay[..|replay|] == replay;
  }

  lemma FrameAllOf(entries: seq<BufferEntry>)
    ensures FrameAll(Envelopes(entries)) == Frames(entries)
  {}

  /** The `for` loop over `bus.replay`. */
  method WriteReplay(bus: InMemoryEventBus, sessionId: string, lastEventId: string, now: int)
    returns (written: string, replay: seq<Envelope>)
    requires bus.Valid()
    modifies bus`buffers, bus`channels, bus`disturbed
    ensures bus.Valid()
    ensures replay == Envelopes(Since(Prune(old(bus.Buffer(sessionId)), now), lastEventId))
    ensures written == Wire(Frames(Since(Prune(old(bus.Buffer(sessionId)), now), lastEventId)))
    ensures old(sessionId !in bus.disturbed && bus.InOrder(sessionId, now)) ==>
              ReplaysRetained(replay, old(bus.ChannelOf(sessionId)), lastEventId, now, bus.Bounds())
    ensures bus.History(sessionId) == old(bus.History(sessionId))
  {
    hide *;
    ghost var entries := Since(Prune(bus.Buffer(sessionId), now), lastEventId);
    replay := bus.Replay(sessionId, lastEventId, now);
    FrameAllOf(entries);
    written := WriteEvents(replay);
  }

  /**
    What is written is exactly the replay, which for an undisturbed session is exactly what is still
    retained after the last event the reader names; and the connection then hears everything
    published from this very moment on: between the two nothing can be lost or doubled.
   */
  method Open(bus: InMemoryEventBus, sessionId: string, lastEventId: string, now: int)
    returns (written: string, c: Connection, ghost replay: seq<Envelope>)
    requires bus.Valid()
    modifies bus`buffers, bus`channels, bus`disturbed, bus`listeners, bus`conns, bus.listeners.Values
    ensures bus.Valid() && fresh(c) && bus.conns == old(bus.conns) + {c}
    ensures c.sessionId == sessionId && c.active && c.from == |bus.History(sessionId)|
    ensures bus.History(sessionId) == old(bus.History(sessionId))
    ensures written == Wire(FrameAll(replay))
    ensures replay == Envelopes(Since(Prune(old(bus.Buffer(sessionId)), now), lastEventId))
    ensures old(sessionId !in bus.disturbed && bus.InOrder(sessionId, now)) ==>
              ReplaysRetained(replay, old(bus.ChannelOf(sessionId)), lastEventId, now, bus.Bounds())
  {
    hide *;   // only contracts matter here
    FrameAllOf(Since(Prune(bus.Buffer(sessionId), now), lastEventId));
    written, replay := WriteReplay(bus, sessionId, lastEventId, now);
    c := bus.Subscribe(sessionId);
  }

  lemma DropEnvelopes(entries: seq<BufferEntry>, k: nat)
    requires k <= |entries|
    ensures Envelopes(entries[k..]) == Envelopes(entries)[k..]
  {}

  lemma SinceIsSuffix(buf: seq<BufferEntry>, id: string, now: int)
    ensures var r := Envelopes(Since(Prune(buf, now), id));
            |r| <= |buf| && r == Envelopes(buf)[|buf| - |r|..]
  {
    hide Prune, FindId, Envelopes;
    PruneDropsPrefix(buf, now);
    var r := Since(Prune(buf, now), id);
    assert r == buf[|buf| - |r|..];
    DropEnvelopes(buf, |buf| - |r|);
  }

  lemma TailOfTail(buf: seq<BufferEntry>, replay: seq<Envelope>, all: seq<Envelope>, from: nat, bufferSize: int)
    requires from <= |all| && IsTail(buf, all[..from], bufferSize)
    requires |replay| <= |buf| && replay == Envelopes(buf)[|buf| - |replay|..]
    ensures |replay| <= from && replay == all[from - |replay|..from]
  {}

  lemma Seam(replay: seq<Envelope>, heard: seq<Envelope>, all: seq<Envelope>, from: nat, end: nat)
    requires IsWindow(heard, all, from, end)
    requires |replay| <= from && replay == all[from - |replay|..from]
    ensures replay + heard == all[from - |replay|..end]
  {}

  /**
    The seam between replay and live events: however long the connection lasts, what it was
    replayed followed by what it has heard is one unbroken run of the session's history.
   */
  lemma ReplayMeetsLive(bus: InMemoryEventBus, c: Connection, buf: seq<BufferEntry>, id: string, now: int)
    requires bus.Valid() && c in bus.conns && c.from <= |bus.History(c.sessionId)|
    requires IsTail(buf, bus.History(c.sessionId)[..c.from], bus.bufferSize)
    ensures var replay, all := Envelopes(Since(Prune(buf, now), id)), bus.History(c.sessionId);
            && |replay| <= c.from && c.from + |c.heard| <= |all|
            && replay + c.heard == all[c.from - |replay|..c.from + |c.heard|]
            && (c.active ==> c.from + |c.heard| == |all|)
  {
    hide Prune, Since, Envelopes, IsTail, InMemoryEventBus.Registered, InMemoryEventBus.Buffered;
    var all, replay := bus.History(c.sessionId), Envelopes(Since(Prune(buf, now), id));
    assert bus.HeardWindow(c);
    SinceIsSuffix(buf, id, now);
    TailOfTail(buf, replay, all, c.from, bus.bufferSize);
    Seam(replay, c.heard, all, c.from, c.from + |c.heard|);
  }
}
