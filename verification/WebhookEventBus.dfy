/**
  The reference server's InMemoryEventBus: a bounded, expiring replay buffer per session, and live
  fan-out to listener sets that unsubscribe closures keep hold of.
 */
module ReplayBuffer {

  /** `json` is the envelope as JSON.stringify renders it; JSON itself is not part of this model. */
  datatype Envelope = Envelope(id: string, sessionId: string, json: string)

  datatype BufferEntry = BufferEntry(envelope: Envelope, expiresAt: int)

  // ---------- what the code does to one session's buffer ----------

  function Push(buf: seq<BufferEntry>, entry: BufferEntry, bufferSize: int): (r: seq<BufferEntry>) {
    var b := buf + [entry];
    if |b| > bufferSize then b[1..] else b
  }

  function Prune(buf: seq<BufferEntry>, now: int): (r: seq<BufferEntry>) {
    if buf != [] && buf[0].expiresAt <= now then Prune(buf[1..], now) else buf
  }

  /** findIndex, or -1. */
  function FindId(buf: seq<BufferEntry>, id: string): (i: int)
    ensures -1 <= i < |buf|
    ensures i >= 0 ==> buf[i].envelope.id == id
    ensures forall j | 0 <= j < (if i < 0 then |buf| else i) :: buf[j].envelope.id != id
  {
    if buf == [] then -1
    else if buf[0].envelope.id == id then 0
    else
      var i := FindId(buf[1..], id);
      if i < 0 then -1 else i + 1
  }

  /** The empty string stands for an absent id: the code treats both as falsy. */
  function Since(buf: seq<BufferEntry>, id: string): (r: seq<BufferEntry>) {
    var i := if id == "" then -1 else FindId(buf, id);
    buf[i + 1..]
  }

  function Envelopes(entries: seq<BufferEntry>): (es: seq<Envelope>)
    ensures |es| == |entries|
    ensures forall i | 0 <= i < |es| :: es[i] == entries[i].envelope
  {
    seq(|entries|, i requires 0 <= i < |entries| => entries[i].envelope)
  }

  // ---------- the session's whole history beside its buffer ----------

  /** `hist` is everything ever published in the session; `clock` the latest clock reading. */
  datatype Channel = Channel(hist: seq<BufferEntry>, buf: seq<BufferEntry>, clock: int)

  datatype Limits = Limits(bufferSize: int, ttlMs: int)

  function Capacity(limits: Limits): (r: nat) {
    if limits.bufferSize < 0 then 0 else limits.bufferSize
  }

  function Published(c: Channel, envelope: Envelope, now: int, limits: Limits): (r: Channel) {
    var entry := BufferEntry(envelope, now + limits.ttlMs);
    Channel(c.hist + [entry], Push(c.buf, entry, limits.bufferSize), now)
  }

  function Pruned(c: Channel, now: int): (r: Channel) {
    c.(buf := Prune(c.buf, now), clock := now)
  }

  predicate Sorted(entries: seq<BufferEntry>) {
    forall i, j | 0 <= i < j < |entries| :: entries[i].expiresAt <= entries[j].expiresAt
  }

  predicate DistinctIds(entries: seq<BufferEntry>) {
    forall i, j | 0 <= i < j < |entries| :: entries[i].envelope.id != entries[j].envelope.id
  }

  /** Number of events of the session that the buffer no longer holds. */
  function Lost(c: Channel): (r: int) {
    |c.hist| - |c.buf|
  }

  ghost predicate IsSuffix(c: Channel) {
    0 <= Lost(c) && c.buf == c.hist[Lost(c)..]
  }

  /** Everything lost was pushed out by `bufferSize` newer events or had expired. */
  ghost predicate LostForCause(c: Channel, limits: Limits) {
    forall i | 0 <= i < Lost(c) && i < |c.hist| :: i < |c.hist| - Capacity(limits) || c.hist[i].expiresAt <= c.clock
  }

  ghost predicate Tracks(c: Channel, limits: Limits) {
    && IsSuffix(c)
    && |c.buf| <= Capacity(limits)
    && LostForCause(c, limits)
    && Sorted(c.hist)
    && (forall i | 0 <= i < |c.hist| :: c.hist[i].expiresAt <= c.clock + limits.ttlMs)
    && DistinctIds(c.hist)
    && (forall i | 0 <= i < |c.hist| :: c.hist[i].envelope.id != "")
  }

  predicate Fresh(c: Channel, id: string) {
    id != "" && forall i | 0 <= i < |c.hist| :: c.hist[i].envelope.id != id
  }

  /** Event `j` of the session is still owed to a late reader at `now`. */
  predicate Retained(c: Channel, j: int, now: int, limits: Limits)
    requires 0 <= j < |c.hist|
  {
    |c.hist| - Capacity(limits) <= j && now < c.hist[j].expiresAt
  }

  lemma EmptyTracks(limits: Limits, now: int)
    ensures Tracks(Channel([], [], now), limits)
  {}

  /** Publishing keeps the buffer a bounded suffix of the history; the event is owed for `ttlMs`, unless pushed out. */
  lemma PublishTracks(c: Channel, envelope: Envelope, now: int, limits: Limits)
    requires Tracks(c, limits) && c.clock <= now && Fresh(c, envelope.id)
    ensures Tracks(Published(c, envelope, now, limits), limits)
    ensures var d := Published(c, envelope, now, limits);
            && |d.hist| == |c.hist| + 1 && d.hist[..|c.hist|] == c.hist && d.hist[|c.hist|].envelope == envelope
            && forall later :: Retained(d, |c.hist|, later, limits)
                          <==> 0 < limits.bufferSize && later < now + limits.ttlMs
  {
    var d := Published(c, envelope, now, limits);
    var entry := BufferEntry(envelope, now + limits.ttlMs);
    assert c.buf + [entry] == d.hist[Lost(c)..];
    assert d.buf == d.hist[Lost(d)..];
  }

  lemma {:induction false} PruneDropsPrefix(buf: seq<BufferEntry>, now: int)
    ensures var r := Prune(buf, now);
            && |r| <= |buf| && r == buf[|buf| - |r|..]
            && (forall i | 0 <= i < |buf| - |r| :: buf[i].expiresAt <= now)
            && (r != [] ==> now < r[0].expiresAt)
  {
    if buf != [] && buf[0].expiresAt <= now {
      PruneDropsPrefix(buf[1..], now);
      var r := Prune(buf, now);
      assert forall i | 1 <= i < |buf| - |r| :: buf[i] == buf[1..][i - 1];
    }
  }

  lemma PruneIsSuffix(c: Channel, now: int)
    requires IsSuffix(c)
    ensures IsSuffix(Pruned(c, now)) && Lost(c) <= Lost(Pruned(c, now))
    ensures forall i | Lost(c) <= i < Lost(Pruned(c, now)) :: c.hist[i].expiresAt <= now
    ensures Lost(Pruned(c, now)) < |c.hist| ==> now < c.hist[Lost(Pruned(c, now))].expiresAt
  {
    PruneDropsPrefix(c.buf, now);
    assert forall i | 0 <= i < |c.buf| :: c.buf[i] == c.hist[Lost(c) + i];
    assert forall i | Lost(c) <= i < |c.hist| :: c.hist[i] == c.buf[i - Lost(c)];
  }

  lemma PruneTracks(c: Channel, now: int, limits: Limits)
    requires Tracks(c, limits) && c.clock <= now
    ensures Tracks(Pruned(c, now), limits)
  {
    PruneIsSuffix(c, now);
  }

  /** With a nondecreasing clock pruning keeps exactly the events still owed. */
  lemma PruneExact(c: Channel, now: int, limits: Limits)
    requires Tracks(c, limits) && c.clock <= now
    ensures forall j | 0 <= j < |c.hist| :: Lost(Pruned(c, now)) <= j <==> Retained(c, j, now, limits)
  {
    PruneIsSuffix(c, now);
  }

  /** First event a reader gets at `now` after having seen the session's first `seen` events. */
  function ResumePoint(c: Channel, seen: nat, now: int): (r: int) {
    var lost := Lost(Pruned(c, now));
    if seen < lost then lost else seen
  }

  ghost predicate IsLastSeen(c: Channel, seen: nat, id: string) {
    && seen <= |c.hist|
    && id == (if seen == 0 then "" else c.hist[seen - 1].envelope.id)
    && (seen > 0 ==> id != "")
  }

  lemma SinceSkipsSeen(c: Channel, d: Channel, seen: nat, id: string)
    requires IsSuffix(d) && d.hist == c.hist && DistinctIds(c.hist) && IsLastSeen(c, seen, id)
    ensures Since(d.buf, id) == c.hist[if seen < Lost(d) then Lost(d) else seen..]
  {
    var lost := Lost(d);
    assert forall i | 0 <= i < |d.buf| :: d.buf[i] == c.hist[lost + i];
    if seen > lost {
      assert d.buf[seen - 1 - lost].envelope.id == id;
      assert lost + FindId(d.buf, id) == seen - 1;
    } else if seen > 0 {
      assert FindId(d.buf, id) == -1;
    }
  }

  /** A reader resumes with nothing missing iff few enough events were missed and none expired. */
  lemma ResumesWhereLeftIff(c: Channel, seen: nat, now: int, limits: Limits)
    requires Tracks(c, limits) && c.clock <= now && seen <= |c.hist|
    ensures ResumePoint(c, seen, now) == seen
       <==> |c.hist| - seen <= Capacity(limits)
            && forall j | seen <= j < |c.hist| :: now < c.hist[j].expiresAt
  {
    PruneIsSuffix(c, now);
    PruneExact(c, now, limits);
    if seen < |c.hist| {
      assert Retained(c, seen, now, limits) <==> Lost(Pruned(c, now)) <= seen;
    }
  }

  lemma ReplayResumes(c: Channel, seen: nat, id: string, now: int)
    requires IsSuffix(c) && DistinctIds(c.hist) && IsLastSeen(c, seen, id)
    ensures seen <= ResumePoint(c, seen, now) <= |c.hist|
    ensures Since(Prune(c.buf, now), id) == c.hist[ResumePoint(c, seen, now)..]
  {
    PruneIsSuffix(c, now);
    SinceSkipsSeen(c, Pruned(c, now), seen, id);
  }

  /**
    Replay after any id ever published in the session, buffered or already gone, is exactly the
    retained events strictly after it, in publish order; without an id it is all retained events.
   */
  lemma ReplayExact(c: Channel, seen: nat, id: string, now: int, limits: Limits)
    requires Tracks(c, limits) && c.clock <= now && IsLastSeen(c, seen, id)
    ensures seen <= ResumePoint(c, seen, now) <= |c.hist|
    ensures Since(Prune(c.buf, now), id) == c.hist[ResumePoint(c, seen, now)..]
    ensures forall j | 0 <= j < |c.hist| ::
              ResumePoint(c, seen, now) <= j <==> seen <= j && Retained(c, j, now, limits)
  {
    ReplayResumes(c, seen, id, now);
    PruneExact(c, now, limits);
  }
}

module WebhookEventBus {
  import opened ReplayBuffer

  class ListenerSet {
    var members: set<Connection>

    constructor ()
      ensures members == {}
    {
      members := {};
    }
  }

  /**
    The two closures of one `subscribe` call: the listener, which writes what it hears on the
    response, and the unsubscribe function, which captures the set object of that moment rather
    than the session's current set.
   */
  class Connection {
    const sessionId: string
    const captured: ListenerSet
    var heard: seq<Envelope>
    ghost const from: nat      // events of the session published before
    ghost var active: bool     // not yet unsubscribed
    ghost var until: nat       // events of the session published before it was undone

    constructor (sessionId: string, captured: ListenerSet, ghost from: nat)
      ensures this.sessionId == sessionId && this.captured == captured && heard == []
      ensures this.from == from && active
    {
      this.sessionId := sessionId;
      this.captured := captured;
      this.heard := [];
      this.from := from;
      this.active := true;
      this.until := from;
    }
  }

  ghost predicate IsWindow(heard: seq<Envelope>, all: seq<Envelope>, from: nat, end: nat) {
    from <= end <= |all| && heard == all[from..end]
  }

  lemma WindowGrows(heard: seq<Envelope>, all: seq<Envelope>, full: Envelope, from: nat, end: nat)
    requires IsWindow(heard, all, from, end)
    ensures IsWindow(heard, all + [full], from, end)
    ensures end == |all| ==> IsWindow(heard + [full], all + [full], from, |all| + 1)
  {}

  /** The buffer holds the latest events of the session, as many as fit or fewer. */
  ghost predicate IsTail(buf: seq<BufferEntry>, all: seq<Envelope>, bufferSize: int) {
    && |buf| <= (if bufferSize < 0 then 0 else bufferSize)
    && |buf| <= |all| && Envelopes(buf) == all[|all| - |buf|..]
  }

  lemma PushKeepsTail(buf: seq<BufferEntry>, all: seq<Envelope>, entry: BufferEntry, bufferSize: int)
    requires IsTail(buf, all, bufferSize)
    ensures IsTail(Push(buf, entry, bufferSize), all + [entry.envelope], bufferSize)
  {
    var b, more := buf + [entry], all + [entry.envelope];
    assert Envelopes(b) == Envelopes(buf) + [entry.envelope] == more[|more| - |b|..];
    assert Envelopes(b[1..]) == Envelopes(b)[1..];
  }

  lemma PruneKeepsTail(buf: seq<BufferEntry>, all: seq<Envelope>, now: int, bufferSize: int)
    requires IsTail(buf, all, bufferSize)
    ensures IsTail(Prune(buf, now), all, bufferSize)
  {
    PruneDropsPrefix(buf, now);
    var r := Prune(buf, now);
    assert Envelopes(r) == Envelopes(buf)[|buf| - |r|..];
  }

  lemma NothingSince(id: string, now: int)
    ensures Envelopes(Since(Prune([], now), id)) == []
  {}

  lemma PublishedHistory(c: Channel, full: Envelope, now: int, limits: Limits)
    ensures Envelopes(Published(c, full, now, limits).hist) == Envelopes(c.hist) + [full]
  {}

  /** `events` are exactly the events still retained after the first `seen`, whose last one is `id`. */
  ghost predicate ReplaysRetained(events: seq<Envelope>, c: Channel, id: string, now: int, limits: Limits) {
    forall seen: nat | IsLastSeen(c, seen, id) ::
      var at := ResumePoint(c, seen, now);
      && seen <= at <= |c.hist| && events == Envelopes(c.hist[at..])
      && forall j | 0 <= j < |c.hist| :: at <= j <==> seen <= j && Retained(c, j, now, limits)
  }

  /** `known` tells whether the session has published anything; if not, its clock means nothing. */
  lemma RetainedReplay(c: Channel, id: string, now: int, limits: Limits, known: bool)
    requires Tracks(c, limits) && (known ==> c.clock <= now) && (!known ==> c.hist == [])
    ensures ReplaysRetained(Envelopes(Since(Prune(c.buf, now), id)), c, id, now, limits)
  {
    hide Tracks, Since, Retained;
    forall seen: nat | IsLastSeen(c, seen, id)
      ensures var at := ResumePoint(c, seen, now);
              && seen <= at <= |c.hist| && Since(Prune(c.buf, now), id) == c.hist[at..]
              && forall j | 0 <= j < |c.hist| :: at <= j <==> seen <= j && Retained(c, j, now, limits)
    {
      if known { ReplayExact(c, seen, id, now, limits); } else { EmptyReplay(c, seen, id, now, limits); }
    }
  }

  lemma EmptyReplay(c: Channel, seen: nat, id: string, now: int, limits: Limits)
    requires Tracks(c, limits) && c.hist == [] && IsLastSeen(c, seen, id)
    ensures seen == ResumePoint(c, seen, now) == 0 && Since(Prune(c.buf, now), id) == []
  {}

  /** The buffer is a tail of the session's history and, unless that was disturbed, nothing left it without cause. */
  ghost predicate SessionOk(buf: seq<BufferEntry>, c: Channel, disturbed: bool, limits: Limits) {
    && buf == c.buf
    && IsTail(buf, Envelopes(c.hist), limits.bufferSize)
    && (!disturbed ==> Tracks(c, limits))
  }

  ghost predicate AllOk(buffers: map<string, seq<BufferEntry>>, channels: map<string, Channel>, disturbed: set<string>,
                        limits: Limits)
  {
    && buffers.Keys == channels.Keys
    && forall sid | sid in channels :: SessionOk(buffers[sid], channels[sid], sid in disturbed, limits)
  }

  lemma SameSessions(buffers: map<string, seq<BufferEntry>>, channels: map<string, Channel>, disturbed: set<string>,
                     limits: Limits)
    requires AllOk(buffers, channels, disturbed, limits)
    ensures buffers.Keys == channels.Keys
    ensures forall sid | sid in channels :: buffers[sid] == channels[sid].buf
    ensures forall sid | sid in channels && sid !in disturbed :: Tracks(channels[sid], limits)
  {}

  lemma PublishSessionOk(c: Channel, full: Envelope, now: int, disturbed: bool, limits: Limits)
    requires SessionOk(c.buf, c, disturbed, limits)
    ensures var d := Published(c, full, now, limits);
            SessionOk(d.buf, d, disturbed || now < c.clock || !Fresh(c, full.id), limits)
  {
    hide Push, Tracks, Fresh, IsTail, Envelopes;
    PushKeepsTail(c.buf, Envelopes(c.hist), BufferEntry(full, now + limits.ttlMs), limits.bufferSize);
    PublishedHistory(c, full, now, limits);
    if !disturbed && c.clock <= now && Fresh(c, full.id) { PublishTracks(c, full, now, limits); }
  }

  lemma NewSessionOk(full: Envelope, now: int, disturbed: bool, limits: Limits)
    ensures var d := Published(Channel([], [], 0), full, now, limits);
            SessionOk(d.buf, d, disturbed || !Fresh(Channel([], [], 0), full.id), limits)
  {
    hide Push;
    PublishSessionOk(Channel([], [], now), full, now, disturbed, limits);
  }

  lemma PublishOk(buffers: map<string, seq<BufferEntry>>, channels: map<string, Channel>, disturbed: set<string>,
                  limits: Limits, sid: string, full: Envelope, now: int)
    requires AllOk(buffers, channels, disturbed, limits)
    ensures var c := if sid in channels then channels[sid] else Channel([], [], 0);
            var regular := (sid in channels ==> c.clock <= now) && Fresh(c, full.id);
            var d := Published(c, full, now, limits);
            && c.buf == (if sid in buffers then buffers[sid] else [])
            && AllOk(buffers[sid := d.buf], channels[sid := d], if regular then disturbed else disturbed + {sid}, limits)
  {
    hide Push, Tracks, Fresh, IsTail, Envelopes;
    if sid in channels {
      PublishSessionOk(channels[sid], full, now, sid in disturbed, limits);
    } else {
      NewSessionOk(full, now, sid in disturbed, limits);
    }
  }

  lemma PruneOk(buffers: map<string, seq<BufferEntry>>, channels: map<string, Channel>, disturbed: set<string>,
                limits: Limits, sid: string, now: int)
    requires AllOk(buffers, channels, disturbed, limits) && sid in channels
    ensures var c := channels[sid];
            var d := Pruned(c, now);
            && buffers[sid] == c.buf
            && AllOk(buffers[sid := d.buf], channels[sid := d],
                     if c.clock <= now then disturbed else disturbed + {sid}, limits)
  {
    hide Tracks, IsTail, Envelopes, Prune;
    var c := channels[sid];
    PruneKeepsTail(c.buf, Envelopes(c.hist), now, limits.bufferSize);
    if sid !in disturbed && c.clock <= now { PruneTracks(c, now, limits); }
  }

  class InMemoryEventBus {
    const bufferSize: int
    const ttlMs: int
    var buffers: map<string, seq<BufferEntry>>
    var listeners: map<string, ListenerSet>
    ghost var channels: map<string, Channel>   // the sessions with all they ever published
    ghost var disturbed: set<string>           // those for which the clock went back or an id repeated
    ghost var conns: set<Connection>           // every connection ever subscribed

    function Bounds(): (r: Limits) {
      Limits(bufferSize, ttlMs)
    }

    ghost function ChannelOf(sessionId: string): (r: Channel)
      reads this`channels
    {
      if sessionId in channels then channels[sessionId] else Channel([], [], 0)
    }

    ghost function History(sessionId: string): (r: seq<Envelope>)
      reads this`channels
    {
      Envelopes(ChannelOf(sessionId).hist)
    }

    /** The session's clock has not gone back. */
    ghost predicate InOrder(sessionId: string, now: int)
      reads this`channels
    {
      sessionId in channels ==> channels[sessionId].clock <= now
    }

    function Buffer(sessionId: string): (r: seq<BufferEntry>)
      reads this`buffers
    {
      if sessionId in buffers then buffers[sessionId] else []
    }

    ghost function Active(sessionId: string): (r: set<Connection>)
      reads this`conns, conns`active
    {
      set c | c in conns && c.active && c.sessionId == sessionId
    }

    /** The set the connection captured is still its session's set. */
    ghost predicate IsCurrent(c: Connection)
      reads this`listeners
    {
      c.sessionId in listeners && listeners[c.sessionId] == c.captured
    }

    ghost function Captured(): (r: set<ListenerSet>)
      reads this`conns
    {
      set c | c in conns :: c.captured
    }

    /**
      The map's keys are exactly the sessions with a non-empty set, each set holds exactly the
      session's active connections, every active connection captured its session's current set,
      and sets that are no longer current are empty.
     */
    ghost predicate Registered()
      reads this`listeners, this`conns, conns`active, listeners.Values`members
      reads (set c | c in conns :: c.captured)`members
    {
      && (forall sid | sid in listeners :: listeners[sid].members == Active(sid) && Active(sid) != {})
      && (forall c | c in conns && c.active :: IsCurrent(c))
      && (forall c | c in conns :: IsCurrent(c) || c.captured.members == {})
    }

    /** What a listener was given: its session's events between its subscribe and unsubscribe. */
    ghost predicate HeardWindow(c: Connection)
      reads this`channels, c
    {
      var all := History(c.sessionId);
      IsWindow(c.heard, all, c.from, if c.active then |all| else c.until)
    }

    ghost predicate HeardWindows()
      reads this`channels, this`conns, conns
    {
      forall c | c in conns :: HeardWindow(c)
    }

    ghost predicate Buffered()
      reads this`buffers, this`channels, this`disturbed
    {
      AllOk(buffers, channels, disturbed, Bounds())
    }

    ghost predicate Valid()
      reads this, conns, listeners.Values`members, (set c | c in conns :: c.captured)`members
    {
      Buffered() && Registered() && HeardWindows()
    }

    constructor (bufferSize: int, ttlMs: int)
      ensures Valid() && buffers == map[] && listeners == map[] && conns == {} && channels == map[] && disturbed == {}
      ensures this.bufferSize == bufferSize && this.ttlMs == ttlMs
    {
      this.bufferSize := bufferSize;
      this.ttlMs := ttlMs;
      buffers := map[];
      listeners := map[];
      channels := map[];
      disturbed := {};
      conns := {};
    }

    /** Undoing one active subscription leaves every other connection registered as it was. */
    twostate lemma RegisteredAfterUnsubscribe(c: Connection)
      requires old(Registered()) && c in conns && conns == old(conns) && old(c.active)
      requires !c.active && forall d | d in conns && d != c :: d.active == old(d.active)
      requires c.captured.members == old(c.captured.members) - {c}
      requires forall l | l in old(listeners).Values + Captured() && l != c.captured :: l.members == old(l.members)
      requires listeners == if c.captured.members == {} then old(listeners) - {c.sessionId} else old(listeners)
      ensures Registered()
    {
      var mine := c.sessionId;
      assert old(listeners[mine]) == c.captured;
      assert Active(mine) == old(Active(mine)) - {c};
      forall sid | sid in old(listeners) && sid != mine
        ensures old(listeners[sid]) != c.captured && Active(sid) == old(Active(sid))
      {
        assert c !in old(Active(sid));
      }
      forall d | d in conns
        ensures d.active ==> IsCurrent(d)
        ensures IsCurrent(d) || d.captured.members == {}
      {
        assert d.captured in Captured();
        assert old(IsCurrent(d)) || old(d.captured.members) == {};
        if d.active { assert d in old(Active(d.sessionId)) && d in Active(d.sessionId); }
      }
    }

    /** Undoing it again is harmless iff no newer set has replaced the one it captured. */
    twostate lemma RegisteredAfterSecondCall(c: Connection)
      requires old(Registered()) && c in conns && conns == old(conns) && !old(c.active)
      requires forall d | d in conns :: d.active == old(d.active)
      requires c.captured.members == old(c.captured.members) - {c}
      requires forall l | l in old(listeners).Values + Captured() && l != c.captured :: l.members == old(l.members)
      requires listeners == if c.captured.members == {} then old(listeners) - {c.sessionId} else old(listeners)
      ensures Registered() <==> c.sessionId !in old(listeners) || old(IsCurrent(c))
    {
      assert c.captured in Captured();
      forall sid | sid in old(listeners)
        ensures Active(sid) == old(Active(sid)) && c !in Active(sid)
      {}
      assert c.captured.members == old(c.captured.members);
      if c.sessionId in old(listeners) && !old(IsCurrent(c)) {
        var d :| d in old(Active(c.sessionId));
        assert d.active && !IsCurrent(d);
      } else {
        assert listeners == old(listeners);
        forall d | d in conns
          ensures (d.active ==> IsCurrent(d)) && (IsCurrent(d) || d.captured.members == {})
        {
          assert d.captured in Captured();
          assert old(IsCurrent(d)) || old(d.captured.members) == {};
        }
      }
    }

    /** `current` is the session's set, or a new one when it had none. */
    twostate lemma RegisteredAfterSubscribe(sessionId: string, new current: ListenerSet, new c: Connection)
      requires old(Registered()) && c !in old(conns) && conns == old(conns) + {c}
      requires c.sessionId == sessionId && c.captured == current && c.active
      requires forall d | d in old(conns) :: d.active == old(d.active)
      requires listeners == old(listeners)[sessionId := current]
      requires if sessionId in old(listeners) then current == old(listeners[sessionId]) else fresh(current)
      requires current.members == old(Active(sessionId)) + {c}
      requires forall l | l in old(listeners).Values + old(Captured()) && l != current :: l.members == old(l.members)
      ensures Registered()
    {
      assert Active(sessionId) == old(Active(sessionId)) + {c};
      forall sid | sid in old(listeners) && sid != sessionId
        ensures listeners[sid] != current && Active(sid) == old(Active(sid))
      {
        var d :| d in old(Active(sid));
        assert d !in old(Active(sessionId));
      }
      forall d | d in old(conns)
        ensures d.active ==> IsCurrent(d)
        ensures IsCurrent(d) || d.captured.members == {}
      {
        assert d.captured in old(Captured());
        assert old(IsCurrent(d)) || old(d.captured.members) == {};
      }
    }

    /** Every member of the session's set hears the envelope once; nobody else does. */
    method Notify(sessionId: string, full: Envelope)
      requires Registered()
      modifies conns`heard
      ensures forall c | c in conns ::
                c.heard == old(c.heard) + (if c.active && c.sessionId == sessionId then [full] else [])
    {
      if sessionId in listeners {
        var members := listeners[sessionId].members;
        var rest := members;
        while rest != {}
          invariant rest <= members
          invariant forall c | c in conns ::
                      c.heard == old(c.heard) + (if c in members - rest then [full] else [])
          decreases rest
        {
          var l :| l in rest;
          l.heard := l.heard + [full];
          rest := rest - {l};
        }
      }
    }

    method Record(sessionId: string, full: Envelope, ghost now: int)
      requires Registered() && HeardWindows()
      modifies this`channels, conns`heard
      ensures Registered() && HeardWindows()
      ensures channels == old(channels)[sessionId := Published(old(ChannelOf(sessionId)), full, now, Bounds())]
      ensures forall c | c in conns ::
                c.heard == old(c.heard) + (if c.active && c.sessionId == sessionId then [full] else [])
    {
      hide Registered;
      ghost var before := ChannelOf(sessionId);
      Notify(sessionId, full);
      channels := channels[sessionId := Published(before, full, now, Bounds())];
      PublishedHistory(before, full, now, Bounds());
      forall c | c in conns
        ensures HeardWindow(c)
      {
        assert old(HeardWindow(c));
        var all := old(History(c.sessionId));
        if c.sessionId == sessionId {
          WindowGrows(old(c.heard), all, full, c.from, if c.active then |all| else c.until);
        } else {
          assert History(c.sessionId) == all;
        }
      }
    }

    /** `id` is the fresh UUID, `now` the clock. */
    method Publish(sessionId: string, json: string, id: string, now: int) returns (full: Envelope)
      requires Valid()
      modifies this`buffers, this`channels, this`disturbed, conns`heard
      ensures Valid()
      ensures full == Envelope(id, sessionId, json)
      ensures channels == old(channels)[sessionId := Published(old(ChannelOf(sessionId)), full, now, Bounds())]
      ensures History(sessionId) == old(History(sessionId)) + [full]
      ensures disturbed == if old(InOrder(sessionId, now)) && Fresh(old(ChannelOf(sessionId)), id)
                           then old(disturbed) else old(disturbed) + {sessionId}
      ensures buffers
           == old(buffers)[sessionId := Push(old(Buffer(sessionId)), BufferEntry(full, now + ttlMs), bufferSize)]
      ensures forall c | c in conns ::
                c.heard == old(c.heard) + (if c.active && c.sessionId == sessionId then [full] else [])
    {
      hide AllOk, Push, Registered, HeardWindows, Fresh, Envelopes;
      full := Envelope(id, sessionId, json);
      ghost var before := ChannelOf(sessionId);
      ghost var regular := InOrder(sessionId, now) && Fresh(before, id);
      PublishOk(buffers, channels, disturbed, Bounds(), sessionId, full, now);
      PublishedHistory(before, full, now, Bounds());
      buffers := buffers[sessionId := Push(Buffer(sessionId), BufferEntry(full, now + ttlMs), bufferSize)];
      if !regular {
        disturbed := disturbed + {sessionId};
      }
      Record(sessionId, full, now);
    }

    lemma ActiveOf(sessionId: string)
      requires Registered()
      ensures Active(sessionId) == if sessionId in listeners then listeners[sessionId].members else {}
    {
      if sessionId !in listeners { assert Active(sessionId) == {}; }
    }

    method Subscribe(sessionId: string) returns (c: Connection)
      requires Valid()
      modifies this`listeners, this`conns, listeners.Values
      ensures Valid() && fresh(c) && conns == old(conns) + {c}
      ensures sessionId !in old(listeners) ==> fresh(c.captured)
      ensures c.sessionId == sessionId && c.active && c.from == |History(sessionId)|
    {
      hide Registered, Active, IsCurrent, AllOk, Envelopes;
      ActiveOf(sessionId);
      var current;
      if sessionId in listeners {
        current := listeners[sessionId];
      } else {
        current := new ListenerSet();
        listeners := listeners[sessionId := current];
      }
      c := new Connection(sessionId, current, |History(sessionId)|);
      current.members := current.members + {c};
      conns := conns + {c};
      RegisteredAfterSubscribe(sessionId, current, c);
      forall d | d in conns
        ensures HeardWindow(d)
      {
        if d != c { assert old(HeardWindow(d)); }
      }
    }

    /** Calling the unsubscribe closure, for the first time or again. */
    method Unsubscribe(c: Connection)
      modifies this`listeners, c`active, c`until, c.captured
      ensures c.captured.members == old(c.captured.members) - {c}
      ensures listeners == if c.captured.members == {} then old(listeners) - {c.sessionId} else old(listeners)
      ensures !c.active
      ensures old(Valid()) && c in conns && old(c.active) ==> Valid() && c.until == |History(c.sessionId)|
      ensures old(Valid()) && c in conns && !old(c.active) ==>
                (Valid() <==> c.sessionId !in old(listeners) || old(IsCurrent(c)))
    {
      hide Registered, Active, IsWindow, AllOk, Envelopes;
      ghost var first := c.active;
      c.captured.members := c.captured.members - {c};
      if c.captured.members == {} { listeners := listeners - {c.sessionId}; }
      if c.active {
        c.active := false;
        c.until := |History(c.sessionId)|;
      }
      if old(Valid()) && c in conns {
        if first { RegisteredAfterUnsubscribe(c); } else { RegisteredAfterSecondCall(c); }
      }
    }

    /** "Drop expired entries lazily on access". */
    method DropExpired(sessionId: string, now: int)
      requires Valid() && sessionId in buffers
      modifies this`buffers, this`channels, this`disturbed
      ensures Valid()
      ensures channels == old(channels)[sessionId := Pruned(old(ChannelOf(sessionId)), now)]
      ensures buffers == old(buffers)[sessionId := Prune(old(Buffer(sessionId)), now)]
      ensures forall sid :: History(sid) == old(History(sid))
      ensures disturbed == if old(InOrder(sessionId, now)) then old(disturbed) else old(disturbed) + {sessionId}
    {
      hide AllOk, Registered, Envelopes, IsWindow;
      ghost var before := ChannelOf(sessionId);
      SameSessions(buffers, channels, disturbed, Bounds());
      PruneOk(buffers, channels, disturbed, Bounds(), sessionId, now);
      if !InOrder(sessionId, now) {
        disturbed := disturbed + {sessionId};
      }
      var buf := buffers[sessionId];
      while |buf| > 0 && buf[0].expiresAt <= now
        invariant Prune(buf, now) == Prune(old(buffers[sessionId]), now)
      {
        buf := buf[1..];
      }
      buffers := buffers[sessionId := buf];
      channels := channels[sessionId := Pruned(before, now)];
      forall c | c in conns
        ensures HeardWindow(c)
      {
        assert old(HeardWindow(c));
      }
    }

    /**
      Unless the session was disturbed, a reader that has seen its first `seen` events, the last one
      being `sinceEventId`, gets exactly the retained events after those.
     */
    method Replay(sessionId: string, sinceEventId: string, now: int) returns (events: seq<Envelope>)
      requires Valid()
      modifies this`buffers, this`channels, this`disturbed
      ensures Valid()
      ensures channels == if sessionId in old(channels)
                          then old(channels)[sessionId := Pruned(old(ChannelOf(sessionId)), now)]
                          else old(channels)
      ensures buffers == if sessionId in old(buffers)
                         then old(buffers)[sessionId := Prune(old(Buffer(sessionId)), now)]
                         else old(buffers)
      ensures forall sid :: History(sid) == old(History(sid))
      ensures disturbed == if old(InOrder(sessionId, now)) then old(disturbed) else old(disturbed) + {sessionId}
      ensures events == Envelopes(Since(Prune(old(Buffer(sessionId)), now), sinceEventId))
      ensures old(sessionId !in disturbed && InOrder(sessionId, now)) ==>
                ReplaysRetained(events, old(ChannelOf(sessionId)), sinceEventId, now, Bounds())
    {
      hide AllOk, Registered, HeardWindows, HeardWindow, Since, Envelopes, ReplaysRetained, Prune;
      ghost var before := ChannelOf(sessionId);
      SameSessions(buffers, channels, disturbed, Bounds());
      if sessionId !in disturbed && InOrder(sessionId, now) {
        EmptyTracks(Bounds(), 0);
        RetainedReplay(before, sinceEventId, now, Bounds(), sessionId in channels);
      }
      if sessionId !in buffers {
        NothingSince(sinceEventId, now);
        return [];
      }
      DropExpired(sessionId, now);
      events := Envelopes(Since(buffers[sessionId], sinceEventId));
    }
  }

  /** A bus on which "s" was subscribed and unsubscribed once: the old set object is empty. */
  method SubscribedAndLeft() returns (bus: InMemoryEventBus, a: Connection)
    ensures fresh(bus) && fresh(a) && fresh(a.captured) && bus.Valid()
    ensures bus.listeners == map[] && bus.conns == {a} && !a.active && a.sessionId == "s" && a.captured.members == {}
  {
    hide IsTail, IsWindow, InMemoryEventBus.Buffered, InMemoryEventBus.HeardWindow;
    bus := new InMemoryEventBus(50, 300000);
    a := bus.Subscribe("s");
    assert bus.Active("s") == {a};
    bus.Unsubscribe(a);
  }

  /**
    Why each closure may be called only once: "unsubscribe a, subscribe b, unsubscribe a again"
    takes the session out of the map although b is still in its set, so b hears nothing more.
   */
  method SecondCallEvictsNewcomer() returns (bus: InMemoryEventBus, b: Connection)
    ensures b.active && b in b.captured.members && b.sessionId !in bus.listeners
  {
    hide IsTail, IsWindow, InMemoryEventBus.Buffered, InMemoryEventBus.HeardWindow;
    var a;
    bus, a := SubscribedAndLeft();
    b := bus.Subscribe("s");
    assert b in bus.Active("s") && bus.listeners["s"] == b.captured;
    assert a.captured != b.captured;
    bus.Unsubscribe(a);
  }
}
