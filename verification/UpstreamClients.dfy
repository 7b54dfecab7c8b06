/** An upstream call as both clients make it: the breaker around the retry loop around one request. */
module UpstreamCall {
  import opened Options
  import opened Errors
  import opened Retry
  import CB = CircuitBreaker

  datatype Result<+T> = CircuitOpen | Ended(outcome: Outcome<T>)

  /**
    A call by its number among the breaker's operations, the clock when it begins and ends, and what
    happens to the shared breaker in between: other calls begin and end while this one awaits.
   */
  datatype Timing = Timing(op: nat, begin: int, during: seq<CB.Event>, end: int)

  /** What the end of a call tells the breaker: only retryable and unknown errors are failures. */
  function Settlement<T>(o: Outcome<T>, op: nat, now: int): (r: CB.Event) {
    match o
    case Settled(Done(_)) => CB.Success(op, now)
    case Settled(Failed(_, retryable)) => if retryable then CB.Failure(op, now) else CB.CallerError(op, now)
    case Settled(Thrown) => CB.Failure(op, now)
    case DeadlineExceeded => CB.CallerError(op, now)
    case Exhausted => CB.Failure(op, now)
  }

  function FoldEvents(cfg: CB.Config, b: CB.Breaker, es: seq<CB.Event>): (r: CB.Breaker)
    decreases |es|
  {
    if es == [] then b else FoldEvents(cfg, CB.Next(cfg, b, es[0]), es[1..])
  }

  predicate Admitted(cfg: CB.Config, b: CB.Breaker, now: int) {
    CB.CheckOpen(cfg, b, now).state != CB.Open
  }

  /** Everything the breaker sees from the beginning of a call to its end. */
  function Events<T>(cfg: CB.Config, b: CB.Breaker, p: Policy, w: World<T>, t: Timing): (r: seq<CB.Event>) {
    if Admitted(cfg, b, t.begin) then [CB.Begin(t.op, t.begin)] + t.during + [Settlement(Attempts(p, w, 0).1, t.op, t.end)]
    else [CB.Begin(t.op, t.begin)]
  }

  /** The attempts of a call; none when the breaker is open. */
  function Made<T>(cfg: CB.Config, b: CB.Breaker, p: Policy, w: World<T>, t: Timing): (r: seq<Attempt<T>>) {
    if Admitted(cfg, b, t.begin) then Attempts(p, w, 0).0 else []
  }

  function Ending<T>(cfg: CB.Config, b: CB.Breaker, p: Policy, w: World<T>, t: Timing): (r: Result<T>) {
    if Admitted(cfg, b, t.begin) then Ended(Attempts(p, w, 0).1) else CircuitOpen
  }

  lemma {:induction false} FoldConcat(cfg: CB.Config, b: CB.Breaker, xs: seq<CB.Event>, ys: seq<CB.Event>)
    ensures FoldEvents(cfg, b, xs + ys) == FoldEvents(cfg, FoldEvents(cfg, b, xs), ys)
    decreases |xs|
  {
    if xs == [] {
      assert xs + ys == ys;
    } else {
      assert (xs + ys)[0] == xs[0] && (xs + ys)[1..] == xs[1..] + ys;
      FoldConcat(cfg, CB.Next(cfg, b, xs[0]), xs[1..], ys);
    }
  }

  lemma FoldOne(cfg: CB.Config, b: CB.Breaker, e: CB.Event)
    ensures FoldEvents(cfg, b, [e]) == CB.Next(cfg, b, e)
  {
    assert [e][1..] == [];
  }

  /** Events after a run are the run continued. */
  lemma {:induction false} FoldIsRun(cfg: CB.Config, es: seq<CB.Event>, more: seq<CB.Event>)
    ensures FoldEvents(cfg, CB.Run(cfg, es), more) == CB.Run(cfg, es + more)
    decreases |more|
  {
    if more == [] {
      assert es + more == es;
    } else {
      CB.RunOneMore(cfg, es, more[0]);
      FoldIsRun(cfg, es + [more[0]], more[1..]);
      assert es + [more[0]] + more[1..] == es + more;
    }
  }

  /** Other operations of the shared breaker, one event after another. */
  method Meanwhile(breaker: CB.CircuitBreaker, es: seq<CB.Event>)
    modifies breaker
    ensures breaker.View() == FoldEvents(breaker.config, old(breaker.View()), es)
  {
    var i := 0;
    while i < |es|
      invariant 0 <= i <= |es|
      invariant FoldEvents(breaker.config, breaker.View(), es[i..])
             == FoldEvents(breaker.config, old(breaker.View()), es)
    {
      assert es[i..][1..] == es[i + 1..];
      match es[i] {
        case Begin(op, now) => var _ := breaker.Admit(op, now);
        case Success(op, now) => breaker.OnSuccess(op, now);
        case Failure(op, now) => breaker.OnFailure(op, now);
        case CallerError(_, _) =>
        case Peek(now) => var _ := breaker.GetState(now);
        case Reset(now) => breaker.Reset(now);
      }
      i := i + 1;
    }
  }

  /** `breaker.execute(() => withRetry(...))` */
  method Execute<T>(breaker: CB.CircuitBreaker, p: Policy, w: World<T>, t: Timing)
    returns (trace: seq<Attempt<T>>, result: Result<T>)
    modifies breaker
    ensures trace == Made(breaker.config, old(breaker.View()), p, w, t)
    ensures result == Ending(breaker.config, old(breaker.View()), p, w, t)
    ensures breaker.View()
         == FoldEvents(breaker.config, old(breaker.View()), Events(breaker.config, old(breaker.View()), p, w, t))
  {
    ghost var cfg, b := breaker.config, breaker.View();
    var admitted := breaker.Admit(t.op, t.begin);
    FoldOne(cfg, b, CB.Begin(t.op, t.begin));
    if !admitted {
      return [], CircuitOpen;
    }
    Meanwhile(breaker, t.during);
    var outcome;
    trace, outcome := WithRetry(p, w);
    ghost var settled := Settlement(outcome, t.op, t.end);
    FoldConcat(cfg, b, [CB.Begin(t.op, t.begin)], t.during);
    FoldConcat(cfg, b, [CB.Begin(t.op, t.begin)] + t.during, [settled]);
    FoldOne(cfg, breaker.View(), settled);
    match outcome {
      case Settled(Done(_)) => breaker.OnSuccess(t.op, t.end);
      case Settled(Failed(_, retryable)) => if retryable { breaker.OnFailure(t.op, t.end); }
      case Settled(Thrown) => breaker.OnFailure(t.op, t.end);
      case DeadlineExceeded =>
      case Exhausted => breaker.OnFailure(t.op, t.end);
    }
    result := Ended(outcome);
  }

  /**
    One call: nothing is attempted while the breaker is open; otherwise at most `maxAttempts`
    attempts, all before the deadline; and the breaker is told of one failure at most, namely iff
    the last permitted attempt failed retryably, something unknown was thrown, or none was made.
   */
  lemma OneCall<T>(cfg: CB.Config, b: CB.Breaker, p: Policy, w: World<T>, t: Timing)
    ensures Ending(cfg, b, p, w, t) == CircuitOpen
       <==> b.state == CB.Open && t.begin - b.openedAt < cfg.openDurationMs
    ensures var made := Made(cfg, b, p, w, t);
            var own := if Admitted(cfg, b, t.begin) then [Settlement(Attempts(p, w, 0).1, t.op, t.end)] else [];
            && (!Admitted(cfg, b, t.begin) ==> made == [] && Ending(cfg, b, p, w, t) == CircuitOpen)
            && |made| <= (if p.maxAttempts < 0 then 0 else p.maxAttempts)
            && (forall i | 0 <= i < |made| :: made[i].number == i && !Past(p, made[i].at))
            && Events(cfg, b, p, w, t)
            == [CB.Begin(t.op, t.begin)] + (if Admitted(cfg, b, t.begin) then t.during else []) + own
            && (own != [] && own[0].Failure? <==>
                 && Admitted(cfg, b, t.begin)
                 && (|| p.maxAttempts <= 0
                     || (made != [] && Ending(cfg, b, p, w, t) == Ended(Settled(made[|made| - 1].reply))
                         && (made[|made| - 1].reply.Thrown?
                             || (Retryable(made[|made| - 1].reply) && |made| == p.maxAttempts)))))
  {
    RetryTrace(p, w);
  }

  lemma FoldCall<T>(cfg: CB.Config, b: CB.Breaker, p: Policy, w: World<T>, t: Timing)
    ensures var before := FoldEvents(cfg, b, [CB.Begin(t.op, t.begin)] + t.during);
            var settled := Settlement(Attempts(p, w, 0).1, t.op, t.end);
            FoldEvents(cfg, b, Events(cfg, b, p, w, t))
              == if Admitted(cfg, b, t.begin) then CB.Next(cfg, before, settled) else b
  {
    hide Attempts;
    var settled := Settlement(Attempts(p, w, 0).1, t.op, t.end);
    FoldConcat(cfg, b, [CB.Begin(t.op, t.begin)] + t.during, [settled]);
    FoldOne(cfg, FoldEvents(cfg, b, [CB.Begin(t.op, t.begin)] + t.during), settled);
    FoldOne(cfg, b, CB.Begin(t.op, t.begin));
  }

  /**
    What a call leaves behind, seen from the state the breaker is in when it ends: a value closes a
    half-open breaker and clears the failures; an error of the caller's own or a missed deadline
    changes nothing; everything else is a failure. A refused call changes nothing.
   */
  lemma {:induction false} CallSettles<T>(cfg: CB.Config, b: CB.Breaker, p: Policy, w: World<T>, t: Timing)
    ensures var before := FoldEvents(cfg, b, [CB.Begin(t.op, t.begin)] + t.during);
            var after := FoldEvents(cfg, b, Events(cfg, b, p, w, t));
            match Ending(cfg, b, p, w, t)
            case CircuitOpen => after == b
            case Ended(Settled(Done(_))) =>
              && after.failures == [] && after.openedAt == before.openedAt
              && after.state != CB.HalfOpen && (after.state == CB.Open <==> before.state == CB.Open)
            case Ended(Settled(Failed(_, false))) => after == before
            case Ended(DeadlineExceeded) => after == before
            case _ => after == CB.Next(cfg, before, CB.Failure(t.op, t.end))
  {
    hide Attempts, FoldEvents;
    FoldCall(cfg, b, p, w, t);
  }

  /** The last attempt of a call failed retryably, yet the breaker is told of no failure. */
  predicate FailureUncounted<T>(cfg: CB.Config, b: CB.Breaker, p: Policy, w: World<T>, t: Timing) {
    var made, events := Made(cfg, b, p, w, t), Events(cfg, b, p, w, t);
    made != [] && Retryable(made[|made| - 1].reply) && !events[|events| - 1].Failure?
  }

  lemma UncountedAtDeadline<T>(cfg: CB.Config, b: CB.Breaker, p: Policy, w: World<T>, t: Timing)
    ensures FailureUncounted(cfg, b, p, w, t)
       <==> Made(cfg, b, p, w, t) != [] && Ending(cfg, b, p, w, t) == Ended(DeadlineExceeded)
  {
    RetryTrace(p, w);
    hide Attempts;
  }

  /**
    An upstream failure goes uncounted iff the call is let through and, for some `n`, its attempts up
    to number `n` all fail retryably with attempts to spare, the backoffs before `n` fit the deadline,
    and backoff `n` does not, or has overrun it when attempt `n + 1` is due. The call then made `n + 1`.
   */
  lemma {:induction false} FailureUncountedIff<T>(cfg: CB.Config, b: CB.Breaker, p: Policy, w: World<T>, t: Timing)
    ensures FailureUncounted(cfg, b, p, w, t)
       <==> Admitted(cfg, b, t.begin) && exists n: nat :: CutShort(p, w, 0, n)
    ensures forall n: nat | CutShort(p, w, 0, n) && Admitted(cfg, b, t.begin) :: |Made(cfg, b, p, w, t)| == n + 1
  {
    hide Attempts, CutShort, FailureUncounted;
    UncountedAtDeadline(cfg, b, p, w, t);
    forall n: nat | CutShort(p, w, 0, n)
      ensures Attempts(p, w, 0).1 == DeadlineExceeded && |Attempts(p, w, 0).0| == n + 1
    {
      CutShortEnds(p, w, 0, n);
    }
    if Attempts(p, w, 0).1 == DeadlineExceeded && Attempts(p, w, 0).0 != [] {
      var n := DeadlineCuts(p, w, 0);
    }
  }

  /** Without a deadline every retryable failure a call ends with is counted. */
  lemma NoDeadlineCountsAll<T>(cfg: CB.Config, b: CB.Breaker, p: Policy, w: World<T>, t: Timing)
    requires p.deadline.None?
    ensures !FailureUncounted(cfg, b, p, w, t)
  {
    FailureUncountedIff(cfg, b, p, w, t);
  }

  /** A call to an upstream that answers 503 after its deadline: nothing is counted. */
  lemma DeadlineHitIsNoFailure(cfg: CB.Config)
    ensures var p := Policy(3, 250, 2000, Some(100));
            var w: World<string> := World(_ => FromHttpStatus(503), _ => 0, _ => 100, _ => 0.5);
            var t := Timing(0, 0, [], 100);
            && Made(cfg, CB.INITIAL, p, w, t) == [Attempt(0, 0, Failed(SERVER_ERROR, true), None)]
            && FoldEvents(cfg, CB.INITIAL, Events(cfg, CB.INITIAL, p, w, t)) == CB.INITIAL
  {
    var p := Policy(3, 250, 2000, Some(100));
    var w: World<string> := World(_ => FromHttpStatus(503), _ => 0, _ => 100, _ => 0.5);
    BackoffBounds(0, p, 0.5);
    assert Attempts(p, w, 0) == ([Attempt(0, 0, Failed(SERVER_ERROR, true), None)], DeadlineExceeded);
    FoldConcat(cfg, CB.INITIAL, [CB.Begin(0, 0)], [CB.CallerError(0, 100)]);
    FoldOne(cfg, CB.INITIAL, CB.Begin(0, 0));
    FoldOne(cfg, CB.INITIAL, CB.CallerError(0, 100));
  }
}

/** The orders client: every attempt of one `submit` carries the same id and body. */
module OrdersClient {
  import opened Options
  import opened Errors
  import opened Retry
  import opened UpstreamCall
  import CB = CircuitBreaker

  datatype Request = Request(clientRequestId: string, body: string, attempt: nat, at: int)

  /** What comes back for one request; a body that is not JSON counts as one without an order id. */
  datatype HttpReply = NetworkDown | Http(status: int, orderId: string)

  function Interpret(r: HttpReply): (result: Reply<string>) {
    match r
    case NetworkDown => Failed(NETWORK_ERROR, true)
    case Http(status, orderId) =>
      if !(200 <= status < 300) then FromHttpStatus(status)
      else if orderId == "" then Failed(VALIDATION_ERROR, false)
      else Done(orderId)
  }

  /** Like `Retry.World`, with raw replies. */
  datatype Network = Network(reply: nat -> HttpReply, before: nat -> int, after: nat -> int, jitter: nat -> real)

  /** What `withRetry` sees of it. */
  function Seen(n: Network): (r: World<string>) {
    World(a => Interpret(n.reply(a)), n.before, n.after, n.jitter)
  }

  /** Replies worth another request. */
  predicate Transient(r: HttpReply) {
    r.NetworkDown? || r.status == 425 || r.status == 429 || 500 <= r.status < 600
  }

  /** What the reply to a request means, whatever computes it. */
  ghost predicate Means(r: HttpReply, result: Reply<string>) {
    if r.NetworkDown? then result == Failed(NETWORK_ERROR, true)
    else if 200 <= r.status <= 299 then
      result == if r.orderId != "" then Done(r.orderId) else Failed(VALIDATION_ERROR, false)
    else
      && result.Failed? && (result.retryable <==> Transient(r))
      && (result.code == VALIDATION_ERROR <==> r.status == 400)
      && (result.code == AUTH_FAILED <==> r.status == 401)
      && (result.code == FORBIDDEN <==> r.status == 403)
      && (result.code == NOT_FOUND <==> r.status == 404)
      && (result.code == TOO_EARLY <==> r.status == 425)
      && (result.code == RATE_LIMITED <==> r.status == 429)
      && (result.code == SERVER_ERROR <==> 500 <= r.status <= 599)
      && result.code in {VALIDATION_ERROR, AUTH_FAILED, FORBIDDEN, NOT_FOUND, TOO_EARLY, RATE_LIMITED, SERVER_ERROR, UNKNOWN}
  }

  lemma InterpretMeans(r: HttpReply, result: Reply<string>)
    ensures Means(r, result) <==> result == Interpret(r)
  {}

  datatype Meta = Meta(clientRequestId: Option<string>, deadline: Option<int>)

  function RequestId(meta: Meta, uuid: string): (r: string) {
    if meta.clientRequestId.Some? then meta.clientRequestId.value else uuid
  }

  function Requests(trace: seq<Attempt<string>>, id: string, body: string): (rs: seq<Request>)
    ensures |rs| == |trace|
    ensures forall i | 0 <= i < |rs| :: rs[i] == Request(id, body, trace[i].number, trace[i].at)
  {
    seq(|trace|, i requires 0 <= i < |trace| => Request(id, body, trace[i].number, trace[i].at))
  }

  class CheckoutOrdersClient {
    const retry: Policy
    const breaker: CB.CircuitBreaker

    constructor (retry: Policy, breaker: CB.CircuitBreaker)
      ensures this.retry == retry && this.breaker == breaker
    {
      this.retry := retry;
      this.breaker := breaker;
    }

    method Submit(body: string, meta: Meta, uuid: string, n: Network, t: Timing)
      returns (sent: seq<Request>, result: Result<string>)
      modifies breaker
      ensures var p := retry.(deadline := meta.deadline);
              var b := old(breaker.View());
              && sent == Submission(RequestId(meta, uuid), body, breaker.config, b, p, Seen(n), t).Sent()
              && result == Ending(breaker.config, b, p, Seen(n), t)
              && breaker.View() == FoldEvents(breaker.config, b, Events(breaker.config, b, p, Seen(n), t))
      ensures forall r | r in sent :: r.body == body && match meta.clientRequestId
                                                        case Some(own) => r.clientRequestId == own
                                                        case None => r.clientRequestId == uuid
    {
      var id := RequestId(meta, uuid);
      var trace;
      trace, result := Execute(breaker, retry.(deadline := meta.deadline), Seen(n), t);
      sent := Requests(trace, id, body);
    }
  }

  /** A request is repeated exactly after transient replies, and an order id ends the run. */
  lemma RepeatedAfterTransient(cfg: CB.Config, b: CB.Breaker, p: Policy, n: Network, t: Timing)
    ensures var made, ending := Made(cfg, b, p, Seen(n), t), Ending(cfg, b, p, Seen(n), t);
            && (forall i | 0 <= i < |made| - 1 :: Transient(n.reply(i)))
            && (made != [] && !Transient(n.reply(|made| - 1)) ==>
                  ending.Ended? && ending.outcome.Settled? && Means(n.reply(|made| - 1), ending.outcome.reply))
            && (forall id | ending == Ended(Settled(Done(id))) ::
                  && made != [] && id != "" && n.reply(|made| - 1).Http?
                  && 200 <= n.reply(|made| - 1).status <= 299 && n.reply(|made| - 1).orderId == id)
  {
    RetryTrace(p, Seen(n));
    hide Attempts, Past, ComputeBackoff, Interpret, Transient;
    var made := Attempts(p, Seen(n), 0).0;
    forall i | 0 <= i < |made|
      ensures made[i].reply == Interpret(n.reply(i)) && (Retryable(made[i].reply) <==> Transient(n.reply(i)))
      ensures i < |made| - 1 ==> Transient(n.reply(i))
    {
      assert made[i].reply == Seen(n).reply(0 + i);
      RetryableIff(n.reply(i));
    }
    if made != [] {
      InterpretMeans(n.reply(|made| - 1), made[|made| - 1].reply);
    }
  }

  /** Request `k` is the last: it is made, in time, after transient replies with room for their backoffs. */
  predicate LastAsked(p: Policy, n: Network, k: nat) {
    && k < p.maxAttempts
    && (forall a | 0 <= a <= k :: Early(p, n.before(a)))
    && (forall a | 0 <= a < k :: Transient(n.reply(a)) && Early(p, n.after(a) + ComputeBackoff(a, p, n.jitter(a))))
    && (!Transient(n.reply(k)) || k == p.maxAttempts - 1)
  }

  lemma LastAskedConcludes(p: Policy, n: Network, k: nat)
    ensures LastAsked(p, n, k) <==> Concludes(p, Seen(n), 0, k)
  {
    hide Interpret, Transient, ComputeBackoff;
    forall a: nat
      ensures Seen(n).reply(a) == Interpret(n.reply(a)) && (Retryable(Interpret(n.reply(a))) <==> Transient(n.reply(a)))
    {
      RetryableIff(n.reply(a));
    }
    if LastAsked(p, n, k) {
      forall a: nat | a < k
        ensures Retryable(Seen(n).reply(a)) && Fits(p, Seen(n), a)
      {
        assert Transient(n.reply(a));
      }
    }
    if Concludes(p, Seen(n), 0, k) {
      forall a: nat | a < k
        ensures Transient(n.reply(a)) && Early(p, n.after(a) + ComputeBackoff(a, p, n.jitter(a)))
      {
        assert Retryable(Seen(n).reply(a)) && Fits(p, Seen(n), a);
      }
    }
  }

  /** What a submit that is let through answers is what the reply to its last request means, and conversely. */
  lemma {:induction false} SubmitAnswersIff(cfg: CB.Config, b: CB.Breaker, p: Policy, n: Network, t: Timing, r: Reply<string>)
    ensures Ending(cfg, b, p, Seen(n), t) == Ended(Settled(r))
       <==> && !(b.state == CB.Open && t.begin - b.openedAt < cfg.openDurationMs)
            && exists k: nat :: LastAsked(p, n, k) && Means(n.reply(k), r)
  {
    hide Attempts, Interpret, LastAsked, Concludes, Means;
    if Attempts(p, Seen(n), 0).1.Settled? {
      var k := SettlingConcludes(p, Seen(n), 0);
      LastAskedConcludes(p, n, k);
      InterpretMeans(n.reply(k), Attempts(p, Seen(n), 0).1.reply);
    }
    forall k: nat | LastAsked(p, n, k) && Means(n.reply(k), r)
      ensures Attempts(p, Seen(n), 0).1 == Settled(r)
    {
      LastAskedConcludes(p, n, k);
      ConcludingSettles(p, Seen(n), 0, k);
      InterpretMeans(n.reply(k), r);
    }
  }

  /** A submit succeeds with an order id iff the last request it makes is answered 2xx with that id. */
  lemma {:induction false} SubmitSucceedsIff(cfg: CB.Config, b: CB.Breaker, p: Policy, n: Network, t: Timing, id: string)
    ensures Ending(cfg, b, p, Seen(n), t) == Ended(Settled(Done(id)))
       <==> && !(b.state == CB.Open && t.begin - b.openedAt < cfg.openDurationMs)
            && id != ""
            && exists k: nat, status | LastAsked(p, n, k) && 200 <= status <= 299 :: n.reply(k) == Http(status, id)
  {
    hide LastAsked, Ending;
    SubmitAnswersIff(cfg, b, p, n, t, Done(id));
    forall k: nat, status | LastAsked(p, n, k) && 200 <= status <= 299 && n.reply(k) == Http(status, id) && id != ""
      ensures Means(n.reply(k), Done(id))
    {}
    if k: nat :| LastAsked(p, n, k) && Means(n.reply(k), Done(id)) {
      assert n.reply(k) == Http(n.reply(k).status, id);
    }
  }

  lemma RetryableIff(r: HttpReply)
    ensures Retryable(Interpret(r)) <==> Transient(r)
  {}

  // ---------- an upstream that deduplicates by Client-Request-Id ----------

  datatype Order = Order(clientRequestId: string, body: string)

  predicate Known(orders: seq<Order>, id: string) {
    exists i :: 0 <= i < |orders| && orders[i].clientRequestId == id
  }

  /** Orders it has created after receiving `log`, the requests of all callers in arrival order. */
  function Upstream(log: seq<Request>): (r: seq<Order>) {
    if log == [] then []
    else
      var orders := Upstream(log[..|log| - 1]);
      var r := log[|log| - 1];
      if Known(orders, r.clientRequestId) then orders else orders + [Order(r.clientRequestId, r.body)]
  }

  ghost predicate OnePerId(orders: seq<Order>) {
    forall i, j | 0 <= i < j < |orders| :: orders[i].clientRequestId != orders[j].clientRequestId
  }

  /** Request `i` is the first with its id, and `o` is the order it asks for. */
  predicate AskedFirst(log: seq<Request>, i: nat, o: Order) {
    && i < |log| && log[i].clientRequestId == o.clientRequestId && log[i].body == o.body
    && forall k | 0 <= k < i :: log[k].clientRequestId != o.clientRequestId
  }

  ghost predicate AskedFor(log: seq<Request>, o: Order) {
    exists i: nat :: AskedFirst(log, i, o)
  }

  lemma {:induction false} UpstreamOrders(log: seq<Request>)
    ensures OnePerId(Upstream(log))
    ensures forall i | 0 <= i < |Upstream(log)| :: AskedFor(log, Upstream(log)[i])
    ensures forall i | 0 <= i < |log| :: Known(Upstream(log), log[i].clientRequestId)
    decreases |log|
  {
    if log != [] {
      var before, r := log[..|log| - 1], log[|log| - 1];
      UpstreamOrders(before);
      var orders, now := Upstream(before), Upstream(log);
      forall i | 0 <= i < |now|
        ensures AskedFor(log, now[i])
      {
        if i < |orders| {
          var k: nat :| AskedFirst(before, k, now[i]);
          assert AskedFirst(log, k, now[i]);
        } else {
          assert forall k | 0 <= k < |before| :: log[k] == before[k] && Known(orders, before[k].clientRequestId);
          assert AskedFirst(log, |before|, now[i]);
        }
      }
      forall i | 0 <= i < |log|
        ensures Known(now, log[i].clientRequestId)
      {
        if i < |before| {
          assert before[i] == log[i];
          var k :| 0 <= k < |orders| && orders[k].clientRequestId == log[i].clientRequestId;
          assert now[k] == orders[k];
        } else if !Known(orders, r.clientRequestId) {
          assert now[|now| - 1].clientRequestId == r.clientRequestId;
        }
      }
    }
  }

  // ---------- many submits ----------

  /** One `submit`: its id and body, and the breaker, policy, network and timing it meets. */
  datatype Submission = Submission(id: string, body: string, cfg: CB.Config, breaker: CB.Breaker,
                                   policy: Policy, world: World<string>, timing: Timing)
  {
    function Sent(): (rs: seq<Request>) {
      Requests(Made(cfg, breaker, policy, world, timing), id, body)
    }

    predicate LetThrough() {
      Admitted(cfg, breaker, timing.begin)
    }
  }

  /** Every received request is one that submit number `from[k]` sent; any may be lost or repeated. */
  ghost predicate Interleaves(log: seq<Request>, subs: seq<Submission>, from: seq<nat>) {
    |from| == |log| && forall k | 0 <= k < |log| :: from[k] < |subs| && log[k] in subs[from[k]].Sent()
  }

  /** The submits of which at least one request was received. */
  function Reached(from: seq<nat>): (r: set<nat>)
    ensures forall k | 0 <= k < |from| :: from[k] in r
  {
    set k | 0 <= k < |from| :: from[k]
  }

  /** The ids of some of the submits; callers may use one for several submits. */
  function Ids(subs: seq<Submission>, among: set<nat>): (ids: set<string>) {
    set n | n in among && n < |subs| :: subs[n].id
  }

  /** Each of these submits has an id of its own. */
  ghost predicate Apart(subs: seq<Submission>, among: set<nat>) {
    forall m, n | m in among && n in among && m < n < |subs| :: subs[m].id != subs[n].id
  }

  /** Received request `k` brings an id first, and `o` has the id and body of the submit that sent it. */
  predicate MadeBy(subs: seq<Submission>, from: seq<nat>, k: nat, o: Order) {
    && k < |from| && from[k] < |subs| && o == Order(subs[from[k]].id, subs[from[k]].body)
    && forall m | 0 <= m < k :: from[m] < |subs| ==> subs[from[m]].id != o.clientRequestId
  }

  /** `owner` pairs the orders one to one with the submits in `reached`, each order with its submit's body. */
  ghost predicate OneToOne(orders: seq<Order>, subs: seq<Submission>, owner: seq<nat>, reached: set<nat>) {
    && |owner| == |orders|
    && (forall i | 0 <= i < |owner| :: owner[i] in reached && owner[i] < |subs|
          && orders[i] == Order(subs[owner[i]].id, subs[owner[i]].body))
    && (forall i, j | 0 <= i < j < |owner| :: owner[i] != owner[j])
    && (forall n | n in reached :: n in owner)
  }

  lemma SentByItself(sub: Submission, r: Request)
    requires r in sub.Sent()
    ensures r.clientRequestId == sub.id && r.body == sub.body && sub.LetThrough()
  {}

  /** The received request that made the upstream create this order belongs to one submit. */
  lemma MakerOf(log: seq<Request>, subs: seq<Submission>, from: seq<nat>, o: Order) returns (k: nat)
    requires Interleaves(log, subs, from) && AskedFor(log, o)
    ensures MadeBy(subs, from, k, o) && from[k] in Reached(from)
  {
    k :| AskedFirst(log, k, o);
    forall m | 0 <= m <= k
      ensures subs[from[m]].id == log[m].clientRequestId && subs[from[m]].body == log[m].body
    {
      SentByItself(subs[from[m]], log[m]);
    }
  }

  lemma ReachedHasOrder(log: seq<Request>, subs: seq<Submission>, from: seq<nat>, n: nat)
    requires Interleaves(log, subs, from) && n in Reached(from)
    ensures n < |subs| && subs[n].LetThrough() && Known(Upstream(log), subs[n].id)
  {
    var k :| 0 <= k < |from| && from[k] == n;
    SentByItself(subs[n], log[k]);
    UpstreamOrders(log);
  }

  /** Distinct members listed once each are as many as the set. */
  lemma {:induction false} Listed<T>(list: seq<T>, s: set<T>)
    requires forall i, j | 0 <= i < j < |list| :: list[i] != list[j]
    requires forall x :: x in list <==> x in s
    ensures |list| == |s|
    decreases |list|
  {
    if list == [] {
      assert s == {};
    } else {
      var x, rest := list[0], list[1..];
      assert forall i | 0 <= i < |rest| :: rest[i] == list[i + 1];
      assert list == [x] + rest;
      Listed(rest, s - {x});
    }
  }

  /** Submits have at most as many ids as they are, and as many iff each has its own. */
  lemma {:induction false} IdsCounted(subs: seq<Submission>, among: set<nat>)
    requires forall n | n in among :: n < |subs|
    ensures |Ids(subs, among)| <= |among|
    ensures |Ids(subs, among)| == |among| <==> Apart(subs, among)
    decreases among
  {
    if x :| x in among {
      var rest := among - {x};
      IdsCounted(subs, rest);
      if subs[x].id in Ids(subs, rest) {
        var y :| y in rest && subs[y].id == subs[x].id;
        assert Ids(subs, among) == Ids(subs, rest);
        assert !Apart(subs, among) by { assert x < y || y < x; }
      } else {
        assert Ids(subs, among) == Ids(subs, rest) + {subs[x].id};
        assert forall y | y in rest :: subs[y].id in Ids(subs, rest);
        assert Apart(subs, among) <==> Apart(subs, rest);
      }
    } else {
      assert Ids(subs, among) == {};
    }
  }

  /**
    Many submits, with ids of their own or reused, whichever of their requests arrive, how often and
    in which order. The upstream creates exactly one order for each id that arrives, that of the
    submit whose request brought it first; so never more orders than submits of which a request
    arrived, and as many iff each of those has an id of its own. Only admitted submits are among them.
   */
  lemma {:induction false} SubmitCreatesAtMostOneOrder(log: seq<Request>, subs: seq<Submission>, from: seq<nat>)
    requires Interleaves(log, subs, from)
    ensures OnePerId(Upstream(log)) && |Upstream(log)| == |Ids(subs, Reached(from))| <= |Reached(from)|
    ensures |Upstream(log)| == |Reached(from)| <==> Apart(subs, Reached(from))
    ensures forall o | o in Upstream(log) :: exists k: nat :: MadeBy(subs, from, k, o)
    ensures forall n | n in Reached(from) :: n < |subs| && subs[n].LetThrough() && Known(Upstream(log), subs[n].id)
  {
    hide Submission.Sent, Submission.LetThrough, Upstream, Interleaves, Apart;
    var orders := Upstream(log);
    UpstreamOrders(log);
    forall n | n in Reached(from)
      ensures n < |subs| && subs[n].LetThrough() && Known(orders, subs[n].id)
    {
      ReachedHasOrder(log, subs, from, n);
    }
    var ids := seq(|orders|, i requires 0 <= i < |orders| => orders[i].clientRequestId);
    forall o | o in orders
      ensures (exists k: nat :: MadeBy(subs, from, k, o)) && o.clientRequestId in Ids(subs, Reached(from))
    {
      var k := MakerOf(log, subs, from, o);
    }
    forall id
      ensures id in ids <==> id in Ids(subs, Reached(from))
    {
      if id in ids {
        var i :| 0 <= i < |orders| && ids[i] == id;
        assert orders[i] in orders;
      }
      if id in Ids(subs, Reached(from)) {
        var n :| n in Reached(from) && n < |subs| && subs[n].id == id;
        var i :| 0 <= i < |orders| && orders[i].clientRequestId == id;
        assert ids[i] == id;
      }
    }
    Listed(ids, Ids(subs, Reached(from)));
    IdsCounted(subs, Reached(from));
  }

  lemma {:induction false} Owners(log: seq<Request>, subs: seq<Submission>, from: seq<nat>, orders: seq<Order>)
    returns (owner: seq<nat>)
    requires Interleaves(log, subs, from) && OnePerId(orders)
    requires forall i | 0 <= i < |orders| :: AskedFor(log, orders[i])
    ensures |owner| == |orders|
    ensures forall i | 0 <= i < |owner| :: owner[i] in Reached(from) && owner[i] < |subs|
              && orders[i] == Order(subs[owner[i]].id, subs[owner[i]].body)
    ensures forall i, j | 0 <= i < j < |owner| :: owner[i] != owner[j]
  {
    hide Interleaves, Reached, AskedFor;
    owner := [];
    while |owner| < |orders|
      invariant |owner| <= |orders|
      invariant forall i | 0 <= i < |owner| :: owner[i] in Reached(from) && owner[i] < |subs|
                  && orders[i] == Order(subs[owner[i]].id, subs[owner[i]].body)
    {
      var k := MakerOf(log, subs, from, orders[|owner|]);
      owner := owner + [from[k]];
    }
  }

  lemma OwnerFound(orders: seq<Order>, subs: seq<Submission>, owner: seq<nat>, among: set<nat>, n: nat)
    requires Apart(subs, among) && n in among && n < |subs| && Known(orders, subs[n].id) && |owner| == |orders|
    requires forall i | 0 <= i < |owner| :: owner[i] in among && owner[i] < |subs|
               && orders[i].clientRequestId == subs[owner[i]].id
    ensures n in owner
  {
    var i :| 0 <= i < |orders| && orders[i].clientRequestId == subs[n].id;
    assert owner[i] == n;
  }

  /** With an id for each submit that arrives, orders and those submits are one to one, bodies included. */
  lemma {:induction false} OneOrderPerSubmit(log: seq<Request>, subs: seq<Submission>, from: seq<nat>)
    returns (owner: seq<nat>)
    requires Interleaves(log, subs, from) && Apart(subs, Reached(from))
    ensures OneToOne(Upstream(log), subs, owner, Reached(from))
  {
    hide Submission.Sent, Submission.LetThrough, Upstream, Reached, Interleaves, Apart;
    UpstreamOrders(log);
    var orders := Upstream(log);
    owner := Owners(log, subs, from, orders);
    forall n | n in Reached(from)
      ensures n in owner
    {
      ReachedHasOrder(log, subs, from, n);
      OwnerFound(orders, subs, owner, Reached(from), n);
    }
  }
}

/** The sessions client: the same call behind a token cache. */
module SessionsClient {
  import opened Options
  import opened Errors
  import opened Retry
  import opened UpstreamCall
  import TC = TokenCache
  import CB = CircuitBreaker

  datatype Session = Session(accessToken: string, expiresAt: int)

  /** `cacheKey` is empty when the caller does not want caching. */
  datatype Input = Input(apm: string, merchantOrderId: string, total: real, currency: string,
                         cacheKey: string, deadline: Option<int>)

  datatype Created = Rejected | Cached(session: Session) | Called(result: Result<Session>)

  /** Remaining lifetime less a 60 s margin, but never less than 60 s. */
  function CacheTtl(expiresAt: int, now: int): (r: int) {
    if expiresAt - now - 60000 < 60000 then 60000 else expiresAt - now - 60000
  }

  /** What `createSession` does to the cache with a session it got at `at`. */
  function Store(key: string, s: Session, at: int): (r: TC.Op<Session>) {
    TC.Set(key, s, CacheTtl(s.expiresAt, at), at)
  }

  function ToCache(input: Input, c: Created, now: int): (r: seq<TC.Op<Session>>) {
    if input.cacheKey != "" && c.Called? && c.result.Ended? && c.result.outcome.Settled? && c.result.outcome.reply.Done?
    then [Store(input.cacheKey, c.result.outcome.reply.value, now)]
    else []
  }

  /** Other users of the shared cache, one operation after another. */
  function FoldOps(maxEntries: int, c: TC.Entries<Session>, ops: seq<TC.Op<Session>>): (r: TC.Entries<Session>)
    decreases |ops|
  {
    if ops == [] then c else FoldOps(maxEntries, TC.Next(maxEntries, c, ops[0]), ops[1..])
  }

  lemma FoldOneOp(maxEntries: int, c: TC.Entries<Session>, op: TC.Op<Session>)
    ensures FoldOps(maxEntries, c, [op]) == TC.Next(maxEntries, c, op)
  {
    assert [op][1..] == [];
  }

  /** Operations after a run are the run continued. */
  lemma {:induction false} FoldIsRun(maxEntries: int, ops: seq<TC.Op<Session>>, more: seq<TC.Op<Session>>)
    ensures FoldOps(maxEntries, TC.Run(maxEntries, ops), more) == TC.Run(maxEntries, ops + more)
    decreases |more|
  {
    if more == [] {
      assert ops + more == ops;
    } else {
      var all := ops + [more[0]];
      assert all[..|ops|] == ops;
      FoldIsRun(maxEntries, all, more[1..]);
      assert all + more[1..] == ops + more;
    }
  }

  /** The cache after a call: looked up, then used by others while the call awaited, then stored into. */
  function CacheAfter(maxEntries: int, c: TC.Entries<Session>, input: Input, t: Timing,
                      others: seq<TC.Op<Session>>, created: Created): (r: TC.Entries<Session>)
  {
    if created.Rejected? then c
    else
      var looked := if input.cacheKey == "" then c else TC.AfterGet(c, input.cacheKey, t.begin);
      if created.Cached? then looked
      else FoldOps(maxEntries, FoldOps(maxEntries, looked, others), ToCache(input, created, t.end))
  }

  method CacheMeanwhile(cache: TC.InMemoryTokenCache<Session>, ops: seq<TC.Op<Session>>)
    modifies cache
    ensures cache.View() == FoldOps(cache.maxEntries, old(cache.View()), ops)
  {
    var i := 0;
    while i < |ops|
      invariant 0 <= i <= |ops|
      invariant FoldOps(cache.maxEntries, cache.View(), ops[i..]) == FoldOps(cache.maxEntries, old(cache.View()), ops)
    {
      assert ops[i..][1..] == ops[i + 1..];
      match ops[i] {
        case Get(key, now) => var _ := cache.Get(key, now);
        case Set(key, value, ttlMs, now) => cache.Set(key, value, ttlMs, now);
        case Delete(key, now) => cache.Delete(key, now);
        case Clear(now) => cache.Clear(now);
      }
      i := i + 1;
    }
  }

  class CommerceHubClient {
    const retry: Policy
    const breaker: CB.CircuitBreaker
    const tokenCache: TC.InMemoryTokenCache<Session>

    constructor (retry: Policy, breaker: CB.CircuitBreaker, tokenCache: TC.InMemoryTokenCache<Session>)
      ensures this.retry == retry && this.breaker == breaker && this.tokenCache == tokenCache
    {
      this.retry := retry;
      this.breaker := breaker;
      this.tokenCache := tokenCache;
    }

    method CreateSession(input: Input, w: World<Session>, t: Timing, others: seq<TC.Op<Session>>)
      returns (trace: seq<Attempt<Session>>, created: Created)
      modifies breaker, tokenCache
      ensures created == Rejected
         <==> input.apm == "" || input.merchantOrderId == "" || input.total == 0.0 || input.currency == ""
      ensures created == Rejected ==>
                trace == [] && breaker.View() == old(breaker.View()) && tokenCache.View() == old(tokenCache.View())
      ensures created != Rejected ==>
                match if input.cacheKey == "" then None else TC.Lookup(old(tokenCache.View()), input.cacheKey, t.begin)
                case Some(session) =>
                  created == Cached(session) && trace == [] && breaker.View() == old(breaker.View())
                case None =>
                  var p, b := retry.(deadline := input.deadline), old(breaker.View());
                  && trace == Made(breaker.config, b, p, w, t)
                  && created == Called(Ending(breaker.config, b, p, w, t))
                  && breaker.View() == FoldEvents(breaker.config, b, Events(breaker.config, b, p, w, t))
      ensures tokenCache.View()
           == CacheAfter(tokenCache.maxEntries, old(tokenCache.View()), input, t, others, created)
    {
      trace := [];
      if input.apm == "" || input.merchantOrderId == "" || input.total == 0.0 || input.currency == "" {
        return [], Rejected;
      }
      if input.cacheKey != "" {
        var cached := tokenCache.Get(input.cacheKey, t.begin);
        if cached.Some? {
          return [], Cached(cached.value);
        }
      }
      var result;
      trace, result := Execute(breaker, retry.(deadline := input.deadline), w, t);
      CacheMeanwhile(tokenCache, others);
      created := Called(result);
      if result.Ended? && result.outcome.Settled? && result.outcome.reply.Done? && input.cacheKey != "" {
        var session := result.outcome.reply.value;
        FoldOneOp(tokenCache.maxEntries, tokenCache.View(), Store(input.cacheKey, session, t.end));
        tokenCache.Set(input.cacheKey, session, CacheTtl(session.expiresAt, t.end), t.end);
      }
    }
  }

  /** A session that a call brought is served from then on until 60 s before its end, and at least for 60 s. */
  lemma StoredForLater(maxEntries: int, c: TC.Entries<Session>, input: Input, t: Timing, others: seq<TC.Op<Session>>,
                       s: Session, now: int)
    requires input.cacheKey != ""
    ensures var after := CacheAfter(maxEntries, c, input, t, others, Called(Ended(Settled(Done(s)))));
            TC.Lookup(after, input.cacheKey, now)
              == if now < t.end + 60000 || now + 60000 < s.expiresAt then Some(s) else None
  {
    var between := FoldOps(maxEntries, TC.AfterGet(c, input.cacheKey, t.begin), others);
    FoldOneOp(maxEntries, between, Store(input.cacheKey, s, t.end));
  }

  /** A call that brought no session, or one without a cache key, stores nothing. */
  lemma NothingStored(maxEntries: int, c: TC.Entries<Session>, input: Input, t: Timing, others: seq<TC.Op<Session>>,
                      result: Result<Session>)
    requires input.cacheKey == "" || !(result.Ended? && result.outcome.Settled? && result.outcome.reply.Done?)
    ensures CacheAfter(maxEntries, c, input, t, others, Called(result))
         == FoldOps(maxEntries, if input.cacheKey == "" then c else TC.AfterGet(c, input.cacheKey, t.begin), others)
  {}

  /** Asking again while the session lasts is answered from the cache, without any upstream attempt. */
  method AskTwice(client: CommerceHubClient, input: Input, w: World<Session>, t: Timing, others: seq<TC.Op<Session>>,
                  w': World<Session>, t': Timing, others': seq<TC.Op<Session>>)
    returns (first: Created, trace: seq<Attempt<Session>>, second: Created)
    modifies client.breaker, client.tokenCache
    ensures input.cacheKey != "" && first.Called? && first.result.Ended? && first.result.outcome.Settled?
            && first.result.outcome.reply.Done? ==>
              var s := first.result.outcome.reply.value;
              t'.begin < t.end + 60000 || t'.begin + 60000 < s.expiresAt ==> second == Cached(s) && trace == []
  {
    hide CacheAfter;
    ghost var c := client.tokenCache.View();
    trace, first := client.CreateSession(input, w, t, others);
    if input.cacheKey != "" && first.Called? && first.result.Ended? && first.result.outcome.Settled?
       && first.result.outcome.reply.Done? {
      var s := first.result.outcome.reply.value;
      StoredForLater(client.tokenCache.maxEntries, c, input, t, others, s, t'.begin);
    }
    trace, second := client.CreateSession(input, w', t', others');
  }

  // ---------- how fresh a cached session is ----------

  lemma AfterStore(maxEntries: int, ops: seq<TC.Op<Session>>, op: TC.Op<Session>)
    ensures TC.Run(maxEntries, ops + [op]) == TC.Next(maxEntries, TC.Run(maxEntries, ops), op)
  {
    assert (ops + [op])[..|ops + [op]| - 1] == ops;
  }

  /** After any run, a stored session is served until its cache lifetime is over, and no longer. */
  lemma ServedExactly(maxEntries: int, ops: seq<TC.Op<Session>>, key: string, s: Session, at: int, now: int)
    ensures TC.Lookup(TC.Run(maxEntries, ops + [Store(key, s, at)]), key, now)
         == if now < at + 60000 || now + 60000 < s.expiresAt then Some(s) else None
  {
    AfterStore(maxEntries, ops, Store(key, s, at));
  }

  /** Every hit on a session just stored is before its expiry iff it had at least 60 s left. */
  lemma FreshIff(maxEntries: int, ops: seq<TC.Op<Session>>, key: string, s: Session, at: int)
    ensures (forall now | at <= now && TC.Lookup(TC.Run(maxEntries, ops + [Store(key, s, at)]), key, now).Some? ::
               now < s.expiresAt)
       <==> s.expiresAt - at >= 60000
  {
    hide TC.Lookup, TC.Run;
    forall now
      ensures TC.Lookup(TC.Run(maxEntries, ops + [Store(key, s, at)]), key, now).Some?
         <==> now < at + 60000 || now + 60000 < s.expiresAt
    {
      ServedExactly(maxEntries, ops, key, s, at, now);
    }
    if s.expiresAt - at < 60000 {
      assert TC.Lookup(TC.Run(maxEntries, ops + [Store(key, s, at)]), key, at + 59999).Some?;
    }
  }

  /** Every hit on a session just stored leaves more than 60 s iff it had at least 120 s left. */
  lemma MarginIff(maxEntries: int, ops: seq<TC.Op<Session>>, key: string, s: Session, at: int)
    ensures (forall now | at <= now && TC.Lookup(TC.Run(maxEntries, ops + [Store(key, s, at)]), key, now).Some? ::
               now + 60000 < s.expiresAt)
       <==> s.expiresAt - at >= 120000
  {
    hide TC.Lookup, TC.Run;
    forall now
      ensures TC.Lookup(TC.Run(maxEntries, ops + [Store(key, s, at)]), key, now).Some?
         <==> now < at + 60000 || now + 60000 < s.expiresAt
    {
      ServedExactly(maxEntries, ops, key, s, at, now);
    }
    if s.expiresAt - at < 120000 {
      assert TC.Lookup(TC.Run(maxEntries, ops + [Store(key, s, at)]), key, at + 59999).Some?;
    }
  }

  /** A session with less than 60 s left when it is created can be served after it has expired. */
  lemma ServesExpired(maxEntries: int, key: string, s: Session, at: int)
    requires s.expiresAt - at < 60000
    ensures exists ops: seq<TC.Op<Session>>, now: int ::
              && TC.Nondecreasing(ops) && OnlySessions(ops) && ops != [] && ops[|ops| - 1].now <= now
              && TC.Lookup(TC.Run(maxEntries, ops), key, now) == Some(s) && s.expiresAt <= now
  {
    ServedExactly(maxEntries, [], key, s, at, at + 59999);
    assert [] + [Store(key, s, at)] == [Store(key, s, at)];
    assert TC.Nondecreasing([Store(key, s, at)]) && OnlySessions([Store(key, s, at)]);
  }

  /** Whatever is cached is so for its remaining life less 60 s, or for 60 s if that is more. */
  predicate OnlySessions(ops: seq<TC.Op<Session>>) {
    forall i | 0 <= i < |ops| && ops[i].Set? ::
      var left := ops[i].value.expiresAt - ops[i].now;
      ops[i].ttlMs == if left <= 120000 then 60000 else left - 60000
  }

  /** `createSession` uses the cache so. */
  lemma CreateSessionStoresSo(ops: seq<TC.Op<Session>>, input: Input, created: Created, now: int)
    requires OnlySessions(ops)
    ensures OnlySessions(ops + [TC.Get(input.cacheKey, now)] + ToCache(input, created, now))
  {}

  /** When the key's latest set was made. */
  function CachedAt(ops: seq<TC.Op<Session>>, key: string): (r: int)
    requires TC.Latest(ops, key).Some?
  {
    var op, before := ops[|ops| - 1], ops[..|ops| - 1];
    if op.Set? && op.key == key then op.now else CachedAt(before, key)
  }

  lemma {:induction false} LatestTtl(ops: seq<TC.Op<Session>>, key: string)
    requires OnlySessions(ops) && TC.Latest(ops, key).Some?
    ensures var e := TC.Latest(ops, key).value;
            var left := e.value.expiresAt - CachedAt(ops, key);
            e.expiresAt == CachedAt(ops, key) + (if left <= 120000 then 60000 else left - 60000)
    decreases |ops|
  {
    var op, before := ops[|ops| - 1], ops[..|ops| - 1];
    if !(op.Set? && op.key == key) { LatestTtl(before, key); }
  }

  /**
    Over any run of the shared cache, a session served at `now` is the latest one cached under the
    key. Left alone it is served until 60 s before its end, and at least for 60 s from when it was
    cached. So all hits from `now` on come before its expiry iff it had 60 s left when it was
    cached, and leave over 60 s iff it had 120 s.
   */
  lemma HitIsFresh(maxEntries: int, ops: seq<TC.Op<Session>>, key: string, now: int)
    requires TC.Nondecreasing(ops) && OnlySessions(ops)
    requires TC.Lookup(TC.Run(maxEntries, ops), key, now).Some?
    ensures TC.Latest(ops, key).Some?
    ensures var s := TC.Lookup(TC.Run(maxEntries, ops), key, now).value;
            var left := s.expiresAt - CachedAt(ops, key);
            && s == TC.Latest(ops, key).value.value
            && (forall t :: TC.Lookup(TC.Run(maxEntries, ops), key, t)
                         == if t < CachedAt(ops, key) + 60000 || t + 60000 < s.expiresAt then Some(s) else None)
            && ((forall t | now <= t && TC.Lookup(TC.Run(maxEntries, ops), key, t).Some? :: t < s.expiresAt)
                  <==> left >= 60000)
            && ((forall t | now <= t && TC.Lookup(TC.Run(maxEntries, ops), key, t).Some? :: t + 60000 < s.expiresAt)
                  <==> left >= 120000)
  {
    hide TC.Run, TC.Latest;
    TC.EveryKeyOk(maxEntries, ops, key);
    LatestTtl(ops, key);
    var at := CachedAt(ops, key);
    var s := TC.Lookup(TC.Run(maxEntries, ops), key, now).value;
    var end := TC.Latest(ops, key).value.expiresAt;
    assert forall t :: TC.Lookup(TC.Run(maxEntries, ops), key, t).Some? <==> t < end;
    assert TC.Lookup(TC.Run(maxEntries, ops), key, end - 1).Some?;
  }
}
