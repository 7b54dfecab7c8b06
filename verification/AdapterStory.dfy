/**
  What a whole run of an adapter tells: the complete log of its events, which step moves it where,
  and what has become of its authorization, its polling and its webhooks, all read off the steps
  taken and the raw replies received.
 */
module AdapterStory {
  import opened Options
  import opened OrderResults
  import opened AdapterStateMachine
  import opened Adapter

  // ---------- the run so far ----------

  /** The machine has been in this state. */
  predicate Visited(cfg: Config, steps: seq<Step>, s: State) {
    Run(cfg, steps).payment.sm == s || (steps != [] && Visited(cfg, steps[..|steps| - 1], s))
  }

  /** The reply that doAuthorize got. */
  function Reply(cfg: Config, steps: seq<Step>): (r: Option<Wire>) {
    if steps == [] then None
    else
      var before, step := steps[..|steps| - 1], steps[|steps| - 1];
      if step.OrderReply? && Run(cfg, before).inFlight > 0 then Some(step.reply) else Reply(cfg, before)
  }

  /** doAuthorize threw. */
  predicate Threw(cfg: Config, steps: seq<Step>) {
    steps != [] &&
      var before, step := steps[..|steps| - 1], steps[|steps| - 1];
      Threw(cfg, before) || (step.AuthorizeThrows? && Run(cfg, before).inFlight > 0)
  }

  /** authorize has gone on with the reply. */
  predicate Resolved(cfg: Config, steps: seq<Step>) {
    steps != [] &&
      var before, step := steps[..|steps| - 1], steps[|steps| - 1];
      Resolved(cfg, before) || (step == Resolve && Run(cfg, before).resolving != [])
  }

  /** The reply says that the order is pending. */
  predicate Waits(reply: Option<Wire>) {
    reply.Some? && Says(reply.value, PENDING_STATES)
  }

  // ---------- what one step does to the log ----------

  /** From `p` to `q` the machine stayed and nothing was logged, or it moved once and the emitter was called. */
  ghost predicate Went(p: Payment, q: Payment) {
    if q.sm == p.sm then q.log == p.log && q.tails == p.tails
    else
      && Moves(p.sm, q.sm)
      && q.log == Logged(p.log, FirstEvent(q.ctx, q.sm)) && q.tails == Queued(p.tails, Awaiting(q.ctx, q.sm))
      && (q.sm == Completed ==> q.ctx.orderResult.Some?)
      && (q.sm == Failed ==> q.ctx.error.Some?)
  }

  predicate SamePlace(c: EmissionContext, d: EmissionContext) {
    c.redirectUrl == d.redirectUrl && c.pendingOrderId == d.pendingOrderId
  }

  lemma FinishWent(p: Payment, ctx: EmissionContext, to: State, payload: Payload)
    requires to == Completed ==> ctx.orderResult.Some?
    requires to == Failed ==> ctx.error.Some?
    ensures Went(p, Finish(p.(ctx := ctx), to, payload)) && Finish(p.(ctx := ctx), to, payload).ctx == ctx
  {
    hide FirstEvent, Awaiting, LegalTransitions, Logged, Queued;
  }

  lemma CompleteWent(p: Payment, r: OrderResult)
    ensures Went(p, Complete(p, r)) && SamePlace(p.ctx, Complete(p, r).ctx)
  {
    hide Went, Finish;
    FinishWent(p, p.ctx.(orderResult := Some(r)), Completed, Result(r));
  }

  lemma RejectWent(p: Payment, e: OrderError)
    ensures Went(p, Reject(p, e)) && SamePlace(p.ctx, Reject(p, e).ctx)
  {
    hide Went, Finish;
    FinishWent(p, p.ctx.(error := Some(e)), Failed, Error(e));
  }

  lemma CancelWent(p: Payment, reason: string)
    ensures Went(p, Cancel(p, reason)) && SamePlace(p.ctx, Cancel(p, reason).ctx)
  {
    hide Went, Finish;
    FinishWent(p, p.ctx.(cancellationReason := Some(reason)), Cancelled, Reason(reason));
  }

  lemma Stays(p: Payment, q: Payment)
    requires q.sm == p.sm && q.log == p.log && q.tails == p.tails
    ensures Went(p, q)
  {}

  lemma RequestWent(p: Payment, ctx: EmissionContext, to: State)
    requires to != Completed && to != Failed
    ensures Went(p, Request(p.(ctx := ctx), to)) && Request(p.(ctx := ctx), to).ctx == ctx
  {
    hide FirstEvent, Awaiting, LegalTransitions, Logged, Queued;
  }

  lemma FailWent(p: Payment, e: OrderError)
    ensures Went(p, Fail(p, e)) && SamePlace(p.ctx, Fail(p, e).ctx)
  {
    hide Reject;
    RejectWent(p, e);
  }

  lemma ResolveWent(p: Payment, r: OrderResult)
    ensures Went(p, ResolveResult(p, r))
    ensures r.status != PendingAuthorization ==> SamePlace(p.ctx, ResolveResult(p, r).ctx)
    ensures r.status == PendingAuthorization ==>
              ResolveResult(p, r).ctx == p.ctx.(pendingOrderId := Some(r.orderId), redirectUrl := RedirectOf(r))
  {
    hide Went, Complete, Cancel, Reject, Request, RedirectOf;
    match r.status
    case PendingAuthorization =>
      RequestWent(p, p.ctx.(pendingOrderId := Some(r.orderId), redirectUrl := RedirectOf(r)), Pending);
    case Authorized => CompleteWent(p, r);
    case Captured => CompleteWent(p, r);
    case CancelledStatus => CancelWent(p, "User cancelled");
    case _ => RejectWent(p, ErrorOf(r, "Payment failed"));
  }

  lemma PolledWent(p: Payment, r: OrderResult)
    ensures Went(p, ResolvePolled(p, r)) && SamePlace(p.ctx, ResolvePolled(p, r).ctx)
  {
    hide Went, Complete, Cancel, Reject;
    Stays(p, p);
    if p.sm == Pending {
      match r.status
      case Authorized => CompleteWent(p, r);
      case Captured => CompleteWent(p, r);
      case CancelledStatus => CancelWent(p, "Cancelled at provider (polled)");
      case PendingAuthorization =>
      case _ => RejectWent(p, ErrorOf(r, "Payment failed"));
    }
  }

  lemma WebhookWent(cfg: Config, p: Payment, w: Webhook)
    ensures Went(p, OnWebhook(cfg, p, w)) && SamePlace(p.ctx, OnWebhook(cfg, p, w).ctx)
  {
    hide Went, Complete, Cancel, Reject;
    Stays(p, p);
    if p.sm == Pending && w.sessionId == cfg.sessionId {
      match w.kind
      case PaymentSucceeded => CompleteWent(p, OrderResult(w.orderId, Captured, NoAction, None));
      case PaymentFailedHook => RejectWent(p, OrderError(PROVIDER_REJECTED, "Payment failed at provider"));
      case PaymentCancelledHook => CancelWent(p, "Cancelled at provider");
      case PaymentExpired => CancelWent(p, "Session expired before authorization");
      case PaymentAuthorizedHook =>
    }
  }

  predicate Pends(a: Adapter, step: Step) {
    step == Resolve && a.resolving != [] && a.resolving[0].status == PendingAuthorization
  }

  /** Besides a waiting emission that goes on, only a move of the machine is logged. */
  lemma StepWent(cfg: Config, a: Adapter, step: Step)
    ensures var p, q := a.payment, Next(cfg, a, step).payment;
            if step.Continue? && step.tail in p.tails then q == GoOn(p, step.tail)
            else Went(p, q) && (!Pends(a, step) ==> SamePlace(p.ctx, q.ctx))
  {
    hide Went, Works, Request, Fail, ResolveResult, ResolvePolled, OnWebhook, Cancel, GoOn, MapOrderResult;
    Stays(a.payment, a.payment);
    if Enabled(a, step) {
      var p := a.payment;
      match step
      case InitBegins(valid) => if valid { RequestWent(p, p.ctx, Initializing); }
      case InitSucceeds => RequestWent(p, p.ctx, Ready);
      case InitThrows(e) => FailWent(p, e);
      case Authorize => RequestWent(p, p.ctx, Authorizing);
      case AuthorizeThrows(e) => FailWent(p, e);
      case Resolve => ResolveWent(p, a.resolving[0]);
      case WebhookArrives(w) => WebhookWent(cfg, p, w);
      case PollReply(w) => PolledWent(p, MapOrderResult(w));
      case VoidEnds(reason) => CancelWent(p, reason);
      case CaptureBegins => RequestWent(p, p.ctx, Capturing);
      case _ =>
    }
  }

  // ---------- which step moves the machine where ----------

  lemma StepMovesIff(cfg: Config, a: Adapter, step: Step, to: State)
    requires WorkOk(a) && to in {Initializing, Ready, Authorizing, Pending}
    ensures a.payment.sm != to && Next(cfg, a, step).payment.sm == to
       <==> match to
            case Initializing => step == InitBegins(true) && !a.initialised
            case Ready => step == InitSucceeds && a.loading
            case Authorizing => step == Authorize && a.payment.sm == Ready
            case _ => Pends(a, step) && a.payment.sm == Authorizing
  {
    hide FirstEvent, Awaiting, MapOrderResult, Works, ResolvePolled, OnWebhook, Logged, Queued;
    if Enabled(a, step) {
      match step
      case WebhookArrives(w) => WebhookMayEnd(cfg, a.payment, w);
      case PollReply(w) => PolledMayEnd(a.payment, MapOrderResult(w));
      case _ =>
    }
  }

  /** After any run, exactly these steps begin, make ready, authorize and suspend a payment; `EndsIff` has the ends. */
  lemma {:induction false} MovesIff(cfg: Config, steps: seq<Step>, step: Step, to: State)
    requires to in {Initializing, Ready, Authorizing, Pending}
    ensures var sm := Run(cfg, steps).payment.sm;
            sm != to && Next(cfg, Run(cfg, steps), step).payment.sm == to <==>
              match to
              case Initializing => step == InitBegins(true) && !Begun(steps)
              case Ready => step == InitSucceeds && sm == Initializing
              case Authorizing => step == Authorize && sm == Ready
              case _ => step == Resolve && sm == Authorizing && Waits(Reply(cfg, steps)) && !Resolved(cfg, steps)
  {
    RunKeeps(cfg, steps);
    StepMovesIff(cfg, Run(cfg, steps), step, to);
    WiringTold(cfg, steps);
    AuthorizationTold(cfg, steps);
    hide Run, Next, Begun, Listens, Says;
  }

  /** States come in their order, each only after the one before it. */
  lemma {:induction false} VisitedInOrder(cfg: Config, steps: seq<Step>)
    ensures Visited(cfg, steps, Run(cfg, steps).payment.sm)
    ensures forall s | Visited(cfg, steps, s) :: Rank(Run(cfg, steps).payment.sm) <= Rank(s)
    ensures Visited(cfg, steps, Pending) ==> Visited(cfg, steps, Authorizing)
    ensures Visited(cfg, steps, Authorizing) ==> Visited(cfg, steps, Ready)
    ensures Visited(cfg, steps, Ready) ==> Visited(cfg, steps, Initializing)
    decreases |steps|
  {
    if steps != [] {
      var before, step := steps[..|steps| - 1], steps[|steps| - 1];
      VisitedInOrder(cfg, before);
      StepMoves(cfg, Run(cfg, before), step);
      hide Next;
      if Run(cfg, steps).payment.sm != Run(cfg, before).payment.sm {
        MoveLowersRank(Run(cfg, before).payment.sm, Run(cfg, steps).payment.sm);
      }
    }
  }

  // ---------- the authorization ----------

  ghost predicate AuthorizationIs(a: Adapter, asked: bool, reply: Option<Wire>, threw: bool, resolved: bool) {
    && a.authorizations == (if asked then 1 else 0)
    && a.inFlight == (if asked && reply.None? && !threw then 1 else 0)
    && (reply.Some? || threw ==> asked) && !(reply.Some? && threw) && (resolved ==> reply.Some?)
    && (if reply.Some? && !resolved then |a.resolving| == 1 && Reflects(reply.value, a.resolving[0])
        else a.resolving == [])
  }

  lemma AuthorizationStep(cfg: Config, a: Adapter, step: Step, asked: bool, reply: Option<Wire>, threw: bool,
                          resolved: bool)
    requires WorkOk(a) && AuthorizationIs(a, asked, reply, threw, resolved)
    requires a.payment.sm == Authorizing ==> asked
    ensures AuthorizationIs(Next(cfg, a, step), asked || Next(cfg, a, step).payment.sm == Authorizing,
                            if step.OrderReply? && a.inFlight > 0 then Some(step.reply) else reply,
                            threw || (step.AuthorizeThrows? && a.inFlight > 0),
                            resolved || (step == Resolve && a.resolving != []))
  {
    StepMovesIff(cfg, a, step, Authorizing);
    if step.OrderReply? { ReflectsIff(step.reply, MapOrderResult(step.reply)); }
    hide Pays, MapOrderResult, Reflects;
  }

  /**
    After any run: doAuthorize has been called iff the machine has been authorizing; it is under way
    until its reply or exception; and until authorize goes on, it holds exactly what reflects the reply.
   */
  lemma {:induction false} AuthorizationTold(cfg: Config, steps: seq<Step>)
    ensures AuthorizationIs(Run(cfg, steps), Visited(cfg, steps, Authorizing), Reply(cfg, steps), Threw(cfg, steps),
                            Resolved(cfg, steps))
    decreases |steps|
  {
    hide Next, AuthorizationIs, WorkOk;
    if steps == [] {
      assert AuthorizationIs(INITIAL, false, None, false, false) by { NothingAsked(); }
    } else {
      var before, step := steps[..|steps| - 1], steps[|steps| - 1];
      AuthorizationTold(cfg, before);
      RunKeeps(cfg, before);
      VisitedInOrder(cfg, before);
      AuthorizationStep(cfg, Run(cfg, before), step, Visited(cfg, before, Authorizing), Reply(cfg, before),
                        Threw(cfg, before), Resolved(cfg, before));
    }
  }

  lemma NothingAsked()
    ensures AuthorizationIs(INITIAL, false, None, false, false)
  {}

  /** What authorize makes of its reply, if nothing has ended the payment before it goes on. */
  lemma AuthorizeAnswers(cfg: Config, steps: seq<Step>, payload: Payload)
    requires Run(cfg, steps).payment.sm == Authorizing && Reply(cfg, steps).Some? && !Resolved(cfg, steps)
    ensures var w, after := Reply(cfg, steps).value, Next(cfg, Run(cfg, steps), Resolve).payment;
            && (after.sm == Pending <==> Says(w, PENDING_STATES))
            && (after.winner == Some(payload) <==>
                  match payload
                  case Result(r) => SaysSuccess(w) && Reflects(w, r)
                  case Error(e) => ErrorFits(w, Some(e))
                  case Reason(reason) => Says(w, CANCELLED_STATES) && reason == "User cancelled")
  {
    hide Run, Next, Reflects, ErrorFits, MapOrderResult, Says;
    var a, w := Run(cfg, steps), Reply(cfg, steps).value;
    AuthorizationTold(cfg, steps);
    RunKeeps(cfg, steps);
    StepMovesIff(cfg, a, Resolve, Pending);
    EndsIff(cfg, steps, Resolve, payload);
    ReflectsIff(w, a.resolving[0]);
    SuccessIff(w);
    ErrorIff(w);
    if payload.Result? { ReflectsIff(w, payload.result); }
    if payload.Error? { ErrorIs(w, payload.error); }
  }

  // ---------- polling ----------

  /** Times the poll timer has fired. */
  function Ticks(cfg: Config, steps: seq<Step>): (n: nat) {
    if steps == [] then 0
    else
      var before, step := steps[..|steps| - 1], steps[|steps| - 1];
      Ticks(cfg, before) + (if step == Tick && Run(cfg, before).poll.active then 1 else 0)
  }

  /** Order queries that have been answered or have failed. */
  function Answers(cfg: Config, steps: seq<Step>): (n: nat) {
    if steps == [] then 0
    else
      var before, step := steps[..|steps| - 1], steps[|steps| - 1];
      Answers(cfg, before) + (if (step.PollReply? || step.PollError?) && Run(cfg, before).poll.outstanding > 0 then 1 else 0)
  }

  /** This step stops a timer that is running: a teardown, or a poll reply that no longer says pending. */
  predicate Stops(a: Adapter, step: Step) {
    || (step.Teardown? && a.initialised)
    || (step.PollReply? && a.poll.outstanding > 0 && !Says(step.polled, PENDING_STATES))
  }

  predicate Stopped(cfg: Config, steps: seq<Step>) {
    steps != [] &&
      var before, step := steps[..|steps| - 1], steps[|steps| - 1];
      Stopped(cfg, before) || (cfg.polls && Waits(Reply(cfg, before)) && Stops(Run(cfg, before), step))
  }

  predicate PollingIs(cfg: Config, p: Polling, reply: Option<Wire>, ticks: nat, answers: nat, stopped: bool) {
    && p.started == (if cfg.polls && Waits(reply) then 1 else 0)
    && p.attempts == ticks && p.asked == (if ticks <= 60 then ticks else 60)
    && p.asked == p.outstanding + answers
    && (p.active <==> cfg.polls && Waits(reply) && ticks <= 60 && !stopped)
    && (!(cfg.polls && Waits(reply)) ==> ticks == 0 && !stopped)
  }

  lemma PollingStep(cfg: Config, a: Adapter, step: Step, reply: Option<Wire>, ticks: nat, answers: nat, stopped: bool)
    requires PollingIs(cfg, a.poll, reply, ticks, answers, stopped)
    requires LoadingOk(a) && (a.inFlight > 0 ==> reply.None?)
    ensures PollingIs(cfg, Next(cfg, a, step).poll,
                      if step.OrderReply? && a.inFlight > 0 then Some(step.reply) else reply,
                      ticks + (if step == Tick && a.poll.active then 1 else 0),
                      answers + (if (step.PollReply? || step.PollError?) && a.poll.outstanding > 0 then 1 else 0),
                      stopped || (cfg.polls && Waits(reply) && Stops(a, step)))
  {
    if step.OrderReply? { ErrorIff(step.reply); }
    if step.PollReply? { ErrorIff(step.polled); }
    hide Pays, MapOrderResult, Says;
  }

  /**
    After any run: polling has been started iff the adapter polls and its reply said pending; the
    timer runs until it has fired 61 times, the adapter is torn down, or a poll reply says something
    else; every one of its first sixty firings has asked once, and every question is answered or out.
   */
  lemma {:induction false} PollingTold(cfg: Config, steps: seq<Step>)
    ensures PollingIs(cfg, Run(cfg, steps).poll, Reply(cfg, steps), Ticks(cfg, steps), Answers(cfg, steps),
                      Stopped(cfg, steps))
    decreases |steps|
  {
    hide Next, PollingIs, Stops, LoadingOk, Waits;
    if steps == [] {
      NothingPolled(cfg);
    } else {
      var before, step := steps[..|steps| - 1], steps[|steps| - 1];
      PollingTold(cfg, before);
      LoadingKept(cfg, before);
      NoReplyInFlight(cfg, before);
      PollingStep(cfg, Run(cfg, before), step, Reply(cfg, before), Ticks(cfg, before), Answers(cfg, before),
                  Stopped(cfg, before));
    }
  }

  lemma LoadingKept(cfg: Config, steps: seq<Step>)
    ensures LoadingOk(Run(cfg, steps))
  {
    RunKeeps(cfg, steps);
  }

  lemma NothingPolled(cfg: Config)
    ensures PollingIs(cfg, INITIAL.poll, None, 0, 0, false)
  {}

  lemma NoReplyInFlight(cfg: Config, steps: seq<Step>)
    ensures Run(cfg, steps).inFlight > 0 ==> Reply(cfg, steps).None?
  {
    AuthorizationTold(cfg, steps);
  }

  // ---------- initialisation and webhooks ----------

  /** `init` succeeds at step `i`. */
  predicate Initialises(cfg: Config, steps: seq<Step>, i: nat)
    requires i < |steps|
  {
    steps[i] == InitSucceeds && Run(cfg, steps[..i]).loading
  }

  /** `init` has succeeded, with no teardown since. */
  ghost predicate Listens(cfg: Config, steps: seq<Step>) {
    exists i: nat | i < |steps| && Initialises(cfg, steps, i) :: forall k | i < k < |steps| :: steps[k] != Teardown
  }

  predicate Begun(steps: seq<Step>) {
    exists i | 0 <= i < |steps| :: steps[i].InitBegins?
  }

  lemma ListensStep(cfg: Config, steps: seq<Step>)
    requires steps != []
    ensures var before, step := steps[..|steps| - 1], steps[|steps| - 1];
            Listens(cfg, steps) <==>
              (step == InitSucceeds && Run(cfg, before).loading) || (step != Teardown && Listens(cfg, before))
  {
    hide Run;
    var n := |steps| - 1;
    var before := steps[..n];
    assert forall i | 0 <= i < n :: steps[i] == before[i] && steps[..i] == before[..i];
    forall i: nat | i < n
      ensures Initialises(cfg, steps, i) <==> Initialises(cfg, before, i)
    {}
    if Listens(cfg, before) && steps[n] != Teardown {
      var i: nat :| i < n && Initialises(cfg, before, i) && forall k | i < k < n :: before[k] != Teardown;
      assert Initialises(cfg, steps, i);
    }
    if steps[n] == InitSucceeds && Run(cfg, before).loading { assert Initialises(cfg, steps, n); }
    if Listens(cfg, steps) {
      var i: nat :| i <= n && Initialises(cfg, steps, i) && forall k | i < k <= n :: steps[k] != Teardown;
      if i < n { assert Initialises(cfg, before, i); }
    }
  }

  lemma BegunStep(steps: seq<Step>)
    requires steps != []
    ensures Begun(steps) <==> Begun(steps[..|steps| - 1]) || steps[|steps| - 1].InitBegins?
  {
    assert forall i | 0 <= i < |steps| - 1 :: steps[i] == steps[..|steps| - 1][i];
  }

  lemma WiringStep(cfg: Config, a: Adapter, step: Step)
    requires LoadingOk(a)
    ensures Next(cfg, a, step).initialised <==> a.initialised || step.InitBegins?
    ensures Next(cfg, a, step).wired <==> (step == InitSucceeds && a.loading) || (step != Teardown && a.wired)
  {
    hide Pays, MapOrderResult;
  }

  /** After any run: `init` has been called or not; webhooks reach the adapter iff it succeeded, with no teardown since. */
  lemma {:induction false} WiringTold(cfg: Config, steps: seq<Step>)
    ensures Run(cfg, steps).initialised <==> Begun(steps)
    ensures Run(cfg, steps).loading <==> Run(cfg, steps).payment.sm == Initializing
    ensures Run(cfg, steps).wired <==> Listens(cfg, steps)
    decreases |steps|
  {
    hide Next, Begun, Listens;
    RunKeeps(cfg, steps);
    if steps == [] {
      NothingBegun(cfg);
    } else {
      var before, step := steps[..|steps| - 1], steps[|steps| - 1];
      WiringTold(cfg, before);
      RunKeeps(cfg, before);
      WiringStep(cfg, Run(cfg, before), step);
      ListensStep(cfg, steps);
      BegunStep(steps);
    }
  }

  lemma NothingBegun(cfg: Config)
    ensures !Begun([]) && !Listens(cfg, [])
  {}

  // ---------- the complete log ----------

  /** The events of some kinds, in their order. */
  function Only(log: seq<CheckoutEvent>, kinds: CheckoutEvent -> bool): (r: seq<CheckoutEvent>) {
    if log == [] then []
    else Only(log[..|log| - 1], kinds) + (if kinds(log[|log| - 1]) then [log[|log| - 1]] else [])
  }

  const START: CheckoutEvent -> bool := (e: CheckoutEvent) => e.INITIALIZING? || e.SDK_LOADED? || e.PAYMENT_AUTHORIZING?

  const READINESS: CheckoutEvent -> bool := (e: CheckoutEvent) => e.SDK_LOADED? || e.PAYMENT_METHOD_READY?

  const WAITING: CheckoutEvent -> bool := (e: CheckoutEvent) => e.REDIRECT_REQUIRED? || e.PAYMENT_PENDING?

  const END: CheckoutEvent -> bool := (e: CheckoutEvent) => e.PAYMENT_AUTHORIZED? || IsTerminalEvent(e)

  lemma OnlyLogged(log: seq<CheckoutEvent>, e: Option<CheckoutEvent>, kinds: CheckoutEvent -> bool)
    ensures Only(Logged(log, e), kinds) == Only(log, kinds) + (if e.Some? && kinds(e.value) then [e.value] else [])
  {
    var all := Logged(log, e);
    if e.Some? { assert all[..|all| - 1] == log; } else { assert Only(log, kinds) + [] == Only(log, kinds); }
  }

  /** How far the beginning of a payment has come. */
  ghost predicate StartIs(p: Payment, initializing: bool, ready: bool, authorizing: bool) {
    && Only(p.log, START)
    == [INITIALIZING, SDK_LOADED, PAYMENT_AUTHORIZING]
         [..if authorizing then 3 else if ready then 2 else if initializing then 1 else 0]
    && Only(p.log, READINESS)
    == (if ready then [SDK_LOADED] + (if ReadyTail in p.tails then [] else [PAYMENT_METHOD_READY]) else [])
    && p.tails[ReadyTail] <= (if ready then 1 else 0)
  }

  /** What the machine's state tells about how far it has come. */
  predicate Progress(sm: State, initializing: bool, ready: bool, authorizing: bool) {
    && (authorizing ==> ready) && (ready ==> initializing) && (initializing <==> sm != Idle)
    && (sm == Initializing ==> !ready) && (sm == Ready ==> ready && !authorizing) && (sm == Authorizing ==> authorizing)
  }

  lemma StartMoves(p: Payment, q: Payment, initializing: bool, ready: bool, authorizing: bool)
    requires Went(p, q) && Progress(p.sm, initializing, ready, authorizing)
    requires StartIs(p, initializing, ready, authorizing)
    ensures StartIs(q, initializing || q.sm == Initializing, ready || q.sm == Ready, authorizing || q.sm == Authorizing)
  {
    OnlyLogged(p.log, FirstEvent(q.ctx, q.sm), START);
    OnlyLogged(p.log, FirstEvent(q.ctx, q.sm), READINESS);
    hide Only, Logged;
  }

  lemma StartGoesOn(p: Payment, tail: Tail, initializing: bool, ready: bool, authorizing: bool)
    requires tail in p.tails && StartIs(p, initializing, ready, authorizing)
    ensures StartIs(GoOn(p, tail), initializing, ready, authorizing)
  {
    OnlyLogged(p.log, TailEvent(p.ctx, tail), START);
    OnlyLogged(p.log, TailEvent(p.ctx, tail), READINESS);
    hide Only, Logged;
  }

  function OrderIdOf(w: Wire): (id: string) {
    if w.orderId.Some? then w.orderId.value else "unknown"
  }

  /** What has been told of the waiting: first where to go, if the reply says so, then that the order is pending. */
  ghost predicate WaitingIs(p: Payment, reply: Option<Wire>, pending: bool) {
    if !pending then Only(p.log, WAITING) == [] && p.tails[PendingTail] == 0
    else
      && Waits(reply)
      && var url, id := RedirectField(reply.value), OrderIdOf(reply.value);
         && p.ctx.redirectUrl == (if Given(url) then url else None) && p.ctx.pendingOrderId == Some(id)
         && p.tails[PendingTail] <= (if Given(url) then 1 else 0)
         && Only(p.log, WAITING)
         == (if Given(url) then [REDIRECT_REQUIRED(url.value)] else [])
            + (if PendingTail in p.tails then [] else [PAYMENT_PENDING(id)])
  }

  /** The machine becomes pending. */
  lemma WaitingBegins(p: Payment, q: Payment, w: Wire, r: OrderResult)
    requires Went(p, q) && p.sm != Pending && q.sm == Pending && WaitingIs(p, Some(w), false)
    requires Reflects(w, r) && r.status == PendingAuthorization
    requires q.ctx == p.ctx.(pendingOrderId := Some(r.orderId), redirectUrl := RedirectOf(r))
    ensures WaitingIs(q, Some(w), true)
  {
    OnlyLogged(p.log, FirstEvent(q.ctx, q.sm), WAITING);
    FirstOfTwo(w.orderId, Some("unknown"));
    hide Only, Logged, Says, RedirectField, ErrorFits, FirstPresent, Moves;
  }

  /** Any other step of the machine. */
  lemma WaitingMoves(p: Payment, q: Payment, reply: Option<Wire>, pending: bool)
    requires Went(p, q) && WaitingIs(p, reply, pending) && (q.sm == Pending ==> p.sm == Pending)
    requires pending ==> SamePlace(p.ctx, q.ctx)
    ensures WaitingIs(q, reply, pending)
  {
    OnlyLogged(p.log, FirstEvent(q.ctx, q.sm), WAITING);
    hide Only, Logged, Says, RedirectField, Moves;
  }

  lemma WaitingGoesOn(p: Payment, tail: Tail, reply: Option<Wire>, pending: bool)
    requires tail in p.tails && WaitingIs(p, reply, pending)
    ensures WaitingIs(GoOn(p, tail), reply, pending)
  {
    OnlyLogged(p.log, TailEvent(p.ctx, tail), WAITING);
    hide Only, Logged, Says, RedirectField;
  }

  /** A completion is announced before it is told, and no other end is. */
  ghost predicate EndIs(p: Payment) {
    Only(p.log, END) == (if p.sm == Completed then [PAYMENT_AUTHORIZED] else []) + TerminalEvents(p.log)
  }

  lemma EndMoves(p: Payment, q: Payment)
    requires Went(p, q) && EndIs(p) && (!IsTerminal(p.sm) ==> TerminalEvents(p.log) == [])
    ensures EndIs(q)
  {
    OnlyLogged(p.log, FirstEvent(q.ctx, q.sm), END);
    LoggedTerminal(p.log, FirstEvent(q.ctx, q.sm));
    hide Only, Logged, TerminalEvents, Awaiting;
  }

  lemma EndGoesOn(p: Payment, tail: Tail)
    requires tail in p.tails && EndIs(p)
    ensures EndIs(GoOn(p, tail))
  {
    OnlyLogged(p.log, TailEvent(p.ctx, tail), END);
    LoggedTerminal(p.log, TailEvent(p.ctx, tail));
    hide Only, Logged, TerminalEvents;
  }

  lemma ProgressOf(cfg: Config, steps: seq<Step>)
    ensures Progress(Run(cfg, steps).payment.sm, Visited(cfg, steps, Initializing), Visited(cfg, steps, Ready),
                     Visited(cfg, steps, Authorizing))
    decreases |steps|
  {
    hide Next;
    VisitedInOrder(cfg, steps);
    if steps != [] {
      var before := steps[..|steps| - 1];
      ProgressOf(cfg, before);
      StepMoves(cfg, Run(cfg, before), steps[|steps| - 1]);
    }
  }

  /** Once pending, authorize has gone on. */
  lemma {:induction false} PendingIsResolved(cfg: Config, steps: seq<Step>)
    ensures Visited(cfg, steps, Pending) ==> Resolved(cfg, steps)
    decreases |steps|
  {
    hide Next;
    if steps != [] {
      var before := steps[..|steps| - 1];
      PendingIsResolved(cfg, before);
      VisitedInOrder(cfg, before);
      RunKeeps(cfg, before);
      StepMovesIff(cfg, Run(cfg, before), steps[|steps| - 1], Pending);
    }
  }

  lemma {:induction false} WaitingStep(cfg: Config, steps: seq<Step>)
    requires steps != []
    requires var before := steps[..|steps| - 1];
             WaitingIs(Run(cfg, before).payment, Reply(cfg, before), Visited(cfg, before, Pending))
    ensures WaitingIs(Run(cfg, steps).payment, Reply(cfg, steps), Visited(cfg, steps, Pending))
  {
    hide Next, WaitingIs, Went, Reflects;
    var before, step := steps[..|steps| - 1], steps[|steps| - 1];
    var a := Run(cfg, before);
    var p, q := a.payment, Run(cfg, steps).payment;
    RunKeeps(cfg, before);
    VisitedInOrder(cfg, before);
    AuthorizationTold(cfg, before);
    PendingIsResolved(cfg, before);
    StepWent(cfg, a, step);
    StepMovesIff(cfg, a, step, Pending);
    if step.Continue? && step.tail in p.tails {
      WaitingGoesOn(p, step.tail, Reply(cfg, before), Visited(cfg, before, Pending));
    } else if p.sm != Pending && q.sm == Pending {
      assert !Visited(cfg, before, Pending);
      PendingGoesOn(cfg, a);
      WaitingBegins(p, q, Reply(cfg, before).value, a.resolving[0]);
    } else {
      WaitingMoves(p, q, Reply(cfg, before), Visited(cfg, before, Pending));
      if !Visited(cfg, before, Pending) { NotWaiting(q, Reply(cfg, before), Reply(cfg, steps)); }
    }
  }

  lemma NotWaiting(p: Payment, reply: Option<Wire>, reply': Option<Wire>)
    requires WaitingIs(p, reply, false)
    ensures WaitingIs(p, reply', false)
  {}

  lemma PendingGoesOn(cfg: Config, a: Adapter)
    requires Pends(a, Resolve)
    ensures Next(cfg, a, Resolve).payment.ctx
         == a.payment.ctx.(pendingOrderId := Some(a.resolving[0].orderId), redirectUrl := RedirectOf(a.resolving[0]))
  {
    ResolveWent(a.payment, a.resolving[0]);
    hide ResolveResult, RedirectOf, Went;
  }

  lemma NothingLogged()
    ensures StartIs(UNTOUCHED, false, false, false) && WaitingIs(UNTOUCHED, None, false) && EndIs(UNTOUCHED)
  {}

  /**
    The complete log, over every run: INITIALIZING, SDK_LOADED and PAYMENT_AUTHORIZING once each, as
    far as the machine has come, with PAYMENT_METHOD_READY after SDK_LOADED; where to go and then
    that the order is pending, as the reply says, iff the machine has been pending; and for a
    completion PAYMENT_AUTHORIZED before the terminal event. What still waits for the bus is missing.
   */
  lemma {:induction false} LogTold(cfg: Config, steps: seq<Step>)
    ensures StartIs(Run(cfg, steps).payment, Visited(cfg, steps, Initializing), Visited(cfg, steps, Ready),
                    Visited(cfg, steps, Authorizing))
    ensures WaitingIs(Run(cfg, steps).payment, Reply(cfg, steps), Visited(cfg, steps, Pending))
    ensures EndIs(Run(cfg, steps).payment)
    decreases |steps|
  {
    hide Next, StartIs, WaitingIs, EndIs, Went, Progress, GoOn;
    if steps == [] {
      NothingLogged();
    } else {
      var before, step := steps[..|steps| - 1], steps[|steps| - 1];
      LogTold(cfg, before);
      WaitingStep(cfg, steps);
      ProgressOf(cfg, before);
      ExactlyOneTerminalEvent(cfg, before);
      var p, q := Run(cfg, before).payment, Run(cfg, steps).payment;
      StepWent(cfg, Run(cfg, before), step);
      if step.Continue? && step.tail in p.tails {
        StartGoesOn(p, step.tail, Visited(cfg, before, Initializing), Visited(cfg, before, Ready),
                    Visited(cfg, before, Authorizing));
        EndGoesOn(p, step.tail);
        SameState(cfg, steps);
      } else {
        StartMoves(p, q, Visited(cfg, before, Initializing), Visited(cfg, before, Ready),
                   Visited(cfg, before, Authorizing));
        EndMoves(p, q);
      }
    }
  }

  lemma SameState(cfg: Config, steps: seq<Step>)
    requires steps != [] && steps[|steps| - 1].Continue?
    ensures forall s :: Visited(cfg, steps, s) <==> Visited(cfg, steps[..|steps| - 1], s)
  {
    VisitedInOrder(cfg, steps[..|steps| - 1]);
    assert Run(cfg, steps).payment.sm == Run(cfg, steps[..|steps| - 1]).payment.sm;
    hide Run;
  }

  /** A waiting emission that the bus lets go on is told then and there, and waits no longer. */
  lemma {:induction false} GoingOnTells(cfg: Config, steps: seq<Step>, tail: Tail)
    requires tail in Run(cfg, steps).payment.tails
    ensures var p, q := Run(cfg, steps).payment, Next(cfg, Run(cfg, steps), Continue(tail)).payment;
            && q.tails == p.tails - multiset{tail} && q.sm == p.sm
            && match tail
               case ReadyTail => q.log == p.log + [PAYMENT_METHOD_READY]
               case PendingTail =>
                 Reply(cfg, steps).Some? && q.log == p.log + [PAYMENT_PENDING(OrderIdOf(Reply(cfg, steps).value))]
               case CompletedTail =>
                 p.sm == Completed && p.winner.Some? && p.winner.value.Result?
                 && q.log == p.log + [PAYMENT_COMPLETED(p.winner.value.result)]
  {
    hide Run, WaitingIs, EndIs, StartIs, Accounted, WorkOk;
    LogTold(cfg, steps);
    RunKeeps(cfg, steps);
    var p := Run(cfg, steps).payment;
    match tail
    case ReadyTail =>
    case PendingTail => TellsPending(p, Reply(cfg, steps), Visited(cfg, steps, Pending));
    case CompletedTail => TellsCompleted(p);
  }

  lemma TellsPending(p: Payment, reply: Option<Wire>, pending: bool)
    requires WaitingIs(p, reply, pending) && PendingTail in p.tails
    ensures reply.Some? && p.ctx.pendingOrderId == Some(OrderIdOf(reply.value))
  {
    hide Only, Says, RedirectField;
  }

  lemma TellsCompleted(p: Payment)
    requires Accounted(p) && CompletedTail in p.tails
    ensures p.sm == Completed && p.winner.Some? && p.winner.value.Result?
    ensures p.ctx.orderResult == Some(p.winner.value.result)
  {}

  /**
    When authorize goes on with a reply that says pending, the shopper is told where to go if the
    reply says so, and that the order is pending after that; otherwise at once.
   */
  lemma {:induction false} PendingIsTold(cfg: Config, steps: seq<Step>)
    requires Run(cfg, steps).payment.sm == Authorizing && Waits(Reply(cfg, steps)) && !Resolved(cfg, steps)
    ensures var p, q, w := Run(cfg, steps).payment, Next(cfg, Run(cfg, steps), Resolve).payment, Reply(cfg, steps).value;
            var url := RedirectField(w);
            && q.sm == Pending
            && q.log == p.log + [if Given(url) then REDIRECT_REQUIRED(url.value) else PAYMENT_PENDING(OrderIdOf(w))]
            && q.tails == p.tails + (if Given(url) then multiset{PendingTail} else multiset{})
  {
    var a := Run(cfg, steps);
    AuthorizationTold(cfg, steps);
    RunKeeps(cfg, steps);
    StepMovesIff(cfg, a, Resolve, Pending);
    StepWent(cfg, a, Resolve);
    PendingGoesOn(cfg, a);
    FirstOfTwo(Reply(cfg, steps).value.orderId, Some("unknown"));
    hide Run, Next, Says, RedirectField, ErrorFits, FirstPresent, Moves, WorkOk;
  }

  // ---------- the object ----------

  /** All this holds of every adapter object, whatever has been called on it. */
  lemma ObjectsTell(adapter: CheckoutAdapter)
    requires adapter.Valid()
    ensures var cfg, steps, a := adapter.cfg, adapter.steps, adapter.View();
            && StartIs(a.payment, Visited(cfg, steps, Initializing), Visited(cfg, steps, Ready),
                       Visited(cfg, steps, Authorizing))
            && WaitingIs(a.payment, Reply(cfg, steps), Visited(cfg, steps, Pending))
            && EndIs(a.payment)
            && AuthorizationIs(a, Visited(cfg, steps, Authorizing), Reply(cfg, steps), Threw(cfg, steps),
                               Resolved(cfg, steps))
            && PollingIs(cfg, a.poll, Reply(cfg, steps), Ticks(cfg, steps), Answers(cfg, steps), Stopped(cfg, steps))
            && (a.wired <==> Listens(cfg, steps))
  {
    hide Run, StartIs, WaitingIs, EndIs, AuthorizationIs, PollingIs, Listens;
    LogTold(adapter.cfg, adapter.steps);
    AuthorizationTold(adapter.cfg, adapter.steps);
    PollingTold(adapter.cfg, adapter.steps);
    WiringTold(adapter.cfg, adapter.steps);
  }
}
