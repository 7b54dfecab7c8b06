/**
  One adapter as a concurrent state machine: the atomic pieces of `init`, `authorize`, webhook
  delivery, polling, PayPal's `void`, the start of `capture`, teardown, and the emissions still awaiting the
  bus, in any interleaving.
 */
module Adapter {
  import opened Options
  import opened OrderResults
  import opened AdapterStateMachine

  datatype WebhookKind =
    | PaymentAuthorizedHook | PaymentSucceeded | PaymentFailedHook | PaymentCancelledHook | PaymentExpired

  datatype Webhook = Webhook(sessionId: string, kind: WebhookKind, orderId: string)

  datatype EmissionContext = EmissionContext(
    orderResult: Option<OrderResult>,
    error: Option<OrderError>,
    cancellationReason: Option<string>,
    redirectUrl: Option<string>,
    pendingOrderId: Option<string>)

  datatype CheckoutEvent =
    | INITIALIZING | SDK_LOADED | PAYMENT_METHOD_READY | PAYMENT_AUTHORIZING
    | REDIRECT_REQUIRED(url: string) | PAYMENT_PENDING(orderId: string)
    | PAYMENT_AUTHORIZED | PAYMENT_COMPLETED(result: OrderResult)
    | PAYMENT_FAILED(error: OrderError) | PAYMENT_CANCELLED(reason: string)

  /** The rest of an emission that awaits the bus after its first event. */
  datatype Tail = ReadyTail | PendingTail | CompletedTail

  /** What the step that ended the payment supplied. */
  datatype Payload = Result(result: OrderResult) | Error(error: OrderError) | Reason(reason: string)

  /** The state machine and the emitter attached to it. */
  datatype Payment = Payment(
    sm: State,
    ctx: EmissionContext,
    tails: multiset<Tail>,
    log: seq<CheckoutEvent>,          // events handed to the bus
    winner: Option<Payload>)          // history: what won the terminal transition

  datatype Polling = Polling(active: bool, attempts: nat, started: nat, asked: nat, outstanding: nat)

  datatype Adapter = Adapter(
    payment: Payment,
    initialised: bool,                // init has been called
    loading: bool,                    // init is awaiting loadSDK and doInit
    wired: bool,                      // webhooks reach the adapter
    authorizations: nat,              // calls of doAuthorize
    inFlight: nat,                    // doAuthorize has not returned yet
    resolving: seq<OrderResult>,      // doAuthorize has returned, authorize has not gone on yet
    poll: Polling)

  /** `sessionId` of the credentials; `polls` for QR adapters and polling PPRO methods. */
  datatype Config = Config(sessionId: string, polls: bool)

  const MAX_POLL_ATTEMPTS := 60

  const UNTOUCHED := Payment(Idle, EmissionContext(None, None, None, None, None), multiset{}, [], None)

  const INITIAL := Adapter(UNTOUCHED, false, false, false, 0, 0, [], Polling(false, 0, 0, 0, 0))

  datatype Step =
    | InitBegins(valid: bool)
    | InitSucceeds
    | InitThrows(initError: OrderError)
    | Authorize
    | OrderReply(reply: Wire)               // doAuthorize got its answer; all adapters return it mapped
    | AuthorizeThrows(authorizeError: OrderError)
    | Resolve                               // authorize goes on with doAuthorize's result
    | WebhookArrives(webhook: Webhook)
    | Tick                                  // the poll timer fires
    | PollReply(polled: Wire)
    | PollError
    | VoidEnds(reason: string)
    | CaptureBegins
    | Continue(tail: Tail)                  // the bus lets an emission go on
    | Teardown

  // ---------- emission ----------

  /** What `onStateChange` hands to the bus at once; no state hands over more than one event. */
  function FirstEvent(ctx: EmissionContext, to: State): (r: Option<CheckoutEvent>) {
    match to
    case Initializing => Some(INITIALIZING)
    case Ready => Some(SDK_LOADED)
    case Authorizing => Some(PAYMENT_AUTHORIZING)
    case Pending =>
      Some(if Truthy(ctx.redirectUrl) then REDIRECT_REQUIRED(ctx.redirectUrl.value) else PendingEvent(ctx))
    case Completed => if ctx.orderResult.Some? then Some(PAYMENT_AUTHORIZED) else None
    case Failed => if ctx.error.Some? then Some(PAYMENT_FAILED(ctx.error.value)) else None
    case Cancelled => Some(PAYMENT_CANCELLED(ReasonOf(ctx)))
    case _ => None
  }

  /** What is left to emit once the bus has dealt with the first event. */
  function Awaiting(ctx: EmissionContext, to: State): (r: Option<Tail>) {
    match to
    case Ready => Some(ReadyTail)
    case Pending => if Truthy(ctx.redirectUrl) then Some(PendingTail) else None
    case Completed => if ctx.orderResult.Some? then Some(CompletedTail) else None
    case _ => None
  }

  function PendingEvent(ctx: EmissionContext): (r: CheckoutEvent) {
    PAYMENT_PENDING(if ctx.pendingOrderId.Some? then ctx.pendingOrderId.value else "unknown")
  }

  function ReasonOf(ctx: EmissionContext): (r: string) {
    if ctx.cancellationReason.Some? then ctx.cancellationReason.value else ""
  }

  /** The rest of an emission reads the shared context only now. */
  function TailEvent(ctx: EmissionContext, tail: Tail): (r: Option<CheckoutEvent>) {
    match tail
    case ReadyTail => Some(PAYMENT_METHOD_READY)
    case PendingTail => Some(PendingEvent(ctx))
    case CompletedTail => if ctx.orderResult.Some? then Some(PAYMENT_COMPLETED(ctx.orderResult.value)) else None
  }

  function Logged(log: seq<CheckoutEvent>, e: Option<CheckoutEvent>): (r: seq<CheckoutEvent>) {
    if e.Some? then log + [e.value] else log
  }

  function Queued(tails: multiset<Tail>, tail: Option<Tail>): (r: multiset<Tail>) {
    if tail.Some? then tails + multiset{tail.value} else tails
  }

  // ---------- requests ----------

  /** `sm.transition(to)`; an illegal request throws and changes nothing. */
  function Request(p: Payment, to: State): (r: Payment) {
    if Moves(p.sm, to)
    then p.(sm := to, log := Logged(p.log, FirstEvent(p.ctx, to)), tails := Queued(p.tails, Awaiting(p.ctx, to)))
    else p
  }

  /** A request that, if it ends the payment, wins with this payload. */
  function Finish(p: Payment, to: State, payload: Payload): (r: Payment) {
    if Moves(p.sm, to) then Request(p, to).(winner := Some(payload)) else p
  }

  function Complete(p: Payment, r: OrderResult): (result: Payment) {
    Finish(p.(ctx := p.ctx.(orderResult := Some(r))), Completed, Result(r))
  }

  function Reject(p: Payment, e: OrderError): (r: Payment) {
    Finish(p.(ctx := p.ctx.(error := Some(e))), Failed, Error(e))
  }

  function Cancel(p: Payment, reason: string): (r: Payment) {
    Finish(p.(ctx := p.ctx.(cancellationReason := Some(reason))), Cancelled, Reason(reason))
  }

  function ErrorOf(r: OrderResult, fallback: string): (result: OrderError) {
    if r.error.Some? then r.error.value else OrderError(PROVIDER_REJECTED, fallback)
  }

  /** `fail`: only from these four states; elsewhere just the context is overwritten. */
  function Fail(p: Payment, e: OrderError): (r: Payment) {
    if p.sm == Idle || p.sm == Initializing || p.sm == Authorizing || p.sm == Pending then Reject(p, e)
    else p.(ctx := p.ctx.(error := Some(e)))
  }

  function RedirectOf(r: OrderResult): (result: Option<string>) {
    if r.nextAction.Redirect? then Some(r.nextAction.redirectUrl) else None
  }

  function Suspend(p: Payment, r: OrderResult): (result: Payment) {
    Request(p.(ctx := p.ctx.(pendingOrderId := Some(r.orderId), redirectUrl := RedirectOf(r))), Pending)
  }

  /** `resolveAuthorizeResult` - it does not look at the state first. */
  function ResolveResult(p: Payment, r: OrderResult): (result: Payment) {
    match r.status
    case PendingAuthorization => Suspend(p, r)
    case Authorized => Complete(p, r)
    case Captured => Complete(p, r)
    case CancelledStatus => Cancel(p, "User cancelled")
    case _ => Reject(p, ErrorOf(r, "Payment failed"))
  }

  /** `onPolledTerminal` / `driveTerminal`. */
  function ResolvePolled(p: Payment, r: OrderResult): (result: Payment) {
    if p.sm != Pending then p
    else
      match r.status
      case Authorized => Complete(p, r)
      case Captured => Complete(p, r)
      case CancelledStatus => Cancel(p, "Cancelled at provider (polled)")
      case PendingAuthorization => p
      case _ => Reject(p, ErrorOf(r, "Payment failed"))
  }

  function OnWebhook(cfg: Config, p: Payment, w: Webhook): (r: Payment) {
    if p.sm != Pending || w.sessionId != cfg.sessionId then p
    else
      match w.kind
      case PaymentSucceeded => Complete(p, OrderResult(w.orderId, Captured, NoAction, None))
      case PaymentFailedHook => Reject(p, OrderError(PROVIDER_REJECTED, "Payment failed at provider"))
      case PaymentCancelledHook => Cancel(p, "Cancelled at provider")
      case PaymentExpired => Cancel(p, "Session expired before authorization")
      case PaymentAuthorizedHook => p
  }

  /** A waiting emission goes on. */
  function GoOn(p: Payment, tail: Tail): (r: Payment) {
    p.(tails := p.tails - multiset{tail}, log := Logged(p.log, TailEvent(p.ctx, tail)))
  }

  // ---------- polling ----------

  function Started(p: Polling): (r: Polling) {
    if p.active then p else p.(active := true, attempts := 0, started := p.started + 1)
  }

  function Ticked(p: Polling): (r: Polling) {
    var q := p.(attempts := p.attempts + 1);
    if q.attempts > MAX_POLL_ATTEMPTS then q.(active := false)
    else q.(asked := q.asked + 1, outstanding := q.outstanding + 1)
  }

  /** A poll has been answered; an answer that settles the order stops the timer. */
  function Answered(p: Polling, settled: bool): (r: Polling)
    requires p.outstanding > 0
  {
    p.(outstanding := p.outstanding - 1, active := p.active && !settled)
  }

  // ---------- steps ----------

  /** Whether the step can happen at all; one that cannot leaves the adapter as it is. */
  predicate Enabled(a: Adapter, step: Step) {
    match step
    case InitBegins(_) => !a.initialised
    case InitSucceeds => a.loading
    case InitThrows(_) => a.loading
    case Authorize => a.initialised && a.payment.sm == Ready
    case OrderReply(_) => a.inFlight > 0
    case AuthorizeThrows(_) => a.inFlight > 0
    case Resolve => a.resolving != []
    case WebhookArrives(_) => a.wired
    case Tick => a.poll.active
    case PollReply(_) => a.poll.outstanding > 0
    case PollError => a.poll.outstanding > 0
    case VoidEnds(_) => a.initialised
    case CaptureBegins => a.initialised
    case Continue(tail) => tail in a.payment.tails
    case Teardown => a.initialised
  }

  /** What an enabled step does to the state machine and its emitter. */
  function Pays(cfg: Config, a: Adapter, step: Step): (r: Payment)
    requires Enabled(a, step)
  {
    match step
    case InitBegins(valid) => if valid then Request(a.payment, Initializing) else a.payment
    case InitSucceeds => Request(a.payment, Ready)
    case InitThrows(e) => Fail(a.payment, e)
    case Authorize => Request(a.payment, Authorizing)
    case AuthorizeThrows(e) => Fail(a.payment, e)
    case Resolve => ResolveResult(a.payment, a.resolving[0])
    case WebhookArrives(w) => OnWebhook(cfg, a.payment, w)
    case PollReply(w) =>
      var r := MapOrderResult(w);
      if r.status == PendingAuthorization then a.payment else ResolvePolled(a.payment, r)
    case VoidEnds(reason) => Cancel(a.payment, reason)
    case CaptureBegins => Request(a.payment, Capturing)
    case Continue(tail) => GoOn(a.payment, tail)
    case _ => a.payment
  }

  /** What it does to the work under way. */
  function Works(cfg: Config, a: Adapter, step: Step): (r: Adapter)
    requires Enabled(a, step)
  {
    match step
    case InitBegins(valid) => a.(initialised := true, loading := valid)
    case InitSucceeds => a.(loading := false, wired := true)
    case InitThrows(_) => a.(loading := false)
    case Authorize => a.(authorizations := a.authorizations + 1, inFlight := a.inFlight + 1)
    case OrderReply(w) =>
      var r := MapOrderResult(w);
      a.(inFlight := a.inFlight - 1, resolving := a.resolving + [r],
         poll := if cfg.polls && r.status == PendingAuthorization then Started(a.poll) else a.poll)
    case AuthorizeThrows(_) => a.(inFlight := a.inFlight - 1)
    case Resolve => a.(resolving := a.resolving[1..])
    case Tick => a.(poll := Ticked(a.poll))
    case PollReply(w) => a.(poll := Answered(a.poll, MapOrderResult(w).status != PendingAuthorization))
    case PollError => a.(poll := Answered(a.poll, false))
    case Teardown => a.(wired := false, poll := a.poll.(active := false))
    case _ => a
  }

  function Next(cfg: Config, a: Adapter, step: Step): (r: Adapter) {
    if Enabled(a, step) then Works(cfg, a, step).(payment := Pays(cfg, a, step)) else a
  }

  function Run(cfg: Config, steps: seq<Step>): (r: Adapter) {
    if steps == [] then INITIAL else Next(cfg, Run(cfg, steps[..|steps| - 1]), steps[|steps| - 1])
  }

  // ---------- the terminal event ----------

  predicate IsTerminalEvent(e: CheckoutEvent) {
    e.PAYMENT_COMPLETED? || e.PAYMENT_FAILED? || e.PAYMENT_CANCELLED?
  }

  function TerminalEvents(log: seq<CheckoutEvent>): (r: seq<CheckoutEvent>) {
    if log == [] then []
    else TerminalEvents(log[..|log| - 1]) + (if IsTerminalEvent(log[|log| - 1]) then [log[|log| - 1]] else [])
  }

  /** The one terminal event the winning payload calls for. */
  function EventFor(p: Payload): (r: CheckoutEvent) {
    match p
    case Result(r) => PAYMENT_COMPLETED(r)
    case Error(e) => PAYMENT_FAILED(e)
    case Reason(reason) => PAYMENT_CANCELLED(reason)
  }

  predicate Matches(p: Payload, s: State) {
    match p
    case Result(_) => s == Completed
    case Error(_) => s == Failed
    case Reason(_) => s == Cancelled
  }

  /**
    Terminal events so far: none before the end, then the winner's, once its emission has gone on.
    `order` is the context's order result, `waiting` the number of completions not gone on yet.
   */
  ghost predicate Balanced(sm: State, order: Option<OrderResult>, waiting: nat, events: seq<CheckoutEvent>,
                           winner: Option<Payload>) {
    if !IsTerminal(sm) then winner.None? && events == [] && waiting == 0
    else
      && winner.Some? && Matches(winner.value, sm)
      && (sm != Completed ==> waiting == 0)
      && (sm == Completed ==> waiting <= 1 && order == Some(winner.value.result))
      && events == (if waiting == 1 then [] else [EventFor(winner.value)])
  }

  ghost predicate Accounted(p: Payment) {
    Balanced(p.sm, p.ctx.orderResult, p.tails[CompletedTail], TerminalEvents(p.log), p.winner)
  }

  /** One authorization at most, and while it is under way only `void` can have ended the payment. */
  ghost predicate OneAuthorization(a: Adapter) {
    var sm := a.payment.sm;
    && a.authorizations <= 1
    && a.inFlight + |a.resolving| <= a.authorizations
    && a.inFlight + a.poll.started <= a.authorizations
    && (sm == Idle || sm == Initializing || sm == Ready ==> a.authorizations == 0)
    && (a.inFlight + |a.resolving| > 0 ==> sm == Authorizing || sm == Cancelled)
  }

  ghost predicate PollingBounded(p: Polling) {
    && p.started <= 1
    && p.asked <= MAX_POLL_ATTEMPTS && p.asked <= p.attempts
    && p.asked <= p.started * MAX_POLL_ATTEMPTS
    && (p.active ==> p.started == 1)
    && (p.started == 0 ==> p.attempts == 0)
  }

  /** Nothing ever enters the merchant-capture states. */
  ghost predicate NoCapture(a: Adapter) {
    var sm := a.payment.sm;
    sm != AwaitingMerchantCapture && sm != Capturing && sm != AuthExpired && sm != ScriptLoadFailed
  }

  /** Nothing is under way before `init`. */
  ghost predicate LoadingOk(a: Adapter) {
    && (a.loading <==> a.payment.sm == Initializing)
    && (!a.initialised ==> a.payment.sm == Idle && !a.wired && !a.poll.active)
    && (!a.initialised ==> a.inFlight + |a.resolving| + a.poll.outstanding == 0)
  }

  /** What authorize is about to go on with carries an error iff it is one. */
  ghost predicate ResultsOk(rs: seq<OrderResult>) {
    forall i | 0 <= i < |rs| :: rs[i].error.Some? <==> rs[i].status == Declined || rs[i].status == FailedStatus
  }

  ghost predicate WorkOk(a: Adapter) {
    ResultsOk(a.resolving) && OneAuthorization(a) && PollingBounded(a.poll) && NoCapture(a) && LoadingOk(a)
  }

  ghost predicate Inv(a: Adapter) {
    Accounted(a.payment) && WorkOk(a)
  }

  // ---------- every step accounts for its terminal event ----------

  lemma LoggedTerminal(log: seq<CheckoutEvent>, e: Option<CheckoutEvent>)
    ensures TerminalEvents(Logged(log, e))
         == TerminalEvents(log) + (if e.Some? && IsTerminalEvent(e.value) then [e.value] else [])
  {
    var all := Logged(log, e);
    if e.Some? { assert all[..|all| - 1] == log; } else { assert TerminalEvents(log) + [] == TerminalEvents(log); }
  }

  /** The terminal event, if any, that a transition emits at once. */
  function TerminalPart(ctx: EmissionContext, to: State): (r: seq<CheckoutEvent>) {
    if to == Failed && ctx.error.Some? then [PAYMENT_FAILED(ctx.error.value)]
    else if to == Cancelled then [PAYMENT_CANCELLED(ReasonOf(ctx))]
    else []
  }

  lemma Requested(p: Payment, to: State)
    requires Moves(p.sm, to)
    ensures TerminalEvents(Request(p, to).log) == TerminalEvents(p.log) + TerminalPart(p.ctx, to)
    ensures Request(p, to).tails[CompletedTail]
         == p.tails[CompletedTail] + if to == Completed && p.ctx.orderResult.Some? then 1 else 0
  {
    hide TerminalEvents, Logged, Moves, LegalTransitions;
    LoggedTerminal(p.log, FirstEvent(p.ctx, to));
  }

  lemma MovesFromLive(from: State, to: State)
    requires Moves(from, to)
    ensures !IsTerminal(from)
  {}

  lemma RequestAccounted(p: Payment, to: State)
    requires Accounted(p) && !IsTerminal(to)
    ensures Accounted(Request(p, to))
  {
    if Moves(p.sm, to) { Requested(p, to); }
  }

  lemma CompleteAccounted(p: Payment, r: OrderResult)
    requires Accounted(p) && p.sm != Completed
    ensures Accounted(Complete(p, r))
  {
    if Moves(p.sm, Completed) {
      MovesFromLive(p.sm, Completed);
      assert TerminalEvents(p.log) == [];
      Requested(p.(ctx := p.ctx.(orderResult := Some(r))), Completed);
    }
  }

  lemma RejectAccounted(p: Payment, e: OrderError)
    requires Accounted(p)
    ensures Accounted(Reject(p, e))
  {
    if Moves(p.sm, Failed) {
      MovesFromLive(p.sm, Failed);
      assert TerminalEvents(p.log) == [];
      Requested(p.(ctx := p.ctx.(error := Some(e))), Failed);
    }
  }

  lemma FailAccounted(p: Payment, e: OrderError)
    requires Accounted(p)
    ensures Accounted(Fail(p, e))
  {
    RejectAccounted(p, e);
  }

  lemma CancelAccounted(p: Payment, reason: string)
    requires Accounted(p)
    ensures Accounted(Cancel(p, reason))
  {
    if Moves(p.sm, Cancelled) {
      MovesFromLive(p.sm, Cancelled);
      assert TerminalEvents(p.log) == [];
      Requested(p.(ctx := p.ctx.(cancellationReason := Some(reason))), Cancelled);
    }
  }

  lemma GoOnAccounted(p: Payment, tail: Tail)
    requires Accounted(p) && tail in p.tails
    ensures Accounted(GoOn(p, tail))
  {
    LoggedTerminal(p.log, TailEvent(p.ctx, tail));
  }

  lemma ResolveResultAccounted(p: Payment, r: OrderResult)
    requires Accounted(p) && p.sm != Completed
    ensures Accounted(ResolveResult(p, r))
  {
    hide Complete, Reject, Cancel;
    match r.status
    case PendingAuthorization =>
      RequestAccounted(p.(ctx := p.ctx.(pendingOrderId := Some(r.orderId), redirectUrl := RedirectOf(r))), Pending);
    case Authorized => CompleteAccounted(p, r);
    case Captured => CompleteAccounted(p, r);
    case CancelledStatus => CancelAccounted(p, "User cancelled");
    case _ => RejectAccounted(p, ErrorOf(r, "Payment failed"));
  }

  lemma ResolvePolledAccounted(p: Payment, r: OrderResult)
    requires Accounted(p)
    ensures Accounted(ResolvePolled(p, r))
  {
    hide Complete, Reject, Cancel, Accounted;
    if p.sm == Pending {
      match r.status
      case PendingAuthorization =>
      case Authorized => CompleteAccounted(p, r);
      case Captured => CompleteAccounted(p, r);
      case CancelledStatus => CancelAccounted(p, "Cancelled at provider (polled)");
      case _ => RejectAccounted(p, ErrorOf(r, "Payment failed"));
    }
  }

  lemma WebhookAccounted(cfg: Config, p: Payment, w: Webhook)
    requires Accounted(p)
    ensures Accounted(OnWebhook(cfg, p, w))
  {
    hide Complete, Reject, Cancel, Accounted;
    if p.sm == Pending && w.sessionId == cfg.sessionId {
      match w.kind
      case PaymentSucceeded => CompleteAccounted(p, OrderResult(w.orderId, Captured, NoAction, None));
      case PaymentFailedHook => RejectAccounted(p, OrderError(PROVIDER_REJECTED, "Payment failed at provider"));
      case PaymentCancelledHook => CancelAccounted(p, "Cancelled at provider");
      case PaymentExpired => CancelAccounted(p, "Session expired before authorization");
      case PaymentAuthorizedHook =>
    }
  }

  lemma StepAccounted(cfg: Config, a: Adapter, step: Step)
    requires Inv(a) && Enabled(a, step)
    ensures Accounted(Pays(cfg, a, step))
  {
    hide Complete, Cancel, Request, OnWebhook, ResolvePolled, ResolveResult, Fail, GoOn;
    match step
    case InitBegins(_) => RequestAccounted(a.payment, Initializing);
    case InitSucceeds => RequestAccounted(a.payment, Ready);
    case InitThrows(e) => FailAccounted(a.payment, e);
    case Authorize => RequestAccounted(a.payment, Authorizing);
    case AuthorizeThrows(e) => FailAccounted(a.payment, e);
    case Resolve => ResolveResultAccounted(a.payment, a.resolving[0]);
    case WebhookArrives(w) => WebhookAccounted(cfg, a.payment, w);
    case PollReply(w) => ResolvePolledAccounted(a.payment, MapOrderResult(w));
    case VoidEnds(reason) => CancelAccounted(a.payment, reason);
    case CaptureBegins => RequestAccounted(a.payment, Capturing);
    case Continue(tail) => GoOnAccounted(a.payment, tail);
    case _ =>
  }

  // ---------- every step keeps the work bounded ----------

  /** Such a step leaves the machine where it is or ends the payment. */
  predicate MayEnd(from: State, to: State) {
    to == from || (Moves(from, to) && (to == Completed || to == Failed || to == Cancelled))
  }

  lemma PolledMayEnd(p: Payment, r: OrderResult)
    ensures MayEnd(p.sm, ResolvePolled(p, r).sm)
  {}

  lemma WebhookMayEnd(cfg: Config, p: Payment, w: Webhook)
    ensures MayEnd(p.sm, OnWebhook(cfg, p, w).sm)
  {}

  lemma ResolvedMayEnd(p: Payment, r: OrderResult)
    ensures MayEnd(p.sm, ResolveResult(p, r).sm) || (Moves(p.sm, Pending) && ResolveResult(p, r).sm == Pending)
  {}

  lemma EndingKeepsWork(a: Adapter, p: Payment)
    requires WorkOk(a) && MayEnd(a.payment.sm, p.sm) && (p.sm != a.payment.sm ==> !a.loading)
    requires a.inFlight + |a.resolving| > 0 ==> p.sm == a.payment.sm || p.sm == Cancelled
    ensures WorkOk(a.(payment := p))
  {}

  lemma InitKeepsWork(cfg: Config, a: Adapter, step: Step)
    requires WorkOk(a) && (step.InitBegins? || step.InitSucceeds? || step.InitThrows?)
    ensures WorkOk(Next(cfg, a, step))
  {}

  lemma AuthorizeKeepsWork(cfg: Config, a: Adapter, step: Step)
    requires WorkOk(a) && (step.Authorize? || step.OrderReply? || step.AuthorizeThrows?)
    ensures WorkOk(Next(cfg, a, step))
  {}

  lemma ResolveKeepsWork(cfg: Config, a: Adapter)
    requires WorkOk(a) && a.resolving != []
    ensures WorkOk(Next(cfg, a, Resolve))
  {
    ResolvedMayEnd(a.payment, a.resolving[0]);
  }

  lemma PollKeepsWork(cfg: Config, a: Adapter, step: Step)
    requires WorkOk(a) && (step.Tick? || step.PollReply? || step.PollError? || step.Teardown?)
    ensures WorkOk(Next(cfg, a, step))
  {
    if Enabled(a, step) && step.PollReply? {
      PolledMayEnd(a.payment, MapOrderResult(step.polled));
      EndingKeepsWork(Works(cfg, a, step), Pays(cfg, a, step));
    }
  }

  lemma NextKeepsWork(cfg: Config, a: Adapter, step: Step)
    requires WorkOk(a) && Enabled(a, step)
    ensures WorkOk(Next(cfg, a, step))
  {
    match step
    case InitBegins(_) => InitKeepsWork(cfg, a, step);
    case InitSucceeds => InitKeepsWork(cfg, a, step);
    case InitThrows(_) => InitKeepsWork(cfg, a, step);
    case Resolve => ResolveKeepsWork(cfg, a);
    case WebhookArrives(w) =>
      WebhookMayEnd(cfg, a.payment, w);
      EndingKeepsWork(a, OnWebhook(cfg, a.payment, w));
    case Tick => PollKeepsWork(cfg, a, step);
    case PollReply(_) => PollKeepsWork(cfg, a, step);
    case PollError => PollKeepsWork(cfg, a, step);
    case Teardown => PollKeepsWork(cfg, a, step);
    case VoidEnds(reason) => EndingKeepsWork(a, Cancel(a.payment, reason));
    case CaptureBegins =>
    case Continue(_) =>
    case _ => AuthorizeKeepsWork(cfg, a, step);
  }

  lemma {:induction false} RunKeeps(cfg: Config, steps: seq<Step>)
    ensures Inv(Run(cfg, steps))
    decreases |steps|
  {
    if steps != [] {
      var a, step := Run(cfg, steps[..|steps| - 1]), steps[|steps| - 1];
      RunKeeps(cfg, steps[..|steps| - 1]);
      if Enabled(a, step) {
        StepAccounted(cfg, a, step);
        NextKeepsWork(cfg, a, step);
      }
    }
  }

  // ---------- what merchants rely on, over every run ----------

  /**
    At most one terminal event is ever emitted; it matches the terminal state, carries the payload
    of the step that won, and is there as soon as no completion is waiting for the bus.
   */
  lemma {:induction false} ExactlyOneTerminalEvent(cfg: Config, steps: seq<Step>)
    ensures var p := Run(cfg, steps).payment;
            && (!IsTerminal(p.sm) ==> TerminalEvents(p.log) == [])
            && (IsTerminal(p.sm) ==>
                  && p.winner.Some? && Matches(p.winner.value, p.sm)
                  && TerminalEvents(p.log) == if CompletedTail in p.tails then [] else [EventFor(p.winner.value)])
  {
    RunKeeps(cfg, steps);
  }

  lemma StaysTerminal(cfg: Config, a: Adapter, step: Step)
    requires Inv(a) && IsTerminal(a.payment.sm)
    ensures Next(cfg, a, step).payment.sm == a.payment.sm && Next(cfg, a, step).payment.winner == a.payment.winner
  {}

  /** The first terminal state entered, and the payload that won it, stay for good. */
  lemma {:induction false} FirstWinnerStays(cfg: Config, steps: seq<Step>, i: nat)
    requires i <= |steps| && IsTerminal(Run(cfg, steps[..i]).payment.sm)
    ensures Run(cfg, steps).payment.sm == Run(cfg, steps[..i]).payment.sm
    ensures Run(cfg, steps).payment.winner == Run(cfg, steps[..i]).payment.winner
    decreases |steps|
  {
    if i == |steps| {
      assert steps[..i] == steps;
    } else {
      var before := steps[..|steps| - 1];
      assert before[..i] == steps[..i];
      FirstWinnerStays(cfg, before, i);
      RunKeeps(cfg, before);
      StaysTerminal(cfg, Run(cfg, before), steps[|steps| - 1]);
    }
  }

  /** However calls and replies overlap: one doAuthorize, one polling loop, at most 60 getOrder calls. */
  lemma {:induction false} WorkIsBounded(cfg: Config, steps: seq<Step>)
    ensures var a := Run(cfg, steps);
            a.authorizations <= 1 && a.poll.started <= a.authorizations && a.poll.asked <= MAX_POLL_ATTEMPTS
  {
    RunKeeps(cfg, steps);
  }

  /**
    No code path requests `awaiting_merchant_capture`, so `capture` is always refused before it
    sends anything, and four of the twelve states are never entered.
   */
  lemma {:induction false} CaptureNeverStarts(cfg: Config, steps: seq<Step>)
    ensures var a := Run(cfg, steps);
            && Refused(a.payment.sm, Capturing)
            && a.payment.sm !in {AwaitingMerchantCapture, Capturing, AuthExpired, ScriptLoadFailed}
  {
    RunKeeps(cfg, steps);
  }

  /**
    Over every run, a success webhook takes effect if and only if it comes for this session while the
    adapter is pending: one that overtakes the authorize reply is lost, although the caches' comments
    speak of tolerating out-of-order arrival.
   */
  lemma SuccessWebhookActsIff(cfg: Config, steps: seq<Step>, w: Webhook)
    requires w.kind == PaymentSucceeded && Run(cfg, steps).wired
    ensures Next(cfg, Run(cfg, steps), WebhookArrives(w)) != Run(cfg, steps)
       <==> Run(cfg, steps).payment.sm == Pending && w.sessionId == cfg.sessionId
  {
    hide Run;
    var a := Run(cfg, steps);
    if a.payment.sm == Pending && w.sessionId == cfg.sessionId {
      assert OnWebhook(cfg, a.payment, w).sm == Completed;
    }
  }

  lemma AfterOneMore(cfg: Config, steps: seq<Step>, step: Step)
    ensures Run(cfg, steps + [step]) == Next(cfg, Run(cfg, steps), step)
  {
    assert (steps + [step])[..|steps + [step]| - 1] == steps;
  }

  /** Up to the call of doAuthorize. */
  const AUTHORIZING_STEPS := [InitBegins(true), InitSucceeds, Authorize]

  lemma InitialiseThenAuthorize(cfg: Config)
    ensures var a := Next(cfg, Next(cfg, Next(cfg, INITIAL, InitBegins(true)), InitSucceeds), Authorize);
            && a.payment.sm == Authorizing && a.wired && a.inFlight == 1 && a.resolving == []
            && a.payment.ctx == UNTOUCHED.ctx && a.payment.winner.None? && !a.poll.active
  {
    hide Logged, Queued;
    var a := Next(cfg, INITIAL, InitBegins(true));
    assert a.payment.sm == Initializing && a.loading && a.payment.ctx == UNTOUCHED.ctx && a.payment.winner.None?;
    var b := Next(cfg, a, InitSucceeds);
    assert b.payment.sm == Ready && b.initialised && b.wired;
  }

  lemma ReachesAuthorizing(cfg: Config)
    ensures var a := Run(cfg, AUTHORIZING_STEPS);
            && a.payment.sm == Authorizing && a.wired && a.inFlight == 1 && a.resolving == []
            && a.payment.ctx == UNTOUCHED.ctx && a.payment.winner.None? && !a.poll.active
  {
    hide Next;
    var s1, s2 := [InitBegins(true)], [InitBegins(true), InitSucceeds];
    AfterOneMore(cfg, [], InitBegins(true));
    AfterOneMore(cfg, s1, InitSucceeds);
    AfterOneMore(cfg, s2, Authorize);
    assert [] + [InitBegins(true)] == s1 && s1 + [InitSucceeds] == s2 && s2 + [Authorize] == AUTHORIZING_STEPS;
    InitialiseThenAuthorize(cfg);
  }

  lemma WebhookWhileAuthorizing(cfg: Config, a: Adapter, w: Webhook)
    requires a.payment.sm == Authorizing
    ensures Next(cfg, a, WebhookArrives(w)) == a
  {}

  lemma PendingReply(cfg: Config, a: Adapter, reply: Wire)
    requires a.payment.sm == Authorizing && a.inFlight == 1 && a.resolving == [] && Says(reply, PENDING_STATES)
    ensures var b := Next(cfg, a, OrderReply(reply));
            && b.payment == a.payment && |b.resolving| == 1 && b.resolving[0].status == PendingAuthorization
  {
    hide MapOrderResult, Upper;
    ErrorIff(reply);
  }

  lemma ResolvesPending(cfg: Config, a: Adapter)
    requires a.payment.sm == Authorizing && |a.resolving| == 1 && a.resolving[0].status == PendingAuthorization
    ensures Next(cfg, a, Resolve).payment.sm == Pending
  {}

  /** This step settles a pending payment, one way or another. */
  predicate Frees(cfg: Config, a: Adapter, step: Step) {
    match step
    case PollReply(w) => a.poll.outstanding > 0 && MapOrderResult(w).status != PendingAuthorization
    case WebhookArrives(w) => a.wired && w.sessionId == cfg.sessionId && w.kind != PaymentAuthorizedHook
    case VoidEnds(_) => a.initialised
    case _ => false
  }

  lemma PendingStep(cfg: Config, a: Adapter, step: Step)
    requires WorkOk(a) && a.payment.sm == Pending
    ensures Next(cfg, a, step).payment.sm == Pending <==> !Frees(cfg, a, step)
    ensures Next(cfg, a, step).payment.sm == Pending || IsTerminal(Next(cfg, a, step).payment.sm)
  {
    hide MapOrderResult;
  }

  /** Nothing in `more`, coming after `steps`, settles the payment. */
  ghost predicate NeverFreed(cfg: Config, steps: seq<Step>, more: seq<Step>) {
    forall k | 0 <= k < |more| :: !Frees(cfg, Run(cfg, steps + more[..k]), more[k])
  }

  lemma NeverFreedStep(cfg: Config, steps: seq<Step>, more: seq<Step>)
    requires more != []
    ensures var before, step := more[..|more| - 1], more[|more| - 1];
            NeverFreed(cfg, steps, more) <==>
              NeverFreed(cfg, steps, before) && !Frees(cfg, Run(cfg, steps + before), step)
  {
    hide Frees, Run;
    var n := |more| - 1;
    assert forall k | 0 <= k < n :: more[k] == more[..n][k] && more[..k] == more[..n][..k];
  }

  lemma NeverFreedNothing(cfg: Config, steps: seq<Step>)
    ensures NeverFreed(cfg, steps, [])
  {}

  /** Once a payment is pending it stays so exactly until a settling poll reply, a webhook that tells, or `void`. */
  lemma {:induction false} PendingUntilFreed(cfg: Config, steps: seq<Step>, more: seq<Step>)
    requires Run(cfg, steps).payment.sm == Pending
    ensures Run(cfg, steps + more).payment.sm == Pending <==> NeverFreed(cfg, steps, more)
    ensures Run(cfg, steps + more).payment.sm == Pending || IsTerminal(Run(cfg, steps + more).payment.sm)
    decreases |more|
  {
    hide Run, Next, Frees, NeverFreed;
    if more == [] {
      NeverFreedNothing(cfg, steps);
      assert steps + more == steps;
    } else {
      var n := |more| - 1;
      var before := more[..n];
      PendingUntilFreed(cfg, steps, before);
      assert steps + more == steps + before + [more[n]];
      AfterOneMore(cfg, steps + before, more[n]);
      RunKeeps(cfg, steps + before);
      NeverFreedStep(cfg, steps, more);
      if Run(cfg, steps + before).payment.sm == Pending {
        PendingStep(cfg, Run(cfg, steps + before), more[n]);
      } else {
        StaysTerminal(cfg, Run(cfg, steps + before), more[n]);
      }
    }
  }

  /**
    A success webhook that overtakes its pending reply is lost for good: the payment is pending
    afterwards, and stays so until something else settles it.
   */
  lemma {:induction false} EarlyWebhookIsLost(cfg: Config, w: Webhook, reply: Wire, more: seq<Step>)
    requires w.kind == PaymentSucceeded && w.sessionId == cfg.sessionId && Says(reply, PENDING_STATES)
    ensures var steps := AUTHORIZING_STEPS + [WebhookArrives(w), OrderReply(reply), Resolve];
            && Run(cfg, steps).payment.sm == Pending && TerminalEvents(Run(cfg, steps).payment.log) == []
            && (Run(cfg, steps + more).payment.sm == Pending <==> NeverFreed(cfg, steps, more))
            && (Run(cfg, steps + more).payment.sm == Pending ==>
                  TerminalEvents(Run(cfg, steps + more).payment.log) == [])
  {
    hide Run, Next, Says, TerminalEvents, NeverFreed, AUTHORIZING_STEPS;
    var s4 := AUTHORIZING_STEPS + [WebhookArrives(w)];
    var s5 := s4 + [OrderReply(reply)];
    var s6 := s5 + [Resolve];
    assert s6 == AUTHORIZING_STEPS + [WebhookArrives(w), OrderReply(reply), Resolve];
    ReachesAuthorizing(cfg);
    AfterOneMore(cfg, AUTHORIZING_STEPS, WebhookArrives(w));
    WebhookWhileAuthorizing(cfg, Run(cfg, AUTHORIZING_STEPS), w);
    AfterOneMore(cfg, s4, OrderReply(reply));
    PendingReply(cfg, Run(cfg, s4), reply);
    AfterOneMore(cfg, s5, Resolve);
    ResolvesPending(cfg, Run(cfg, s5));
    ExactlyOneTerminalEvent(cfg, s6);
    PendingUntilFreed(cfg, s6, more);
    ExactlyOneTerminalEvent(cfg, s6 + more);
  }

  // ---------- no completion from nothing ----------

  /** A successful answer that says this: an authorize reply, a poll reply or a webhook while pending. */
  ghost predicate Brings(cfg: Config, a: Adapter, step: Step, r: OrderResult) {
    match step
    case OrderReply(w) => a.inFlight > 0 && SaysSuccess(w) && Reflects(w, r)
    case PollReply(w) => a.payment.sm == Pending && SaysSuccess(w) && Reflects(w, r)
    case WebhookArrives(w) =>
      && a.payment.sm == Pending && w.kind == PaymentSucceeded && w.sessionId == cfg.sessionId
      && r == OrderResult(w.orderId, Captured, NoAction, None)
    case _ => false
  }

  ghost predicate Justified(cfg: Config, steps: seq<Step>, r: OrderResult) {
    exists i :: 0 <= i < |steps| && Brings(cfg, Run(cfg, steps[..i]), steps[i], r)
  }

  lemma StillJustified(cfg: Config, steps: seq<Step>, r: OrderResult)
    requires steps != [] && Justified(cfg, steps[..|steps| - 1], r)
    ensures Justified(cfg, steps, r)
  {
    var before := steps[..|steps| - 1];
    var i :| 0 <= i < |before| && Brings(cfg, Run(cfg, before[..i]), before[i], r);
    assert steps[..i] == before[..i] && steps[i] == before[i];
  }

  /** The adapter holds this success: it has won, or authorize is about to go on with it. */
  predicate Holds(a: Adapter, r: OrderResult) {
    a.payment.winner == Some(Result(r)) || (IsSuccess(r.status) && r in a.resolving)
  }

  /** The payment completes with this result in this step. */
  ghost predicate CompletesWith(cfg: Config, a: Adapter, step: Step, r: OrderResult) {
    match step
    case Resolve => a.payment.sm == Authorizing && a.resolving != [] && IsSuccess(r.status) && r == a.resolving[0]
    case PollReply(w) =>
      a.payment.sm == Pending && a.poll.outstanding > 0 && SaysSuccess(w) && Reflects(w, r)
    case WebhookArrives(w) =>
      && a.payment.sm == Pending && a.wired && w.kind == PaymentSucceeded && w.sessionId == cfg.sessionId
      && r == OrderResult(w.orderId, Captured, NoAction, None)
    case _ => false
  }

  predicate CancelsFor(cfg: Config, a: Adapter, step: Step, reason: string) {
    match step
    case Resolve =>
      && a.payment.sm == Authorizing && a.resolving != [] && a.resolving[0].status == CancelledStatus
      && reason == "User cancelled"
    case PollReply(w) =>
      && a.payment.sm == Pending && a.poll.outstanding > 0 && Says(w, CANCELLED_STATES)
      && reason == "Cancelled at provider (polled)"
    case WebhookArrives(w) =>
      && a.payment.sm == Pending && a.wired && w.sessionId == cfg.sessionId
      && ((w.kind == PaymentCancelledHook && reason == "Cancelled at provider")
          || (w.kind == PaymentExpired && reason == "Session expired before authorization"))
    case VoidEnds(given) => (a.payment.sm == Authorizing || a.payment.sm == Pending) && reason == given
    case _ => false
  }

  ghost predicate FailsFor(cfg: Config, a: Adapter, step: Step, e: OrderError) {
    match step
    case InitThrows(given) => a.loading && e == given
    case AuthorizeThrows(given) => a.payment.sm == Authorizing && a.inFlight > 0 && e == given
    case Resolve =>
      a.payment.sm == Authorizing && a.resolving != [] && a.resolving[0].error == Some(e)
    case PollReply(w) =>
      && a.payment.sm == Pending && a.poll.outstanding > 0 && ErrorFits(w, Some(e))
    case WebhookArrives(w) =>
      && a.payment.sm == Pending && a.wired && w.sessionId == cfg.sessionId && w.kind == PaymentFailedHook
      && e == OrderError(PROVIDER_REJECTED, "Payment failed at provider")
    case _ => false
  }

  ghost predicate EndsWith(cfg: Config, a: Adapter, step: Step, payload: Payload) {
    match payload
    case Result(r) => CompletesWith(cfg, a, step, r)
    case Error(e) => FailsFor(cfg, a, step, e)
    case Reason(reason) => CancelsFor(cfg, a, step, reason)
  }

  lemma ResolveEnds(cfg: Config, a: Adapter, payload: Payload)
    requires a.payment.sm == Authorizing && a.payment.winner.None? && a.resolving != [] && ResultsOk(a.resolving)
    ensures ResolveResult(a.payment, a.resolving[0]).winner == Some(payload) <==> EndsWith(cfg, a, Resolve, payload)
  {}

  lemma PolledWinner(p: Payment, r: OrderResult)
    requires p.sm == Pending && p.winner.None?
    ensures ResolvePolled(p, r).winner
         == match r.status
            case Authorized => Some(Result(r))
            case Captured => Some(Result(r))
            case CancelledStatus => Some(Reason("Cancelled at provider (polled)"))
            case PendingAuthorization => None
            case _ => Some(Error(ErrorOf(r, "Payment failed")))
  {
    hide FirstEvent, Awaiting, Logged, Queued;
  }

  lemma PollEnds(cfg: Config, a: Adapter, w: Wire, payload: Payload)
    requires !IsTerminal(a.payment.sm) && a.payment.winner.None? && a.poll.outstanding > 0
    ensures ResolvePolled(a.payment, MapOrderResult(w)).winner == Some(payload)
       <==> EndsWith(cfg, a, PollReply(w), payload)
  {
    var p, r := a.payment, MapOrderResult(w);
    assert p.sm != Pending ==> ResolvePolled(p, r) == p;
    assert r.error.Some? <==> r.status == Declined || r.status == FailedStatus;
    hide Reflects, ErrorFits, Says, MapOrderResult, ResolvePolled;
    SuccessIff(w);
    ErrorIff(w);
    if payload.Result? { ReflectsIff(w, payload.result); }
    if payload.Error? { ErrorIs(w, payload.error); }
    if p.sm == Pending { PolledWinner(p, r); }
  }

  lemma HookEnds(cfg: Config, a: Adapter, w: Webhook, payload: Payload)
    requires !IsTerminal(a.payment.sm) && a.payment.winner.None? && a.wired
    ensures OnWebhook(cfg, a.payment, w).winner == Some(payload) <==> EndsWith(cfg, a, WebhookArrives(w), payload)
  {
    if a.payment.sm == Pending && w.sessionId == cfg.sessionId {
      match w.kind
      case PaymentSucceeded =>
      case PaymentFailedHook =>
      case PaymentCancelledHook =>
      case PaymentExpired =>
      case PaymentAuthorizedHook =>
    }
  }

  lemma ThrowEnds(cfg: Config, a: Adapter, step: Step, payload: Payload)
    requires !IsTerminal(a.payment.sm) && a.payment.winner.None? && WorkOk(a) && Enabled(a, step)
    requires step.InitThrows? || step.AuthorizeThrows? || step.VoidEnds?
    ensures Pays(cfg, a, step).winner == Some(payload) <==> EndsWith(cfg, a, step, payload)
  {}

  /** Exactly these steps end a payment, each in its state and with its payload. */
  lemma {:induction false} EndsIff(cfg: Config, steps: seq<Step>, step: Step, payload: Payload)
    requires !IsTerminal(Run(cfg, steps).payment.sm)
    ensures Next(cfg, Run(cfg, steps), step).payment.winner == Some(payload)
       <==> EndsWith(cfg, Run(cfg, steps), step, payload)
  {
    RunKeeps(cfg, steps);
    hide Run, ResolveResult, ResolvePolled, OnWebhook, Fail, Cancel, MapOrderResult;
    var a := Run(cfg, steps);
    if Enabled(a, step) {
      match step
      case Resolve => ResolveEnds(cfg, a, payload);
      case PollReply(w) =>
        PollEnds(cfg, a, w, payload);
        ErrorIff(w);
      case WebhookArrives(w) => HookEnds(cfg, a, w, payload);
      case InitThrows(_) => ThrowEnds(cfg, a, step, payload);
      case AuthorizeThrows(_) => ThrowEnds(cfg, a, step, payload);
      case VoidEnds(_) => ThrowEnds(cfg, a, step, payload);
      case _ =>
    }
  }

  /** What authorize is about to go on with are mapped replies. */
  lemma ResolvingGrows(cfg: Config, a: Adapter, step: Step, r: OrderResult)
    requires IsSuccess(r.status) && r in Next(cfg, a, step).resolving && r !in a.resolving
    ensures Brings(cfg, a, step, r)
  {
    hide Pays, Upper;
    assert step.OrderReply? && r == MapOrderResult(step.reply);
    SuccessIff(step.reply);
    ReflectsIff(step.reply, r);
  }

  lemma {:induction false} HeldIsJustified(cfg: Config, steps: seq<Step>, r: OrderResult)
    requires Holds(Run(cfg, steps), r)
    ensures Justified(cfg, steps, r)
    decreases |steps|
  {
    hide Next, Brings, MapOrderResult, SaysSuccess, EndsWith;
    var before, step := steps[..|steps| - 1], steps[|steps| - 1];
    var a := Run(cfg, before);
    if Holds(a, r) {
      HeldIsJustified(cfg, before, r);
      StillJustified(cfg, steps, r);
    } else if IsSuccess(r.status) && r in Next(cfg, a, step).resolving {
      ResolvingGrows(cfg, a, step, r);
      assert Brings(cfg, Run(cfg, steps[..|steps| - 1]), steps[|steps| - 1], r);
    } else {
      RunKeeps(cfg, before);
      if IsTerminal(a.payment.sm) { StaysTerminal(cfg, a, step); }
      EndsIff(cfg, before, step, Result(r));
      EndingIsBrought(cfg, a, step, r);
      assert Brings(cfg, Run(cfg, steps[..|steps| - 1]), steps[|steps| - 1], r);
    }
  }

  lemma EndingIsBrought(cfg: Config, a: Adapter, step: Step, r: OrderResult)
    requires EndsWith(cfg, a, step, Result(r)) && !Holds(a, r)
    ensures Brings(cfg, a, step, r)
  {}

  lemma {:induction false} TerminalEventListed(log: seq<CheckoutEvent>, e: CheckoutEvent)
    requires e in log && IsTerminalEvent(e)
    ensures e in TerminalEvents(log)
    decreases |log|
  {
    if log[|log| - 1] != e {
      assert log == log[..|log| - 1] + [log[|log| - 1]];
      TerminalEventListed(log[..|log| - 1], e);
    }
  }

  /**
    No completion from nothing: whoever sees PAYMENT_COMPLETED with a result, that result is the
    mapping of some earlier reply that named one of the six success states, or what a success webhook
    for this session said while the adapter was pending.
   */
  lemma {:induction false} NoCompletionFromNothing(cfg: Config, steps: seq<Step>, r: OrderResult)
    requires PAYMENT_COMPLETED(r) in Run(cfg, steps).payment.log
    ensures Justified(cfg, steps, r)
  {
    var p := Run(cfg, steps).payment;
    RunKeeps(cfg, steps);
    TerminalEventListed(p.log, PAYMENT_COMPLETED(r));
    assert TerminalEvents(p.log) == [EventFor(p.winner.value)];
    HeldIsJustified(cfg, steps, r);
  }

  // ---------- what the state machine's listener is told ----------

  function Change(from: State, to: State): (r: seq<(State, State)>) {
    if from == to then [] else [(from, to)]
  }

  /** The state changes of a run, as the machine tells them. */
  function StateChanges(cfg: Config, steps: seq<Step>): (r: seq<(State, State)>) {
    if steps == [] then []
    else
      var before := steps[..|steps| - 1];
      StateChanges(cfg, before) + Change(Run(cfg, before).payment.sm, Run(cfg, steps).payment.sm)
  }

  lemma ResolveMoves(p: Payment, r: OrderResult)
    ensures ResolveResult(p, r).sm == p.sm || Moves(p.sm, ResolveResult(p, r).sm)
  {}

  /** A step moves the machine along at most one edge of the table. */
  lemma StepMoves(cfg: Config, a: Adapter, step: Step)
    ensures Next(cfg, a, step).payment.sm == a.payment.sm || Moves(a.payment.sm, Next(cfg, a, step).payment.sm)
  {
    hide ResolveResult, ResolvePolled, OnWebhook, MapOrderResult, FirstEvent, Awaiting, Moves, LegalTransitions;
    if Enabled(a, step) {
      match step
      case Resolve => ResolveMoves(a.payment, a.resolving[0]);
      case WebhookArrives(w) => WebhookMayEnd(cfg, a.payment, w);
      case PollReply(w) => PolledMayEnd(a.payment, MapOrderResult(w));
      case _ =>
    }
  }

  /** How far along a payment is: the number of changes on the longest way here that any run takes. */
  function Depth(s: State): (r: nat) {
    match s
    case Idle => 0
    case Initializing => 1
    case Ready => 2
    case Authorizing => 3
    case Pending => 4
    case _ => 5
  }

  /** Over every run the machine changes at most five times. */
  lemma {:induction false} FiveChanges(cfg: Config, steps: seq<Step>)
    ensures |StateChanges(cfg, steps)| <= Depth(Run(cfg, steps).payment.sm) <= 5
    decreases |steps|
  {
    hide Next, Refused;
    if steps != [] {
      var before := steps[..|steps| - 1];
      FiveChanges(cfg, before);
      CaptureNeverStarts(cfg, before);
      StepMoves(cfg, Run(cfg, before), steps[|steps| - 1]);
    }
  }

  // ---------- the object ----------

  /** BaseAdapter with the polling of its QR and PPRO subclasses, PayPal's void and its refused capture. */
  class CheckoutAdapter {
    const cfg: Config
    const machine: AdapterStateMachine
    const hook: StateChangeListener   // the listener that init registers; it calls the emitter
    var ctx: EmissionContext
    var tails: multiset<Tail>
    var log: seq<CheckoutEvent>
    ghost var winner: Option<Payload>
    var initialised: bool
    var loading: bool
    var wired: bool
    var authorizations: nat
    var inFlight: nat
    var resolving: seq<OrderResult>
    var poll: Polling
    ghost var steps: seq<Step>        // history: what has happened to this adapter

    ghost function PaymentView(): (r: Payment)
      reads machine`state, this`ctx, this`tails, this`log, this`winner
    {
      Payment(machine.state, ctx, tails, log, winner)
    }

    ghost function View(): (r: Adapter)
      reads this, machine`state
    {
      Adapter(PaymentView(), initialised, loading, wired, authorizations, inFlight, resolving, poll)
    }

    /** The adapter is where its history leads, and its listener has been told every change once. */
    ghost predicate Valid()
      reads this, machine, hook
    {
      && View() == Run(cfg, steps)
      && machine.listeners == (if initialised then {hook} else {})
      && hook.notified == StateChanges(cfg, steps)
    }

    ghost predicate Told(before: seq<(State, State)>, from: State)
      reads machine`state, hook`notified
    {
      hook.notified == before + Change(from, machine.state)
    }

    constructor (cfg: Config)
      ensures Valid() && steps == [] && this.cfg == cfg
      ensures fresh(machine) && fresh(hook)
    {
      this.cfg := cfg;
      machine := new AdapterStateMachine();
      hook := new StateChangeListener(false);
      steps := [];
      ctx := EmissionContext(None, None, None, None, None);
      initialised, loading, wired := false, false, false;
      authorizations, inFlight, resolving := 0, 0, [];
      poll := Polling(false, 0, 0, 0, 0);
      tails, log, winner := multiset{}, [], None;
    }

    /** Whatever is under way, init has registered the listener. */
    lemma WorkIsHooked()
      requires Valid()
      requires loading || wired || inFlight > 0 || resolving != [] || poll.active || poll.outstanding > 0
      ensures machine.listeners == {hook}
    {
      RunKeeps(cfg, steps);
    }

    /** One more step has been taken. */
    ghost method Record(step: Step)
      requires View() == Next(cfg, Run(cfg, steps), step)
      requires machine.listeners == (if initialised then {hook} else {})
      requires Told(StateChanges(cfg, steps), Run(cfg, steps).payment.sm)
      modifies this`steps
      ensures Valid() && steps == old(steps) + [step]
    {
      hide Next;
      AfterOneMore(cfg, steps, step);
      steps := steps + [step];
      assert steps[..|steps| - 1] == old(steps);
    }

    /** `sm.transition`; when the machine tells its listener, the emitter is called. */
    method Transition(to: State) returns (refused: bool)
      requires machine.listeners == {hook}
      modifies machine`state, hook`notified, this`log, this`tails
      ensures PaymentView() == Request(old(PaymentView()), to)
      ensures refused == Refused(old(machine.state), to)
      ensures Told(old(hook.notified), old(machine.state))
    {
      hide LegalTransitions;
      var answer := machine.Transition(to);
      if answer == Moved { OnStateChange(to); }
      refused := answer.IllegalTransition?;
    }

    /** `onStateChange` up to its first await. */
    method OnStateChange(to: State)
      modifies this`log, this`tails
      ensures log == Logged(old(log), FirstEvent(ctx, to)) && tails == Queued(old(tails), Awaiting(ctx, to))
    {
      match to {
        case Initializing => log := log + [INITIALIZING];
        case Ready =>
          log := log + [SDK_LOADED];
          tails := tails + multiset{ReadyTail};
        case Authorizing => log := log + [PAYMENT_AUTHORIZING];
        case Pending =>
          if Truthy(ctx.redirectUrl) {
            log := log + [REDIRECT_REQUIRED(ctx.redirectUrl.value)];
            tails := tails + multiset{PendingTail};
          } else {
            log := log + [PendingEvent(ctx)];
          }
        case Completed =>
          if ctx.orderResult.Some? {
            log := log + [PAYMENT_AUTHORIZED];
            tails := tails + multiset{CompletedTail};
          }
        case Failed => if ctx.error.Some? { log := log + [PAYMENT_FAILED(ctx.error.value)]; }
        case Cancelled => log := log + [PAYMENT_CANCELLED(ReasonOf(ctx))];
        case _ =>
      }
    }

    method CompleteWith(r: OrderResult) returns (refused: bool)
      requires machine.listeners == {hook}
      modifies machine`state, hook`notified, this`ctx, this`log, this`tails, this`winner
      ensures Told(old(hook.notified), old(machine.state))
      ensures PaymentView() == Complete(old(PaymentView()), r)
      ensures refused == Refused(old(machine.state), Completed)
    {
      ctx := ctx.(orderResult := Some(r));
      winner := if Moves(machine.state, Completed) then Some(Result(r)) else winner;
      refused := Transition(Completed);
    }

    method RejectWith(e: OrderError) returns (refused: bool)
      requires machine.listeners == {hook}
      modifies machine`state, hook`notified, this`ctx, this`log, this`tails, this`winner
      ensures Told(old(hook.notified), old(machine.state))
      ensures PaymentView() == Reject(old(PaymentView()), e)
      ensures refused == Refused(old(machine.state), Failed)
    {
      ctx := ctx.(error := Some(e));
      winner := if Moves(machine.state, Failed) then Some(Error(e)) else winner;
      refused := Transition(Failed);
    }

    method CancelWith(reason: string) returns (refused: bool)
      requires machine.listeners == {hook}
      modifies machine`state, hook`notified, this`ctx, this`log, this`tails, this`winner
      ensures Told(old(hook.notified), old(machine.state))
      ensures PaymentView() == Cancel(old(PaymentView()), reason)
      ensures refused == Refused(old(machine.state), Cancelled)
    {
      ctx := ctx.(cancellationReason := Some(reason));
      winner := if Moves(machine.state, Cancelled) then Some(Reason(reason)) else winner;
      refused := Transition(Cancelled);
    }

    method FailWith(e: OrderError)
      requires machine.listeners == {hook}
      modifies machine`state, hook`notified, this`ctx, this`log, this`tails, this`winner
      ensures Told(old(hook.notified), old(machine.state))
      ensures PaymentView() == Fail(old(PaymentView()), e)
    {
      if machine.state == Idle || machine.state == Initializing || machine.state == Authorizing || machine.state == Pending {
        var _ := RejectWith(e);
      } else {
        ctx := ctx.(error := Some(e));
      }
    }

    method BeginInit(valid: bool)
      requires Valid() && !initialised
      modifies this, machine`state, machine`listeners, hook`notified
      ensures Valid() && steps == old(steps) + [InitBegins(valid)]
      ensures View() == Next(cfg, old(View()), InitBegins(valid))
    {
      hide Request, Run, StateChanges;
      initialised := true;
      machine.OnChange(hook);
      if valid { var _ := Transition(Initializing); }
      loading := valid;
      Record(InitBegins(valid));
    }

    method EndInit(failure: Option<OrderError>)
      requires Valid() && loading
      modifies this, machine`state, hook`notified
      ensures Valid() && steps == old(steps) + [if failure.Some? then InitThrows(failure.value) else InitSucceeds]
      ensures View() == Next(cfg, old(View()), if failure.Some? then InitThrows(failure.value) else InitSucceeds)
    {
      hide Fail, Request;
      WorkIsHooked();
      loading := false;
      if failure.Some? {
        FailWith(failure.value);
      } else {
        wired := true;
        var _ := Transition(Ready);
      }
      Record(if failure.Some? then InitThrows(failure.value) else InitSucceeds);
    }

    /** False when `authorize` throws because the adapter is not ready. */
    method BeginAuthorize() returns (started: bool)
      requires Valid() && initialised
      modifies this, machine`state, hook`notified
      ensures Valid() && steps == old(steps) + [Authorize]
      ensures View() == Next(cfg, old(View()), Authorize)
      ensures started <==> old(machine.state) == Ready
    {
      hide Request, LegalTransitions, Run, StateChanges;
      started := machine.state == Ready;
      if started {
        var _ := Transition(Authorizing);
        authorizations, inFlight := authorizations + 1, inFlight + 1;
      }
      Record(Authorize);
    }

    method StartPolling()
      modifies this`poll
      ensures poll == Started(old(poll))
    {
      if poll.active { return; }
      poll := poll.(active := true, attempts := 0, started := poll.started + 1);
    }

    method EndDoAuthorize(w: Wire)
      requires Valid() && inFlight > 0
      modifies this, machine`state, hook`notified
      ensures Valid() && steps == old(steps) + [OrderReply(w)]
      ensures View() == Next(cfg, old(View()), OrderReply(w))
    {
      hide MapOrderResult;
      var r := MapOrderResult(w);
      inFlight := inFlight - 1;
      if cfg.polls && r.status == PendingAuthorization { StartPolling(); }
      resolving := resolving + [r];
      Record(OrderReply(w));
    }

    method DoAuthorizeThrows(e: OrderError)
      requires Valid() && inFlight > 0
      modifies this, machine`state, hook`notified
      ensures Valid() && steps == old(steps) + [AuthorizeThrows(e)]
      ensures View() == Next(cfg, old(View()), AuthorizeThrows(e))
    {
      hide Fail;
      WorkIsHooked();
      inFlight := inFlight - 1;
      FailWith(e);
      Record(AuthorizeThrows(e));
    }

    method ResolveAuthorizeResult(r: OrderResult)
      requires machine.listeners == {hook}
      modifies machine`state, hook`notified, this`ctx, this`log, this`tails, this`winner
      ensures Told(old(hook.notified), old(machine.state))
      ensures PaymentView() == ResolveResult(old(PaymentView()), r)
    {
      if r.status == PendingAuthorization {
        ctx := ctx.(pendingOrderId := Some(r.orderId), redirectUrl := RedirectOf(r));
        var _ := Transition(Pending);
      } else if r.status == Authorized || r.status == Captured {
        var _ := CompleteWith(r);
      } else if r.status == CancelledStatus {
        var _ := CancelWith("User cancelled");
      } else {
        var _ := RejectWith(ErrorOf(r, "Payment failed"));
      }
    }

    /** `authorize` after `await this.doAuthorize()`. */
    method EndAuthorize()
      requires Valid() && resolving != []
      modifies this, machine`state, hook`notified
      ensures Valid() && steps == old(steps) + [Resolve]
      ensures View() == Next(cfg, old(View()), Resolve)
    {
      hide ResolveResult;
      WorkIsHooked();
      ResolveAuthorizeResult(resolving[0]);
      resolving := resolving[1..];
      Record(Resolve);
    }

    method OnWebhookEnvelope(w: Webhook)
      requires machine.listeners == {hook}
      modifies machine`state, hook`notified, this`ctx, this`log, this`tails, this`winner
      ensures Told(old(hook.notified), old(machine.state))
      ensures PaymentView() == OnWebhook(cfg, old(PaymentView()), w)
    {
      if machine.state != Pending { return; }
      if w.sessionId != cfg.sessionId { return; }
      match w.kind {
        case PaymentSucceeded => var _ := CompleteWith(OrderResult(w.orderId, Captured, NoAction, None));
        case PaymentFailedHook => var _ := RejectWith(OrderError(PROVIDER_REJECTED, "Payment failed at provider"));
        case PaymentCancelledHook => var _ := CancelWith("Cancelled at provider");
        case PaymentExpired => var _ := CancelWith("Session expired before authorization");
        case PaymentAuthorizedHook =>
      }
    }

    /** The webhook subscription calls the handler. */
    method ReceiveWebhook(w: Webhook)
      requires Valid() && wired
      modifies this, machine`state, hook`notified
      ensures Valid() && steps == old(steps) + [WebhookArrives(w)]
      ensures View() == Next(cfg, old(View()), WebhookArrives(w))
    {
      hide OnWebhook;
      WorkIsHooked();
      OnWebhookEnvelope(w);
      Record(WebhookArrives(w));
    }

    method OnTick()
      requires Valid() && poll.active
      modifies this, machine`state, hook`notified
      ensures Valid() && steps == old(steps) + [Tick]
      ensures View() == Next(cfg, old(View()), Tick)
    {
      poll := poll.(attempts := poll.attempts + 1);
      if poll.attempts > MAX_POLL_ATTEMPTS {
        poll := poll.(active := false);
      } else {
        poll := poll.(asked := poll.asked + 1, outstanding := poll.outstanding + 1);
      }
      Record(Tick);
    }

    method OnPolledTerminal(r: OrderResult)
      requires machine.listeners == {hook}
      modifies machine`state, hook`notified, this`ctx, this`log, this`tails, this`winner
      ensures Told(old(hook.notified), old(machine.state))
      ensures PaymentView() == ResolvePolled(old(PaymentView()), r)
    {
      if machine.state != Pending { return; }
      if r.status == Authorized || r.status == Captured {
        var _ := CompleteWith(r);
      } else if r.status == CancelledStatus {
        var _ := CancelWith("Cancelled at provider (polled)");
      } else if r.status == Declined || r.status == FailedStatus {
        var _ := RejectWith(ErrorOf(r, "Payment failed"));
      }
    }

    method OnPollReply(w: Wire)
      requires Valid() && poll.outstanding > 0
      modifies this, machine`state, hook`notified
      ensures Valid() && steps == old(steps) + [PollReply(w)]
      ensures View() == Next(cfg, old(View()), PollReply(w))
    {
      var r := MapOrderResult(w);
      hide ResolvePolled, MapOrderResult, Run, StateChanges, Moves, LegalTransitions;
      WorkIsHooked();
      poll := poll.(outstanding := poll.outstanding - 1);
      if r.status != PendingAuthorization {
        poll := poll.(active := false);
        OnPolledTerminal(r);
      }
      Record(PollReply(w));
    }

    method EndVoid(reason: string) returns (refused: bool)
      requires Valid() && initialised
      modifies this, machine`state, hook`notified
      ensures Valid() && steps == old(steps) + [VoidEnds(reason)]
      ensures View() == Next(cfg, old(View()), VoidEnds(reason))
      ensures refused == Refused(old(machine.state), Cancelled)
    {
      refused := CancelWith(reason);
      Record(VoidEnds(reason));
    }

    /** False when `capture` throws because the machine cannot go to `capturing`. */
    method BeginCapture() returns (started: bool)
      requires Valid() && initialised
      modifies this, machine`state, hook`notified
      ensures Valid() && steps == old(steps) + [CaptureBegins]
      ensures View() == Next(cfg, old(View()), CaptureBegins)
      ensures started <==> !Refused(old(machine.state), Capturing)
    {
      hide Request, LegalTransitions;
      var refused := Transition(Capturing);
      started := !refused;
      Record(CaptureBegins);
    }

    /** The bus has let a waiting emission go on. */
    method ContinueEmission(tail: Tail)
      requires Valid() && tail in tails
      modifies this, machine`state, hook`notified
      ensures Valid() && steps == old(steps) + [Continue(tail)]
      ensures View() == Next(cfg, old(View()), Continue(tail))
    {
      hide GoOn;
      EmitRest(tail);
      Record(Continue(tail));
    }

    method EmitRest(tail: Tail)
      requires tail in tails
      modifies this`tails, this`log
      ensures PaymentView() == GoOn(old(PaymentView()), tail)
    {
      var event := TailEvent(ctx, tail);
      tails := tails - multiset{tail};
      if event.Some? { log := log + [event.value]; }
    }

    method TearDown()
      requires Valid() && initialised
      modifies this, machine`state, hook`notified
      ensures Valid() && steps == old(steps) + [Teardown]
      ensures View() == Next(cfg, old(View()), Teardown)
    {
      wired := false;
      poll := poll.(active := false);
      Record(Teardown);
    }

    method PollFails()
      requires Valid() && poll.outstanding > 0
      modifies this
      ensures Valid() && steps == old(steps) + [PollError]
      ensures View() == Next(cfg, old(View()), PollError)
    {
      poll := poll.(outstanding := poll.outstanding - 1);
      Record(PollError);
    }

    /** What the run theorems say of every adapter object, whatever has been called on it. */
    lemma KeepsItsPromises()
      requires Valid()
      ensures IsTerminal(machine.state) ==>
                && winner.Some? && Matches(winner.value, machine.state)
                && TerminalEvents(log) == if CompletedTail in tails then [] else [EventFor(winner.value)]
      ensures !IsTerminal(machine.state) ==> TerminalEvents(log) == []
      ensures forall r | PAYMENT_COMPLETED(r) in log :: Justified(cfg, steps, r)
      ensures authorizations <= 1 && poll.asked <= MAX_POLL_ATTEMPTS && |hook.notified| <= 5
    {
      ExactlyOneTerminalEvent(cfg, steps);
      WorkIsBounded(cfg, steps);
      FiveChanges(cfg, steps);
      forall r | PAYMENT_COMPLETED(r) in log
        ensures Justified(cfg, steps, r)
      {
        NoCompletionFromNothing(cfg, steps, r);
      }
    }
  }
}
