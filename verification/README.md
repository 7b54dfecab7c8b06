# Payments checkout: delivery, adapter lifecycle, resilience, caches and redaction

A Dafny model of the stateful parts of a payments checkout monorepo: the reference server's webhook
event stream, the browser SDK's payment adapters, and the Node client for Commerce Hub. Each component
keeps the form it has in TypeScript. Objects that update fields are classes whose methods are proved
against pure step functions; loops are loops; everything that may happen in any order (clock readings,
replies, overlapping calls, cut connections) is a sequence of steps, and the main results hold for
every such sequence.

Verify it with `dafny verify dfyconfig.toml`.

| file | what it models |
|---|---|
| `Sse.dfy` | the characters `routes/events.ts` writes, and the event-stream parser of sections 9.2.5 and 9.2.6 of the WHATWG HTML Living Standard, character by character |
| `WebhookEventBus.dfy` | the bounded, expiring replay buffer; the in-memory bus with its listener sets and unsubscribe closures |
| `Delivery.dfy` | publish, connect, heartbeat and cut in any order, seen from the page; the replay-then-subscribe handler |
| `AdapterStateMachine.dfy` | the transition table and the machine that notifies listeners |
| `OrderResults.dfy` | the mapping of order replies to order results |
| `AdapterStory.dfy` | what whole runs of an adapter tell: the complete event log, moves, authorization, polling, webhooks |
| `Adapter.dfy` | `init`, `authorize`, webhooks, overlapping polls, `void` and asynchronous emission, racing; `capture`, which is always refused |
| `CircuitBreaker.dfy` | the breaker with overlapping operations |
| `Retry.dfy` | the error taxonomy and the deadline-aware retry loop |
| `UpstreamClients.dfy` | breaker around retry around request; `submit` and `createSession` |
| `TokenCache.dfy` | the TTL and least-recently-used cache on an insertion-ordered map |
| `OrderResultCache.dfy` | the first-writer-wins cache |
| `Redact.dfy` | PII redaction of a possibly cyclic heap, and email masking |

## Where code and documentation part ways

The model follows the code. Each of these is stated exactly in Dafny.

- **Duplicates after a quiet reconnect.** Section 9.2.6 starts every stream with an empty last event ID
  buffer, and dispatching at a blank line copies the buffer to the EventSource even when there is no
  data. The keep-alive comment `:\n\n` ends in such a blank line, so a reconnect that brings only
  heartbeats makes the browser forget its place, and the next reconnect replays everything retained
  (`HeartbeatCausesDuplicate`, `ForgetsIff`). Over a whole run nothing arrives twice if and only if no
  connection is opened by a reader that forgot its place while its last message is still retained
  (`DeliveredOnceIff`), and the page has exactly the session's first messages throughout if and only if
  moreover every connection is opened in time (`DeliveredWithoutGap`). A browser that carries the id over
  to the next stream never forgets (`CarryingOverRemembers`).
- **An early webhook is lost.** `onWebhookEnvelope` acts only in `pending`, although the comment in
  `order-result-cache.ts` says out-of-order arrival is tolerated (`SuccessWebhookActsIff`). The payment
  then waits exactly until a settling poll reply, another webhook or `void` (`EarlyWebhookIsLost`). The
  `OrderResultCache` those comments rely on is used by no other module.
- **Capture is dead code.** Nothing requests `awaiting_merchant_capture`, so `capture` always refuses and
  four of the states are unreachable (`CaptureNeverStarts`). The comment counts 11 states and 18
  transitions; the table has 12 and 19.
- **Half-open admits any number.** The class comment allows one trial request, but until one settles every
  operation that begins is admitted (`HalfOpenAdmitsAll`). Trials stay single if and only if no operation
  begins while the breaker is half-open after another has begun since it turned so (`SingleTrialIff`).
  `getState`, which `reference-server/src/config.ts` calls every second and `/readyz` on each request, can
  turn it half-open without a trial.
- **Not only trials decide.** Whichever operation settles first while half-open closes or reopens the breaker,
  also one admitted before the opening. The one that decides is a trial iff it was not in flight when the
  breaker turned half-open (`DecidedByTrialIff`), and only trials can decide iff nothing was
  (`OnlyTrialsDecideIff`; `LateSuccessDecides` closes the breaker with no trial made).
- **Sessions can be served after they expire.** The cache lifetime is at least 60 s even when the session
  has less left (`ServesExpired`; `FreshIff`, `MarginIff` and `HitIsFresh` say exactly when).
- **A second unsubscribe can evict newcomers.** `SecondCallEvictsNewcomer` shows it; the contract of
  `Unsubscribe` says exactly when a second call is harmless: no newer set has replaced the captured one.
- **Masked emails differ from what the tests expect.** They give `ada@example.com` three stars; it gets two
  (`AdaIsOneStarShort`). Three stars are the outcome iff the local part has four characters, as in the
  comment's `user@example.com` (`ThreeStarsIff`); longer ones get one for every letter after the first.
- **A deadline hit is no breaker failure.** `DeadlineExceededError` is not retryable, so the breaker does not
  count it even when the upstream failed before. `FailureUncountedIff` says for which deadlines, clock
  readings, replies and random numbers this happens; without a deadline never (`NoDeadlineCountsAll`).

## Assumptions

Ids of webhook events are one line and JSON text has no line break (`JSON.stringify` escapes them). Where a
lemma says `Nondecreasing` or `Plausible`, the clock does not go back and those ids are fresh; the bus object
itself takes any clock and any ids, and remembers in `disturbed` the sessions where either failed. Replies,
thrown errors, clock readings, random numbers and the moments at which connections break are arbitrary.

In `SubmitCreatesAtMostOneOrder` and `OneOrderPerSubmit` the upstream creates one order per Client-Request-Id,
for the first request that brings it, however late others come (the comment in `client.ts` speaks of five
minutes); that upstream is not part of the repository. Callers may bring an id of their own and reuse it.

## Model

| member | source | states |
|---|---|---|
| Sse.RoundTrip | packages/reference-server/src/routes/events.ts:57-60 | parsing any sequence of written frames with heartbeats anywhere between them yields exactly the written (id, data) pairs, and the last event ID they leave |
| Sse.CutAnywhere | packages/reference-server/src/routes/events.ts:32-46 | whatever prefix of the characters arrives, exactly the completely received frames are dispatched, unaltered and in order |
| Sse.CutItem | packages/reference-server/src/routes/events.ts:57-60 | an item cut before its last character dispatches nothing and moves no id |
| ReplayBuffer.FindId | packages/reference-server/src/webhooks/event-bus.ts:105-106 | the first entry with that id, or -1 when no entry has it |
| ReplayBuffer.PublishTracks | packages/reference-server/src/webhooks/event-bus.ts:55-65 | publishing keeps the buffer a contiguous suffix of the session's history, at most `bufferSize` long, with nothing lost except to newer events or expiry; the new event is owed to readers for exactly `ttlMs`, unless pushed out |
| ReplayBuffer.PruneTracks | packages/reference-server/src/webhooks/event-bus.ts:99-101 | lazy pruning keeps the same invariant |
| ReplayBuffer.PruneExact | packages/reference-server/src/webhooks/event-bus.ts:99-101 | after pruning an event is buffered iff it is among the last `bufferSize` and unexpired |
| ReplayBuffer.ReplayExact | packages/reference-server/src/webhooks/event-bus.ts:95-108 | replay after any id ever published, still buffered or long gone, is exactly the retained events strictly after it; without an id, all retained events |
| ReplayBuffer.ResumesWhereLeftIff | packages/reference-server/src/webhooks/event-bus.ts:95-108 | a reader resumes with nothing missing iff at most `bufferSize` events were missed and none of them expired |
| WebhookEventBus.PushKeepsTail | packages/reference-server/src/webhooks/event-bus.ts:64-65 | pushing keeps the bus's buffer the latest events of the session |
| WebhookEventBus.PruneKeepsTail | packages/reference-server/src/webhooks/event-bus.ts:99-101 | so does pruning |
| WebhookEventBus.InMemoryEventBus.Publish | packages/reference-server/src/webhooks/event-bus.ts:55-80 | appends to history and buffer, is heard once by every active listener of the session and by nobody else, keeps every listener's record equal to its subscription window, and unless the clock went back or the id is old keeps the session undisturbed: nothing leaves its buffer but for `bufferSize` newer events or expiry |
| WebhookEventBus.InMemoryEventBus.Notify | packages/reference-server/src/webhooks/event-bus.ts:67-77 | the fan-out loop: each member of the session's set once, nobody else |
| WebhookEventBus.InMemoryEventBus.Subscribe | packages/reference-server/src/webhooks/event-bus.ts:82-93 | a new connection hears from now on; map keys stay exactly the sessions with a non-empty set |
| WebhookEventBus.InMemoryEventBus.Unsubscribe | packages/reference-server/src/webhooks/event-bus.ts:89-92 | the first call ends the window and keeps all others registered; a further call is harmless iff no newer set replaced the captured one |
| WebhookEventBus.InMemoryEventBus.RegisteredAfterUnsubscribe | packages/reference-server/src/webhooks/event-bus.ts:89-92 | although closures hold old set objects, leaving once disturbs no other connection |
| WebhookEventBus.InMemoryEventBus.RegisteredAfterSecondCall | packages/reference-server/src/webhooks/event-bus.ts:89-92 | exact condition under which leaving again keeps the listener map right |
| WebhookEventBus.InMemoryEventBus.Replay | packages/reference-server/src/webhooks/event-bus.ts:95-108 | in a session whose clock never went back and whose ids never repeated, a reader that names the last event it saw gets exactly the events retained after it, whatever was published and pruned before; in every session the buffer stays a suffix of the history |
| WebhookEventBus.InMemoryEventBus.DropExpired | packages/reference-server/src/webhooks/event-bus.ts:99-101 | the pruning loop leaves exactly the pruned buffer, changes no history, and keeps every session's buffer justified |
| WebhookEventBus.SecondCallEvictsNewcomer | packages/reference-server/src/webhooks/event-bus.ts:89-92 | unsubscribe, subscribe, unsubscribe again leaves an active listener that hears nothing |
| Delivery.DeliveredInOrderOnce | packages/checkout-sdk-browser/src/core/webhook-listener.ts:53-69 | over every run that meets the exact condition of `DeliveredOnceIff`, wherever connections are cut, the page has been given session messages in publish order and none twice |
| Delivery.DeliveredOnceIff | packages/reference-server/src/routes/events.ts:32-46 | for every run: no message ever reaches the page twice iff no connection is opened by a reader that forgot its place while its last message is retained |
| Delivery.DeliveredWithoutGap | packages/reference-server/src/routes/events.ts:37-46 | for every run: the page has at every moment exactly a prefix of the history, and all of it once the open connection got through, iff every connection is opened in time and none repeats |
| Delivery.ConnectCompleteIff | packages/reference-server/src/routes/events.ts:37-46 | a connection starts just after the last message seen iff at most `bufferSize` events were missed, none expired, and it does not repeat |
| Delivery.ConnectRepeatsIff | packages/reference-server/src/routes/events.ts:37-41 | a connection starts with a message already seen iff the reader forgot its place while that message is retained |
| Delivery.ForgetsIff | packages/reference-server/src/routes/events.ts:32-35 | a reader forgets its place iff new streams start with an empty id buffer, it had received something, and this connection brought heartbeats only |
| Delivery.CarryingOverRemembers | packages/checkout-sdk-browser/src/core/webhook-listener.ts:56-61 | a browser that carries the id over to the next stream never forgets its place, so none of its runs repeats |
| Delivery.HeartbeatCausesDuplicate | packages/reference-server/src/routes/events.ts:32-41 | with streams that start as section 9.2.6 says, one heartbeat on a quiet reconnect makes a message arrive twice |
| EventsRoute.WriteEvents | packages/reference-server/src/routes/events.ts:39-41 | the replay loop writes exactly the frames of the replayed envelopes |
| EventsRoute.Open | packages/reference-server/src/routes/events.ts:37-46 | the handler writes exactly the frames of the replay, which in an undisturbed session are all events retained after the id named, and then hears everything published from this very moment |
| EventsRoute.ReplayMeetsLive | packages/reference-server/src/routes/events.ts:37-46 | what a connection was replayed followed by what it has heard is one unbroken run of the session's history |
| AdapterStateMachine.MoveLowersRank | packages/checkout-sdk-browser/src/core/adapter-state-machine.ts:35-64 | every legal move lowers the rank |
| AdapterStateMachine.BoundedChanges | packages/checkout-sdk-browser/src/core/adapter-state-machine.ts:119-134 | any requests, legal or not, make at most as many changes as the rank allows, seven from idle |
| AdapterStateMachine.SevenChanges | packages/checkout-sdk-browser/src/core/adapter-state-machine.ts:35-64 | the bound is reached |
| AdapterStateMachine.NineteenTransitions | packages/checkout-sdk-browser/src/core/adapter-state-machine.ts:35-64 | the table has nineteen transitions, and exactly the terminal states have none |
| AdapterStateMachine.EnteredFrom | packages/checkout-sdk-browser/src/core/adapter-state-machine.ts:35-64 | for each state, exactly the states it is entered from; every other request for a different state is refused |
| AdapterStateMachine.TerminalIffAbsorbing | packages/checkout-sdk-browser/src/core/adapter-state-machine.ts:66-72 | exactly the listed terminal states can never be left |
| AdapterStateMachine.AdapterStateMachine.Transition | packages/checkout-sdk-browser/src/core/adapter-state-machine.ts:119-134 | moves, absorbs or refuses; a move tells every registered listener once even if some throw, nothing else tells any |
| OrderResults.SuccessIff | packages/checkout-sdk-browser/src/core/order-result-mapper.ts:48-103 | a reply maps to a success status iff `toUpperCase` makes its state one of the six success states |
| OrderResults.ErrorIff | packages/checkout-sdk-browser/src/core/order-result-mapper.ts:48-103 | which states are pending and cancelled, and that a result carries an error iff its state, known, unknown or missing, is none of the success, pending and cancelled ones |
| OrderResults.ReflectsIff | packages/checkout-sdk-browser/src/core/order-result-mapper.ts:48-148 | a reply has exactly one result that reflects it: its order id or "unknown"; the status its state names; the first URL field that is there, else the QR code, else the voucher; for an error the first keyword found in its code or type and its message |
| OrderResults.UpperAscii | packages/checkout-sdk-browser/src/core/order-result-mapper.ts:77-79 | in ASCII text upper case differs only in the small letters |
| Adapter.ExactlyOneTerminalEvent | packages/checkout-sdk-browser/src/core/adapter-event-emitter.ts:58-110 | over every run at most one terminal event is emitted; it matches the terminal state and carries the winner's payload |
| Adapter.FirstWinnerStays | packages/checkout-sdk-browser/src/core/base-adapter.ts:149-214 | the first terminal state and its payload are never replaced, whatever arrives later |
| Adapter.EndsIff | packages/checkout-sdk-browser/src/core/base-adapter.ts:77-214 | after any run of a payment still open, exactly which step ends it, how, and with which result, error or reason, told from the raw reply, webhook or exception |
| Adapter.WorkIsBounded | packages/checkout-sdk-browser/src/ppro-adapter-factory.ts:79-109 | one doAuthorize, one polling loop, at most 60 order queries, however calls and replies overlap |
| Adapter.CaptureNeverStarts | packages/checkout-sdk-browser/src/adapters/button-sdk/paypal-adapter.ts:294-324 | no run ever gets into the merchant-capture states, so capture is always refused |
| Adapter.SuccessWebhookActsIff | packages/checkout-sdk-browser/src/core/base-adapter.ts:149-164 | after any run, a success webhook changes anything iff it is for this session and comes while pending |
| Adapter.EarlyWebhookIsLost | packages/checkout-sdk-browser/src/core/base-adapter.ts:149-151 | a success webhook that overtakes the pending reply leaves the payment pending, and in every continuation it stays so, with no terminal event, exactly until something else settles it |
| Adapter.PendingUntilFreed | packages/checkout-sdk-browser/src/core/base-adapter.ts:149-214 | over every continuation of every run a pending payment stays pending iff no settling poll reply, no telling webhook for the session and no void comes; otherwise it has ended |
| Adapter.NoCompletionFromNothing | packages/checkout-sdk-browser/src/core/order-result-mapper.ts:77-103 | whoever sees PAYMENT_COMPLETED with a result, that result reflects an earlier reply that named a success state, or is what a success webhook for this session said while pending |
| Adapter.FiveChanges | packages/checkout-sdk-browser/src/core/adapter-state-machine.ts:119-134 | over every run of an adapter its machine changes at most five times |
| AdapterStory.LogTold | packages/checkout-sdk-browser/src/core/adapter-event-emitter.ts:58-110 | the complete log of every run: INITIALIZING, SDK_LOADED and PAYMENT_AUTHORIZING once each as far as the machine has come, PAYMENT_METHOD_READY after SDK_LOADED; iff it has been pending, REDIRECT_REQUIRED with the reply's URL if it has one and then PAYMENT_PENDING with its order id; PAYMENT_AUTHORIZED before a completion; what waits for the bus is missing |
| AdapterStory.PendingIsTold | packages/checkout-sdk-browser/src/core/base-adapter.ts:185-194 | after any run, going on with a reply that says pending suspends the payment and tells REDIRECT_REQUIRED with its URL, PAYMENT_PENDING waiting, or without a URL PAYMENT_PENDING at once |
| AdapterStory.GoingOnTells | packages/checkout-sdk-browser/src/core/adapter-event-emitter.ts:63-95 | after any run, an emission that the bus lets go on is told then and there: PAYMENT_METHOD_READY, PAYMENT_PENDING with the reply's order id, or PAYMENT_COMPLETED with the winner's result |
| AdapterStory.MovesIff | packages/checkout-sdk-browser/src/core/base-adapter.ts:59-118 | after any run, exactly which step makes the machine initializing, ready, authorizing or pending |
| AdapterStory.AuthorizationTold | packages/checkout-sdk-browser/src/core/base-adapter.ts:103-118 | after any run: doAuthorize called iff the machine has been authorizing, under way until its reply or exception, and what authorize is about to go on with reflects the reply |
| AdapterStory.AuthorizeAnswers | packages/checkout-sdk-browser/src/core/base-adapter.ts:185-214 | what authorize makes of its raw reply: pending, completed with the result that reflects it, failed with its error, or cancelled |
| AdapterStory.PollingTold | packages/checkout-sdk-browser/src/ppro-adapter-factory.ts:79-109 | after any run: polling started iff the adapter polls and its reply said pending; the timer runs until its 61st firing, a teardown or a reply that says something else; each of its first 60 firings has asked, and every question is answered or out |
| AdapterStory.WiringTold | packages/checkout-sdk-browser/src/core/base-adapter.ts:77-126 | after any run: webhooks reach the adapter iff init has succeeded with no teardown since |
| AdapterStory.ObjectsTell | packages/checkout-sdk-browser/src/core/base-adapter.ts:59-214 | every adapter object, whatever has been called on it, has the log, authorization, polling and wiring that its history tells |
| Adapter.CheckoutAdapter.KeepsItsPromises | packages/checkout-sdk-browser/src/core/base-adapter.ts:59-214 | every adapter object, whatever has been called on it: one terminal event that matches its state, completions justified, work bounded, at most five notifications |
| Adapter.CheckoutAdapter.Transition | packages/checkout-sdk-browser/src/core/base-adapter.ts:69-71 | the machine tells the one listener of each move, which runs the emitter; an absorbed or refused request emits nothing |
| Adapter.CheckoutAdapter.OnStateChange | packages/checkout-sdk-browser/src/core/adapter-event-emitter.ts:58-110 | what each state emits at once and what it leaves waiting for the bus |
| Adapter.CheckoutAdapter.ContinueEmission | packages/checkout-sdk-browser/src/core/adapter-event-emitter.ts:66-96 | the rest of an emission reads the shared context when it goes on |
| Adapter.CheckoutAdapter.BeginInit | packages/checkout-sdk-browser/src/core/base-adapter.ts:59-75 | the first call takes the machine to initializing iff the configuration is valid, and marks the adapter as initialised either way |
| Adapter.CheckoutAdapter.EndInit | packages/checkout-sdk-browser/src/core/base-adapter.ts:77-86 | webhooks reach the adapter and it is ready, or it has failed with the error thrown and no webhook reaches it |
| Adapter.CheckoutAdapter.BeginAuthorize | packages/checkout-sdk-browser/src/core/base-adapter.ts:103-107 | starts one doAuthorize iff the adapter is ready, otherwise nothing changes |
| Adapter.CheckoutAdapter.DoAuthorizeThrows | packages/checkout-sdk-browser/src/core/base-adapter.ts:109-115 | one doAuthorize fewer under way; the error reaches the machine iff the state allows it, the context in any case |
| Adapter.CheckoutAdapter.FailWith | packages/checkout-sdk-browser/src/core/base-adapter.ts:217-232 | fails the payment from the four states it may, elsewhere only overwrites the context |
| Adapter.CheckoutAdapter.ResolveAuthorizeResult | packages/checkout-sdk-browser/src/core/base-adapter.ts:181-214 | context first, then the machine, whatever state it is in |
| Adapter.CheckoutAdapter.OnWebhookEnvelope | packages/checkout-sdk-browser/src/core/base-adapter.ts:149-178 | dropped unless pending and for this session; otherwise the kind decides |
| Adapter.CheckoutAdapter.EndDoAuthorize | packages/checkout-sdk-browser/src/adapters/base/qr-base.ts:42-55 | starts polling iff the result is pending and no timer is running |
| Adapter.CheckoutAdapter.OnTick | packages/checkout-sdk-browser/src/adapters/base/qr-base.ts:61-71 | counts, stops after 60 attempts, otherwise asks |
| Adapter.CheckoutAdapter.OnPollReply | packages/checkout-sdk-browser/src/adapters/base/qr-base.ts:72-83 | a settling reply stops the timer and resolves if still pending |
| Adapter.CheckoutAdapter.OnPolledTerminal | packages/checkout-sdk-browser/src/ppro-adapter-factory.ts:111-129 | only while pending; context then machine |
| Adapter.CheckoutAdapter.EndVoid | packages/checkout-sdk-browser/src/adapters/button-sdk/paypal-adapter.ts:326-338 | requests cancellation whatever the provider answered |
| Adapter.CheckoutAdapter.BeginCapture | packages/checkout-sdk-browser/src/adapters/button-sdk/paypal-adapter.ts:294-303 | requests `capturing`, and goes on iff the machine does not refuse |
| CircuitBreaker.PrunedListIsWindow | packages/commerce-hub-node/src/circuit-breaker.ts:100-129 | however operations overlap, the breaker is in the state of one that keeps all failures since the last clear and works out each window afresh, and its pruned list is that window |
| CircuitBreaker.OpensIff | packages/commerce-hub-node/src/circuit-breaker.ts:117-128 | a closed breaker opens on a failure iff that window holds `failureThreshold` |
| CircuitBreaker.NothingAdmittedWhileCooling | packages/commerce-hub-node/src/circuit-breaker.ts:67-76 | without a reset nothing is admitted in [openedAt, openedAt + openDurationMs), whatever operations in flight do |
| CircuitBreaker.FailingProbesSpacedOut | packages/commerce-hub-node/src/circuit-breaker.ts:131-137 | sequential calls that all fail are admitted at least `openDurationMs` apart |
| CircuitBreaker.AfterCallIsRun | packages/commerce-hub-node/src/circuit-breaker.ts:67-91 | such a call is what any run makes of its admission check and, if admitted, its failure |
| CircuitBreaker.HalfOpenAdmitsAll | packages/commerce-hub-node/src/circuit-breaker.ts:131-137 | a half-open breaker stays half-open and admits every operation that begins, at whatever time, until one settles |
| CircuitBreaker.SingleTrialIff | packages/commerce-hub-node/src/circuit-breaker.ts:67-76 | for every run: at most one operation is ever admitted between turning half-open and the first to settle iff none begins while half-open after another has begun since it turned so; looking at the state is no operation |
| CircuitBreaker.FirstToSettleDecides | packages/commerce-hub-node/src/circuit-breaker.ts:100-115 | the first operation to settle, a trial or not, closes the breaker and clears its failures, or opens it for another full cool-down; a caller's own error decides nothing |
| CircuitBreaker.DecidedByTrialIff | packages/commerce-hub-node/src/circuit-breaker.ts:100-115 | for every run in which operations begin once and only admitted ones settle: the operation that ends a half-open time began within it iff it was not in flight when that time began |
| CircuitBreaker.OnlyTrialsDecideIff | packages/commerce-hub-node/src/circuit-breaker.ts:78-115 | when the breaker has just turned half-open, every continuation is decided by a trial iff no operation was in flight |
| CircuitBreaker.LateSuccessDecides | packages/commerce-hub-node/src/circuit-breaker.ts:78-106 | any operation in flight since before the opening can close the half-open breaker, no trial made |
| CircuitBreaker.Straggler | packages/commerce-hub-node/src/circuit-breaker.ts:78-129 | such a run exists: one of two overlapping calls fails, the other is still in flight after the cool-down |
| CircuitBreaker.HalfOpenSince | packages/commerce-hub-node/src/circuit-breaker.ts:131-137 | a half-open breaker was made so by an admission check or a look at its state, and nothing has settled since |
| CircuitBreaker.CircuitBreaker.GetState | packages/commerce-hub-node/src/circuit-breaker.ts:56-59 | answers open iff the breaker is open and still cooling down; otherwise an open breaker is half-open from then on |
| CircuitBreaker.CircuitBreaker.Admit | packages/commerce-hub-node/src/circuit-breaker.ts:67-76 | admitted iff not open or the cool-down has passed, which also makes it half-open |
| CircuitBreaker.CircuitBreaker.OnSuccess | packages/commerce-hub-node/src/circuit-breaker.ts:100-106 | a success closes a half-open breaker and empties the failure list in every state |
| CircuitBreaker.CircuitBreaker.OnFailure | packages/commerce-hub-node/src/circuit-breaker.ts:108-129 | a failed trial reopens and records nothing; otherwise the pruning loop leaves exactly the stale-free list plus this failure, or opens |
| Retry.WithRetry | packages/commerce-hub-node/src/retry.ts:37-89 | the loop runs exactly the specified attempts and ends with the specified outcome |
| Retry.RetryTrace | packages/commerce-hub-node/src/retry.ts:44-85 | attempts numbered without gaps, going on only after retryable failures, each attempt and each backoff drawn before the deadline, outcome the last attempt's or DeadlineExceeded for cause |
| Retry.BackoffBounds | packages/commerce-hub-node/src/retry.ts:95-99 | one backoff is at most `maxDelay` and at most base * 2^attempt |
| Retry.BackoffExact | packages/commerce-hub-node/src/retry.ts:95-99 | a backoff is the random share of base * 2^attempt or `maxDelay`, whichever is less, rounded down |
| Retry.FullJitter | packages/commerce-hub-node/src/retry.ts:95-99 | every whole number below that bound can be drawn |
| Retry.ConcludingSettles | packages/commerce-hub-node/src/retry.ts:44-85 | attempt k settles the call if attempts up to k are permitted and in time, those before it failed retryably with room for their backoffs, and it did not or is the last permitted |
| Retry.SettlingConcludes | packages/commerce-hub-node/src/retry.ts:44-85 | whenever a call settles, that held of some attempt, and the outcome is its reply |
| Retry.TotalBackoff | packages/commerce-hub-node/src/retry.ts:72-83 | total planned backoff is at most base * (2^k - 1) and k * maxDelay for k sleeps, and k is n - 1 over n attempts unless the deadline ended the run |
| UpstreamCall.Execute | packages/commerce-hub-node/src/circuit-breaker.ts:67-91 | breaker and retry composed, other operations settling in between |
| UpstreamCall.CallSettles | packages/commerce-hub-node/src/circuit-breaker.ts:67-91 | what a call leaves in the breaker: after a value no failures and not half-open, open only if it was; after a caller's error or a missed deadline exactly what was there; after anything else a failure more; a refused call changes nothing |
| UpstreamCall.FoldIsRun | packages/commerce-hub-node/src/circuit-breaker.ts:67-91 | events of a call come after any run as that run continued |
| UpstreamCall.OneCall | packages/commerce-hub-node/src/circuit-breaker.ts:67-91 | refused iff open and still cooling down, and then nothing attempted; else at most `maxAttempts`, all before the deadline; exactly when the breaker is told of its one failure |
| UpstreamCall.FailureUncountedIff | packages/commerce-hub-node/src/circuit-breaker.ts:82-90 | the last attempt failed retryably and the breaker is not told iff the call is let through and, for some n, attempts 0 to n are in time, fail retryably and are not the last permitted, all backoffs before n fit the deadline, and backoff n does not or has overrun it; n + 1 attempts were then made |
| UpstreamCall.NoDeadlineCountsAll | packages/commerce-hub-node/src/retry.ts:44-85 | a call without a deadline that ends with a retryable failure is always counted |
| Retry.CutShortEnds | packages/commerce-hub-node/src/retry.ts:44-81 | that condition on policy, clock, replies and random numbers makes the loop give up at the deadline after n + 1 attempts |
| Retry.DeadlineCuts | packages/commerce-hub-node/src/retry.ts:44-81 | whenever the loop gives up at the deadline after an attempt, the condition held for some n |
| UpstreamCall.DeadlineHitIsNoFailure | packages/commerce-hub-node/src/retry.ts:72-81 | a 503 that leaves no time for a backoff before the deadline leaves the breaker as it was |
| OrdersClient.CheckoutOrdersClient.Submit | packages/commerce-hub-node/src/orders-client.ts:340-374 | every request of one submit carries the same body and the caller's Client-Request-Id, or the fresh one if there is none |
| OrdersClient.RepeatedAfterTransient | packages/commerce-hub-node/src/orders-client.ts:386-451 | a request is followed by another only after a network error, 425, 429 or 5xx; any other reply means the outcome, and success is the last reply's 2xx order id |
| OrdersClient.SubmitAnswersIff | packages/commerce-hub-node/src/orders-client.ts:386-454 | a submit answers a value or an error iff it is let through and some request is its last, made in time after transient replies with room for their backoffs, and the raw reply to it means that |
| OrdersClient.SubmitSucceedsIff | packages/commerce-hub-node/src/orders-client.ts:440-454 | a submit answers an order id iff the reply to its last request is 2xx with that id |
| OrdersClient.InterpretMeans | packages/commerce-hub-node/src/errors.ts:182-198 | what each raw reply means: the order id, a missing id, or the error code of its status, retryable exactly when transient |
| OrdersClient.RetryableIff | packages/commerce-hub-node/src/errors.ts:182-198 | the reply classification makes exactly those replies retryable |
| OrdersClient.SubmitCreatesAtMostOneOrder | packages/commerce-hub-node/src/orders-client.ts:340-374 | many submits, ids their own or reused, their requests lost, repeated and interleaved at will: a deduplicating upstream has exactly one order for each id that arrived, that of the submit which brought it first, all from admitted submits; as many as submits of which a request arrived iff no two of those share an id |
| OrdersClient.OneOrderPerSubmit | packages/commerce-hub-node/src/orders-client.ts:340-374 | when no two share an id, orders and submits of which a request arrived are one to one, each order with its submit's body |
| SessionsClient.CommerceHubClient.CreateSession | packages/commerce-hub-node/src/client.ts:127-168 | rejected input touches nothing; a hit makes no call; a miss runs the composed call, while others use the cache, and stores a success |
| SessionsClient.StoredForLater | packages/commerce-hub-node/src/client.ts:161-165 | a session that a call brought is a hit until 60 s before its end, and at least for 60 s |
| SessionsClient.NothingStored | packages/commerce-hub-node/src/client.ts:161-165 | a call that brought none, or had no cache key, stores nothing |
| SessionsClient.AskTwice | packages/commerce-hub-node/src/client.ts:137-165 | asking again within that time is answered with the same session and no upstream attempt |
| SessionsClient.CreateSessionStoresSo | packages/commerce-hub-node/src/client.ts:161-165 | `createSession` keeps every lifetime in the cache the remaining life less 60 s, or 60 s |
| SessionsClient.FreshIff | packages/commerce-hub-node/src/client.ts:161-165 | every cache hit on a session just stored, after any run, is before its expiry iff it had at least 60 s left |
| SessionsClient.MarginIff | packages/commerce-hub-node/src/client.ts:161-165 | every cache hit on a session just stored, after any run, leaves more than 60 s iff it had at least 120 s left |
| SessionsClient.ServedExactly | packages/commerce-hub-node/src/client.ts:161-165 | after any run a session just stored is a hit until 60 s before its end, and at least for 60 s |
| SessionsClient.ServesExpired | packages/commerce-hub-node/src/client.ts:161-165 | any session with less than 60 s left when created can be a hit after it has expired |
| SessionsClient.HitIsFresh | packages/commerce-hub-node/src/client.ts:137-165 | over any run of the shared cache a hit is the latest session cached under the key, served until 60 s before its end and at least 60 s from when it was cached; all hits from then on come before its expiry iff it had 60 s left when cached, and leave over 60 s iff it had 120 s |
| TokenCache.RunIsLru | packages/commerce-hub-node/src/token-cache.ts:50-85 | after any operations the insertion-ordered map holds exactly what a cache without an order holds that numbers each insert and hit and evicts the least recent one, and its keys stand in the order of those numbers |
| TokenCache.Retention | packages/commerce-hub-node/src/token-cache.ts:50-77 | a set, unexpired, undeleted key is a hit unless at least `maxEntries` distinct other keys were inserted or hit since it was, as that cache counts them |
| TokenCache.HitIsLatest | packages/commerce-hub-node/src/token-cache.ts:50-77 | a hit is the latest set, unexpired; size never exceeds max(1, maxEntries) |
| TokenCache.EveryKeyOk | packages/commerce-hub-node/src/token-cache.ts:50-85 | the invariant of every operation: keys behind a key in the order came after it, and a missing key expired or had enough others after it |
| TokenCache.WithoutAt | packages/commerce-hub-node/src/token-cache.ts:60-61 | deleting a key leaves the others in their order |
| TokenCache.InMemoryTokenCache.Get | packages/commerce-hub-node/src/token-cache.ts:50-63 | a hit moves the key to the end, an expired entry is dropped, a miss changes nothing |
| TokenCache.InMemoryTokenCache.Set | packages/commerce-hub-node/src/token-cache.ts:65-77 | a new key at capacity drops the first key and goes last; an old key keeps its place |
| OrderResultCache.HoldsCanonical | packages/checkout-sdk-browser/src/core/order-result-cache.ts:57-86 | the map holds the first write since the last clear or expiry, except that an expired one may have been dropped |
| OrderResultCache.Refinement | packages/checkout-sdk-browser/src/core/order-result-cache.ts:57-78 | get returns that write while it lives and put is refused exactly then; both agree on the expiry instant |
| OrderResultCache.FirstWriterWins | packages/checkout-sdk-browser/src/core/order-result-cache.ts:57-86 | from an accepted put until its lifetime ends or a clear, every get returns that entry and every put is refused |
| OrderResultCache.OrderResultCache.Put | packages/checkout-sdk-browser/src/core/order-result-cache.ts:57-68 | writes iff no living entry holds the key, and answers whether it did |
| OrderResultCache.OrderResultCache.Get | packages/checkout-sdk-browser/src/core/order-result-cache.ts:70-78 | returns the living entry and changes nothing, or leaves no entry under the key |
| Redact.Redact | packages/commerce-hub-node/src/redact.ts:70-95 | the recursion with its two loops computes the specified tree and ends on cyclic input |
| Redact.RedactedAt | packages/commerce-hub-node/src/redact.ts:70-95 | along every path through no sensitive key, at most eleven steps long, the output has a place iff the input has; there stands the very value, a container of the same shape with its sensitive fields replaced, a masked email, or at depth eleven the marker |
| Redact.HarmlessPasses | packages/commerce-hub-node/src/redact.ts:70-95 | a value without emails, sensitive keys or undue depth comes out as it is |
| Redact.SensitiveIff | packages/commerce-hub-node/src/redact.ts:15-57 | which keys are sensitive: those about the payer, the card, credentials and wallets |
| Redact.IsEmailIff | packages/commerce-hub-node/src/redact.ts:60-60 | a string is taken for an email iff the regular expression matches all of it |
| Redact.RedactedIsClean | packages/commerce-hub-node/src/redact.ts:70-95 | the result is a tree at most eleven levels deep without references, email values or sensitive values |
| Redact.NonInterference | packages/commerce-hub-node/src/redact.ts:70-95 | two inputs redact to the same result iff they agree outside sensitive keys, the depth limit and what masking hides |
| Redact.Idempotent | packages/commerce-hub-node/src/redact.ts:70-95 | redacting a redacted value again, however it is stored, changes nothing |
| Redact.MaskedIsNoEmail | packages/commerce-hub-node/src/redact.ts:98-105 | a masked string no longer matches the email pattern |
| Redact.MaskShape | packages/commerce-hub-node/src/redact.ts:98-105 | a masked email has the first letter, then only stars up to the at sign, then the domain |
| Redact.MaskRevealsIff | packages/commerce-hub-node/src/redact.ts:98-105 | two masked emails are equal iff first letter, masked length and domain coincide |
| Redact.MaskKeepsLength | packages/commerce-hub-node/src/redact.ts:98-105 | masking keeps the length, or pads the local part to three |
| Redact.ThreeStarsIff | packages/commerce-hub-node/src/redact.ts:97-105 | first letter and three stars come out iff the local part has four characters, as in the comment's example |
| Redact.AdaIsOneStarShort | packages/commerce-hub-node/test/redact.test.ts:105-105 | the address in the unit tests is masked with two stars, not three |

## Left out

- HTTP, fetch, Express routing, metrics, logging and process shutdown; upstream replies are arbitrary inputs.
- HMAC and webhook signatures, static auth, production checks, Redis stubs, provider SDKs and script loading; each `doAuthorize` ends with an arbitrary reply to `authorizeOrder`, which all adapters return through the order-result mapper, or with an arbitrary exception.
- UTF-8 decoding and the byte order mark of section 9.2.5: the stream is already characters.
- JSON rendering and parsing: an envelope carries its JSON text; a page that cannot parse it is not modelled.
- `WebhookListener.start` and `stop`, and the `lastEventId` field nothing reads; the EventSource's own last event ID is modelled.
- The browser event bus (`core/event-bus.ts`), which takes a snapshot of listeners and awaits them: the log holds events handed to it, and an awaited emission may go on at any later time or never. Event order across transitions is not claimed, as the code does not give it.
- Calling `init` more than once, and listeners that call back into the bus, the machine or the adapter while being notified.
- The closing of the heartbeat timer and the gauge on `close`: `Unsubscribe` is what that handler does to the bus.
- Adapter.ExactlyOneTerminalEvent: an emission that waits for the bus may wait forever, so a completion whose event is still waiting has none yet; that it eventually goes on is not claimed.
- Redact.NonInterference: key order and prototypes of objects are not modelled; `__proto__`, which the code's assignment turns into a prototype instead of a field, is dropped. Numbers are reals, without NaN.
- `redactHeaders`, `transform-utils.ts`, `intent.ts` and the adapter tables: finite lookups with nothing unbounded to prove.
- Transaction ids, receipt messages and expiry times of order results are not carried.
- Retry.WithRetry: clock readings and delays are integers, and the random number is a parameter.
- What `capture` would do after its first transition: no run gets there (`CaptureNeverStarts`).
- Message texts of errors, except where they are payloads of events.
