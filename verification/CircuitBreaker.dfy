/**
  The circuit breaker for upstream calls. Operations overlap, so `execute` is two steps: the
  admission check, and the settlement once the awaited operation has ended.
 */
module CircuitBreaker {

  datatype State = Closed | Open | HalfOpen

  datatype Config = Config(failureThreshold: int, rollingWindowMs: int, openDurationMs: int)

  datatype Breaker = Breaker(state: State, failures: seq<int>, openedAt: int)

  const INITIAL := Breaker(Closed, [], 0)

  /**
    What happens to a breaker: `execute` begins operation `op`; that operation ends well, in a
    counted failure, or in a non-retryable error; somebody asks for the state; a manual reset.
    Each carries the clock. The code keeps no identity of operations: `op` only serves to say
    which of them settled.
   */
  datatype Event =
    | Begin(op: nat, at: int)
    | Success(op: nat, at: int)
    | Failure(op: nat, at: int)
    | CallerError(op: nat, at: int)
    | Peek(at: int)
    | Reset(at: int)

  // ---------- what the code does ----------

  /** Drop leading timestamps older than the cutoff. */
  function DropStale(ts: seq<int>, cutoff: int): (r: seq<int>) {
    if ts != [] && ts[0] < cutoff then DropStale(ts[1..], cutoff) else ts
  }

  function CheckOpen(cfg: Config, b: Breaker, now: int): (r: Breaker) {
    if b.state == Open && now - b.openedAt >= cfg.openDurationMs then b.(state := HalfOpen) else b
  }

  function OnSuccess(b: Breaker): (r: Breaker) {
    b.(state := if b.state == HalfOpen then Closed else b.state, failures := [])
  }

  function OnFailure(cfg: Config, b: Breaker, now: int): (r: Breaker) {
    if b.state == HalfOpen then b.(state := Open, openedAt := now)
    else
      var kept := DropStale(b.failures, now - cfg.rollingWindowMs) + [now];
      if |kept| >= cfg.failureThreshold then Breaker(Open, [], now) else b.(failures := kept)
  }

  function Next(cfg: Config, b: Breaker, e: Event): (r: Breaker) {
    match e
    case Begin(_, now) => CheckOpen(cfg, b, now)
    case Success(_, _) => OnSuccess(b)
    case Failure(_, now) => OnFailure(cfg, b, now)
    case CallerError(_, _) => b
    case Peek(now) => CheckOpen(cfg, b, now)
    case Reset(_) => INITIAL
  }

  function Run(cfg: Config, es: seq<Event>): (r: Breaker) {
    if es == [] then INITIAL else Next(cfg, Run(cfg, es[..|es| - 1]), es[|es| - 1])
  }

  predicate Nondecreasing(es: seq<Event>) {
    forall i, j | 0 <= i < j < |es| :: es[i].at <= es[j].at
  }

  // ---------- the offline sliding window ----------

  function NotBefore(ts: seq<int>, cutoff: int): (r: seq<int>) {
    if ts == [] then []
    else NotBefore(ts[..|ts| - 1], cutoff) + (if ts[|ts| - 1] >= cutoff then [ts[|ts| - 1]] else [])
  }

  /** The recorded failures in the rolling window that ends at the latest of them. */
  function Window(recorded: seq<int>, width: int): (r: seq<int>) {
    if recorded == [] then []
    else
      var latest := recorded[|recorded| - 1];
      NotBefore(recorded[..|recorded| - 1], latest - width) + [latest]
  }

  /**
    The breaker kept offline: `recorded` is every failure since the last clear, never pruned, and
    the window is worked out afresh at each failure.
   */
  datatype Ledger = Ledger(state: State, recorded: seq<int>, openedAt: int)

  function Cooled(cfg: Config, l: Ledger, now: int): (r: Ledger) {
    if l.state == Open && now - l.openedAt >= cfg.openDurationMs then l.(state := HalfOpen) else l
  }

  function Entered(cfg: Config, l: Ledger, e: Event): (r: Ledger) {
    match e
    case Begin(_, now) => Cooled(cfg, l, now)
    case Success(_, _) => l.(state := if l.state == HalfOpen then Closed else l.state, recorded := [])
    case Failure(_, now) =>
      var all := l.recorded + [now];
      if l.state == HalfOpen then l.(state := Open, openedAt := now)
      else if |Window(all, cfg.rollingWindowMs)| >= cfg.failureThreshold then Ledger(Open, [], now)
      else l.(recorded := all)
    case CallerError(_, _) => l
    case Peek(now) => Cooled(cfg, l, now)
    case Reset(_) => Ledger(Closed, [], 0)
  }

  function Offline(cfg: Config, es: seq<Event>): (r: Ledger) {
    if es == [] then Ledger(Closed, [], 0) else Entered(cfg, Offline(cfg, es[..|es| - 1]), es[|es| - 1])
  }

  // ---------- proofs: lazy pruning is the sliding window ----------

  predicate Sorted(ts: seq<int>) {
    forall i, j | 0 <= i < j < |ts| :: ts[i] <= ts[j]
  }

  lemma {:induction false} DropStaleSuffix(ts: seq<int>, cutoff: int)
    ensures var r := DropStale(ts, cutoff);
            && |r| <= |ts| && r == ts[|ts| - |r|..]
            && (forall i | 0 <= i < |ts| - |r| :: ts[i] < cutoff)
            && (r != [] ==> cutoff <= r[0])
  {
    if ts != [] && ts[0] < cutoff {
      DropStaleSuffix(ts[1..], cutoff);
      var r := DropStale(ts, cutoff);
      assert forall i | 1 <= i < |ts| - |r| :: ts[i] == ts[1..][i - 1];
    }
  }

  /** On a sorted sequence filtering keeps a suffix, and there is only one such suffix. */
  lemma {:induction false} NotBeforeSuffix(ts: seq<int>, cutoff: int, k: nat)
    requires Sorted(ts) && k <= |ts|
    requires forall i | 0 <= i < k :: ts[i] < cutoff
    requires k < |ts| ==> cutoff <= ts[k]
    ensures NotBefore(ts, cutoff) == ts[k..]
    decreases |ts|
  {
    if ts == [] {
    } else {
      var init := ts[..|ts| - 1];
      if k == |ts| {
        NotBeforeSuffix(init, cutoff, k - 1);
        assert init[k - 1..] == [];
      } else {
        NotBeforeSuffix(init, cutoff, k);
        assert init[k..] + [ts[|ts| - 1]] == ts[k..];
      }
    }
  }

  lemma {:induction false} FirstNotBefore(ts: seq<int>, cutoff: int) returns (k: nat)
    ensures k <= |ts|
    ensures forall i | 0 <= i < k :: ts[i] < cutoff
    ensures k < |ts| ==> cutoff <= ts[k]
  {
    k := 0;
    while k < |ts| && ts[k] < cutoff
      invariant k <= |ts| && forall i | 0 <= i < k :: ts[i] < cutoff
    {
      k := k + 1;
    }
  }

  /** On sorted failures the window is a suffix: everything before it is too old for the latest one. */
  lemma WindowIsSuffix(recorded: seq<int>, width: int) returns (k: nat)
    requires Sorted(recorded) && recorded != []
    ensures k < |recorded| && Window(recorded, width) == recorded[k..]
    ensures forall i | 0 <= i < k :: recorded[i] < recorded[|recorded| - 1] - width
  {
    var init, latest := recorded[..|recorded| - 1], recorded[|recorded| - 1];
    k := FirstNotBefore(init, latest - width);
    NotBeforeSuffix(init, latest - width, k);
    assert init[k..] + [latest] == recorded[k..];
    assert forall i | 0 <= i < k :: recorded[i] == init[i];
  }

  lemma PruningSuffix(recorded: seq<int>, k: nat, cutoff: int)
    requires Sorted(recorded) && k <= |recorded|
    requires forall i | 0 <= i < k :: recorded[i] < cutoff
    ensures DropStale(recorded[k..], cutoff) == NotBefore(recorded, cutoff)
  {
    var kept := recorded[k..];
    DropStaleSuffix(kept, cutoff);
    var j := |recorded| - |DropStale(kept, cutoff)|;
    assert forall i | k <= i < |recorded| :: recorded[i] == kept[i - k];
    assert DropStale(kept, cutoff) == recorded[j..];
    NotBeforeSuffix(recorded, cutoff, j);
  }

  /** Pruning the kept window for a later failure gives that failure's window. */
  lemma WindowSlides(recorded: seq<int>, width: int, now: int)
    requires Sorted(recorded) && (recorded != [] ==> recorded[|recorded| - 1] <= now)
    ensures DropStale(Window(recorded, width), now - width) + [now] == Window(recorded + [now], width)
  {
    assert (recorded + [now])[..|recorded + [now]| - 1] == recorded;
    if recorded != [] {
      var k := WindowIsSuffix(recorded, width);
      PruningSuffix(recorded, k, now - width);
    }
  }

  lemma {:induction false} RecordedSorted(cfg: Config, es: seq<Event>)
    requires Nondecreasing(es)
    ensures var ts := Offline(cfg, es).recorded;
            Sorted(ts) && forall i | 0 <= i < |ts| :: es != [] && ts[i] <= es[|es| - 1].at
    decreases |es|
  {
    hide Window;
    if es != [] { RecordedSorted(cfg, es[..|es| - 1]); }
  }

  /**
    However operations overlap, the breaker is the offline one throughout, and its pruned list is
    exactly the rolling window over the failures recorded since the last clear.
   */
  lemma {:induction false} PrunedListIsWindow(cfg: Config, es: seq<Event>)
    requires Nondecreasing(es)
    ensures var l := Offline(cfg, es);
            Run(cfg, es) == Breaker(l.state, Window(l.recorded, cfg.rollingWindowMs), l.openedAt)
    decreases |es|
  {
    if es != [] {
      var before, e := es[..|es| - 1], es[|es| - 1];
      PrunedListIsWindow(cfg, before);
      RecordedSorted(cfg, before);
      WindowSlides(Offline(cfg, before).recorded, cfg.rollingWindowMs, e.at);
      assert Window([], cfg.rollingWindowMs) == [];
      hide Window, DropStale, Sorted;
    }
  }

  /** A closed breaker opens on a failure iff the window ending there holds `failureThreshold`. */
  lemma OpensIff(cfg: Config, es: seq<Event>, op: nat, now: int)
    requires Nondecreasing(es) && (es != [] ==> es[|es| - 1].at <= now) && Run(cfg, es).state == Closed
    ensures Next(cfg, Run(cfg, es), Failure(op, now)).state == Open
       <==> |Window(Offline(cfg, es).recorded + [now], cfg.rollingWindowMs)| >= cfg.failureThreshold
  {
    hide Run, Offline, Window, DropStale;
    PrunedListIsWindow(cfg, es);
    RecordedSorted(cfg, es);
    WindowSlides(Offline(cfg, es).recorded, cfg.rollingWindowMs, now);
  }

  // ---------- cool-down ----------

  /** `es[i]` opens the breaker, or opens it anew. */
  predicate OpensAt(cfg: Config, es: seq<Event>, i: nat)
    requires i < |es|
  {
    es[i].Failure? && Run(cfg, es[..i + 1]).state == Open && Run(cfg, es[..i + 1]).openedAt == es[i].at
  }

  /** `es[j]` is an admission check that lets the operation through. */
  predicate AdmittedAt(cfg: Config, es: seq<Event>, j: nat)
    requires j < |es|
  {
    es[j].Begin? && Run(cfg, es[..j + 1]).state != Open
  }

  lemma RunPrefix(cfg: Config, es: seq<Event>, i: nat)
    requires i < |es|
    ensures Run(cfg, es[..i + 1]) == Next(cfg, Run(cfg, es[..i]), es[i])
  {
    assert es[..i + 1][..i] == es[..i];
  }

  /** Since an opening at `since` the breaker is still cooling down, or the time has passed. */
  lemma {:induction false} CoolingDown(cfg: Config, es: seq<Event>, i: nat, j: nat)
    requires Nondecreasing(es) && i < j <= |es| && OpensAt(cfg, es, i)
    requires forall k | i < k < j :: !es[k].Reset?
    ensures (Run(cfg, es[..j]).state == Open && Run(cfg, es[..j]).openedAt >= es[i].at)
         || es[j - 1].at - es[i].at >= cfg.openDurationMs
    decreases j
  {
    if i + 1 < j {
      CoolingDown(cfg, es, i, j - 1);
      RunPrefix(cfg, es, j - 1);
    }
  }

  /**
    Without a reset nothing is admitted in [openedAt, openedAt + openDurationMs), whatever
    operations in flight do meanwhile.
   */
  lemma NothingAdmittedWhileCooling(cfg: Config, es: seq<Event>, i: nat, j: nat)
    requires Nondecreasing(es) && i < j < |es| && OpensAt(cfg, es, i) && AdmittedAt(cfg, es, j)
    requires forall k | i < k < j :: !es[k].Reset?
    ensures es[j].at - es[i].at >= cfg.openDurationMs
  {
    CoolingDown(cfg, es, i, j);
    RunPrefix(cfg, es, j);
  }

  // ---------- one call after another, all failing ----------

  /** A call that begins at `begin`; if admitted it fails at `end`. */
  datatype Call = Call(begin: int, end: int)

  predicate InTurn(calls: seq<Call>) {
    && (forall i | 0 <= i < |calls| :: calls[i].begin <= calls[i].end)
    && (forall i, j | 0 <= i < j < |calls| :: calls[i].end <= calls[j].begin)
  }

  predicate Admits(cfg: Config, b: Breaker, call: Call) {
    CheckOpen(cfg, b, call.begin).state != Open
  }

  function AfterCall(cfg: Config, b: Breaker, call: Call): (r: Breaker) {
    var checked := CheckOpen(cfg, b, call.begin);
    if checked.state == Open then checked else OnFailure(cfg, checked, call.end)
  }

  function AfterCalls(cfg: Config, b: Breaker, calls: seq<Call>): (r: Breaker) {
    if calls == [] then b else AfterCall(cfg, AfterCalls(cfg, b, calls[..|calls| - 1]), calls[|calls| - 1])
  }

  /** Once opened, a breaker whose calls all fail stays open from its last admitted call's end on. */
  lemma {:induction false} StaysOpenSince(cfg: Config, b: Breaker, calls: seq<Call>, a: nat, n: nat)
    requires b.state == Open && InTurn(calls) && a < n <= |calls|
    requires Admits(cfg, AfterCalls(cfg, b, calls[..a]), calls[a])
    ensures var c := AfterCalls(cfg, b, calls[..n]);
            c.state == Open && c.openedAt >= calls[a].end
    decreases n
  {
    assert calls[..n][..n - 1] == calls[..n - 1];
    OpenBetweenCalls(cfg, b, calls[..n - 1]);
    if a + 1 < n { StaysOpenSince(cfg, b, calls, a, n - 1); }
  }

  lemma {:induction false} OpenBetweenCalls(cfg: Config, b: Breaker, calls: seq<Call>)
    requires b.state == Open
    ensures AfterCalls(cfg, b, calls).state == Open
    decreases |calls|
  {
    if calls != [] { OpenBetweenCalls(cfg, b, calls[..|calls| - 1]); }
  }

  /**
    When calls come one after another and every admitted one fails, then after the first opening
    admitted calls start at least `openDurationMs` apart.
   */
  lemma FailingProbesSpacedOut(cfg: Config, breaker: Breaker, calls: seq<Call>, a: nat, b: nat)
    requires breaker.state == Open && InTurn(calls) && a < b < |calls|
    requires Admits(cfg, AfterCalls(cfg, breaker, calls[..a]), calls[a])
    requires Admits(cfg, AfterCalls(cfg, breaker, calls[..b]), calls[b])
    ensures calls[b].begin - calls[a].begin >= cfg.openDurationMs
  {
    StaysOpenSince(cfg, breaker, calls, a, b);
  }

  // ---------- half-open ----------

  /** After event `i` and before event `j` no operation has settled well or in a counted failure. */
  predicate Unsettled(es: seq<Event>, i: int, j: int) {
    forall k | i < k < j && 0 <= k < |es| :: es[k].Begin? || es[k].CallerError? || es[k].Peek?
  }

  /** `es[i]` makes the open breaker half-open. */
  predicate HalfOpensAt(cfg: Config, es: seq<Event>, i: nat)
    requires i < |es|
  {
    Run(cfg, es[..i]).state == Open && Run(cfg, es[..i + 1]).state == HalfOpen
  }

  /**
    Half-open is no single trial, as the class comment has it: until an operation settles, every
    one that begins is admitted, at whatever time.
   */
  lemma {:induction false} HalfOpenAdmitsAll(cfg: Config, es: seq<Event>, i: nat, j: nat)
    requires i <= j <= |es| && Run(cfg, es[..i]).state == HalfOpen && Unsettled(es, i - 1, j)
    ensures Run(cfg, es[..j]).state == HalfOpen
    ensures forall k | i <= k < j && es[k].Begin? :: AdmittedAt(cfg, es, k)
    decreases j
  {
    if i < j {
      HalfOpenAdmitsAll(cfg, es, i, j - 1);
      RunPrefix(cfg, es, j - 1);
    }
  }

  /** A half-open breaker was made so by an admission check or a look at the state; nothing has settled since. */
  lemma {:induction false} HalfOpenSince(cfg: Config, es: seq<Event>, j: nat) returns (i: nat)
    requires j <= |es| && Run(cfg, es[..j]).state == HalfOpen
    ensures i < j && HalfOpensAt(cfg, es, i) && (es[i].Begin? || es[i].Peek?) && Unsettled(es, i, j)
    decreases j
  {
    RunPrefix(cfg, es, j - 1);
    if Run(cfg, es[..j - 1]).state == HalfOpen {
      i := HalfOpenSince(cfg, es, j - 1);
    } else {
      i := j - 1;
    }
  }

  /** At most one operation is ever admitted between turning half-open and the first to settle. */
  ghost predicate SingleTrials(cfg: Config, es: seq<Event>) {
    forall i, a, b | 0 <= i < |es| && HalfOpensAt(cfg, es, i) && i <= a < b < |es| && Unsettled(es, i, b) ::
      !(AdmittedAt(cfg, es, a) && AdmittedAt(cfg, es, b))
  }

  /** No operation has begun since the breaker turned half-open, up to event `k`. */
  ghost predicate Untried(cfg: Config, es: seq<Event>, k: nat)
    requires k <= |es|
  {
    forall i, a | 0 <= i <= a < k && HalfOpensAt(cfg, es, i) && Unsettled(es, i, k) :: !es[a].Begin?
  }

  /**
    The one trial request that the class comment promises is kept iff nothing begins while half-open
    after another operation has begun since it turned half-open. Looking at the state may turn it.
   */
  lemma {:induction false} SingleTrialIff(cfg: Config, es: seq<Event>)
    ensures SingleTrials(cfg, es)
       <==> forall k | 0 <= k < |es| && es[k].Begin? && Run(cfg, es[..k]).state == HalfOpen :: Untried(cfg, es, k)
  {
    forall k, i, a | 0 <= i <= a < k < |es| && es[k].Begin? && Run(cfg, es[..k]).state == HalfOpen
        && HalfOpensAt(cfg, es, i) && Unsettled(es, i, k) && es[a].Begin?
      ensures !SingleTrials(cfg, es)
    {
      HalfOpenAdmitsAll(cfg, es, i + 1, k);
      RunPrefix(cfg, es, k);
      assert AdmittedAt(cfg, es, a) && AdmittedAt(cfg, es, k);
    }
    forall i, a, b | 0 <= i < |es| && HalfOpensAt(cfg, es, i) && i <= a < b < |es| && Unsettled(es, i, b)
        && AdmittedAt(cfg, es, a) && AdmittedAt(cfg, es, b)
      ensures es[b].Begin? && Run(cfg, es[..b]).state == HalfOpen && !Untried(cfg, es, b)
    {
      HalfOpenAdmitsAll(cfg, es, i + 1, b);
    }
  }

  lemma RunOneMore(cfg: Config, es: seq<Event>, e: Event)
    ensures Run(cfg, es + [e]) == Next(cfg, Run(cfg, es), e)
  {
    assert (es + [e])[..|es + [e]| - 1] == es;
  }

  /**
    The first operation to settle decides, be it a trial or one admitted before the opening: success
    closes and forgets all failures, failure opens for another full cool-down, and an error of the
    caller's own decides nothing.
   */
  lemma FirstToSettleDecides(cfg: Config, es: seq<Event>, op: nat, now: int)
    requires Run(cfg, es).state == HalfOpen
    ensures Run(cfg, es + [Success(op, now)]).state == Closed && Run(cfg, es + [Success(op, now)]).failures == []
    ensures Offline(cfg, es + [Success(op, now)]).recorded == []
    ensures OpensAt(cfg, es + [Failure(op, now)], |es|)
    ensures Run(cfg, es + [CallerError(op, now)]) == Run(cfg, es)
  {
    RunOneMore(cfg, es, Success(op, now));
    RunOneMore(cfg, es, Failure(op, now));
    RunOneMore(cfg, es, CallerError(op, now));
    var failed := es + [Failure(op, now)];
    assert failed[..|es| + 1] == failed;
  }

  /** A call of a sequence of failing ones is what the breaker sees of it. */
  lemma AfterCallIsRun(cfg: Config, es: seq<Event>, call: Call, op: nat)
    ensures var begun := es + [Begin(op, call.begin)];
            && (Admits(cfg, Run(cfg, es), call) <==> AdmittedAt(cfg, begun, |es|))
            && AfterCall(cfg, Run(cfg, es), call)
            == Run(cfg, if AdmittedAt(cfg, begun, |es|) then begun + [Failure(op, call.end)] else begun)
  {
    var begun := es + [Begin(op, call.begin)];
    assert begun[..|es| + 1] == begun;
    RunOneMore(cfg, es, Begin(op, call.begin));
    RunOneMore(cfg, begun, Failure(op, call.end));
  }

  // ---------- who decides ----------

  predicate Settles(e: Event) {
    e.Success? || e.Failure? || e.CallerError?
  }

  function Begun(es: seq<Event>): (ops: set<nat>) {
    set k | 0 <= k < |es| && es[k].Begin? :: es[k].op
  }

  /** Operations admitted and not settled yet. */
  function InFlight(cfg: Config, es: seq<Event>): (ops: set<nat>) {
    if es == [] then {}
    else
      var before, e := InFlight(cfg, es[..|es| - 1]), es[|es| - 1];
      if Settles(e) then before - {e.op}
      else if e.Begin? && Run(cfg, es).state != Open then before + {e.op}
      else before
  }

  /** Operations begin once, and only those in flight settle. */
  predicate WellFormed(cfg: Config, es: seq<Event>) {
    es == []
    || var before, e := es[..|es| - 1], es[|es| - 1];
       && WellFormed(cfg, before)
       && (e.Begin? ==> e.op !in Begun(before))
       && (Settles(e) ==> e.op in InFlight(cfg, before))
  }

  /** `es[j]` ends the half-open time that began with `es[i]`. */
  predicate Decides(cfg: Config, es: seq<Event>, i: nat, j: nat)
    requires i < j < |es|
  {
    HalfOpensAt(cfg, es, i) && Unsettled(es, i, j) && (es[j].Success? || es[j].Failure?)
  }

  /** The operation that settles at `es[j]` is a trial: it began at `es[i]` or later. */
  predicate ByTrial(es: seq<Event>, i: nat, j: nat)
    requires i < j < |es| && Settles(es[j])
  {
    exists b :: i <= b < j && es[b].Begin? && es[b].op == es[j].op
  }

  lemma {:induction false} FormedPrefix(cfg: Config, es: seq<Event>, n: nat)
    requires WellFormed(cfg, es) && n <= |es|
    ensures WellFormed(cfg, es[..n])
    decreases |es|
  {
    if n == |es| {
      assert es[..n] == es;
    } else {
      FormedPrefix(cfg, es[..|es| - 1], n);
      assert es[..|es| - 1][..n] == es[..n];
    }
  }

  lemma {:induction false} InFlightBegun(cfg: Config, es: seq<Event>)
    ensures InFlight(cfg, es) <= Begun(es)
    decreases |es|
  {
    if es != [] {
      InFlightBegun(cfg, es[..|es| - 1]);
      assert forall op | op in Begun(es[..|es| - 1]) :: op in Begun(es);
      assert es[|es| - 1].Begin? ==> es[|es| - 1].op in Begun(es);
    }
  }

  /** What is in flight at `j` was so at `i` already, or has begun in between. */
  lemma {:induction false} InFlightSince(cfg: Config, es: seq<Event>, i: nat, j: nat, op: nat)
    requires i <= j <= |es| && op in InFlight(cfg, es[..j])
    ensures op in InFlight(cfg, es[..i]) || exists b :: i <= b < j && es[b].Begin? && es[b].op == op
    decreases j
  {
    if i < j {
      assert es[..j][..j - 1] == es[..j - 1];
      if op in InFlight(cfg, es[..j - 1]) {
        InFlightSince(cfg, es, i, j - 1, op);
      } else {
        assert es[j - 1].Begin? && es[j - 1].op == op;
      }
    }
  }

  /** The operation that decides a half-open time is a trial iff it was not in flight when that time began. */
  lemma DecidedByTrialIff(cfg: Config, es: seq<Event>, i: nat, j: nat)
    requires WellFormed(cfg, es) && i < j < |es| && Decides(cfg, es, i, j)
    ensures ByTrial(es, i, j) <==> es[j].op !in InFlight(cfg, es[..i])
  {
    var op := es[j].op;
    FormedPrefix(cfg, es, j + 1);
    assert es[..j + 1][..j] == es[..j];
    InFlightSince(cfg, es, i, j, op);
    if b :| i <= b < j && es[b].Begin? && es[b].op == op {
      FormedPrefix(cfg, es, b + 1);
      assert es[..b + 1][..b] == es[..b];
      InFlightBegun(cfg, es[..i]);
      assert forall o | o in Begun(es[..i]) :: o in Begun(es[..b]);
    }
  }

  /**
    When `es` has just made the breaker half-open: whatever happens next, a trial decides, iff no
    operation admitted before the opening was still in flight.
   */
  lemma {:induction false} OnlyTrialsDecideIff(cfg: Config, es: seq<Event>, i: nat)
    requires |es| == i + 1 && WellFormed(cfg, es) && HalfOpensAt(cfg, es, i)
    ensures (forall all: seq<Event>, j: nat |
               es <= all && i < j < |all| && WellFormed(cfg, all) && Decides(cfg, all, i, j) :: ByTrial(all, i, j))
       <==> InFlight(cfg, es[..i]) == {}
  {
    forall all: seq<Event>, j: nat | es <= all && i < j < |all| && WellFormed(cfg, all) && Decides(cfg, all, i, j)
      ensures ByTrial(all, i, j) <==> all[j].op !in InFlight(cfg, es[..i])
    {
      DecidedByTrialIff(cfg, all, i, j);
      assert all[..i] == es[..i];
    }
    if op :| op in InFlight(cfg, es[..i]) {
      LateSuccessDecides(cfg, es, i, op);
    }
  }

  /** An operation in flight since before the opening may come back first and close the breaker, no trial made. */
  lemma LateSuccessDecides(cfg: Config, es: seq<Event>, i: nat, op: nat)
    requires |es| == i + 1 && WellFormed(cfg, es) && HalfOpensAt(cfg, es, i) && op in InFlight(cfg, es[..i])
    ensures var all := es + [Success(op, es[i].at)];
            && WellFormed(cfg, all) && Decides(cfg, all, i, i + 1) && !ByTrial(all, i, i + 1)
            && Run(cfg, all).state == Closed
  {
    var late := Success(op, es[i].at);
    var all := es + [late];
    assert all[..|all| - 1] == es == es[..i + 1] && all[..i] == es[..i] && all[..i + 1] == es;
    RunPrefix(cfg, es, i);
    InFlightBegun(cfg, es[..i]);
    RunOneMore(cfg, es, late);
  }

  lemma FormedOneMore(cfg: Config, es: seq<Event>, e: Event)
    ensures Run(cfg, es + [e]) == Next(cfg, Run(cfg, es), e)
    ensures InFlight(cfg, es + [e])
         == if Settles(e) then InFlight(cfg, es) - {e.op}
            else if e.Begin? && Run(cfg, es + [e]).state != Open then InFlight(cfg, es) + {e.op}
            else InFlight(cfg, es)
    ensures WellFormed(cfg, es + [e])
       <==> && WellFormed(cfg, es)
            && (e.Begin? ==> e.op !in Begun(es))
            && (Settles(e) ==> e.op in InFlight(cfg, es))
  {
    assert (es + [e])[..|es + [e]| - 1] == es;
  }

  /** Such a run: of two calls the first fails and opens the breaker, and the second comes back after the cool-down. */
  lemma Straggler(cfg: Config) returns (es: seq<Event>)
    requires cfg.failureThreshold <= 1 && cfg.openDurationMs >= 0
    ensures Nondecreasing(es) && |es| == 4 && WellFormed(cfg, es) && HalfOpensAt(cfg, es, 3)
    ensures InFlight(cfg, es[..3]) == {1}
  {
    var two := [Begin(0, 0), Begin(1, 0)];
    es := two + [Failure(0, 0)] + [Peek(cfg.openDurationMs)];
    FormedOneMore(cfg, [], Begin(0, 0));
    FormedOneMore(cfg, [Begin(0, 0)], Begin(1, 0));
    assert [] + [Begin(0, 0)] == [Begin(0, 0)] && [Begin(0, 0)] + [Begin(1, 0)] == two;
    FormedOneMore(cfg, two, Failure(0, 0));
    FormedOneMore(cfg, two + [Failure(0, 0)], Peek(cfg.openDurationMs));
    assert es[..3] == two + [Failure(0, 0)] && es[..4] == es;
  }

  // ---------- the object ----------

  class CircuitBreaker {
    const config: Config
    var state: State
    var failureTimestamps: seq<int>
    var openedAt: int

    function View(): (r: Breaker)
      reads this
    {
      Breaker(state, failureTimestamps, openedAt)
    }

    constructor (config: Config)
      ensures View() == INITIAL && this.config == config
    {
      this.config := config;
      state := Closed;
      failureTimestamps := [];
      openedAt := 0;
    }

    method MaybeTransitionFromOpen(now: int)
      modifies this
      ensures View() == CheckOpen(config, old(View()), now)
    {
      if state == Open && now - openedAt >= config.openDurationMs {
        state := HalfOpen;
      }
    }

    /** Asking for the state is no mere look: it may turn an open breaker half-open. */
    method GetState(now: int) returns (s: State)
      modifies this
      ensures View() == Next(config, old(View()), Peek(now))
      ensures s == View().state
      ensures s == Open <==> old(View()).state == Open && now - old(View()).openedAt < config.openDurationMs
    {
      MaybeTransitionFromOpen(now);
      s := state;
    }

    /** The admission check `execute` starts with. */
    method Admit(ghost op: nat, now: int) returns (admitted: bool)
      modifies this
      ensures View() == Next(config, old(View()), Begin(op, now))
      ensures admitted <==> View().state != Open
    {
      MaybeTransitionFromOpen(now);
      admitted := state != Open;
    }

    method OnSuccess(ghost op: nat, ghost now: int)
      modifies this
      ensures View() == Next(config, old(View()), Success(op, now))
    {
      if state == HalfOpen {
        state := Closed;
      }
      failureTimestamps := [];
    }

    method OnFailure(ghost op: nat, now: int)
      modifies this
      ensures View() == Next(config, old(View()), Failure(op, now))
    {
      if state == HalfOpen {
        state, openedAt := Open, now;
        return;
      }
      var cutoff := now - config.rollingWindowMs;
      while |failureTimestamps| > 0 && failureTimestamps[0] < cutoff
        invariant DropStale(failureTimestamps, cutoff) == DropStale(old(failureTimestamps), cutoff)
        invariant state == old(state) && openedAt == old(openedAt)
        decreases |failureTimestamps|
      {
        failureTimestamps := failureTimestamps[1..];
      }
      failureTimestamps := failureTimestamps + [now];
      if |failureTimestamps| >= config.failureThreshold {
        state, openedAt, failureTimestamps := Open, now, [];
      }
    }

    method Reset(ghost now: int)
      modifies this
      ensures View() == Next(config, old(View()), Event.Reset(now)) == INITIAL
    {
      state, failureTimestamps, openedAt := Closed, [], 0;
    }
  }
}
