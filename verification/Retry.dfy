/** Outcomes of upstream calls and the error taxonomy that decides what is retried. */
module Errors {
  datatype ErrorCode =
    | VALIDATION_ERROR | AUTH_FAILED | FORBIDDEN | NOT_FOUND | TOO_EARLY | RATE_LIMITED
    | SERVER_ERROR | NETWORK_ERROR | DEADLINE_EXCEEDED | CIRCUIT_OPEN | UNKNOWN

  /** `Thrown` is an exception that is no CommerceHubError. */
  datatype Reply<+T> = Done(value: T) | Failed(code: ErrorCode, retryable: bool) | Thrown

  function FromHttpStatus<T>(status: int): (r: Reply<T>) {
    if status == 400 then Failed(VALIDATION_ERROR, false)
    else if status == 401 then Failed(AUTH_FAILED, false)
    else if status == 403 then Failed(FORBIDDEN, false)
    else if status == 404 then Failed(NOT_FOUND, false)
    else if status == 425 then Failed(TOO_EARLY, true)
    else if status == 429 then Failed(RATE_LIMITED, true)
    else if 500 <= status < 600 then Failed(SERVER_ERROR, true)
    else Failed(UNKNOWN, false)
  }

  predicate Retryable<T>(r: Reply<T>) {
    r.Failed? && r.retryable
  }
}

/** Deadline-aware retry with exponential backoff and full jitter. */
module Retry {
  import opened Options
  import opened Errors

  datatype Policy = Policy(maxAttempts: int, baseDelayMs: int, maxDelayMs: int, deadline: Option<int>)

  /**
    The world a run meets: the reply to attempt `a`, the clock just before attempt `a` (`before`)
    and just after it failed (`after`), and the random number drawn for its backoff.
   */
  datatype World<!T> = World(reply: nat -> Reply<T>, before: nat -> int, after: nat -> int, jitter: nat -> real)

  /** One attempt; `sleep` is the backoff planned after it, if the run went on. */
  datatype Attempt<+T> = Attempt(number: nat, at: int, reply: Reply<T>, sleep: Option<int>)

  /** How a run ends: the last attempt's reply, a refusal to overrun the deadline, or no attempt at all. */
  datatype Outcome<+T> = Settled(reply: Reply<T>) | DeadlineExceeded | Exhausted

  function Pow2(n: nat): (r: nat) {
    if n == 0 then 1 else 2 * Pow2(n - 1)
  }

  function BackoffCap(a: nat, p: Policy): (r: int) {
    var exp := p.baseDelayMs * Pow2(a);
    if p.maxDelayMs < exp then p.maxDelayMs else exp
  }

  function ComputeBackoff(a: nat, p: Policy, jitter: real): (r: int) {
    (jitter * BackoffCap(a, p) as real).Floor
  }

  predicate Past(p: Policy, now: int) {
    p.deadline.Some? && now >= p.deadline.value
  }

  /** The attempts from number `a` on. */
  function Attempts<T>(p: Policy, w: World<T>, a: nat): (run: (seq<Attempt<T>>, Outcome<T>))
    decreases p.maxAttempts - a
  {
    if a >= p.maxAttempts then ([], Exhausted)
    else if Past(p, w.before(a)) then ([], DeadlineExceeded)
    else
      var r := w.reply(a);
      var stopped := [Attempt(a, w.before(a), r, None)];
      if !Retryable(r) || a == p.maxAttempts - 1 then (stopped, Settled(r))
      else
        var delay := ComputeBackoff(a, p, w.jitter(a));
        if Past(p, w.after(a) + delay) then (stopped, DeadlineExceeded)
        else
          var rest := Attempts(p, w, a + 1);
          ([Attempt(a, w.before(a), r, Some(delay))] + rest.0, rest.1)
  }

  /** The loop of `withRetry`, keeping a record of what it does. */
  method WithRetry<T>(p: Policy, w: World<T>) returns (trace: seq<Attempt<T>>, outcome: Outcome<T>)
    ensures (trace, outcome) == Attempts(p, w, 0)
  {
    trace := [];
    var attempt := 0;
    while attempt < p.maxAttempts
      invariant 0 <= attempt
      invariant Attempts(p, w, 0).0 == trace + Attempts(p, w, attempt).0
      invariant Attempts(p, w, 0).1 == Attempts(p, w, attempt).1
    {
      if p.deadline.Some? && w.before(attempt) >= p.deadline.value {
        assert trace + [] == trace;
        return trace, DeadlineExceeded;
      }
      var r := w.reply(attempt);
      var done := Attempt(attempt, w.before(attempt), r, None);
      if !Retryable(r) || attempt == p.maxAttempts - 1 {
        return trace + [done], Settled(r);
      }
      var delay := ComputeBackoff(attempt, p, w.jitter(attempt));
      if p.deadline.Some? && w.after(attempt) + delay >= p.deadline.value {
        return trace + [done], DeadlineExceeded;
      }
      assert trace + Attempts(p, w, attempt).0
          == trace + [done.(sleep := Some(delay))] + Attempts(p, w, attempt + 1).0;
      trace := trace + [done.(sleep := Some(delay))];
      attempt := attempt + 1;
    }
    assert trace + [] == trace;
    outcome := Exhausted;
  }

  // ---------- the shape of every run ----------

  /** The deadline, if there is one, is still ahead. */
  predicate Early(p: Policy, time: int) {
    p.deadline.Some? ==> time < p.deadline.value
  }

  /** Numbered from `a` without gaps; a run goes on, or plans to, only after retryable failures. */
  ghost predicate WellNumbered<T>(trace: seq<Attempt<T>>, a: nat) {
    && (forall i | 0 <= i < |trace| :: trace[i].number == a + i)
    && (forall i | 0 <= i < |trace| :: trace[i].sleep.Some? ==> trace[i].reply.Failed? && trace[i].reply.retryable)
    && (forall i | 0 <= i < |trace| - 1 :: trace[i].sleep.Some?)
  }

  /** Attempts start, and the sleeps drawn for them end, before the deadline. */
  ghost predicate WithinDeadline<T>(p: Policy, w: World<T>, trace: seq<Attempt<T>>, a: nat) {
    forall i | 0 <= i < |trace| ::
      && trace[i].at == w.before(a + i) && trace[i].reply == w.reply(a + i) && Early(p, trace[i].at)
      && (trace[i].sleep.Some? ==>
            && trace[i].sleep.value == ComputeBackoff(a + i, p, w.jitter(a + i))
            && Early(p, w.after(a + i) + trace[i].sleep.value))
  }

  /** The outcome is the last attempt's, unless the deadline forbade the next attempt or its backoff. */
  ghost predicate EndsRight<T>(p: Policy, w: World<T>, trace: seq<Attempt<T>>, outcome: Outcome<T>, a: nat) {
    var next := a + |trace|;
    match outcome
    case Settled(r) =>
      && trace != [] && r == trace[|trace| - 1].reply && trace[|trace| - 1].sleep.None?
      && (r.Failed? && r.retryable ==> next == p.maxAttempts)
    case DeadlineExceeded =>
      || (next < p.maxAttempts && !Early(p, w.before(next)) && (trace != [] ==> trace[|trace| - 1].sleep.Some?))
      || (trace != [] && trace[|trace| - 1].reply.Failed? && trace[|trace| - 1].reply.retryable
          && !Early(p, w.after(next - 1) + ComputeBackoff(next - 1, p, w.jitter(next - 1))))
    case Exhausted => trace == [] && p.maxAttempts <= a
  }

  lemma {:induction false} RunFrom<T>(p: Policy, w: World<T>, a: nat)
    ensures var (trace, outcome) := Attempts(p, w, a);
            && |trace| <= (if p.maxAttempts < a then 0 else p.maxAttempts - a)
            && WellNumbered(trace, a)
            && WithinDeadline(p, w, trace, a)
            && EndsRight(p, w, trace, outcome, a)
    decreases p.maxAttempts - a
  {
    hide ComputeBackoff;
    if a < p.maxAttempts { RunFrom(p, w, a + 1); }
  }

  /** Every run of `withRetry`, whatever the replies, the clock and the random numbers. */
  lemma RetryTrace<T>(p: Policy, w: World<T>)
    ensures var (trace, outcome) := Attempts(p, w, 0);
            && |trace| <= (if p.maxAttempts < 0 then 0 else p.maxAttempts)
            && WellNumbered(trace, 0)
            && WithinDeadline(p, w, trace, 0)
            && EndsRight(p, w, trace, outcome, 0)
            && (outcome.Exhausted? <==> p.maxAttempts <= 0)
  {
    RunFrom(p, w, 0);
  }

  // ---------- which runs the deadline cuts short ----------

  /** Attempt `a` may be made and fails retryably, and another one is permitted. */
  predicate FailsAt<T>(p: Policy, w: World<T>, a: nat) {
    a < p.maxAttempts - 1 && Early(p, w.before(a)) && w.reply(a).Failed? && w.reply(a).retryable
  }

  /** The backoff after attempt `a` ends before the deadline. */
  predicate Fits<T>(p: Policy, w: World<T>, a: nat) {
    Early(p, w.after(a) + ComputeBackoff(a, p, w.jitter(a)))
  }

  /**
    The attempts from number `from` to number `n` all fail, each backoff before `n` fits, and then
    there is no room for the next backoff, or the clock is past the deadline after it.
   */
  predicate CutShort<T>(p: Policy, w: World<T>, from: nat, n: nat) {
    && from <= n
    && (forall a | from <= a <= n :: FailsAt(p, w, a))
    && (forall a | from <= a < n :: Fits(p, w, a))
    && (!Fits(p, w, n) || !Early(p, w.before(n + 1)))
  }

  lemma {:induction false} CutShortEnds<T>(p: Policy, w: World<T>, from: nat, n: nat)
    requires CutShort(p, w, from, n)
    ensures Attempts(p, w, from).1 == DeadlineExceeded && |Attempts(p, w, from).0| == n - from + 1
    decreases n - from
  {
    hide ComputeBackoff;
    assert FailsAt(p, w, from);
    if from < n {
      assert Fits(p, w, from);
      CutShortEnds(p, w, from + 1, n);
    }
  }

  lemma {:induction false} DeadlineCuts<T>(p: Policy, w: World<T>, from: nat) returns (n: nat)
    requires Attempts(p, w, from).1 == DeadlineExceeded && Attempts(p, w, from).0 != []
    ensures CutShort(p, w, from, n)
    decreases p.maxAttempts - from
  {
    hide ComputeBackoff;
    assert FailsAt(p, w, from);
    if Fits(p, w, from) && Attempts(p, w, from + 1).0 != [] {
      n := DeadlineCuts(p, w, from + 1);
    } else {
      n := from;
    }
  }

  // ---------- which runs settle ----------

  /** Attempts `from` to `k` are permitted and in time, and all but the last fail with room for their backoff. */
  predicate Reaches<T>(p: Policy, w: World<T>, from: nat, k: nat) {
    && from <= k < p.maxAttempts
    && (forall a | from <= a <= k :: Early(p, w.before(a)))
    && (forall a | from <= a < k :: w.reply(a).Failed? && w.reply(a).retryable && Fits(p, w, a))
  }

  /** Attempt `k` is made and is the last: its reply is no retryable failure, or no more are permitted. */
  predicate Concludes<T>(p: Policy, w: World<T>, from: nat, k: nat) {
    Reaches(p, w, from, k) && (!(w.reply(k).Failed? && w.reply(k).retryable) || k == p.maxAttempts - 1)
  }

  lemma {:induction false} ConcludingSettles<T>(p: Policy, w: World<T>, from: nat, k: nat)
    requires Concludes(p, w, from, k)
    ensures Attempts(p, w, from).1 == Settled(w.reply(k)) && |Attempts(p, w, from).0| == k - from + 1
    decreases k - from
  {
    hide ComputeBackoff;
    assert Early(p, w.before(from));
    if from < k {
      assert Retryable(w.reply(from)) && Fits(p, w, from);
      ConcludingSettles(p, w, from + 1, k);
    }
  }

  lemma {:induction false} SettlingConcludes<T>(p: Policy, w: World<T>, from: nat) returns (k: nat)
    requires Attempts(p, w, from).1.Settled?
    ensures Concludes(p, w, from, k) && Attempts(p, w, from).1.reply == w.reply(k)
    decreases p.maxAttempts - from
  {
    hide ComputeBackoff;
    assert Early(p, w.before(from));
    if Retryable(w.reply(from)) && from < p.maxAttempts - 1 {
      k := SettlingConcludes(p, w, from + 1);
      assert Fits(p, w, from);
    } else {
      k := from;
    }
  }

  // ---------- total backoff ----------

  function TotalSleep<T>(trace: seq<Attempt<T>>): (r: int) {
    if trace == [] then 0
    else (if trace[0].sleep.Some? then trace[0].sleep.value else 0) + TotalSleep(trace[1..])
  }

  function Sleeps<T>(trace: seq<Attempt<T>>): (r: nat) {
    if trace == [] then 0 else (if trace[0].sleep.Some? then 1 else 0) + Sleeps(trace[1..])
  }

  lemma BackoffBounds(a: nat, p: Policy, jitter: real)
    requires 0.0 <= jitter < 1.0 && p.baseDelayMs >= 0 && p.maxDelayMs >= 0
    ensures 0 <= ComputeBackoff(a, p, jitter) <= p.maxDelayMs
    ensures ComputeBackoff(a, p, jitter) <= p.baseDelayMs * Pow2(a)
  {
    ScaledFloor(jitter, BackoffCap(a, p));
  }

  /** A backoff is the random share of base * 2^attempt or `maxDelay`, whichever is less, rounded down. */
  lemma BackoffExact(a: nat, p: Policy, jitter: real)
    ensures var exp := p.baseDelayMs * Pow2(a);
            var share := jitter * (if exp <= p.maxDelayMs then exp else p.maxDelayMs) as real;
            var d := ComputeBackoff(a, p, jitter);
            d as real <= share < (d + 1) as real
  {}

  /** Full jitter: every whole number below that bound can be drawn. */
  lemma FullJitter(a: nat, p: Policy, d: nat) returns (jitter: real)
    requires d < p.baseDelayMs * Pow2(a) && d < p.maxDelayMs
    ensures 0.0 <= jitter < 1.0 && ComputeBackoff(a, p, jitter) == d
  {
    hide Pow2;
    jitter := Share(d as real, BackoffCap(a, p) as real);
  }

  lemma Share(part: real, whole: real) returns (q: real)
    requires 0.0 <= part < whole
    ensures 0.0 <= q < 1.0 && q * whole == part
  {
    q := part / whole;
    if q < 0.0 { Product(-q, whole); } else if q >= 1.0 { Product(q - 1.0, whole); }
  }

  lemma Product(x: real, y: real)
    requires 0.0 <= x && 0.0 < y
    ensures 0.0 <= x * y && (x > 0.0 ==> 0.0 < x * y)
  {}

  lemma Pow2Doubles(n: nat)
    ensures Pow2(0) == 1 && Pow2(n + 1) == 2 * Pow2(n)
  {}

  lemma ScaledFloor(x: real, cap: int)
    requires 0.0 <= x <= 1.0 && 0 <= cap
    ensures 0 <= (x * cap as real).Floor <= cap
  {
    ScaledDown(x, cap as real);
  }

  lemma ScaledDown(x: real, cap: real)
    requires 0.0 <= x <= 1.0 && 0.0 <= cap
    ensures 0.0 <= x * cap <= cap
  {
    var y := 1.0 - x;
    assert y * cap >= 0.0;
    assert cap == x * cap + y * cap;
  }

  /** `k` backoffs from attempt `a` on sum to at most base * (2^(a+k) - 2^a) and k * maxDelay. */
  lemma {:induction false} SleepsFrom<T>(p: Policy, w: World<T>, a: nat)
    requires p.baseDelayMs >= 0 && p.maxDelayMs >= 0 && forall i :: 0.0 <= w.jitter(i) < 1.0
    ensures var trace := Attempts(p, w, a).0;
            var k := Sleeps(trace);
            && k <= |trace|
            && 0 <= TotalSleep(trace) <= k * p.maxDelayMs
            && TotalSleep(trace) <= p.baseDelayMs * (Pow2(a + k) - Pow2(a))
    decreases p.maxAttempts - a
  {
    var trace := Attempts(p, w, a).0;
    if trace == [] {
    } else if trace[0].sleep.None? {
      assert trace[1..] == [];
    } else {
      var rest := Attempts(p, w, a + 1).0;
      assert trace[1..] == rest;
      SleepsFrom(p, w, a + 1);
      BackoffBounds(a, p, w.jitter(a));
      AddOne(p.baseDelayMs, Pow2(a), Pow2(a + 1), Pow2(a + Sleeps(trace)), Sleeps(rest), p.maxDelayMs);
    }
  }

  lemma AddOne(base: int, low: int, mid: int, high: int, k: int, max: int)
    requires mid == 2 * low
    ensures base * low + base * (high - mid) == base * (high - low)
    ensures max + k * max == (k + 1) * max
  {
    assert base * (high - low) == base * high - base * low;
    assert base * (high - mid) == base * high - base * mid;
    assert base * mid == base * (low + low) == base * low + base * low;
  }

  /** Over n attempts the planned backoff is at most base * (2^(n-1) - 1) and (n-1) * maxDelay. */
  lemma TotalBackoff<T>(p: Policy, w: World<T>)
    requires p.baseDelayMs >= 0 && p.maxDelayMs >= 0 && forall i :: 0.0 <= w.jitter(i) < 1.0
    ensures var (trace, outcome) := Attempts(p, w, 0);
            var slept := Sleeps(trace);
            && slept <= |trace|
            && (!outcome.DeadlineExceeded? && trace != [] ==> slept == |trace| - 1)
            && TotalSleep(trace) <= p.baseDelayMs * (Pow2(slept) - 1)
            && TotalSleep(trace) <= slept * p.maxDelayMs
  {
    var (trace, outcome) := Attempts(p, w, 0);
    SleepsFrom(p, w, 0);
    RunFrom(p, w, 0);
    if trace != [] { SleepsOf(trace, 0); }
  }

  lemma {:induction false} SleepsOf<T>(trace: seq<Attempt<T>>, a: nat)
    requires trace != [] && WellNumbered(trace, a)
    ensures Sleeps(trace) == if trace[|trace| - 1].sleep.Some? then |trace| else |trace| - 1
    decreases |trace|
  {
    if |trace| > 1 {
      assert forall i | 0 <= i < |trace[1..]| :: trace[1..][i] == trace[i + 1];
      SleepsOf(trace[1..], a + 1);
    }
  }
}
