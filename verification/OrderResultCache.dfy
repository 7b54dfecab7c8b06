/** The first-writer-wins cache of order results that the competing completion paths share. */
module OrderResultCache {
  import opened Options

  datatype Source = Sync | Webhook | Polling | Capture | Void

  datatype Entry<+R> = Entry(result: R, source: Source, firstWriteAt: int)

  /** `put` reads the clock twice: for the check and for the time it writes. */
  datatype Op<+R> =
    | Put(key: string, result: R, source: Source, now: int, writeNow: int)
    | Get(key: string, now: int)    // `has` is a get
    | Clear(key: string, now: int)

  type Entries<R> = map<string, Entry<R>>

  function EndOf<R>(op: Op<R>): (r: int) {
    if op.Put? then op.writeNow else op.now
  }

  // ---------- what the code does ----------

  function AfterPut<R>(c: Entries<R>, op: Op<R>, ttlMs: int): (r: Entries<R>)
    requires op.Put?
  {
    if op.key in c && op.now - c[op.key].firstWriteAt < ttlMs then c
    else c[op.key := Entry(op.result, op.source, op.writeNow)]
  }

  predicate Accepts<R>(c: Entries<R>, key: string, now: int, ttlMs: int) {
    !(key in c && now - c[key].firstWriteAt < ttlMs)
  }

  function Lookup<R>(c: Entries<R>, key: string, now: int, ttlMs: int): (r: Option<Entry<R>>) {
    if key !in c || now - c[key].firstWriteAt >= ttlMs then None else Some(c[key])
  }

  function AfterGet<R>(c: Entries<R>, key: string, now: int, ttlMs: int): (r: Entries<R>) {
    if key in c && now - c[key].firstWriteAt >= ttlMs then c - {key} else c
  }

  function Next<R>(c: Entries<R>, op: Op<R>, ttlMs: int): (r: Entries<R>) {
    match op
    case Put(_, _, _, _, _) => AfterPut(c, op, ttlMs)
    case Get(key, now) => AfterGet(c, key, now, ttlMs)
    case Clear(key, _) => c - {key}
  }

  function Run<R>(ops: seq<Op<R>>, ttlMs: int): (r: Entries<R>) {
    if ops == [] then map[] else Next(Run(ops[..|ops| - 1], ttlMs), ops[|ops| - 1], ttlMs)
  }

  /** The clock does not go back between operations nor inside a put. */
  predicate Nondecreasing<R>(ops: seq<Op<R>>) {
    && (forall i, j | 0 <= i < j < |ops| :: EndOf(ops[i]) <= ops[j].now)
    && (forall i | 0 <= i < |ops| :: ops[i].now <= EndOf(ops[i]))
  }

  // ---------- the specification: the first write since the last clear or expiry ----------

  predicate Alive<R>(e: Option<Entry<R>>, now: int, ttlMs: int) {
    e.Some? && now < e.value.firstWriteAt + ttlMs
  }

  /** Which write is canonical; reading never changes it. */
  function Canonical<R>(ops: seq<Op<R>>, key: string, ttlMs: int): (r: Option<Entry<R>>) {
    if ops == [] then None
    else
      var before, op := ops[..|ops| - 1], ops[|ops| - 1];
      var holder := Canonical(before, key, ttlMs);
      if op.key != key || op.Get? then holder
      else if op.Clear? then None
      else if Alive(holder, op.now, ttlMs) then holder
      else Some(Entry(op.result, op.source, op.writeNow))
  }

  /** The code's map holds the canonical write, except that an expired one may have been dropped. */
  lemma {:induction false} HoldsCanonical<R>(ops: seq<Op<R>>, key: string, ttlMs: int)
    requires Nondecreasing(ops)
    ensures var c, holder := Run(ops, ttlMs), Canonical(ops, key, ttlMs);
            if key in c then holder == Some(c[key])
            else holder.Some? ==> ops != [] && !Alive(holder, EndOf(ops[|ops| - 1]), ttlMs)
    decreases |ops|
  {
    if ops != [] {
      var before, op := ops[..|ops| - 1], ops[|ops| - 1];
      HoldsCanonical(before, key, ttlMs);
      assert before != [] ==> EndOf(before[|before| - 1]) <= op.now;
    }
  }

  /** After any run get returns the canonical write while it lives, and put is refused exactly then. */
  lemma Refinement<R>(ops: seq<Op<R>>, key: string, now: int, ttlMs: int)
    requires Nondecreasing(ops) && (ops != [] ==> EndOf(ops[|ops| - 1]) <= now)
    ensures var holder := Canonical(ops, key, ttlMs);
            && Lookup(Run(ops, ttlMs), key, now, ttlMs) == (if Alive(holder, now, ttlMs) then holder else None)
            && (Accepts(Run(ops, ttlMs), key, now, ttlMs) <==> !Alive(holder, now, ttlMs))
  {
    HoldsCanonical(ops, key, ttlMs);
  }

  /** The put at position `i` became canonical. */
  predicate AcceptedAt<R>(ops: seq<Op<R>>, i: nat, ttlMs: int)
    requires i < |ops|
  {
    ops[i].Put? && Accepts(Run(ops[..i], ttlMs), ops[i].key, ops[i].now, ttlMs)
  }

  lemma {:induction false} StaysCanonical<R>(ops: seq<Op<R>>, i: nat, n: nat, ttlMs: int)
    requires Nondecreasing(ops) && i < n <= |ops| && AcceptedAt(ops, i, ttlMs)
    requires forall k | i < k < n :: !(ops[k].Clear? && ops[k].key == ops[i].key)
    requires forall k | i < k < n :: ops[k].now < ops[i].writeNow + ttlMs
    ensures Canonical(ops[..n], ops[i].key, ttlMs) == Some(Entry(ops[i].result, ops[i].source, ops[i].writeNow))
    decreases n
  {
    assert ops[..n][..n - 1] == ops[..n - 1];
    if i + 1 < n {
      StaysCanonical(ops, i, n - 1, ttlMs);
    } else {
      Refinement(ops[..i], ops[i].key, ops[i].now, ttlMs);
    }
  }

  /**
    First writer wins: from an accepted put until its lifetime ends or the session is cleared,
    every get returns exactly that entry and every other put, from whatever source, is refused.
   */
  lemma FirstWriterWins<R>(ops: seq<Op<R>>, i: nat, j: nat, ttlMs: int)
    requires Nondecreasing(ops) && i < j < |ops| && AcceptedAt(ops, i, ttlMs)
    requires ops[j].key == ops[i].key && ops[j].now < ops[i].writeNow + ttlMs
    requires forall k | i < k < j :: !(ops[k].Clear? && ops[k].key == ops[i].key)
    ensures Lookup(Run(ops[..j], ttlMs), ops[j].key, ops[j].now, ttlMs)
         == Some(Entry(ops[i].result, ops[i].source, ops[i].writeNow))
    ensures !AcceptedAt(ops, j, ttlMs)
  {
    assert forall k | i < k < j :: ops[k].now <= EndOf(ops[k]) <= ops[j].now;
    StaysCanonical(ops, i, j, ttlMs);
    Refinement(ops[..j], ops[j].key, ops[j].now, ttlMs);
  }

  class OrderResultCache<R> {
    const ttlMs: int
    var entries: Entries<R>

    constructor (ttlMs: int)
      ensures entries == map[] && this.ttlMs == ttlMs
    {
      this.ttlMs := ttlMs;
      entries := map[];
    }

    method Put(key: string, result: R, source: Source, now: int, writeNow: int) returns (accepted: bool)
      modifies this
      ensures accepted == Accepts(old(entries), key, now, ttlMs)
      ensures entries == Next(old(entries), Op.Put(key, result, source, now, writeNow), ttlMs)
    {
      if key in entries && now - entries[key].firstWriteAt < ttlMs {
        return false;
      }
      entries := entries[key := Entry(result, source, writeNow)];
      accepted := true;
    }

    method Get(key: string, now: int) returns (entry: Option<Entry<R>>)
      modifies this
      ensures entry == Lookup(old(entries), key, now, ttlMs)
      ensures entries == Next(old(entries), Op.Get(key, now), ttlMs)
      ensures entries == if entry.Some? then old(entries) else old(entries) - {key}
    {
      if key !in entries { return None; }
      if now - entries[key].firstWriteAt >= ttlMs {
        entries := entries - {key};
        return None;
      }
      entry := Some(entries[key]);
    }

    method Clear(key: string, ghost now: int)
      modifies this
      ensures entries == Next(old(entries), Op.Clear(key, now), ttlMs)
    {
      entries := entries - {key};
    }
  }
}
