/**
  The in-memory token cache: expiry plus least-recently-used eviction on a map that remembers
  insertion order. Overwriting a key keeps its place; a hit moves it to the end.
 */
module TokenCache {
  import opened Options

  datatype CacheEntry<+T> = CacheEntry(value: T, expiresAt: int)

  /** A JavaScript Map: its keys in insertion order, and what they map to. */
  datatype Entries<T> = Entries(order: seq<string>, store: map<string, CacheEntry<T>>)

  datatype Op<T> =
    | Get(key: string, now: int)
    | Set(key: string, value: T, ttlMs: int, now: int)
    | Delete(key: string, now: int)
    | Clear(now: int)

  // ---------- what the code does ----------

  function Without(order: seq<string>, key: string): (r: seq<string>) {
    if order == [] then [] else if order[0] == key then order[1..] else [order[0]] + Without(order[1..], key)
  }

  function MapDelete<T>(c: Entries<T>, key: string): (r: Entries<T>) {
    Entries(Without(c.order, key), c.store - {key})
  }

  function MapSet<T>(c: Entries<T>, key: string, entry: CacheEntry<T>): (r: Entries<T>) {
    Entries(if key in c.store then c.order else c.order + [key], c.store[key := entry])
  }

  function Lookup<T>(c: Entries<T>, key: string, now: int): (r: Option<T>) {
    if key in c.store && now < c.store[key].expiresAt then Some(c.store[key].value) else None
  }

  function AfterGet<T>(c: Entries<T>, key: string, now: int): (r: Entries<T>) {
    if key !in c.store then c
    else if c.store[key].expiresAt <= now then MapDelete(c, key)
    else MapSet(MapDelete(c, key), key, c.store[key])
  }

  function AfterSet<T>(c: Entries<T>, key: string, entry: CacheEntry<T>, maxEntries: int): (r: Entries<T>) {
    var room := if |c.store| >= maxEntries && key !in c.store && c.order != [] then MapDelete(c, c.order[0]) else c;
    MapSet(room, key, entry)
  }

  function Next<T>(maxEntries: int, c: Entries<T>, op: Op<T>): (r: Entries<T>) {
    match op
    case Get(key, now) => AfterGet(c, key, now)
    case Set(key, value, ttlMs, now) => AfterSet(c, key, CacheEntry(value, now + ttlMs), maxEntries)
    case Delete(key, _) => MapDelete(c, key)
    case Clear(_) => Entries([], map[])
  }

  function Run<T>(maxEntries: int, ops: seq<Op<T>>): (r: Entries<T>) {
    if ops == [] then Entries([], map[]) else Next(maxEntries, Run(maxEntries, ops[..|ops| - 1]), ops[|ops| - 1])
  }

  // ---------- the history-based specification ----------

  /** What the latest `set` of the key stored, unless the key was deleted or all cleared since. */
  function Latest<T>(ops: seq<Op<T>>, key: string): (r: Option<CacheEntry<T>>) {
    if ops == [] then None
    else
      match ops[|ops| - 1]
      case Set(k, value, ttlMs, now) =>
        if k == key then Some(CacheEntry(value, now + ttlMs)) else Latest(ops[..|ops| - 1], key)
      case Delete(k, _) => if k == key then None else Latest(ops[..|ops| - 1], key)
      case Clear(_) => None
      case Get(_, _) => Latest(ops[..|ops| - 1], key)
  }

  // ---------- a least-recently-used cache without an order ----------

  /** An entry and the number of the operation that last inserted or hit it. */
  datatype Stamped<+T> = Stamped(entry: CacheEntry<T>, at: nat)

  predicate LeastRecent<T>(m: map<string, Stamped<T>>, key: string) {
    key in m && forall k | k in m :: m[key].at <= m[k].at
  }

  function LruNext<T>(maxEntries: int, m: map<string, Stamped<T>>, op: Op<T>, n: nat): (r: map<string, Stamped<T>>) {
    match op
    case Get(key, now) =>
      if key !in m then m
      else if m[key].entry.expiresAt <= now then m - {key}
      else m[key := m[key].(at := n)]
    case Set(key, value, ttlMs, now) =>
      var entry := CacheEntry(value, now + ttlMs);
      if key in m then m[key := m[key].(entry := entry)]
      else (if |m| >= maxEntries then map k | k in m && !LeastRecent(m, k) :: m[k] else m)[key := Stamped(entry, n)]
    case Delete(key, _) => m - {key}
    case Clear(_) => map[]
  }

  function Lru<T>(maxEntries: int, ops: seq<Op<T>>): (r: map<string, Stamped<T>>) {
    if ops == [] then map[]
    else LruNext(maxEntries, Lru(maxEntries, ops[..|ops| - 1]), ops[|ops| - 1], |ops| - 1)
  }

  /** The key this operation inserted or hit, if any. */
  function Placed<T>(m: map<string, Stamped<T>>, op: Op<T>): (r: Option<string>) {
    match op
    case Get(key, now) => if key in m && now < m[key].entry.expiresAt then Some(key) else None
    case Set(key, _, _, _) => if key !in m then Some(key) else None
    case _ => None
  }

  /** Distinct other keys inserted or hit since the key itself last was. */
  function OthersSince<T>(maxEntries: int, ops: seq<Op<T>>, key: string): (r: set<string>) {
    if ops == [] then {}
    else
      var before := ops[..|ops| - 1];
      match Placed(Lru(maxEntries, before), ops[|ops| - 1])
      case None => OthersSince(maxEntries, before, key)
      case Some(k) => if k == key then {} else OthersSince(maxEntries, before, key) + {k}
  }

  predicate Nondecreasing<T>(ops: seq<Op<T>>) {
    forall i, j | 0 <= i < j < |ops| :: ops[i].now <= ops[j].now
  }

  function Cap(maxEntries: int): (r: nat) {
    if maxEntries < 1 then 1 else maxEntries
  }

  // ---------- order and membership ----------

  predicate Distinct(order: seq<string>) {
    forall i, j | 0 <= i < j < |order| :: order[i] != order[j]
  }

  ghost predicate Consistent<T>(c: Entries<T>) {
    Distinct(c.order) && (forall k :: k in c.order <==> k in c.store) && |c.order| == |c.store|
  }

  /** Where a key was removed: everything else keeps its relative order. */
  lemma {:induction false} WithoutAt(order: seq<string>, i: nat)
    requires Distinct(order) && i < |order|
    ensures Without(order, order[i]) == order[..i] + order[i + 1..]
  {
    if i > 0 {
      WithoutAt(order[1..], i - 1);
      assert order[0] != order[i];
      assert [order[0]] + (order[1..][..i - 1] + order[1..][i..]) == order[..i] + order[i + 1..];
    }
  }

  lemma {:induction false} WithoutAbsent(order: seq<string>, key: string)
    requires key !in order
    ensures Without(order, key) == order
  {
    if order != [] {
      assert order[0] in order;
      WithoutAbsent(order[1..], key);
    }
  }

  /** Removing a key removes that key only. */
  lemma {:induction false} WithoutMembers(order: seq<string>, x: string, k: string)
    requires Distinct(order)
    ensures k in Without(order, x) <==> k in order && k != x
  {
    if order != [] && order[0] != x {
      WithoutMembers(order[1..], x, k);
      assert k in order <==> k == order[0] || k in order[1..];
    } else if order != [] {
      assert forall i | 0 <= i < |order[1..]| :: order[1..][i] == order[i + 1];
    }
  }

  lemma WithoutDistinct(order: seq<string>, x: string)
    requires Distinct(order)
    ensures Distinct(Without(order, x))
    ensures |Without(order, x)| == if x in order then |order| - 1 else |order|
  {
    hide Without;
    if x in order {
      var m :| 0 <= m < |order| && order[m] == x;
      WithoutAt(order, m);
      var r := order[..m] + order[m + 1..];
      assert forall i | 0 <= i < |r| :: r[i] == order[if i < m then i else i + 1];
    } else {
      WithoutAbsent(order, x);
    }
  }

  lemma DeleteConsistent<T>(c: Entries<T>, key: string)
    requires Consistent(c)
    ensures Consistent(MapDelete(c, key))
    ensures |MapDelete(c, key).store| == if key in c.store then |c.store| - 1 else |c.store|
  {
    WithoutDistinct(c.order, key);
    forall k
      ensures k in Without(c.order, key) <==> k in c.store - {key}
    {
      WithoutMembers(c.order, key, k);
    }
    StoreShrinks(c.store, key);
  }

  lemma StoreShrinks<T>(store: map<string, CacheEntry<T>>, key: string)
    ensures |store - {key}| == if key in store then |store| - 1 else |store|
  {
    assert (store - {key}).Keys == store.Keys - {key};
  }

  lemma SetConsistent<T>(c: Entries<T>, key: string, entry: CacheEntry<T>)
    requires Consistent(c)
    ensures Consistent(MapSet(c, key, entry))
    ensures |MapSet(c, key, entry).store| == if key in c.store then |c.store| else |c.store| + 1
  {
    assert c.store[key := entry].Keys == c.store.Keys + {key};
  }

  // ---------- the invariant ----------

  /** Keys behind `key` in the order were all inserted or hit after it. */
  ghost predicate Behind(order: seq<string>, key: string, others: set<string>) {
    && key !in others
    && forall i, j | 0 <= i < j < |order| && order[i] == key :: order[j] in others
  }

  ghost predicate PlaceOk<T>(maxEntries: int, ops: seq<Op<T>>, key: string) {
    Behind(Run(maxEntries, ops).order, key, OthersSince(maxEntries, ops, key))
  }

  ghost predicate ValueOk<T>(maxEntries: int, ops: seq<Op<T>>, key: string) {
    var c := Run(maxEntries, ops);
    var latest := Latest(ops, key);
    && (key in c.store ==> latest == Some(c.store[key]))
    && (latest.Some? && key !in c.store ==>
          || |OthersSince(maxEntries, ops, key)| >= maxEntries
          || (ops != [] && latest.value.expiresAt <= ops[|ops| - 1].now))
  }

  ghost predicate KeyOk<T>(maxEntries: int, ops: seq<Op<T>>, key: string) {
    PlaceOk(maxEntries, ops, key) && ValueOk(maxEntries, ops, key)
  }

  /** Distinct keys make a set of their number. */
  lemma {:induction false} SetOfDistinct(order: seq<string>, others: set<string>)
    requires Distinct(order) && forall k | k in order :: k in others
    ensures |order| <= |others|
    decreases |order|
  {
    if order != [] {
      var x := order[0];
      assert forall k | k in order[1..] :: k in order && k != x;
      SetOfDistinct(order[1..], others - {x});
    }
  }

  lemma BehindAfterDelete(order: seq<string>, x: string, key: string, others: set<string>)
    requires Distinct(order) && Behind(order, key, others)
    ensures Behind(Without(order, x), key, others)
  {
    hide Without;
    if x in order {
      var m :| 0 <= m < |order| && order[m] == x;
      WithoutAt(order, m);
      var r := order[..m] + order[m + 1..];
      assert forall i | 0 <= i < |r| :: r[i] == order[if i < m then i else i + 1];
    } else {
      WithoutAbsent(order, x);
    }
  }

  lemma BehindAfterAppend(order: seq<string>, x: string, key: string, others: set<string>)
    requires x !in order && Behind(order, key, others)
    ensures Behind(order + [x], key, if x == key then {} else others + {x})
  {
    var r := order + [x];
    assert forall i | 0 <= i < |order| :: r[i] == order[i] && order[i] in order;
  }

  lemma OrderedIsStored<T>(c: Entries<T>, i: nat)
    requires Consistent(c) && i < |c.order|
    ensures c.order[i] in c.store
  {
    assert c.order[i] in c.order;
  }

  lemma EmptyIfUnordered<T>(c: Entries<T>)
    requires Consistent(c) && c.order == []
    ensures |c.store| == 0
  {}

  lemma SetSize<T>(c: Entries<T>, key: string, entry: CacheEntry<T>, maxEntries: int)
    requires Consistent(c) && |c.store| <= Cap(maxEntries)
    ensures Consistent(AfterSet(c, key, entry, maxEntries))
    ensures |AfterSet(c, key, entry, maxEntries).store| <= Cap(maxEntries)
  {
    hide Without, Consistent, MapSet;
    if |c.store| >= maxEntries && key !in c.store && c.order != [] {
      OrderedIsStored(c, 0);
      DeleteConsistent(c, c.order[0]);
      SetConsistent(MapDelete(c, c.order[0]), key, entry);
    } else {
      if c.order == [] { EmptyIfUnordered(c); }
      SetConsistent(c, key, entry);
    }
  }

  lemma HitConsistent<T>(c: Entries<T>, key: string)
    requires Consistent(c) && key in c.store
    ensures var d := MapSet(MapDelete(c, key), key, c.store[key]);
            Consistent(d) && |d.store| == |c.store|
  {
    hide Consistent, Without;
    DeleteConsistent(c, key);
    SetConsistent(MapDelete(c, key), key, c.store[key]);
    PutBack(c.store, key);
  }

  lemma PutBack<T>(store: map<string, CacheEntry<T>>, key: string)
    requires key in store
    ensures (store - {key})[key := store[key]] == store
  {}

  lemma NextConsistent<T>(maxEntries: int, c: Entries<T>, op: Op<T>)
    requires Consistent(c) && |c.store| <= Cap(maxEntries)
    ensures Consistent(Next(maxEntries, c, op)) && |Next(maxEntries, c, op).store| <= Cap(maxEntries)
  {
    hide Consistent, MapDelete, MapSet, AfterSet;
    match op
    case Get(key, _) =>
      if key in c.store {
        DeleteConsistent(c, key);
        HitConsistent(c, key);
      }
    case Set(key, value, ttlMs, now) => SetSize(c, key, CacheEntry(value, now + ttlMs), maxEntries);
    case Delete(key, _) => DeleteConsistent(c, key);
    case Clear(_) => EmptyConsistent<T>();
  }

  lemma EmptyConsistent<T>()
    ensures Consistent<T>(Entries([], map[]))
  {}

  lemma {:induction false} RunConsistent<T>(maxEntries: int, ops: seq<Op<T>>)
    ensures Consistent(Run(maxEntries, ops))
    ensures |Run(maxEntries, ops).store| <= Cap(maxEntries)
    decreases |ops|
  {
    if ops != [] {
      RunConsistent(maxEntries, ops[..|ops| - 1]);
      NextConsistent(maxEntries, Run(maxEntries, ops[..|ops| - 1]), ops[|ops| - 1]);
    }
  }

  // ---------- the insertion-ordered map is that cache ----------

  ghost predicate SameEntries<T>(c: Entries<T>, m: map<string, Stamped<T>>) {
    c.store.Keys == m.Keys && forall k | k in m :: c.store[k] == m[k].entry
  }

  /** The keys stand in the order of their stamps, all of them below `n`. */
  ghost predicate ByStamp<T>(order: seq<string>, m: map<string, Stamped<T>>, n: nat) {
    && (forall i | 0 <= i < |order| :: order[i] in m && m[order[i]].at < n)
    && (forall i, j | 0 <= i < j < |order| :: m[order[i]].at < m[order[j]].at)
  }

  ghost predicate Refines<T>(c: Entries<T>, m: map<string, Stamped<T>>, n: nat) {
    Consistent(c) && SameEntries(c, m) && ByStamp(c.order, m, n)
  }

  lemma ByStampDelete<T>(order: seq<string>, m: map<string, Stamped<T>>, n: nat, x: string)
    requires Distinct(order) && ByStamp(order, m, n)
    ensures ByStamp(Without(order, x), m - {x}, n)
  {
    hide Without;
    if x in order {
      var d :| 0 <= d < |order| && order[d] == x;
      WithoutAt(order, d);
      ByStampSkip(order, m, n, d);
    } else {
      WithoutAbsent(order, x);
    }
  }

  lemma ByStampSkip<T>(order: seq<string>, m: map<string, Stamped<T>>, n: nat, d: nat)
    requires Distinct(order) && ByStamp(order, m, n) && d < |order|
    ensures ByStamp(order[..d] + order[d + 1..], m - {order[d]}, n)
  {
    var r := order[..d] + order[d + 1..];
    forall i | 0 <= i < |r|
      ensures r[i] == order[if i < d then i else i + 1] && r[i] in m && r[i] != order[d]
    {}
    hide Distinct;
  }

  lemma DeleteRefines<T>(c: Entries<T>, m: map<string, Stamped<T>>, n: nat, x: string)
    requires Refines(c, m, n)
    ensures Refines(MapDelete(c, x), m - {x}, n)
  {
    hide ByStamp, Consistent, Without;
    assert Distinct(c.order) by { OrderDistinct(c); }
    DeleteConsistent(c, x);
    ByStampDelete(c.order, m, n, x);
  }

  lemma OrderDistinct<T>(c: Entries<T>)
    requires Consistent(c)
    ensures Distinct(c.order) && |c.order| == |c.store| && forall k :: k in c.order <==> k in c.store
  {}

  lemma ByStampAppend<T>(order: seq<string>, m: map<string, Stamped<T>>, n: nat, x: string, entry: CacheEntry<T>)
    requires ByStamp(order, m, n) && x !in m
    ensures ByStamp(order + [x], m[x := Stamped(entry, n)], n + 1)
  {
    var r := order + [x];
    assert forall i | 0 <= i < |order| :: r[i] == order[i] && order[i] in m && order[i] != x;
  }

  lemma InsertRefines<T>(c: Entries<T>, m: map<string, Stamped<T>>, n: nat, x: string, entry: CacheEntry<T>)
    requires Refines(c, m, n) && x !in m
    ensures Refines(MapSet(c, x, entry), m[x := Stamped(entry, n)], n + 1)
  {
    hide Consistent, ByStamp;
    SetConsistent(c, x, entry);
    ByStampAppend(c.order, m, n, x, entry);
  }

  lemma ByStampOverwrite<T>(order: seq<string>, m: map<string, Stamped<T>>, n: nat, x: string, entry: CacheEntry<T>)
    requires ByStamp(order, m, n) && x in m
    ensures ByStamp(order, m[x := m[x].(entry := entry)], n + 1)
  {
    var d := m[x := m[x].(entry := entry)];
    assert forall k | k in m :: k in d && d[k].at == m[k].at;
  }

  lemma OverwriteRefines<T>(c: Entries<T>, m: map<string, Stamped<T>>, n: nat, x: string, entry: CacheEntry<T>)
    requires Refines(c, m, n) && x in m
    ensures Refines(MapSet(c, x, entry), m[x := m[x].(entry := entry)], n + 1)
  {
    hide Consistent, ByStamp;
    SetConsistent(c, x, entry);
    ByStampOverwrite(c.order, m, n, x, entry);
  }

  lemma FirstStamped<T>(c: Entries<T>, m: map<string, Stamped<T>>, n: nat, k: string)
    requires Refines(c, m, n) && c.order != [] && k in m
    ensures c.order[0] in m && (k != c.order[0] ==> m[c.order[0]].at < m[k].at)
  {
    hide Distinct;
    assert k in c.order;
    var i :| 0 <= i < |c.order| && c.order[i] == k;
  }

  /** The first key is the only one with the least stamp. */
  lemma FirstIsLeastRecent<T>(c: Entries<T>, m: map<string, Stamped<T>>, n: nat)
    requires Refines(c, m, n) && c.order != []
    ensures (map k | k in m && !LeastRecent(m, k) :: m[k]) == m - {c.order[0]}
  {
    hide Refines;
    var first := c.order[0];
    forall k | k in m
      ensures first in m && (k != first ==> m[first].at < m[k].at)
    {
      FirstStamped(c, m, n, k);
    }
    assert forall k | k in m :: LeastRecent(m, k) <==> k == first;
  }

  lemma LaterRefines<T>(c: Entries<T>, m: map<string, Stamped<T>>, n: nat)
    requires Refines(c, m, n)
    ensures Refines(c, m, n + 1)
  {}

  lemma GetRefines<T>(maxEntries: int, c: Entries<T>, m: map<string, Stamped<T>>, n: nat, op: Op<T>)
    requires Refines(c, m, n) && op.Get?
    ensures Refines(Next(maxEntries, c, op), LruNext(maxEntries, m, op, n), n + 1)
  {
    hide Refines, MapDelete, MapSet;
    StoresSame(c, m, n);
    var x, now := op.key, op.now;
    if x in m && now < m[x].entry.expiresAt {
      DeleteRefines(c, m, n, x);
      InsertRefines(MapDelete(c, x), m - {x}, n, x, c.store[x]);
      assert (m - {x})[x := Stamped(c.store[x], n)] == m[x := m[x].(at := n)];
    } else {
      DeleteRefines(c, m, n, x);
      LaterRefines(c, m, n);
      LaterRefines(MapDelete(c, x), m - {x}, n);
    }
  }

  lemma StoresSame<T>(c: Entries<T>, m: map<string, Stamped<T>>, n: nat)
    requires Refines(c, m, n)
    ensures SameEntries(c, m) && |c.store| == |m| && (c.order == [] ==> m == map[])
  {
    assert |c.store| == |c.store.Keys| == |m.Keys|;
    if c.order == [] { assert forall k | k in m :: k in c.order; }
  }

  lemma SetRefines<T>(maxEntries: int, c: Entries<T>, m: map<string, Stamped<T>>, n: nat, op: Op<T>)
    requires Refines(c, m, n) && op.Set?
    ensures Refines(Next(maxEntries, c, op), LruNext(maxEntries, m, op, n), n + 1)
  {
    hide Refines, MapDelete, MapSet, LeastRecent;
    StoresSame(c, m, n);
    var entry := CacheEntry(op.value, op.now + op.ttlMs);
    if op.key in m {
      OverwriteRefines(c, m, n, op.key, entry);
    } else if |m| >= maxEntries && c.order != [] {
      FirstIsLeastRecent(c, m, n);
      DeleteRefines(c, m, n, c.order[0]);
      InsertRefines(MapDelete(c, c.order[0]), m - {c.order[0]}, n, op.key, entry);
    } else {
      InsertRefines(c, m, n, op.key, entry);
    }
  }

  /**
    Whatever is asked of it, the map that remembers insertion order holds what a cache would hold
    that stamps each key when it inserts or hits it and evicts the least recently stamped one.
   */
  lemma {:induction false} RunIsLru<T>(maxEntries: int, ops: seq<Op<T>>)
    ensures Refines(Run(maxEntries, ops), Lru(maxEntries, ops), |ops|)
    decreases |ops|
  {
    hide Refines;
    if ops == [] {
      EmptyRefines<T>(0);
    } else {
      var before, op := ops[..|ops| - 1], ops[|ops| - 1];
      RunIsLru(maxEntries, before);
      var c, m := Run(maxEntries, before), Lru(maxEntries, before);
      match op
      case Get(_, _) => GetRefines(maxEntries, c, m, |before|, op);
      case Set(_, _, _, _) => SetRefines(maxEntries, c, m, |before|, op);
      case Delete(key, _) =>
        DeleteRefines(c, m, |before|, key);
        LaterRefines(MapDelete(c, key), m - {key}, |before|);
      case Clear(_) => EmptyRefines<T>(|ops|);
    }
  }

  lemma EmptyRefines<T>(n: nat)
    ensures Refines<T>(Entries([], map[]), map[], n)
  {}

  /** What an operation inserts or hits, told from the map the code keeps. */
  function PlacedIn<T>(c: Entries<T>, op: Op<T>): (r: Option<string>) {
    match op
    case Get(key, now) => if Lookup(c, key, now).Some? then Some(key) else None
    case Set(key, _, _, _) => if key !in c.store then Some(key) else None
    case _ => None
  }

  lemma OthersStep<T>(maxEntries: int, ops: seq<Op<T>>, key: string)
    requires ops != []
    ensures var before := ops[..|ops| - 1];
            var others := OthersSince(maxEntries, before, key);
            OthersSince(maxEntries, ops, key) == match PlacedIn(Run(maxEntries, before), ops[|ops| - 1])
                                                 case None => others
                                                 case Some(k) => if k == key then {} else others + {k}
  {
    hide Consistent, ByStamp, Run, Lru;
    RunIsLru(maxEntries, ops[..|ops| - 1]);
  }

  lemma GetKeepsPlace<T>(maxEntries: int, ops: seq<Op<T>>, key: string)
    requires ops != [] && ops[|ops| - 1].Get?
    requires Consistent(Run(maxEntries, ops[..|ops| - 1])) && PlaceOk(maxEntries, ops[..|ops| - 1], key)
    ensures PlaceOk(maxEntries, ops, key)
  {
    hide OthersSince;
    OthersStep(maxEntries, ops, key);
    var x := ops[|ops| - 1].key;
    var order := Run(maxEntries, ops[..|ops| - 1]).order;
    var others := OthersSince(maxEntries, ops[..|ops| - 1], key);
    BehindAfterDelete(order, x, key, others);
    WithoutMembers(order, x, x);
    BehindAfterAppend(Without(order, x), x, key, others);
  }

  lemma GetKeepsValue<T>(maxEntries: int, ops: seq<Op<T>>, key: string)
    requires ops != [] && ops[|ops| - 1].Get? && Nondecreasing(ops)
    requires ValueOk(maxEntries, ops[..|ops| - 1], key)
    ensures ValueOk(maxEntries, ops, key)
  {
    hide OthersSince;
    OthersStep(maxEntries, ops, key);
    var before, op := ops[..|ops| - 1], ops[|ops| - 1];
    var c := Run(maxEntries, before);
    assert before != [] ==> before[|before| - 1].now <= op.now;
    GrowsBy(OthersSince(maxEntries, before, key), op.key);
    if op.key in c.store { PutBack(c.store, op.key); }
  }

  /** Eviction takes the first key only when at least `maxEntries` others came after it. */
  lemma EvictedHadOthers<T>(c: Entries<T>, key: string, maxEntries: int, others: set<string>)
    requires Consistent(c) && |c.store| >= maxEntries && key !in c.store && c.order != []
    requires Behind(c.order, c.order[0], others)
    ensures |others + {key}| >= maxEntries
  {
    var rest := c.order[1..];
    assert forall j | 0 <= j < |rest| :: rest[j] == c.order[j + 1] && rest[j] in c.order;
    assert key !in rest;
    SetOfDistinct(rest + [key], others + {key});
  }

  lemma SetKeepsPlace<T>(maxEntries: int, ops: seq<Op<T>>, key: string)
    requires ops != [] && ops[|ops| - 1].Set?
    requires Consistent(Run(maxEntries, ops[..|ops| - 1])) && PlaceOk(maxEntries, ops[..|ops| - 1], key)
    ensures PlaceOk(maxEntries, ops, key)
  {
    hide OthersSince;
    OthersStep(maxEntries, ops, key);
    var c, x := Run(maxEntries, ops[..|ops| - 1]), ops[|ops| - 1].key;
    var others := OthersSince(maxEntries, ops[..|ops| - 1], key);
    if x !in c.store {
      assert x !in c.order;
      if |c.store| >= maxEntries && c.order != [] {
        BehindAfterDelete(c.order, c.order[0], key, others);
        WithoutMembers(c.order, c.order[0], x);
        BehindAfterAppend(Without(c.order, c.order[0]), x, key, others);
      } else {
        BehindAfterAppend(c.order, x, key, others);
      }
    }
  }

  /** Besides the key itself only the first key can leave, and only after many others. */
  lemma SetEvicts<T>(c: Entries<T>, x: string, entry: CacheEntry<T>, maxEntries: int, key: string, others: set<string>)
    requires Consistent(c) && Behind(c.order, key, others) && key != x
    ensures var d := AfterSet(c, x, entry, maxEntries);
            && (key in d.store ==> key in c.store && d.store[key] == c.store[key])
            && (key in c.store && key !in d.store ==> x !in c.store && |others + {x}| >= maxEntries)
  {
    if |c.store| >= maxEntries && x !in c.store && c.order != [] && key == c.order[0] {
      EvictedHadOthers(c, x, maxEntries, others);
    }
  }

  lemma SetKeepsValue<T>(maxEntries: int, ops: seq<Op<T>>, key: string)
    requires ops != [] && ops[|ops| - 1].Set? && Nondecreasing(ops)
    requires Consistent(Run(maxEntries, ops[..|ops| - 1])) && KeyOk(maxEntries, ops[..|ops| - 1], key)
    ensures ValueOk(maxEntries, ops, key)
  {
    hide OthersSince, Consistent, Behind, MapDelete;
    OthersStep(maxEntries, ops, key);
    var before, op := ops[..|ops| - 1], ops[|ops| - 1];
    assert before != [] ==> before[|before| - 1].now <= op.now;
    if key != op.key {
      var others := OthersSince(maxEntries, before, key);
      GrowsBy(others, op.key);
      SetEvicts(Run(maxEntries, before), op.key, CacheEntry(op.value, op.now + op.ttlMs), maxEntries, key, others);
    }
  }

  lemma GrowsBy(others: set<string>, x: string)
    ensures |others| <= |others + {x}|
  {
    if x in others { assert others + {x} == others; }
  }

  lemma DeleteKeeps<T>(maxEntries: int, ops: seq<Op<T>>, key: string)
    requires ops != [] && (ops[|ops| - 1].Delete? || ops[|ops| - 1].Clear?) && Nondecreasing(ops)
    requires Consistent(Run(maxEntries, ops[..|ops| - 1])) && KeyOk(maxEntries, ops[..|ops| - 1], key)
    ensures KeyOk(maxEntries, ops, key)
  {
    hide OthersSince;
    OthersStep(maxEntries, ops, key);
    var before, op := ops[..|ops| - 1], ops[|ops| - 1];
    assert before != [] ==> before[|before| - 1].now <= op.now;
    if op.Delete? {
      BehindAfterDelete(Run(maxEntries, before).order, op.key, key, OthersSince(maxEntries, before, key));
    }
  }

  lemma {:induction false} EveryKeyOk<T>(maxEntries: int, ops: seq<Op<T>>, key: string)
    requires Nondecreasing(ops)
    ensures KeyOk(maxEntries, ops, key)
    decreases |ops|
  {
    if ops != [] {
      EveryKeyOk(maxEntries, ops[..|ops| - 1], key);
      RunConsistent(maxEntries, ops[..|ops| - 1]);
      match ops[|ops| - 1]
      case Get(_, _) =>
        GetKeepsPlace(maxEntries, ops, key);
        GetKeepsValue(maxEntries, ops, key);
      case Set(_, _, _, _) =>
        SetKeepsPlace(maxEntries, ops, key);
        SetKeepsValue(maxEntries, ops, key);
      case _ => DeleteKeeps(maxEntries, ops, key);
    }
  }

  // ---------- what callers rely on ----------

  /**
    A key that was set, not deleted and not expired is a hit, with the latest value, unless at least
    `maxEntries` distinct other keys were inserted or hit since it was itself inserted or hit.
   */
  lemma Retention<T>(maxEntries: int, ops: seq<Op<T>>, key: string, now: int)
    requires Nondecreasing(ops) && (ops != [] ==> ops[|ops| - 1].now <= now)
    requires Latest(ops, key).Some? && now < Latest(ops, key).value.expiresAt
    requires |OthersSince(maxEntries, ops, key)| < maxEntries
    ensures Lookup(Run(maxEntries, ops), key, now) == Some(Latest(ops, key).value.value)
  {
    EveryKeyOk(maxEntries, ops, key);
  }

  /** A hit is always the latest set, still unexpired; the cache never outgrows its limit. */
  lemma HitIsLatest<T>(maxEntries: int, ops: seq<Op<T>>, key: string, now: int)
    requires Nondecreasing(ops)
    ensures Lookup(Run(maxEntries, ops), key, now).Some? ==>
              && Latest(ops, key).Some? && now < Latest(ops, key).value.expiresAt
              && Lookup(Run(maxEntries, ops), key, now).value == Latest(ops, key).value.value
    ensures |Run(maxEntries, ops).store| <= Cap(maxEntries)
  {
    EveryKeyOk(maxEntries, ops, key);
    RunConsistent(maxEntries, ops);
  }

  // ---------- the object ----------

  class InMemoryTokenCache<T> {
    const maxEntries: int
    var order: seq<string>
    var store: map<string, CacheEntry<T>>

    function View(): (r: Entries<T>)
      reads this
    {
      Entries(order, store)
    }

    constructor (maxEntries: int)
      ensures View() == Entries([], map[]) && this.maxEntries == maxEntries
    {
      this.maxEntries := maxEntries;
      order, store := [], map[];
    }

    method MapRemove(key: string)
      modifies this
      ensures View() == MapDelete(old(View()), key)
    {
      order, store := Without(order, key), store - {key};
    }

    method MapPut(key: string, entry: CacheEntry<T>)
      modifies this
      ensures View() == MapSet(old(View()), key, entry)
    {
      if key !in store { order := order + [key]; }
      store := store[key := entry];
    }

    method Get(key: string, now: int) returns (value: Option<T>)
      modifies this
      ensures value == Lookup(old(View()), key, now)
      ensures View() == Next(maxEntries, old(View()), Op.Get(key, now))
    {
      if key !in store { return None; }
      var entry := store[key];
      if entry.expiresAt <= now {
        MapRemove(key);
        return None;
      }
      MapRemove(key);
      MapPut(key, entry);
      value := Some(entry.value);
    }

    method Set(key: string, value: T, ttlMs: int, now: int)
      modifies this
      ensures View() == Next(maxEntries, old(View()), Op.Set(key, value, ttlMs, now))
    {
      if |store| >= maxEntries && key !in store && |order| > 0 {
        MapRemove(order[0]);
      }
      MapPut(key, CacheEntry(value, now + ttlMs));
    }

    method Delete(key: string, ghost now: int)
      modifies this
      ensures View() == Next(maxEntries, old(View()), Op.Delete(key, now))
    {
      MapRemove(key);
    }

    method Clear(ghost now: int)
      modifies this
      ensures View() == Next(maxEntries, old(View()), Op.Clear(now))
    {
      order, store := [], map[];
    }
  }
}
