/**
  PII redaction of any JSON-ish value. The input is a heap of arrays and objects that may share
  and form cycles; the output is a tree.
 */
module Redact {
  import opened Options

  datatype Value =
    | Null | Undefined | Bool(b: bool) | Num(n: real) | Str(s: string)
    | Opaque(name: string)   // functions, symbols, bigints
    | Ref(at: nat)           // an array or object on the heap

  datatype Node = Arr(elems: seq<Value>) | Obj(fields: map<string, Value>)

  type Heap = map<nat, Node>

  datatype Tree =
    | Leaf(v: Value)
    | ArrTree(elems: seq<Tree>)
    | ObjTree(fields: map<string, Tree>)

  const REDACTED := "[REDACTED]"

  const SENSITIVE_KEYS: set<string> := {
    "source", "paymentSource", "billingAddress", "shippingAddress", "customerAddress", "customer",
    "encryptionData", "paymentTokens", "dataCapture", "dataStatic", "dataDynamic", "Authorization",
    "authorization", "Api-Key", "api-key", "apiKey", "Api-Secret", "api-secret", "apiSecret",
    "accessToken", "refreshToken", "clientSecret", "password", "pin", "cvv", "cardNumber", "pan",
    "token", "tokenData", "authorization_token", "paymentData", "tokenizationData", "payerID",
    "cryptogram", "staticAccessToken", "CH_STATIC_ACCESS_TOKEN", "CH_API_KEY", "CH_API_SECRET",
    "CH_WEBHOOK_SECRET"
  }

  predicate Sensitive(key: string) {
    key in SENSITIVE_KEYS
  }

  /** Whole parts of an order that are about the payer. */
  const PERSONAL := ["source", "paymentSource", "billingAddress", "shippingAddress", "customerAddress", "customer"]

  const CARD_DATA := ["encryptionData", "paymentTokens", "dataCapture", "dataStatic", "dataDynamic",
                      "cvv", "cardNumber", "pan", "pin"]

  const CREDENTIALS := ["Authorization", "authorization", "Api-Key", "api-key", "apiKey", "Api-Secret", "api-secret",
                        "apiSecret", "accessToken", "refreshToken", "clientSecret", "password", "staticAccessToken",
                        "CH_STATIC_ACCESS_TOKEN", "CH_API_KEY", "CH_API_SECRET", "CH_WEBHOOK_SECRET"]

  const WALLETS := ["token", "tokenData", "authorization_token", "paymentData", "tokenizationData", "payerID", "cryptogram"]

  lemma SensitiveIff(key: string)
    ensures Sensitive(key) <==> key in PERSONAL || key in CARD_DATA || key in CREDENTIALS || key in WALLETS
  {}

  /** Assigning `__proto__` on the output object sets its prototype instead of a field. */
  predicate Kept(key: string) {
    key != "__proto__"
  }

  // ---------- strings ----------

  predicate Word(c: char) {
    'a' <= c <= 'z' || 'A' <= c <= 'Z' || '0' <= c <= '9' || c == '_'
  }

  /** One or more word characters, dots, plus or minus signs; an at sign; a label; a dot; the rest. */
  predicate EmailAt(s: string, at: nat, dot: nat) {
    && 0 < at && at + 1 < dot && dot + 1 < |s|
    && (forall i | 0 <= i < at :: Word(s[i]) || s[i] == '.' || s[i] == '+' || s[i] == '-')
    && s[at] == '@'
    && (forall i | at < i < dot :: Word(s[i]) || s[i] == '-')
    && s[dot] == '.'
    && (forall i | dot < i < |s| :: Word(s[i]) || s[i] == '.' || s[i] == '-')
  }

  predicate IsEmail(s: string) {
    exists at, dot | 0 <= at < |s| && 0 <= dot < |s| :: EmailAt(s, at, dot)
  }

  /** A regular expression without alternatives: its pieces one after another. */
  datatype Piece = Exactly(c: char) | OneOrMore(within: char -> bool)

  ghost predicate Matches(re: seq<Piece>, s: string)
    decreases |re|
  {
    if re == [] then s == ""
    else
      match re[0]
      case Exactly(c) => s != "" && s[0] == c && Matches(re[1..], s[1..])
      case OneOrMore(within) =>
        exists n | 0 < n <= |s| :: (forall i | 0 <= i < n :: within(s[i])) && Matches(re[1..], s[n..])
  }

  predicate InRanges(c: char, ranges: seq<(char, char)>) {
    exists i | 0 <= i < |ranges| :: ranges[i].0 <= c <= ranges[i].1
  }

  const WORD := [('a', 'z'), ('A', 'Z'), ('0', '9'), ('_', '_')]

  const LOCAL_PART: char -> bool := c => InRanges(c, WORD + [('.', '.'), ('+', '+'), ('-', '-')])

  const NAME: char -> bool := c => InRanges(c, WORD + [('-', '-')])

  const REST: char -> bool := c => InRanges(c, WORD + [('.', '.'), ('-', '-')])

  const EMAIL_RE := [OneOrMore(LOCAL_PART), Exactly('@'), OneOrMore(NAME), Exactly('.'), OneOrMore(REST)]

  lemma InMoreRanges(c: char, ranges: seq<(char, char)>, more: char)
    ensures InRanges(c, ranges + [(more, more)]) <==> InRanges(c, ranges) || c == more
  {
    var all := ranges + [(more, more)];
    assert forall i | 0 <= i < |ranges| :: all[i] == ranges[i];
    assert all[|ranges|] == (more, more);
  }

  lemma WordRanges(c: char)
    ensures InRanges(c, WORD) <==> Word(c)
  {
    assert WORD[0] == ('a', 'z') && WORD[1] == ('A', 'Z') && WORD[2] == ('0', '9') && WORD[3] == ('_', '_');
  }

  lemma ClassesAre(c: char)
    ensures LOCAL_PART(c) <==> Word(c) || c == '.' || c == '+' || c == '-'
    ensures NAME(c) <==> Word(c) || c == '-'
    ensures REST(c) <==> Word(c) || c == '.' || c == '-'
  {
    hide InRanges, Word;
    WordRanges(c);
    InMoreRanges(c, WORD, '.');
    InMoreRanges(c, WORD, '-');
    InMoreRanges(c, WORD + [('.', '.')], '+');
    InMoreRanges(c, WORD + [('.', '.')], '-');
    InMoreRanges(c, WORD + [('.', '.')] + [('+', '+')], '-');
    assert WORD + [('.', '.'), ('+', '+'), ('-', '-')] == WORD + [('.', '.')] + [('+', '+')] + [('-', '-')];
    assert WORD + [('.', '.'), ('-', '-')] == WORD + [('.', '.')] + [('-', '-')];
  }

  predicate All(within: char -> bool, s: string) {
    forall i | 0 <= i < |s| :: within(s[i])
  }

  lemma MatchesRest(s: string)
    ensures Matches([OneOrMore(REST)], s) <==> s != "" && All(REST, s)
  {
    hide InRanges;
    var re := [OneOrMore(REST)];
    assert re[1..] == [];
    assert s[|s|..] == "";
    if Matches(re, s) {
      var n :| 0 < n <= |s| && (forall i | 0 <= i < n :: REST(s[i])) && Matches(re[1..], s[n..]);
      assert n == |s|;
    }
  }

  predicate DomainAt(s: string, dot: int) {
    0 < dot < |s| - 1 && All(NAME, s[..dot]) && s[dot] == '.' && All(REST, s[dot + 1..])
  }

  ghost predicate IsDomain(s: string) {
    exists dot :: DomainAt(s, dot)
  }

  lemma MatchesDomain(s: string)
    ensures Matches([OneOrMore(NAME), Exactly('.'), OneOrMore(REST)], s) <==> IsDomain(s)
  {
    hide InRanges;
    var re := [OneOrMore(NAME), Exactly('.'), OneOrMore(REST)];
    assert re[1..] == [Exactly('.'), OneOrMore(REST)] && re[1..][1..] == [OneOrMore(REST)];
    forall n | 0 < n <= |s|
      ensures (forall i | 0 <= i < n :: NAME(s[i])) && Matches(re[1..], s[n..]) <==> DomainAt(s, n)
    {
      if n < |s| {
        assert s[n..][1..] == s[n + 1..];
        MatchesRest(s[n + 1..]);
      }
    }
  }

  lemma PartsOf(s: string, at: nat, dot: nat)
    requires 0 < at < |s|
    ensures EmailAt(s, at, dot)
       <==> (forall i | 0 <= i < at :: LOCAL_PART(s[i])) && s[at] == '@' && DomainAt(s[at + 1..], dot - at - 1)
  {
    hide InRanges, Word;
    forall c
      ensures LOCAL_PART(c) <==> Word(c) || c == '.' || c == '+' || c == '-'
      ensures NAME(c) <==> Word(c) || c == '-'
      ensures REST(c) <==> Word(c) || c == '.' || c == '-'
    {
      ClassesAre(c);
    }
    var domain := s[at + 1..];
    assert forall i | at < i < |s| :: s[i] == domain[i - at - 1];
  }

  lemma MatchesAtSign(s: string, at: nat)
    requires at <= |s|
    ensures Matches(EMAIL_RE[1..], s[at..]) <==> at < |s| && s[at] == '@' && IsDomain(s[at + 1..])
  {
    hide InRanges, DomainAt;
    assert EMAIL_RE[1..][1..] == [OneOrMore(NAME), Exactly('.'), OneOrMore(REST)];
    if at < |s| {
      assert s[at..][1..] == s[at + 1..];
      MatchesDomain(s[at + 1..]);
    }
  }

  /** The predicate says what the regular expression does. */
  lemma {:induction false} IsEmailIff(s: string)
    ensures IsEmail(s) <==> Matches(EMAIL_RE, s)
  {
    hide InRanges, Word;
    if IsEmail(s) {
      var at, dot :| 0 <= at < |s| && 0 <= dot < |s| && EmailAt(s, at, dot);
      PartsOf(s, at, dot);
      MatchesAtSign(s, at);
    }
    if Matches(EMAIL_RE, s) {
      var n :| 0 < n <= |s| && (forall i | 0 <= i < n :: LOCAL_PART(s[i])) && Matches(EMAIL_RE[1..], s[n..]);
      MatchesAtSign(s, n);
      var dot :| DomainAt(s[n + 1..], dot);
      PartsOf(s, n, dot + n + 1);
    }
  }

  function IndexOf(s: string, c: char): (i: int)
    ensures -1 <= i < |s|
    ensures i >= 0 ==> s[i] == c
    ensures forall j | 0 <= j < (if i < 0 then |s| else i) :: s[j] != c
  {
    if s == "" then -1 else if s[0] == c then 0 else
    var i := IndexOf(s[1..], c);
    if i < 0 then -1 else i + 1
  }

  function Stars(n: nat): (r: string) {
    seq(n, _ => '*')
  }

  function StarCount(at: int): (r: nat) {
    if at - 1 < 2 then 2 else at - 1
  }

  function MaskEmail(email: string): (r: string) {
    var at := IndexOf(email, '@');
    if at <= 0 then REDACTED
    else email[..1] + Stars(StarCount(at)) + "@" + email[at + 1..]
  }

  function MaskString(s: string): (r: string) {
    if IsEmail(s) then MaskEmail(s) else s
  }

  // ---------- redaction ----------

  /** References never dangle. */
  ghost predicate Sound(h: Heap, v: Value) {
    v.Ref? ==> v.at in h
  }

  ghost predicate Closed(h: Heap) {
    forall a | a in h ::
      match h[a]
      case Arr(elems) => forall i | 0 <= i < |elems| :: Sound(h, elems[i])
      case Obj(fields) => forall k | k in fields :: Sound(h, fields[k])
  }

  /** What `redact(value, depth)` returns; the depth cut-off alone makes it end on cycles. */
  function Redacted(h: Heap, v: Value, depth: nat): (r: Tree)
    requires Closed(h) && Sound(h, v)
    decreases 11 - depth, 0
  {
    if depth > 10 then Leaf(Str(REDACTED))
    else
      match v
      case Str(s) => Leaf(Str(MaskString(s)))
      case Ref(a) =>
        (match h[a]
         case Arr(elems) => ArrTree(RedactedElems(h, elems, depth + 1))
         case Obj(fields) => ObjTree(RedactedFields(h, fields, depth + 1)))
      case _ => Leaf(v)
  }

  function RedactedElems(h: Heap, elems: seq<Value>, depth: nat): (ts: seq<Tree>)
    requires Closed(h) && forall i | 0 <= i < |elems| :: Sound(h, elems[i])
    ensures |ts| == |elems| && forall i | 0 <= i < |ts| :: ts[i] == Redacted(h, elems[i], depth)
    decreases 11 - depth, 1
  {
    seq(|elems|, i requires 0 <= i < |elems| => Redacted(h, elems[i], depth))
  }

  function RedactedField(h: Heap, key: string, v: Value, depth: nat): (r: Tree)
    requires Closed(h) && Sound(h, v)
    decreases 11 - depth, 1
  {
    if Sensitive(key) then Leaf(Str(REDACTED)) else Redacted(h, v, depth)
  }

  function RedactedFields(h: Heap, fields: map<string, Value>, depth: nat): (ts: map<string, Tree>)
    requires Closed(h) && forall k | k in fields :: Sound(h, fields[k])
    ensures forall k :: k in ts <==> k in fields && Kept(k)
    ensures forall k | k in ts :: ts[k] == RedactedField(h, k, fields[k], depth)
    decreases 11 - depth, 2
  {
    map k | k in fields && Kept(k) :: RedactedField(h, k, fields[k], depth)
  }

  /** The recursion with its two loops. */
  method Redact(h: Heap, v: Value, depth: nat) returns (r: Tree)
    requires Closed(h) && Sound(h, v)
    ensures r == Redacted(h, v, depth)
    decreases 11 - depth
  {
    if depth > 10 { return Leaf(Str(REDACTED)); }
    match v {
      case Str(s) => r := Leaf(Str(MaskString(s)));
      case Ref(a) =>
        match h[a] {
          case Arr(elems) =>
            var out: seq<Tree> := [];
            for i := 0 to |elems|
              invariant |out| == i
              invariant forall j | 0 <= j < i :: out[j] == Redacted(h, elems[j], depth + 1)
            {
              var e := Redact(h, elems[i], depth + 1);
              out := out + [e];
            }
            r := ArrTree(out);
          case Obj(fields) =>
            var out: map<string, Tree> := map[];
            var rest := fields.Keys;
            while rest != {}
              invariant rest <= fields.Keys
              invariant forall k :: k in out <==> k in fields && k !in rest && Kept(k)
              invariant forall k | k in out :: out[k] == RedactedField(h, k, fields[k], depth + 1)
              decreases rest
            {
              var k :| k in rest;
              rest := rest - {k};
              var val;
              if Sensitive(k) { val := Leaf(Str(REDACTED)); } else { val := Redact(h, fields[k], depth + 1); }
              if Kept(k) { out := out[k := val]; }
            }
            r := ObjTree(out);
        }
      case _ => r := Leaf(v);
    }
  }

  // ---------- what every result looks like ----------

  /** At most `n` levels of arrays and objects. */
  predicate AtMostDeep(t: Tree, n: nat) {
    match t
    case Leaf(_) => true
    case ArrTree(elems) => n > 0 && forall i | 0 <= i < |elems| :: AtMostDeep(elems[i], n - 1)
    case ObjTree(fields) => n > 0 && forall k | k in fields :: AtMostDeep(fields[k], n - 1)
  }

  /** No leaf points back to the heap, no string value is an email, nothing sensitive shows. */
  predicate Clean(t: Tree) {
    match t
    case Leaf(v) => !v.Ref? && (v.Str? ==> !IsEmail(v.s))
    case ArrTree(elems) => forall i | 0 <= i < |elems| :: Clean(elems[i])
    case ObjTree(fields) =>
      forall k | k in fields ::
        && Clean(fields[k]) && (Sensitive(k) ==> fields[k] == Leaf(Str(REDACTED)))
        && k != "__proto__"
  }

  lemma EmailChars(s: string, i: nat)
    requires IsEmail(s) && i < |s|
    ensures s[i] != '*' && s[i] != '['
  {}

  lemma MaskedIsNoEmail(s: string)
    ensures !IsEmail(MaskString(s)) && !IsEmail(REDACTED)
  {
    if IsEmail(REDACTED) { EmailChars(REDACTED, 0); }
    if IsEmail(s) && IsEmail(MaskEmail(s)) && IndexOf(s, '@') > 0 {
      assert MaskEmail(s)[1] == '*';
      EmailChars(MaskEmail(s), 1);
    }
  }

  /** Even on cyclic input the result is a bounded tree without emails or sensitive values. */
  lemma {:induction false} RedactedIsClean(h: Heap, v: Value, depth: nat)
    requires Closed(h) && Sound(h, v)
    ensures Clean(Redacted(h, v, depth))
    ensures AtMostDeep(Redacted(h, v, depth), if depth > 11 then 0 else 11 - depth)
    decreases 11 - depth
  {
    hide MaskString, IsEmail, Sensitive;
    MaskedIsNoEmail(if v.Str? then v.s else "");
    if depth <= 10 && v.Ref? {
      match h[v.at]
      case Arr(elems) =>
        forall i | 0 <= i < |elems|
          ensures Clean(Redacted(h, elems[i], depth + 1)) && AtMostDeep(Redacted(h, elems[i], depth + 1), 10 - depth)
        {
          RedactedIsClean(h, elems[i], depth + 1);
        }
      case Obj(fields) =>
        forall k | k in fields
          ensures Clean(Redacted(h, fields[k], depth + 1)) && AtMostDeep(Redacted(h, fields[k], depth + 1), 10 - depth)
        {
          RedactedIsClean(h, fields[k], depth + 1);
        }
    }
  }

  // ---------- what comes out where ----------

  datatype Selector = Index(i: nat) | Key(k: string)

  /** The value one step further in. */
  function Child(h: Heap, v: Value, step: Selector): (r: Option<Value>)
    requires Closed(h) && Sound(h, v)
    ensures r.Some? ==> Sound(h, r.value)
  {
    if !v.Ref? then None
    else
      match (h[v.at], step)
      case (Arr(elems), Index(i)) => if i < |elems| then Some(elems[i]) else None
      case (Obj(fields), Key(k)) => if k in fields then Some(fields[k]) else None
      case _ => None
  }

  function ValueAt(h: Heap, v: Value, path: seq<Selector>): (r: Option<Value>)
    requires Closed(h) && Sound(h, v)
    ensures r.Some? ==> Sound(h, r.value)
    decreases |path|
  {
    if path == [] then Some(v)
    else
      var next := Child(h, v, path[0]);
      if next.Some? then ValueAt(h, next.value, path[1..]) else None
  }

  function TreeAt(t: Tree, path: seq<Selector>): (r: Option<Tree>) {
    if path == [] then Some(t)
    else
      match (t, path[0])
      case (ArrTree(elems), Index(i)) => if i < |elems| then TreeAt(elems[i], path[1..]) else None
      case (ObjTree(fields), Key(k)) => if k in fields then TreeAt(fields[k], path[1..]) else None
      case _ => None
  }

  /** No step of the path goes through a sensitive key or the one that is never copied. */
  predicate Open(path: seq<Selector>) {
    forall i | 0 <= i < |path| && path[i].Key? :: !Sensitive(path[i].k) && path[i].k != "__proto__"
  }

  /** What stands for `v` where `depth` steps led to it: itself, but for emails, sensitive fields and depth 11. */
  predicate StandsFor(h: Heap, v: Value, t: Tree, depth: nat)
    requires Closed(h) && Sound(h, v)
  {
    if depth >= 11 then t == Leaf(Str("[REDACTED]"))
    else if v.Ref? then
      match h[v.at]
      case Arr(elems) => t.ArrTree? && |t.elems| == |elems|
      case Obj(fields) =>
        && t.ObjTree? && t.fields.Keys == fields.Keys - {"__proto__"}
        && forall k | k in t.fields && Sensitive(k) :: t.fields[k] == Leaf(Str("[REDACTED]"))
    else if v.Str? && IsEmail(v.s) then t == Leaf(Str(MaskEmail(v.s)))
    else t == Leaf(v)
  }

  /** Along every open path the output has a place iff the input has, and there stands for what is there. */
  lemma {:induction false} RedactedAt(h: Heap, v: Value, path: seq<Selector>, depth: nat)
    requires Closed(h) && Sound(h, v) && Open(path) && depth + |path| <= 11
    ensures var found, shown := ValueAt(h, v, path), TreeAt(Redacted(h, v, depth), path);
            && (found.Some? <==> shown.Some?)
            && (found.Some? ==> StandsFor(h, found.value, shown.value, depth + |path|))
    decreases |path|
  {
    hide IsEmail, MaskEmail, Sensitive;
    if path != [] {
      var rest := path[1..];
      assert forall i | 0 <= i < |rest| :: rest[i] == path[i + 1];
      var next := Child(h, v, path[0]);
      if next.Some? {
        RedactedAt(h, next.value, rest, depth + 1);
        assert path[0].Key? ==> !Sensitive(path[0].k) && path[0].k != "__proto__";
      }
    }
  }

  /** Nothing in `v` calls for redaction. */
  predicate Harmless(h: Heap, v: Value, depth: nat)
    requires Closed(h) && Sound(h, v)
    decreases 11 - depth
  {
    && depth <= 10
    && (v.Str? ==> !IsEmail(v.s))
    && (v.Ref? ==>
          match h[v.at]
          case Arr(elems) => forall i | 0 <= i < |elems| :: Harmless(h, elems[i], depth + 1)
          case Obj(fields) =>
            forall k | k in fields :: k != "__proto__" && !Sensitive(k) && Harmless(h, fields[k], depth + 1))
  }

  /** What is harmless comes out as it is. */
  lemma {:induction false} HarmlessPasses(h: Heap, v: Value, depth: nat)
    requires Closed(h) && Sound(h, v) && Harmless(h, v, depth)
    ensures Represents(h, v, Redacted(h, v, depth))
    decreases 11 - depth
  {
    hide IsEmail, Sensitive;
    if v.Ref? {
      match h[v.at]
      case Arr(elems) =>
        forall i | 0 <= i < |elems|
          ensures Represents(h, elems[i], Redacted(h, elems[i], depth + 1))
        {
          HarmlessPasses(h, elems[i], depth + 1);
        }
      case Obj(fields) =>
        forall k | k in fields
          ensures Represents(h, fields[k], RedactedField(h, k, fields[k], depth + 1))
        {
          HarmlessPasses(h, fields[k], depth + 1);
        }
        assert RedactedFields(h, fields, depth + 1).Keys == fields.Keys;
    }
  }

  // ---------- non-interference ----------

  /**
    Two inputs agree as far as `redact` lets through: alike except beneath sensitive keys, below
    depth 10, under `__proto__`, and within what masking hides of an email.
   */
  predicate Agree(h: Heap, v: Value, h': Heap, v': Value, depth: nat)
    requires Closed(h) && Sound(h, v) && Closed(h') && Sound(h', v')
    decreases 11 - depth, 0
  {
    if depth > 10 then true
    else if v.Str? && v'.Str? then MaskString(v.s) == MaskString(v'.s)
    else if v.Ref? && v'.Ref? then
      match (h[v.at], h'[v'.at])
      case (Arr(xs), Arr(ys)) =>
        |xs| == |ys| && forall i | 0 <= i < |xs| :: Agree(h, xs[i], h', ys[i], depth + 1)
      case (Obj(f), Obj(g)) => AgreeOn(h, f, h', g, depth + 1)
      case _ => false
    else v == v' && !v.Ref?
  }

  /** Non-interference, exactly: outputs are equal iff the inputs agree on what is let through. */
  lemma {:induction false} NonInterference(h: Heap, v: Value, h': Heap, v': Value, depth: nat)
    requires Closed(h) && Sound(h, v) && Closed(h') && Sound(h', v')
    ensures Redacted(h, v, depth) == Redacted(h', v', depth) <==> Agree(h, v, h', v', depth)
    decreases 11 - depth
  {
    if depth <= 10 && v.Ref? && v'.Ref? {
      match (h[v.at], h'[v'.at])
      case (Arr(xs), Arr(ys)) => AgreeElems(h, xs, h', ys, depth);
      case (Obj(f), Obj(g)) => AgreeFields(h, f, h', g, depth);
      case _ =>
    }
  }

  lemma {:induction false} AgreeElems(h: Heap, xs: seq<Value>, h': Heap, ys: seq<Value>, depth: nat)
    requires Closed(h) && Closed(h') && depth <= 10
    requires forall i | 0 <= i < |xs| :: Sound(h, xs[i])
    requires forall i | 0 <= i < |ys| :: Sound(h', ys[i])
    ensures RedactedElems(h, xs, depth + 1) == RedactedElems(h', ys, depth + 1)
       <==> |xs| == |ys| && forall i | 0 <= i < |xs| :: Agree(h, xs[i], h', ys[i], depth + 1)
    decreases 11 - depth, 0
  {
    var a, b := RedactedElems(h, xs, depth + 1), RedactedElems(h', ys, depth + 1);
    if |xs| == |ys| {
      forall i | 0 <= i < |xs|
        ensures a[i] == b[i] <==> Agree(h, xs[i], h', ys[i], depth + 1)
      {
        NonInterference(h, xs[i], h', ys[i], depth + 1);
      }
      assert a == b <==> forall i | 0 <= i < |xs| :: a[i] == b[i];
    }
  }

  /** Equality of the kept fields, key by key. */
  lemma FieldsEqualIff(a: map<string, Tree>, b: map<string, Tree>)
    ensures a == b <==> (forall k | k in a :: k in b) && (forall k | k in b :: k in a && a[k] == b[k])
  {}

  predicate AgreeOn(h: Heap, f: map<string, Value>, h': Heap, g: map<string, Value>, depth: nat)
    requires Closed(h) && forall k | k in f :: Sound(h, f[k])
    requires Closed(h') && forall k | k in g :: Sound(h', g[k])
    decreases 11 - depth, 1
  {
    && (forall k | k in f && Kept(k) :: k in g)
    && (forall k | k in g && Kept(k) :: k in f)
    && (forall k | k in f && k in g && Kept(k) && !Sensitive(k) :: Agree(h, f[k], h', g[k], depth))
  }

  lemma {:induction false} AgreeFields(h: Heap, f: map<string, Value>, h': Heap, g: map<string, Value>, depth: nat)
    requires Closed(h) && Closed(h') && depth <= 10
    requires forall k | k in f :: Sound(h, f[k])
    requires forall k | k in g :: Sound(h', g[k])
    ensures RedactedFields(h, f, depth + 1) == RedactedFields(h', g, depth + 1) <==> AgreeOn(h, f, h', g, depth + 1)
    decreases 11 - depth, 0
  {
    var a, b := RedactedFields(h, f, depth + 1), RedactedFields(h', g, depth + 1);
    FieldsEqualIff(a, b);
    forall k | k in a && k in b
      ensures a[k] == b[k] <==> Sensitive(k) || Agree(h, f[k], h', g[k], depth + 1)
    {
      NonInterference(h, f[k], h', g[k], depth + 1);
    }
  }

  // ---------- idempotence ----------

  /** The heap value is this very tree, laid out anyhow. */
  predicate Represents(h: Heap, v: Value, t: Tree)
    requires Closed(h) && Sound(h, v)
    decreases t
  {
    match t
    case Leaf(x) => v == x && !v.Ref?
    case ArrTree(elems) =>
      && v.Ref? && h[v.at].Arr? && |h[v.at].elems| == |elems|
      && forall i | 0 <= i < |elems| :: Represents(h, h[v.at].elems[i], elems[i])
    case ObjTree(fields) =>
      && v.Ref? && h[v.at].Obj? && h[v.at].fields.Keys == fields.Keys
      && forall k | k in fields :: k in h[v.at].fields && Represents(h, h[v.at].fields[k], fields[k])
  }

  /** Redacting a redacted value again, wherever it is stored, changes nothing. */
  lemma {:induction false} Idempotent(h: Heap, v: Value, h': Heap, v': Value, depth: nat)
    requires Closed(h) && Sound(h, v) && Closed(h') && Sound(h', v')
    requires Represents(h', v', Redacted(h, v, depth))
    ensures Redacted(h', v', depth) == Redacted(h, v, depth)
    decreases 11 - depth
  {
    MaskedIsNoEmail(if v.Str? then v.s else "");
    if depth <= 10 && v.Ref? {
      match h[v.at]
      case Arr(elems) =>
        var again := h'[v'.at].elems;
        forall i | 0 <= i < |elems|
          ensures Redacted(h', again[i], depth + 1) == Redacted(h, elems[i], depth + 1)
        {
          Idempotent(h, elems[i], h', again[i], depth + 1);
        }
        assert RedactedElems(h', again, depth + 1) == RedactedElems(h, elems, depth + 1);
      case Obj(fields) =>
        var again := h'[v'.at].fields;
        var once := RedactedFields(h, fields, depth + 1);
        forall k | k in once
          ensures RedactedField(h', k, again[k], depth + 1) == once[k]
        {
          if !Sensitive(k) { Idempotent(h, fields[k], h', again[k], depth + 1); }
        }
        assert RedactedFields(h', again, depth + 1) == once;
    }
  }

  // ---------- what a masked email reveals ----------

  lemma AtSign(e: string) returns (at: nat)
    requires IsEmail(e)
    ensures 0 < at < |e| && IndexOf(e, '@') == at && e[0] != '@'
  {
    var i, dot :| 0 <= i < |e| && 0 <= dot < |e| && EmailAt(e, i, dot);
    at := i;
  }

  lemma StarsThenAt(c: char, n: nat, rest: string)
    requires c != '@'
    ensures var m := [c] + Stars(n) + "@" + rest;
            && |m| == 2 + n + |rest| && m[0] == c && IndexOf(m, '@') == 1 + n && m[2 + n..] == rest
            && forall i | 1 <= i < 1 + n :: m[i] == '*'
  {
    var m := [c] + Stars(n) + "@" + rest;
    assert forall i | 1 <= i < 1 + n :: m[i] == '*';
    assert m[1 + n] == '@';
  }

  /** A masked email keeps its first letter and its domain; everything between is stars. */
  lemma MaskShape(e: string)
    requires IsEmail(e)
    ensures var at := IndexOf(e, '@');
            && 0 < at && e[0] != '@' && |MaskEmail(e)| == 1 + StarCount(at) + |e| - at
            && IndexOf(MaskEmail(e), '@') == 1 + StarCount(at)
            && MaskEmail(e)[0] == e[0] && MaskEmail(e)[2 + StarCount(at)..] == e[at + 1..]
            && forall i | 1 <= i <= StarCount(at) :: MaskEmail(e)[i] == '*'
  {
    var at := AtSign(e);
    hide IsEmail, IndexOf, Stars;
    StarsThenAt(e[0], StarCount(at), e[at + 1..]);
    assert e[..1] == [e[0]];
  }

  /** Two emails look the same masked iff first letter, domain and masked length coincide. */
  lemma {:induction false} MaskRevealsIff(e: string, f: string)
    requires IsEmail(e) && IsEmail(f)
    ensures MaskEmail(e) == MaskEmail(f)
       <==> && e[0] == f[0]
            && StarCount(IndexOf(e, '@')) == StarCount(IndexOf(f, '@'))
            && e[IndexOf(e, '@') + 1..] == f[IndexOf(f, '@') + 1..]
  {
    hide IsEmail, IndexOf, Stars;
    MaskShape(e);
    MaskShape(f);
    assert e[..1] == [e[0]] && f[..1] == [f[0]];
  }

  /** A masked email is as long as the original, or padded to a local part of three. */
  lemma MaskKeepsLength(e: string)
    requires IsEmail(e)
    ensures |MaskEmail(e)| == if IndexOf(e, '@') < 3 then |e| + 3 - IndexOf(e, '@') else |e|
  {
    MaskShape(e);
  }

  function ThreeStars(e: string): (r: string)
    requires IndexOf(e, '@') > 0
  {
    e[..1] + "***@" + e[IndexOf(e, '@') + 1..]
  }

  /**
    First letter and three stars, the form of the comment's `user@example.com`, is what comes out if
    and only if the local part has four characters.
   */
  lemma ThreeStarsIff(e: string)
    requires IsEmail(e)
    ensures IndexOf(e, '@') > 0
    ensures MaskEmail(e) == ThreeStars(e) <==> IndexOf(e, '@') == 4
  {
    hide IsEmail, IndexOf;
    MaskShape(e);
    assert Stars(3) == "***";
    assert e[..1] + "***" + "@" + e[IndexOf(e, '@') + 1..] == ThreeStars(e);
  }

  /** A local part of three letters gets two stars. */
  lemma MaskThree(a: char, b: char, c: char, domain: string)
    requires '@' !in [a, b, c]
    ensures MaskEmail([a, b, c] + "@" + domain) == [a] + "**@" + domain
  {
    hide IndexOf;
    var e := [a, b, c] + "@" + domain;
    assert e[0] == a && e[1] == b && e[2] == c && e[3] == '@';
    assert e[4..] == domain && e[..1] == [a];
    assert Stars(2) == "**";
  }

  /** The address the unit tests use comes out one star short of what they expect. */
  lemma AdaIsOneStarShort()
    ensures MaskEmail("ada@example.com") == "a**@example.com" != "a***@example.com"
  {
    hide MaskEmail;
    MaskThree('a', 'd', 'a', "example.com");
    assert ['a', 'd', 'a'] + "@" + "example.com" == "ada@example.com";
    assert |"a**@example.com"| == 15 && |"a***@example.com"| == 16;
  }
}
