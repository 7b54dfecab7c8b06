/** The anti-corruption layer: Commerce Hub order replies become order results. */
module OrderResults {
  import opened Options

  datatype OrderStatus = PendingAuthorization | Authorized | Captured | Declined | FailedStatus | CancelledStatus

  datatype NextAction =
    | NoAction
    | Redirect(redirectUrl: string)
    | QrCode(qrCodeData: string)
    | DisplayVoucher(voucherNumber: string, voucherUrl: Option<string>)

  datatype OrderErrorCode =
    | VALIDATION_ERROR | AUTH_FAILED | INSUFFICIENT_FUNDS | PROVIDER_REJECTED | NETWORK_ERROR
    | TIMEOUT | RATE_LIMITED | UNKNOWN_ERROR

  datatype OrderError = OrderError(code: OrderErrorCode, message: string)

  datatype OrderResult = OrderResult(
    orderId: string, status: OrderStatus, nextAction: NextAction, error: Option<OrderError>)

  /** The fields of a reply that the mapper reads; absent and null are `None`. */
  datatype Wire = Wire(
    transactionState: Option<string>, orderId: Option<string>,
    authorization_url: Option<string>, authorizationUrl: Option<string>, redirectUrl: Option<string>,
    qrData: Option<string>, voucherNumber: Option<string>, voucherUrl: Option<string>,
    errorCode: Option<string>, errorType: Option<string>, errorMessage: Option<string>)

  function OrElse(a: Option<string>, b: Option<string>): (r: Option<string>) {
    if a.Some? then a else b
  }

  /** Present and not empty. */
  predicate Truthy(a: Option<string>) {
    a.Some? && a.value != ""
  }

  /**
    `toUpperCase` for one character. The seventeen characters beyond ASCII whose upper case contains
    ASCII letters are listed; the upper case of any other contains none, and as names are only ever
    compared with ASCII ones it is left as it is.
   */
  function UpperChar(c: char): (r: string) {
    match c
    case '\U{00DF}' => "SS"
    case '\U{0131}' => "I"
    case '\U{0149}' => "\U{02BC}N"
    case '\U{017F}' => "S"
    case '\U{01F0}' => "J\U{030C}"
    case '\U{1E96}' => "H\U{0331}"
    case '\U{1E97}' => "T\U{0308}"
    case '\U{1E98}' => "W\U{030A}"
    case '\U{1E99}' => "Y\U{030A}"
    case '\U{1E9A}' => "A\U{02BE}"
    case '\U{FB00}' => "FF"
    case '\U{FB01}' => "FI"
    case '\U{FB02}' => "FL"
    case '\U{FB03}' => "FFI"
    case '\U{FB04}' => "FFL"
    case '\U{FB05}' => "ST"
    case '\U{FB06}' => "ST"
    case _ => if 'a' <= c <= 'z' then [c - 'a' + 'A'] else [c]
  }

  function Upper(s: string): (r: string) {
    if s == "" then "" else UpperChar(s[0]) + Upper(s[1..])
  }

  predicate Includes(s: string, part: string)
    requires part != ""
  {
    if |s| < |part| then false else part <= s || Includes(s[1..], part)
  }

  function MapStatus(transactionState: Option<string>): (r: OrderStatus) {
    if !Truthy(transactionState) then FailedStatus
    else
      var s := Upper(transactionState.value);
      if s == "AUTHORIZED" || s == "APPROVED" || s == "CAPTURED_SUCCESSFUL" then Authorized
      else if s == "CAPTURED" || s == "SETTLED" || s == "COMPLETED" then Captured
      else if s == "PENDING" || s == "AUTHORIZATION_PENDING" || s == "WAITING" then PendingAuthorization
      else if s == "DECLINED" || s == "FAILED" then Declined
      else if s == "CANCELLED" || s == "VOIDED" then CancelledStatus
      else FailedStatus
  }

  function MapNextAction(w: Wire): (r: NextAction) {
    var redirect := OrElse(w.authorization_url, OrElse(w.authorizationUrl, w.redirectUrl));
    if Truthy(redirect) then Redirect(redirect.value)
    else if Truthy(w.qrData) then QrCode(w.qrData.value)
    else if Truthy(w.voucherNumber) then DisplayVoucher(w.voucherNumber.value, w.voucherUrl)
    else NoAction
  }

  function MapErrorCode(code: Option<string>, kind: Option<string>): (r: OrderErrorCode) {
    var either := OrElse(code, kind);
    var key := Upper(if either.Some? then either.value else "");
    if Includes(key, "VALIDATION") then VALIDATION_ERROR
    else if Includes(key, "AUTH") then AUTH_FAILED
    else if Includes(key, "INSUFFICIENT") then INSUFFICIENT_FUNDS
    else if Includes(key, "RATE") then RATE_LIMITED
    else if Includes(key, "TIMEOUT") then TIMEOUT
    else if Includes(key, "NETWORK") then NETWORK_ERROR
    else PROVIDER_REJECTED
  }

  function MapOrderResult(w: Wire): (r: OrderResult) {
    var status := MapStatus(w.transactionState);
    OrderResult(
      if w.orderId.Some? then w.orderId.value else "unknown",
      status,
      MapNextAction(w),
      if status == Declined || status == FailedStatus
      then Some(OrderError(MapErrorCode(w.errorCode, w.errorType),
                           if w.errorMessage.Some? then w.errorMessage.value else "Payment failed"))
      else None)
  }

  const SUCCESS_STATES: set<string> :=
    {"AUTHORIZED", "APPROVED", "CAPTURED_SUCCESSFUL", "CAPTURED", "SETTLED", "COMPLETED"}

  const PENDING_STATES: set<string> := {"PENDING", "AUTHORIZATION_PENDING", "WAITING"}

  const CANCELLED_STATES: set<string> := {"CANCELLED", "VOIDED"}

  const AUTHORIZED_STATES: set<string> := {"AUTHORIZED", "APPROVED", "CAPTURED_SUCCESSFUL"}

  const CAPTURED_STATES: set<string> := {"CAPTURED", "SETTLED", "COMPLETED"}

  const DECLINED_STATES: set<string> := {"DECLINED", "FAILED"}

  predicate IsSuccess(status: OrderStatus) {
    status == Authorized || status == Captured
  }

  /** The reply's state is one of these, in whatever case. */
  predicate Says(w: Wire, states: set<string>) {
    w.transactionState.Some? && Upper(w.transactionState.value) in states
  }

  predicate SaysSuccess(w: Wire) {
    Says(w, SUCCESS_STATES)
  }

  lemma SuccessIff(w: Wire)
    ensures IsSuccess(MapOrderResult(w).status) <==> SaysSuccess(w)
  {
    if w.transactionState.Some? && w.transactionState.value == "" {
      assert Upper("") == "";
    }
  }

  /** Every other state, also an unknown or a missing one, is an error; no error is ever a success. */
  lemma ErrorIff(w: Wire)
    ensures MapOrderResult(w).status == PendingAuthorization <==> Says(w, PENDING_STATES)
    ensures MapOrderResult(w).status == CancelledStatus <==> Says(w, CANCELLED_STATES)
    ensures MapOrderResult(w).error.Some? <==> !Says(w, SUCCESS_STATES + PENDING_STATES + CANCELLED_STATES)
  {
    if w.transactionState.Some? && w.transactionState.value == "" {
      assert Upper("") == "";
    }
  }

  // ---------- what a result tells about its reply ----------

  /** The first of several fields that is there at all, even if it is empty. */
  function FirstPresent(fields: seq<Option<string>>): (r: Option<string>) {
    if fields == [] then None else if fields[0] != None then fields[0] else FirstPresent(fields[1..])
  }

  predicate Given(field: Option<string>) {
    field != None && field != Some("")
  }

  /** Where the shopper is to be sent. */
  function RedirectField(w: Wire): (r: Option<string>) {
    FirstPresent([w.authorization_url, w.authorizationUrl, w.redirectUrl])
  }

  /** The next action is the redirect if there is one, else the QR code, else the voucher, else none. */
  predicate ActionFits(w: Wire, action: NextAction) {
    match action
    case Redirect(url) => RedirectField(w) == Some(url) && url != ""
    case QrCode(data) => !Given(RedirectField(w)) && w.qrData == Some(data) && data != ""
    case DisplayVoucher(number, url) =>
      && !Given(RedirectField(w)) && !Given(w.qrData)
      && w.voucherNumber == Some(number) && number != "" && url == w.voucherUrl
    case NoAction => !Given(RedirectField(w)) && !Given(w.qrData) && !Given(w.voucherNumber)
  }

  ghost predicate Contains(s: string, part: string) {
    exists i | 0 <= i <= |s| :: part <= s[i..]
  }

  /** In this order. */
  const KEYWORDS := [
    ("VALIDATION", VALIDATION_ERROR), ("AUTH", AUTH_FAILED), ("INSUFFICIENT", INSUFFICIENT_FUNDS),
    ("RATE", RATE_LIMITED), ("TIMEOUT", TIMEOUT), ("NETWORK", NETWORK_ERROR)]

  /** The code is that of the first keyword that the reply's error code, or lacking one its type, contains. */
  ghost predicate CodeFits(w: Wire, code: OrderErrorCode) {
    var name := FirstPresent([w.errorCode, w.errorType]);
    var key := Upper(if name.Some? then name.value else "");
    || (exists i :: 0 <= i < |KEYWORDS| && Contains(key, KEYWORDS[i].0) && code == KEYWORDS[i].1
          && forall j | 0 <= j < i :: !Contains(key, KEYWORDS[j].0))
    || (code == PROVIDER_REJECTED && forall j | 0 <= j < |KEYWORDS| :: !Contains(key, KEYWORDS[j].0))
  }

  ghost predicate ErrorFits(w: Wire, error: Option<OrderError>) {
    && (error.Some? <==> !Says(w, SUCCESS_STATES + PENDING_STATES + CANCELLED_STATES))
    && (error.Some? ==>
          && CodeFits(w, error.value.code)
          && Some(error.value.message) == FirstPresent([w.errorMessage, Some("Payment failed")]))
  }

  /** `r` says about the order what the reply says. */
  ghost predicate Reflects(w: Wire, r: OrderResult) {
    && Some(r.orderId) == FirstPresent([w.orderId, Some("unknown")])
    && (r.status == Authorized <==> Says(w, AUTHORIZED_STATES))
    && (r.status == Captured <==> Says(w, CAPTURED_STATES))
    && (r.status == PendingAuthorization <==> Says(w, PENDING_STATES))
    && (r.status == CancelledStatus <==> Says(w, CANCELLED_STATES))
    && (r.status == Declined <==> Says(w, DECLINED_STATES))
    && ActionFits(w, r.nextAction)
    && ErrorFits(w, r.error)
  }

  lemma {:induction false} IncludesIff(s: string, part: string)
    requires part != ""
    ensures Includes(s, part) <==> Contains(s, part)
    decreases |s|
  {
    if |s| >= |part| {
      IncludesIff(s[1..], part);
      assert s[0..] == s;
      assert forall i | 0 <= i <= |s[1..]| :: s[1..][i..] == s[i + 1..];
      if Contains(s[1..], part) {
        var i :| 0 <= i <= |s[1..]| && part <= s[1..][i..];
        assert part <= s[i + 1..];
      }
      if Contains(s, part) && !(part <= s) {
        var i :| 0 <= i <= |s| && part <= s[i..];
        assert part <= s[1..][i - 1..];
      }
    }
  }

  lemma FirstOfTwo(a: Option<string>, b: Option<string>)
    ensures FirstPresent([a, b]) == OrElse(a, b)
  {
    assert [a, b][1..] == [b] && [b][1..] == [];
    assert FirstPresent([b]) == b;
  }

  lemma FirstOfThree(a: Option<string>, b: Option<string>, c: Option<string>)
    ensures FirstPresent([a, b, c]) == OrElse(a, OrElse(b, c))
  {
    FirstOfTwo(b, c);
    assert [a, b, c][1..] == [b, c];
  }

  lemma ActionIs(w: Wire, action: NextAction)
    ensures ActionFits(w, action) <==> action == MapNextAction(w)
  {
    FirstOfThree(w.authorization_url, w.authorizationUrl, w.redirectUrl);
    hide FirstPresent;
  }

  lemma CodeIs(w: Wire, code: OrderErrorCode)
    ensures CodeFits(w, code) <==> code == MapErrorCode(w.errorCode, w.errorType)
  {
    FirstOfTwo(w.errorCode, w.errorType);
    hide FirstPresent, Contains, Includes, Upper;
    var name := OrElse(w.errorCode, w.errorType);
    var key := Upper(if name.Some? then name.value else "");
    forall i | 0 <= i < |KEYWORDS|
      ensures Includes(key, KEYWORDS[i].0) <==> Contains(key, KEYWORDS[i].0)
    {
      IncludesIff(key, KEYWORDS[i].0);
    }
    assert KEYWORDS[0].0 == "VALIDATION" && KEYWORDS[1].0 == "AUTH" && KEYWORDS[2].0 == "INSUFFICIENT";
    assert KEYWORDS[3].0 == "RATE" && KEYWORDS[4].0 == "TIMEOUT" && KEYWORDS[5].0 == "NETWORK";
  }

  lemma StatusIs(w: Wire)
    ensures var status := MapStatus(w.transactionState);
            && (status == Authorized <==> Says(w, AUTHORIZED_STATES))
            && (status == Captured <==> Says(w, CAPTURED_STATES))
            && (status == PendingAuthorization <==> Says(w, PENDING_STATES))
            && (status == CancelledStatus <==> Says(w, CANCELLED_STATES))
            && (status == Declined <==> Says(w, DECLINED_STATES))
            && (status in {FailedStatus, Declined} <==> !Says(w, SUCCESS_STATES + PENDING_STATES + CANCELLED_STATES))
  {
    if w.transactionState.Some? && w.transactionState.value == "" {
      assert Upper("") == "";
    }
  }

  /** A reply is mapped to the one result that reflects it. */
  lemma ReflectsIff(w: Wire, r: OrderResult)
    ensures Reflects(w, r) <==> r == MapOrderResult(w)
  {
    StatusIs(w);
    ActionIs(w, r.nextAction);
    if r.error.Some? { CodeIs(w, r.error.value.code); }
    FirstOfTwo(w.orderId, Some("unknown"));
    FirstOfTwo(w.errorMessage, Some("Payment failed"));
    hide Says, MapStatus, MapNextAction, MapErrorCode, ActionFits, CodeFits, FirstPresent;
  }

  lemma ErrorIs(w: Wire, e: OrderError)
    ensures ErrorFits(w, Some(e)) <==> MapOrderResult(w).error == Some(e)
  {
    StatusIs(w);
    CodeIs(w, e.code);
    FirstOfTwo(w.errorMessage, Some("Payment failed"));
    hide Says, MapStatus, MapNextAction, MapErrorCode, CodeFits, FirstPresent;
  }

  predicate Ascii(s: string) {
    forall i | 0 <= i < |s| :: s[i] as int < 128
  }

  /** On ASCII text the upper case differs only in the small letters, which are 32 lower. */
  lemma {:induction false} UpperAscii(s: string)
    requires Ascii(s)
    ensures |Upper(s)| == |s|
    ensures forall i | 0 <= i < |s| ::
              Upper(s)[i] as int == if 'a' <= s[i] <= 'z' then s[i] as int - 32 else s[i] as int
    decreases |s|
  {
    if s != "" {
      assert forall i | 0 <= i < |s[1..]| :: s[1..][i] == s[i + 1];
      UpperAscii(s[1..]);
    }
  }

  /** No small ASCII letter is left, whatever the text. */
  lemma {:induction false} UpperLeavesNoSmall(s: string)
    ensures forall i | 0 <= i < |Upper(s)| :: !('a' <= Upper(s)[i] <= 'z')
    decreases |s|
  {
    if s != "" { UpperLeavesNoSmall(s[1..]); }
  }
}
