/** The canonical adapter state machine: twelve states, nineteen transitions. */
module AdapterStateMachine {

  datatype State =
    | Idle | Initializing | Ready | Authorizing | Pending
    | AwaitingMerchantCapture | Capturing
    | Completed | Failed | Cancelled | AuthExpired | ScriptLoadFailed

  const TERMINAL_STATES: set<State> := {Completed, Failed, Cancelled, AuthExpired, ScriptLoadFailed}

  function LegalTransitions(from: State): (r: set<State>) {
    match from
    case Idle => {Initializing}
    case Initializing => {Ready, Failed, ScriptLoadFailed}
    case Ready => {Authorizing}
    case Authorizing => {Pending, AwaitingMerchantCapture, Completed, Failed, Cancelled}
    case Pending => {AwaitingMerchantCapture, Completed, Failed, Cancelled}
    case AwaitingMerchantCapture => {Capturing, Cancelled, AuthExpired}
    case Capturing => {Completed, Failed}
    case _ => {}
  }

  function Edges(s: State): (r: nat) {
    |LegalTransitions(s)|
  }

  /** The comment on the table says eighteen. */
  lemma NineteenTransitions()
    ensures Edges(Idle) + Edges(Initializing) + Edges(Ready) + Edges(Authorizing) + Edges(Pending)
          + Edges(AwaitingMerchantCapture) + Edges(Capturing) == 19
    ensures forall s :: IsTerminal(s) <==> Edges(s) == 0
  {
    assert Edges(Idle) == 1 && Edges(Initializing) == 3 && Edges(Ready) == 1 && Edges(Authorizing) == 5;
    assert Edges(Pending) == 4 && Edges(AwaitingMerchantCapture) == 3 && Edges(Capturing) == 2;
  }

  predicate IsTerminal(s: State) {
    s in TERMINAL_STATES
  }

  predicate Moves(from: State, to: State) {
    from != to && to in LegalTransitions(from)
  }

  /** A request moves the machine, is absorbed (same state) or is refused (IllegalTransitionError). */
  function AfterRequest(from: State, to: State): (r: State) {
    if Moves(from, to) then to else from
  }

  predicate Refused(from: State, to: State) {
    from != to && to !in LegalTransitions(from)
  }

  /** The states from which each state is entered. */
  lemma EnteredFrom(from: State, to: State)
    ensures Moves(from, to)
       <==> match to
            case Idle => false
            case Initializing => from == Idle
            case Ready => from == Initializing
            case Authorizing => from == Ready
            case Pending => from == Authorizing
            case AwaitingMerchantCapture => from == Authorizing || from == Pending
            case Capturing => from == AwaitingMerchantCapture
            case Completed => from == Authorizing || from == Pending || from == Capturing
            case Failed => from == Initializing || from == Authorizing || from == Pending || from == Capturing
            case Cancelled => from == Authorizing || from == Pending || from == AwaitingMerchantCapture
            case AuthExpired => from == AwaitingMerchantCapture
            case ScriptLoadFailed => from == Initializing
    ensures Refused(from, to) <==> from != to && !Moves(from, to)
  {}

  // ---------- runs ----------

  function AfterRequests(from: State, requests: seq<State>): (r: State) {
    if requests == [] then from
    else AfterRequest(AfterRequests(from, requests[..|requests| - 1]), requests[|requests| - 1])
  }

  function Changes(from: State, requests: seq<State>): (r: nat) {
    if requests == [] then 0
    else
      var before := requests[..|requests| - 1];
      Changes(from, before) + (if Moves(AfterRequests(from, before), requests[|requests| - 1]) then 1 else 0)
  }

  /** The longest way to a terminal state. */
  function Rank(s: State): (r: nat) {
    match s
    case Idle => 7
    case Initializing => 6
    case Ready => 5
    case Authorizing => 4
    case Pending => 3
    case AwaitingMerchantCapture => 2
    case Capturing => 1
    case _ => 0
  }

  lemma MoveLowersRank(from: State, to: State)
    requires Moves(from, to)
    ensures Rank(to) < Rank(from)
  {}

  /** Any requests, legal or not, make at most as many changes as the rank allows: seven from idle. */
  lemma {:induction false} BoundedChanges(from: State, requests: seq<State>)
    ensures Changes(from, requests) + Rank(AfterRequests(from, requests)) <= Rank(from) <= 7
    decreases |requests|
  {
    if requests != [] { BoundedChanges(from, requests[..|requests| - 1]); }
  }

  /** Seven changes do occur. */
  lemma SevenChanges()
    ensures exists requests :: Changes(Idle, requests) == 7
  {
    var r1 := [Initializing];
    var r2 := r1 + [Ready];
    var r3 := r2 + [Authorizing];
    var r4 := r3 + [Pending];
    var r5 := r4 + [AwaitingMerchantCapture];
    var r6 := r5 + [Capturing];
    var r7 := r6 + [Completed];
    assert r1[..0] == [] && r2[..1] == r1 && r3[..2] == r2 && r4[..3] == r3;
    assert r5[..4] == r4 && r6[..5] == r5 && r7[..6] == r6;
    assert Changes(Idle, r1) == 1 && AfterRequests(Idle, r1) == Initializing;
    assert Changes(Idle, r2) == 2 && AfterRequests(Idle, r2) == Ready;
    assert Changes(Idle, r3) == 3 && AfterRequests(Idle, r3) == Authorizing;
    assert Changes(Idle, r4) == 4 && AfterRequests(Idle, r4) == Pending;
    assert Changes(Idle, r5) == 5 && AfterRequests(Idle, r5) == AwaitingMerchantCapture;
    assert Changes(Idle, r6) == 6 && AfterRequests(Idle, r6) == Capturing;
    assert Changes(Idle, r7) == 7;
  }

  /** Exactly the terminal states are absorbing. */
  lemma TerminalIffAbsorbing(s: State)
    ensures IsTerminal(s) <==> forall to :: AfterRequest(s, to) == s
  {
    if !IsTerminal(s) {
      var next := match s
        case Idle => Initializing
        case Initializing => Ready
        case Ready => Authorizing
        case Authorizing => Pending
        case Pending => Completed
        case AwaitingMerchantCapture => Capturing
        case _ => Failed;
      assert Moves(s, next);
      assert AfterRequest(s, next) == next;
    }
  }

  // ---------- the object ----------

  /** An `onChange` listener; it may throw on any call. */
  class StateChangeListener {
    var notified: seq<(State, State)>
    const throws: bool

    constructor (throws: bool)
      ensures notified == [] && this.throws == throws
    {
      notified := [];
      this.throws := throws;
    }

    method Notify(from: State, to: State) returns (threw: bool)
      modifies this`notified
      ensures notified == old(notified) + [(from, to)] && threw == throws
    {
      notified := notified + [(from, to)];
      threw := throws;
    }
  }

  datatype Answer = Moved | Absorbed | IllegalTransition(from: State, to: State)

  class AdapterStateMachine {
    var state: State
    var listeners: set<StateChangeListener>

    constructor ()
      ensures state == Idle && listeners == {}
    {
      state, listeners := Idle, {};
    }

    /** Each change tells every registered listener once, even when some throw; nothing else does. */
    method Transition(to: State) returns (answer: Answer)
      modifies this`state, listeners`notified
      ensures state == AfterRequest(old(state), to)
      ensures answer == if old(state) == to then Absorbed
                        else if Refused(old(state), to) then IllegalTransition(old(state), to)
                        else Moved
      ensures forall l | l in listeners ::
                l.notified == old(l.notified) + (if answer == Moved then [(old(state), to)] else [])
    {
      if state == to { return Absorbed; }
      if to !in LegalTransitions(state) { return IllegalTransition(state, to); }
      var from := state;
      state := to;
      NotifyAll(from, to);
      answer := Moved;
    }

    method NotifyAll(from: State, to: State)
      modifies listeners`notified
      ensures forall l | l in listeners :: l.notified == old(l.notified) + [(from, to)]
    {
      var rest := listeners;
      while rest != {}
        invariant rest <= listeners
        invariant forall l | l in listeners ::
                    l.notified == old(l.notified) + (if l in rest then [] else [(from, to)])
        decreases rest
      {
        var l :| l in rest;
        var _ := l.Notify(from, to);
        rest := rest - {l};
      }
    }

    method OnChange(listener: StateChangeListener)
      modifies this`listeners
      ensures listeners == old(listeners) + {listener}
    {
      listeners := listeners + {listener};
    }
  }
}
