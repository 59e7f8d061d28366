/** What every reachable state of a node satisfies. */
module NodeInv {
  import opened Options
  import opened ConnMap
  import opened Node

  // ----- The map against the state table -----

  predicate HandshakesWith(st: State, p: Uid) {
    match st
    case OutExchange(q, _) => p == q
    case Candidate(q, _) => p == q
    case InExchange(_, _, next, _) => NextPeer(next) == Some(p)
    case _ => false
  }

  predicate ServesPeer(st: State, p: Uid) {
    st.Active? && st.peer == p
  }

  ghost function Handshakes(states: States, p: Uid): set<Token> {
    set t | t in states && HandshakesWith(states[t], p)
  }

  ghost function Actives(states: States, p: Uid): set<Token> {
    set t | t in states && ServesPeer(states[t], p)
  }

  ghost predicate Agrees(states: States, cm: ConnectionMap, p: Uid) {
    Matches(cm, p, Handshakes(states, p), Actives(states, p))
  }

  /** The map counts, for every peer, exactly the live handshakes, and names exactly the connection
      in service; it has an entry exactly when there is one or the other. */
  ghost predicate Accounts(states: States, cm: ConnectionMap) {
    forall p :: Agrees(states, cm, p)
  }

  // ----- Parents and children -----

  function Kids(st: State): set<Token> {
    match st
    case Connecting(_, children, _) => children
    case InExchange(_, _, _, checks) => checks
    case Bootstrapping(tries, _) => tries
    case _ => {}
  }

  ghost function KidsOf(states: States, t: Token): set<Token> {
    set c | c in states && ParentOf(states[c]) == Some(t)
  }

  /** A sub-state's parent is alive and of the right kind. */
  predicate Kin(states: States, c: Token)
    requires c in states
  {
    match states[c]
    case OutExchange(p, t) => t in states && states[t].Connecting? && states[t].peer == p
    case Candidate(p, Some(t)) => t in states && states[t].Connecting? && states[t].peer == p
    case TryPeer => BOOTSTRAP in states && states[BOOTSTRAP].Bootstrapping?
    case Checking(_, t) => t in states && states[t].InExchange?
    case _ => true
  }

  /** Every parent's set is exactly its live sub-states, and no sub-state is an orphan. */
  ghost predicate Owns(states: States) {
    && (forall t :: t in states ==> Kids(states[t]) == KidsOf(states, t))
    && (forall c :: c in states ==> Kin(states, c))
  }

  // ----- Timers and tokens -----

  function TimersOf(st: State): set<nat> {
    match st
    case Connecting(_, _, armed) => if armed then {0} else {}
    case InExchange(_, _, _, _) => {0}
    case Active(_, _) => {RECV, SEND}
    case Bootstrapping(_, discovering) => if discovering then {0, DISCOVERY} else {0}
    case Checking(_, _) => {0}
    case _ => {}
  }

  /** A live state has exactly its own timers, and none of these can reach a state that comes later. (The
      timers counted by `stale` can.) */
  ghost predicate TimersOk(s: NodeState) {
    && (forall t, id :: t in s.states ==> ((t, id) in s.timers <==> id in TimersOf(s.states[t])))
    && (forall x :: x in s.timers ==> x.0 < s.counter && (x.0 in s.states || x.0 >= FIRST_TOKEN))
  }

  ghost predicate TokensOk(s: NodeState) {
    && FIRST_TOKEN <= s.counter
    && forall t :: t in s.states ==>
         && t < s.counter
         && (t == BOOTSTRAP || FIRST_TOKEN <= t)
         && (t == BOOTSTRAP <==> s.states[t].Bootstrapping?)
  }

  // ----- The order of events -----

  datatype Phase = Down | Up | Wrong

  /** One step of a peer's life as its events tell it. */
  function Next(ph: Phase, e: Event, p: Uid): Phase {
    match e
    case ConnectSuccess(u) => if u != p then ph else if ph == Down then Up else Wrong
    case BootstrapAccept(u) => if u != p then ph else if ph == Down then Up else Wrong
    case BootstrapConnect(u) => if u != p then ph else if ph == Down then Up else Wrong
    case NewMessage(u) => if u != p then ph else if ph == Up then Up else Wrong
    case LostPeer(u) => if u != p then ph else if ph == Up then Down else Wrong
    case _ => ph
  }

  function PhaseOf(events: seq<Event>, p: Uid): Phase {
    if events == [] then Down else Next(PhaseOf(events[..|events| - 1], p), events[|events| - 1], p)
  }

  ghost predicate TraceOk(states: States, events: seq<Event>) {
    forall p :: PhaseOf(events, p) == if Actives(states, p) == {} then Down else Up
  }

  datatype BsPhase = Resting | Running | Mistaken

  function NextBs(ph: BsPhase, e: Event): BsPhase {
    match e
    case BootstrapStarted => if ph == Resting then Running else Mistaken
    case BootstrapConnect(_) => if ph == Running then Resting else Mistaken
    case BootstrapFailed => if ph == Running then Resting else Mistaken
    case BootstrapStopped => if ph == Running then Resting else Mistaken
    case _ => ph
  }

  function BsPhaseOf(events: seq<Event>): BsPhase {
    if events == [] then Resting else NextBs(BsPhaseOf(events[..|events| - 1]), events[|events| - 1])
  }

  ghost predicate BsTraceOk(s: NodeState) {
    BsPhaseOf(s.events) == if BOOTSTRAP in s.states then Running else Resting
  }

  // ----- Each state on its own -----

  predicate Shape(st: State) {
    match st
    case InExchange(asked, replying, next, checks) =>
      && (!asked ==> !replying && checks == {})
      && (!replying ==> next == NoNext)
      && (replying ==> checks == {})
    case Bootstrapping(tries, discovering) => discovering ==> tries == {}
    case _ => true
  }

  /** Between dispatches nothing waits for what cannot come: a bootstrap has its discovery or a try
      pending, and an exchange that was asked has its reply or a check pending. */
  predicate Waiting(st: State) {
    match st
    case InExchange(asked, replying, _, checks) => asked && !replying ==> checks != {}
    case Bootstrapping(tries, discovering) => discovering || tries != {}
    case _ => true
  }

  ghost predicate Inv(s: NodeState) {
    && Accounts(s.states, s.cm)
    && Owns(s.states)
    && TimersOk(s)
    && TokensOk(s)
    && TraceOk(s.states, s.events)
    && BsTraceOk(s)
    && (forall t :: t in s.states ==> Shape(s.states[t]))
  }

  ghost predicate Good(s: NodeState) {
    Inv(s) && forall t :: t in s.states ==> Waiting(s.states[t])
  }

  // ----- How the sets change -----

  lemma SetsPut(states: States, t: Token, st: State, p: Uid)
    ensures Handshakes(states[t := st], p) == Handshakes(states, p) - {t} + (if HandshakesWith(st, p) then {t} else {})
    ensures Actives(states[t := st], p) == Actives(states, p) - {t} + (if ServesPeer(st, p) then {t} else {})
  {
  }

  lemma SetsRemove(states: States, ks: set<Token>, p: Uid)
    ensures Handshakes(states - ks, p) == Handshakes(states, p) - ks
    ensures Actives(states - ks, p) == Actives(states, p) - ks
  {
  }

  lemma PhaseAppend(events: seq<Event>, e: Event, p: Uid)
    ensures PhaseOf(events + [e], p) == Next(PhaseOf(events, p), e, p)
    ensures BsPhaseOf(events + [e]) == NextBs(BsPhaseOf(events), e)
  {
    assert (events + [e])[..|events|] == events;
  }

  lemma {:induction false} NewsAppend(events: seq<Event>, u: Uid, n: nat, p: Uid)
    ensures p != u || PhaseOf(events, p) == Up || n == 0 ==> PhaseOf(events + News(u, n), p) == PhaseOf(events, p)
    ensures BsPhaseOf(events + News(u, n)) == BsPhaseOf(events)
  {
    if n == 0 {
      assert events + News(u, 0) == events;
    } else {
      NewsAppend(events, u, n - 1, p);
      assert events + News(u, n) == (events + News(u, n - 1)) + [NewMessage(u)];
      PhaseAppend(events + News(u, n - 1), NewMessage(u), p);
    }
  }
}
