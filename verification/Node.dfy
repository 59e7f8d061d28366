/** One node's event loop on values: the state table, the connection map, the armed timers and the
    events sent to the user, and what each handler does to them. The reference for `Core.Core`. */
module Node {
  import opened Options
  import opened ConnMap
  import M = Messages
  import R = Reachability

  datatype Role = AsNode | AsClient

  /** What an incoming exchange will turn into once its reply is written. */
  datatype NextState = NoNext | ToActive(uid: Uid, role: Role) | ToCandidate(uid: Uid)

  /** The state a token owns. `parent` is the state whose callback is told how it ended. */
  datatype State =
    | Connecting(peer: Uid, children: set<Token>, armed: bool)
    | OutExchange(peer: Uid, from: Token)
    | InExchange(asked: bool, replying: bool, next: NextState, checks: set<Token>)
    | Candidate(peer: Uid, parent: Option<Token>)
    | Active(peer: Uid, role: Role)
    | Bootstrapping(tries: set<Token>, discovering: bool)
    | TryPeer
    | Checking(peer: Uid, exchange: Token)

  /** `BootstrapStarted` and `BootstrapStopped` are history; the rest is sent to the user. */
  datatype Event =
    | ConnectSuccess(uid: Uid)
    | ConnectFailure(uid: Uid)
    | BootstrapAccept(uid: Uid)
    | BootstrapConnect(uid: Uid)
    | BootstrapFailed
    | NewMessage(uid: Uid)
    | LostPeer(uid: Uid)
    | BootstrapStarted
    | BootstrapStopped

  type States = map<Token, State>
  type Timer = (Token, nat)

  /** The bootstrap state always sits at this token; the loop hands out larger ones. */
  const BOOTSTRAP: Token := 0
  const FIRST_TOKEN: Token := 6

  const RECV: nat := 0
  const SEND: nat := 1
  const DISCOVERY: nat := 1

  /** `timers` are those of live states, and of tokens that will not be used again. `stale` counts bootstrap
      timers left running by bootstraps that failed to start: the next one sits at the same token. */
  datatype NodeState = NodeState(counter: Token, states: States, cm: ConnectionMap, timers: set<Timer>, stale: nat,
      events: seq<Event>) {
    function Put(t: Token, st: State): NodeState { this.(states := states[t := st]) }
    function Remove(t: Token): NodeState { this.(states := states - {t}) }
    function Say(e: Event): NodeState { this.(events := events + [e]) }
    function Arm(t: Token, id: nat): NodeState { this.(timers := timers + {(t, id)}) }
    function Cancel(t: Token, id: nat): NodeState { this.(timers := timers - {(t, id)}) }
    function Skip(): NodeState { this.(counter := counter + 1) }
  }

  const Idle := NodeState(FIRST_TOKEN, map[], map[], {}, 0, [])

  // ----- A connection in service -----

  /** How a read loop went: how many messages it passed up, and whether it ended in an error. */
  datatype Reads = Reads(messages: nat, failed: bool)

  function News(p: Uid, n: nat): seq<Event> {
    seq(n, _ => NewMessage(p))
  }

  function EndActive(s: NodeState, c: Token): NodeState
    requires c in s.states && s.states[c].Active?
  {
    var p := s.states[c].peer;
    s.Cancel(c, RECV).Cancel(c, SEND).Remove(c).(cm := Deactivate(s.cm, p)).Say(LostPeer(p))
  }

  function ReadActive(s: NodeState, c: Token, r: Reads): NodeState
    requires c in s.states && s.states[c].Active?
  {
    var s' := s.(events := s.events + News(s.states[c].peer, r.messages));
    if r.failed then EndActive(s', c) else s'
  }

  /** `heartbeat` says whether its timers could be set; if not, the peer is reported lost and the
      map is left as it was. */
  function StartActive(s: NodeState, c: Token, p: Uid, role: Role, up: Event, heartbeat: bool, r: Reads): NodeState {
    if !heartbeat then s.Remove(c).Say(LostPeer(p))
    else ReadActive(s.Put(c, Active(p, role)).Arm(c, RECV).Arm(c, SEND).(cm := Activate(s.cm, p, c)).Say(up), c, r)
  }

  /** A send from the user. A socket that breaks ends the connection, and yet its send timer is set
      afresh, for a state that is gone. */
  function SendActive(s: NodeState, c: Token, broken: bool): NodeState
    requires c in s.states && s.states[c].Active?
  {
    (if broken then EndActive(s, c) else s).Arm(c, SEND)
  }

  predicate AllActive(s: NodeState, ts: seq<Token>) {
    && (forall i :: 0 <= i < |ts| ==> ts[i] in s.states && s.states[ts[i]].Active?)
    && (forall i, j :: 0 <= i < j < |ts| ==> ts[i] != ts[j])
  }

  /** Ends the listed connections one after the other. */
  function EndAll(s: NodeState, ts: seq<Token>): NodeState
    requires AllActive(s, ts)
    decreases |ts|
  {
    if ts == [] then s else EndAll(EndActive(s, ts[0]), ts[1..])
  }

  // ----- An outgoing attempt and its sub-states -----

  predicate IsAttempt(s: NodeState, t: Token) {
    t in s.states && s.states[t].Connecting?
  }

  /** Ends every sub-state; each leaves the map. */
  function EndAttemptChildren(s: NodeState, t: Token): NodeState
    requires IsAttempt(s, t)
  {
    var a := s.states[t];
    s.(states := (s.states - a.children)[t := a.(children := {})], cm := LeaveMany(s.cm, a.peer, |a.children|))
  }

  function EndAttempt(s: NodeState, t: Token): NodeState
    requires IsAttempt(s, t)
  {
    var p := s.states[t].peer;
    var s' := EndAttemptChildren(s, t).Cancel(t, 0).Remove(t);
    if p !in s'.cm then s'.Say(ConnectFailure(p)) else s'
  }

  function MaybeEndAttempt(s: NodeState, t: Token): NodeState
    requires IsAttempt(s, t)
  {
    if s.states[t].children == {} then EndAttempt(s, t) else s
  }

  /** One more socket of an attempt: its poll registration may fail, and an attempt that has no
      sub-state at that moment gives up there and then, though it goes on to be used. */
  function LaunchExchange(s: NodeState, t: Token, registered: bool): NodeState
    requires IsAttempt(s, t)
  {
    var a := s.states[t];
    var c := s.counter;
    if registered then
      var s' := s.Skip().Put(t, a.(children := a.children + {c})).Put(c, OutExchange(a.peer, t));
      s'.(cm := EnterHandshake(s.cm, a.peer))
    else if a.children != {} then s.Skip()
    else
      var s' := s.Skip().Put(t, a.(armed := false)).Cancel(t, 0);
      if a.peer !in s.cm then s'.Say(ConnectFailure(a.peer)) else s'
  }

  function LaunchExchanges(s: NodeState, t: Token, oks: seq<bool>): (s': NodeState)
    requires IsAttempt(s, t) && t < s.counter
    ensures IsAttempt(s', t) && s'.states[t].peer == s.states[t].peer && s.counter <= s'.counter
  {
    if oks == [] then s else LaunchExchange(LaunchExchanges(s, t, oks[..|oks| - 1]), t, oks[|oks| - 1])
  }

  function StartAttempt(s: NodeState, p: Uid, oks: seq<bool>): NodeState {
    LaunchExchanges(s.Skip().Put(s.counter, Connecting(p, {}, true)).Arm(s.counter, 0), s.counter, oks)
  }

  predicate IsHandshake(s: NodeState, c: Token) {
    c in s.states && (s.states[c].OutExchange? || s.states[c].Candidate?)
  }

  function ParentOf(st: State): Option<Token> {
    match st
    case OutExchange(_, t) => Some(t)
    case Candidate(_, t) => t
    case TryPeer => Some(BOOTSTRAP)
    case Checking(_, t) => Some(t)
    case _ => None
  }

  /** A sub-state leaves the set its attempt keeps. */
  function Disown(s: NodeState, c: Token, t: Token): NodeState
    requires IsAttempt(s, t)
  {
    s.Put(t, s.states[t].(children := s.states[t].children - {c}))
  }

  /** An exchange or candidate fails: it leaves the table and the map, and its attempt hears of it. */
  function FailHandshake(s: NodeState, c: Token): NodeState
    requires IsHandshake(s, c)
  {
    var st := s.states[c];
    var s' := s.Remove(c).(cm := LeaveHandshake(s.cm, st.peer));
    match ParentOf(st)
    case Some(t) => if IsAttempt(s', t) then MaybeEndAttempt(Disown(s', c, t), t) else s'
    case None => s'
  }

  /** The outgoing exchange has its reply and goes on as a candidate, if the poll lets it. A callback
      to an attempt that is gone does nothing. */
  function PassExchange(s: NodeState, c: Token, registered: bool): NodeState
    requires IsHandshake(s, c) && s.states[c].OutExchange?
  {
    var OutExchange(p, t) := s.states[c];
    if !IsAttempt(s, t) then s.Remove(c)
    else if registered then s.Put(c, Candidate(p, Some(t)))
    else FailHandshake(s, c)
  }

  /** The candidate is the one: its attempt ends, its siblings with it, and it enters service. */
  function WinCandidate(s: NodeState, c: Token, heartbeat: bool, r: Reads): NodeState
    requires IsHandshake(s, c) && s.states[c].Candidate?
  {
    var Candidate(p, parent) := s.states[c];
    match parent
    case None => StartActive(s, c, p, AsNode, ConnectSuccess(p), heartbeat, r)
    case Some(t) =>
      if !IsAttempt(s, t) then s.Remove(c)
      else
        var s' := EndAttempt(Disown(s.Put(c, Candidate(p, None)), c, t), t);
        StartActive(s', c, p, AsNode, ConnectSuccess(p), heartbeat, r)
  }

  // ----- An incoming exchange and its reachability checks -----

  predicate IsIncoming(s: NodeState, t: Token) {
    t in s.states && s.states[t].InExchange?
  }

  function NextPeer(n: NextState): Option<Uid> {
    match n
    case NoNext => None
    case ToActive(u, _) => Some(u)
    case ToCandidate(u) => Some(u)
  }

  function OpenIncoming(s: NodeState): NodeState {
    s.Skip().Put(s.counter, InExchange(false, false, NoNext, {})).Arm(s.counter, 0)
  }

  ghost function EndChecks(s: NodeState, t: Token): NodeState
    requires IsIncoming(s, t)
  {
    var x := s.states[t];
    s.(states := (s.states - x.checks)[t := x.(checks := {})], timers := set y | y in s.timers
        && !(y.0 in x.checks && y.1 == 0))
  }

  ghost function EndIncoming(s: NodeState, t: Token): NodeState
    requires IsIncoming(s, t)
  {
    var u := NextPeer(s.states[t].next);
    var s' := EndChecks(s, t).Remove(t).Cancel(t, 0);
    if u.Some? then s'.(cm := LeaveHandshake(s.cm, u.value)) else s'
  }

  /** What a write to the socket came to. `Finished` also says whether a candidate made of the
      exchange could be registered, and how its heartbeat and first read went if it enters service. */
  datatype Written = Finished(registered: bool, heartbeat: bool, first: Reads) | Unfinished | Broken

  predicate InService(cm: ConnectionMap, u: Uid) {
    u in cm && cm[u].active.Some?
  }

  ghost function FinishIncoming(s: NodeState, t: Token, w: Written): NodeState
    requires IsIncoming(s, t) && w.Finished?
  {
    match s.states[t].next
    case NoNext => EndIncoming(s, t)
    case ToActive(u, role) => StartActive(s.Cancel(t, 0), t, u, role, BootstrapAccept(u), w.heartbeat, w.first)
    case ToCandidate(u) =>
      var s' := s.Cancel(t, 0).Put(t, Candidate(u, None));
      if w.registered then s' else s'.Remove(t).(cm := LeaveHandshake(s.cm, u))
  }

  ghost function WriteIncoming(s: NodeState, t: Token, w: Written): NodeState
    requires IsIncoming(s, t)
  {
    var next := s.states[t].next;
    if next.ToActive? && InService(s.cm, next.uid) then EndIncoming(s, t)
    else match w
         case Finished(_, _, _) => FinishIncoming(s, t, w)
         case Unfinished => s
         case Broken => EndIncoming(s, t)
  }

  /** The exchange settles on its reply; one that leads to a connection is a handshake from here on. */
  function Settle(s: NodeState, t: Token, next: NextState): NodeState
    requires IsIncoming(s, t)
  {
    var s' := s.Put(t, s.states[t].(asked := true, replying := true, next := next));
    if next.NoNext? then s' else s'.(cm := EnterHandshake(s.cm, next.uid))
  }

  ghost function ReplyIncoming(s: NodeState, t: Token, next: NextState, w: Written): NodeState
    requires IsIncoming(s, t)
  {
    WriteIncoming(Settle(s, t, next), t, w)
  }

  function LaunchCheck(s: NodeState, t: Token, u: Uid, ok: bool): NodeState
    requires IsIncoming(s, t)
  {
    var x := s.states[t];
    var k := s.counter;
    if ok then s.Skip().Put(t, x.(checks := x.checks + {k})).Put(k, Checking(u, t)).Arm(k, 0) else s.Skip()
  }

  function LaunchChecks(s: NodeState, t: Token, u: Uid, oks: seq<bool>): (s': NodeState)
    requires IsIncoming(s, t) && t < s.counter
    ensures IsIncoming(s', t) && s'.states[t] == s.states[t].(checks := s'.states[t].checks) && s.counter <= s'.counter
  {
    if oks == [] then s else LaunchCheck(LaunchChecks(s, t, u, oks[..|oks| - 1]), t, u, oks[|oks| - 1])
  }

  /** A node that must be reachable asks to bootstrap: one check per global address; none started
      is a denial. */
  ghost function CheckReachability(s: NodeState, t: Token, u: Uid, oks: seq<bool>, w: Written): NodeState
    requires IsIncoming(s, t) && t < s.counter
  {
    var s' := LaunchChecks(s.Put(t, s.states[t].(asked := true)), t, u, oks);
    if s'.states[t].checks == {} then ReplyIncoming(s', t, NoNext, w) else s'
  }

  /** A check ends: the first success settles it, and so does the last failure. */
  ghost function CheckDone(s: NodeState, k: Token, reached: bool, w: Written): NodeState
    requires k in s.states && s.states[k].Checking?
  {
    var Checking(u, t) := s.states[k];
    var s1 := s.Cancel(k, 0).Remove(k);
    if !IsIncoming(s1, t) then s1
    else
      var s2 := s1.Put(t, s1.states[t].(checks := s1.states[t].checks - {k}));
      if reached then ReplyIncoming(EndChecks(s2, t), t, ToActive(u, AsNode), w)
      else if s2.states[t].checks == {} then ReplyIncoming(s2, t, NoNext, w)
      else s2
  }

  /** What an exchange makes of the request it reads. */
  datatype Verdict =
    | Reject
    | Answer
    | Grant(uid: Uid, role: Role)
    | Introduce(uid: Uid)
    | CheckFirst(uid: Uid)

  /** What is asked of an incoming exchange. */
  datatype Ask = AskBootstrap(reachable: bool) | AskIntroduction | AskEcho | AskOther

  /** The verdict on a request from `u` at a node whose own id is `us`. */
  function VerdictFor(us: Uid, u: Uid, ask: Ask, env: R.Setting): Verdict {
    match ask
    case AskBootstrap(reachable) =>
      if !env.acceptBootstrap || u == us then Reject
      else if !env.hashMatches then Answer
      else if !reachable then if env.clientListed then Grant(u, AsClient) else Answer
      else if !env.nodeListed then Answer
      else if env.requireReachability then CheckFirst(u)
      else Grant(u, AsNode)
    case AskIntroduction => if u == us || !env.hashMatches || !env.nodeListed then Reject else Introduce(u)
    case AskEcho => if env.addrKnown then Answer else Reject
    case AskOther => Reject
  }

  ghost function OnRequest(s: NodeState, t: Token, v: Verdict, oks: seq<bool>, w: Written): NodeState
    requires IsIncoming(s, t) && t < s.counter
  {
    match v
    case Reject => EndIncoming(s, t)
    case Answer => ReplyIncoming(s, t, NoNext, w)
    case Grant(u, role) => ReplyIncoming(s, t, ToActive(u, role), w)
    case Introduce(u) => ReplyIncoming(s, t, ToCandidate(u), w)
    case CheckFirst(u) => CheckReachability(s, t, u, oks, w)
  }

  // ----- Bootstrapping -----

  predicate IsBootstrapping(s: NodeState) {
    BOOTSTRAP in s.states && s.states[BOOTSTRAP].Bootstrapping?
  }

  function EndBootstrap(s: NodeState): NodeState
    requires IsBootstrapping(s)
  {
    var b := s.states[BOOTSTRAP];
    var s' := s.(states := s.states - b.tries - {BOOTSTRAP}).Cancel(BOOTSTRAP, 0);
    if b.discovering then s'.Cancel(BOOTSTRAP, DISCOVERY) else s'
  }

  function LaunchTry(s: NodeState, ok: bool): NodeState
    requires IsBootstrapping(s)
  {
    var b := s.states[BOOTSTRAP];
    if ok then s.Skip().Put(BOOTSTRAP, b.(tries := b.tries + {s.counter})).Put(s.counter, TryPeer) else s.Skip()
  }

  function LaunchTries(s: NodeState, oks: seq<bool>): (s': NodeState)
    requires IsBootstrapping(s) && BOOTSTRAP < s.counter
    ensures IsBootstrapping(s') && s'.states[BOOTSTRAP].discovering == s.states[BOOTSTRAP].discovering
            && s.counter <= s'.counter
  {
    if oks == [] then s else LaunchTry(LaunchTries(s, oks[..|oks| - 1]), oks[|oks| - 1])
  }

  function MaybeEndBootstrap(s: NodeState): NodeState
    requires IsBootstrapping(s)
  {
    if s.states[BOOTSTRAP].tries == {} then EndBootstrap(s).Say(BootstrapFailed) else s
  }

  /** `oks` has one element per contact that is not blacklisted and gave a socket. */
  function BeginBootstrap(s: NodeState, oks: seq<bool>): NodeState
    requires IsBootstrapping(s) && BOOTSTRAP < s.counter
  {
    MaybeEndBootstrap(LaunchTries(s, oks))
  }

  function StartBootstrap(s: NodeState, discover: bool, oks: seq<bool>): NodeState
    requires BOOTSTRAP < s.counter
  {
    var s' := s.Arm(BOOTSTRAP, 0).Put(BOOTSTRAP, Bootstrapping({}, discover)).Say(BootstrapStarted);
    if discover then s'.Arm(BOOTSTRAP, DISCOVERY) else BeginBootstrap(s', oks)
  }

  /** A bootstrap that fails to start, perhaps after its timer was set, which is then left running. */
  function NotStarted(s: NodeState, timerLeft: bool): NodeState {
    s.(stale := if timerLeft then s.stale + 1 else s.stale).Say(BootstrapStarted).Say(BootstrapFailed)
  }

  /** Such a timer fires: it ends whatever bootstrap there is by then. */
  function StaleFires(s: NodeState): NodeState
    requires s.stale > 0
  {
    var s' := s.(stale := s.stale - 1);
    if IsBootstrapping(s') then EndBootstrap(s').Say(BootstrapFailed) else s'
  }

  function Discovered(s: NodeState, oks: seq<bool>): NodeState
    requires IsBootstrapping(s) && BOOTSTRAP < s.counter
  {
    BeginBootstrap(s.Cancel(BOOTSTRAP, DISCOVERY).Put(BOOTSTRAP, s.states[BOOTSTRAP].(discovering := false)), oks)
  }

  /** A try is granted, or denied for a reason the peer gives, or fails without one. */
  datatype TryResult = Granted(uid: Uid) | Denied(reason: Option<M.DenyReason>)

  /** Reasons that every other peer would give too end the bootstrap. */
  predicate Fatal(reason: Option<M.DenyReason>) {
    match reason
    case None => false
    case Some(r) => r.InvalidNameHash? || r.FailedExternalReachability?
  }

  function TryDone(s: NodeState, k: Token, res: TryResult, heartbeat: bool, r: Reads): NodeState
    requires k in s.states && s.states[k].TryPeer?
  {
    var s1 := s.Remove(k);
    if !IsBootstrapping(s1) then s1
    else
      var b := s1.states[BOOTSTRAP];
      var s2 := s1.Put(BOOTSTRAP, b.(tries := b.tries - {k}));
      match res
      case Granted(u) => StartActive(EndBootstrap(s2), k, u, AsNode, BootstrapConnect(u), heartbeat, r)
      case Denied(reason) => if Fatal(reason) then EndBootstrap(s2).Say(BootstrapFailed) else MaybeEndBootstrap(s2)
  }
}
