/** Runs of a node: any sequence of dispatches, and what holds throughout. */
module NodeRuns {
  import opened ConnMap
  import opened Node
  import opened NodeInv
  import opened ConnectOps
  import opened IncomingOps
  import opened BootstrapOps

  /** What reading a candidate's socket, or writing it, came to. */
  datatype Heard = Chosen(first: Reads) | NothingYet | Unexpected
  datatype Wrote = Sent(first: Reads) | Partly | Failed

  datatype Step =
    | Connect(p: Uid, oks: seq<bool>)
    | ConnectNowhere(p: Uid)
    | AttemptTimeout(t: Token)
    | ExchangeReply(c: Token, registered: bool)
    | HandshakeError(c: Token)
    | CandidateWritable(c: Token, wrote: Wrote, heard: Heard)
    | CandidateReadable(c: Token, heard: Heard)
    | Accept
    | Request(t: Token, u: Uid, ask: Ask, env: R.Setting, oks: seq<bool>, w: Written)
    | IncomingWritable(t: Token, w: Written)
    | IncomingEnds(t: Token)
    | CheckEnds(k: Token, reached: bool, w: Written)
    | ActiveReads(c: Token, r: Reads)
    | ActiveSends(c: Token, broken: bool)
    | ActiveEnds(c: Token)
    | Purge(cs: seq<Token>)
    | Bootstrap(discover: bool, oks: seq<bool>)
    | DiscoveryTimeout(oks: seq<bool>)
    | BootstrapTimeout
    | StopBootstrap
    | TryEnds(k: Token, res: TryResult, r: Reads)
    | BootstrapNotStarted(timerLeft: bool)
    | StaleTimeout

  function Hear(s: NodeState, c: Token, heard: Heard): NodeState
    requires IsHandshake(s, c) && s.states[c].Candidate?
  {
    match heard
    case Chosen(r) => WinCandidate(s, c, true, r)
    case NothingYet => s
    case Unexpected => FailHandshake(s, c)
  }

  /** The candidate's write: give way to a connection in service; the larger id writes its choice,
      the smaller reads for one. */
  function WritableCandidate(us: Uid, s: NodeState, c: Token, wrote: Wrote, heard: Heard): NodeState
    requires IsHandshake(s, c) && s.states[c].Candidate?
  {
    var p := s.states[c].peer;
    if InService(s.cm, p) then FailHandshake(s, c)
    else if us > p then
      match wrote
      case Sent(r) => WinCandidate(s, c, true, r)
      case Partly => s
      case Failed => FailHandshake(s, c)
    else Hear(s, c, heard)
  }

  predicate HeartbeatSet(w: Written) {
    w.Finished? ==> w.heartbeat
  }

  /** The step can happen in `s`. Beyond the table holding the right state, and a timeout finding its
      timer armed, this says what is assumed of the outside: heartbeat timers can be set; a choice
      read without looking at the map finds no connection in service; a peer makes one request on a
      connection; a bootstrap grant is from a peer the map knows nothing of. */
  ghost predicate Enabled(s: NodeState, e: Step) {
    match e
    case Connect(_, _) => true
    case ConnectNowhere(_) => true
    case AttemptTimeout(t) => IsAttempt(s, t) && (t, 0) in s.timers
    case ExchangeReply(c, _) => IsHandshake(s, c) && s.states[c].OutExchange?
    case HandshakeError(c) => IsHandshake(s, c)
    case CandidateWritable(c, _, _) => IsHandshake(s, c) && s.states[c].Candidate?
    case CandidateReadable(c, heard) =>
      && IsHandshake(s, c) && s.states[c].Candidate?
      && (heard.Chosen? ==> !InService(s.cm, s.states[c].peer))
    case Accept => true
    case Request(t, _, _, _, _, w) => IsIncoming(s, t) && !s.states[t].asked && HeartbeatSet(w)
    case IncomingWritable(t, w) => IsIncoming(s, t) && s.states[t].replying && HeartbeatSet(w)
    case IncomingEnds(t) => IsIncoming(s, t)
    case CheckEnds(k, _, w) => k in s.states && s.states[k].Checking? && HeartbeatSet(w)
    case ActiveReads(c, _) => c in s.states && s.states[c].Active?
    case ActiveSends(c, _) => c in s.states && s.states[c].Active?
    case ActiveEnds(c) => c in s.states && s.states[c].Active?
    case Purge(cs) => AllActive(s, cs)
    case Bootstrap(_, _) => BOOTSTRAP !in s.states
    case DiscoveryTimeout(_) => IsBootstrapping(s) && (BOOTSTRAP, DISCOVERY) in s.timers
    case BootstrapTimeout => IsBootstrapping(s)
    case StopBootstrap => IsBootstrapping(s)
    case BootstrapNotStarted(_) => BOOTSTRAP !in s.states
    case StaleTimeout => s.stale > 0
    case TryEnds(k, res, _) => k in s.states && s.states[k].TryPeer? && (res.Granted? ==> res.uid !in s.cm)
  }

  ghost function Dispatch(us: Uid, s: NodeState, e: Step): NodeState
    requires Enabled(s, e) && TokensOk(s)
  {
    match e
    case Connect(p, oks) => StartAttempt(s, p, oks)
    case ConnectNowhere(p) => s.Say(ConnectFailure(p))
    case AttemptTimeout(t) => EndAttempt(s, t)
    case ExchangeReply(c, registered) => PassExchange(s, c, registered)
    case HandshakeError(c) => FailHandshake(s, c)
    case CandidateWritable(c, wrote, heard) => WritableCandidate(us, s, c, wrote, heard)
    case CandidateReadable(c, heard) => Hear(s, c, heard)
    case Accept => OpenIncoming(s)
    case Request(t, u, ask, env, oks, w) => OnRequest(s, t, VerdictFor(us, u, ask, env), oks, w)
    case IncomingWritable(t, w) => WriteIncoming(s, t, w)
    case IncomingEnds(t) => EndIncoming(s, t)
    case CheckEnds(k, reached, w) => CheckDone(s, k, reached, w)
    case ActiveReads(c, r) => ReadActive(s, c, r)
    case ActiveSends(c, broken) => SendActive(s, c, broken)
    case ActiveEnds(c) => EndActive(s, c)
    case Purge(cs) => EndAll(s, cs)
    case Bootstrap(discover, oks) => StartBootstrap(s, discover, oks)
    case DiscoveryTimeout(oks) => Discovered(s, oks)
    case BootstrapTimeout => EndBootstrap(s).Say(BootstrapFailed)
    case StopBootstrap => EndBootstrap(s).Say(BootstrapStopped)
    case TryEnds(k, res, r) => TryDone(s, k, res, true, r)
    case BootstrapNotStarted(timerLeft) => NotStarted(s, timerLeft)
    case StaleTimeout => StaleFires(s)
  }

  // ----- Kinds of steps -----

  predicate OfAttempt(e: Step) {
    e.AttemptTimeout? || e.ExchangeReply? || e.HandshakeError? || e.CandidateWritable? || e.CandidateReadable?
        || e.Connect?
  }

  predicate OfExchange(e: Step) {
    e.Request? || e.IncomingWritable? || e.IncomingEnds? || e.CheckEnds?
  }

  predicate OfBootstrap(e: Step) {
    || e.Bootstrap? || e.DiscoveryTimeout? || e.BootstrapTimeout? || e.StopBootstrap? || e.TryEnds?
    || e.BootstrapNotStarted? || e.StaleTimeout?
  }

  // ----- Every dispatch keeps the invariant -----

  lemma HearKeeps(s: NodeState, c: Token, heard: Heard)
    requires Inv(s) && IsHandshake(s, c) && s.states[c].Candidate?
    requires heard.Chosen? ==> !InService(s.cm, s.states[c].peer)
    ensures Inv(Hear(s, c, heard))
  {
    match heard {
      case Chosen(r) => NotInService(s, s.states[c].peer); WinCandidateKeeps(s, c, r);
      case NothingYet =>
      case Unexpected => FailHandshakeKeeps(s, c);
    }
  }

  lemma WritableCandidateKeeps(us: Uid, s: NodeState, c: Token, wrote: Wrote, heard: Heard)
    requires Inv(s) && IsHandshake(s, c) && s.states[c].Candidate?
    ensures Inv(WritableCandidate(us, s, c, wrote, heard))
  {
    var p := s.states[c].peer;
    if InService(s.cm, p) {
      FailHandshakeKeeps(s, c);
    } else if us > p {
      match wrote {
        case Sent(r) => NotInService(s, p); WinCandidateKeeps(s, c, r);
        case Partly =>
        case Failed => FailHandshakeKeeps(s, c);
      }
    } else {
      HearKeeps(s, c, heard);
    }
  }

  lemma OnRequestKeeps(s: NodeState, t: Token, v: Verdict, oks: seq<bool>, w: Written)
    requires Inv(s) && IsIncoming(s, t) && !s.states[t].asked && HeartbeatSet(w)
    ensures Inv(OnRequest(s, t, v, oks, w))
  {
    match v {
      case Reject => EndIncomingKeeps(s, t);
      case Answer => ReplyIncomingKeeps(s, t, NoNext, w);
      case Grant(u, role) => ReplyIncomingKeeps(s, t, ToActive(u, role), w);
      case Introduce(u) => ReplyIncomingKeeps(s, t, ToCandidate(u), w);
      case CheckFirst(u) => CheckReachabilityKeeps(s, t, u, oks, w);
    }
  }

  lemma SendActiveKeeps(s: NodeState, c: Token, broken: bool)
    requires Inv(s) && c in s.states && s.states[c].Active?
    ensures Inv(SendActive(s, c, broken))
  {
    if broken {
      EndActiveKeeps(s, c);
      assert TimersOk(SendActive(s, c, broken));
    } else {
      assert s.timers + {(c, SEND)} == s.timers;
    }
  }

  lemma {:induction false} EndAllKeeps(s: NodeState, cs: seq<Token>)
    requires Inv(s) && AllActive(s, cs)
    ensures Inv(EndAll(s, cs))
    decreases |cs|
  {
    if cs != [] {
      EndActiveKeeps(s, cs[0]);
      EndAllKeeps(EndActive(s, cs[0]), cs[1..]);
    }
  }

  /** Exactly the listed connections leave the table. */
  lemma {:induction false} EndAllStates(s: NodeState, cs: seq<Token>)
    requires AllActive(s, cs)
    ensures EndAll(s, cs).states == s.states - (set c | c in cs)
    decreases |cs|
  {
    if cs == [] {
      assert s.states - (set c | c in cs) == s.states;
    } else {
      var rest := cs[1..];
      EndAllStates(EndActive(s, cs[0]), rest);
      assert forall c :: c in cs <==> c == cs[0] || c in rest;
      assert s.states - {cs[0]} - (set c | c in rest) == s.states - (set c | c in cs);
    }
  }

  lemma AttemptStepKeeps(us: Uid, s: NodeState, e: Step)
    requires Inv(s) && Enabled(s, e) && OfAttempt(e)
    ensures Inv(Dispatch(us, s, e))
  {
    match e {
      case Connect(p, oks) => StartAttemptKeeps(s, p, oks);
      case AttemptTimeout(t) => EndAttemptKeeps(s, t);
      case ExchangeReply(c, registered) => PassExchangeKeeps(s, c, registered);
      case HandshakeError(c) => FailHandshakeKeeps(s, c);
      case CandidateWritable(c, wrote, heard) => WritableCandidateKeeps(us, s, c, wrote, heard);
      case CandidateReadable(c, heard) => HearKeeps(s, c, heard);
    }
  }

  lemma ExchangeStepKeeps(us: Uid, s: NodeState, e: Step)
    requires Inv(s) && Enabled(s, e) && OfExchange(e)
    ensures Inv(Dispatch(us, s, e))
  {
    match e {
      case Request(t, u, ask, env, oks, w) => OnRequestKeeps(s, t, VerdictFor(us, u, ask, env), oks, w);
      case IncomingWritable(t, w) => assert Shape(s.states[t]); WriteIncomingKeeps(s, t, w);
      case IncomingEnds(t) => EndIncomingKeeps(s, t);
      case CheckEnds(k, reached, w) => CheckDoneKeeps(s, k, reached, w);
    }
  }

  lemma BootstrapStepKeeps(us: Uid, s: NodeState, e: Step)
    requires Inv(s) && Enabled(s, e) && OfBootstrap(e)
    ensures Inv(Dispatch(us, s, e))
  {
    match e {
      case Bootstrap(discover, oks) => StartBootstrapKeeps(s, discover, oks);
      case DiscoveryTimeout(oks) => DiscoveredKeeps(s, oks);
      case BootstrapTimeout => EndBootstrapSayKeeps(s, BootstrapFailed);
      case StopBootstrap => EndBootstrapSayKeeps(s, BootstrapStopped);
      case TryEnds(k, res, r) => TryDoneKeeps(s, k, res, r);
      case BootstrapNotStarted(timerLeft) => NotStartedKeeps(s, timerLeft);
      case StaleTimeout => StaleFiresKeeps(s);
    }
  }

  lemma DispatchKeeps(us: Uid, s: NodeState, e: Step)
    requires Inv(s) && Enabled(s, e)
    ensures Inv(Dispatch(us, s, e))
  {
    if OfAttempt(e) {
      AttemptStepKeeps(us, s, e);
    } else if OfExchange(e) {
      ExchangeStepKeeps(us, s, e);
    } else if OfBootstrap(e) {
      BootstrapStepKeeps(us, s, e);
    } else {
      match e {
        case ConnectNowhere(p) => SayFailureKeeps(s, p);
        case Accept => PutRootKeeps(s, InExchange(false, false, NoNext, {}));
        case ActiveReads(c, r) => ReadActiveKeeps(s, c, r);
        case ActiveSends(c, broken) => SendActiveKeeps(s, c, broken);
        case ActiveEnds(c) => EndActiveKeeps(s, c);
        case Purge(cs) => EndAllKeeps(s, cs);
      }
    }
  }

  // ----- Nothing waits in vain -----

  predicate IsWaiter(st: State) {
    st.InExchange? || st.Bootstrapping?
  }

  ghost predicate Waits(states: States) {
    forall t :: t in states ==> Waiting(states[t])
  }

  /** No exchange or bootstrap other than at `t` is new or changed. */
  ghost predicate OthersSame(states: States, states': States, t: Token) {
    forall u :: u in states' && u != t && IsWaiter(states'[u]) ==> u in states && states[u] == states'[u]
  }

  lemma WaitsOn(states: States, states': States, t: Token)
    requires Waits(states) && OthersSame(states, states', t)
    requires t in states' ==> Waiting(states'[t])
    ensures Waits(states')
  {
  }

  lemma {:induction false} LaunchExchangesOthers(s: NodeState, t: Token, oks: seq<bool>)
    requires IsAttempt(s, t) && t < s.counter
    ensures OthersSame(s.states, LaunchExchanges(s, t, oks).states, t)
  {
    if oks != [] { LaunchExchangesOthers(s, t, oks[..|oks| - 1]); }
  }

  lemma {:induction false} LaunchChecksOthers(s: NodeState, t: Token, u: Uid, oks: seq<bool>)
    requires IsIncoming(s, t) && t < s.counter
    ensures OthersSame(s.states, LaunchChecks(s, t, u, oks).states, t)
  {
    if oks != [] { LaunchChecksOthers(s, t, u, oks[..|oks| - 1]); }
  }

  lemma {:induction false} LaunchTriesOthers(s: NodeState, oks: seq<bool>)
    requires IsBootstrapping(s) && BOOTSTRAP < s.counter
    ensures OthersSame(s.states, LaunchTries(s, oks).states, BOOTSTRAP)
  {
    if oks != [] { LaunchTriesOthers(s, oks[..|oks| - 1]); }
  }

  lemma WriteIncomingWaits(s: NodeState, t: Token, w: Written)
    requires IsIncoming(s, t) && s.states[t].replying
    ensures OthersSame(s.states, WriteIncoming(s, t, w).states, t)
    ensures t in WriteIncoming(s, t, w).states ==> Waiting(WriteIncoming(s, t, w).states[t])
  {
  }

  lemma OnRequestWaits(s: NodeState, t: Token, v: Verdict, oks: seq<bool>, w: Written)
    requires IsIncoming(s, t) && t < s.counter && Waits(s.states) && (s.states[t].asked ==> s.states[t].replying)
    ensures Waits(OnRequest(s, t, v, oks, w).states)
  {
    var s' := OnRequest(s, t, v, oks, w);
    match v {
      case Reject => WaitsOn(s.states, s'.states, t);
      case Answer => WriteIncomingWaits(Settle(s, t, NoNext), t, w); WaitsOn(s.states, s'.states, t);
      case Grant(u, role) => WriteIncomingWaits(Settle(s, t, ToActive(u, role)), t, w); WaitsOn(s.states, s'.states, t);
      case Introduce(u) => WriteIncomingWaits(Settle(s, t, ToCandidate(u)), t, w); WaitsOn(s.states, s'.states, t);
      case CheckFirst(u) =>
        var s0 := s.Put(t, s.states[t].(asked := true));
        LaunchChecksOthers(s0, t, u, oks);
        var s1 := LaunchChecks(s0, t, u, oks);
        if s1.states[t].checks == {} { WriteIncomingWaits(Settle(s1, t, NoNext), t, w); }
        WaitsOn(s.states, s'.states, t);
    }
  }

  lemma CheckDoneWaits(s: NodeState, k: Token, reached: bool, w: Written)
    requires Inv(s) && Waits(s.states) && k in s.states && s.states[k].Checking?
    ensures Waits(CheckDone(s, k, reached, w).states)
  {
    assert Kin(s.states, k);
    var Checking(u, t) := s.states[k];
    var s' := CheckDone(s, k, reached, w);
    var s1 := s.Cancel(k, 0).Remove(k);
    var s2 := s1.Put(t, s1.states[t].(checks := s1.states[t].checks - {k}));
    if reached {
      WriteIncomingWaits(Settle(EndChecks(s2, t), t, ToActive(u, AsNode)), t, w);
    } else if s2.states[t].checks == {} {
      WriteIncomingWaits(Settle(s2, t, NoNext), t, w);
    }
    WaitsOn(s.states, s'.states, t);
  }

  lemma BeginBootstrapWaits(s: NodeState, s0: NodeState, oks: seq<bool>)
    requires IsBootstrapping(s0) && BOOTSTRAP < s0.counter && !s0.states[BOOTSTRAP].discovering
    requires Waits(s.states) && OthersSame(s.states, s0.states, BOOTSTRAP)
    ensures Waits(BeginBootstrap(s0, oks).states)
  {
    LaunchTriesOthers(s0, oks);
    WaitsOn(s.states, BeginBootstrap(s0, oks).states, BOOTSTRAP);
  }

  lemma FailHandshakeWaits(s: NodeState, c: Token)
    requires IsHandshake(s, c) && Waits(s.states)
    ensures Waits(FailHandshake(s, c).states)
  {
    WaitsOn(s.states, FailHandshake(s, c).states, c);
  }

  lemma WinCandidateWaits(s: NodeState, c: Token, r: Reads)
    requires IsHandshake(s, c) && s.states[c].Candidate? && Waits(s.states)
    ensures Waits(WinCandidate(s, c, true, r).states)
  {
    WaitsOn(s.states, WinCandidate(s, c, true, r).states, c);
  }

  lemma StartAttemptWaits(s: NodeState, p: Uid, oks: seq<bool>)
    requires Waits(s.states)
    ensures Waits(StartAttempt(s, p, oks).states)
  {
    var s0 := s.Skip().Put(s.counter, Connecting(p, {}, true)).Arm(s.counter, 0);
    LaunchExchangesOthers(s0, s.counter, oks);
    WaitsOn(s.states, StartAttempt(s, p, oks).states, s.counter);
  }

  lemma AttemptWaits(s: NodeState, t: Token, registered: bool)
    requires Waits(s.states)
    ensures IsAttempt(s, t) ==> Waits(EndAttempt(s, t).states)
    ensures IsHandshake(s, t) && s.states[t].OutExchange? ==> Waits(PassExchange(s, t, registered).states)
  {
    if IsAttempt(s, t) { WaitsOn(s.states, EndAttempt(s, t).states, t); }
    if IsHandshake(s, t) { FailHandshakeWaits(s, t); }
  }

  lemma HearWaits(s: NodeState, c: Token, heard: Heard)
    requires IsHandshake(s, c) && s.states[c].Candidate? && Waits(s.states)
    ensures Waits(Hear(s, c, heard).states)
  {
    match heard {
      case Chosen(r) => WinCandidateWaits(s, c, r);
      case NothingYet =>
      case Unexpected => FailHandshakeWaits(s, c);
    }
  }

  lemma WritableCandidateWaits(us: Uid, s: NodeState, c: Token, wrote: Wrote, heard: Heard)
    requires IsHandshake(s, c) && s.states[c].Candidate? && Waits(s.states)
    ensures Waits(WritableCandidate(us, s, c, wrote, heard).states)
  {
    FailHandshakeWaits(s, c);
    HearWaits(s, c, heard);
    if wrote.Sent? { WinCandidateWaits(s, c, wrote.first); }
  }

  lemma IncomingWaits(s: NodeState, t: Token, w: Written)
    requires Waits(s.states) && IsIncoming(s, t)
    ensures Waits(EndIncoming(s, t).states)
    ensures s.states[t].replying ==> Waits(WriteIncoming(s, t, w).states)
  {
    WaitsOn(s.states, EndIncoming(s, t).states, t);
    if s.states[t].replying {
      WriteIncomingWaits(s, t, w);
      WaitsOn(s.states, WriteIncoming(s, t, w).states, t);
    }
  }

  lemma ActiveWaits(s: NodeState, c: Token, r: Reads, broken: bool)
    requires Waits(s.states) && c in s.states && s.states[c].Active?
    ensures Waits(ReadActive(s, c, r).states) && Waits(SendActive(s, c, broken).states) && Waits(EndActive(s, c).states)
  {
  }

  lemma StartBootstrapWaits(s: NodeState, discover: bool, oks: seq<bool>)
    requires Waits(s.states) && BOOTSTRAP < s.counter
    ensures Waits(StartBootstrap(s, discover, oks).states)
  {
    if discover {
      WaitsOn(s.states, StartBootstrap(s, discover, oks).states, BOOTSTRAP);
    } else {
      BeginBootstrapWaits(s, s.Arm(BOOTSTRAP, 0).Put(BOOTSTRAP, Bootstrapping({}, false)).Say(BootstrapStarted), oks);
    }
  }

  lemma BootstrapWaits(s: NodeState, oks: seq<bool>)
    requires Waits(s.states) && IsBootstrapping(s) && BOOTSTRAP < s.counter
    ensures Waits(Discovered(s, oks).states) && Waits(EndBootstrap(s).states)
  {
    var b := s.states[BOOTSTRAP].(discovering := false);
    BeginBootstrapWaits(s, s.Cancel(BOOTSTRAP, DISCOVERY).Put(BOOTSTRAP, b), oks);
    WaitsOn(s.states, EndBootstrap(s).states, BOOTSTRAP);
  }

  lemma StartActiveOthers(s: NodeState, c: Token, p: Uid, role: Role, up: Event, r: Reads, t: Token)
    ensures OthersSame(s.states, StartActive(s, c, p, role, up, true, r).states, t)
  {
  }

  lemma TryDoneOthers(s: NodeState, k: Token, res: TryResult, r: Reads)
    requires k in s.states && s.states[k].TryPeer? && IsBootstrapping(s)
    ensures var s' := TryDone(s, k, res, true, r);
            && OthersSame(s.states, s'.states, BOOTSTRAP)
            && (BOOTSTRAP in s'.states ==> Waiting(s'.states[BOOTSTRAP]))
  {
    var s2 := s.Remove(k).Put(BOOTSTRAP, s.states[BOOTSTRAP].(tries := s.states[BOOTSTRAP].tries - {k}));
    assert OthersSame(s.states, s2.states, BOOTSTRAP);
    if res.Granted? {
      var s3 := EndBootstrap(s2);
      assert OthersSame(s2.states, s3.states, BOOTSTRAP);
      StartActiveOthers(s3, k, res.uid, AsNode, BootstrapConnect(res.uid), r, BOOTSTRAP);
    }
  }

  lemma TryDoneWaits(s: NodeState, k: Token, res: TryResult, r: Reads)
    requires Inv(s) && Waits(s.states) && k in s.states && s.states[k].TryPeer?
    ensures Waits(TryDone(s, k, res, true, r).states)
  {
    assert Kin(s.states, k);
    TryDoneOthers(s, k, res, r);
    WaitsOn(s.states, TryDone(s, k, res, true, r).states, BOOTSTRAP);
  }

  lemma DispatchWaits(us: Uid, s: NodeState, e: Step)
    requires Inv(s) && Waits(s.states) && Enabled(s, e)
    ensures Waits(Dispatch(us, s, e).states)
  {
    match e {
      case Connect(p, oks) => StartAttemptWaits(s, p, oks);
      case ConnectNowhere(p) =>
      case AttemptTimeout(t) => AttemptWaits(s, t, false);
      case ExchangeReply(c, registered) => AttemptWaits(s, c, registered);
      case HandshakeError(c) => FailHandshakeWaits(s, c);
      case CandidateWritable(c, wrote, heard) => WritableCandidateWaits(us, s, c, wrote, heard);
      case CandidateReadable(c, heard) => HearWaits(s, c, heard);
      case Accept =>
      case Request(t, u, ask, env, oks, w) => OnRequestWaits(s, t, VerdictFor(us, u, ask, env), oks, w);
      case IncomingWritable(t, w) => IncomingWaits(s, t, w);
      case IncomingEnds(t) => IncomingWaits(s, t, Unfinished);
      case CheckEnds(k, reached, w) => CheckDoneWaits(s, k, reached, w);
      case ActiveReads(c, r) => ActiveWaits(s, c, r, false);
      case ActiveSends(c, broken) => ActiveWaits(s, c, Reads(0, false), broken);
      case ActiveEnds(c) => ActiveWaits(s, c, Reads(0, false), false);
      case Purge(cs) => EndAllStates(s, cs);
      case Bootstrap(discover, oks) => StartBootstrapWaits(s, discover, oks);
      case DiscoveryTimeout(oks) => BootstrapWaits(s, oks);
      case BootstrapTimeout => BootstrapWaits(s, []);
      case StopBootstrap => BootstrapWaits(s, []);
      case TryEnds(k, res, r) => TryDoneWaits(s, k, res, r);
      case BootstrapNotStarted(_) =>
      case StaleTimeout => if IsBootstrapping(s) { BootstrapWaits(s, []); }
    }
  }

  // ----- Runs -----

  ghost predicate IsRun(us: Uid, ss: seq<NodeState>, es: seq<Step>) {
    && |ss| == |es| + 1
    && ss[0] == Idle
    && forall i :: 0 <= i < |es| ==> TokensOk(ss[i]) && Enabled(ss[i], es[i]) && ss[i + 1] == Dispatch(us, ss[i], es[i])
  }

  /** In every state of every run the map accounts for the table, the table is a forest, timers and
      events match, and nothing waits in vain. */
  lemma {:induction false} RunKeeps(us: Uid, ss: seq<NodeState>, es: seq<Step>, n: nat)
    requires IsRun(us, ss, es) && n < |ss|
    ensures Good(ss[n])
    decreases n
  {
    if n > 0 {
      RunKeeps(us, ss, es, n - 1);
      DispatchKeeps(us, ss[n - 1], es[n - 1]);
      DispatchWaits(us, ss[n - 1], es[n - 1]);
    }
  }
}
