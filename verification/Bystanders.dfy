/** A dispatch leaves alone every attempt and every incoming exchange that it does not concern. */
module Bystanders {
  import opened Options
  import opened ConnMap
  import opened Node
  import opened NodeInv
  import opened Family
  import opened ConnectOps
  import opened IncomingOps
  import opened BootstrapOps
  import opened NodeRuns

  predicate IsRoot(st: State) {
    st.Connecting? || st.InExchange?
  }

  /** The attempts and incoming exchanges other than at `x` are the same ones, unchanged. */
  ghost predicate Spares(states: States, states': States, x: Token) {
    && (forall t :: t in states && t != x && IsRoot(states[t]) ==> t in states' && states'[t] == states[t])
    && (forall t :: t in states' && t != x && IsRoot(states'[t]) ==> t in states && states[t] == states'[t])
  }

  /** The step is about `t`, or about one of its sub-states. */
  ghost predicate Concerns(s: NodeState, e: Step, t: Token) {
    match e
    case AttemptTimeout(u) => u == t
    case ExchangeReply(c, _) => c in KidsOf(s.states, t)
    case HandshakeError(c) => c in KidsOf(s.states, t)
    case CandidateWritable(c, _, _) => c in KidsOf(s.states, t)
    case CandidateReadable(c, _) => c in KidsOf(s.states, t)
    case Request(u, _, _, _, _, _) => u == t
    case IncomingWritable(u, _) => u == t
    case IncomingEnds(u) => u == t
    case CheckEnds(k, _, _) => k in KidsOf(s.states, t)
    case _ => false
  }

  lemma SparesThen(a: States, b: States, c: States, x: Token)
    requires Spares(a, b, x) && Spares(b, c, x)
    ensures Spares(a, c, x)
  {
  }

  lemma StartActiveSpares(s: NodeState, c: Token, p: Uid, role: Role, up: Event, r: Reads, x: Token)
    requires c in s.states ==> !IsRoot(s.states[c]) || c == x
    ensures Spares(s.states, StartActive(s, c, p, role, up, true, r).states, x)
  {
  }

  // ----- Attempts -----

  lemma EndAttemptSpares(s: NodeState, t: Token)
    requires Owns(s.states) && IsAttempt(s, t)
    ensures Spares(s.states, EndAttempt(s, t).states, t)
  {
    KidsAreChildless(s.states, t);
  }

  lemma FailHandshakeSpares(s: NodeState, c: Token, x: Token)
    requires Inv(s) && IsHandshake(s, c)
             && x == (if ParentOf(s.states[c]).Some? then ParentOf(s.states[c]).value else c)
    ensures Spares(s.states, FailHandshake(s, c).states, x)
  {
    if ParentOf(s.states[c]).Some? {
      assert Kin(s.states, c);
      LoseChildKeeps(s, c, x);
      var s1 := Disown(s.Remove(c).(cm := LeaveHandshake(s.cm, s.states[c].peer)), c, x);
      assert Spares(s.states, s1.states, x);
      if s1.states[x].children == {} { EndAttemptSpares(s1, x); }
    }
  }

  lemma WinCandidateSpares(s: NodeState, c: Token, r: Reads, x: Token)
    requires Inv(s) && IsHandshake(s, c) && s.states[c].Candidate?
    requires x == (if s.states[c].parent.Some? then s.states[c].parent.value else c)
    ensures Spares(s.states, WinCandidate(s, c, true, r).states, x)
  {
    if s.states[c].parent.Some? {
      assert Kin(s.states, c);
      var p := s.states[c].peer;
      var s1 := Disown(s.Put(c, Candidate(p, None)), c, x);
      assert Owns(s1.states) by { DetachKeeps(s, c, x); }
      assert Spares(s.states, s1.states, x);
      EndAttemptSpares(s1, x);
      var s2 := EndAttempt(s1, x);
      SparesThen(s.states, s1.states, s2.states, x);
      StartActiveSpares(s2, c, p, AsNode, ConnectSuccess(p), r, x);
      SparesThen(s.states, s2.states, WinCandidate(s, c, true, r).states, x);
    } else {
      StartActiveSpares(s, c, s.states[c].peer, AsNode, ConnectSuccess(s.states[c].peer), r, x);
    }
  }

  lemma {:induction false} LaunchExchangesSpares(s: NodeState, t: Token, oks: seq<bool>)
    requires IsAttempt(s, t) && t < s.counter && (forall u :: u in s.states ==> u < s.counter)
    ensures Spares(s.states, LaunchExchanges(s, t, oks).states, t)
  {
    if oks != [] { LaunchExchangesSpares(s, t, oks[..|oks| - 1]); }
  }

  lemma StartAttemptSpares(s: NodeState, p: Uid, oks: seq<bool>)
    requires TokensOk(s)
    ensures Spares(s.states, StartAttempt(s, p, oks).states, s.counter)
  {
    var s0 := s.Skip().Put(s.counter, Connecting(p, {}, true)).Arm(s.counter, 0);
    assert Spares(s.states, s0.states, s.counter);
    LaunchExchangesSpares(s0, s.counter, oks);
  }

  // ----- Incoming exchanges -----

  lemma WriteIncomingSpares(s: NodeState, t: Token, w: Written)
    requires Owns(s.states) && TokensOk(s) && IsIncoming(s, t)
    ensures Spares(s.states, WriteIncoming(s, t, w).states, t) && Spares(s.states, EndIncoming(s, t).states, t)
  {
    ChecksAre(s, t);
  }

  lemma {:induction false} LaunchChecksSpares(s: NodeState, t: Token, u: Uid, oks: seq<bool>)
    requires IsIncoming(s, t) && t < s.counter && (forall v :: v in s.states ==> v < s.counter)
    ensures Spares(s.states, LaunchChecks(s, t, u, oks).states, t)
  {
    if oks != [] { LaunchChecksSpares(s, t, u, oks[..|oks| - 1]); }
  }

  lemma ReplyIncomingSpares(s: NodeState, t: Token, next: NextState, w: Written)
    requires Inv(s) && IsIncoming(s, t) && s.states[t].checks == {} && s.states[t].next == NoNext
    ensures Spares(s.states, ReplyIncoming(s, t, next, w).states, t)
  {
    SettleKeeps(s, t, next);
    assert Spares(s.states, Settle(s, t, next).states, t);
    WriteIncomingSpares(Settle(s, t, next), t, w);
  }

  lemma OnRequestSpares(s: NodeState, t: Token, v: Verdict, oks: seq<bool>, w: Written)
    requires Inv(s) && IsIncoming(s, t) && !s.states[t].asked
    ensures Spares(s.states, OnRequest(s, t, v, oks, w).states, t)
  {
    match v {
      case Reject => WriteIncomingSpares(s, t, w);
      case Answer => ReplyIncomingSpares(s, t, NoNext, w);
      case Grant(u, role) => ReplyIncomingSpares(s, t, ToActive(u, role), w);
      case Introduce(u) => ReplyIncomingSpares(s, t, ToCandidate(u), w);
      case CheckFirst(u) => CheckReachabilitySpares(s, t, u, oks, w);
    }
  }

  lemma CheckReachabilitySpares(s: NodeState, t: Token, u: Uid, oks: seq<bool>, w: Written)
    requires Inv(s) && IsIncoming(s, t) && !s.states[t].asked
    ensures Spares(s.states, CheckReachability(s, t, u, oks, w).states, t)
  {
    var s0 := s.Put(t, s.states[t].(asked := true));
    AskKeeps(s, t);
    LaunchChecksKeeps(s0, t, u, oks);
    LaunchChecksSpares(s0, t, u, oks);
    var s1 := LaunchChecks(s0, t, u, oks);
    SparesThen(s.states, s0.states, s1.states, t);
    if s1.states[t].checks == {} {
      ReplyIncomingSpares(s1, t, NoNext, w);
      SparesThen(s.states, s1.states, ReplyIncoming(s1, t, NoNext, w).states, t);
    }
  }

  lemma EndChecksSpares(s: NodeState, t: Token)
    requires Owns(s.states) && TokensOk(s) && IsIncoming(s, t)
    ensures Spares(s.states, EndChecks(s, t).states, t)
  {
    ChecksAre(s, t);
  }

  lemma CheckDoneSpares(s: NodeState, k: Token, reached: bool, w: Written)
    requires Inv(s) && k in s.states && s.states[k].Checking?
    ensures Spares(s.states, CheckDone(s, k, reached, w).states, s.states[k].exchange)
  {
    assert Kin(s.states, k);
    var Checking(u, t) := s.states[k];
    assert k in KidsOf(s.states, t);
    LoseCheckKeeps(s, k, t);
    var s1 := s.Cancel(k, 0).Remove(k);
    var s2 := s1.Put(t, s1.states[t].(checks := s1.states[t].checks - {k}));
    assert Spares(s.states, s2.states, t);
    assert Shape(s2.states[t]);
    if reached {
      EndChecksKeeps(s2, t);
      EndChecksSpares(s2, t);
      var s3 := EndChecks(s2, t);
      SparesThen(s.states, s2.states, s3.states, t);
      ReplyIncomingSpares(s3, t, ToActive(u, AsNode), w);
      SparesThen(s.states, s3.states, ReplyIncoming(s3, t, ToActive(u, AsNode), w).states, t);
    } else if s2.states[t].checks == {} {
      ReplyIncomingSpares(s2, t, NoNext, w);
      SparesThen(s.states, s2.states, ReplyIncoming(s2, t, NoNext, w).states, t);
    }
  }

  // ----- Bootstrapping -----

  lemma EndBootstrapSpares(s: NodeState)
    requires Owns(s.states) && TokensOk(s) && IsBootstrapping(s)
    ensures Spares(s.states, EndBootstrap(s).states, BOOTSTRAP)
  {
    TriesAre(s);
  }

  lemma {:induction false} LaunchTriesSpares(s: NodeState, oks: seq<bool>)
    requires IsBootstrapping(s) && BOOTSTRAP < s.counter && (forall u :: u in s.states ==> u < s.counter)
    ensures Spares(s.states, LaunchTries(s, oks).states, BOOTSTRAP)
  {
    if oks != [] { LaunchTriesSpares(s, oks[..|oks| - 1]); }
  }

  lemma BeginBootstrapSpares(s: NodeState, oks: seq<bool>)
    requires Inv(s) && IsBootstrapping(s) && !s.states[BOOTSTRAP].discovering
    ensures Spares(s.states, BeginBootstrap(s, oks).states, BOOTSTRAP)
  {
    LaunchTriesKeeps(s, oks);
    LaunchTriesSpares(s, oks);
    EndBootstrapSpares(LaunchTries(s, oks));
  }

  lemma TryLeavesSpares(s: NodeState, k: Token)
    requires Inv(s) && k in s.states && s.states[k].TryPeer? && IsBootstrapping(s)
    ensures var b := s.states[BOOTSTRAP];
            var s2 := s.Remove(k).Put(BOOTSTRAP, b.(tries := b.tries - {k}));
            && Spares(s.states, s2.states, BOOTSTRAP)
            && Spares(s.states, EndBootstrap(s2).states, BOOTSTRAP)
  {
    LoseTryKeeps(s, k);
    var b := s.states[BOOTSTRAP];
    var s2 := s.Remove(k).Put(BOOTSTRAP, b.(tries := b.tries - {k}));
    assert Spares(s.states, s2.states, BOOTSTRAP);
    EndBootstrapSpares(s2);
    SparesThen(s.states, s2.states, EndBootstrap(s2).states, BOOTSTRAP);
  }

  lemma TryDoneSpares(s: NodeState, k: Token, res: TryResult, r: Reads)
    requires Inv(s) && k in s.states && s.states[k].TryPeer?
    ensures Spares(s.states, TryDone(s, k, res, true, r).states, BOOTSTRAP)
  {
    assert Kin(s.states, k);
    TryLeavesSpares(s, k);
    var b := s.states[BOOTSTRAP];
    var s2 := s.Remove(k).Put(BOOTSTRAP, b.(tries := b.tries - {k}));
    if res.Granted? {
      var s3 := EndBootstrap(s2);
      var s4 := StartActive(s3, k, res.uid, AsNode, BootstrapConnect(res.uid), true, r);
      StartActiveSpares(s3, k, res.uid, AsNode, BootstrapConnect(res.uid), r, BOOTSTRAP);
      SparesThen(s.states, s3.states, s4.states, BOOTSTRAP);
      assert TryDone(s, k, res, true, r) == s4;
    } else {
      assert TryDone(s, k, res, true, r).states in {s2.states, EndBootstrap(s2).states};
    }
  }

  lemma StartBootstrapSpares(s: NodeState, discover: bool, oks: seq<bool>)
    requires Inv(s) && BOOTSTRAP !in s.states
    ensures Spares(s.states, StartBootstrap(s, discover, oks).states, BOOTSTRAP)
  {
    if !discover {
      var s0 := s.Arm(BOOTSTRAP, 0).Put(BOOTSTRAP, Bootstrapping({}, false)).Say(BootstrapStarted);
      BootstrapBegunKeeps(s, false);
      assert Spares(s.states, s0.states, BOOTSTRAP);
      BeginBootstrapSpares(s0, oks);
      SparesThen(s.states, s0.states, BeginBootstrap(s0, oks).states, BOOTSTRAP);
    }
  }

  lemma DiscoveredSpares(s: NodeState, oks: seq<bool>)
    requires Inv(s) && IsBootstrapping(s) && s.states[BOOTSTRAP].discovering
    ensures Spares(s.states, Discovered(s, oks).states, BOOTSTRAP)
  {
    var s0 := s.Cancel(BOOTSTRAP, DISCOVERY).Put(BOOTSTRAP, s.states[BOOTSTRAP].(discovering := false));
    DiscoveryOverKeeps(s);
    assert Spares(s.states, s0.states, BOOTSTRAP);
    BeginBootstrapSpares(s0, oks);
    SparesThen(s.states, s0.states, BeginBootstrap(s0, oks).states, BOOTSTRAP);
  }

  lemma StaleFiresSpares(s: NodeState)
    requires Inv(s) && s.stale > 0
    ensures Spares(s.states, StaleFires(s).states, BOOTSTRAP)
  {
    if IsBootstrapping(s) { EndBootstrapSpares(s); }
  }

  // ----- Every dispatch -----

  /** The one attempt or incoming exchange that a step may touch, or a token that is neither. */
  ghost function About(s: NodeState, e: Step): Token
    requires Enabled(s, e)
  {
    match e
    case Connect(_, _) => s.counter
    case AttemptTimeout(t) => t
    case ExchangeReply(c, _) => ParentOr(s, c)
    case HandshakeError(c) => ParentOr(s, c)
    case CandidateWritable(c, _, _) => ParentOr(s, c)
    case CandidateReadable(c, _) => ParentOr(s, c)
    case Accept => s.counter
    case Request(t, _, _, _, _, _) => t
    case IncomingWritable(t, _) => t
    case IncomingEnds(t) => t
    case CheckEnds(k, _, _) => s.states[k].exchange
    case _ => BOOTSTRAP
  }

  function ParentOr(s: NodeState, c: Token): Token
    requires c in s.states
  {
    if ParentOf(s.states[c]).Some? then ParentOf(s.states[c]).value else c
  }

  lemma PassExchangeSpares(s: NodeState, c: Token, registered: bool)
    requires Inv(s) && IsHandshake(s, c) && s.states[c].OutExchange?
    ensures Spares(s.states, PassExchange(s, c, registered).states, ParentOr(s, c))
  {
    FailHandshakeSpares(s, c, ParentOr(s, c));
  }

  lemma HearSpares(s: NodeState, c: Token, heard: Heard)
    requires Inv(s) && IsHandshake(s, c) && s.states[c].Candidate?
    ensures Spares(s.states, Hear(s, c, heard).states, ParentOr(s, c))
  {
    match heard {
      case Chosen(r) => WinCandidateSpares(s, c, r, ParentOr(s, c));
      case NothingYet =>
      case Unexpected => FailHandshakeSpares(s, c, ParentOr(s, c));
    }
  }

  lemma WritableCandidateSpares(us: Uid, s: NodeState, c: Token, wrote: Wrote, heard: Heard)
    requires Inv(s) && IsHandshake(s, c) && s.states[c].Candidate?
    ensures Spares(s.states, WritableCandidate(us, s, c, wrote, heard).states, ParentOr(s, c))
  {
    var p := s.states[c].peer;
    if InService(s.cm, p) || (us > p && wrote.Failed?) {
      FailHandshakeSpares(s, c, ParentOr(s, c));
    } else if us <= p {
      HearSpares(s, c, heard);
    } else if wrote.Sent? {
      WinCandidateSpares(s, c, wrote.first, ParentOr(s, c));
    }
  }

  lemma AttemptStepSpares(us: Uid, s: NodeState, e: Step)
    requires Inv(s) && Enabled(s, e) && OfAttempt(e)
    ensures Spares(s.states, Dispatch(us, s, e).states, About(s, e))
  {
    match e {
      case Connect(p, oks) => StartAttemptSpares(s, p, oks);
      case AttemptTimeout(t) => EndAttemptSpares(s, t);
      case ExchangeReply(c, registered) => PassExchangeSpares(s, c, registered);
      case HandshakeError(c) => FailHandshakeSpares(s, c, ParentOr(s, c));
      case CandidateWritable(c, wrote, heard) => WritableCandidateSpares(us, s, c, wrote, heard);
      case CandidateReadable(c, heard) => HearSpares(s, c, heard);
    }
  }

  lemma ExchangeStepSpares(us: Uid, s: NodeState, e: Step)
    requires Inv(s) && Enabled(s, e) && OfExchange(e)
    ensures Spares(s.states, Dispatch(us, s, e).states, About(s, e))
  {
    match e {
      case Request(t, u, ask, env, oks, w) => OnRequestSpares(s, t, VerdictFor(us, u, ask, env), oks, w);
      case IncomingWritable(t, w) => WriteIncomingSpares(s, t, w);
      case IncomingEnds(t) => WriteIncomingSpares(s, t, Broken);
      case CheckEnds(k, reached, w) => CheckDoneSpares(s, k, reached, w);
    }
  }

  lemma BootstrapStepSpares(us: Uid, s: NodeState, e: Step)
    requires Inv(s) && Enabled(s, e) && OfBootstrap(e)
    ensures Spares(s.states, Dispatch(us, s, e).states, About(s, e))
  {
    match e {
      case Bootstrap(discover, oks) => StartBootstrapSpares(s, discover, oks);
      case DiscoveryTimeout(oks) => DiscoveredSpares(s, oks);
      case BootstrapTimeout => EndBootstrapSpares(s);
      case StopBootstrap => EndBootstrapSpares(s);
      case TryEnds(k, res, r) => TryDoneSpares(s, k, res, r);
      case BootstrapNotStarted(_) =>
      case StaleTimeout => StaleFiresSpares(s);
    }
  }

  lemma DispatchSpares(us: Uid, s: NodeState, e: Step)
    requires Inv(s) && Enabled(s, e)
    ensures Spares(s.states, Dispatch(us, s, e).states, About(s, e))
  {
    if OfAttempt(e) {
      AttemptStepSpares(us, s, e);
    } else if OfExchange(e) {
      ExchangeStepSpares(us, s, e);
    } else if OfBootstrap(e) {
      BootstrapStepSpares(us, s, e);
    } else if e.Purge? {
      EndAllStates(s, e.cs);
    }
  }

  lemma NotAbout(s: NodeState, e: Step, t: Token)
    requires TokensOk(s) && Enabled(s, e) && t in s.states && IsRoot(s.states[t]) && !Concerns(s, e, t)
    ensures t != About(s, e)
  {
    assert t != BOOTSTRAP && t != s.counter;
  }

  /** An attempt or incoming exchange that a step does not concern is as it was. */
  lemma BystanderStays(us: Uid, s: NodeState, e: Step, t: Token)
    requires Inv(s) && Enabled(s, e) && t in s.states && IsRoot(s.states[t]) && !Concerns(s, e, t)
    ensures t in Dispatch(us, s, e).states && Dispatch(us, s, e).states[t] == s.states[t]
  {
    DispatchSpares(us, s, e);
    NotAbout(s, e, t);
  }

  // ----- What is new -----

  lemma HandshakeCounter(s: NodeState, c: Token, r: Reads)
    requires IsHandshake(s, c)
    ensures FailHandshake(s, c).counter == s.counter
    ensures s.states[c].Candidate? ==> WinCandidate(s, c, true, r).counter == s.counter
  {
  }

  lemma AttemptCounter(us: Uid, s: NodeState, e: Step)
    requires TokensOk(s) && Enabled(s, e) && OfAttempt(e)
    ensures s.counter <= Dispatch(us, s, e).counter
  {
    match e {
      case Connect(_, _) =>
      case AttemptTimeout(_) =>
      case ExchangeReply(c, _) => HandshakeCounter(s, c, Reads(0, false));
      case HandshakeError(c) => HandshakeCounter(s, c, Reads(0, false));
      case CandidateWritable(c, wrote, heard) =>
        HandshakeCounter(s, c, if wrote.Sent? then wrote.first else Reads(0, false));
        HandshakeCounter(s, c, if heard.Chosen? then heard.first else Reads(0, false));
      case CandidateReadable(c, heard) =>
        HandshakeCounter(s, c, if heard.Chosen? then heard.first else Reads(0, false));
    }
  }

  lemma ReplyCounter(s: NodeState, t: Token, next: NextState, w: Written)
    requires IsIncoming(s, t)
    ensures WriteIncoming(s, t, w).counter == s.counter == ReplyIncoming(s, t, next, w).counter
  {
  }

  lemma CheckDoneCounter(s: NodeState, k: Token, reached: bool, w: Written)
    requires k in s.states && s.states[k].Checking?
    ensures CheckDone(s, k, reached, w).counter == s.counter
  {
  }

  lemma OnRequestCounter(s: NodeState, t: Token, v: Verdict, oks: seq<bool>, w: Written)
    requires IsIncoming(s, t) && t < s.counter
    ensures s.counter <= OnRequest(s, t, v, oks, w).counter
  {
    match v {
      case Reject =>
      case Answer => ReplyCounter(s, t, NoNext, w);
      case Grant(u, role) => ReplyCounter(s, t, ToActive(u, role), w);
      case Introduce(u) => ReplyCounter(s, t, ToCandidate(u), w);
      case CheckFirst(u) => ReplyCounter(LaunchChecks(s.Put(t, s.states[t].(asked := true)), t, u, oks), t, NoNext, w);
    }
  }

  lemma ExchangeCounter(us: Uid, s: NodeState, e: Step)
    requires TokensOk(s) && Enabled(s, e) && OfExchange(e)
    ensures s.counter <= Dispatch(us, s, e).counter
  {
    match e {
      case Request(t, u, ask, env, oks, w) => OnRequestCounter(s, t, VerdictFor(us, u, ask, env), oks, w);
      case IncomingWritable(t, w) => ReplyCounter(s, t, NoNext, w);
      case IncomingEnds(_) =>
      case CheckEnds(k, reached, w) => CheckDoneCounter(s, k, reached, w);
    }
  }

  lemma BootstrapCounter(us: Uid, s: NodeState, e: Step)
    requires TokensOk(s) && Enabled(s, e) && OfBootstrap(e)
    ensures s.counter <= Dispatch(us, s, e).counter
  {
  }

  lemma {:induction false} EndAllCounter(s: NodeState, cs: seq<Token>)
    requires AllActive(s, cs)
    ensures EndAll(s, cs).counter == s.counter
    decreases |cs|
  {
    if cs != [] { EndAllCounter(EndActive(s, cs[0]), cs[1..]); }
  }

  lemma CounterGrows(us: Uid, s: NodeState, e: Step)
    requires TokensOk(s) && Enabled(s, e)
    ensures s.counter <= Dispatch(us, s, e).counter
  {
    if OfAttempt(e) {
      AttemptCounter(us, s, e);
    } else if OfExchange(e) {
      ExchangeCounter(us, s, e);
    } else if OfBootstrap(e) {
      BootstrapCounter(us, s, e);
    } else if e.Purge? {
      EndAllCounter(s, e.cs);
    }
  }

  lemma FailHandshakeKind(s: NodeState, c: Token)
    requires Owns(s.states) && IsHandshake(s, c)
    ensures !IsIncoming(FailHandshake(s, c), ParentOr(s, c))
  {
    assert Kin(s.states, c);
  }

  lemma WinCandidateKind(s: NodeState, c: Token, r: Reads)
    requires Owns(s.states) && IsHandshake(s, c) && s.states[c].Candidate?
    ensures !IsIncoming(WinCandidate(s, c, true, r), ParentOr(s, c))
  {
    assert Kin(s.states, c);
  }

  lemma AttemptKind(us: Uid, s: NodeState, e: Step)
    requires Inv(s) && Enabled(s, e) && OfAttempt(e)
    ensures !IsIncoming(Dispatch(us, s, e), About(s, e))
  {
    match e {
      case Connect(_, _) =>
      case AttemptTimeout(_) =>
      case ExchangeReply(c, _) => assert Kin(s.states, c); FailHandshakeKind(s, c);
      case HandshakeError(c) => FailHandshakeKind(s, c);
      case CandidateWritable(c, wrote, heard) => CandidateKind(us, s, c, wrote, heard);
      case CandidateReadable(c, heard) => HearKind(s, c, heard);
    }
  }

  lemma HearKind(s: NodeState, c: Token, heard: Heard)
    requires Owns(s.states) && IsHandshake(s, c) && s.states[c].Candidate?
    ensures !IsIncoming(Hear(s, c, heard), ParentOr(s, c))
  {
    assert Kin(s.states, c);
    FailHandshakeKind(s, c);
    if heard.Chosen? { WinCandidateKind(s, c, heard.first); }
  }

  lemma CandidateKind(us: Uid, s: NodeState, c: Token, wrote: Wrote, heard: Heard)
    requires Owns(s.states) && IsHandshake(s, c) && s.states[c].Candidate?
    ensures !IsIncoming(WritableCandidate(us, s, c, wrote, heard), ParentOr(s, c))
  {
    assert Kin(s.states, c);
    FailHandshakeKind(s, c);
    HearKind(s, c, heard);
    if wrote.Sent? { WinCandidateKind(s, c, wrote.first); }
  }

  lemma ExchangeIsIncoming(s: NodeState, e: Step)
    requires Owns(s.states) && Enabled(s, e) && OfExchange(e)
    ensures IsIncoming(s, About(s, e))
  {
    if e.CheckEnds? { assert Kin(s.states, e.k); }
  }

  lemma BootstrapIsNoExchange(us: Uid, s: NodeState, e: Step)
    requires Inv(s) && Enabled(s, e)
    ensures !IsIncoming(Dispatch(us, s, e), BOOTSTRAP)
  {
    DispatchKeeps(us, s, e);
  }

  /** An incoming exchange appears only by being accepted, under a token not used before. */
  lemma NewIncoming(us: Uid, s: NodeState, e: Step, t: Token)
    requires Inv(s) && Enabled(s, e) && !IsIncoming(s, t)
    ensures IsIncoming(Dispatch(us, s, e), t) ==> e.Accept? && t == s.counter
  {
    DispatchSpares(us, s, e);
    BootstrapIsNoExchange(us, s, e);
    if OfAttempt(e) {
      AttemptKind(us, s, e);
    } else if OfExchange(e) {
      ExchangeIsIncoming(s, e);
    }
  }
}
