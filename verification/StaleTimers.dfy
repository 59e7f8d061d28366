/** Bootstrap timers left running by bootstraps that failed to start, and what they can end. */
module StaleTimers {
  import opened ConnMap
  import opened Node
  import opened NodeInv
  import opened NodeRuns
  import opened Attempts

  // ----- Nothing else touches them -----

  lemma {:induction false} LaunchesKeep(s: NodeState, t: Token, u: Uid, oks: seq<bool>)
    requires t < s.counter
    ensures IsAttempt(s, t) ==> LaunchExchanges(s, t, oks).stale == s.stale
    ensures IsIncoming(s, t) ==> LaunchChecks(s, t, u, oks).stale == s.stale
    ensures IsBootstrapping(s) && BOOTSTRAP < s.counter ==> LaunchTries(s, oks).stale == s.stale
  {
    if oks != [] { LaunchesKeep(s, t, u, oks[..|oks| - 1]); }
  }

  lemma HandshakeKeeps(s: NodeState, c: Token, r: Reads)
    requires IsHandshake(s, c)
    ensures FailHandshake(s, c).stale == s.stale
    ensures s.states[c].Candidate? ==> WinCandidate(s, c, true, r).stale == s.stale
  {
  }

  lemma AttemptKeeps(us: Uid, s: NodeState, e: Step)
    requires TokensOk(s) && Enabled(s, e) && OfAttempt(e)
    ensures Dispatch(us, s, e).stale == s.stale
  {
    match e {
      case Connect(p, oks) =>
        LaunchesKeep(s.Skip().Put(s.counter, Connecting(p, {}, true)).Arm(s.counter, 0), s.counter, 0, oks);
      case AttemptTimeout(_) =>
      case ExchangeReply(c, _) => HandshakeKeeps(s, c, Reads(0, false));
      case HandshakeError(c) => HandshakeKeeps(s, c, Reads(0, false));
      case CandidateWritable(c, wrote, heard) =>
        HandshakeKeeps(s, c, if wrote.Sent? then wrote.first else Reads(0, false));
        HandshakeKeeps(s, c, if heard.Chosen? then heard.first else Reads(0, false));
      case CandidateReadable(c, heard) => HandshakeKeeps(s, c, if heard.Chosen? then heard.first else Reads(0, false));
    }
  }

  lemma ReplyKeeps(s: NodeState, t: Token, next: NextState, w: Written)
    requires IsIncoming(s, t)
    ensures WriteIncoming(s, t, w).stale == s.stale == ReplyIncoming(s, t, next, w).stale
  {
  }

  lemma OnRequestKeepsStale(s: NodeState, t: Token, v: Verdict, oks: seq<bool>, w: Written)
    requires IsIncoming(s, t) && t < s.counter
    ensures OnRequest(s, t, v, oks, w).stale == s.stale
  {
    match v {
      case Reject =>
      case Answer => ReplyKeeps(s, t, NoNext, w);
      case Grant(u, role) => ReplyKeeps(s, t, ToActive(u, role), w);
      case Introduce(u) => ReplyKeeps(s, t, ToCandidate(u), w);
      case CheckFirst(u) =>
        var s0 := s.Put(t, s.states[t].(asked := true));
        LaunchesKeep(s0, t, u, oks);
        ReplyKeeps(LaunchChecks(s0, t, u, oks), t, NoNext, w);
    }
  }

  lemma CheckDoneKeepsStale(s: NodeState, k: Token, reached: bool, w: Written)
    requires k in s.states && s.states[k].Checking?
    ensures CheckDone(s, k, reached, w).stale == s.stale
  {
  }

  lemma ExchangeKeeps(us: Uid, s: NodeState, e: Step)
    requires TokensOk(s) && Enabled(s, e) && OfExchange(e)
    ensures Dispatch(us, s, e).stale == s.stale
  {
    match e {
      case Request(t, u, ask, env, oks, w) => OnRequestKeepsStale(s, t, VerdictFor(us, u, ask, env), oks, w);
      case IncomingWritable(t, w) => ReplyKeeps(s, t, NoNext, w);
      case IncomingEnds(_) =>
      case CheckEnds(k, reached, w) => CheckDoneKeepsStale(s, k, reached, w);
    }
  }

  lemma BeginKeeps(s: NodeState, oks: seq<bool>)
    requires IsBootstrapping(s) && BOOTSTRAP < s.counter
    ensures BeginBootstrap(s, oks).stale == s.stale
  {
    LaunchesKeep(s, BOOTSTRAP, 0, oks);
  }

  lemma BootstrapKeeps(us: Uid, s: NodeState, e: Step)
    requires TokensOk(s) && Enabled(s, e) && OfBootstrap(e) && !e.BootstrapNotStarted? && !e.StaleTimeout?
    ensures Dispatch(us, s, e).stale == s.stale
  {
    match e {
      case Bootstrap(discover, oks) =>
        if !discover {
          BeginKeeps(s.Arm(BOOTSTRAP, 0).Put(BOOTSTRAP, Bootstrapping({}, false)).Say(BootstrapStarted), oks);
        }
      case DiscoveryTimeout(oks) =>
        BeginKeeps(s.Cancel(BOOTSTRAP, DISCOVERY).Put(BOOTSTRAP, s.states[BOOTSTRAP].(discovering := false)), oks);
      case _ =>
    }
  }

  lemma {:induction false} EndAllKeepsStale(s: NodeState, cs: seq<Token>)
    requires AllActive(s, cs)
    ensures EndAll(s, cs).stale == s.stale
    decreases |cs|
  {
    if cs != [] { EndAllKeepsStale(EndActive(s, cs[0]), cs[1..]); }
  }

  lemma OthersKeep(us: Uid, s: NodeState, e: Step)
    requires TokensOk(s) && Enabled(s, e) && !e.BootstrapNotStarted? && !e.StaleTimeout?
    ensures Dispatch(us, s, e).stale == s.stale
  {
    if OfAttempt(e) {
      AttemptKeeps(us, s, e);
    } else if OfExchange(e) {
      ExchangeKeeps(us, s, e);
    } else if OfBootstrap(e) {
      BootstrapKeeps(us, s, e);
    } else if e.Purge? {
      EndAllKeepsStale(s, e.cs);
    }
  }

  // ----- How many there are -----

  /** Starts that failed with their timer running, and such timers that have fired. */
  function LeftRunning(es: seq<Step>): nat {
    if es == [] then 0
    else LeftRunning(es[..|es| - 1]) + (if es[|es| - 1] == BootstrapNotStarted(true) then 1 else 0)
  }

  function Fired(es: seq<Step>): nat {
    if es == [] then 0 else Fired(es[..|es| - 1]) + (if es[|es| - 1] == StaleTimeout then 1 else 0)
  }

  lemma StaleStep(us: Uid, s: NodeState, e: Step)
    requires Inv(s) && Enabled(s, e)
    ensures Dispatch(us, s, e).stale
         == s.stale + (if e == BootstrapNotStarted(true) then 1 else 0) - (if e == StaleTimeout then 1 else 0)
  {
    if !e.BootstrapNotStarted? && !e.StaleTimeout? { OthersKeep(us, s, e); }
  }

  lemma {:induction false} StaleCount(us: Uid, ss: seq<NodeState>, es: seq<Step>, n: nat)
    requires IsRun(us, ss, es) && n < |ss|
    ensures ss[n].stale == LeftRunning(es[..n]) - Fired(es[..n])
    decreases n
  {
    if n > 0 {
      StaleCount(us, ss, es, n - 1);
      assert es[..n][..n - 1] == es[..n - 1];
      assert es[..n][n - 1] == es[n - 1];
      RunKeeps(us, ss, es, n - 1);
      StaleStep(us, ss[n - 1], es[n - 1]);
    }
  }

  /** In every run, a timer that is not its own can end a bootstrap if and only if more earlier starts
      failed with their timer running than such timers have fired. */
  lemma EndedByStale(us: Uid, ss: seq<NodeState>, es: seq<Step>, n: nat)
    requires IsRun(us, ss, es) && n < |ss| && IsBootstrapping(ss[n])
    ensures Enabled(ss[n], StaleTimeout) <==> LeftRunning(es[..n]) > Fired(es[..n])
  {
    StaleCount(us, ss, es, n);
  }

  /** It then ends as by its own: with all its tries, and reported as failed. */
  lemma StaleEnds(s: NodeState)
    requires Inv(s) && IsBootstrapping(s) && s.stale > 0
    ensures var s' := StaleFires(s);
            && BOOTSTRAP !in s'.states && s'.events == s.events + [BootstrapFailed]
            && forall k :: k in s'.states ==> !s'.states[k].TryPeer?
  {
    forall k | k in s.states && s.states[k].TryPeer? ensures k in s.states[BOOTSTRAP].tries {
      assert k in KidsOf(s.states, BOOTSTRAP);
    }
  }

  /** The states of the run below: one start failed, the next succeeded, and is over. */
  const Failed := NodeState(FIRST_TOKEN, map[], map[], {}, 1, [BootstrapStarted, BootstrapFailed])
  const Started := NodeState(
    FIRST_TOKEN, map[BOOTSTRAP := Bootstrapping({}, true)], map[], {(BOOTSTRAP, 0), (BOOTSTRAP, DISCOVERY)}, 1,
    [BootstrapStarted, BootstrapFailed, BootstrapStarted])
  const Over := NodeState(
    FIRST_TOKEN, map[], map[], {}, 0, [BootstrapStarted, BootstrapFailed, BootstrapStarted, BootstrapFailed])

  lemma FirstFails()
    ensures Goes(0, Idle, BootstrapNotStarted(true), Failed)
  {
  }

  lemma SecondStarts()
    ensures Goes(0, Failed, Bootstrap(true, []), Started)
  {
    assert {} + {(BOOTSTRAP, 0)} + {(BOOTSTRAP, DISCOVERY)} == Started.timers;
    assert Failed.states[BOOTSTRAP := Bootstrapping({}, true)] == Started.states;
  }

  lemma FirstsTimerFires()
    ensures Goes(0, Started, StaleTimeout, Over)
  {
    assert Started.states - {} - {BOOTSTRAP} == map[];
    assert Started.timers - {(BOOTSTRAP, 0)} - {(BOOTSTRAP, DISCOVERY)} == {};
  }

  /** A run that gets there: one start fails with its timer running, the next succeeds, and the first one's
      timer ends it. */
  lemma AnothersTimer() returns (ss: seq<NodeState>, es: seq<Step>)
    ensures IsRun(0, ss, es) && es == [BootstrapNotStarted(true), Bootstrap(true, []), StaleTimeout]
    ensures IsBootstrapping(ss[2]) && !IsBootstrapping(ss[3])
    ensures ss[3].events == [BootstrapStarted, BootstrapFailed, BootstrapStarted, BootstrapFailed]
  {
    FirstFails();
    SecondStarts();
    FirstsTimerFires();
    ss, es := [Idle, Failed, Started, Over], [BootstrapNotStarted(true), Bootstrap(true, []), StaleTimeout];
    ThreeSteps(0, ss, es);
  }
}
