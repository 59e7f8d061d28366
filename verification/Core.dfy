/** The event loop's handlers as they run: tables changed in place, sets drained child by child. Each
    is proved to do what `Node` says, in whatever order it goes through a set. */
module Core {
  import opened Options
  import opened ConnMap
  import opened Node
  import opened NodeInv
  import opened Family
  import opened NodeRuns
  import Effects
  import EffectRuns

  class Core {
    var tokenCounter: Token
    var states: States
    var cm: ConnectionMap
    var timers: set<Timer>
    var stale: nat
    var events: seq<Event>

    ghost function View(): NodeState
      reads this
    {
      NodeState(tokenCounter, states, cm, timers, stale, events)
    }

    constructor ()
      ensures View() == Idle
    {
      tokenCounter, states, cm, timers, stale, events := FIRST_TOKEN, map[], map[], {}, 0, [];
    }

    method GetNewToken() returns (t: Token)
      modifies this`tokenCounter
      ensures t == old(tokenCounter) && View() == old(View()).Skip()
    {
      t := tokenCounter;
      tokenCounter := tokenCounter + 1;
    }

    // ----- Service -----

    method EndActive(c: Token)
      requires c in states && states[c].Active?
      modifies this
      ensures View() == Node.EndActive(old(View()), c)
    {
      var p := states[c].peer;
      timers := timers - {(c, RECV)};
      timers := timers - {(c, SEND)};
      states := states - {c};
      if p in cm {
        cm := cm[p := cm[p].(active := None)];
        if cm[p].handshaking == 0 {
          cm := cm - {p};
          assert cm == old(cm) - {p};
        }
      }
      events := events + [LostPeer(p)];
    }

    method SendActive(c: Token, broken: bool)
      requires c in states && states[c].Active?
      modifies this
      ensures View() == Node.SendActive(old(View()), c, broken)
    {
      if broken {
        EndActive(c);
      }
      timers := timers - {(c, SEND)} + {(c, SEND)};
    }

    /** The read loop, one message at a time. */
    method ReadActive(c: Token, r: Reads)
      requires c in states && states[c].Active?
      modifies this
      ensures View() == Node.ReadActive(old(View()), c, r)
    {
      var p := states[c].peer;
      for n := 0 to r.messages
        invariant View() == old(View()).(events := old(events) + News(p, n))
      {
        events := events + [NewMessage(p)];
        assert News(p, n) + [NewMessage(p)] == News(p, n + 1);
      }
      if r.failed {
        EndActive(c);
      }
    }

    /** Enters service under a token that has just left the table. */
    method StartActive(c: Token, p: Uid, role: Role, up: Event, heartbeat: bool, r: Reads)
      requires c !in states
      modifies this
      ensures View() == Node.StartActive(old(View()), c, p, role, up, heartbeat, r)
    {
      if !heartbeat {
        assert states - {c} == states;
        events := events + [LostPeer(p)];
        return;
      }
      timers := timers + {(c, RECV)};
      timers := timers + {(c, SEND)};
      states := states[c := Active(p, role)];
      var e := if p in cm then cm[p] else ConnectionId(None, 1);
      cm := cm[p := ConnectionId(Some(c), e.handshaking - 1)];
      events := events + [up];
      ReadActive(c, r);
    }

    // ----- Attempts -----

    /** Terminating an exchange or a candidate. */
    method EndHandshake(c: Token)
      requires IsHandshake(View(), c)
      modifies this`states, this`cm
      ensures View() == old(View()).Remove(c).(cm := LeaveHandshake(old(cm), old(states[c].peer)))
    {
      var p := states[c].peer;
      states := states - {c};
      Leave(p);
    }

    ghost predicate ChildrenLive(t: Token)
      reads this
      requires IsAttempt(View(), t)
    {
      forall c :: c in states[t].children ==> c != t && IsHandshake(View(), c) && states[c].peer == states[t].peer
    }

    /** Drains the set and terminates the sub-states one by one, in any order. */
    method EndAttemptChildren(t: Token)
      requires IsAttempt(View(), t) && ChildrenLive(t)
      modifies this`states, this`cm
      ensures View() == Node.EndAttemptChildren(old(View()), t)
    {
      var a := states[t];
      ghost var done: set<Token> := {};
      var children := a.children;
      assert states - done == states;
      while children != {}
        invariant children + done == a.children && children !! done
        invariant states == old(states) - done && t in states && states[t] == a
        invariant cm == LeaveMany(old(cm), a.peer, |done|)
        decreases children
      {
        var c :| c in children;
        children := children - {c};
        assert IsHandshake(old(View()), c);
        EndHandshake(c);
        assert |done + {c}| == |done| + 1;
        done := done + {c};
        assert states == old(states) - done;
      }
      assert done == a.children;
      states := states[t := a.(children := {})];
    }

    method EndAttempt(t: Token)
      requires IsAttempt(View(), t) && ChildrenLive(t)
      modifies this
      ensures View() == Node.EndAttempt(old(View()), t)
    {
      var p := states[t].peer;
      EndAttemptChildren(t);
      timers := timers - {(t, 0)};
      states := states - {t};
      if p !in cm {
        events := events + [ConnectFailure(p)];
      }
    }

    /** One socket of an attempt that is not in the table yet. */
    method LaunchOne(t: Token, p: Uid, ok: bool, children: set<Token>, armed: bool) returns (children': set<Token>,
        armed': bool)
      requires t < tokenCounter
      modifies this
      ensures tokenCounter == old(tokenCounter) + 1
      ensures View().Put(t, Connecting(p, children', armed')) ==
              LaunchExchange(old(View()).Put(t, Connecting(p, children, armed)), t, ok)
    {
      var c := GetNewToken();
      children', armed' := children, armed;
      if ok {
        var e := if p in cm then cm[p] else ConnectionId(None, 0);
        cm := cm[p := e.(handshaking := e.handshaking + 1)];
        states := states[c := OutExchange(p, t)];
        children' := children + {c};
        PutTwice(old(states), t, Connecting(p, children, armed), Connecting(p, children', armed), c, OutExchange(p, t));
      } else if children == {} {
        timers := timers - {(t, 0)};
        armed' := false;
        if p !in cm {
          events := events + [ConnectFailure(p)];
        }
      }
    }

    /** Starting an attempt: its own state goes into the table only after its sub-states. */
    method StartConnect(p: Uid, oks: seq<bool>)
      modifies this
      ensures View() == StartAttempt(old(View()), p, oks)
    {
      var t := GetNewToken();
      timers := timers + {(t, 0)};
      var children: set<Token>, armed := {}, true;
      ghost var s0 := View().Put(t, Connecting(p, {}, true));
      for i := 0 to |oks|
        invariant t < tokenCounter
        invariant View().Put(t, Connecting(p, children, armed)) == LaunchExchanges(s0, t, oks[..i])
      {
        assert oks[..i + 1][..i] == oks[..i];
        children, armed := LaunchOne(t, p, oks[i], children, armed);
      }
      assert oks[..|oks|] == oks;
      states := states[t := Connecting(p, children, armed)];
    }

    method MaybeEndAttempt(t: Token)
      requires IsAttempt(View(), t)
      modifies this
      ensures View() == Node.MaybeEndAttempt(old(View()), t)
    {
      if states[t].children == {} {
        EndAttempt(t);
      }
    }

    /** The callback of a sub-state that ended without a connection. */
    method HandleEnded(c: Token, parent: Option<Token>)
      requires c !in states
      modifies this
      ensures var s := old(View());
              View() == if parent.Some? && IsAttempt(s, parent.value)
                        then Node.MaybeEndAttempt(Disown(s, c, parent.value), parent.value) else s
    {
      if parent.Some? && parent.value in states && states[parent.value].Connecting? {
        var t := parent.value;
        states := states[t := states[t].(children := states[t].children - {c})];
        MaybeEndAttempt(t);
      }
    }

    method FailHandshake(c: Token)
      requires IsHandshake(View(), c)
      modifies this
      ensures View() == Node.FailHandshake(old(View()), c)
    {
      var parent := ParentOf(states[c]);
      EndHandshake(c);
      HandleEnded(c, parent);
    }

    /** The exchange leaves the table, and its attempt makes a candidate of it under the same token. */
    method PassExchange(c: Token, registered: bool)
      requires Owns(states) && IsHandshake(View(), c) && states[c].OutExchange?
      modifies this
      ensures View() == Node.PassExchange(old(View()), c, registered)
    {
      var p, t := states[c].peer, states[c].from;
      assert Kin(states, c) && c in KidsOf(states, t);
      states := states - {c};
      if t in states && states[t].Connecting? {
        var a := states[t];
        states := states[t := a.(children := a.children - {c})];
        states := states[c := Candidate(p, Some(t))];
        if registered {
          states := states[t := a.(children := a.children - {c} + {c})];
          assert a.children - {c} + {c} == a.children;
          assert states == old(states)[c := Candidate(p, Some(t))];
        } else {
          EndHandshake(c);
          assert states == (old(states) - {c})[t := a.(children := a.children - {c})];
          MaybeEndAttempt(t);
        }
      }
    }

    /** The candidate leaves the table, its attempt ends with all the others, and it enters service. */
    method WinCandidate(c: Token, heartbeat: bool, r: Reads)
      requires Inv(View()) && IsHandshake(View(), c) && states[c].Candidate?
      modifies this
      ensures View() == Node.WinCandidate(old(View()), c, heartbeat, r)
    {
      var p, parent := states[c].peer, states[c].parent;
      ghost var s := View();
      states := states - {c};
      if parent.None? {
        StartActiveIgnores(s, s.Remove(c), c, p, AsNode, ConnectSuccess(p), heartbeat, r);
        StartActive(c, p, AsNode, ConnectSuccess(p), heartbeat, r);
      } else if parent.value in states && states[parent.value].Connecting? {
        var t := parent.value;
        states := states[t := states[t].(children := states[t].children - {c})];
        WinnerChildren(s, c, t, View());
        ghost var s1 := Disown(s.Put(c, Candidate(p, None)), c, t);
        EndAttemptWithout(s1, View(), t, c);
        EndAttempt(t);
        StartActiveIgnores(Node.EndAttempt(s1, t), View(), c, p, AsNode, ConnectSuccess(p), heartbeat, r);
        StartActive(c, p, AsNode, ConnectSuccess(p), heartbeat, r);
      }
    }

    // ----- Incoming exchanges -----

    method OpenIncoming()
      modifies this
      ensures View() == Node.OpenIncoming(old(View()))
    {
      var t := GetNewToken();
      timers := timers + {(t, 0)};
      states := states[t := InExchange(false, false, NoNext, {})];
    }

    /** Drains the set of checks and terminates each, in any order. */
    method EndChecks(t: Token)
      requires IsIncoming(View(), t) && t !in states[t].checks
      modifies this`states, this`timers
      ensures View() == Node.EndChecks(old(View()), t)
    {
      var x := states[t];
      ghost var done: set<Token> := {};
      var checks := x.checks;
      assert states - done == states;
      while checks != {}
        invariant checks + done == x.checks && checks !! done
        invariant states == old(states) - done && t in states && states[t] == x
        invariant timers == set y | y in old(timers) && !(y.0 in done && y.1 == 0)
        decreases checks
      {
        var k :| k in checks;
        checks := checks - {k};
        timers := timers - {(k, 0)};
        states := states - {k};
        done := done + {k};
        assert states == old(states) - done;
      }
      assert done == x.checks;
      states := states[t := x.(checks := {})];
    }

    method EndIncoming(t: Token)
      requires IsIncoming(View(), t) && t !in states[t].checks
      modifies this
      ensures View() == Node.EndIncoming(old(View()), t)
    {
      var next := states[t].next;
      EndChecks(t);
      states := states - {t};
      if !next.NoNext? {
        Leave(next.uid);
      }
      timers := timers - {(t, 0)};
    }

    method Leave(p: Uid)
      modifies this`cm
      ensures cm == LeaveHandshake(old(cm), p)
    {
      if p in cm {
        cm := cm[p := cm[p].(handshaking := cm[p].handshaking - 1)];
        if cm[p].handshaking == 0 && cm[p].active.None? {
          cm := cm - {p};
          assert cm == old(cm) - {p};
        }
      }
    }

    /** Done writing: out of the table, timer off, and on to what was settled on. */
    method FinishIncoming(t: Token, w: Written)
      requires IsIncoming(View(), t) && states[t].checks == {} && w.Finished?
      modifies this
      ensures View() == Node.FinishIncoming(old(View()), t, w)
    {
      ghost var s := View();
      var next := states[t].next;
      match next {
        case NoNext =>
          EndIncoming(t);
        case ToActive(u, role) =>
          states := states - {t};
          timers := timers - {(t, 0)};
          StartActiveIgnores(s.Cancel(t, 0), View(), t, u, role, BootstrapAccept(u), w.heartbeat, w.first);
          StartActive(t, u, role, BootstrapAccept(u), w.heartbeat, w.first);
        case ToCandidate(u) =>
          states := states - {t};
          timers := timers - {(t, 0)};
          states := states[t := Candidate(u, None)];
          assert states == old(states)[t := Candidate(u, None)];
          if !w.registered {
            EndHandshake(t);
          }
      }
    }

    method WriteIncoming(t: Token, w: Written)
      requires IsIncoming(View(), t) && states[t].checks == {}
      modifies this
      ensures View() == Node.WriteIncoming(old(View()), t, w)
    {
      var next := states[t].next;
      if next.ToActive? && next.uid in cm && cm[next.uid].active.Some? {
        EndIncoming(t);
        return;
      }
      match w {
        case Finished(_, _, _) => FinishIncoming(t, w);
        case Unfinished =>
        case Broken => EndIncoming(t);
      }
    }

    method ReplyIncoming(t: Token, next: NextState, w: Written)
      requires IsIncoming(View(), t) && states[t].checks == {}
      modifies this
      ensures View() == Node.ReplyIncoming(old(View()), t, next, w)
    {
      if !next.NoNext? {
        var e := if next.uid in cm then cm[next.uid] else ConnectionId(None, 0);
        cm := cm[next.uid := e.(handshaking := e.handshaking + 1)];
      }
      states := states[t := states[t].(asked := true, replying := true, next := next)];
      assert View() == Settle(old(View()), t, next);
      WriteIncoming(t, w);
    }

    /** One check per address that takes one; none at all is a denial. */
    method CheckReachability(t: Token, u: Uid, oks: seq<bool>, w: Written)
      requires IsIncoming(View(), t) && t < tokenCounter && states[t].checks == {}
      modifies this
      ensures View() == Node.CheckReachability(old(View()), t, u, oks, w)
    {
      states := states[t := states[t].(asked := true)];
      ghost var s0 := View();
      for i := 0 to |oks|
        invariant View() == LaunchChecks(s0, t, u, oks[..i])
      {
        assert oks[..i + 1][..i] == oks[..i];
        var k := GetNewToken();
        if oks[i] {
          timers := timers + {(k, 0)};
          states := states[t := states[t].(checks := states[t].checks + {k})];
          states := states[k := Checking(u, t)];
        }
      }
      assert oks[..|oks|] == oks;
      if states[t].checks == {} {
        ReplyIncoming(t, NoNext, w);
      }
    }

    method OnRequest(t: Token, v: Verdict, oks: seq<bool>, w: Written)
      requires IsIncoming(View(), t) && t < tokenCounter && states[t].checks == {}
      modifies this
      ensures View() == Node.OnRequest(old(View()), t, v, oks, w)
    {
      match v {
        case Reject => EndIncoming(t);
        case Answer => ReplyIncoming(t, NoNext, w);
        case Grant(u, role) => ReplyIncoming(t, ToActive(u, role), w);
        case Introduce(u) => ReplyIncoming(t, ToCandidate(u), w);
        case CheckFirst(u) => CheckReachability(t, u, oks, w);
      }
    }

    /** A check ends; the first success ends the others and settles it, and so does the last failure. */
    method CheckDone(k: Token, reached: bool, w: Written)
      requires Owns(states) && k in states && states[k].Checking?
      modifies this
      ensures View() == Node.CheckDone(old(View()), k, reached, w)
    {
      var u, t := states[k].peer, states[k].exchange;
      assert Kin(states, k);
      assert t !in states[t].checks by { assert t !in KidsOf(states, t); }
      timers := timers - {(k, 0)};
      states := states - {k};
      if t in states && states[t].InExchange? {
        states := states[t := states[t].(checks := states[t].checks - {k})];
        if reached {
          EndChecks(t);
          ReplyIncoming(t, ToActive(u, AsNode), w);
        } else if states[t].checks == {} {
          ReplyIncoming(t, NoNext, w);
        }
      }
    }

    // ----- Bootstrapping -----

    method EndBootstrap()
      requires IsBootstrapping(View()) && BOOTSTRAP !in states[BOOTSTRAP].tries
      modifies this`states, this`timers
      ensures View() == Node.EndBootstrap(old(View()))
    {
      var b := states[BOOTSTRAP];
      ghost var done: set<Token> := {};
      var tries := b.tries;
      assert states - done == states;
      while tries != {}
        invariant tries + done == b.tries && tries !! done
        invariant states == old(states) - done && timers == old(timers)
        decreases tries
      {
        var k :| k in tries;
        tries := tries - {k};
        states := states - {k};
        done := done + {k};
        assert states == old(states) - done;
      }
      assert done == b.tries;
      if b.discovering {
        timers := timers - {(BOOTSTRAP, DISCOVERY)};
      }
      states := states - {BOOTSTRAP};
      timers := timers - {(BOOTSTRAP, 0)};
    }

    method MaybeEndBootstrap()
      requires IsBootstrapping(View())
      modifies this
      ensures View() == Node.MaybeEndBootstrap(old(View()))
    {
      if states[BOOTSTRAP].tries == {} {
        EndBootstrap();
        events := events + [BootstrapFailed];
      }
    }

    method BeginBootstrap(oks: seq<bool>)
      requires IsBootstrapping(View()) && BOOTSTRAP < tokenCounter
      modifies this
      ensures View() == Node.BeginBootstrap(old(View()), oks)
    {
      ghost var s0 := View();
      for i := 0 to |oks|
        invariant View() == LaunchTries(s0, oks[..i])
      {
        assert oks[..i + 1][..i] == oks[..i];
        var k := GetNewToken();
        if oks[i] {
          states := states[BOOTSTRAP := states[BOOTSTRAP].(tries := states[BOOTSTRAP].tries + {k})];
          states := states[k := TryPeer];
        }
      }
      assert oks[..|oks|] == oks;
      MaybeEndBootstrap();
    }

    method StartBootstrap(discover: bool, oks: seq<bool>)
      requires BOOTSTRAP < tokenCounter
      modifies this
      ensures View() == Node.StartBootstrap(old(View()), discover, oks)
    {
      timers := timers + {(BOOTSTRAP, 0)};
      if discover {
        timers := timers + {(BOOTSTRAP, DISCOVERY)};
      }
      states := states[BOOTSTRAP := Bootstrapping({}, discover)];
      events := events + [BootstrapStarted];
      if !discover {
        BeginBootstrap(oks);
      }
    }

    /** The caller reports the failure; the timer, if it was set, is nobody's to cancel. */
    method FailToStart(timerLeft: bool)
      modifies this`stale, this`events
      ensures View() == NotStarted(old(View()), timerLeft)
    {
      if timerLeft {
        stale := stale + 1;
      }
      events := events + [BootstrapStarted];
      events := events + [BootstrapFailed];
    }

    method FireStale()
      requires stale > 0 && (IsBootstrapping(View()) ==> BOOTSTRAP !in states[BOOTSTRAP].tries)
      modifies this
      ensures View() == StaleFires(old(View()))
    {
      stale := stale - 1;
      if BOOTSTRAP in states && states[BOOTSTRAP].Bootstrapping? {
        EndBootstrap();
        events := events + [BootstrapFailed];
      }
    }

    method DiscoveryTimeout(oks: seq<bool>)
      requires IsBootstrapping(View()) && BOOTSTRAP < tokenCounter
      modifies this
      ensures View() == Discovered(old(View()), oks)
    {
      timers := timers - {(BOOTSTRAP, DISCOVERY)};
      states := states[BOOTSTRAP := states[BOOTSTRAP].(discovering := false)];
      BeginBootstrap(oks);
    }

    /** A try ends. A grant ends the bootstrap with every other try; so does a fatal denial, and the
        last of the others. */
    method TryDone(k: Token, res: TryResult, heartbeat: bool, r: Reads)
      requires Owns(states) && k in states && states[k].TryPeer?
      modifies this
      ensures View() == Node.TryDone(old(View()), k, res, heartbeat, r)
    {
      assert Kin(states, k);
      assert BOOTSTRAP !in states[BOOTSTRAP].tries by { assert BOOTSTRAP !in KidsOf(states, BOOTSTRAP); }
      states := states - {k};
      if BOOTSTRAP in states && states[BOOTSTRAP].Bootstrapping? {
        var b := states[BOOTSTRAP];
        states := states[BOOTSTRAP := b.(tries := b.tries - {k})];
        match res {
          case Granted(u) =>
            EndBootstrap();
            StartActive(k, u, AsNode, BootstrapConnect(u), heartbeat, r);
          case Denied(reason) =>
            if reason.Some? && (reason.value.InvalidNameHash? || reason.value.FailedExternalReachability?) {
              EndBootstrap();
              events := events + [BootstrapFailed];
            } else {
              MaybeEndBootstrap();
            }
        }
      }
    }

    // ----- Dispatch -----

    method Hear(c: Token, heard: Heard)
      requires Inv(View()) && IsHandshake(View(), c) && states[c].Candidate?
      modifies this
      ensures View() == NodeRuns.Hear(old(View()), c, heard)
    {
      match heard {
        case Chosen(r) => WinCandidate(c, true, r);
        case NothingYet =>
        case Unexpected => FailHandshake(c);
      }
    }

    method WritableCandidate(us: Uid, c: Token, wrote: Wrote, heard: Heard)
      requires Inv(View()) && IsHandshake(View(), c) && states[c].Candidate?
      modifies this
      ensures View() == NodeRuns.WritableCandidate(us, old(View()), c, wrote, heard)
    {
      var p := states[c].peer;
      if p in cm && cm[p].active.Some? {
        FailHandshake(c);
      } else if us > p {
        match wrote {
          case Sent(r) => WinCandidate(c, true, r);
          case Partly =>
          case Failed => FailHandshake(c);
        }
      } else {
        Hear(c, heard);
      }
    }

    method EndAll(cs: seq<Token>)
      requires AllActive(View(), cs)
      modifies this
      ensures View() == Node.EndAll(old(View()), cs)
    {
      for i := 0 to |cs|
        invariant AllActive(View(), cs[i..])
        invariant Node.EndAll(View(), cs[i..]) == Node.EndAll(old(View()), cs)
      {
        assert cs[i..][0] == cs[i] && cs[i..][1..] == cs[i + 1..];
        EndActive(cs[i]);
      }
    }

    /** One dispatch of the loop: it does what the model of a node says, which is the effect its step is to
        have, and so keeps everything that holds in every reachable state. */
    method Dispatch(us: Uid, e: Step)
      requires Good(View()) && Enabled(View(), e)
      modifies this
      ensures View() == NodeRuns.Dispatch(us, old(View()), e)
      ensures Effects.Does(old(View()), Effects.EffectOf(us, old(View()), e), View())
      ensures Good(View())
    {
      EffectRuns.DispatchDoes(us, View(), e);
      DispatchKeeps(us, View(), e);
      DispatchWaits(us, View(), e);
      Run(us, e);
    }

    method RunAttempt(us: Uid, e: Step)
      requires Inv(View()) && Enabled(View(), e) && OfAttempt(e)
      modifies this
      ensures View() == NodeRuns.Dispatch(us, old(View()), e)
    {
      match e {
        case Connect(p, oks) => StartConnect(p, oks);
        case AttemptTimeout(t) => AllLive(View(), t); EndAttempt(t);
        case ExchangeReply(c, registered) => PassExchange(c, registered);
        case HandshakeError(c) => FailHandshake(c);
        case CandidateWritable(c, wrote, heard) => WritableCandidate(us, c, wrote, heard);
        case CandidateReadable(c, heard) => Hear(c, heard);
      }
    }

    method RunExchange(us: Uid, e: Step)
      requires Inv(View()) && Enabled(View(), e) && OfExchange(e)
      modifies this
      ensures View() == NodeRuns.Dispatch(us, old(View()), e)
    {
      NoSelfParent(View());
      match e {
        case Request(t, u, ask, env, oks, w) => OnRequest(t, VerdictFor(us, u, ask, env), oks, w);
        case IncomingWritable(t, w) => WriteIncoming(t, w);
        case IncomingEnds(t) => EndIncoming(t);
        case CheckEnds(k, reached, w) => CheckDone(k, reached, w);
      }
    }

    method RunBootstrap(us: Uid, e: Step)
      requires Inv(View()) && Enabled(View(), e) && OfBootstrap(e)
      modifies this
      ensures View() == NodeRuns.Dispatch(us, old(View()), e)
    {
      NoSelfParent(View());
      match e {
        case Bootstrap(discover, oks) => StartBootstrap(discover, oks);
        case DiscoveryTimeout(oks) => DiscoveryTimeout(oks);
        case BootstrapTimeout => EndBootstrap(); events := events + [BootstrapFailed];
        case StopBootstrap => EndBootstrap(); events := events + [BootstrapStopped];
        case TryEnds(k, res, r) => TryDone(k, res, true, r);
        case BootstrapNotStarted(timerLeft) => FailToStart(timerLeft);
        case StaleTimeout => FireStale();
      }
    }

    method Run(us: Uid, e: Step)
      requires Inv(View()) && Enabled(View(), e)
      modifies this
      ensures View() == NodeRuns.Dispatch(us, old(View()), e)
    {
      if OfAttempt(e) {
        RunAttempt(us, e);
      } else if OfExchange(e) {
        RunExchange(us, e);
      } else if OfBootstrap(e) {
        RunBootstrap(us, e);
      } else {
        match e {
          case ConnectNowhere(p) => events := events + [ConnectFailure(p)];
          case Accept => OpenIncoming();
          case ActiveReads(c, r) => ReadActive(c, r);
          case ActiveSends(c, broken) => SendActive(c, broken);
          case ActiveEnds(c) => EndActive(c);
          case Purge(cs) => EndAll(cs);
        }
      }
    }
  }

  lemma NoSelfParent(s: NodeState)
    requires Inv(s)
    ensures forall t :: IsIncoming(s, t) ==>
              && t !in s.states[t].checks
              && (!s.states[t].asked || s.states[t].replying ==> s.states[t].checks == {})
    ensures IsBootstrapping(s) ==> BOOTSTRAP !in s.states[BOOTSTRAP].tries
  {
    forall t | IsIncoming(s, t)
      ensures t !in s.states[t].checks && (!s.states[t].asked || s.states[t].replying ==> s.states[t].checks == {})
    {
      assert t !in KidsOf(s.states, t) && Shape(s.states[t]);
    }
    if IsBootstrapping(s) { assert BOOTSTRAP !in KidsOf(s.states, BOOTSTRAP); }
  }

  lemma AllLive(s: NodeState, t: Token)
    requires Inv(s) && IsAttempt(s, t)
    ensures forall c :: c in s.states[t].children ==>
              c != t && IsHandshake(s, c) && s.states[c].peer == s.states[t].peer
  {
    KidsAreChildless(s.states, t);
    forall c | c in s.states[t].children ensures c != t && IsHandshake(s, c) && s.states[c].peer == s.states[t].peer {
      assert Kin(s.states, c);
    }
  }

  /** Entering service does not depend on what the token held before. */
  lemma StartActiveIgnores(s: NodeState, s': NodeState, c: Token, p: Uid, role: Role, up: Event, heartbeat: bool,
      r: Reads)
    requires s' == s.Remove(c)
    ensures Node.StartActive(s, c, p, role, up, heartbeat, r) == Node.StartActive(s', c, p, role, up, heartbeat, r)
  {
    assert s.states[c := Active(p, role)] == s'.states[c := Active(p, role)];
    assert s.states - {c} == s'.states - {c};
  }

  lemma WinnerChildren(s: NodeState, c: Token, t: Token, s': NodeState)
    requires Inv(s) && IsHandshake(s, c) && ParentOf(s.states[c]) == Some(t) && IsAttempt(s, t)
    requires s'.states == (s.states - {c})[t := s.states[t].(children := s.states[t].children - {c})]
    ensures forall k :: k in s'.states[t].children ==>
              k != t && IsHandshake(s', k) && s'.states[k].peer == s'.states[t].peer
  {
    KidsAreChildless(s.states, t);
    forall k | k in s'.states[t].children
      ensures k != t && IsHandshake(s', k) && s'.states[k].peer == s'.states[t].peer
    {
      assert Kin(s.states, k);
    }
  }

  /** Ending an attempt does the same whether or not an outsider's state is in the table. */
  lemma EndAttemptWithout(s: NodeState, s': NodeState, t: Token, c: Token)
    requires IsAttempt(s, t) && c != t && c !in s.states[t].children
    requires s' == s.Remove(c) && IsAttempt(s', t)
    ensures Node.EndAttempt(s', t) == Node.EndAttempt(s, t).Remove(c)
  {
    var a := s.states[t];
    var alone := a.(children := {});
    assert (s'.states - a.children)[t := alone] - {t} == (s.states - a.children)[t := alone] - {t} - {c};
  }

  lemma PutTwice(states: States, t: Token, a: State, b: State, c: Token, st: State)
    requires t != c
    ensures states[t := a][t := b][c := st] == states[c := st][t := b]
  {
  }
}
