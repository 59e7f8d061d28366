/** Every dispatch of a node is, to each of its peers, moves of the same system as a side of the two-peer
    model: what that model says of a side it says of the node. */
module NodeSide {
  import opened Options
  import opened ConnMap
  import opened Node
  import opened NodeInv
  import opened Family
  import opened ConnectOps
  import opened IncomingOps
  import opened BootstrapOps
  import opened NodeRuns
  import opened Sides

  function KindFor(st: State, p: Uid): Option<Kind> {
    match st
    case OutExchange(q, _) => if q == p then Some(Asks) else None
    case InExchange(_, _, ToCandidate(q), _) => if q == p then Some(Replies) else None
    case InExchange(_, _, ToActive(q, _), _) => if q == p then Some(Grants) else None
    case Candidate(q, _) => if q == p then Some(Waits) else None
    case Active(q, _) => if q == p then Some(Serves) else None
    case _ => None
  }

  function Ends(states: States, p: Uid): map<nat, Kind> {
    map t | t in states && KindFor(states[t], p).Some? :: KindFor(states[t], p).value
  }

  function Named(cm: ConnectionMap, p: Uid): Option<nat> {
    if p in cm then cm[p].active else None
  }

  /** A node's connections to `p`, and the one its map names. */
  function NodeView(s: NodeState, p: Uid): View {
    View(Ends(s.states, p), Named(s.cm, p))
  }

  lemma NamedIsInService(s: NodeState, p: Uid)
    ensures InService(s.cm, p) <==> NodeView(s, p).active.Some?
  {
  }

  // ----- How the view changes -----

  lemma EndsPut(states: States, t: Token, st: State, p: Uid)
    ensures Ends(states[t := st], p) == PutKind(Ends(states, p), t, KindFor(st, p))
    ensures t in Ends(states, p) <==> t in states && KindFor(states[t], p).Some?
    ensures t in Ends(states, p) ==> Ends(states, p)[t] == KindFor(states[t], p).value
  {
  }

  lemma EndsRemove(states: States, ks: set<Token>, p: Uid)
    ensures Ends(states - ks, p) == Ends(states, p) - ks
  {
  }

  lemma NamedKept(cm: ConnectionMap, q: Uid, p: Uid)
    ensures Named(EnterHandshake(cm, q), p) == Named(cm, p)
    ensures Named(LeaveHandshake(cm, q), p) == Named(cm, p)
    ensures Named(Deactivate(cm, q), p) == if q == p then None else Named(cm, p)
  {
  }

  lemma {:induction false} NamedKeptByMany(cm: ConnectionMap, q: Uid, n: nat, p: Uid)
    ensures Named(LeaveMany(cm, q, n), p) == Named(cm, p)
  {
    if n > 0 {
      NamedKeptByMany(cm, q, n - 1, p);
      NamedKept(LeaveMany(cm, q, n - 1), q, p);
    }
  }

  /** A change of a token that is nothing to `p` before and after. */
  lemma NothingTo(states: States, t: Token, st: State, p: Uid)
    requires (t in states ==> KindFor(states[t], p).None?) && KindFor(st, p).None?
    ensures Ends(states[t := st], p) == Ends(states, p) && Ends(states - {t}, p) == Ends(states, p)
  {
    EndsPut(states, t, st, p);
    EndsRemove(states, {t}, p);
  }

  /** One token changes, by one move. */
  lemma TokenMoves(s: NodeState, s': NodeState, m: Move, p: Uid)
    requires Ends(s'.states, p) == PutKind(Ends(s.states, p), m.c, KindAfter(m))
    requires Can(NodeView(s, p), m) && Named(s'.cm, p) == Moved(NodeView(s, p), m).active
    ensures Goes(NodeView(s, p), NodeView(s', p))
  {
    GoesBy(NodeView(s, p), m);
    assert Moved(NodeView(s, p), m) == NodeView(s', p);
  }

  // ----- Service -----

  lemma EndActiveGoes(s: NodeState, c: Token, p: Uid)
    requires c in s.states && s.states[c].Active?
    ensures Goes(NodeView(s, p), NodeView(EndActive(s, c), p))
  {
    var q := s.states[c].peer;
    NamedKept(s.cm, q, p);
    EndsRemove(s.states, {c}, p);
    EndsPut(s.states, c, s.states[c], p);
    if q == p {
      TokenMoves(s, EndActive(s, c), Leaves(c), p);
    } else {
      assert NodeView(EndActive(s, c), p) == NodeView(s, p);
      Stays(NodeView(s, p));
    }
  }

  lemma ReadActiveGoes(s: NodeState, c: Token, r: Reads, p: Uid)
    requires c in s.states && s.states[c].Active?
    ensures Goes(NodeView(s, p), NodeView(ReadActive(s, c, r), p))
  {
    Stays(NodeView(s, p));
    if r.failed { EndActiveGoes(s.(events := s.events + News(s.states[c].peer, r.messages)), c, p); }
  }

  lemma {:induction false} EndAllGoes(s: NodeState, cs: seq<Token>, p: Uid)
    requires AllActive(s, cs)
    ensures Goes(NodeView(s, p), NodeView(EndAll(s, cs), p))
    decreases |cs|
  {
    if cs == [] {
      Stays(NodeView(s, p));
    } else {
      var s1 := EndActive(s, cs[0]);
      EndActiveGoes(s, cs[0], p);
      EndAllGoes(s1, cs[1..], p);
      GoesThen(NodeView(s, p), NodeView(s1, p), NodeView(EndAll(s, cs), p));
    }
  }

  /** A token enters service with `q`, from waiting, from granting, or from nothing. */
  lemma StartActiveGoes(s: NodeState, c: Token, q: Uid, role: Role, up: Event, r: Reads, p: Uid)
    requires c in s.states ==>
               KindFor(s.states[c], p).None? || (q == p && KindFor(s.states[c], p).value in {Waits, Grants})
    ensures Goes(NodeView(s, p), NodeView(StartActive(s, c, q, role, up, true, r), p))
  {
    var s1 := s.Put(c, Active(q, role)).Arm(c, RECV).Arm(c, SEND).(cm := Activate(s.cm, q, c)).Say(up);
    EndsPut(s.states, c, Active(q, role), p);
    if q == p {
      var waits := c in s.states && KindFor(s.states[c], p) == Some(Waits);
      TokenMoves(s, s1, if waits then Enters(c) else Bootstraps(c), p);
    } else {
      assert NodeView(s1, p) == NodeView(s, p);
      Stays(NodeView(s, p));
    }
    ReadActiveGoes(s1, c, r, p);
    GoesThen(NodeView(s, p), NodeView(s1, p), NodeView(StartActive(s, c, q, role, up, true, r), p));
  }

  // ----- Attempts -----

  lemma {:induction false} AllLeave(v: View, ks: set<nat>)
    requires forall k :: k in ks ==> k in v.ends && v.ends[k] != Serves
    ensures Goes(v, v.(ends := v.ends - ks))
    decreases ks
  {
    if ks == {} {
      assert v.ends - ks == v.ends;
      Stays(v);
    } else {
      var k :| k in ks;
      var v1 := Moved(v, Leaves(k));
      GoesBy(v, Leaves(k));
      AllLeave(v1, ks - {k});
      assert v1.ends - (ks - {k}) == v.ends - ks;
      GoesThen(v, v1, v.(ends := v.ends - ks));
    }
  }

  lemma EndChildrenGoes(s: NodeState, t: Token, p: Uid)
    requires Owns(s.states) && IsAttempt(s, t)
    ensures Goes(NodeView(s, p), NodeView(EndAttemptChildren(s, t), p))
  {
    var a, v := s.states[t], NodeView(s, p);
    KidsAreChildless(s.states, t);
    NamedKeptByMany(s.cm, a.peer, |a.children|, p);
    EndsRemove(s.states, a.children, p);
    NothingTo(s.states - a.children, t, a.(children := {}), p);
    forall c | c in a.children ensures c in s.states && (a.peer == p ==> c in v.ends && v.ends[c] != Serves)
      ensures a.peer != p ==> c !in v.ends
    {
      assert Kin(s.states, c);
    }
    if a.peer == p {
      AllLeave(v, a.children);
    } else {
      assert v.ends - a.children == v.ends;
      Stays(v);
    }
  }

  lemma EndAttemptGoes(s: NodeState, t: Token, p: Uid)
    requires Owns(s.states) && IsAttempt(s, t)
    ensures Goes(NodeView(s, p), NodeView(EndAttempt(s, t), p))
  {
    EndChildrenGoes(s, t, p);
    var s1 := EndAttemptChildren(s, t);
    NothingTo(s1.states, t, s1.states[t], p);
  }

  lemma FailHandshakeGoes(s: NodeState, c: Token, p: Uid)
    requires Inv(s) && IsHandshake(s, c)
    ensures Goes(NodeView(s, p), NodeView(FailHandshake(s, c), p))
  {
    var q := s.states[c].peer;
    var s1 := s.Remove(c).(cm := LeaveHandshake(s.cm, q));
    NamedKept(s.cm, q, p);
    GoneGoes(s, c, s1, p);
    assert Kin(s.states, c);
    if ParentOf(s.states[c]).Some? {
      var t := ParentOf(s.states[c]).value;
      LoseChildKeeps(s, c, t);
      var s2 := Disown(s1, c, t);
      NothingTo(s1.states, t, s2.states[t], p);
      assert NodeView(s2, p) == NodeView(s1, p);
      EndAttemptGoes(s2, t, p);
      if s2.states[t].children == {} {
        GoesThen(NodeView(s, p), NodeView(s2, p), NodeView(EndAttempt(s2, t), p));
      }
    }
  }

  /** A handshake leaves the table and the map. */
  lemma GoneGoes(s: NodeState, c: Token, s': NodeState, p: Uid)
    requires c in s.states && !s.states[c].Active? && s'.states == s.states - {c} && Named(s'.cm, p) == Named(s.cm, p)
    ensures Goes(NodeView(s, p), NodeView(s', p))
  {
    EndsRemove(s.states, {c}, p);
    EndsPut(s.states, c, s.states[c], p);
    if KindFor(s.states[c], p).Some? {
      TokenMoves(s, s', Leaves(c), p);
    } else {
      assert Ends(s'.states, p) == Ends(s.states, p);
      Stays(NodeView(s, p));
    }
  }

  lemma PassExchangeGoes(s: NodeState, c: Token, registered: bool, p: Uid)
    requires Inv(s) && IsHandshake(s, c) && s.states[c].OutExchange?
    ensures Goes(NodeView(s, p), NodeView(PassExchange(s, c, registered), p))
  {
    assert Kin(s.states, c);
    FailHandshakeGoes(s, c, p);
    if registered {
      var OutExchange(q, t) := s.states[c];
      EndsPut(s.states, c, Candidate(q, Some(t)), p);
      if q == p {
        TokenMoves(s, s.Put(c, Candidate(q, Some(t))), Passes(c), p);
      } else {
        NothingTo(s.states, c, Candidate(q, Some(t)), p);
        Stays(NodeView(s, p));
      }
    }
  }

  lemma WinCandidateGoes(s: NodeState, c: Token, r: Reads, p: Uid)
    requires Inv(s) && IsHandshake(s, c) && s.states[c].Candidate?
    ensures Goes(NodeView(s, p), NodeView(WinCandidate(s, c, true, r), p))
  {
    assert Kin(s.states, c);
    var Candidate(q, parent) := s.states[c];
    match parent {
      case None => StartActiveGoes(s, c, q, AsNode, ConnectSuccess(q), r, p);
      case Some(t) =>
        var s1 := Disown(s.Put(c, Candidate(q, None)), c, t);
        DetachView(s, c, t, p);
        DetachKeeps(s, c, t);
        EndAttemptGoes(s1, t, p);
        WinnerSurvives(s, c, t);
        var s2 := EndAttempt(s1, t);
        StartActiveGoes(s2, c, q, AsNode, ConnectSuccess(q), r, p);
        GoesThen(NodeView(s, p), NodeView(s2, p), NodeView(WinCandidate(s, c, true, r), p));
    }
  }

  lemma DetachView(s: NodeState, c: Token, t: Token, p: Uid)
    requires IsHandshake(s, c) && s.states[c].Candidate? && IsAttempt(s, t)
    ensures NodeView(Disown(s.Put(c, Candidate(s.states[c].peer, None)), c, t), p) == NodeView(s, p)
  {
    var q := s.states[c].peer;
    var states1 := s.states[c := Candidate(q, None)];
    EndsPut(s.states, c, Candidate(q, None), p);
    assert Ends(states1, p) == Ends(s.states, p);
    NothingTo(states1, t, states1[t].(children := states1[t].children - {c}), p);
  }

  lemma LaunchExchangeGoes(s: NodeState, t: Token, ok: bool, p: Uid)
    requires IsAttempt(s, t) && s.counter !in s.states
    ensures Goes(NodeView(s, p), NodeView(LaunchExchange(s, t, ok), p))
  {
    var a, c := s.states[t], s.counter;
    Stays(NodeView(s, p));
    NothingTo(s.states, t, a.(armed := false), p);
    if ok {
      var states1 := s.states[t := a.(children := a.children + {c})];
      NothingTo(s.states, t, a.(children := a.children + {c}), p);
      EndsPut(states1, c, OutExchange(a.peer, t), p);
      NamedKept(s.cm, a.peer, p);
      if a.peer == p {
        TokenMoves(s, LaunchExchange(s, t, ok), Begins(c, Asks), p);
      } else {
        NothingTo(states1, c, OutExchange(a.peer, t), p);
      }
    }
  }

  lemma {:induction false} LaunchExchangesGoes(s: NodeState, t: Token, oks: seq<bool>, p: Uid)
    requires IsAttempt(s, t) && t < s.counter && (forall u :: u in s.states ==> u < s.counter)
    ensures Goes(NodeView(s, p), NodeView(LaunchExchanges(s, t, oks), p))
    ensures forall u :: u in LaunchExchanges(s, t, oks).states ==> u < LaunchExchanges(s, t, oks).counter
  {
    if oks == [] {
      Stays(NodeView(s, p));
    } else {
      var s1 := LaunchExchanges(s, t, oks[..|oks| - 1]);
      LaunchExchangesGoes(s, t, oks[..|oks| - 1], p);
      LaunchExchangeGoes(s1, t, oks[|oks| - 1], p);
      GoesThen(NodeView(s, p), NodeView(s1, p), NodeView(LaunchExchanges(s, t, oks), p));
    }
  }

  lemma StartAttemptGoes(s: NodeState, q: Uid, oks: seq<bool>, p: Uid)
    requires TokensOk(s)
    ensures Goes(NodeView(s, p), NodeView(StartAttempt(s, q, oks), p))
  {
    var s0 := s.Skip().Put(s.counter, Connecting(q, {}, true)).Arm(s.counter, 0);
    NothingTo(s.states, s.counter, Connecting(q, {}, true), p);
    assert NodeView(s0, p) == NodeView(s, p);
    LaunchExchangesGoes(s0, s.counter, oks, p);
  }

  // ----- Incoming exchanges -----

  lemma EndChecksView(s: NodeState, t: Token, p: Uid)
    requires Owns(s.states) && TokensOk(s) && IsIncoming(s, t)
    ensures NodeView(EndChecks(s, t), p) == NodeView(s, p)
  {
    var x := s.states[t];
    ChecksAre(s, t);
    EndsRemove(s.states, x.checks, p);
    assert Ends(s.states, p) - x.checks == Ends(s.states, p);
    EndsPut(s.states - x.checks, t, x.(checks := {}), p);
    assert KindFor(x.(checks := {}), p) == KindFor(x, p);
  }

  lemma EndIncomingGoes(s: NodeState, t: Token, p: Uid)
    requires Owns(s.states) && TokensOk(s) && IsIncoming(s, t)
    ensures Goes(NodeView(s, p), NodeView(EndIncoming(s, t), p))
  {
    EndChecksView(s, t, p);
    var s1 := EndChecks(s, t);
    if NextPeer(s.states[t].next).Some? { NamedKept(s.cm, NextPeer(s.states[t].next).value, p); }
    GoneGoes(s1, t, EndIncoming(s, t), p);
  }

  lemma WriteIncomingGoes(s: NodeState, t: Token, w: Written, p: Uid)
    requires Owns(s.states) && TokensOk(s) && IsIncoming(s, t) && HeartbeatSet(w)
    ensures Goes(NodeView(s, p), NodeView(WriteIncoming(s, t, w), p))
  {
    EndIncomingGoes(s, t, p);
    Stays(NodeView(s, p));
    if w.Finished? {
      match s.states[t].next {
        case NoNext =>
        case ToActive(u, role) => StartActiveGoes(s.Cancel(t, 0), t, u, role, BootstrapAccept(u), w.first, p);
        case ToCandidate(u) => ToCandidateGoes(s, t, u, w, p);
      }
    }
  }

  lemma ToCandidateGoes(s: NodeState, t: Token, u: Uid, w: Written, p: Uid)
    requires IsIncoming(s, t) && s.states[t].next == ToCandidate(u) && w.Finished?
    ensures Goes(NodeView(s, p), NodeView(FinishIncoming(s, t, w), p))
  {
    var s1 := s.Cancel(t, 0).Put(t, Candidate(u, None));
    EndsPut(s.states, t, Candidate(u, None), p);
    if u == p {
      TokenMoves(s, s1, Passes(t), p);
    } else {
      NothingTo(s.states, t, Candidate(u, None), p);
      Stays(NodeView(s, p));
    }
    if !w.registered {
      NamedKept(s.cm, u, p);
      GoneGoes(s1, t, FinishIncoming(s, t, w), p);
      GoesThen(NodeView(s, p), NodeView(s1, p), NodeView(FinishIncoming(s, t, w), p));
    }
  }

  lemma SettleGoes(s: NodeState, t: Token, next: NextState, p: Uid)
    requires IsIncoming(s, t) && s.states[t].next == NoNext
    ensures Goes(NodeView(s, p), NodeView(Settle(s, t, next), p))
  {
    var s' := Settle(s, t, next);
    EndsPut(s.states, t, s'.states[t], p);
    if !next.NoNext? { NamedKept(s.cm, next.uid, p); }
    if NextPeer(next) == Some(p) {
      TokenMoves(s, s', Begins(t, KindFor(s'.states[t], p).value), p);
    } else {
      NothingTo(s.states, t, s'.states[t], p);
      Stays(NodeView(s, p));
    }
  }

  lemma ReplyIncomingGoes(s: NodeState, t: Token, next: NextState, w: Written, p: Uid)
    requires Inv(s) && IsIncoming(s, t) && s.states[t].checks == {} && s.states[t].next == NoNext && HeartbeatSet(w)
    ensures Goes(NodeView(s, p), NodeView(ReplyIncoming(s, t, next, w), p))
  {
    var s1 := Settle(s, t, next);
    SettleGoes(s, t, next, p);
    SettleKeeps(s, t, next);
    WriteIncomingGoes(s1, t, w, p);
    GoesThen(NodeView(s, p), NodeView(s1, p), NodeView(ReplyIncoming(s, t, next, w), p));
  }

  lemma {:induction false} LaunchChecksView(s: NodeState, t: Token, u: Uid, oks: seq<bool>, p: Uid)
    requires IsIncoming(s, t) && t < s.counter && (forall v :: v in s.states ==> v < s.counter)
    ensures NodeView(LaunchChecks(s, t, u, oks), p) == NodeView(s, p)
    ensures forall v :: v in LaunchChecks(s, t, u, oks).states ==> v < LaunchChecks(s, t, u, oks).counter
  {
    if oks != [] {
      var s1 := LaunchChecks(s, t, u, oks[..|oks| - 1]);
      LaunchChecksView(s, t, u, oks[..|oks| - 1], p);
      LaunchCheckView(s1, t, u, oks[|oks| - 1], p);
    }
  }

  lemma LaunchCheckView(s: NodeState, t: Token, u: Uid, ok: bool, p: Uid)
    requires IsIncoming(s, t) && s.counter !in s.states
    ensures NodeView(LaunchCheck(s, t, u, ok), p) == NodeView(s, p)
  {
    var x, k := s.states[t], s.counter;
    var x' := x.(checks := x.checks + {k});
    EndsPut(s.states, t, x', p);
    assert KindFor(x', p) == KindFor(x, p);
    NothingTo(s.states[t := x'], k, Checking(u, t), p);
  }

  lemma CheckReachabilityGoes(s: NodeState, t: Token, u: Uid, oks: seq<bool>, w: Written, p: Uid)
    requires Inv(s) && IsIncoming(s, t) && !s.states[t].asked && HeartbeatSet(w)
    ensures Goes(NodeView(s, p), NodeView(CheckReachability(s, t, u, oks, w), p))
  {
    var s0 := s.Put(t, s.states[t].(asked := true));
    EndsPut(s.states, t, s0.states[t], p);
    assert NodeView(s0, p) == NodeView(s, p);
    AskKeeps(s, t);
    LaunchChecksKeeps(s0, t, u, oks);
    LaunchChecksView(s0, t, u, oks, p);
    Stays(NodeView(s, p));
    var s1 := LaunchChecks(s0, t, u, oks);
    if s1.states[t].checks == {} { ReplyIncomingGoes(s1, t, NoNext, w, p); }
  }

  lemma OnRequestGoes(s: NodeState, t: Token, v: Verdict, oks: seq<bool>, w: Written, p: Uid)
    requires Inv(s) && IsIncoming(s, t) && !s.states[t].asked && HeartbeatSet(w)
    ensures Goes(NodeView(s, p), NodeView(OnRequest(s, t, v, oks, w), p))
  {
    match v {
      case Reject => EndIncomingGoes(s, t, p);
      case Answer => ReplyIncomingGoes(s, t, NoNext, w, p);
      case Grant(u, role) => ReplyIncomingGoes(s, t, ToActive(u, role), w, p);
      case Introduce(u) => ReplyIncomingGoes(s, t, ToCandidate(u), w, p);
      case CheckFirst(u) => CheckReachabilityGoes(s, t, u, oks, w, p);
    }
  }

  lemma CheckDoneGoes(s: NodeState, k: Token, reached: bool, w: Written, p: Uid)
    requires Inv(s) && k in s.states && s.states[k].Checking? && HeartbeatSet(w)
    ensures Goes(NodeView(s, p), NodeView(CheckDone(s, k, reached, w), p))
  {
    assert Kin(s.states, k);
    var Checking(u, t) := s.states[k];
    assert k in KidsOf(s.states, t);
    LoseCheckKeeps(s, k, t);
    var s1 := s.Cancel(k, 0).Remove(k);
    var s2 := s1.Put(t, s1.states[t].(checks := s1.states[t].checks - {k}));
    CheckGoneView(s, k, t, p);
    Stays(NodeView(s, p));
    if reached {
      EndChecksKeeps(s2, t);
      EndChecksView(s2, t, p);
      ReplyIncomingGoes(EndChecks(s2, t), t, ToActive(u, AsNode), w, p);
    } else if s2.states[t].checks == {} {
      ReplyIncomingGoes(s2, t, NoNext, w, p);
    }
  }

  lemma CheckGoneView(s: NodeState, k: Token, t: Token, p: Uid)
    requires k in s.states && s.states[k].Checking? && k != t && IsIncoming(s, t)
    ensures var x := s.states[t];
            NodeView(s.Cancel(k, 0).Remove(k).Put(t, x.(checks := x.checks - {k})), p) == NodeView(s, p)
  {
    var x := s.states[t];
    NothingTo(s.states, k, s.states[k], p);
    EndsPut(s.states - {k}, t, x.(checks := x.checks - {k}), p);
    assert KindFor(x.(checks := x.checks - {k}), p) == KindFor(x, p);
  }

  // ----- Bootstrapping -----

  lemma EndBootstrapView(s: NodeState, p: Uid)
    requires Owns(s.states) && TokensOk(s) && IsBootstrapping(s)
    ensures NodeView(EndBootstrap(s), p) == NodeView(s, p)
  {
    var b := s.states[BOOTSTRAP];
    TriesAre(s);
    EndsRemove(s.states, b.tries, p);
    assert Ends(s.states, p) - b.tries == Ends(s.states, p);
    NothingTo(s.states - b.tries, BOOTSTRAP, b, p);
  }

  lemma {:induction false} LaunchTriesView(s: NodeState, oks: seq<bool>, p: Uid)
    requires IsBootstrapping(s) && BOOTSTRAP < s.counter && (forall u :: u in s.states ==> u < s.counter)
    ensures NodeView(LaunchTries(s, oks), p) == NodeView(s, p)
    ensures forall u :: u in LaunchTries(s, oks).states ==> u < LaunchTries(s, oks).counter
  {
    if oks != [] {
      var s1 := LaunchTries(s, oks[..|oks| - 1]);
      LaunchTriesView(s, oks[..|oks| - 1], p);
      var b := s1.states[BOOTSTRAP];
      var b' := b.(tries := b.tries + {s1.counter});
      NothingTo(s1.states, BOOTSTRAP, b', p);
      NothingTo(s1.states[BOOTSTRAP := b'], s1.counter, TryPeer, p);
    }
  }

  lemma BeginBootstrapView(s: NodeState, oks: seq<bool>, p: Uid)
    requires Inv(s) && IsBootstrapping(s) && !s.states[BOOTSTRAP].discovering
    ensures NodeView(BeginBootstrap(s, oks), p) == NodeView(s, p)
  {
    LaunchTriesKeeps(s, oks);
    LaunchTriesView(s, oks, p);
    EndBootstrapView(LaunchTries(s, oks), p);
  }

  lemma TryDoneGoes(s: NodeState, k: Token, res: TryResult, r: Reads, p: Uid)
    requires Inv(s) && k in s.states && s.states[k].TryPeer?
    ensures Goes(NodeView(s, p), NodeView(TryDone(s, k, res, true, r), p))
  {
    assert Kin(s.states, k);
    LoseTryKeeps(s, k);
    var b := s.states[BOOTSTRAP];
    var s2 := s.Remove(k).Put(BOOTSTRAP, b.(tries := b.tries - {k}));
    NothingTo(s.states, k, s.states[k], p);
    NothingTo(s.states - {k}, BOOTSTRAP, b.(tries := b.tries - {k}), p);
    assert NodeView(s2, p) == NodeView(s, p);
    EndBootstrapView(s2, p);
    Stays(NodeView(s, p));
    if res.Granted? {
      StartActiveGoes(EndBootstrap(s2), k, res.uid, AsNode, BootstrapConnect(res.uid), r, p);
    }
  }

  // ----- Every dispatch -----

  lemma HearGoes(s: NodeState, c: Token, heard: Heard, p: Uid)
    requires Inv(s) && IsHandshake(s, c) && s.states[c].Candidate?
    ensures Goes(NodeView(s, p), NodeView(Hear(s, c, heard), p))
  {
    match heard {
      case Chosen(r) => WinCandidateGoes(s, c, r, p);
      case NothingYet => Stays(NodeView(s, p));
      case Unexpected => FailHandshakeGoes(s, c, p);
    }
  }

  lemma WritableCandidateGoes(us: Uid, s: NodeState, c: Token, wrote: Wrote, heard: Heard, p: Uid)
    requires Inv(s) && IsHandshake(s, c) && s.states[c].Candidate?
    ensures Goes(NodeView(s, p), NodeView(WritableCandidate(us, s, c, wrote, heard), p))
  {
    Stays(NodeView(s, p));
    FailHandshakeGoes(s, c, p);
    HearGoes(s, c, heard, p);
    if wrote.Sent? { WinCandidateGoes(s, c, wrote.first, p); }
  }

  lemma AttemptStepGoes(us: Uid, s: NodeState, e: Step, p: Uid)
    requires Inv(s) && Enabled(s, e) && OfAttempt(e)
    ensures Goes(NodeView(s, p), NodeView(Dispatch(us, s, e), p))
  {
    match e {
      case Connect(q, oks) => StartAttemptGoes(s, q, oks, p);
      case AttemptTimeout(t) => EndAttemptGoes(s, t, p);
      case ExchangeReply(c, registered) => PassExchangeGoes(s, c, registered, p);
      case HandshakeError(c) => FailHandshakeGoes(s, c, p);
      case CandidateWritable(c, wrote, heard) => WritableCandidateGoes(us, s, c, wrote, heard, p);
      case CandidateReadable(c, heard) => HearGoes(s, c, heard, p);
    }
  }

  lemma ExchangeStepGoes(us: Uid, s: NodeState, e: Step, p: Uid)
    requires Inv(s) && Enabled(s, e) && OfExchange(e)
    ensures Goes(NodeView(s, p), NodeView(Dispatch(us, s, e), p))
  {
    match e {
      case Request(t, u, ask, env, oks, w) => OnRequestGoes(s, t, VerdictFor(us, u, ask, env), oks, w, p);
      case IncomingWritable(t, w) => WriteIncomingGoes(s, t, w, p);
      case IncomingEnds(t) => EndIncomingGoes(s, t, p);
      case CheckEnds(k, reached, w) => CheckDoneGoes(s, k, reached, w, p);
    }
  }

  lemma StartBootstrapView(s: NodeState, discover: bool, oks: seq<bool>, p: Uid)
    requires Inv(s) && BOOTSTRAP !in s.states
    ensures NodeView(StartBootstrap(s, discover, oks), p) == NodeView(s, p)
  {
    BootstrapBegunKeeps(s, discover);
    NothingTo(s.states, BOOTSTRAP, Bootstrapping({}, discover), p);
    if !discover {
      BeginBootstrapView(s.Arm(BOOTSTRAP, 0).Put(BOOTSTRAP, Bootstrapping({}, false)).Say(BootstrapStarted), oks, p);
    }
  }

  lemma DiscoveredView(s: NodeState, oks: seq<bool>, p: Uid)
    requires Inv(s) && IsBootstrapping(s) && s.states[BOOTSTRAP].discovering
    ensures NodeView(Discovered(s, oks), p) == NodeView(s, p)
  {
    var b := s.states[BOOTSTRAP].(discovering := false);
    DiscoveryOverKeeps(s);
    NothingTo(s.states, BOOTSTRAP, b, p);
    BeginBootstrapView(s.Cancel(BOOTSTRAP, DISCOVERY).Put(BOOTSTRAP, b), oks, p);
  }

  lemma BootstrapStepGoes(us: Uid, s: NodeState, e: Step, p: Uid)
    requires Inv(s) && Enabled(s, e) && OfBootstrap(e)
    ensures Goes(NodeView(s, p), NodeView(Dispatch(us, s, e), p))
  {
    Stays(NodeView(s, p));
    match e {
      case Bootstrap(discover, oks) => StartBootstrapView(s, discover, oks, p);
      case DiscoveryTimeout(oks) => DiscoveredView(s, oks, p);
      case BootstrapTimeout => EndBootstrapView(s, p);
      case StopBootstrap => EndBootstrapView(s, p);
      case TryEnds(k, res, r) => TryDoneGoes(s, k, res, r, p);
      case BootstrapNotStarted(_) =>
      case StaleTimeout => if IsBootstrapping(s) { EndBootstrapView(s, p); }
    }
  }

  /** Every dispatch, of whatever kind, is to every peer a number of moves. */
  lemma DispatchGoes(us: Uid, s: NodeState, e: Step, p: Uid)
    requires Inv(s) && Enabled(s, e)
    ensures Goes(NodeView(s, p), NodeView(Dispatch(us, s, e), p))
  {
    if OfAttempt(e) {
      AttemptStepGoes(us, s, e, p);
    } else if OfExchange(e) {
      ExchangeStepGoes(us, s, e, p);
    } else if OfBootstrap(e) {
      BootstrapStepGoes(us, s, e, p);
    } else {
      Stays(NodeView(s, p));
      match e {
        case Accept => NothingTo(s.states, s.counter, InExchange(false, false, NoNext, {}), p);
        case ActiveReads(c, r) => ReadActiveGoes(s, c, r, p);
        case ActiveSends(c, _) => EndActiveGoes(s, c, p);
        case ActiveEnds(c) => EndActiveGoes(s, c, p);
        case Purge(cs) => EndAllGoes(s, cs, p);
        case _ =>
      }
    }
  }

  const Nothing := View(map[], None)

  /** Every state of every run is reached from nothing by moves. */
  lemma {:induction false} RunGoes(us: Uid, ss: seq<NodeState>, es: seq<Step>, n: nat, p: Uid)
    requires IsRun(us, ss, es) && n < |ss|
    ensures Goes(Nothing, NodeView(ss[n], p))
    decreases n
  {
    if n == 0 {
      assert NodeView(Idle, p) == Nothing;
      Stays(Nothing);
    } else {
      RunGoes(us, ss, es, n - 1, p);
      RunKeeps(us, ss, es, n - 1);
      DispatchGoes(us, ss[n - 1], es[n - 1], p);
      GoesThen(Nothing, NodeView(ss[n - 1], p), NodeView(ss[n], p));
    }
  }

  // ----- A node as a side of the two-peer model -----

  /** A node that has made the moves a side of a two-peer run has made is where that side is: it has the
      same connections at the same stages, and its map names the same one. */
  lemma NodeIsSide(s: NodeState, p: Uid, ms: seq<Move>, ys: seq<T.Sys>, ts: seq<T.Step>, m: nat, side: T.Side)
    requires Moves(Nothing, ms, NodeView(s, p))
    requires T.IsRun(ys, ts) && m < |ys| && ms == AllMoves(ys, ts, m, side)
    ensures NodeView(s, p) == SideView(ys[m], side)
    ensures InService(s.cm, p) <==> ys[m].ActiveOf(side).Some?
  {
    SideRun(ys, ts, m, side);
    SameMoves(Nothing, ms, NodeView(s, p), SideView(ys[m], side));
  }

  /** So where the smaller id of the two is a node, and the larger id has given nothing up, a choice that
      one of its candidates hears finds no connection to that peer in service. */
  lemma ChoiceFindsFreePeer(s: NodeState, p: Uid, ms: seq<Move>, ys: seq<T.Sys>, ts: seq<T.Step>, m: nat, c: Token)
    requires Moves(Nothing, ms, NodeView(s, p))
    requires T.IsRun(ys, ts) && m < |ts| && ms == AllMoves(ys, ts, m, T.Lo)
    requires ys[m].gaveUp == {} && ts[m] == T.Receive(c, T.Lo) && T.HearsChoice(ys[m], ts[m])
    ensures c in s.states && s.states[c].Candidate? && s.states[c].peer == p && !InService(s.cm, p)
    ensures forall r :: Enabled(s, CandidateReadable(c, Chosen(r)))
  {
    NodeIsSide(s, p, ms, ys, ts, m, T.Lo);
    T.ChoiceFindsNothingActive(ys, ts, m, c);
    SideWaits(ys[m], c);
    WaitsIsCandidate(s, p, c);
  }

  lemma SideWaits(y: T.Sys, c: nat)
    requires c in y.links && y.links[c].lo == T.Candidate
    ensures c in SideView(y, T.Lo).ends && SideView(y, T.Lo).ends[c] == Waits
  {
  }

  lemma WaitsIsCandidate(s: NodeState, p: Uid, c: Token)
    requires c in Ends(s.states, p) && Ends(s.states, p)[c] == Waits
    ensures c in s.states && s.states[c].Candidate? && s.states[c].peer == p
  {
    assert KindFor(s.states[c], p) == Some(Waits);
  }
}
