/** Each handler of a node keeps what every reachable state satisfies. */
module ConnectOps {
  import opened Options
  import opened ConnMap
  import opened Node
  import opened NodeInv
  import opened Family

  ghost predicate Shapes(states: States) {
    forall t :: t in states ==> Shape(states[t])
  }

  lemma AgreesElsewhere(states: States, states': States, cm: ConnectionMap, cm': ConnectionMap, q: Uid)
    requires Agrees(states, cm, q)
    requires q in cm <==> q in cm'
    requires q in cm ==> cm[q] == cm'[q]
    requires Handshakes(states, q) == Handshakes(states', q) && Actives(states, q) == Actives(states', q)
    ensures Agrees(states', cm', q)
  {
  }

  /** A change of state that neither starts nor ends a handshake or a service. */
  lemma AccountsQuiet(states: States, states': States, cm: ConnectionMap)
    requires Accounts(states, cm)
    requires forall q :: Handshakes(states, q) == Handshakes(states', q) && Actives(states, q) == Actives(states', q)
    ensures Accounts(states', cm)
  {
    forall q ensures Agrees(states', cm, q) { AgreesElsewhere(states, states', cm, cm, q); }
  }

  // ----- Service -----

  lemma EndActiveAccounts(states: States, cm: ConnectionMap, c: Token)
    requires Accounts(states, cm) && c in states && states[c].Active?
    ensures Accounts(states - {c}, Deactivate(cm, states[c].peer))
    ensures Actives(states, states[c].peer) == {c}
  {
    var p := states[c].peer;
    forall q ensures Agrees(states - {c}, Deactivate(cm, p), q) {
      SetsRemove(states, {c}, q);
      assert Agrees(states, cm, q);
      if q == p {
        assert c in Actives(states, p);
        assert Actives(states, p) == {c};
        assert Handshakes(states, p) - {c} == Handshakes(states, p);
        assert Actives(states, p) - {c} == {};
        DeactivateMatches(cm, p, Handshakes(states, p), c);
      } else {
        AgreesElsewhere(states, states - {c}, cm, Deactivate(cm, p), q);
      }
    }
    assert c in Actives(states, p) && Agrees(states, cm, p);
  }

  lemma EndActiveTrace(states: States, events: seq<Event>, c: Token)
    requires TraceOk(states, events) && c in states && states[c].Active? && Actives(states, states[c].peer) == {c}
    ensures TraceOk(states - {c}, events + [LostPeer(states[c].peer)])
  {
    var p := states[c].peer;
    forall q ensures PhaseOf(events + [LostPeer(p)], q) == if Actives(states - {c}, q) == {} then Down else Up {
      PhaseAppend(events, LostPeer(p), q);
      SetsRemove(states, {c}, q);
      assert q != p ==> Actives(states, q) - {c} == Actives(states, q);
    }
  }

  lemma EndActiveKeeps(s: NodeState, c: Token)
    requires Inv(s) && c in s.states && s.states[c].Active?
    ensures Inv(EndActive(s, c))
  {
    EndActiveAccounts(s.states, s.cm, c);
    EndActiveTrace(s.states, s.events, c);
    OwnsRemoveRoot(s.states, c);
    PhaseAppend(s.events, LostPeer(s.states[c].peer), 0);
  }

  lemma ReadActiveKeeps(s: NodeState, c: Token, r: Reads)
    requires Inv(s) && c in s.states && s.states[c].Active?
    ensures Inv(ReadActive(s, c, r))
  {
    var p := s.states[c].peer;
    var s' := s.(events := s.events + News(p, r.messages));
    assert c in Actives(s.states, p);
    forall q ensures PhaseOf(s'.events, q) == PhaseOf(s.events, q) && BsPhaseOf(s'.events) == BsPhaseOf(s.events) {
      NewsAppend(s.events, p, r.messages, q);
    }
    assert Inv(s');
    if r.failed { EndActiveKeeps(s', c); }
  }

  predicate IsUp(e: Event, p: Uid) {
    e == ConnectSuccess(p) || e == BootstrapAccept(p) || e == BootstrapConnect(p)
  }

  /** A connection may enter service under token `c`: it was handshaking with `p`, or nothing was;
      and no connection to `p` is in service. */
  ghost predicate MayServe(states: States, c: Token, p: Uid) {
    Actives(states, p) == {} && (c in Handshakes(states, p) || Handshakes(states, p) == {})
  }

  lemma ActivateElsewhere(states: States, cm: ConnectionMap, c: Token, p: Uid, role: Role, q: Uid)
    requires Agrees(states, cm, q) && q != p
    requires c in states ==> !states[c].Active? && !HandshakesWith(states[c], q)
    ensures Agrees(states[c := Active(p, role)], Activate(cm, p, c), q)
  {
    SetsPut(states, c, Active(p, role), q);
    assert Handshakes(states, q) - {c} == Handshakes(states, q) && Actives(states, q) - {c} == Actives(states, q);
    AgreesElsewhere(states, states[c := Active(p, role)], cm, Activate(cm, p, c), q);
  }

  lemma ActivateHere(states: States, cm: ConnectionMap, c: Token, p: Uid, role: Role)
    requires Agrees(states, cm, p) && (c in states ==> !states[c].Active?)
    ensures Agrees(states[c := Active(p, role)], Activate(cm, p, c), p) <==> MayServe(states, c, p)
  {
    var hs, acts, states' := Handshakes(states, p), Actives(states, p), states[c := Active(p, role)];
    assert Handshakes(states', p) == hs - {c} && Actives(states', p) == acts + {c};
    ActivateMatches(cm, p, hs, acts, c);
  }

  /** Entering service keeps the map right if and only if it may: the code neither checks that
      nothing else is in service nor that the handshake it ends was ever counted. */
  lemma ActivateAccounts(states: States, cm: ConnectionMap, c: Token, p: Uid, role: Role)
    requires Accounts(states, cm)
    requires c in states ==> !states[c].Active? && forall q :: q != p ==> !HandshakesWith(states[c], q)
    ensures Accounts(states[c := Active(p, role)], Activate(cm, p, c)) <==> MayServe(states, c, p)
  {
    var states', cm' := states[c := Active(p, role)], Activate(cm, p, c);
    assert Agrees(states, cm, p);
    ActivateHere(states, cm, c, p, role);
    forall q | q != p ensures Agrees(states', cm', q) {
      assert Agrees(states, cm, q);
      ActivateElsewhere(states, cm, c, p, role, q);
    }
  }

  lemma UpTrace(states: States, events: seq<Event>, c: Token, p: Uid, role: Role, up: Event)
    requires TraceOk(states, events) && IsUp(up, p) && Actives(states, p) == {} && (c in states ==> !states[c].Active?)
    ensures TraceOk(states[c := Active(p, role)], events + [up])
  {
    forall q ensures PhaseOf(events + [up], q) == if Actives(states[c := Active(p, role)], q) == {} then Down else Up {
      PhaseAppend(events, up, q);
      SetsPut(states, c, Active(p, role), q);
      assert c in Actives(states[c := Active(p, role)], p);
      assert q != p ==> Actives(states, q) - {c} == Actives(states, q);
    }
  }

  /** Everything but the timers of `c` itself, which has none armed. */
  ghost predicate TimersBut(s: NodeState, c: Token) {
    && (forall t, id :: t in s.states && t != c ==> ((t, id) in s.timers <==> id in TimersOf(s.states[t])))
    && (forall x :: x in s.timers ==> x.0 < s.counter && x.0 != c && (x.0 in s.states || x.0 >= FIRST_TOKEN))
  }

  ghost predicate ReadyToServe(s: NodeState, c: Token, p: Uid, up: Event) {
    && Accounts(s.states, s.cm) && Owns(s.states) && TimersBut(s, c) && TokensOk(s)
    && TraceOk(s.states, s.events) && Shapes(s.states)
    && FIRST_TOKEN <= c < s.counter && IsUp(up, p) && MayServe(s.states, c, p)
    && (c in s.states ==> ParentOf(s.states[c]).None? && Childless(s.states, c) && !s.states[c].Active?
                          && forall q :: q != p ==> !HandshakesWith(s.states[c], q))
    && NextBs(BsPhaseOf(s.events), up) == if BOOTSTRAP in s.states then Running else Resting
  }

  lemma EnterServiceKeeps(s: NodeState, c: Token, p: Uid, role: Role, up: Event)
    requires ReadyToServe(s, c, p, up)
    ensures Inv(s.Put(c, Active(p, role)).Arm(c, RECV).Arm(c, SEND).(cm := Activate(s.cm, p, c)).Say(up))
  {
    var s' := s.Put(c, Active(p, role)).Arm(c, RECV).Arm(c, SEND).(cm := Activate(s.cm, p, c)).Say(up);
    assert Accounts(s'.states, s'.cm) by { ActivateAccounts(s.states, s.cm, c, p, role); }
    assert TraceOk(s'.states, s'.events) by { UpTrace(s.states, s.events, c, p, role, up); }
    assert Owns(s'.states) by { OwnsPutRoot(s.states, c, Active(p, role)); }
    assert BsTraceOk(s') by { PhaseAppend(s.events, up, p); }
    assert TimersOk(s') by { TimersServe(s, c, p, role, s'); }
  }

  lemma StartActiveKeeps(s: NodeState, c: Token, p: Uid, role: Role, up: Event, r: Reads)
    requires ReadyToServe(s, c, p, up)
    ensures Inv(StartActive(s, c, p, role, up, true, r))
  {
    EnterServiceKeeps(s, c, p, role, up);
    ReadActiveKeeps(s.Put(c, Active(p, role)).Arm(c, RECV).Arm(c, SEND).(cm := Activate(s.cm, p, c)).Say(up), c, r);
  }

  lemma TimersServe(s: NodeState, c: Token, p: Uid, role: Role, s': NodeState)
    requires TimersBut(s, c) && c < s.counter
    requires s'.states == s.states[c := Active(p, role)] && s'.counter == s.counter
    requires s'.timers == s.timers + {(c, RECV)} + {(c, SEND)}
    ensures TimersOk(s')
  {
  }

  // ----- Attempts -----

  lemma EndChildrenAccounts(states: States, cm: ConnectionMap, t: Token, states': States)
    requires Accounts(states, cm) && Owns(states) && t in states && states[t].Connecting?
    requires states' == (states - states[t].children)[t := states[t].(children := {})]
    ensures Accounts(states', LeaveMany(cm, states[t].peer, |states[t].children|))
  {
    var Connecting(p, ks, _) := states[t];
    var cm' := LeaveMany(cm, p, |ks|);
    KidsAreChildless(states, t);
    forall q ensures Agrees(states', cm', q) {
      assert Agrees(states, cm, q);
      EndChildrenSets(states, t, states', q);
      if q == p {
        LeaveManyMatches(cm, p, Handshakes(states, p), Actives(states, p), ks);
      } else {
        ManyElsewhere(cm, p, q, |ks|);
        AgreesElsewhere(states, states', cm, cm', q);
      }
    }
  }

  lemma EndChildrenSets(states: States, t: Token, states': States, q: Uid)
    requires Owns(states) && t in states && states[t].Connecting?
    requires states' == (states - states[t].children)[t := states[t].(children := {})]
    ensures q == states[t].peer ==>
              && states[t].children <= Handshakes(states, q)
              && Handshakes(states', q) == Handshakes(states, q) - states[t].children
    ensures q != states[t].peer ==> Handshakes(states', q) == Handshakes(states, q)
    ensures Actives(states', q) == Actives(states, q)
  {
    KidsAreChildless(states, t);
    forall c | c in states[t].children
      ensures c in states && c != t && (HandshakesWith(states[c], q) <==> q == states[t].peer)
              && !ServesPeer(states[c], q)
    {
      assert Kin(states, c);
    }
  }

  /** When an attempt ends, failure is reported exactly when no handshake with the peer and no
      connection to it is left. */
  lemma FailureRule(s: NodeState, t: Token)
    requires Inv(s) && IsAttempt(s, t)
    ensures var p, s' := s.states[t].peer, EndAttempt(s, t);
            s'.events == s.events +
              (if Handshakes(s'.states, p) == {} && Actives(s'.states, p) == {} then [ConnectFailure(p)] else [])
  {
    var p, s' := s.states[t].peer, EndAttempt(s, t);
    assert s.events + [] == s.events;
    assert p in s'.cm <==> Handshakes(s'.states, p) != {} || Actives(s'.states, p) != {} by { EntryAfterEnd(s, t); }
  }

  lemma EntryAfterEnd(s: NodeState, t: Token)
    requires Inv(s) && IsAttempt(s, t)
    ensures var p, s' := s.states[t].peer, EndAttempt(s, t);
            p in s'.cm <==> Handshakes(s'.states, p) != {} || Actives(s'.states, p) != {}
  {
    var p, s1 := s.states[t].peer, EndAttemptChildren(s, t);
    EndChildrenAccounts(s.states, s.cm, t, s1.states);
    assert Agrees(s1.states, s1.cm, p);
    SetsRemove(s1.states, {t}, p);
    assert Handshakes(s1.states, p) - {t} == Handshakes(s1.states, p)
           && Actives(s1.states, p) - {t} == Actives(s1.states, p);
  }

  lemma FailureIsNoPhase(events: seq<Event>, u: Uid, p: Uid)
    ensures PhaseOf(events + [ConnectFailure(u)], p) == PhaseOf(events, p)
    ensures BsPhaseOf(events + [ConnectFailure(u)]) == BsPhaseOf(events)
  {
    PhaseAppend(events, ConnectFailure(u), p);
  }

  lemma SayFailureKeeps(s: NodeState, u: Uid)
    requires Inv(s)
    ensures Inv(s.Say(ConnectFailure(u)))
  {
    forall p ensures PhaseOf(s.events + [ConnectFailure(u)], p) == PhaseOf(s.events, p) {
      FailureIsNoPhase(s.events, u, p);
    }
    FailureIsNoPhase(s.events, u, 0);
  }

  lemma EndChildrenKeeps(s: NodeState, t: Token)
    requires Inv(s) && IsAttempt(s, t)
    ensures Inv(EndAttemptChildren(s, t))
  {
    var s' := EndAttemptChildren(s, t);
    EndChildrenAccounts(s.states, s.cm, t, s'.states);
    OwnsDropKids(s.states, t, s.states[t].(children := {}));
    KidsAreChildless(s.states, t);
    forall p ensures Actives(s'.states, p) == Actives(s.states, p) { EndChildrenSets(s.states, t, s'.states, p); }
    EndChildrenTimers(s, t);
  }

  lemma EndChildrenTimers(s: NodeState, t: Token)
    requires TimersOk(s) && TokensOk(s) && Owns(s.states) && IsAttempt(s, t)
    ensures TimersOk(EndAttemptChildren(s, t))
  {
    var s' := EndAttemptChildren(s, t);
    KidsAreChildless(s.states, t);
  }

  /** Removing an attempt that has no sub-state left. */
  lemma RemoveAttemptKeeps(s: NodeState, t: Token)
    requires Inv(s) && IsAttempt(s, t) && s.states[t].children == {}
    ensures Inv(s.Cancel(t, 0).Remove(t))
  {
    var s' := s.Cancel(t, 0).Remove(t);
    OwnsRemoveRoot(s.states, t);
    forall p
      ensures Handshakes(s'.states, p) == Handshakes(s.states, p) && Actives(s'.states, p) == Actives(s.states, p)
    {
      SetsRemove(s.states, {t}, p);
    }
    AccountsQuiet(s.states, s'.states, s.cm);
  }

  lemma EndAttemptKeeps(s: NodeState, t: Token)
    requires Inv(s) && IsAttempt(s, t)
    ensures Inv(EndAttempt(s, t))
  {
    EndChildrenKeeps(s, t);
    var s1 := EndAttemptChildren(s, t);
    RemoveAttemptKeeps(s1, t);
    SayFailureKeeps(s1.Cancel(t, 0).Remove(t), s.states[t].peer);
  }

  // ----- Handshakes that begin and end -----

  lemma HandshakeGone(states: States, cm: ConnectionMap, c: Token, p: Uid, states': States)
    requires Accounts(states, cm) && c in states && HandshakesWith(states[c], p)
    requires forall q :: Handshakes(states', q) == Handshakes(states, q) - {c}
    requires forall q :: Actives(states', q) == Actives(states, q)
    ensures Accounts(states', LeaveHandshake(cm, p))
    ensures p in cm && cm[p].handshaking >= 1
  {
    var cm' := LeaveHandshake(cm, p);
    forall q ensures Agrees(states', cm', q) {
      assert Agrees(states, cm, q);
      if q == p {
        LeaveMatches(cm, p, Handshakes(states, p), Actives(states, p), c);
      } else {
        assert c !in Handshakes(states, q);
        AgreesElsewhere(states, states', cm, cm', q);
      }
    }
    assert Agrees(states, cm, p) && c in Handshakes(states, p);
  }

  lemma HandshakeBegun(states: States, cm: ConnectionMap, c: Token, p: Uid, states': States)
    requires Accounts(states, cm)
    requires c !in Handshakes(states, p) && Handshakes(states', p) == Handshakes(states, p) + {c}
    requires forall q :: q != p ==> Handshakes(states', q) == Handshakes(states, q)
    requires forall q :: Actives(states', q) == Actives(states, q)
    ensures Accounts(states', EnterHandshake(cm, p))
  {
    var cm' := EnterHandshake(cm, p);
    forall q ensures Agrees(states', cm', q) {
      assert Agrees(states, cm, q);
      if q == p {
        EnterMatches(cm, p, Handshakes(states, p), Actives(states, p), c);
      } else {
        AgreesElsewhere(states, states', cm, cm', q);
      }
    }
  }

  lemma TraceQuiet(states: States, states': States, events: seq<Event>)
    requires TraceOk(states, events) && forall p :: Actives(states', p) == Actives(states, p)
    ensures TraceOk(states', events)
  {
    forall p ensures PhaseOf(events, p) == if Actives(states', p) == {} then Down else Up {
      assert Actives(states', p) == Actives(states, p);
    }
  }

  /** A sub-state fails: it is gone from the table, the map and its attempt's set. */
  lemma LoseChildKeeps(s: NodeState, c: Token, t: Token)
    requires Inv(s) && IsHandshake(s, c) && ParentOf(s.states[c]) == Some(t) && IsAttempt(s, t)
    ensures var s' := s.Remove(c).(cm := LeaveHandshake(s.cm, s.states[c].peer));
            IsAttempt(s', t) && Inv(Disown(s', c, t))
  {
    var s' := s.Remove(c).(cm := LeaveHandshake(s.cm, s.states[c].peer));
    var s'' := Disown(s', c, t);
    LoseChildSets(s.states, c, t, s''.states);
    HandshakeGone(s.states, s.cm, c, s.states[c].peer, s''.states);
    TraceQuiet(s.states, s''.states, s.events);
    LoseChildTimers(s, s'', c, t);
  }

  lemma LoseChildSets(states: States, c: Token, t: Token, states': States)
    requires Owns(states) && c in states && t in states && c != t && states[t].Connecting?
    requires (states[c].OutExchange? || states[c].Candidate?) && ParentOf(states[c]) == Some(t)
    requires states' == (states - {c})[t := states[t].(children := states[t].children - {c})]
    ensures Owns(states')
    ensures forall q :: Handshakes(states', q) == Handshakes(states, q) - {c}
    ensures forall q :: Actives(states', q) == Actives(states, q)
  {
    OwnsDropChild(states, c, t, states'[t]);
    forall q
      ensures Handshakes(states', q) == Handshakes(states, q) - {c} && Actives(states', q) == Actives(states, q)
    {
    }
  }

  lemma LoseChildTimers(s: NodeState, s': NodeState, c: Token, t: Token)
    requires TimersOk(s) && TokensOk(s) && IsHandshake(s, c) && IsAttempt(s, t)
    requires s'.states == (s.states - {c})[t := s.states[t].(children := s.states[t].children - {c})]
    requires s'.timers == s.timers && s'.counter == s.counter
    ensures TimersOk(s') && TokensOk(s')
  {
  }

  /** The same for a handshake nobody waits for. */
  lemma LoseLoneKeeps(s: NodeState, c: Token)
    requires Inv(s) && IsHandshake(s, c) && ParentOf(s.states[c]).None?
    ensures Inv(s.Remove(c).(cm := LeaveHandshake(s.cm, s.states[c].peer)))
  {
    var p := s.states[c].peer;
    var s' := s.Remove(c).(cm := LeaveHandshake(s.cm, p));
    OwnsRemoveRoot(s.states, c);
    forall q
      ensures Handshakes(s'.states, q) == Handshakes(s.states, q) - {c} && Actives(s'.states, q) == Actives(s.states, q)
    {
    }
    HandshakeGone(s.states, s.cm, c, p, s'.states);
    TraceQuiet(s.states, s'.states, s.events);
  }

  lemma MaybeEndAttemptKeeps(s: NodeState, t: Token)
    requires Inv(s) && IsAttempt(s, t)
    ensures Inv(MaybeEndAttempt(s, t))
  {
    if s.states[t].children == {} { EndAttemptKeeps(s, t); }
  }

  lemma FailHandshakeKeeps(s: NodeState, c: Token)
    requires Inv(s) && IsHandshake(s, c)
    ensures Inv(FailHandshake(s, c))
  {
    assert Kin(s.states, c);
    var s' := s.Remove(c).(cm := LeaveHandshake(s.cm, s.states[c].peer));
    match ParentOf(s.states[c]) {
      case None => LoseLoneKeeps(s, c);
      case Some(t) =>
        LoseChildKeeps(s, c, t);
        MaybeEndAttemptKeeps(Disown(s', c, t), t);
    }
  }

  lemma LaunchedKeeps(s: NodeState, t: Token)
    requires Inv(s) && IsAttempt(s, t)
    ensures Inv(LaunchExchange(s, t, true))
  {
    var a, c := s.states[t], s.counter;
    var s' := LaunchExchange(s, t, true);
    var st := a.(children := a.children + {c});
    assert s'.states == s.states[t := st][c := OutExchange(a.peer, t)];
    assert Owns(s'.states) by { OwnsAddChild(s.states, c, OutExchange(a.peer, t), t, st); }
    forall q ensures Actives(s'.states, q) == Actives(s.states, q)
      ensures Handshakes(s'.states, q) == if q == a.peer then Handshakes(s.states, q) + {c} else Handshakes(s.states, q)
    {
    }
    assert Accounts(s'.states, s'.cm) by { HandshakeBegun(s.states, s.cm, c, a.peer, s'.states); }
    assert TraceOk(s'.states, s'.events) by { TraceQuiet(s.states, s'.states, s.events); }
  }

  lemma DisarmKeeps(s: NodeState, t: Token)
    requires Inv(s) && IsAttempt(s, t)
    ensures Inv(s.Skip().Put(t, s.states[t].(armed := false)).Cancel(t, 0))
  {
    var st := s.states[t].(armed := false);
    var s' := s.Skip().Put(t, st).Cancel(t, 0);
    OwnsSwapParent(s.states, t, st);
    forall q
      ensures Handshakes(s'.states, q) == Handshakes(s.states, q) && Actives(s'.states, q) == Actives(s.states, q)
    {
    }
    AccountsQuiet(s.states, s'.states, s.cm);
    TraceQuiet(s.states, s'.states, s.events);
  }

  lemma LaunchExchangeKeeps(s: NodeState, t: Token, registered: bool)
    requires Inv(s) && IsAttempt(s, t)
    ensures Inv(LaunchExchange(s, t, registered))
  {
    if registered {
      LaunchedKeeps(s, t);
    } else if s.states[t].children == {} {
      DisarmKeeps(s, t);
      SayFailureKeeps(s.Skip().Put(t, s.states[t].(armed := false)).Cancel(t, 0), s.states[t].peer);
    }
  }

  lemma {:induction false} LaunchExchangesKeeps(s: NodeState, t: Token, oks: seq<bool>)
    requires Inv(s) && IsAttempt(s, t) && t < s.counter
    ensures Inv(LaunchExchanges(s, t, oks))
  {
    if oks != [] {
      LaunchExchangesKeeps(s, t, oks[..|oks| - 1]);
      LaunchExchangeKeeps(LaunchExchanges(s, t, oks[..|oks| - 1]), t, oks[|oks| - 1]);
    }
  }

  lemma PutRootKeeps(s: NodeState, st: State)
    requires Inv(s) && ParentOf(st).None? && Kids(st) == {} && Shape(st) && TimersOf(st) == {0}
    requires !st.Active? && !st.Bootstrapping? && forall q :: !HandshakesWith(st, q)
    ensures Inv(s.Skip().Put(s.counter, st).Arm(s.counter, 0))
  {
    var t := s.counter;
    var s' := s.Skip().Put(t, st).Arm(t, 0);
    OwnsPutRoot(s.states, t, st);
    forall q
      ensures Handshakes(s'.states, q) == Handshakes(s.states, q) && Actives(s'.states, q) == Actives(s.states, q)
    {
    }
    AccountsQuiet(s.states, s'.states, s.cm);
    TraceQuiet(s.states, s'.states, s.events);
  }

  lemma StartAttemptKeeps(s: NodeState, p: Uid, oks: seq<bool>)
    requires Inv(s)
    ensures Inv(StartAttempt(s, p, oks))
  {
    PutRootKeeps(s, Connecting(p, {}, true));
    LaunchExchangesKeeps(s.Skip().Put(s.counter, Connecting(p, {}, true)).Arm(s.counter, 0), s.counter, oks);
  }

  lemma PassExchangeKeeps(s: NodeState, c: Token, registered: bool)
    requires Inv(s) && IsHandshake(s, c) && s.states[c].OutExchange?
    ensures Inv(PassExchange(s, c, registered))
  {
    assert Kin(s.states, c);
    if registered {
      var OutExchange(p, t) := s.states[c];
      var st := Candidate(p, Some(t));
      var s' := s.Put(c, st);
      OwnsMorph(s.states, c, st);
      forall q
        ensures Handshakes(s'.states, q) == Handshakes(s.states, q) && Actives(s'.states, q) == Actives(s.states, q)
      {
      }
      AccountsQuiet(s.states, s'.states, s.cm);
      TraceQuiet(s.states, s'.states, s.events);
    } else {
      FailHandshakeKeeps(s, c);
    }
  }

  lemma DetachKeeps(s: NodeState, c: Token, t: Token)
    requires Inv(s) && IsHandshake(s, c) && s.states[c].Candidate? && s.states[c].parent == Some(t) && IsAttempt(s, t)
    ensures Inv(Disown(s.Put(c, Candidate(s.states[c].peer, None)), c, t))
  {
    var p := s.states[c].peer;
    var s' := Disown(s.Put(c, Candidate(p, None)), c, t);
    OwnsDetach(s.states, c, Candidate(p, None), t, s'.states[t]);
    forall q
      ensures Handshakes(s'.states, q) == Handshakes(s.states, q) && Actives(s'.states, q) == Actives(s.states, q)
    {
    }
    AccountsQuiet(s.states, s'.states, s.cm);
    TraceQuiet(s.states, s'.states, s.events);
  }

  /** A lone candidate enters service. */
  lemma LoneWinKeeps(s: NodeState, c: Token, p: Uid, r: Reads)
    requires Inv(s) && c in s.states && s.states[c] == Candidate(p, None) && Actives(s.states, p) == {}
    ensures Inv(StartActive(s, c, p, AsNode, ConnectSuccess(p), true, r))
  {
    assert c in Handshakes(s.states, p);
    StartActiveKeeps(s, c, p, AsNode, ConnectSuccess(p), r);
  }

  lemma WinCandidateKeeps(s: NodeState, c: Token, r: Reads)
    requires Inv(s) && IsHandshake(s, c) && s.states[c].Candidate? && Actives(s.states, s.states[c].peer) == {}
    ensures Inv(WinCandidate(s, c, true, r))
  {
    assert Kin(s.states, c);
    var Candidate(p, parent) := s.states[c];
    match parent {
      case None => LoneWinKeeps(s, c, p, r);
      case Some(t) =>
        var s1 := Disown(s.Put(c, Candidate(p, None)), c, t);
        DetachKeeps(s, c, t);
        EndAttemptKeeps(s1, t);
        EndChildrenSets(s1.states, t, EndAttemptChildren(s1, t).states, p);
        WinnerSurvives(s, c, t);
        LoneWinKeeps(EndAttempt(s1, t), c, p, r);
    }
  }

  /** The winner outlives its attempt, which does not report failure: its own handshake still counts. */
  lemma WinnerSurvives(s: NodeState, c: Token, t: Token)
    requires Inv(s) && IsHandshake(s, c) && s.states[c].Candidate? && s.states[c].parent == Some(t) && IsAttempt(s, t)
    ensures var p := s.states[c].peer;
            var s1 := Disown(s.Put(c, Candidate(p, None)), c, t);
            var s2 := EndAttempt(s1, t);
            && c !in s1.states[t].children
            && c in s2.states && s2.states[c] == Candidate(p, None)
            && s2.events == s.events
  {
    var p := s.states[c].peer;
    var s1 := Disown(s.Put(c, Candidate(p, None)), c, t);
    assert Kin(s.states, c);
    var s2 := EndAttempt(s1, t);
    assert Inv(s1) by { DetachKeeps(s, c, t); }
    assert c in Handshakes(s2.states, p);
    assert s2.events == s.events by {
      FailureRule(s1, t);
      assert s.events + [] == s.events;
    }
  }
}
