/** What the code takes for granted of its surroundings without looking: for each, exactly what depends
    on it. */
module Assumptions {
  import opened Options
  import opened ConnMap
  import opened Node
  import opened NodeInv
  import opened ConnectOps
  import opened IncomingOps
  import opened BootstrapOps
  import opened NodeTheorems
  import opened Attempts

  /** Accepting a choice keeps the map right exactly when nothing is in service yet. The read path
      does not check; that it need not while the chooser keeps to one connection is what the
      two-peer model shows. */
  lemma ChoiceNeedsFreePeer(s: NodeState, c: Token)
    requires Inv(s) && IsHandshake(s, c) && s.states[c].Candidate?
    ensures var s' := WinCandidate(s, c, true, Reads(0, false));
            Accounts(s'.states, s'.cm) <==> !InService(s.cm, s.states[c].peer)
  {
    assert Kin(s.states, c);
    var Candidate(p, parent) := s.states[c];
    var s0 := s;
    if parent.Some? {
      s0 := EndAttempt(Disown(s.Put(c, Candidate(p, None)), c, parent.value), parent.value);
      WinnerSurvives(s, c, parent.value);
      DetachKeeps(s, c, parent.value);
      EndAttemptKeeps(Disown(s.Put(c, Candidate(p, None)), c, parent.value), parent.value);
    }
    assert c in Handshakes(s0.states, p);
    ActivateAccounts(s0.states, s0.cm, c, p, AsNode);
    assert Agrees(s.states, s.cm, p);
  }

  /** It keeps the peer's events in sessions under the same condition: otherwise the peer is reported up
      twice with no loss between. */
  lemma ChoiceKeepsSessions(s: NodeState, c: Token, r: Reads)
    requires Inv(s) && IsHandshake(s, c) && s.states[c].Candidate?
    ensures var p := s.states[c].peer;
            InSessions(WinCandidate(s, c, true, r).events, p) <==> !InService(s.cm, p)
  {
    var p := s.states[c].peer;
    WinnerReports(s, c, r);
    var more := News(p, r.messages) + (if r.failed then [LostPeer(p)] else []);
    assert WinnersNews(p, r) == [ConnectSuccess(p)] + more;
    assert Agrees(s.states, s.cm, p);
    if InService(s.cm, p) {
      UpTwice(s.events, ConnectSuccess(p), more, p);
    } else {
      NotInService(s, p);
      WinCandidateKeeps(s, c, r);
      NotWrongMeansSessions(WinCandidate(s, c, true, r).events, p);
    }
  }

  lemma UpTwice(events: seq<Event>, up: Event, more: seq<Event>, p: Uid)
    requires PhaseOf(events, p) == Up && IsUp(up, p)
    ensures !InSessions(events + ([up] + more), p)
  {
    var all := events + ([up] + more);
    PhaseAppend(events, up, p);
    if InSessions(all, p) {
      assert all[..|events| + 1] == events + [up];
      PrefixSessions(all, |events| + 1, p);
      SessionsMeansNotWrong(events + [up], p);
    }
  }

  // ----- Heartbeat timers that cannot be set -----

  /** A peer that is not in service is reported lost. */
  lemma LossFromNowhere(events: seq<Event>, p: Uid)
    requires PhaseOf(events, p) == Down
    ensures !InSessions(events + [LostPeer(p)], p)
  {
    PhaseAppend(events, LostPeer(p), p);
    if InSessions(events + [LostPeer(p)], p) { SessionsMeansNotWrong(events + [LostPeer(p)], p); }
  }

  /** A counted handshake leaves the table and stays counted. */
  lemma StaysCounted(states: States, cm: ConnectionMap, c: Token, p: Uid)
    requires Agrees(states, cm, p) && c in Handshakes(states, p)
    ensures !Accounts(states - {c}, cm)
  {
    SetsRemove(states, {c}, p);
    assert |Handshakes(states, p) - {c}| == |Handshakes(states, p)| - 1;
    assert !Agrees(states - {c}, cm, p);
  }

  /** A candidate of an attempt or on its own: both the map and the peer's events stay right if and only
      if its heartbeat can be set. Otherwise the handshake stays counted for ever, and a peer is lost
      that was never there. */
  lemma CandidateNeedsHeartbeat(s: NodeState, c: Token, heartbeat: bool, r: Reads)
    requires Inv(s) && IsHandshake(s, c) && s.states[c].Candidate? && !InService(s.cm, s.states[c].peer)
    ensures var s', p := WinCandidate(s, c, heartbeat, r), s.states[c].peer;
            && (Accounts(s'.states, s'.cm) <==> heartbeat)
            && (InSessions(s'.events, p) <==> heartbeat)
  {
    var p := s.states[c].peer;
    assert Kin(s.states, c);
    NotInService(s, p);
    if heartbeat {
      WinCandidateKeeps(s, c, r);
      NotWrongMeansSessions(WinCandidate(s, c, true, r).events, p);
    } else {
      LossFromNowhere(s.events, p);
      if s.states[c].parent.Some? {
        var t := s.states[c].parent.value;
        var s1 := Disown(s.Put(c, Candidate(p, None)), c, t);
        WinnerSurvives(s, c, t);
        DetachKeeps(s, c, t);
        EndAttemptKeeps(s1, t);
        LoneLeaks(EndAttempt(s1, t), c, p);
      } else {
        LoneLeaks(s, c, p);
      }
    }
  }

  lemma LoneLeaks(s: NodeState, c: Token, p: Uid)
    requires Accounts(s.states, s.cm) && c in s.states && s.states[c] == Candidate(p, None)
    ensures !Accounts(s.states - {c}, s.cm)
  {
    assert Agrees(s.states, s.cm, p);
    StaysCounted(s.states, s.cm, c, p);
  }

  /** The same of a peer that was granted a bootstrap. */
  lemma AcceptNeedsHeartbeat(s: NodeState, t: Token, u: Uid, role: Role, w: Written)
    requires Inv(s) && IsIncoming(s, t) && s.states[t].checks == {} && s.states[t].next == ToActive(u, role)
    requires w.Finished? && !InService(s.cm, u)
    ensures var s' := WriteIncoming(s, t, w);
            && (Accounts(s'.states, s'.cm) <==> w.heartbeat)
            && (InSessions(s'.events, u) <==> w.heartbeat)
  {
    NotInService(s, u);
    if w.heartbeat {
      WriteIncomingKeeps(s, t, w);
      NotWrongMeansSessions(WriteIncoming(s, t, w).events, u);
    } else {
      LossFromNowhere(s.events, u);
      assert Agrees(s.states, s.cm, u) && t in Handshakes(s.states, u);
      StaysCounted(s.states, s.cm, t, u);
    }
  }

  /** A grant from a peer the map knows nothing of, which was never counted: the map stays right either
      way. But the peer's events stay right, and the bootstrap, which is gone, has had its outcome, if and
      only if the heartbeat can be set. */
  lemma GrantNeedsHeartbeat(s: NodeState, k: Token, u: Uid, heartbeat: bool, r: Reads)
    requires Inv(s) && k in s.states && s.states[k].TryPeer? && u !in s.cm
    ensures var s' := TryDone(s, k, Granted(u), heartbeat, r);
            && Accounts(s'.states, s'.cm) && BOOTSTRAP !in s'.states
            && (InSessions(s'.events, u) <==> heartbeat)
            && (RunningAt(s'.events, |s'.events|) <==> !heartbeat)
  {
    assert Kin(s.states, k);
    if heartbeat {
      GrantWith(s, k, u, r);
    } else {
      GrantWithout(s, k, u, r);
    }
  }

  lemma GrantWith(s: NodeState, k: Token, u: Uid, r: Reads)
    requires Inv(s) && k in s.states && s.states[k].TryPeer? && u !in s.cm
    ensures var s' := TryDone(s, k, Granted(u), true, r);
            && Accounts(s'.states, s'.cm) && BOOTSTRAP !in s'.states
            && InSessions(s'.events, u) && !RunningAt(s'.events, |s'.events|)
  {
    var s' := TryDone(s, k, Granted(u), true, r);
    TryDoneKeeps(s, k, Granted(u), r);
    NotWrongMeansSessions(s'.events, u);
    GoneAfterGrant(s, k, u, r);
    RunningMeansOpen(s'.events);
  }

  lemma GoneAfterGrant(s: NodeState, k: Token, u: Uid, r: Reads)
    requires Inv(s) && k in s.states && s.states[k].TryPeer?
    ensures BOOTSTRAP !in TryDone(s, k, Granted(u), true, r).states
  {
    assert Kin(s.states, k);
  }

  lemma GrantWithout(s: NodeState, k: Token, u: Uid, r: Reads)
    requires Inv(s) && k in s.states && s.states[k].TryPeer? && u !in s.cm && IsBootstrapping(s)
    ensures var s' := TryDone(s, k, Granted(u), false, r);
            && Accounts(s'.states, s'.cm) && BOOTSTRAP !in s'.states
            && !InSessions(s'.events, u) && RunningAt(s'.events, |s'.events|)
  {
    LostWithout(s, k, u, r);
    assert Agrees(s.states, s.cm, u);
    LossFromNowhere(s.events, u);
    PhaseAppend(s.events, LostPeer(u), u);
    RunningMeansOpen(s.events + [LostPeer(u)]);
  }

  lemma LostWithout(s: NodeState, k: Token, u: Uid, r: Reads)
    requires Inv(s) && k in s.states && s.states[k].TryPeer? && IsBootstrapping(s)
    ensures var s' := TryDone(s, k, Granted(u), false, r);
            && Accounts(s'.states, s'.cm) && BOOTSTRAP !in s'.states && s'.events == s.events + [LostPeer(u)]
  {
    LoseTryKeeps(s, k);
    var b := s.states[BOOTSTRAP];
    var s2 := s.Remove(k).Put(BOOTSTRAP, b.(tries := b.tries - {k}));
    EndBootstrapKeeps(s2);
    assert EndBootstrap(s2).states - {k} == EndBootstrap(s2).states;
  }

  // ----- More than one request -----

  /** A grant keeps the map right exactly when the map knows nothing of the peer: the try was never
      counted, yet entering service takes one handshake off. */
  lemma GrantNeedsUnknownPeer(s: NodeState, k: Token, u: Uid)
    requires Inv(s) && k in s.states && s.states[k].TryPeer?
    ensures var s' := TryDone(s, k, Granted(u), true, Reads(0, false));
            Accounts(s'.states, s'.cm) <==> u !in s.cm
  {
    assert Kin(s.states, k);
    LoseTryKeeps(s, k);
    var b := s.states[BOOTSTRAP];
    var s2 := s.Remove(k).Put(BOOTSTRAP, b.(tries := b.tries - {k}));
    EndBootstrapKeeps(s2);
    var s3 := EndBootstrap(s2);
    assert k !in s3.states;
    ActivateAccounts(s3.states, s3.cm, k, u, AsNode);
    assert Agrees(s3.states, s3.cm, u);
    assert s3.events + [BootstrapConnect(u)] + News(u, 0) == s3.events + [BootstrapConnect(u)];
  }

  /** It keeps the peer's events in sessions under a weaker condition: no connection to the peer is in
      service, whatever handshakes the map counts. */
  lemma GrantKeepsSessions(s: NodeState, k: Token, u: Uid, r: Reads)
    requires Inv(s) && k in s.states && s.states[k].TryPeer?
    ensures InSessions(TryDone(s, k, Granted(u), true, r).events, u) <==> !InService(s.cm, u)
  {
    var lost := if r.failed then [LostPeer(u)] else [];
    GrantEvents(s, k, u, r);
    assert Agrees(s.states, s.cm, u);
    if InService(s.cm, u) {
      UpTwice(s.events, BootstrapConnect(u), News(u, r.messages) + lost, u);
    } else {
      UpOnce(s.events, BootstrapConnect(u), r, u);
    }
  }

  lemma UpOnce(events: seq<Event>, up: Event, r: Reads, p: Uid)
    requires PhaseOf(events, p) == Down && IsUp(up, p)
    ensures InSessions(events + ([up] + (News(p, r.messages) + (if r.failed then [LostPeer(p)] else []))), p)
  {
    var lost := if r.failed then [LostPeer(p)] else [];
    var begun := events + [up];
    var all := begun + News(p, r.messages);
    PhaseAppend(events, up, p);
    NewsAppend(begun, p, r.messages, p);
    if r.failed { PhaseAppend(all, LostPeer(p), p); }
    assert events + ([up] + (News(p, r.messages) + lost)) == all + lost;
    assert all + [] == all;
    NotWrongMeansSessions(all + lost, p);
  }

  lemma GrantEvents(s: NodeState, k: Token, u: Uid, r: Reads)
    requires Inv(s) && k in s.states && s.states[k].TryPeer?
    ensures TryDone(s, k, Granted(u), true, r).events ==
            s.events + ([BootstrapConnect(u)] + (News(u, r.messages) + (if r.failed then [LostPeer(u)] else [])))
  {
    assert Kin(s.states, k);
    var news := News(u, r.messages);
    assert s.events + ([BootstrapConnect(u)] + (news + [])) == s.events + [BootstrapConnect(u)] + news;
    assert s.events + ([BootstrapConnect(u)] + (news + [LostPeer(u)])) ==
           (s.events + [BootstrapConnect(u)] + news) + [LostPeer(u)];
  }

  /** Token `t` is counted for `v`; counting it again, for `u`, puts `v`'s entry wrong. */
  lemma CountedAgain(states: States, cm: ConnectionMap, t: Token, st: State, u: Uid, v: Uid)
    requires Agrees(states, cm, v) && t in Handshakes(states, v) && (HandshakesWith(st, v) <==> u == v)
    ensures !Agrees(states[t := st], EnterHandshake(cm, u), v)
  {
    var hs := Handshakes(states, v);
    assert Handshakes(states[t := st], v) == if u == v then hs else hs - {t};
    EnterMiscounts(cm, u, v, hs, Actives(states, v), t, Actives(states[t := st], v));
  }

  /** Token `t`, counted for `v`, stops being a handshake with `v` and stays counted. */
  lemma CountLeft(states: States, cm: ConnectionMap, t: Token, st: State, v: Uid)
    requires Agrees(states, cm, v) && t in Handshakes(states, v) && !HandshakesWith(st, v)
    ensures !Agrees(states[t := st], cm, v)
  {
    var hs := Handshakes(states, v);
    assert Handshakes(states[t := st], v) == hs - {t};
    assert |hs - {t}| == |hs| - 1;
  }

  /** A further request on a connection, whatever it is to lead to, keeps the map right if and only if no
      request before it was to lead to a connection: otherwise the connection is counted twice, or its
      count is lost sight of. */
  lemma SecondRequest(s: NodeState, t: Token, next: NextState)
    requires Inv(s) && IsIncoming(s, t)
    ensures var s' := Settle(s, t, next);
            Accounts(s'.states, s'.cm) <==> s.states[t].next == NoNext
  {
    var s' := Settle(s, t, next);
    if s.states[t].next == NoNext {
      SettleAccounts(s, t, next);
    } else {
      var v := s.states[t].next.uid;
      assert Agrees(s.states, s.cm, v);
      if next.NoNext? {
        CountLeft(s.states, s.cm, t, s'.states[t], v);
      } else {
        CountedAgain(s.states, s.cm, t, s'.states[t], next.uid, v);
      }
    }
  }

  lemma SettleAccounts(s: NodeState, t: Token, next: NextState)
    requires Inv(s) && IsIncoming(s, t) && s.states[t].next == NoNext
    ensures var s' := Settle(s, t, next); Accounts(s'.states, s'.cm)
  {
    var s' := Settle(s, t, next);
    forall q ensures Actives(s'.states, q) == Actives(s.states, q) { SettleSets(s, t, next, q); }
    forall q: Uid | NextPeer(next) != Some(q) ensures Handshakes(s'.states, q) == Handshakes(s.states, q) {
      SettleSets(s, t, next, q);
    }
    if next.NoNext? {
      AccountsQuiet(s.states, s'.states, s.cm);
    } else {
      SettleSets(s, t, next, next.uid);
      HandshakeBegun(s.states, s.cm, t, next.uid, s'.states);
    }
  }

  // ----- Both halves of one readiness event -----

  /** A readiness event that is both readable and writable runs the candidate's write half after its
      read half has been chosen: it finds the new connection in service, takes it for another and
      terminates under its token. So the map is right afterwards exactly when the event was not also
      writable; otherwise it names a connection that is gone. */
  lemma BothHalves(s: NodeState, c: Token, writable: bool)
    requires Inv(s) && IsHandshake(s, c) && s.states[c].Candidate? && !InService(s.cm, s.states[c].peer)
    ensures var p := s.states[c].peer;
            var s' := WinCandidate(s, c, true, Reads(0, false));
            var s'' := if writable then s'.Remove(c).(cm := LeaveHandshake(s'.cm, p)) else s';
            InService(s'.cm, p) && (Accounts(s''.states, s''.cm) <==> !writable)
  {
    var p := s.states[c].peer;
    var s' := WinCandidate(s, c, true, Reads(0, false));
    NotInService(s, p);
    WinCandidateKeeps(s, c, Reads(0, false));
    assert Kin(s.states, c);
    assert c in s'.states && s'.states[c] == Active(p, AsNode);
    assert Agrees(s'.states, s'.cm, p) && c in Actives(s'.states, p);
    SetsRemove(s'.states, {c}, p);
    assert Actives(s'.states, p) == {c};
    assert Actives(s'.states, p) - {c} == {};
    assert !Agrees(s'.states - {c}, LeaveHandshake(s'.cm, p), p);
  }

  /** The connection in service, written and then read in one event. A write that fails ends it, and yet
      the read half goes on with what is left of it. */
  function BothActive(s: NodeState, c: Token, writeFails: bool, r: Reads): NodeState
    requires c in s.states && s.states[c].Active?
  {
    if !writeFails then ReadActive(s, c, r)
    else
      var p, s1 := s.states[c].peer, EndActive(s, c);
      var s2 := s1.(events := s1.events + News(p, r.messages));
      if r.failed then s2.(cm := Deactivate(s2.cm, p)).Say(LostPeer(p))
      else if r.messages > 0 then s2.Arm(c, RECV)
      else s2
  }

  /** The map stays right. The peer's events do if and only if the write did not fail or the read half
      found nothing: otherwise messages, or a second loss, come after the loss. */
  lemma ActiveHalves(s: NodeState, c: Token, writeFails: bool, r: Reads)
    requires Inv(s) && c in s.states && s.states[c].Active?
    ensures var s', p := BothActive(s, c, writeFails, r), s.states[c].peer;
            && Accounts(s'.states, s'.cm)
            && (InSessions(s'.events, p) <==> !writeFails || (r.messages == 0 && !r.failed))
  {
    var p := s.states[c].peer;
    if !writeFails {
      ReadActiveKeeps(s, c, r);
      NotWrongMeansSessions(ReadActive(s, c, r).events, p);
    } else {
      DeadReads(s, c, r);
    }
  }

  lemma DeadReads(s: NodeState, c: Token, r: Reads)
    requires Inv(s) && c in s.states && s.states[c].Active?
    ensures var s', p := BothActive(s, c, true, r), s.states[c].peer;
            Accounts(s'.states, s'.cm) && (InSessions(s'.events, p) <==> r.messages == 0 && !r.failed)
  {
    var p, s1, s' := s.states[c].peer, EndActive(s, c), BothActive(s, c, true, r);
    LostIsDown(s, c);
    DeadState(s, c, r);
    assert Accounts(s'.states, s'.cm);
    AfterTheLoss(s1.events, p, r);
  }

  lemma DeadState(s: NodeState, c: Token, r: Reads)
    requires c in s.states && s.states[c].Active?
    requires var cm, p := EndActive(s, c).cm, s.states[c].peer;
             p in cm ==> cm[p].active.None? && cm[p].handshaking != 0
    ensures var s1, s', p := EndActive(s, c), BothActive(s, c, true, r), s.states[c].peer;
            && s'.states == s1.states && s'.cm == s1.cm
            && s'.events == s1.events + News(p, r.messages) + (if r.failed then [LostPeer(p)] else [])
  {
    var s1, p := EndActive(s, c), s.states[c].peer;
    assert Deactivate(s1.cm, p) == s1.cm;
    var e := s1.events + News(p, r.messages);
    assert e + [] == e;
  }

  lemma LostIsDown(s: NodeState, c: Token)
    requires Inv(s) && c in s.states && s.states[c].Active?
    ensures var s1, p := EndActive(s, c), s.states[c].peer;
            Accounts(s1.states, s1.cm) && PhaseOf(s1.events, p) == Down && !InService(s1.cm, p)
            && (p in s1.cm ==> s1.cm[p].handshaking != 0)
  {
    var s1, p := EndActive(s, c), s.states[c].peer;
    EndActiveKeeps(s, c);
    EndActiveAccounts(s.states, s.cm, c);
    SetsRemove(s.states, {c}, p);
    assert Actives(s.states, p) - {c} == {};
    assert Agrees(s1.states, s1.cm, p);
  }

  lemma AfterTheLoss(events: seq<Event>, p: Uid, r: Reads)
    requires PhaseOf(events, p) == Down
    ensures InSessions(events + News(p, r.messages) + (if r.failed then [LostPeer(p)] else []), p) <==>
            r.messages == 0 && !r.failed
  {
    var more := if r.failed then [LostPeer(p)] else [];
    var all := events + News(p, r.messages) + more;
    if r.messages == 0 && !r.failed {
      assert all == events;
      NotWrongMeansSessions(events, p);
    } else if InSessions(all, p) {
      var e := if r.messages > 0 then NewMessage(p) else LostPeer(p);
      assert all[..|events| + 1] == events + [e];
      PrefixSessions(all, |events| + 1, p);
      PhaseAppend(events, e, p);
      SessionsMeansNotWrong(events + [e], p);
    }
  }

  /** An outgoing exchange whose write fails is terminated; if its read half then fails too it is
      terminated again. The map stays right if and only if the first time left nothing of the peer in
      it: otherwise one handshake too many is taken off. */
  lemma ExchangeHalves(s: NodeState, c: Token)
    requires Inv(s) && IsHandshake(s, c)
    ensures var s1, p := FailHandshake(s, c), s.states[c].peer;
            Accounts(s1.states, LeaveHandshake(s1.cm, p)) <==> p !in s1.cm
  {
    var s1, p := FailHandshake(s, c), s.states[c].peer;
    FailHandshakeKeeps(s, c);
    assert Agrees(s1.states, s1.cm, p);
    if p in s1.cm { assert !Agrees(s1.states, LeaveHandshake(s1.cm, p), p); }
  }
}
