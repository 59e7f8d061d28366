/** Each handler of an incoming exchange and of its reachability checks keeps it too. */
module IncomingOps {
  import opened Options
  import opened ConnMap
  import opened Node
  import opened NodeInv
  import opened Family
  import opened ConnectOps

  // ----- Incoming exchanges -----

  lemma ChecksAre(s: NodeState, t: Token)
    requires Owns(s.states) && TokensOk(s) && IsIncoming(s, t)
    ensures forall k :: k in s.states[t].checks ==> k in s.states && k != t && s.states[k].Checking?
  {
    KidsAreChildless(s.states, t);
    forall k | k in s.states[t].checks ensures k in s.states && k != t && s.states[k].Checking? {
      assert Kin(s.states, k);
    }
  }

  lemma EndChecksKeeps(s: NodeState, t: Token)
    requires Inv(s) && IsIncoming(s, t)
    ensures Inv(EndChecks(s, t))
  {
    var s' := EndChecks(s, t);
    ChecksAre(s, t);
    OwnsDropKids(s.states, t, s.states[t].(checks := {}));
    forall q
      ensures Handshakes(s'.states, q) == Handshakes(s.states, q) && Actives(s'.states, q) == Actives(s.states, q)
    {
    }
    AccountsQuiet(s.states, s'.states, s.cm);
    TraceQuiet(s.states, s'.states, s.events);
    EndChecksTimers(s, t);
  }

  lemma EndChecksTimers(s: NodeState, t: Token)
    requires TimersOk(s) && Owns(s.states) && TokensOk(s) && IsIncoming(s, t)
    ensures TimersOk(EndChecks(s, t))
  {
    ChecksAre(s, t);
  }

  lemma RemoveIncomingKeeps(s: NodeState, t: Token)
    requires Inv(s) && IsIncoming(s, t) && s.states[t].checks == {}
    ensures var s' := s.Remove(t).Cancel(t, 0);
            match NextPeer(s.states[t].next)
            case None => Inv(s')
            case Some(u) => Inv(s'.(cm := LeaveHandshake(s.cm, u)))
  {
    var s' := s.Remove(t).Cancel(t, 0);
    OwnsRemoveRoot(s.states, t);
    forall q
      ensures Handshakes(s'.states, q) == Handshakes(s.states, q) - {t} && Actives(s'.states, q) == Actives(s.states, q)
    {
      SetsRemove(s.states, {t}, q);
    }
    TraceQuiet(s.states, s'.states, s.events);
    match NextPeer(s.states[t].next) {
      case Some(u) => HandshakeGone(s.states, s.cm, t, u, s'.states);
      case None =>
        assert forall q :: Handshakes(s.states, q) - {t} == Handshakes(s.states, q);
        AccountsQuiet(s.states, s'.states, s.cm);
    }
  }

  lemma EndIncomingKeeps(s: NodeState, t: Token)
    requires Inv(s) && IsIncoming(s, t)
    ensures Inv(EndIncoming(s, t))
  {
    EndChecksKeeps(s, t);
    RemoveIncomingKeeps(EndChecks(s, t), t);
  }

  lemma NotInService(s: NodeState, u: Uid)
    requires Accounts(s.states, s.cm) && !InService(s.cm, u)
    ensures Actives(s.states, u) == {}
  {
    assert Agrees(s.states, s.cm, u);
  }

  lemma FinishToActiveKeeps(s: NodeState, t: Token, u: Uid, role: Role, r: Reads)
    requires Inv(s) && IsIncoming(s, t) && s.states[t].checks == {} && s.states[t].next == ToActive(u, role)
    requires Actives(s.states, u) == {}
    ensures Inv(StartActive(s.Cancel(t, 0), t, u, role, BootstrapAccept(u), true, r))
  {
    var s' := s.Cancel(t, 0);
    assert t in Handshakes(s.states, u);
    assert TimersBut(s', t) by {
      forall x | x in s'.timers ensures x.0 != t { assert (x.0, x.1) == x; }
    }
    StartActiveKeeps(s', t, u, role, BootstrapAccept(u), r);
  }

  lemma FinishToCandidateKeeps(s: NodeState, t: Token, u: Uid, registered: bool)
    requires Inv(s) && IsIncoming(s, t) && s.states[t].checks == {} && s.states[t].next == ToCandidate(u)
    ensures var s' := s.Cancel(t, 0).Put(t, Candidate(u, None));
            Inv(s') && Inv(s'.Remove(t).(cm := LeaveHandshake(s.cm, u)))
  {
    var s' := s.Cancel(t, 0).Put(t, Candidate(u, None));
    OwnsPutRoot(s.states, t, Candidate(u, None));
    forall q
      ensures Handshakes(s'.states, q) == Handshakes(s.states, q) && Actives(s'.states, q) == Actives(s.states, q)
    {
    }
    AccountsQuiet(s.states, s'.states, s.cm);
    TraceQuiet(s.states, s'.states, s.events);
    LoseLoneKeeps(s', t);
  }

  /** A reply is written: the exchange goes on to what it settled on, or waits, or is given up. */
  lemma WriteIncomingKeeps(s: NodeState, t: Token, w: Written)
    requires Inv(s) && IsIncoming(s, t) && s.states[t].checks == {}
    requires w.Finished? ==> w.heartbeat
    ensures Inv(WriteIncoming(s, t, w))
  {
    EndIncomingKeeps(s, t);
    if w.Finished? {
      match s.states[t].next {
        case NoNext =>
        case ToActive(u, role) =>
          if !InService(s.cm, u) {
            NotInService(s, u);
            FinishToActiveKeeps(s, t, u, role, w.first);
          }
        case ToCandidate(u) => FinishToCandidateKeeps(s, t, u, w.registered);
      }
    }
  }

  lemma SettleSets(s: NodeState, t: Token, next: NextState, q: Uid)
    requires IsIncoming(s, t) && s.states[t].next == NoNext
    ensures Actives(Settle(s, t, next).states, q) == Actives(s.states, q)
    ensures t !in Handshakes(s.states, q)
    ensures Handshakes(Settle(s, t, next).states, q) ==
            Handshakes(s.states, q) + (if NextPeer(next) == Some(q) then {t} else {})
  {
    SetsPut(s.states, t, s.states[t].(asked := true, replying := true, next := next), q);
  }

  lemma SettleKeeps(s: NodeState, t: Token, next: NextState)
    requires Inv(s) && IsIncoming(s, t) && s.states[t].checks == {} && s.states[t].next == NoNext
    ensures Inv(Settle(s, t, next))
  {
    var s' := Settle(s, t, next);
    OwnsSwapParent(s.states, t, s'.states[t]);
    forall q ensures Actives(s'.states, q) == Actives(s.states, q) { SettleSets(s, t, next, q); }
    TraceQuiet(s.states, s'.states, s.events);
    if next.NoNext? {
      forall q ensures Handshakes(s'.states, q) == Handshakes(s.states, q) { SettleSets(s, t, next, q); }
      AccountsQuiet(s.states, s'.states, s.cm);
    } else {
      forall q | q != next.uid ensures Handshakes(s'.states, q) == Handshakes(s.states, q) {
        SettleSets(s, t, next, q);
      }
      SettleSets(s, t, next, next.uid);
      HandshakeBegun(s.states, s.cm, t, next.uid, s'.states);
    }
  }

  lemma ReplyIncomingKeeps(s: NodeState, t: Token, next: NextState, w: Written)
    requires Inv(s) && IsIncoming(s, t) && s.states[t].checks == {} && s.states[t].next == NoNext
    requires w.Finished? ==> w.heartbeat
    ensures Inv(ReplyIncoming(s, t, next, w))
  {
    SettleKeeps(s, t, next);
    WriteIncomingKeeps(Settle(s, t, next), t, w);
  }

  lemma LaunchCheckKeeps(s: NodeState, t: Token, u: Uid, ok: bool)
    requires Inv(s) && IsIncoming(s, t) && s.states[t].asked && !s.states[t].replying
    ensures Inv(LaunchCheck(s, t, u, ok))
  {
    if ok {
      var x, k := s.states[t], s.counter;
      var s' := LaunchCheck(s, t, u, ok);
      var st := x.(checks := x.checks + {k});
      assert s'.states == s.states[t := st][k := Checking(u, t)];
      OwnsAddChild(s.states, k, Checking(u, t), t, st);
      forall q
        ensures Handshakes(s'.states, q) == Handshakes(s.states, q) && Actives(s'.states, q) == Actives(s.states, q)
      {
      }
      AccountsQuiet(s.states, s'.states, s.cm);
      TraceQuiet(s.states, s'.states, s.events);
    }
  }

  lemma {:induction false} LaunchChecksKeeps(s: NodeState, t: Token, u: Uid, oks: seq<bool>)
    requires Inv(s) && IsIncoming(s, t) && s.states[t].asked && !s.states[t].replying && t < s.counter
    ensures Inv(LaunchChecks(s, t, u, oks))
  {
    if oks != [] {
      LaunchChecksKeeps(s, t, u, oks[..|oks| - 1]);
      LaunchCheckKeeps(LaunchChecks(s, t, u, oks[..|oks| - 1]), t, u, oks[|oks| - 1]);
    }
  }

  lemma AskKeeps(s: NodeState, t: Token)
    requires Inv(s) && IsIncoming(s, t) && !s.states[t].asked
    ensures Inv(s.Put(t, s.states[t].(asked := true)))
  {
    var st := s.states[t].(asked := true);
    var s' := s.Put(t, st);
    OwnsSwapParent(s.states, t, st);
    forall q
      ensures Handshakes(s'.states, q) == Handshakes(s.states, q) && Actives(s'.states, q) == Actives(s.states, q)
    {
    }
    AccountsQuiet(s.states, s'.states, s.cm);
    TraceQuiet(s.states, s'.states, s.events);
  }

  lemma CheckReachabilityKeeps(s: NodeState, t: Token, u: Uid, oks: seq<bool>, w: Written)
    requires Inv(s) && IsIncoming(s, t) && !s.states[t].asked
    requires w.Finished? ==> w.heartbeat
    ensures Inv(CheckReachability(s, t, u, oks, w))
  {
    var s0 := s.Put(t, s.states[t].(asked := true));
    AskKeeps(s, t);
    LaunchChecksKeeps(s0, t, u, oks);
    var s' := LaunchChecks(s0, t, u, oks);
    if s'.states[t].checks == {} { ReplyIncomingKeeps(s', t, NoNext, w); }
  }

  lemma LoseCheckKeeps(s: NodeState, k: Token, t: Token)
    requires Inv(s) && k in s.states && s.states[k].Checking? && s.states[k].exchange == t && IsIncoming(s, t)
    ensures var s1 := s.Cancel(k, 0).Remove(k);
            IsIncoming(s1, t) && Inv(s1.Put(t, s1.states[t].(checks := s1.states[t].checks - {k})))
  {
    var st := s.states[t].(checks := s.states[t].checks - {k});
    var s' := s.Cancel(k, 0).Remove(k).Put(t, st);
    assert k in KidsOf(s.states, t);
    OwnsDropChild(s.states, k, t, st);
    forall q
      ensures Handshakes(s'.states, q) == Handshakes(s.states, q) && Actives(s'.states, q) == Actives(s.states, q)
    {
    }
    AccountsQuiet(s.states, s'.states, s.cm);
    TraceQuiet(s.states, s'.states, s.events);
  }

  lemma CheckDoneKeeps(s: NodeState, k: Token, reached: bool, w: Written)
    requires Inv(s) && k in s.states && s.states[k].Checking?
    requires w.Finished? ==> w.heartbeat
    ensures Inv(CheckDone(s, k, reached, w))
  {
    assert Kin(s.states, k);
    var Checking(u, t) := s.states[k];
    assert k in KidsOf(s.states, t);
    LoseCheckKeeps(s, k, t);
    var s1 := s.Cancel(k, 0).Remove(k);
    var s2 := s1.Put(t, s1.states[t].(checks := s1.states[t].checks - {k}));
    if reached {
      EndChecksKeeps(s2, t);
      ReplyIncomingKeeps(EndChecks(s2, t), t, ToActive(u, AsNode), w);
    } else if s2.states[t].checks == {} {
      ReplyIncomingKeeps(s2, t, NoNext, w);
    }
  }
}
