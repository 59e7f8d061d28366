/** Each handler of a bootstrap and of its tries keeps it too. */
module BootstrapOps {
  import opened ConnMap
  import opened Node
  import opened NodeInv
  import opened Family
  import opened ConnectOps

  /** Everything but the bootstrap's own place in the event order. */
  ghost predicate InvBut(s: NodeState) {
    && Accounts(s.states, s.cm) && Owns(s.states) && TimersOk(s) && TokensOk(s)
    && TraceOk(s.states, s.events) && Shapes(s.states)
  }

  lemma TriesAre(s: NodeState)
    requires Owns(s.states) && TokensOk(s) && IsBootstrapping(s)
    ensures forall k :: k in s.states[BOOTSTRAP].tries ==> k in s.states && k != BOOTSTRAP && s.states[k].TryPeer?
  {
    KidsAreChildless(s.states, BOOTSTRAP);
    forall k | k in s.states[BOOTSTRAP].tries ensures k in s.states && k != BOOTSTRAP && s.states[k].TryPeer? {
      assert Kin(s.states, k);
    }
  }

  lemma EndBootstrapKeeps(s: NodeState)
    requires InvBut(s) && IsBootstrapping(s)
    ensures InvBut(EndBootstrap(s)) && BOOTSTRAP !in EndBootstrap(s).states
  {
    var b := s.states[BOOTSTRAP];
    var s' := EndBootstrap(s);
    TriesAre(s);
    var mid := (s.states - b.tries)[BOOTSTRAP := b.(tries := {})];
    OwnsDropKids(s.states, BOOTSTRAP, b.(tries := {}));
    OwnsRemoveRoot(mid, BOOTSTRAP);
    assert s'.states == mid - {BOOTSTRAP};
    forall q
      ensures Handshakes(s'.states, q) == Handshakes(s.states, q) && Actives(s'.states, q) == Actives(s.states, q)
    {
    }
    AccountsQuiet(s.states, s'.states, s.cm);
    TraceQuiet(s.states, s'.states, s.events);
    EndBootstrapTimers(s);
  }

  lemma EndBootstrapTimers(s: NodeState)
    requires TimersOk(s) && TokensOk(s) && Owns(s.states) && IsBootstrapping(s)
    ensures TimersOk(EndBootstrap(s))
  {
    TriesAre(s);
    var s' := EndBootstrap(s);
    forall x | x in s'.timers ensures x.0 in s'.states || x.0 >= FIRST_TOKEN {
      assert x == (x.0, x.1);
    }
  }

  lemma SayBsKeeps(s: NodeState, e: Event)
    requires InvBut(s) && e in {BootstrapFailed, BootstrapStopped, BootstrapStarted}
    requires NextBs(BsPhaseOf(s.events), e) == if BOOTSTRAP in s.states then Running else Resting
    ensures Inv(s.Say(e))
  {
    forall p ensures PhaseOf(s.events + [e], p) == PhaseOf(s.events, p) { PhaseAppend(s.events, e, p); }
    PhaseAppend(s.events, e, 0);
  }

  /** A bootstrap that ends with one event, of failure or of being stopped. */
  lemma EndBootstrapSayKeeps(s: NodeState, e: Event)
    requires Inv(s) && IsBootstrapping(s) && e in {BootstrapFailed, BootstrapStopped}
    ensures Inv(EndBootstrap(s).Say(e)) && BOOTSTRAP !in EndBootstrap(s).Say(e).states
  {
    EndBootstrapKeeps(s);
    SayBsKeeps(EndBootstrap(s), e);
  }

  lemma LaunchTryKeeps(s: NodeState, ok: bool)
    requires Inv(s) && IsBootstrapping(s) && !s.states[BOOTSTRAP].discovering
    ensures Inv(LaunchTry(s, ok))
  {
    if ok {
      var b, k := s.states[BOOTSTRAP], s.counter;
      var s' := LaunchTry(s, ok);
      var st := b.(tries := b.tries + {k});
      assert s'.states == s.states[BOOTSTRAP := st][k := TryPeer];
      OwnsAddChild(s.states, k, TryPeer, BOOTSTRAP, st);
      forall q
        ensures Handshakes(s'.states, q) == Handshakes(s.states, q) && Actives(s'.states, q) == Actives(s.states, q)
      {
      }
      AccountsQuiet(s.states, s'.states, s.cm);
      TraceQuiet(s.states, s'.states, s.events);
    }
  }

  lemma {:induction false} LaunchTriesKeeps(s: NodeState, oks: seq<bool>)
    requires Inv(s) && IsBootstrapping(s) && !s.states[BOOTSTRAP].discovering && BOOTSTRAP < s.counter
    ensures Inv(LaunchTries(s, oks))
  {
    if oks != [] {
      LaunchTriesKeeps(s, oks[..|oks| - 1]);
      LaunchTryKeeps(LaunchTries(s, oks[..|oks| - 1]), oks[|oks| - 1]);
    }
  }

  lemma MaybeEndBootstrapKeeps(s: NodeState)
    requires Inv(s) && IsBootstrapping(s)
    ensures Inv(MaybeEndBootstrap(s))
  {
    if s.states[BOOTSTRAP].tries == {} { EndBootstrapSayKeeps(s, BootstrapFailed); }
  }

  lemma BeginBootstrapKeeps(s: NodeState, oks: seq<bool>)
    requires Inv(s) && IsBootstrapping(s) && !s.states[BOOTSTRAP].discovering && BOOTSTRAP < s.counter
    ensures Inv(BeginBootstrap(s, oks))
  {
    LaunchTriesKeeps(s, oks);
    MaybeEndBootstrapKeeps(LaunchTries(s, oks));
  }

  /** A bootstrap appears, with discovery pending or not. */
  lemma BootstrapBegunKeeps(s: NodeState, discover: bool)
    requires Inv(s) && BOOTSTRAP !in s.states
    ensures var s0 := s.Arm(BOOTSTRAP, 0).Put(BOOTSTRAP, Bootstrapping({}, discover)).Say(BootstrapStarted);
            Inv(if discover then s0.Arm(BOOTSTRAP, DISCOVERY) else s0)
  {
    var st := Bootstrapping({}, discover);
    var s0 := s.Arm(BOOTSTRAP, 0).Put(BOOTSTRAP, st);
    var s1 := if discover then s0.Arm(BOOTSTRAP, DISCOVERY) else s0;
    OwnsPutRoot(s.states, BOOTSTRAP, st);
    forall q
      ensures Handshakes(s0.states, q) == Handshakes(s.states, q) && Actives(s0.states, q) == Actives(s.states, q)
    {
    }
    AccountsQuiet(s.states, s0.states, s.cm);
    TraceQuiet(s.states, s0.states, s.events);
    StartTimers(s, discover, s1);
    SayBsKeeps(s1, BootstrapStarted);
  }

  lemma StartTimers(s: NodeState, discover: bool, s': NodeState)
    requires TimersOk(s) && TokensOk(s) && BOOTSTRAP !in s.states
    requires s'.states == s.states[BOOTSTRAP := Bootstrapping({}, discover)] && s'.counter == s.counter
    requires s'.timers == s.timers + {(BOOTSTRAP, 0)} + (if discover then {(BOOTSTRAP, DISCOVERY)} else {})
    ensures TimersOk(s')
  {
    forall id ensures (BOOTSTRAP, id) !in s.timers { }
  }

  lemma StartBootstrapKeeps(s: NodeState, discover: bool, oks: seq<bool>)
    requires Inv(s) && BOOTSTRAP !in s.states
    ensures Inv(StartBootstrap(s, discover, oks))
  {
    BootstrapBegunKeeps(s, discover);
    if !discover {
      BeginBootstrapKeeps(s.Arm(BOOTSTRAP, 0).Put(BOOTSTRAP, Bootstrapping({}, false)).Say(BootstrapStarted), oks);
    }
  }

  /** Discovery is over, with its timer. */
  lemma DiscoveryOverKeeps(s: NodeState)
    requires Inv(s) && IsBootstrapping(s) && s.states[BOOTSTRAP].discovering
    ensures Inv(s.Cancel(BOOTSTRAP, DISCOVERY).Put(BOOTSTRAP, s.states[BOOTSTRAP].(discovering := false)))
  {
    var st := s.states[BOOTSTRAP].(discovering := false);
    var s' := s.Cancel(BOOTSTRAP, DISCOVERY).Put(BOOTSTRAP, st);
    OwnsSwapParent(s.states, BOOTSTRAP, st);
    forall q
      ensures Handshakes(s'.states, q) == Handshakes(s.states, q) && Actives(s'.states, q) == Actives(s.states, q)
    {
    }
    AccountsQuiet(s.states, s'.states, s.cm);
    TraceQuiet(s.states, s'.states, s.events);
  }

  lemma DiscoveredKeeps(s: NodeState, oks: seq<bool>)
    requires Inv(s) && IsBootstrapping(s) && s.states[BOOTSTRAP].discovering
    ensures Inv(Discovered(s, oks))
  {
    DiscoveryOverKeeps(s);
    BeginBootstrapKeeps(s.Cancel(BOOTSTRAP, DISCOVERY).Put(BOOTSTRAP, s.states[BOOTSTRAP].(discovering := false)), oks);
  }

  /** The invariant does not depend on stale timers, nor on events that change nobody's phase. */
  lemma SameForInv(s: NodeState, stale: nat, events: seq<Event>)
    requires Inv(s) && BsPhaseOf(events) == BsPhaseOf(s.events)
    requires forall p :: PhaseOf(events, p) == PhaseOf(s.events, p)
    ensures Inv(s.(stale := stale, events := events))
  {
  }

  lemma NotStartedKeeps(s: NodeState, timerLeft: bool)
    requires Inv(s) && BOOTSTRAP !in s.states
    ensures Inv(NotStarted(s, timerLeft))
  {
    var es := s.events + [BootstrapStarted];
    forall p ensures PhaseOf(es + [BootstrapFailed], p) == PhaseOf(s.events, p) {
      PhaseAppend(s.events, BootstrapStarted, p);
      PhaseAppend(es, BootstrapFailed, p);
    }
    PhaseAppend(s.events, BootstrapStarted, 0);
    PhaseAppend(es, BootstrapFailed, 0);
    SameForInv(s, if timerLeft then s.stale + 1 else s.stale, es + [BootstrapFailed]);
  }

  lemma StaleFiresKeeps(s: NodeState)
    requires Inv(s) && s.stale > 0
    ensures Inv(StaleFires(s))
  {
    var s' := s.(stale := s.stale - 1);
    SameForInv(s, s.stale - 1, s.events);
    if IsBootstrapping(s') { EndBootstrapSayKeeps(s', BootstrapFailed); }
  }

  lemma LoseTryKeeps(s: NodeState, k: Token)
    requires Inv(s) && k in s.states && s.states[k].TryPeer? && IsBootstrapping(s)
    ensures var b := s.states[BOOTSTRAP];
            var s2 := s.Remove(k).Put(BOOTSTRAP, b.(tries := b.tries - {k}));
            Inv(s2) && k !in s2.states && (forall id :: (k, id) !in s2.timers) && k >= FIRST_TOKEN
  {
    var b := s.states[BOOTSTRAP];
    var st := b.(tries := b.tries - {k});
    var s2 := s.Remove(k).Put(BOOTSTRAP, st);
    assert k in KidsOf(s.states, BOOTSTRAP);
    OwnsDropChild(s.states, k, BOOTSTRAP, st);
    forall q
      ensures Handshakes(s2.states, q) == Handshakes(s.states, q) && Actives(s2.states, q) == Actives(s.states, q)
    {
    }
    AccountsQuiet(s.states, s2.states, s.cm);
    TraceQuiet(s.states, s2.states, s.events);
  }

  /** A grant brings the granting peer into service if the map knows nothing of it. */
  lemma GrantKeeps(s: NodeState, k: Token, u: Uid, r: Reads)
    requires InvBut(s) && BsPhaseOf(s.events) == Running && BOOTSTRAP !in s.states
    requires FIRST_TOKEN <= k < s.counter && k !in s.states && (forall id :: (k, id) !in s.timers) && u !in s.cm
    ensures Inv(StartActive(s, k, u, AsNode, BootstrapConnect(u), true, r))
  {
    assert Agrees(s.states, s.cm, u);
    assert TimersBut(s, k) by {
      forall x | x in s.timers ensures x.0 != k { assert x == (x.0, x.1); }
    }
    StartActiveKeeps(s, k, u, AsNode, BootstrapConnect(u), r);
  }

  lemma TryDoneKeeps(s: NodeState, k: Token, res: TryResult, r: Reads)
    requires Inv(s) && k in s.states && s.states[k].TryPeer?
    requires res.Granted? ==> res.uid !in s.cm
    ensures Inv(TryDone(s, k, res, true, r))
  {
    assert Kin(s.states, k);
    LoseTryKeeps(s, k);
    var b := s.states[BOOTSTRAP];
    var s2 := s.Remove(k).Put(BOOTSTRAP, b.(tries := b.tries - {k}));
    match res {
      case Granted(u) =>
        EndBootstrapKeeps(s2);
        GrantKeeps(EndBootstrap(s2), k, u, r);
      case Denied(reason) =>
        if Fatal(reason) { EndBootstrapSayKeeps(s2, BootstrapFailed); } else { MaybeEndBootstrapKeeps(s2); }
    }
  }
}
