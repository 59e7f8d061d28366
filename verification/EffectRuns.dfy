/** That every step of a node does what `Effects` says, and that nothing else would keep the invariant. */
module EffectRuns {
  import opened Options
  import opened ConnMap
  import opened Node
  import opened NodeInv
  import opened NodeRuns
  import opened Attempts
  import opened Effects

  // ----- Starting sub-states -----

  lemma OneMore(first: Token, oks: seq<bool>, st: State)
    requires oks != []
    ensures var n := |oks| - 1;
            Launched(first, oks, st) == if oks[n] then Launched(first, oks[..n], st)[first + n := st]
                                        else Launched(first, oks[..n], st)
    ensures true in oks <==> true in oks[..|oks| - 1] || oks[|oks| - 1]
  {
    var n := |oks| - 1;
    var all, front := Launched(first, oks, st), Launched(first, oks[..n], st);
    forall t | t in all ensures (t == first + n && oks[n]) || t in front {
      assert Opened(first, oks, t);
      if t < first + n { assert oks[..n][t - first] == oks[t - first] && Opened(first, oks[..n], t); }
    }
    forall t | t in front ensures t in all && t != first + n {
      assert Opened(first, oks[..n], t) && oks[..n][t - first] == oks[t - first];
      assert Opened(first, oks, t);
    }
    if oks[n] { assert Opened(first, oks, first + n); }
    assert oks == oks[..n] + [oks[n]];
  }

  lemma NoneOpened(first: Token, st: State)
    ensures Launched(first, [], st) == map[]
  {
  }

  lemma {:induction false} ExchangesOpen(s: NodeState, t: Token, oks: seq<bool>)
    requires IsAttempt(s, t) && t < s.counter
    ensures var s', p := LaunchExchanges(s, t, oks), s.states[t].peer;
            && Bare(s'.states) == Bare(s.states)[t := Connecting(p, {}, s'.states[t].armed)]
                 + Launched(s.counter, oks, OutExchange(p, t))
            && s'.counter == s.counter + |oks|
  {
    var p := s.states[t].peer;
    if oks == [] {
      NoneOpened(s.counter, OutExchange(p, t));
    } else {
      var n := |oks| - 1;
      var s1, s' := LaunchExchanges(s, t, oks[..n]), LaunchExchanges(s, t, oks);
      ExchangesOpen(s, t, oks[..n]);
      OneMore(s.counter, oks, OutExchange(p, t));
      ExchangeOpens(s1, t, oks[n]);
      var a, l := Bare(s.states), Launched(s.counter, oks[..n], OutExchange(p, t));
      OverSame(a, t, Connecting(p, {}, s1.states[t].armed), Connecting(p, {}, s'.states[t].armed), l,
               s.counter + n, OutExchange(p, t));
    }
  }

  lemma ExchangeOpens(s: NodeState, t: Token, ok: bool)
    requires IsAttempt(s, t) && t < s.counter
    ensures var s', p := LaunchExchange(s, t, ok), s.states[t].peer;
            var b := Bare(s.states)[t := Connecting(p, {}, s'.states[t].armed)];
            && Bare(s'.states) == (if ok then b[s.counter := OutExchange(p, t)] else b)
            && s'.counter == s.counter + 1
  {
    assert LaunchExchange(s, t, ok).states[t].peer == s.states[t].peer;
  }

  lemma OverSame(a: States, t: Token, x: State, y: State, l: States, k: Token, st: State)
    requires t !in l && t != k && k !in l
    ensures (a[t := x] + l)[t := y] == a[t := y] + l
    ensures (a[t := x] + l)[t := y][k := st] == a[t := y] + l[k := st]
  {
  }

  lemma AttemptTable(s: NodeState, p: Uid, oks: seq<bool>)
    ensures var s', t, armed := StartAttempt(s, p, oks), s.counter, oks == [] || oks[0];
            && Bare(s'.states) == Bare(s.states)[t := Connecting(p, {}, true)][t := Connecting(p, {}, armed)]
                 + Launched(t + 1, oks, OutExchange(p, t))
            && s'.counter == t + 1 + |oks|
  {
    var t := s.counter;
    var s0 := s.Skip().Put(t, Connecting(p, {}, true)).Arm(t, 0);
    ExchangesOpen(s0, t, oks);
    assert LaunchExchanges(s0, t, oks).states[t].armed <==> oks == [] || oks[0] by { LaunchOutcome(s0, t, oks); }
    BarePut(s.states, t, Connecting(p, {}, true));
  }

  lemma PutAll(a: States, t: Token, x: State, y: State, l: States)
    ensures a[t := x][t := y] + l == (a - {}) + (map[t := y] + l)
    ensures a[t := y] + l == (a - {}) + (map[t := y] + l)
  {
  }

  lemma AttemptStartSays(s: NodeState, p: Uid, oks: seq<bool>)
    requires Inv(s)
    ensures StartAttempt(s, p, oks).events == s.events + AttemptBegins(s, p, oks).said
  {
    StartReports(s, p, oks);
    KnownRemains(s, p);
    assert Failures(p, Leading(oks)) == seq(Leading(oks), _ => ConnectFailure(p));
  }

  lemma AttemptStarts(s: NodeState, p: Uid, oks: seq<bool>)
    requires Inv(s)
    ensures Does(s, AttemptBegins(s, p, oks), StartAttempt(s, p, oks))
  {
    AttemptTable(s, p, oks);
    PutAll(Bare(s.states), s.counter, Connecting(p, {}, true), Connecting(p, {}, oks == [] || oks[0]),
           Launched(s.counter + 1, oks, OutExchange(p, s.counter)));
    AttemptStartSays(s, p, oks);
  }

  // ----- Incoming exchanges -----

  /** An exchange that has settled on its reply and has no checks. */
  lemma ReplyGoes(s: NodeState, t: Token, w: Written)
    requires IsIncoming(s, t) && s.states[t].asked && s.states[t].replying && s.states[t].checks == {}
    requires HeartbeatSet(w)
    ensures var next := s.states[t].next;
            Does(s, Settles({t}, next.ToActive? && InService(s.cm, next.uid), t, next, w), WriteIncoming(s, t, w))
  {
    var next := s.states[t].next;
    assert s.events + [] == s.events;
    assert Bare(s.states)[t] == InExchange(true, true, next, {});
    ExchangeGone(s, t);
    BareRemove(s.states, {t});
    if w.Finished? && next.ToActive? {
      ServiceBegins(s.Cancel(t, 0), t, next.uid, next.role, BootstrapAccept(next.uid), w.first);
      assert {} + {t} == {t} + {t};
    } else if w.Finished? && next.ToCandidate? {
      CandidateMade(s, t, next.uid, w);
    } else if w.Unfinished? {
      assert (Bare(s.states) - {t}) + map[t := InExchange(true, true, next, {})] == Bare(s.states);
    }
  }

  lemma ExchangeGone(s: NodeState, t: Token)
    requires IsIncoming(s, t) && s.states[t].checks == {}
    ensures Does(s, Effect({t}, map[], [], 0), EndIncoming(s, t))
  {
    assert EndIncoming(s, t).states == s.states - {t};
    BareRemove(s.states, {t});
    assert s.events + [] == s.events;
  }

  lemma CandidateMade(s: NodeState, t: Token, u: Uid, w: Written)
    requires IsIncoming(s, t) && s.states[t].next == ToCandidate(u) && w.Finished?
    ensures Does(s, Effect({t}, if w.registered then map[t := Candidate(u, None)] else map[], [], 0),
                 FinishIncoming(s, t, w))
  {
    BarePut(s.states, t, Candidate(u, None));
    BareRemove(s.states[t := Candidate(u, None)], {t});
    PutThenGone(Bare(s.states), t, Candidate(u, None));
    assert {} + {t} == {t};
    assert s.events + [] == s.events;
  }

  /** An exchange whose checks are all gone settles on its reply. */
  lemma SettleGoes(s: NodeState, s1: NodeState, t: Token, next: NextState, w: Written, tokens: nat)
    requires Accounts(s.states, s.cm) && HeartbeatSet(w)
    requires IsIncoming(s1, t) && s1.states[t].checks == {} && s1.cm == s.cm
    requires s1.events == s.events && s1.counter == s.counter + tokens
    requires Bare(s1.states) - {t} == Bare(s.states) - WithKids(s.states, t)
    ensures Does(s, Replies(s, t, next, w).(tokens := tokens), ReplyIncoming(s1, t, next, w))
  {
    var s2, all := Settle(s1, t, next), WithKids(s.states, t);
    ReplyGoes(s2, t, w);
    if next.ToActive? { KnownRemains(s, next.uid); }
    var inService := next.ToActive? && InService(s2.cm, next.uid);
    BareRemove(s1.states, {t});
    BareRemove(s2.states, {t});
    assert s2.states - {t} == s1.states - {t};
    AllSettles(all, inService, t, next, w);
    GoneFirst(s, s2, t, Settles({t}, inService, t, next, w), all, tokens, ReplyIncoming(s1, t, next, w));
  }

  lemma AllSettles(all: set<Token>, inService: bool, t: Token, next: NextState, w: Written)
    requires t in all
    ensures Settles({t}, inService, t, next, w).gone == {t}
    ensures Settles(all, inService, t, next, w) == Settles({t}, inService, t, next, w).(gone := all)
  {
    assert all + {t} == all && {t} + {t} == {t};
  }

  lemma Unchecked(s: NodeState, t: Token)
    requires Owns(s.states) && IsIncoming(s, t) && s.states[t].checks == {}
    ensures WithKids(s.states, t) == {t}
  {
    assert Kids(s.states[t]) == KidsOf(s.states, t);
  }

  lemma ReplyDoes(s: NodeState, t: Token, next: NextState, w: Written)
    requires Inv(s) && IsIncoming(s, t) && s.states[t].checks == {} && HeartbeatSet(w)
    ensures Does(s, Replies(s, t, next, w), ReplyIncoming(s, t, next, w))
  {
    Unchecked(s, t);
    SettleGoes(s, s, t, next, w, 0);
    SettlesTokens(WithKids(s.states, t), next.ToActive? && Actives(s.states, next.uid) != {}, t, next, w);
  }

  lemma SettlesTokens(all: set<Token>, inService: bool, t: Token, next: NextState, w: Written)
    ensures Settles(all, inService, t, next, w).tokens == 0
  {
  }

  lemma WritableReplyDoes(s: NodeState, t: Token, w: Written)
    requires Inv(s) && IsIncoming(s, t) && s.states[t].replying && HeartbeatSet(w)
    ensures Does(s, Replies(s, t, s.states[t].next, w), WriteIncoming(s, t, w))
  {
    assert Shape(s.states[t]);
    Unchecked(s, t);
    if s.states[t].next.ToActive? { KnownRemains(s, s.states[t].next.uid); }
    ReplyGoes(s, t, w);
  }

  lemma IncomingGoes(s: NodeState, t: Token)
    requires Owns(s.states) && IsIncoming(s, t)
    ensures Does(s, Effect(WithKids(s.states, t), map[], [], 0), EndIncoming(s, t))
  {
    assert Kids(s.states[t]) == KidsOf(s.states, t);
    assert EndIncoming(s, t).states == s.states - WithKids(s.states, t);
    BareRemove(s.states, WithKids(s.states, t));
    assert s.events + [] == s.events;
  }

  lemma {:induction false} ChecksOpen(s: NodeState, t: Token, u: Uid, oks: seq<bool>)
    requires IsIncoming(s, t) && t < s.counter
    ensures var s' := LaunchChecks(s, t, u, oks);
            && Bare(s'.states) == Bare(s.states) + Launched(s.counter, oks, Checking(u, t))
            && s'.counter == s.counter + |oks| && s'.cm == s.cm && s'.events == s.events
            && (s.states[t].checks == {} ==> (s'.states[t].checks == {} <==> true !in oks))
  {
    if oks == [] {
      NoneOpened(s.counter, Checking(u, t));
    } else {
      var n := |oks| - 1;
      var s1 := LaunchChecks(s, t, u, oks[..n]);
      ChecksOpen(s, t, u, oks[..n]);
      OneMore(s.counter, oks, Checking(u, t));
      CheckOpens(s1, t, u, oks[n]);
      OneAfter(Bare(s.states), Launched(s.counter, oks[..n], Checking(u, t)), s.counter + n, Checking(u, t));
    }
  }

  lemma CheckOpens(s: NodeState, t: Token, u: Uid, ok: bool)
    requires IsIncoming(s, t) && t < s.counter
    ensures var s' := LaunchCheck(s, t, u, ok);
            && Bare(s'.states) == (if ok then Bare(s.states)[s.counter := Checking(u, t)] else Bare(s.states))
            && s'.states[t].checks == s.states[t].checks + (if ok then {s.counter} else {})
  {
  }

  lemma OneAfter(a: States, l: States, k: Token, st: State)
    ensures (a + l)[k := st] == a + l[k := st]
  {
  }

  lemma ChecksTable(s: NodeState, t: Token, u: Uid, oks: seq<bool>)
    requires TokensOk(s) && IsIncoming(s, t) && Shape(s.states[t]) && !s.states[t].asked
    ensures var s1 := LaunchChecks(s.Put(t, s.states[t].(asked := true)), t, u, oks);
            && Bare(s1.states) == Bare(s.states)[t := InExchange(true, false, NoNext, {})]
                 + Launched(s.counter, oks, Checking(u, t))
            && s1.counter == s.counter + |oks| && s1.cm == s.cm && s1.events == s.events
            && (s1.states[t].checks == {} <==> true !in oks)
  {
    ChecksOpen(s.Put(t, s.states[t].(asked := true)), t, u, oks);
    BarePut(s.states, t, s.states[t].(asked := true));
  }

  lemma ChecksBegin(s: NodeState, t: Token, u: Uid, oks: seq<bool>, w: Written)
    requires Inv(s) && IsIncoming(s, t) && !s.states[t].asked && HeartbeatSet(w)
    ensures Does(s, if true in oks then
                      var asked := map[t := InExchange(true, false, NoNext, {})];
                      Effect({}, asked + Launched(s.counter, oks, Checking(u, t)), [], |oks|)
                    else Replies(s, t, NoNext, w).(tokens := |oks|),
                 CheckReachability(s, t, u, oks, w))
  {
    assert Shape(s.states[t]);
    ChecksTable(s, t, u, oks);
    if true in oks {
      var x := InExchange(true, false, NoNext, {});
      PutAll(Bare(s.states), t, x, x, Launched(s.counter, oks, Checking(u, t)));
      assert s.events + [] == s.events;
    } else {
      NoCheckBegins(s, t, u, oks, w);
    }
  }

  lemma NoCheckBegins(s: NodeState, t: Token, u: Uid, oks: seq<bool>, w: Written)
    requires Inv(s) && IsIncoming(s, t) && !s.states[t].asked && HeartbeatSet(w) && true !in oks
    ensures Does(s, Replies(s, t, NoNext, w).(tokens := |oks|), CheckReachability(s, t, u, oks, w))
  {
    assert Shape(s.states[t]);
    var s1 := LaunchChecks(s.Put(t, s.states[t].(asked := true)), t, u, oks);
    ChecksTable(s, t, u, oks);
    NoneLaunched(s.counter, oks, Checking(u, t));
    Unchecked(s, t);
    assert Bare(s1.states) - {t} == Bare(s.states) - {t};
    SettleGoes(s, s1, t, NoNext, w, |oks|);
  }

  lemma NoneLaunched(first: Token, oks: seq<bool>, st: State)
    requires true !in oks
    ensures Launched(first, oks, st) == map[]
  {
    forall t: Token ensures !Opened(first, oks, t) {
      if first <= t < first + |oks| { assert oks[t - first] in oks; }
    }
  }

  lemma RequestDoes(us: Uid, s: NodeState, t: Token, u: Uid, ask: Ask, env: R.Setting, oks: seq<bool>, w: Written)
    requires Inv(s) && IsIncoming(s, t) && !s.states[t].asked && HeartbeatSet(w)
    ensures Does(s, Asked(us, s, t, u, ask, env, oks, w), OnRequest(s, t, VerdictFor(us, u, ask, env), oks, w))
  {
    assert Shape(s.states[t]);
    match VerdictFor(us, u, ask, env) {
      case Reject => IncomingGoes(s, t);
      case Answer => ReplyDoes(s, t, NoNext, w);
      case Grant(v, role) => ReplyDoes(s, t, ToActive(v, role), w);
      case Introduce(v) => ReplyDoes(s, t, ToCandidate(v), w);
      case CheckFirst(v) => ChecksBegin(s, t, v, oks, w);
    }
  }

  lemma CheckDoes(s: NodeState, k: Token, reached: bool, w: Written)
    requires Inv(s) && k in s.states && s.states[k].Checking? && HeartbeatSet(w)
    ensures Does(s, CheckOver(s, k, reached, w), CheckDone(s, k, reached, w))
  {
    var t := s.states[k].exchange;
    CheckLeaves(s, k, t);
    if reached || KidsOf(s.states, t) == {k} {
      CheckSettles(s, k, t, reached, w);
    } else {
      assert s.events + [] == s.events;
    }
  }

  lemma CheckSettles(s: NodeState, k: Token, t: Token, reached: bool, w: Written)
    requires Inv(s) && k in s.states && s.states[k].Checking? && s.states[k].exchange == t && HeartbeatSet(w)
    requires reached || KidsOf(s.states, t) == {k}
    ensures Does(s, Replies(s, t, if reached then ToActive(s.states[k].peer, AsNode) else NoNext, w),
                 CheckDone(s, k, reached, w))
  {
    CheckLeaves(s, k, t);
    var all, next := WithKids(s.states, t), if reached then ToActive(s.states[k].peer, AsNode) else NoNext;
    var s2 := s.Cancel(k, 0).Remove(k).Put(t, s.states[t].(checks := s.states[t].checks - {k}));
    SettlesTokens(all, next.ToActive? && Actives(s.states, next.uid) != {}, t, next, w);
    if reached {
      SettleGoes(s, EndChecks(s2, t), t, next, w, 0);
    } else {
      assert Bare(s2.states) - {t} == Bare(s.states) - all;
      SettleGoes(s, s2, t, next, w, 0);
    }
  }

  lemma CheckLeaves(s: NodeState, k: Token, t: Token)
    requires Owns(s.states) && k in s.states && s.states[k].Checking? && s.states[k].exchange == t
    ensures IsIncoming(s, t) && k != t
    ensures var s2 := s.Cancel(k, 0).Remove(k).Put(t, s.states[t].(checks := s.states[t].checks - {k}));
            && Bare(s2.states) == Bare(s.states) - {k}
            && (s2.states[t].checks == {} <==> KidsOf(s.states, t) == {k})
            && Bare(EndChecks(s2, t).states) - {t} == Bare(s.states) - WithKids(s.states, t)
  {
    assert Kin(s.states, k);
    assert Kids(s.states[t]) == KidsOf(s.states, t) && k in KidsOf(s.states, t);
    var s2 := s.Cancel(k, 0).Remove(k).Put(t, s.states[t].(checks := s.states[t].checks - {k}));
    BareRemove(s.states, {k});
    BarePut(s.states - {k}, t, s2.states[t]);
    var s3 := EndChecks(s2, t);
    assert s3.states - {t} == s.states - WithKids(s.states, t);
    BareRemove(s3.states, {t});
    BareRemove(s.states, WithKids(s.states, t));
    assert s.states[t].checks - {k} == {} <==> KidsOf(s.states, t) == {k};
  }

  // ----- Bootstrapping -----

  lemma BootstrapGoes(s: NodeState, e: Event)
    requires Owns(s.states) && IsBootstrapping(s)
    ensures Does(s, Effect(WithKids(s.states, BOOTSTRAP), map[], [e], 0), EndBootstrap(s).Say(e))
  {
    var all := WithKids(s.states, BOOTSTRAP);
    assert Kids(s.states[BOOTSTRAP]) == KidsOf(s.states, BOOTSTRAP);
    assert EndBootstrap(s).states == s.states - all;
    BareRemove(s.states, all);
  }

  lemma {:induction false} TriesOpen(s: NodeState, oks: seq<bool>)
    requires IsBootstrapping(s) && BOOTSTRAP < s.counter
    ensures var s' := LaunchTries(s, oks);
            && Bare(s'.states) == Bare(s.states) + Launched(s.counter, oks, TryPeer)
            && s'.counter == s.counter + |oks| && s'.events == s.events
            && (s.states[BOOTSTRAP].tries == {} ==> (s'.states[BOOTSTRAP].tries == {} <==> true !in oks))
  {
    if oks == [] {
      NoneOpened(s.counter, TryPeer);
    } else {
      var n := |oks| - 1;
      var s1 := LaunchTries(s, oks[..n]);
      TriesOpen(s, oks[..n]);
      assert LaunchTries(s, oks) == LaunchTry(s1, oks[n]);
      OneMore(s.counter, oks, TryPeer);
      TryOpens(s1, oks[n]);
      OneAfter(Bare(s.states), Launched(s.counter, oks[..n], TryPeer), s.counter + n, TryPeer);
    }
  }

  lemma TryOpens(s: NodeState, ok: bool)
    requires IsBootstrapping(s) && BOOTSTRAP < s.counter
    ensures var s' := LaunchTry(s, ok);
            && Bare(s'.states) == (if ok then Bare(s.states)[s.counter := TryPeer] else Bare(s.states))
            && s'.states[BOOTSTRAP].tries == s.states[BOOTSTRAP].tries + (if ok then {s.counter} else {})
  {
  }

  /** From a state that has its bootstrap in place, with no tries yet. */
  lemma TriesBeginGoes(s: NodeState, s1: NodeState, oks: seq<bool>, started: seq<Event>)
    requires BOOTSTRAP < s.counter && IsBootstrapping(s1) && s1.states[BOOTSTRAP] == Bootstrapping({}, false)
    requires Bare(s1.states) == Bare(s.states)[BOOTSTRAP := Bootstrapping({}, false)]
    requires s1.events == s.events + started && s1.counter == s.counter
    ensures Does(s, TriesBegin(s, oks, started), BeginBootstrap(s1, oks))
  {
    var s2, l := LaunchTries(s1, oks), Launched(s.counter, oks, TryPeer);
    TriesOpen(s1, oks);
    PutAll(Bare(s.states), BOOTSTRAP, Bootstrapping({}, false), Bootstrapping({}, false), l);
    if true !in oks {
      NoneLaunched(s.counter, oks, TryPeer);
      var s3 := EndBootstrap(s2);
      assert s3.states == s2.states - {BOOTSTRAP};
      BareRemove(s2.states, {BOOTSTRAP});
      assert Bare(s3.states) == Bare(s.states) - {BOOTSTRAP};
      Regrouped(s.events, started, [BootstrapFailed]);
    }
  }

  lemma BootstrapStarts(s: NodeState, discover: bool, oks: seq<bool>)
    requires TokensOk(s) && BOOTSTRAP !in s.states
    ensures Does(s, if discover then Effect({}, map[BOOTSTRAP := Bootstrapping({}, true)], [BootstrapStarted], 0)
                    else TriesBegin(s, oks, [BootstrapStarted]),
                 StartBootstrap(s, discover, oks))
  {
    var s1 := s.Arm(BOOTSTRAP, 0).Put(BOOTSTRAP, Bootstrapping({}, discover)).Say(BootstrapStarted);
    BarePut(s.states, BOOTSTRAP, Bootstrapping({}, discover));
    if discover {
      assert Bare(s.states)[BOOTSTRAP := Bootstrapping({}, true)] ==
             (Bare(s.states) - {}) + map[BOOTSTRAP := Bootstrapping({}, true)];
    } else {
      TriesBeginGoes(s, s1, oks, [BootstrapStarted]);
    }
  }

  lemma DiscoveryDoes(s: NodeState, oks: seq<bool>)
    requires Inv(s) && IsBootstrapping(s) && s.states[BOOTSTRAP].discovering
    ensures Does(s, TriesBegin(s, oks, []), Discovered(s, oks))
  {
    assert Shape(s.states[BOOTSTRAP]);
    var s1 := s.Cancel(BOOTSTRAP, DISCOVERY).Put(BOOTSTRAP, s.states[BOOTSTRAP].(discovering := false));
    BarePut(s.states, BOOTSTRAP, s1.states[BOOTSTRAP]);
    assert s.events + [] == s.events;
    TriesBeginGoes(s, s1, oks, []);
  }

  lemma TryLeaves(s: NodeState, k: Token)
    requires Owns(s.states) && k in s.states && s.states[k].TryPeer?
    ensures IsBootstrapping(s) && k != BOOTSTRAP && k in KidsOf(s.states, BOOTSTRAP)
    ensures var s2 := s.Remove(k).Put(BOOTSTRAP, s.states[BOOTSTRAP].(tries := s.states[BOOTSTRAP].tries - {k}));
            && Bare(s2.states) == Bare(s.states) - {k}
            && (s2.states[BOOTSTRAP].tries == {} <==> KidsOf(s.states, BOOTSTRAP) == {k})
            && EndBootstrap(s2).states == s.states - WithKids(s.states, BOOTSTRAP)
  {
    assert Kin(s.states, k);
    assert Kids(s.states[BOOTSTRAP]) == KidsOf(s.states, BOOTSTRAP) && k in KidsOf(s.states, BOOTSTRAP);
    BareRemove(s.states, {k});
    BarePut(s.states - {k}, BOOTSTRAP, s.states[BOOTSTRAP].(tries := s.states[BOOTSTRAP].tries - {k}));
    assert s.states[BOOTSTRAP].tries - {k} == {} <==> KidsOf(s.states, BOOTSTRAP) == {k};
  }

  lemma TryDoes(s: NodeState, k: Token, res: TryResult, r: Reads)
    requires Inv(s) && k in s.states && s.states[k].TryPeer?
    ensures Does(s, TryOver(s, k, res, r), TryDone(s, k, res, true, r))
  {
    if res.Granted? {
      GrantedDoes(s, k, res.uid, r);
    } else {
      DeniedDoes(s, k, res.reason, r);
    }
  }

  lemma GrantedDoes(s: NodeState, k: Token, u: Uid, r: Reads)
    requires Inv(s) && k in s.states && s.states[k].TryPeer?
    ensures Does(s, TryOver(s, k, Granted(u), r), TryDone(s, k, Granted(u), true, r))
  {
    TryLeaves(s, k);
    var all := WithKids(s.states, BOOTSTRAP);
    BareRemove(s.states, all);
    var s2 := s.Remove(k).Put(BOOTSTRAP, s.states[BOOTSTRAP].(tries := s.states[BOOTSTRAP].tries - {k}));
    GrantDoes(s, EndBootstrap(s2), k, u, r, all);
  }

  lemma DeniedDoes(s: NodeState, k: Token, reason: Option<M.DenyReason>, r: Reads)
    requires Inv(s) && k in s.states && s.states[k].TryPeer?
    ensures Does(s, TryOver(s, k, Denied(reason), r), TryDone(s, k, Denied(reason), true, r))
  {
    TryLeaves(s, k);
    var s2 := s.Remove(k).Put(BOOTSTRAP, s.states[BOOTSTRAP].(tries := s.states[BOOTSTRAP].tries - {k}));
    AfterDenial(s, s2, k);
  }

  lemma AfterDenial(s: NodeState, s2: NodeState, k: Token)
    requires IsBootstrapping(s2) && s2.events == s.events && s2.counter == s.counter
    requires Bare(s2.states) == Bare(s.states) - {k}
    requires EndBootstrap(s2).states == s.states - WithKids(s.states, BOOTSTRAP)
    ensures Does(s, Effect({k}, map[], [], 0), s2)
    ensures Does(s, Effect(WithKids(s.states, BOOTSTRAP), map[], [BootstrapFailed], 0),
                 EndBootstrap(s2).Say(BootstrapFailed))
  {
    assert s.events + [] == s.events;
    BareRemove(s.states, WithKids(s.states, BOOTSTRAP));
  }

  lemma GrantDoes(s: NodeState, s3: NodeState, k: Token, u: Uid, r: Reads, all: set<Token>)
    requires k in all && Bare(s3.states) == Bare(s.states) - all && s3.events == s.events && s3.counter == s.counter
    ensures Does(s, Serves(all, k, u, AsNode, BootstrapConnect(u), r),
                 StartActive(s3, k, u, AsNode, BootstrapConnect(u), true, r))
  {
    var f := Serves({}, k, u, AsNode, BootstrapConnect(u), r);
    ServiceBegins(s3, k, u, AsNode, BootstrapConnect(u), r);
    assert all + {k} == all && {} + {k} == {k};
    assert Bare(s3.states) - {k} == Bare(s.states) - all;
    GoneFirst(s, s3, k, f, all, 0, StartActive(s3, k, u, AsNode, BootstrapConnect(u), true, r));
  }

  // ----- Every step -----

  lemma {:induction false} PurgeGoes(s: NodeState, cs: seq<Token>)
    requires AllActive(s, cs)
    ensures Does(s, Effect(set c | c in cs, map[], Losses(s.states, cs), 0), EndAll(s, cs))
    decreases |cs|
  {
    var gone := set c | c in cs;
    BareRemove(s.states, gone);
    EndAllStates(s, cs);
    EndAllSays(s, cs);
  }

  lemma {:induction false} EndAllSays(s: NodeState, cs: seq<Token>)
    requires AllActive(s, cs)
    ensures EndAll(s, cs).events == s.events + Losses(s.states, cs) && EndAll(s, cs).counter == s.counter
    decreases |cs|
  {
    if cs == [] {
      assert Losses(s.states, cs) == [];
      assert s.events + [] == s.events;
    } else {
      var s1, rest := EndActive(s, cs[0]), cs[1..];
      EndAllSays(s1, rest);
      assert Losses(s.states, cs) == [LostPeer(s.states[cs[0]].peer)] + Losses(s1.states, rest);
      Regrouped(s.events, [LostPeer(s.states[cs[0]].peer)], Losses(s1.states, rest));
    }
  }

  lemma ActiveGoes(s: NodeState, c: Token)
    requires c in s.states && s.states[c].Active?
    ensures Does(s, Effect({c}, map[], [LostPeer(s.states[c].peer)], 0), EndActive(s, c))
  {
    BareRemove(s.states, {c});
  }

  lemma ReplyHeard(s: NodeState, c: Token, registered: bool)
    requires Inv(s) && IsHandshake(s, c) && s.states[c].OutExchange?
    ensures Does(s, EffectOf(0, s, ExchangeReply(c, registered)), PassExchange(s, c, registered))
  {
    assert Kin(s.states, c);
    if registered {
      var st := Candidate(s.states[c].peer, ParentOf(s.states[c]));
      BarePut(s.states, c, st);
      assert Bare(s.states)[c := st] == (Bare(s.states) - {}) + map[c := st];
      assert s.events + [] == s.events;
    } else {
      HandshakeGoes(s, c);
    }
  }

  lemma HearDoes(s: NodeState, c: Token, heard: Heard)
    requires Inv(s) && IsHandshake(s, c) && s.states[c].Candidate?
    ensures Does(s, if heard.Chosen? then Wins(s, c, heard.first)
                    else if heard.Unexpected? then Fails(s, c)
                    else Nothing,
                 Hear(s, c, heard))
  {
    match heard {
      case Chosen(r) => WinnerServes(s, c, r);
      case NothingYet => Stays(s);
      case Unexpected => HandshakeGoes(s, c);
    }
  }

  lemma AttemptStepDoes(us: Uid, s: NodeState, e: Step)
    requires Inv(s) && Enabled(s, e) && OfAttempt(e)
    ensures Does(s, EffectOf(us, s, e), Dispatch(us, s, e))
  {
    match e {
      case Connect(p, oks) => AttemptStarts(s, p, oks);
      case AttemptTimeout(t) => AttemptGoes(s, t);
      case ExchangeReply(c, registered) => ReplyHeard(s, c, registered);
      case HandshakeError(c) => HandshakeGoes(s, c);
      case CandidateWritable(c, wrote, heard) => WritableDoes(us, s, c, wrote, heard);
      case CandidateReadable(c, heard) => HearDoes(s, c, heard);
    }
  }

  lemma ExchangeStepDoes(us: Uid, s: NodeState, e: Step)
    requires Inv(s) && Enabled(s, e) && OfExchange(e)
    ensures Does(s, EffectOf(us, s, e), Dispatch(us, s, e))
  {
    match e {
      case Request(t, u, ask, env, oks, w) => RequestDoes(us, s, t, u, ask, env, oks, w);
      case IncomingWritable(t, w) => WritableReplyDoes(s, t, w);
      case IncomingEnds(t) => IncomingGoes(s, t);
      case CheckEnds(k, reached, w) => CheckDoes(s, k, reached, w);
    }
  }

  lemma BootstrapStepDoes(us: Uid, s: NodeState, e: Step)
    requires Inv(s) && Enabled(s, e) && OfBootstrap(e)
    ensures Does(s, EffectOf(us, s, e), Dispatch(us, s, e))
  {
    match e {
      case Bootstrap(discover, oks) => BootstrapStarts(s, discover, oks);
      case DiscoveryTimeout(oks) => DiscoveryDoes(s, oks);
      case BootstrapTimeout => BootstrapGoes(s, BootstrapFailed);
      case StopBootstrap => BootstrapGoes(s, BootstrapStopped);
      case TryEnds(k, res, r) => TryDoes(s, k, res, r);
      case BootstrapNotStarted(timerLeft) => NotStartedDoes(s, timerLeft);
      case StaleTimeout => StaleDoes(s);
    }
  }

  lemma NotStartedDoes(s: NodeState, timerLeft: bool)
    ensures Does(s, Effect({}, map[], [BootstrapStarted, BootstrapFailed], 0), NotStarted(s, timerLeft))
  {
    assert s.events + [BootstrapStarted, BootstrapFailed] == (s.events + [BootstrapStarted]) + [BootstrapFailed];
  }

  lemma StaleDoes(s: NodeState)
    requires Inv(s) && s.stale > 0
    ensures Does(s, if BOOTSTRAP in s.states then Effect(WithKids(s.states, BOOTSTRAP), map[], [BootstrapFailed], 0)
                    else Nothing,
                 StaleFires(s))
  {
    if BOOTSTRAP in s.states { StaleEnds(s); } else { Stays(s); }
  }

  lemma StaleEnds(s: NodeState)
    requires Owns(s.states) && IsBootstrapping(s) && s.stale > 0
    ensures Does(s, Effect(WithKids(s.states, BOOTSTRAP), map[], [BootstrapFailed], 0), StaleFires(s))
  {
    BootstrapGoes(s.(stale := s.stale - 1), BootstrapFailed);
  }

  lemma DispatchDoes(us: Uid, s: NodeState, e: Step)
    requires Inv(s) && Enabled(s, e)
    ensures Does(s, EffectOf(us, s, e), Dispatch(us, s, e))
  {
    if OfAttempt(e) {
      AttemptStepDoes(us, s, e);
    } else if OfExchange(e) {
      ExchangeStepDoes(us, s, e);
    } else if OfBootstrap(e) {
      BootstrapStepDoes(us, s, e);
    } else {
      OtherStepDoes(us, s, e);
    }
  }

  lemma AcceptDoes(s: NodeState)
    ensures Does(s, Effect({}, map[s.counter := InExchange(false, false, NoNext, {})], [], 1), OpenIncoming(s))
  {
    var x := InExchange(false, false, NoNext, {});
    BarePut(s.states, s.counter, x);
    assert Bare(s.states)[s.counter := x] == (Bare(s.states) - {}) + map[s.counter := x];
    assert s.events + [] == s.events;
  }

  lemma OtherStepDoes(us: Uid, s: NodeState, e: Step)
    requires Inv(s) && Enabled(s, e) && !OfAttempt(e) && !OfExchange(e) && !OfBootstrap(e)
    ensures Does(s, EffectOf(us, s, e), Dispatch(us, s, e))
  {
    match e {
      case ConnectNowhere(p) =>
      case Accept => AcceptDoes(s);
      case ActiveReads(c, r) => ReadGoes(s, c, r);
      case ActiveSends(c, broken) => if broken { ActiveGoes(s, c); } else { Stays(s); }
      case ActiveEnds(c) => ActiveGoes(s, c);
      case Purge(cs) => PurgeGoes(s, cs);
    }
  }

  // ----- Runs -----

  /** In every run each step does this and no other: the table, but for the sets of sub-states, the events
      and the counter are what the effect of the step makes of those before it. */
  lemma StepDoes(us: Uid, ss: seq<NodeState>, es: seq<Step>, n: nat)
    requires IsRun(us, ss, es) && n < |es|
    ensures Does(ss[n], EffectOf(us, ss[n], es[n]), ss[n + 1])
  {
    RunKeeps(us, ss, es, n);
    DispatchDoes(us, ss[n], es[n]);
  }

  /** Two states that keep the invariant and have the same table, but for the sets of sub-states, have the
      same sets too, and the same map. */
  lemma SameShells(a: NodeState, b: NodeState)
    requires Inv(a) && Inv(b) && Bare(a.states) == Bare(b.states)
    ensures a.states == b.states && a.cm == b.cm
  {
    forall t ensures t in a.states <==> t in b.states {
      assert t in Bare(a.states) <==> t in a.states;
      assert t in Bare(b.states) <==> t in b.states;
    }
    forall t | t in a.states ensures a.states[t] == b.states[t] {
      assert Bare(a.states)[t] == Bare(b.states)[t];
      SameKids(a.states, b.states, t);
    }
    SameMap(a.states, a.cm, b.cm);
  }

  lemma SameMap(states: States, a: ConnectionMap, b: ConnectionMap)
    requires Accounts(states, a) && Accounts(states, b)
    ensures a == b
  {
    forall p: Uid
      ensures p in a <==> p in b
      ensures p in a && p in b ==> a[p] == b[p]
    {
      assert Agrees(states, a, p) && Agrees(states, b, p);
      SameEntry(a, b, p, Handshakes(states, p), Actives(states, p));
    }
  }

  lemma SameEntry(a: ConnectionMap, b: ConnectionMap, p: Uid, hs: set<Token>, acts: set<Token>)
    requires Matches(a, p, hs, acts) && Matches(b, p, hs, acts)
    ensures (p in a <==> p in b) && (p in a ==> a[p] == b[p])
  {
    if p in a && a[p].active.Some? { assert a[p].active.value in acts; }
    if p in b && b[p].active.Some? { assert b[p].active.value in acts; }
  }

  lemma SameKids(a: States, b: States, t: Token)
    requires Owns(a) && Owns(b) && Bare(a) == Bare(b) && t in a && t in b
    ensures Kids(a[t]) == Kids(b[t])
  {
    forall c ensures c in KidsOf(a, t) <==> c in KidsOf(b, t) {
      assert c in Bare(a) <==> c in a;
      assert c in Bare(b) <==> c in b;
      if c in a { assert Bare(a)[c] == Bare(b)[c]; }
    }
  }

  /** So a state that keeps the invariant and to which the step's effect leads is the next state of the run:
      table, map, counter and events. */
  lemma NoOtherState(us: Uid, ss: seq<NodeState>, es: seq<Step>, n: nat, s': NodeState)
    requires IsRun(us, ss, es) && n < |es| && Inv(s') && Does(ss[n], EffectOf(us, ss[n], es[n]), s')
    ensures s'.states == ss[n + 1].states && s'.cm == ss[n + 1].cm
    ensures s'.counter == ss[n + 1].counter && s'.events == ss[n + 1].events
  {
    StepDoes(us, ss, es, n);
    RunKeeps(us, ss, es, n + 1);
    SameShells(s', ss[n + 1]);
  }
}
